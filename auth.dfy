/**
 * The authorization decisions: which organizational roles a session record holds,
 * and the three gatekeepers (`auth_required`, `mfa_required`, `role_required`)
 * that admit a request or raise `AuthenticationFailed`.
 *
 * Each gatekeeper is modelled on the session that `session.read()` returned for
 * the request (`None` or a dict). The wrappers read it again in turn, a little
 * later; `Session.ReadThenReadLater` shows that, within the expiry window, each
 * later read sees the same fields with only `uts` moved on. When `read()`
 * raises instead (a `uts` stamp that is not a number, `Session.UtsTypeError`),
 * every gatekeeper raises with it and the request ends in a 500.
 *
 * `Admit` means that the request gets past the check, not what it then returns:
 * the wrappers await the handler but do not return its result. Under
 * `mfa_required` and `role_required` the handler is called without arguments, so
 * on a route with URL variables an admitted request ends in a 500 (TypeError)
 * and the handler never runs.
 */
module Auth {
  import opened Values
  import opened Base

  /** The `roles` enum. */
  datatype Role = Committer | Member | Chair | Director | Secretary | Infrastructure | Root | Security

  /** What a gatekeeper does with a request. */
  datatype Decision = Admit | Deny(error: Exception)

  /**
   * An `all_of`/`any_of` argument: `None`, a single enum value, or a list/tuple of
   * them.
   */
  datatype RoleArg = Absent | One(role: Role) | Many(roles: seq<Role>)

  const NotAuthenticated := "You must authenticate yourself before you can access this endpoint."
  const NoMfa := "This endpoint can only be accessed through a multi-factor authenticated session."
  const MissingRole := "This endpoint requires an organizational role your account does not have."

  /** `check_role(client_session, role)` */
  predicate CheckRole(s: Record, role: Role) {
    if role == Committer && |s| > 0 then true
    else if role == Member && IsTrue(s, "isMember") then true
    else if role == Chair && IsTrue(s, "isChair") then true
    else if role == Root && IsTrue(s, "isRoot") then true
    else false
  }

  /** `auth_required`: the session must be a non-empty dict. */
  function AuthRequired(session: Option<Record>): Decision {
    if !TruthyRecord(session) then Deny(AuthFailure(NotAuthenticated)) else Admit
  }

  /** `mfa_required`: `auth_required`, then the session's `mfa` must be exactly `True`. */
  function MfaRequired(session: Option<Record>): Decision {
    match AuthRequired(session)
    case Deny(e) => Deny(e)
    case Admit => if !IsTrue(session.value, "mfa") then Deny(AuthFailure(NoMfa)) else Admit
  }

  /** The conversion `role_wrapper` applies: a single enum value becomes a one-element list. */
  function AsList(arg: RoleArg): seq<Role> {
    match arg
    case Absent => []
    case One(r) => [r]
    case Many(rs) => rs
  }

  /** `all(check_role(s, role) for role in roles)` */
  predicate AllHold(s: Record, roles: seq<Role>)
    decreases |roles|
  {
    if roles == [] then true else CheckRole(s, roles[0]) && AllHold(s, roles[1..])
  }

  /** `any(check_role(s, role) for role in roles)` */
  predicate AnyHolds(s: Record, roles: seq<Role>)
    decreases |roles|
  {
    if roles == [] then false else CheckRole(s, roles[0]) || AnyHolds(s, roles[1..])
  }

  /**
   * `role_required(all_of, any_of)`: `auth_required` first; then a non-empty
   * `all_of` needs every role, then a non-empty `any_of` needs at least one.
   */
  function RoleRequired(allOf: RoleArg, anyOf: RoleArg, session: Option<Record>): Decision {
    match AuthRequired(session)
    case Deny(e) => Deny(e)
    case Admit =>
      var s := session.value;
      var all := AsList(allOf);
      var any := AsList(anyOf);
      if |all| > 0 && !AllHold(s, all) then Deny(AuthFailure(MissingRole))
      else if |any| > 0 && !AnyHolds(s, any) then Deny(AuthFailure(MissingRole))
      else Admit
  }

  /** The defaults of `role_required()`. */
  const DefaultAllOf := One(Committer)
  const DefaultAnyOf := Absent

  // ---------------------------------------------------------------------------
  // Properties

  /** `committer` holds exactly for a non-empty session. */
  lemma CommitterIffNonEmpty(s: Record)
    ensures CheckRole(s, Committer) <==> |s| > 0
  {
  }

  /**
   * `member`, `chair` and `root` hold exactly when their flag is the boolean `True`;
   * a truthy non-boolean such as `1` or `"yes"` does not count.
   */
  lemma FlagRoles(s: Record)
    ensures CheckRole(s, Member) <==> ("isMember" in s && s["isMember"] == Bool(true))
    ensures CheckRole(s, Chair) <==> ("isChair" in s && s["isChair"] == Bool(true))
    ensures CheckRole(s, Root) <==> ("isRoot" in s && s["isRoot"] == Bool(true))
  {
  }

  /** `director`, `secretary`, `infrastructure` and `security` are never granted. */
  lemma UncheckedRolesNeverHold(s: Record)
    ensures !CheckRole(s, Director) && !CheckRole(s, Secretary)
    ensures !CheckRole(s, Infrastructure) && !CheckRole(s, Security)
  {
  }

  /** `auth_required` admits exactly a non-empty dict, and otherwise raises a 403 `AuthenticationFailed`. */
  lemma AuthRequiredDecision(session: Option<Record>)
    ensures AuthRequired(session) == Admit <==> session.Some? && |session.value| > 0
    ensures AuthRequired(session).Deny? ==>
              AuthRequired(session).error == AuthenticationFailed(NotAuthenticated, 403)
  {
  }

  /** `mfa_required` admits exactly what `auth_required` admits and has `mfa` set to `True`. */
  lemma MfaRequiredDecision(session: Option<Record>)
    ensures MfaRequired(session) == Admit <==>
              AuthRequired(session) == Admit && IsTrue(session.value, "mfa")
    ensures AuthRequired(session).Deny? ==> MfaRequired(session) == AuthRequired(session)
    ensures AuthRequired(session) == Admit && !IsTrue(session.value, "mfa") ==>
              MfaRequired(session) == Deny(AuthenticationFailed(NoMfa, 403))
  {
  }

  /** `all(...)` over the list is "every listed role holds". */
  lemma {:induction false} AllHoldMeansEvery(s: Record, roles: seq<Role>)
    ensures AllHold(s, roles) <==> forall i :: 0 <= i < |roles| ==> CheckRole(s, roles[i])
    decreases |roles|
  {
    if roles != [] {
      AllHoldMeansEvery(s, roles[1..]);
      assert forall i :: 1 <= i < |roles| ==> roles[i] == roles[1..][i - 1];
    }
  }

  /** `any(...)` over the list is "some listed role holds". */
  lemma {:induction false} AnyHoldsMeansSome(s: Record, roles: seq<Role>)
    ensures AnyHolds(s, roles) <==> exists i :: 0 <= i < |roles| && CheckRole(s, roles[i])
    decreases |roles|
  {
    if roles != [] {
      AnyHoldsMeansSome(s, roles[1..]);
      assert forall i :: 1 <= i < |roles| ==> roles[i] == roles[1..][i - 1];
      if AnyHolds(s, roles[1..]) {
        var j :| 0 <= j < |roles[1..]| && CheckRole(s, roles[1..][j]);
        assert CheckRole(s, roles[j + 1]);
      }
    }
  }

  /**
   * `role_required` admits exactly a non-empty session for which every `all_of`
   * role holds and, when `any_of` is non-empty, some `any_of` role holds. A failed
   * `auth_required` is reported first; both role failures share one message.
   */
  lemma RoleRequiredDecision(allOf: RoleArg, anyOf: RoleArg, session: Option<Record>)
    ensures RoleRequired(allOf, anyOf, session) == Admit <==>
              && TruthyRecord(session)
              && (forall i :: 0 <= i < |AsList(allOf)| ==> CheckRole(session.value, AsList(allOf)[i]))
              && (|AsList(anyOf)| > 0 ==>
                    exists i :: 0 <= i < |AsList(anyOf)| && CheckRole(session.value, AsList(anyOf)[i]))
    ensures !TruthyRecord(session) ==>
              RoleRequired(allOf, anyOf, session) == Deny(AuthenticationFailed(NotAuthenticated, 403))
    ensures TruthyRecord(session) && RoleRequired(allOf, anyOf, session).Deny? ==>
              RoleRequired(allOf, anyOf, session) == Deny(AuthenticationFailed(MissingRole, 403))
  {
    if TruthyRecord(session) {
      AllHoldMeansEvery(session.value, AsList(allOf));
      AnyHoldsMeansSome(session.value, AsList(anyOf));
    }
  }

  /** A single enum role behaves exactly as the one-element list holding it. */
  lemma SingleRoleIsOneElementList(r: Role, other: RoleArg, session: Option<Record>)
    ensures RoleRequired(One(r), other, session) == RoleRequired(Many([r]), other, session)
    ensures RoleRequired(other, One(r), session) == RoleRequired(other, Many([r]), session)
  {
  }

  /** `None` and the empty list impose no constraint. */
  lemma EmptyRoleListsAreNoConstraint(other: RoleArg, session: Option<Record>)
    ensures RoleRequired(Absent, other, session) == RoleRequired(Many([]), other, session)
    ensures RoleRequired(other, Absent, session) == RoleRequired(other, Many([]), session)
    ensures RoleRequired(Absent, Absent, session) == AuthRequired(session)
  {
  }

  /** `role_required()` with its defaults admits exactly the sessions `auth_required` admits. */
  lemma DefaultRoleRequiredIsAuthRequired(session: Option<Record>)
    ensures RoleRequired(DefaultAllOf, DefaultAnyOf, session) == AuthRequired(session)
  {
  }

  /**
   * What the application-wide handler answers for a gatekeeper's denial: always 403,
   * with the fixed text of the check that failed. This holds while `enforce_login`
   * is not installed; once it is, its more specific handler for
   * `AuthenticationFailed` answers instead (`Generics.EnforceLoginDecision`).
   */
  lemma DenialResponses(allOf: RoleArg, anyOf: RoleArg, session: Option<Record>)
    ensures AuthRequired(session).Deny? ==>
              HandleException(AuthRequired(session).error) == Text(403, NotAuthenticated)
    ensures MfaRequired(session).Deny? ==>
              HandleException(MfaRequired(session).error)
                == Text(403, if TruthyRecord(session) then NoMfa else NotAuthenticated)
    ensures RoleRequired(allOf, anyOf, session).Deny? ==>
              HandleException(RoleRequired(allOf, anyOf, session).error)
                == Text(403, if TruthyRecord(session) then MissingRole else NotAuthenticated)
  {
    RoleRequiredDecision(allOf, anyOf, session);
  }
}
