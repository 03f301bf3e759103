/**
 * LDAP affiliations: which projects a user is a `member` or `owner` of, computed
 * from the directory's project groups and cached per user for an hour.
 *
 * The bind and the search are done by an LDAP client library; here they are an
 * oracle (`Directory`) that says what the bind and the search would give.
 */
module Ldap {
  import opened Values
  import opened Base

  const MemberAttr := "member"
  const OwnerAttr := "owner"
  /** `attrs = [DEFAULT_MEMBER_ATTR, DEFAULT_OWNER_ATTR]` */
  const Attrs := [MemberAttr, OwnerAttr]
  /** Cache LDAP lookups for one hour. */
  const CacheTtl := 3600

  const InvalidCredentials := "Invalid credentials provided"
  const LookupFailed := "Could not perform LDAP authorization check, please try again later."

  // ---------------------------------------------------------------------------
  // The DN template and the two DN patterns

  /** `DEFAULT_LDAP_BASE % username` */
  function UserDn(username: string): string {
    "uid=" + username + ",ou=people,dc=apache,dc=org"
  }

  /** The length of the longest prefix of `s` without a comma: how far `[^,]+` runs. */
  function CommaFreeRun(s: string): (n: nat)
    ensures n <= |s|
    ensures forall i :: 0 <= i < n ==> s[i] != ','
    ensures n == |s| || s[n] == ','
    decreases |s|
  {
    if s == [] || s[0] == ',' then 0 else 1 + CommaFreeRun(s[1..])
  }

  /**
   * `re.match(r"^(?:prefix)?([^,]+)", s).group(1)`: the optional prefix is tried
   * first; if no comma-free text follows it, the match backtracks and takes the
   * comma-free run from the start of `s` (prefix included).
   */
  function PrefixedMatch(prefix: string, s: string): Option<string> {
    if |prefix| <= |s| && s[..|prefix|] == prefix && CommaFreeRun(s[|prefix|..]) > 0 then
      Some(s[|prefix|..][..CommaFreeRun(s[|prefix|..])])
    else if CommaFreeRun(s) > 0 then
      Some(s[..CommaFreeRun(s)])
    else
      None
  }

  /** `GROUP_RE`: the group name of a project DN. */
  function GroupName(dn: string): Option<string> {
    PrefixedMatch("cn=", dn)
  }

  /** `UID_RE`: the user id of a person DN. */
  function UidOf(dn: string): Option<string> {
    PrefixedMatch("uid=", dn)
  }

  predicate CommaFree(s: string) {
    forall i :: 0 <= i < |s| ==> s[i] != ','
  }

  /** The match ends at index `k`: at the end of the DN or right before a comma. */
  predicate EndsAt(s: string, k: nat) {
    k == |s| || (k < |s| && s[k] == ',')
  }

  /**
   * The patterns fail only on an empty DN or one that starts with a comma; otherwise
   * they give a non-empty comma-free run that ends at the end of the DN or at a comma,
   * and that starts right after the prefix or at the start of the DN.
   */
  lemma PrefixedMatchShape(prefix: string, s: string)
    requires |prefix| > 0 && CommaFree(prefix)
    ensures PrefixedMatch(prefix, s).None? <==> s == [] || s[0] == ','
    ensures PrefixedMatch(prefix, s).Some? ==>
              var g := PrefixedMatch(prefix, s).value;
              && |g| > 0 && CommaFree(g)
              && ((ContainsAt(s, prefix, 0) && ContainsAt(s, g, |prefix|) && EndsAt(s, |prefix| + |g|))
                  || (ContainsAt(s, g, 0) && EndsAt(s, |g|)))
  {
    if PrefixedMatch(prefix, s).Some? {
      var g := PrefixedMatch(prefix, s).value;
      if |prefix| <= |s| && s[..|prefix|] == prefix && CommaFreeRun(s[|prefix|..]) > 0 {
        var n := CommaFreeRun(s[|prefix|..]);
        assert s[0..|prefix|] == prefix;
        assert s[|prefix|..|prefix| + n] == g;
        assert |prefix| + n == |s| || s[|prefix| + n] == s[|prefix|..][n];
      } else {
        assert s[0..|g|] == g;
      }
    }
    if |s| > 0 && s[0] != ',' {
      assert CommaFreeRun(s) > 0;
    }
    if |prefix| <= |s| && s[..|prefix|] == prefix {
      assert s[0] == prefix[0];
    }
  }

  /** Stated for `GROUP_RE`: a leading `cn=` is dropped when a name follows it. */
  lemma GroupNameOfCn(name: string, rest: string)
    requires |name| > 0 && CommaFree(name)
    requires rest == [] || rest[0] == ','
    ensures GroupName("cn=" + name + rest) == Some(name)
  {
    var s := "cn=" + name + rest;
    assert s[..3] == "cn=";
    assert s[3..] == name + rest;
    CommaFreeRunOfPrefix(name, rest);
    assert (name + rest)[..|name|] == name;
  }

  /** The comma-free run of `name + rest` is `name` when `rest` is empty or starts with a comma. */
  lemma {:induction false} CommaFreeRunOfPrefix(name: string, rest: string)
    requires CommaFree(name)
    requires rest == [] || rest[0] == ','
    ensures CommaFreeRun(name + rest) == |name|
    decreases |name|
  {
    if name == [] {
      assert name + rest == rest;
    } else {
      assert (name + rest)[0] == name[0];
      assert (name + rest)[1..] == name[1..] + rest;
      CommaFreeRunOfPrefix(name[1..], rest);
    }
  }

  /** The user DN template and `UID_RE` are inverse: the DN of a comma-free user name gives it back. */
  lemma UidOfUserDn(username: string)
    requires |username| > 0 && CommaFree(username)
    ensures UidOf(UserDn(username)) == Some(username)
  {
    var rest := ",ou=people,dc=apache,dc=org";
    var s := UserDn(username);
    assert s == "uid=" + (username + rest);
    assert s[..4] == "uid=";
    assert s[4..] == username + rest;
    CommaFreeRunOfPrefix(username, rest);
    assert (username + rest)[..|username|] == username;
  }

  // ---------------------------------------------------------------------------
  // Partitioning the search result

  /** One search result: its `dn` (if any) and its attribute lists. */
  datatype LdapEntry = LdapEntry(dn: Option<string>, attrs: map<string, seq<string>>)

  /** The user's project lists: a dict with the keys `member` and `owner`. */
  type Affiliations = map<string, seq<string>>

  /** `project.get(xattr, [])` */
  function AttrValues(e: LdapEntry, attr: string): seq<string> {
    if attr in e.attrs then e.attrs[attr] else []
  }

  /** `"dn" in project and any(xattr in project for xattr in attrs)` */
  predicate Considered(e: LdapEntry) {
    e.dn.Some? && (MemberAttr in e.attrs || OwnerAttr in e.attrs)
  }

  /** What one search result adds to the `attr` list for the user with DN `userDn`. */
  function Contribution(e: LdapEntry, userDn: string, attr: string): (r: seq<string>)
    ensures |r| <= 1
  {
    if Considered(e) && GroupName(e.dn.value).Some? && userDn in AttrValues(e, attr) then
      [GroupName(e.dn.value).value]
    else []
  }

  /** The `attr` list built from `entries`, in search-result order. */
  function Projects(entries: seq<LdapEntry>, userDn: string, attr: string): seq<string>
    decreases |entries|
  {
    if entries == [] then []
    else Projects(entries[..|entries| - 1], userDn, attr) + Contribution(entries[|entries| - 1], userDn, attr)
  }

  /** The dict of both lists. */
  function Partition(entries: seq<LdapEntry>, userDn: string): Affiliations {
    map[MemberAttr := Projects(entries, userDn, MemberAttr), OwnerAttr := Projects(entries, userDn, OwnerAttr)]
  }

  /** What filing `projectName` under `attr` adds, when the search result lists the user there. */
  function Filed(project: LdapEntry, projectName: string, userDn: string, attr: string): seq<string> {
    if userDn in AttrValues(project, attr) then [projectName] else []
  }

  /** Each step of the outer loop appends the search result's contribution to both lists. */
  lemma PartitionSnoc(entries: seq<LdapEntry>, i: nat, userDn: string)
    requires i < |entries|
    ensures Partition(entries[..i + 1], userDn) ==
              map[MemberAttr := Partition(entries[..i], userDn)[MemberAttr] + Contribution(entries[i], userDn, MemberAttr),
                  OwnerAttr := Partition(entries[..i], userDn)[OwnerAttr] + Contribution(entries[i], userDn, OwnerAttr)]
  {
    assert entries[..i + 1][..i] == entries[..i];
  }

  /** The inner loop of `get_affiliations`: file one project under each attribute listing the user. */
  method FileProject(groups: Affiliations, project: LdapEntry, projectName: string, userDn: string) returns (groups': Affiliations)
    requires groups.Keys == {MemberAttr, OwnerAttr}
    ensures groups' == map[MemberAttr := groups[MemberAttr] + Filed(project, projectName, userDn, MemberAttr),
                           OwnerAttr := groups[OwnerAttr] + Filed(project, projectName, userDn, OwnerAttr)]
  {
    groups' := groups;
    var j := 0;
    while j < |Attrs|
      invariant 0 <= j <= |Attrs|
      invariant groups'.Keys == {MemberAttr, OwnerAttr}
      invariant forall k :: 0 <= k < j ==>
                  groups'[Attrs[k]] == groups[Attrs[k]] + Filed(project, projectName, userDn, Attrs[k])
      invariant forall k :: j <= k < |Attrs| ==> groups'[Attrs[k]] == groups[Attrs[k]]
    {
      var xattr := Attrs[j];
      if userDn in AttrValues(project, xattr) {
        groups' := groups'[xattr := groups'[xattr] + [projectName]];
      }
      j := j + 1;
    }
    assert groups'[Attrs[0]] == groups[MemberAttr] + Filed(project, projectName, userDn, MemberAttr);
    assert groups'[Attrs[1]] == groups[OwnerAttr] + Filed(project, projectName, userDn, OwnerAttr);
  }

  /** A search result that contributes to neither list leaves both lists as they were. */
  lemma NothingContributed(groups: Affiliations, project: LdapEntry, userDn: string)
    requires groups.Keys == {MemberAttr, OwnerAttr}
    requires !Considered(project) || GroupName(project.dn.value).None?
    ensures groups == map[MemberAttr := groups[MemberAttr] + Contribution(project, userDn, MemberAttr),
                          OwnerAttr := groups[OwnerAttr] + Contribution(project, userDn, OwnerAttr)]
  {
    assert groups[MemberAttr] + [] == groups[MemberAttr];
    assert groups[OwnerAttr] + [] == groups[OwnerAttr];
  }

  /** The loops of `get_affiliations` that fill `ldap_groups` from the search result. */
  method PartitionGroups(entries: seq<LdapEntry>, userDn: string) returns (groups: Affiliations)
    ensures groups == Partition(entries, userDn)
  {
    groups := map[MemberAttr := [], OwnerAttr := []];
    var i := 0;
    assert entries[..0] == [];
    while i < |entries|
      invariant 0 <= i <= |entries|
      invariant groups == Partition(entries[..i], userDn)
    {
      var project := entries[i];
      PartitionSnoc(entries, i, userDn);
      if project.dn.Some? && (MemberAttr in project.attrs || OwnerAttr in project.attrs) {
        var dnMatch := GroupName(project.dn.value);
        if dnMatch.Some? {
          assert Filed(project, dnMatch.value, userDn, MemberAttr) == Contribution(project, userDn, MemberAttr);
          assert Filed(project, dnMatch.value, userDn, OwnerAttr) == Contribution(project, userDn, OwnerAttr);
          groups := FileProject(groups, project, dnMatch.value, userDn);
        } else {
          NothingContributed(groups, project, userDn);
        }
      } else {
        NothingContributed(groups, project, userDn);
      }
      i := i + 1;
    }
    assert entries[..i] == entries;
  }

  /** A result without `dn`, without both attributes, or whose `dn` does not match `GROUP_RE` adds nothing. */
  lemma IgnoredEntries(e: LdapEntry, userDn: string, attr: string)
    requires e.dn.None? || (MemberAttr !in e.attrs && OwnerAttr !in e.attrs) || GroupName(e.dn.value).None?
    ensures Contribution(e, userDn, attr) == []
  {
  }

  /** Lists follow the search-result order: the list of a concatenation is the concatenation of the lists. */
  lemma {:induction false} ProjectsAppend(a: seq<LdapEntry>, b: seq<LdapEntry>, userDn: string, attr: string)
    ensures Projects(a + b, userDn, attr) == Projects(a, userDn, attr) + Projects(b, userDn, attr)
    decreases |b|
  {
    if b == [] {
      assert a + b == a;
    } else {
      var b' := b[..|b| - 1];
      assert (a + b)[..|a + b| - 1] == a + b';
      assert (a + b)[|a + b| - 1] == b[|b| - 1];
      ProjectsAppend(a, b', userDn, attr);
    }
  }

  /**
   * A name is in the `attr` list exactly when some considered search result with that
   * group name lists the user's DN under `attr`.
   */
  lemma {:induction false} ProjectsMembership(entries: seq<LdapEntry>, userDn: string, attr: string, name: string)
    ensures name in Projects(entries, userDn, attr) <==>
              exists i :: 0 <= i < |entries| && Considered(entries[i])
                && GroupName(entries[i].dn.value) == Some(name) && userDn in AttrValues(entries[i], attr)
    decreases |entries|
  {
    if entries != [] {
      var init := entries[..|entries| - 1];
      var last := entries[|entries| - 1];
      ProjectsMembership(init, userDn, attr, name);
      assert forall i :: 0 <= i < |init| ==> init[i] == entries[i];
      if name in Projects(entries, userDn, attr) && name !in Projects(init, userDn, attr) {
        assert name in Contribution(last, userDn, attr);
        assert Considered(entries[|entries| - 1]);
      }
    }
  }

  /** The `member` list and the `owner` list each have at most one name per search result. */
  lemma {:induction false} ProjectsLength(entries: seq<LdapEntry>, userDn: string, attr: string)
    ensures |Projects(entries, userDn, attr)| <= |entries|
    decreases |entries|
  {
    if entries != [] {
      ProjectsLength(entries[..|entries| - 1], userDn, attr);
    }
  }

  // ---------------------------------------------------------------------------
  // The cache and get_affiliations

  /** `LDAP_CACHE[userid] = (time, groups)` */
  datatype CacheEntry = CacheEntry(stamp: int, groups: Affiliations)

  /** The kind of failure the LDAP client raises. */
  datatype LdapError = AuthenticationError | OtherError

  /** What connecting (binding) as the user gives. */
  datatype Bind = Bound | BindFailed(error: LdapError)
  /** What the search of the project groups gives. */
  datatype Search = Found(entries: seq<LdapEntry>) | SearchFailed(error: LdapError)
  /** The directory's answers for this user and password. */
  datatype Directory = Directory(bind: Bind, search: Search)

  /** The `except` clauses: bad credentials are 403, anything else a 500 with a fixed message. */
  function MapError(e: LdapError): Exception {
    match e
    case AuthenticationError => ASFQuartException(InvalidCredentials, 403)
    case OtherError => ASFQuartException(LookupFailed, 500)
  }

  /** A cache entry is used only while its stamp is strictly newer than `now - CacheTtl`. */
  predicate CacheHit(cache: map<string, CacheEntry>, userid: string, now: int) {
    userid in cache && cache[userid].stamp > now - CacheTtl
  }

  datatype LookupStep = LookupStep(result: Result<Affiliations, Exception>, cache: map<string, CacheEntry>)

  /** The specification of `get_affiliations`: the result and the cache it leaves behind. */
  function Lookup(cache: map<string, CacheEntry>, userid: string, userDn: string, now: int, dir: Directory): LookupStep {
    if CacheHit(cache, userid, now) then
      match dir.bind
      case BindFailed(e) => LookupStep(Err(MapError(e)), cache)
      case Bound => LookupStep(Ok(cache[userid].groups), cache)
    else
      match dir.bind
      case BindFailed(e) => LookupStep(Err(MapError(e)), cache)
      case Bound =>
        match dir.search
        case SearchFailed(e) => LookupStep(Err(MapError(e)), cache)
        case Found(entries) =>
          if entries == [] then LookupStep(Err(MapError(OtherError)), cache)
          else
            var groups := Partition(entries, userDn);
            LookupStep(Ok(groups), cache[userid := CacheEntry(now, groups)])
  }

  /** The module-level `LDAP_CACHE`. */
  class LdapCache {
    var entries: map<string, CacheEntry>

    constructor ()
      ensures entries == map[]
    {
      entries := map[];
    }
  }

  /** `LDAPClient(username, password)`; the password only matters through the directory's answers. */
  class LDAPClient {
    const userid: string
    const dn: string

    constructor (username: string)
      ensures userid == username && dn == UserDn(username)
    {
      userid := username;
      dn := UserDn(username);
    }

    /** `get_affiliations()` at time `now`, against the directory's answers `dir`. */
    method GetAffiliations(cache: LdapCache, now: int, dir: Directory) returns (r: Result<Affiliations, Exception>)
      modifies cache
      ensures LookupStep(r, cache.entries) == Lookup(old(cache.entries), userid, dn, now, dir)
    {
      if userid in cache.entries && cache.entries[userid].stamp > now - CacheTtl {
        // Only the credentials need checking.
        if dir.bind.BindFailed? {
          return Err(MapError(dir.bind.error));
        }
      } else {
        if dir.bind.BindFailed? {
          return Err(MapError(dir.bind.error));
        }
        if dir.search.SearchFailed? {
          return Err(MapError(dir.search.error));
        }
        var rv := dir.search.entries;
        if rv == [] {
          // "Empty result set returned by LDAP"
          return Err(MapError(OtherError));
        }
        var ldapGroups := PartitionGroups(rv, dn);
        cache.entries := cache.entries[userid := CacheEntry(now, ldapGroups)];
      }
      r := Ok(cache.entries[userid].groups);
    }
  }

  // ---------------------------------------------------------------------------
  // Properties of the cache

  /**
   * On a cache hit the credentials are still checked, the search is not used (any two
   * directories with the same bind answer give the same outcome), the cache is left
   * as it is and the cached lists are returned unchanged.
   */
  lemma CacheHitBindsOnly(cache: map<string, CacheEntry>, userid: string, userDn: string, now: int, dir: Directory, dir2: Directory)
    requires CacheHit(cache, userid, now)
    requires dir2.bind == dir.bind
    ensures Lookup(cache, userid, userDn, now, dir) == Lookup(cache, userid, userDn, now, dir2)
    ensures Lookup(cache, userid, userDn, now, dir).cache == cache
    ensures dir.bind == Bound ==> Lookup(cache, userid, userDn, now, dir).result == Ok(cache[userid].groups)
    ensures dir.bind.BindFailed? ==> Lookup(cache, userid, userDn, now, dir).result.Err?
  {
  }

  /** An entry stamped exactly one TTL ago is no longer used. */
  lemma CacheExpiresAtTtl(cache: map<string, CacheEntry>, userid: string, now: int)
    requires userid in cache && cache[userid].stamp == now - CacheTtl
    ensures !CacheHit(cache, userid, now)
  {
  }

  /**
   * On a miss with a non-empty search result, the user's entry is replaced wholesale
   * by `(now, groups)`, where `groups` has exactly the keys `member` and `owner` and
   * the lists the partition gives; the result is those lists.
   */
  lemma CacheMissRefreshes(cache: map<string, CacheEntry>, userid: string, userDn: string, now: int, entries: seq<LdapEntry>)
    requires !CacheHit(cache, userid, now)
    requires entries != []
    ensures var step := Lookup(cache, userid, userDn, now, Directory(Bound, Found(entries)));
            && step.result.Ok?
            && step.result.value.Keys == {MemberAttr, OwnerAttr}
            && step.result.value[MemberAttr] == Projects(entries, userDn, MemberAttr)
            && step.result.value[OwnerAttr] == Projects(entries, userDn, OwnerAttr)
            && step.cache == cache[userid := CacheEntry(now, step.result.value)]
            && CacheHit(step.cache, userid, now)
  {
  }

  /** Looking up one user never changes another user's cache entry. */
  lemma OtherUsersUntouched(cache: map<string, CacheEntry>, userid: string, other: string, userDn: string, now: int, dir: Directory)
    requires other != userid
    ensures var c := Lookup(cache, userid, userDn, now, dir).cache;
            (other in c <==> other in cache) && (other in cache ==> c[other] == cache[other])
  {
  }

  /** A failed lookup leaves the cache as it was. */
  lemma FailureKeepsCache(cache: map<string, CacheEntry>, userid: string, userDn: string, now: int, dir: Directory)
    requires Lookup(cache, userid, userDn, now, dir).result.Err?
    ensures Lookup(cache, userid, userDn, now, dir).cache == cache
  {
  }

  /**
   * The error mapping: on a miss, an empty search result is a 500 with the fixed
   * message; every failure is either the 403 for bad credentials or that 500, so no
   * backend detail reaches the client.
   */
  lemma ErrorMapping(cache: map<string, CacheEntry>, userid: string, userDn: string, now: int, dir: Directory)
    ensures !CacheHit(cache, userid, now) && dir == Directory(Bound, Found([])) ==>
              Lookup(cache, userid, userDn, now, dir).result == Err(ASFQuartException(LookupFailed, 500))
    ensures dir.bind == BindFailed(AuthenticationError) ==>
              Lookup(cache, userid, userDn, now, dir).result == Err(ASFQuartException(InvalidCredentials, 403))
    ensures Lookup(cache, userid, userDn, now, dir).result.Err? ==>
              Lookup(cache, userid, userDn, now, dir).result.error in
                {ASFQuartException(InvalidCredentials, 403), ASFQuartException(LookupFailed, 500)}
  {
  }

  /**
   * What the application-wide handler answers for a failed lookup: 403 with the fixed
   * credentials text for bad credentials, and 500 with the fixed "try again later"
   * text for every other failure.
   */
  lemma ErrorResponses(e: LdapError)
    ensures e == AuthenticationError <==> HandleException(MapError(e)).Status() == 403
    ensures e == AuthenticationError ==> HandleException(MapError(e)) == Text(403, InvalidCredentials)
    ensures e == OtherError ==> HandleException(MapError(e)) == Text(500, LookupFailed)
  {
  }
}
