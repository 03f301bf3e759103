/**
 * The cookie-carried session store: one record per application id inside the
 * framework's session dict, with a `uts` last-used stamp and a sliding idle expiry.
 */
module Session {
  import opened Values

  /** `read`'s default `expiry_time`: seven days, in seconds. */
  const DefaultExpiry := 86400 * 7
  /** The key of the last-used timestamp inside a record. */
  const Uts := "uts"

  /** What `read` gives back. */
  datatype ReadResult =
    | NoSession                 // `read` returns None
    | Active(record: Record)    // `read` returns the (refreshed) record
    | UtsTypeError              // comparing a non-numeric `uts` with a number raises TypeError

  /** The result of `read` together with the session dict it leaves behind. */
  datatype ReadStep = ReadStep(result: ReadResult, cookies: map<string, Value>)

  /**
   * `session_dict.get("uts", 0)` as a number: a missing stamp counts as 0, a bool
   * as 0 or 1 (Python's bool is an int); any other value cannot be compared.
   */
  function LastUsed(d: Record): Option<int>
  {
    if Uts !in d then Some(0)
    else match d[Uts]
      case Int(i) => Some(i)
      case Bool(b) => Some(if b then 1 else 0)
      case _ => None
  }

  /** A record whose stamp is strictly before `now - expiryTime` has expired. */
  predicate Expired(uts: int, now: int, expiryTime: int) {
    uts < now - expiryTime
  }

  /** The specification of `read`: the result and the new session dict. */
  function ReadOutcome(cookies: map<string, Value>, appId: string, now: int, expiryTime: int): ReadStep
  {
    if appId !in cookies || !cookies[appId].Dict? then ReadStep(NoSession, cookies)
    else
      var d := cookies[appId].fields;
      match LastUsed(d)
      case None => ReadStep(UtsTypeError, cookies)
      case Some(uts) =>
        if Expired(uts, now, expiryTime) then ReadStep(NoSession, cookies - {appId})
        else
          var refreshed := d[Uts := Int(now)];
          ReadStep(Active(refreshed), cookies[appId := Dict(refreshed)])
  }

  /** The specification of `write`: a copy of `data` stamped with `now` replaces the entry. */
  function Written(cookies: map<string, Value>, appId: string, data: Record, now: int): map<string, Value>
  {
    cookies[appId := Dict(data[Uts := Int(now)])]
  }

  /** The specification of `clear`: the entry is popped if present. */
  function Cleared(cookies: map<string, Value>, appId: string): map<string, Value>
  {
    cookies - {appId}
  }

  /**
   * The framework's session dict (`quart.session`) as seen by one application:
   * `appId` is `base.APP.app_id`, under which this app keeps its record.
   */
  class SessionStore {
    var cookies: map<string, Value>
    const appId: string

    constructor (appId: string, cookies: map<string, Value>)
      ensures this.appId == appId && this.cookies == cookies
    {
      this.appId := appId;
      this.cookies := cookies;
    }

    /** `read(expiry_time)` at time `now`. */
    method Read(now: int, expiryTime: int) returns (r: ReadResult)
      modifies this
      ensures ReadStep(r, cookies) == ReadOutcome(old(cookies), appId, now, expiryTime)
    {
      r := NoSession;
      if appId in cookies {
        var deadline := now - expiryTime;
        var entry := cookies[appId];
        if entry.Dict? {
          var sessionDict := entry.fields;
          var stamp := LastUsed(sessionDict);
          if stamp.None? {
            r := UtsTypeError;
          } else if stamp.value < deadline {
            cookies := cookies - {appId};
          } else {
            sessionDict := sessionDict[Uts := Int(now)];
            cookies := cookies[appId := Dict(sessionDict)];
            r := Active(sessionDict);
          }
        }
      }
    }

    /** `write(session_data)` at time `now`; the caller's `data` is a value and stays as it was. */
    method Write(data: Record, now: int)
      modifies this
      ensures cookies == Written(old(cookies), appId, data, now)
    {
      var dictCopy := data;
      dictCopy := dictCopy[Uts := Int(now)];
      cookies := cookies[appId := Dict(dictCopy)];
    }

    /** `clear()` */
    method Clear()
      modifies this
      ensures cookies == Cleared(old(cookies), appId)
    {
      cookies := cookies - {appId};
    }
  }

  // ---------------------------------------------------------------------------
  // Properties of the store

  /** With no entry, or an entry that is not a dict, `read` returns nothing and changes nothing. */
  lemma ReadAbsent(cookies: map<string, Value>, appId: string, now: int, expiryTime: int)
    requires appId !in cookies || !cookies[appId].Dict?
    ensures ReadOutcome(cookies, appId, now, expiryTime) == ReadStep(NoSession, cookies)
  {
  }

  /**
   * A dict entry with a numeric stamp is deleted and nothing returned exactly when the
   * stamp is strictly before the deadline; otherwise the record comes back with
   * `uts == now` and every other field as stored.
   */
  lemma ReadDecision(cookies: map<string, Value>, appId: string, now: int, expiryTime: int)
    requires appId in cookies && cookies[appId].Dict?
    requires LastUsed(cookies[appId].fields).Some?
    ensures var step := ReadOutcome(cookies, appId, now, expiryTime);
            var d := cookies[appId].fields;
            var uts := LastUsed(d).value;
            && (uts < now - expiryTime <==> step.result == NoSession)
            && (uts < now - expiryTime ==> appId !in step.cookies)
            && (uts >= now - expiryTime ==>
                  && step.result.Active?
                  && step.result.record[Uts] == Int(now)
                  && (forall k :: k in d && k != Uts ==> k in step.result.record && step.result.record[k] == d[k])
                  && step.result.record.Keys == d.Keys + {Uts}
                  && step.cookies[appId] == Dict(step.result.record))
  {
  }

  /** A record stamped exactly at the deadline is still valid. */
  lemma ReadAtDeadline(cookies: map<string, Value>, appId: string, d: Record, now: int, expiryTime: int)
    requires appId in cookies && cookies[appId] == Dict(d)
    requires Uts in d && d[Uts] == Int(now - expiryTime)
    ensures ReadOutcome(cookies, appId, now, expiryTime).result == Active(d[Uts := Int(now)])
  {
  }

  /** A record without `uts` counts as stamped at 0: it expires exactly when `now > expiryTime`. */
  lemma ReadUnstamped(cookies: map<string, Value>, appId: string, d: Record, now: int, expiryTime: int)
    requires appId in cookies && cookies[appId] == Dict(d) && Uts !in d
    ensures ReadOutcome(cookies, appId, now, expiryTime).result == NoSession <==> now > expiryTime
  {
  }

  /** A stamp that is neither a number nor a bool makes `read` raise, leaving the dict as it was. */
  lemma ReadBadStamp(cookies: map<string, Value>, appId: string, d: Record, now: int, expiryTime: int)
    requires appId in cookies && cookies[appId] == Dict(d)
    requires Uts in d && (d[Uts].Str? || d[Uts].Null? || d[Uts].List? || d[Uts].Dict?)
    ensures ReadOutcome(cookies, appId, now, expiryTime) == ReadStep(UtsTypeError, cookies)
  {
  }

  /** A boolean stamp counts as 1 (`True`) or 0 (`False`), since Python's bool is an int. */
  lemma ReadBoolStamp(cookies: map<string, Value>, appId: string, d: Record, b: bool, now: int, expiryTime: int)
    requires appId in cookies && cookies[appId] == Dict(d)
    requires Uts in d && d[Uts] == Bool(b)
    ensures ReadOutcome(cookies, appId, now, expiryTime).result == NoSession <==>
              (if b then 1 else 0) < now - expiryTime
    ensures ReadOutcome(cookies, appId, now, expiryTime).result != UtsTypeError
  {
  }

  /** `write` stores `data` plus `uts = now` under the app id, whatever was there before. */
  lemma WriteStores(cookies: map<string, Value>, appId: string, data: Record, now: int)
    ensures var c := Written(cookies, appId, data, now);
            && appId in c && c[appId].Dict?
            && c[appId].fields.Keys == data.Keys + {Uts}
            && c[appId].fields[Uts] == Int(now)
            && (forall k :: k in data && k != Uts ==> c[appId].fields[k] == data[k])
  {
  }

  /**
   * Round trip: a record written at `t` and read at `t2` with `t2 - t <= expiryTime`
   * comes back as written, with `uts` refreshed to `t2`.
   */
  lemma WriteThenRead(cookies: map<string, Value>, appId: string, data: Record, t: int, t2: int, expiryTime: int)
    requires t2 - t <= expiryTime
    ensures var step := ReadOutcome(Written(cookies, appId, data, t), appId, t2, expiryTime);
            && step.result == Active(data[Uts := Int(t2)])
            && step.cookies == Written(cookies, appId, data, t2)
  {
    var c := Written(cookies, appId, data, t);
    assert c[appId].fields[Uts] == Int(t);
    assert data[Uts := Int(t)][Uts := Int(t2)] == data[Uts := Int(t2)];
  }

  /** ... and after a longer pause the written record is gone. */
  lemma WriteThenReadLate(cookies: map<string, Value>, appId: string, data: Record, t: int, t2: int, expiryTime: int)
    requires t2 - t > expiryTime
    ensures var step := ReadOutcome(Written(cookies, appId, data, t), appId, t2, expiryTime);
            step.result == NoSession && step.cookies == Cleared(cookies, appId)
  {
    var c := Written(cookies, appId, data, t);
    assert c[appId].fields[Uts] == Int(t);
    assert c - {appId} == cookies - {appId};
  }

  /**
   * Reading twice at the same instant gives the same answer and the same dict as
   * reading once (for a non-negative expiry): a request that reads its session
   * in several places sees one consistent session.
   */
  lemma ReadIdempotent(cookies: map<string, Value>, appId: string, now: int, expiryTime: int)
    requires expiryTime >= 0
    ensures var first := ReadOutcome(cookies, appId, now, expiryTime);
            ReadOutcome(first.cookies, appId, now, expiryTime) == first
  {
    var first := ReadOutcome(cookies, appId, now, expiryTime);
    if first.result.Active? {
      var d := first.result.record;
      assert first.cookies[appId] == Dict(d);
      assert LastUsed(d) == Some(now);
      assert d[Uts := Int(now)] == d;
    }
  }

  /**
   * A second read at a later instant `t2` (the gatekeepers' reads within one request)
   * sees what the first read at `t1` left: an active session comes back with the same
   * fields and only `uts` moved to `t2`, unless `t2` is already past the expiry
   * window of the first read's stamp; no session and a bad stamp stay as they were.
   */
  lemma ReadThenReadLater(cookies: map<string, Value>, appId: string, t1: int, t2: int, expiryTime: int)
    ensures var first := ReadOutcome(cookies, appId, t1, expiryTime);
            var second := ReadOutcome(first.cookies, appId, t2, expiryTime);
            && (first.result.Active? && t1 >= t2 - expiryTime ==>
                  && second.result == Active(first.result.record[Uts := Int(t2)])
                  && second.cookies == first.cookies[appId := Dict(second.result.record)])
            && (first.result.Active? && t1 < t2 - expiryTime ==>
                  second.result == NoSession && appId !in second.cookies)
            && (!first.result.Active? ==> second == first)
  {
    var first := ReadOutcome(cookies, appId, t1, expiryTime);
    if first.result.Active? {
      var d := first.result.record;
      assert first.cookies[appId] == Dict(d);
      assert LastUsed(d) == Some(t1);
    }
  }

  /** `clear` removes the entry, and clearing again (or clearing with no entry) changes nothing. */
  lemma ClearIdempotent(cookies: map<string, Value>, appId: string)
    ensures appId !in Cleared(cookies, appId)
    ensures Cleared(Cleared(cookies, appId), appId) == Cleared(cookies, appId)
    ensures appId !in cookies ==> Cleared(cookies, appId) == cookies
  {
  }

  /** `read`, `write` and `clear` never touch the entries of other applications. */
  lemma OtherAppsUntouched(cookies: map<string, Value>, appId: string, other: string, data: Record, now: int, expiryTime: int)
    requires other != appId
    ensures other in ReadOutcome(cookies, appId, now, expiryTime).cookies <==> other in cookies
    ensures other in cookies ==> ReadOutcome(cookies, appId, now, expiryTime).cookies[other] == cookies[other]
    ensures other in Written(cookies, appId, data, now) <==> other in cookies
    ensures other in cookies ==> Written(cookies, appId, data, now)[other] == cookies[other]
    ensures other in Cleared(cookies, appId) <==> other in cookies
    ensures other in cookies ==> Cleared(cookies, appId)[other] == cookies[other]
  {
  }
}
