/**
 * Request helpers: the catch-all form-data converter with its size limit, and the
 * `filename` URL converter (its pattern and its split into root and extension).
 */
module Utils {
  import opened Values
  import opened Base

  /** `DEFAULT_MAX_CONTENT_LENGTH` */
  const DefaultMaxContentLength := 102400

  /** The content types that are treated as form data. */
  const Multipart := "multipart/form-data"
  const UrlEncoded := "application/x-www-form-urlencoded"
  const UrlEncodedAlt := "application/x-url-encoded"

  const TooLargeHead := "Request content length ("
  const TooLargeMiddle := " bytes) is larger than what is permitted for form data ("
  const TooLargeTail := " bytes)!"

  // ---------------------------------------------------------------------------
  // formdata

  /** The request as `formdata` sees it. */
  datatype FormRequest = FormRequest(
    args: map<string, string>,        // `request.args.to_dict()`
    form: map<string, string>,        // `(await request.form).to_dict()`
    contentType: Option<string>,
    contentLength: Option<int>,       // `None` when the request has no Content-Length
    json: Option<Record>)             // the JSON body when `request.is_json`

  /** `content_type and any(x in content_type for x in (...))` */
  predicate IsFormType(contentType: Option<string>) {
    TruthyStr(contentType)
    && (Contains(contentType.value, Multipart) || Contains(contentType.value, UrlEncoded)
        || Contains(contentType.value, UrlEncodedAlt))
  }

  /** `config.get("MAX_CONTENT_LENGTH", DEFAULT_MAX_CONTENT_LENGTH)`; `None` is a missing key. */
  function MaxSize(configured: Option<int>): int {
    if configured.Some? then configured.value else DefaultMaxContentLength
  }

  function TooLargeMessage(length: int, maxSize: int): string {
    TooLargeHead + IntToString(length) + TooLargeMiddle + IntToString(maxSize) + TooLargeTail
  }

  /** A string-valued dict as a dict of Python values. */
  function AsValues(m: map<string, string>): Record
  {
    map k | k in m :: Str(m[k])
  }

  /** The dict `formdata` builds: query arguments, then form fields, then the JSON body. */
  function Merged(req: FormRequest): Record {
    var fromForm := if |req.form| > 0 then AsValues(req.args) + AsValues(req.form) else AsValues(req.args);
    if req.json.Some? then fromForm + req.json.value else fromForm
  }

  /**
   * The outcome of `formdata()`: the merged dict, or the 413 response for form content
   * longer than the limit. A form content type without a length cannot be compared
   * with the limit (`None > max_size` raises TypeError) and ends in a server error.
   */
  function FormOutcome(req: FormRequest, configuredMax: Option<int>): Result<Record, Response> {
    if IsFormType(req.contentType) && req.contentLength.None? then Err(ServerError)
    else if IsFormType(req.contentType) && req.contentLength.value > MaxSize(configuredMax) then
      Err(Text(413, TooLargeMessage(req.contentLength.value, MaxSize(configuredMax))))
    else Ok(Merged(req))
  }

  /** `formdata()` */
  method FormData(req: FormRequest, configuredMax: Option<int>) returns (r: Result<Record, Response>)
    ensures r == FormOutcome(req, configuredMax)
  {
    var formData: Record := map[];
    formData := formData + AsValues(req.args);
    var xform := req.form;
    if IsFormType(req.contentType) {
      var maxSize := MaxSize(configuredMax);
      if req.contentLength.None? {
        return Err(ServerError);
      }
      if req.contentLength.value > maxSize {
        return Err(Text(413, TooLargeMessage(req.contentLength.value, maxSize)));
      }
    }
    assert formData == AsValues(req.args);
    if |xform| > 0 {
      formData := formData + AsValues(xform);
    }
    if req.json.Some? {
      formData := formData + req.json.value;
    }
    return Ok(formData);
  }

  /** Converting keeps the keys and wraps each value as a Python string. */
  lemma AsValuesEntries(m: map<string, string>)
    ensures AsValues(m).Keys == m.Keys
    ensures forall k :: k in m ==> AsValues(m)[k] == Str(m[k])
  {
  }

  /**
   * Later sources override earlier ones: the merged dict has the keys of all three,
   * and each key takes its JSON value if the body has it, else its form value, else
   * its query value.
   */
  lemma MergePrecedence(req: FormRequest)
    ensures var jsonKeys := if req.json.Some? then req.json.value.Keys else {};
            Merged(req).Keys == req.args.Keys + req.form.Keys + jsonKeys
    ensures forall k :: k in Merged(req) ==>
              Merged(req)[k] == if req.json.Some? && k in req.json.value then req.json.value[k]
                                else if k in req.form then Str(req.form[k])
                                else Str(req.args[k])
  {
    AsValuesEntries(req.args);
    AsValuesEntries(req.form);
    if |req.form| == 0 {
      assert req.form.Keys == {};
    }
    var fromForm := if |req.form| > 0 then AsValues(req.args) + AsValues(req.form) else AsValues(req.args);
    forall k | k in fromForm
      ensures fromForm[k] == if k in req.form then Str(req.form[k]) else Str(req.args[k])
    {
      if k in req.form {
        assert fromForm[k] == AsValues(req.form)[k];
      } else {
        assert fromForm[k] == AsValues(req.args)[k];
      }
    }
  }

  /**
   * The size rule: the request is refused exactly when its content type is a form type
   * and its length is missing or strictly above the limit (the configured one, or
   * 102400 when none is configured); a refusal with a length is the 413 response.
   */
  lemma FormOutcomeDecision(req: FormRequest, configuredMax: Option<int>)
    ensures FormOutcome(req, configuredMax).Err? <==>
              IsFormType(req.contentType)
              && (req.contentLength.None? || req.contentLength.value > MaxSize(configuredMax))
    ensures FormOutcome(req, configuredMax).Ok? ==> FormOutcome(req, configuredMax).value == Merged(req)
    ensures FormOutcome(req, configuredMax).Err? && req.contentLength.Some? ==>
              FormOutcome(req, configuredMax).error.Text?
              && FormOutcome(req, configuredMax).error.status == 413
    ensures configuredMax.None? ==> MaxSize(configuredMax) == DefaultMaxContentLength
  {
  }

  /** A form body exactly at the limit is accepted; one byte more is refused with 413. */
  lemma LimitBoundary(req: FormRequest, configuredMax: Option<int>)
    requires IsFormType(req.contentType) && req.contentLength.Some?
    ensures req.contentLength.value == MaxSize(configuredMax) ==> FormOutcome(req, configuredMax) == Ok(Merged(req))
    ensures req.contentLength.value == MaxSize(configuredMax) + 1 ==>
              FormOutcome(req, configuredMax).Err? && FormOutcome(req, configuredMax).error.status == 413
  {
  }

  /** A multipart content type with parameters is recognised as form data. */
  lemma MultipartWithBoundary(boundary: string)
    ensures IsFormType(Some(Multipart + "; boundary=" + boundary))
  {
    var ct := Multipart + "; boundary=" + boundary;
    assert ContainsAt(ct, Multipart, 0) by {
      assert ct[0..|Multipart|] == Multipart;
    }
  }

  /** Without a content type (or with an empty one) the size is never checked. */
  lemma NoContentTypeNoLimit(contentType: Option<string>)
    requires contentType.None? || contentType == Some("")
    ensures !IsFormType(contentType)
  {
  }

  /** Each of four leading parts sits where the concatenation puts it. */
  lemma PartsInPlace(a: string, b: string, c: string, d: string, e: string)
    ensures ContainsAt(a + b + c + d + e, a, 0)
    ensures ContainsAt(a + b + c + d + e, b, |a|)
    ensures ContainsAt(a + b + c + d + e, c, |a| + |b|)
    ensures ContainsAt(a + b + c + d + e, d, |a| + |b| + |c|)
  {
    var m := a + b + c + d + e;
    assert m[0..|a|] == a;
    assert m[|a|..|a| + |b|] == b;
    assert m[|a| + |b|..|a| + |b| + |c|] == c;
    assert m[|a| + |b| + |c|..|a| + |b| + |c| + |d|] == d;
  }

  /** The message of the 413 response names the length first and the limit second. */
  lemma TooLargeMessageShape(length: int, maxSize: int)
    ensures var m := TooLargeMessage(length, maxSize);
            && ContainsAt(m, TooLargeHead, 0)
            && ContainsAt(m, IntToString(length), |TooLargeHead|)
            && ContainsAt(m, TooLargeMiddle, |TooLargeHead| + |IntToString(length)|)
            && ContainsAt(m, IntToString(maxSize), |TooLargeHead| + |IntToString(length)| + |TooLargeMiddle|)
  {
    PartsInPlace(TooLargeHead, IntToString(length), TooLargeMiddle, IntToString(maxSize), TooLargeTail);
  }

  // ---------------------------------------------------------------------------
  // FilenameConverter

  predicate AsciiAlnum(c: char) {
    ('A' <= c <= 'Z') || ('a' <= c <= 'z') || ('0' <= c <= '9')
  }

  /** How far the greedy `[^/.]*` runs from the start of `s`. */
  function Stem(s: string): (n: nat)
    ensures n <= |s|
    ensures forall i :: 0 <= i < n ==> s[i] != '/' && s[i] != '.'
    ensures n == |s| || s[n] == '/' || s[n] == '.'
    decreases |s|
  {
    if s == [] || s[0] == '/' || s[0] == '.' then 0 else 1 + Stem(s[1..])
  }

  /**
   * `FilenameConverter.regex`, `^[^/.]*(\.[A-Za-z0-9]+)?$`, matched against a whole
   * string. Giving characters back from `[^/.]*` never helps, since the group must
   * start with a dot, so the greedy run decides.
   */
  predicate FilenameMatches(s: string) {
    var n := Stem(s);
    n == |s|
    || (s[n] == '.' && n + 1 < |s| && forall j :: n + 1 <= j < |s| ==> AsciiAlnum(s[j]))
  }

  /**
   * The pattern accepts exactly the strings without a slash that either have no dot,
   * or have one dot followed by one or more ASCII letters or digits up to the end.
   */
  lemma FilenameMatchesIff(s: string)
    ensures FilenameMatches(s) <==>
              && (forall i :: 0 <= i < |s| ==> s[i] != '/')
              && ((forall i :: 0 <= i < |s| ==> s[i] != '.')
                  || exists d :: 0 <= d < |s| && s[d] == '.' && d + 1 < |s|
                       && (forall j :: 0 <= j < d ==> s[j] != '.')
                       && (forall j :: d < j < |s| ==> AsciiAlnum(s[j])))
  {
    var n := Stem(s);
    if n < |s| {
      if s[n] == '.' {
        if !FilenameMatches(s) {
          // no later dot can start the extension: the first dot is at n
          forall d | 0 <= d < |s| && s[d] == '.' && (forall j :: 0 <= j < d ==> s[j] != '.')
            ensures !(d + 1 < |s| && forall j :: d < j < |s| ==> AsciiAlnum(s[j]))
          {
            assert d == n;
          }
        }
      }
    }
  }

  /** `str.rfind(c)`: the last index of `c` in `s`, or -1. */
  function RFind(s: string, c: char): (r: int)
    ensures -1 <= r < |s|
    ensures r >= 0 ==> s[r] == c
    ensures forall j :: r < j < |s| ==> s[j] != c
    decreases |s|
  {
    if s == [] then -1
    else if s[|s| - 1] == c then |s| - 1
    else RFind(s[..|s| - 1], c)
  }

  /**
   * `os.path.splitext` on POSIX paths: the extension starts at the last dot after the
   * last slash, unless everything between that slash and the dot is dots.
   */
  function SplitExtSpec(p: string): (string, string) {
    var sepIndex := RFind(p, '/');
    var dotIndex := RFind(p, '.');
    if dotIndex > sepIndex && exists i :: sepIndex + 1 <= i < dotIndex && p[i] != '.' then
      (p[..dotIndex], p[dotIndex..])
    else
      (p, [])
  }

  /** `FilenameConverter.to_python(filename)`, that is `os.path.splitext(filename)`. */
  method SplitExt(p: string) returns (root: string, ext: string)
    ensures (root, ext) == SplitExtSpec(p)
    ensures root + ext == p
  {
    var sepIndex := RFind(p, '/');
    var dotIndex := RFind(p, '.');
    if dotIndex > sepIndex {
      // skip all leading dots
      var filenameIndex := sepIndex + 1;
      while filenameIndex < dotIndex
        invariant sepIndex + 1 <= filenameIndex <= dotIndex
        invariant forall i :: sepIndex + 1 <= i < filenameIndex ==> p[i] == '.'
      {
        if p[filenameIndex] != '.' {
          assert p[..dotIndex] + p[dotIndex..] == p;
          return p[..dotIndex], p[dotIndex..];
        }
        filenameIndex := filenameIndex + 1;
      }
    }
    return p, [];
  }

  /** The split never loses or adds a character. */
  lemma SplitExtConcat(p: string)
    ensures SplitExtSpec(p).0 + SplitExtSpec(p).1 == p
  {
    var dotIndex := RFind(p, '.');
    if dotIndex > RFind(p, '/') {
      assert p[..dotIndex] + p[dotIndex..] == p;
    }
  }

  /**
   * On the names the converter accepts: a dot-less name has no extension; a name with
   * text before its dot splits at the dot, the extension being the dot and what
   * follows; a name that starts with its dot (`.txt`) has no extension.
   */
  lemma AcceptedSplit(f: string)
    requires FilenameMatches(f)
    ensures Stem(f) == |f| ==> SplitExtSpec(f) == (f, [])
    ensures 0 < Stem(f) < |f| ==>
              && SplitExtSpec(f) == (f[..Stem(f)], f[Stem(f)..])
              && |f[Stem(f)..]| >= 2 && f[Stem(f)] == '.'
              && (forall j :: Stem(f) < j < |f| ==> AsciiAlnum(f[j]))
    ensures Stem(f) == 0 < |f| ==> SplitExtSpec(f) == (f, [])
  {
    var n := Stem(f);
    forall i | 0 <= i < |f|
      ensures f[i] != '/'
    {
      if i > n { assert AsciiAlnum(f[i]); }
    }
    if n < |f| {
      forall j | n < j < |f|
        ensures f[j] != '.'
      {
        assert AsciiAlnum(f[j]);
      }
      assert RFind(f, '.') == n;
      if n > 0 {
        assert f[0] != '.';
      }
    }
  }
}
