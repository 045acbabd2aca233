/**
 * Redaction of secrets before anything is logged (api.py:44-102).  The code
 * compares a key's lower-cased text with SENSITIVE_KEYS; the entry
 * "deviceToken" there is written in mixed case, so no lower-cased key can
 * ever match it and a "deviceToken" field is logged as it is.  The model
 * keeps that comparison as IsSensitiveAsWritten and also states the evident
 * intent, IsSensitive: the key's lower-cased text against the lower-cased
 * entries.  Each sanitiser takes the comparison it applies as a KeyTest, so
 * every property below holds for the code as written and for the fix.
 */
module Sanitize {
  import opened Wrappers
  import opened PyJson

  const Redacted: string := "***REDACTED***"

  const SensitiveKeys: set<string> := {
    "authorization", "password", "deviceToken", "token", "access_token",
    "refresh_token", "id_token", "client_secret", "secret", "cookie", "set-cookie"
  }

  /** `str(k).lower() in SENSITIVE_KEYS`, as written. */
  predicate IsSensitiveAsWritten(key: string) {
    Lower(key) in SensitiveKeys
  }

  /** The entries of SENSITIVE_KEYS in lower case. */
  const LoweredSensitiveKeys: set<string> := {
    "authorization", "password", "devicetoken", "token", "access_token",
    "refresh_token", "id_token", "client_secret", "secret", "cookie", "set-cookie"
  }

  /** A key is redacted when it matches an entry of SENSITIVE_KEYS, ignoring case. */
  predicate IsSensitive(key: string) {
    Lower(key) in LoweredSensitiveKeys
  }

  /** Lower-cased text has no capital letter, so it never equals "deviceToken". */
  lemma LowerIsNotDeviceToken(key: string)
    ensures Lower(key) != "deviceToken"
  {
    if |key| == |"deviceToken"| {
      assert Lower(key)[6] == LowerChar(key[6]) != 'T';
    }
  }

  /**
   * The comparison as written misses exactly the device token: it redacts
   * precisely the keys the corrected one redacts, except "deviceToken" in
   * any case.
   */
  lemma AsWrittenMissesOnlyDeviceToken(key: string)
    ensures IsSensitiveAsWritten(key) <==> IsSensitive(key) && Lower(key) != "devicetoken"
  {
    LowerIsNotDeviceToken(key);
    assert SensitiveKeys - {"deviceToken"} == LoweredSensitiveKeys - {"devicetoken"};
  }

  /**
   * Which key comparison a sanitiser applies: the one the code performs, or
   * the corrected one.
   */
  datatype KeyTest = AsWritten | Corrected

  predicate Sensitive(test: KeyTest, key: string) {
    match test
    case AsWritten => IsSensitiveAsWritten(key)
    case Corrected => IsSensitive(key)
  }

  /** Lower-casing twice is lower-casing once. */
  lemma LowerIdempotent(s: string)
    ensures Lower(Lower(s)) == Lower(s)
  {
    assert forall i :: 0 <= i < |s| ==> LowerChar(LowerChar(s[i])) == LowerChar(s[i]);
  }

  /** Under either comparison a key is sensitive exactly when its lower-cased text is. */
  lemma SensitiveIgnoresCase(test: KeyTest, key: string)
    ensures Sensitive(test, key) <==> Sensitive(test, Lower(key))
  {
    LowerIdempotent(key);
  }

  /** `_sanitize_mapping`: replace the value of every sensitive key, at any depth. */
  function SanitizeMapping(test: KeyTest, j: Json): (r: Json)
    ensures j.Obj? ==> r.Obj? && r.fields.Keys == j.fields.Keys
    ensures j.Obj? ==> forall k :: k in j.fields && Sensitive(test, k) ==> r.fields[k] == Str(Redacted)
    ensures j.Arr? ==> r.Arr? && |r.items| == |j.items|
    ensures !j.Obj? && !j.Arr? ==> r == j
  {
    match j
    case Obj(m) => Obj(map k | k in m :: if Sensitive(test, k) then Str(Redacted) else SanitizeMapping(test, m[k]))
    case Arr(a) => Arr(seq(|a|, i requires 0 <= i < |a| => SanitizeMapping(test, a[i])))
    case _ => j
  }

  /** No sensitive key anywhere in `j` holds anything but the redaction marker. */
  predicate Clean(test: KeyTest, j: Json) {
    match j
    case Obj(m) => forall k :: k in m ==> if Sensitive(test, k) then m[k] == Str(Redacted) else Clean(test, m[k])
    case Arr(a) => forall i :: 0 <= i < |a| ==> Clean(test, a[i])
    case _ => true
  }

  /** Whatever goes in, what comes out carries no secret under a sensitive key. */
  lemma {:induction false} SanitizedIsClean(test: KeyTest, j: Json)
    ensures Clean(test, SanitizeMapping(test, j))
    decreases j
  {
    match j
    case Obj(m) =>
      var r := SanitizeMapping(test, j);
      forall k | k in m && !Sensitive(test, k) ensures Clean(test, r.fields[k]) {
        SanitizedIsClean(test, m[k]);
      }
    case Arr(a) =>
      forall i | 0 <= i < |a| ensures Clean(test, SanitizeMapping(test, j).items[i]) {
        SanitizedIsClean(test, a[i]);
      }
    case _ =>
  }

  /**
   * `j` with the value of every sensitive key, at any depth, replaced by
   * None: the part of a payload that logging must leave as it is.
   */
  function Masked(test: KeyTest, j: Json): Json {
    match j
    case Obj(m) => Obj(map k | k in m :: if Sensitive(test, k) then Null else Masked(test, m[k]))
    case Arr(a) => Arr(seq(|a|, i requires 0 <= i < |a| => Masked(test, a[i])))
    case _ => j
  }

  /** Sanitising changes nothing outside the values of sensitive keys, at any depth. */
  lemma {:induction false} SanitizeKeepsTheRest(test: KeyTest, j: Json)
    ensures Masked(test, SanitizeMapping(test, j)) == Masked(test, j)
    decreases j
  {
    match j
    case Obj(m) =>
      var l, r := Masked(test, SanitizeMapping(test, j)), Masked(test, j);
      forall k | k in m && !Sensitive(test, k) ensures l.fields[k] == r.fields[k] {
        SanitizeKeepsTheRest(test, m[k]);
      }
      assert l.fields == r.fields;
    case Arr(a) =>
      var l, r := Masked(test, SanitizeMapping(test, j)), Masked(test, j);
      forall i | 0 <= i < |a| ensures l.items[i] == r.items[i] {
        SanitizeKeepsTheRest(test, a[i]);
      }
      assert l.items == r.items;
    case _ =>
  }

  /**
   * The sanitised value is the only one that is clean and agrees with the
   * input outside the values of sensitive keys.
   */
  lemma {:induction false} SanitizedIsUnique(test: KeyTest, j: Json, r: Json)
    requires Clean(test, r) && Masked(test, r) == Masked(test, j)
    ensures r == SanitizeMapping(test, j)
    decreases j
  {
    match j
    case Obj(m) =>
      assert r.Obj?;
      var s := SanitizeMapping(test, j);
      assert r.fields.Keys == m.Keys by {
        assert Masked(test, r).fields.Keys == r.fields.Keys;
      }
      forall k | k in m ensures r.fields[k] == s.fields[k] {
        if !Sensitive(test, k) {
          assert Masked(test, r).fields[k] == Masked(test, m[k]);
          SanitizedIsUnique(test, m[k], r.fields[k]);
        }
      }
      assert r.fields == s.fields;
    case Arr(a) =>
      assert r.Arr?;
      var s := SanitizeMapping(test, j);
      assert |r.items| == |a| by {
        assert |Masked(test, r).items| == |r.items|;
      }
      forall i | 0 <= i < |a| ensures r.items[i] == s.items[i] {
        assert Masked(test, r).items[i] == Masked(test, a[i]);
        SanitizedIsUnique(test, a[i], r.items[i]);
      }
      assert r.items == s.items;
    case _ =>
      assert !r.Obj? && !r.Arr?;
  }

  /** Sanitising a value that is already clean changes nothing. */
  lemma {:induction false} CleanIsFixpoint(test: KeyTest, j: Json)
    requires Clean(test, j)
    ensures SanitizeMapping(test, j) == j
    decreases j
  {
    match j
    case Obj(m) =>
      var r := SanitizeMapping(test, j);
      forall k | k in m ensures r.fields[k] == m[k] {
        if !Sensitive(test, k) {
          CleanIsFixpoint(test, m[k]);
        }
      }
      assert r.fields == m;
    case Arr(a) =>
      var r := SanitizeMapping(test, j);
      forall i | 0 <= i < |a| ensures r.items[i] == a[i] {
        CleanIsFixpoint(test, a[i]);
      }
      assert r.items == a;
    case _ =>
  }

  /** Redaction is stable: sanitising twice is sanitising once. */
  lemma SanitizeIdempotent(test: KeyTest, j: Json)
    ensures SanitizeMapping(test, SanitizeMapping(test, j)) == SanitizeMapping(test, j)
  {
    SanitizedIsClean(test, j);
    CleanIsFixpoint(test, SanitizeMapping(test, j));
  }

  /** `Lower` applied to literal text, one character at a time. */
  lemma LowerOf(s: string, expected: string)
    requires |s| == |expected|
    requires forall i :: 0 <= i < |s| ==> LowerChar(s[i]) == expected[i]
    ensures Lower(s) == expected
  {
  }

  /** As written, the mixed-case entry "deviceToken" never matches a lower-cased key. */
  lemma DeviceTokenMissedAsWritten()
    ensures !IsSensitiveAsWritten("deviceToken")
    ensures IsSensitive("deviceToken")
  {
    LowerOf("deviceToken", "devicetoken");
    AsWrittenMissesOnlyDeviceToken("deviceToken");
  }

  /** As written, the device-login body is logged with the device token in it. */
  lemma DeviceTokenKeptAsWritten(token: string)
    ensures SanitizeMapping(AsWritten, Obj(map["deviceToken" := Str(token)])) == Obj(map["deviceToken" := Str(token)])
  {
    DeviceTokenMissedAsWritten();
    KeepsLoneKey(AsWritten, "deviceToken", token);
  }

  /** A dict holding one string under a key that is not sensitive is logged as it is. */
  lemma KeepsLoneKey(test: KeyTest, key: string, value: string)
    requires !Sensitive(test, key)
    ensures SanitizeMapping(test, Obj(map[key := Str(value)])) == Obj(map[key := Str(value)])
  {
    assert Clean(test, Obj(map[key := Str(value)]));
    CleanIsFixpoint(test, Obj(map[key := Str(value)]));
  }

  /** With the corrected comparison a device token in a logged body is redacted. */
  lemma DeviceTokenIsRedacted(token: string)
    ensures SanitizeMapping(Corrected, Obj(map["deviceToken" := Str(token)])) == Obj(map["deviceToken" := Str(Redacted)])
  {
    DeviceTokenMissedAsWritten();
    RedactsLoneKey(Corrected, "deviceToken", Str(token));
  }

  /** A dict holding one sensitive key is logged as that key with the marker. */
  lemma RedactsLoneKey(test: KeyTest, key: string, value: Json)
    requires Sensitive(test, key)
    ensures SanitizeMapping(test, Obj(map[key := value])) == Obj(map[key := Str(Redacted)])
  {
    var r := SanitizeMapping(test, Obj(map[key := value]));
    assert r.fields.Keys == {key} && r.fields[key] == Str(Redacted);
    assert r.fields == map[key := Str(Redacted)];
  }

  /** `_sanitize_headers`: the flat version for a header dict; `None` and `{}` pass through. */
  function SanitizeHeaders(test: KeyTest, headers: Option<map<string, string>>): (r: Option<map<string, string>>)
    ensures r.Some? <==> headers.Some?
    ensures headers.Some? ==> r.value.Keys == headers.value.Keys
  {
    match headers
    case None => None
    case Some(h) =>
      if h == map[] then headers
      else Some(map k | k in h :: if Sensitive(test, k) then Redacted else h[k])
  }

  /** `_sanitize_headers`: the loop over the header items, filling a new dict. */
  method RedactHeaders(test: KeyTest, headers: Option<map<string, string>>) returns (r: Option<map<string, string>>)
    ensures r == SanitizeHeaders(test, headers)
  {
    if headers.None? || headers.value == map[] {
      return headers;
    }
    var h := headers.value;
    var sanitized: map<string, string> := map[];
    var rest := h.Keys;
    while rest != {}
      invariant rest <= h.Keys
      invariant sanitized.Keys == h.Keys - rest
      invariant forall k :: k in sanitized ==> sanitized[k] == if Sensitive(test, k) then Redacted else h[k]
      decreases |rest|
    {
      var k :| k in rest;
      sanitized := sanitized[k := if Sensitive(test, k) then Redacted else h[k]];
      rest := rest - {k};
    }
    assert sanitized == SanitizeHeaders(test, headers).value;
    return Some(sanitized);
  }

  /** A header dict as the JSON object it would be logged as. */
  function HeadersJson(h: map<string, string>): Json {
    Obj(map k | k in h :: Str(h[k]))
  }

  /** The header sanitiser agrees with the general one on every header dict. */
  lemma SanitizeHeadersAgrees(test: KeyTest, h: map<string, string>)
    ensures SanitizeMapping(test, HeadersJson(h)) == HeadersJson(SanitizeHeaders(test, Some(h)).value)
  {
    var l := SanitizeMapping(test, HeadersJson(h));
    var r := HeadersJson(SanitizeHeaders(test, Some(h)).value);
    assert l.fields.Keys == h.Keys == r.fields.Keys;
    forall k | k in h ensures l.fields[k] == r.fields[k] {
      SanitizedHeaderAt(test, h, k);
    }
    assert l.fields == r.fields;
  }

  /** Each sanitised header is the marker when its name is sensitive, and its own value otherwise. */
  lemma SanitizedHeaderAt(test: KeyTest, h: map<string, string>, k: string)
    requires k in h
    ensures SanitizeHeaders(test, Some(h)).value[k] == if Sensitive(test, k) then Redacted else h[k]
    ensures SanitizeMapping(test, HeadersJson(h)).fields[k] == if Sensitive(test, k) then Str(Redacted) else Str(h[k])
    ensures SanitizeMapping(test, HeadersJson(h)).fields[k] == HeadersJson(SanitizeHeaders(test, Some(h)).value).fields[k]
  {
    assert HeadersJson(h).fields[k] == Str(h[k]);
  }

  /**
   * The query-string part of `_sanitize_url`: the `(key, value)` pairs after
   * `parse_qsl`, each value redacted when its key is sensitive.
   */
  method SanitizeQuery(test: KeyTest, pairs: seq<(string, string)>) returns (q: seq<(string, string)>)
    ensures |q| == |pairs|
    ensures forall i :: 0 <= i < |pairs| ==> q[i].0 == pairs[i].0
    ensures forall i :: 0 <= i < |pairs| ==>
              q[i].1 == (if Sensitive(test, pairs[i].0) then Redacted else pairs[i].1)
  {
    q := [];
    for n := 0 to |pairs|
      invariant |q| == n
      invariant forall i :: 0 <= i < n ==> q[i].0 == pairs[i].0
      invariant forall i :: 0 <= i < n ==>
                  q[i].1 == (if Sensitive(test, pairs[i].0) then Redacted else pairs[i].1)
    {
      var (k, v) := pairs[n];
      if Sensitive(test, k) {
        q := q + [(k, Redacted)];
      } else {
        q := q + [(k, v)];
      }
    }
  }
}
