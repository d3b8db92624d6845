/** Values shared by the client pages and the ML API: an optional value, a JSON
    document as produced by `response.json()` or Flask's `request.get_json()`,
    the truthiness rules of JavaScript and Python, and the few string helpers
    the pages use (trim, lower-case, prefix test, join). */
module Values {

  /** An optional value; `None` stands for JavaScript's `undefined`. */
  datatype Option<+T> = None | Some(value: T) {

    /** The carried value, or `default` when there is none. */
    function GetOr(default: T): T {
      match this
      case Some(v) => v
      case None => default
    }
  }

  /** A JSON value. Numbers are exact reals: JSON has no NaN and no Infinity. */
  datatype Json =
    | JNull
    | JBool(b: bool)
    | JNum(n: real)
    | JStr(s: string)
    | JArr(items: seq<Json>)
    | JObj(fields: map<string, Json>)

  /** The outcome of a `fetch` followed by `response.json()`: the parsed body with
      the response's `ok` flag, or a thrown error (a network failure, or a body
      that is not JSON, since the body is parsed before `ok` is looked at). */
  datatype Fetched = Answered(ok: bool, body: Json) | Threw

  /** A toast notification; an error toast shows a JSON value, or nothing when the
      value is `undefined`. */
  datatype Toast = Success(text: string) | Error(shown: Option<Json>)

  /** JavaScript `v.k`: only objects carry named properties; a missing one is `undefined`. */
  function Prop(v: Json, k: string): (r: Option<Json>)
    ensures r.Some? <==> v.JObj? && k in v.fields
    ensures r.Some? ==> r.value == v.fields[k]
  {
    if v.JObj? && k in v.fields then Some(v.fields[k]) else None
  }

  /** JavaScript `o?.k` where `o` may be `undefined` or `null`. */
  function PropOpt(o: Option<Json>, k: string): Option<Json> {
    match o
    case None => None
    case Some(v) => Prop(v, k)
  }

  /** JavaScript's `== null`: the value is `undefined` or `null`. */
  predicate IsNullish(o: Option<Json>) {
    o.None? || o.value == JNull
  }

  /** JavaScript truthiness (`!!v`); objects and arrays are always truthy. */
  predicate JsTruthy(v: Json) {
    match v
    case JNull => false
    case JBool(b) => b
    case JNum(n) => n != 0.0
    case JStr(s) => s != ""
    case JArr(_) => true
    case JObj(_) => true
  }

  /** Truthiness of a possibly `undefined` value. */
  predicate JsTruthyOpt(o: Option<Json>) {
    o.Some? && JsTruthy(o.value)
  }

  /** JavaScript `a || b` where `a` may be `undefined`. */
  function JsOr(a: Option<Json>, b: Json): (r: Json)
    ensures JsTruthyOpt(a) ==> Some(r) == a
    ensures !JsTruthyOpt(a) ==> r == b
    ensures JsTruthy(r) <==> JsTruthyOpt(a) || JsTruthy(b)
  {
    if JsTruthyOpt(a) then a.value else b
  }

  /** Python truthiness (`bool(v)`): empty containers are false as well. */
  predicate PyTruthy(v: Json) {
    match v
    case JNull => false
    case JBool(b) => b
    case JNum(n) => n != 0.0
    case JStr(s) => s != ""
    case JArr(items) => |items| > 0
    case JObj(fields) => |fields| > 0
  }

  /** The white-space characters removed by JavaScript `trim()` and Python `strip()`
      (ASCII subset: space, tab, line feed, vertical tab, form feed, carriage return). */
  predicate IsSpace(c: char) {
    c == ' ' || c == '\t' || c == '\n' || c == '\U{B}' || c == '\U{C}' || c == '\r'
  }

  /** `s` with its leading white space removed. */
  function TrimStart(s: string): (r: string)
    ensures |r| <= |s| && r == s[|s| - |r|..]
    ensures r == [] || !IsSpace(r[0])
    ensures forall i :: 0 <= i < |s| - |r| ==> IsSpace(s[i])
  {
    if s != [] && IsSpace(s[0]) then TrimStart(s[1..]) else s
  }

  /** `s` with its trailing white space removed. */
  function TrimEnd(s: string): (r: string)
    ensures |r| <= |s| && r == s[..|r|]
    ensures r == [] || !IsSpace(r[|r| - 1])
    ensures forall i :: |r| <= i < |s| ==> IsSpace(s[i])
  {
    if s != [] && IsSpace(s[|s| - 1]) then TrimEnd(s[..|s| - 1]) else s
  }

  /** JavaScript `s.trim()` and Python `s.strip()`. */
  function Trim(s: string): (r: string)
    ensures r == [] || (!IsSpace(r[0]) && !IsSpace(r[|r| - 1]))
    ensures exists i, j {:trigger s[i..j]} :: 0 <= i <= j <= |s| && r == s[i..j]
  {
    var l := TrimStart(s);
    var r := TrimEnd(l);
    assert r == s[|s| - |l|..|s| - |l| + |r|];
    r
  }

  /** Every character of `t` is white space. */
  predicate AllSpace(t: string) {
    forall k :: 0 <= k < |t| ==> IsSpace(t[k])
  }

  /** Trimming removes white space only, and only at the ends: the result is a
      slice of `s` whose cut-off prefix and suffix are all white space. */
  lemma TrimRemovesOnlySpace(s: string)
    ensures exists i, j {:trigger s[i..j]} ::
      0 <= i <= j <= |s| && Trim(s) == s[i..j] && AllSpace(s[..i]) && AllSpace(s[j..])
  {
    var l := TrimStart(s);
    var r := TrimEnd(l);
    var i, j := |s| - |l|, |s| - |l| + |r|;
    assert Trim(s) == r;
    assert r == s[i..j] by {
      assert l == s[i..];
    }
    StartCutIsSpace(s);
    EndCutIsSpace(l);
    assert s[j..] == l[|r|..];
    assert 0 <= i <= j <= |s| && Trim(s) == s[i..j] && AllSpace(s[..i]) && AllSpace(s[j..]);
  }

  /** What `TrimStart` cuts off is white space. */
  lemma StartCutIsSpace(s: string)
    ensures AllSpace(s[..|s| - |TrimStart(s)|])
  {
    var i := |s| - |TrimStart(s)|;
    forall k | 0 <= k < i
      ensures IsSpace(s[..i][k])
    {
      assert s[..i][k] == s[k];
    }
  }

  /** What `TrimEnd` cuts off is white space. */
  lemma EndCutIsSpace(l: string)
    ensures AllSpace(l[|TrimEnd(l)|..])
  {
    var n := |TrimEnd(l)|;
    forall k | 0 <= k < |l| - n
      ensures IsSpace(l[n..][k])
    {
      assert l[n..][k] == l[n + k];
    }
  }

  /** A string without white space at either end is its own trim. */
  lemma TrimOfTrimmed(s: string)
    requires s == [] || (!IsSpace(s[0]) && !IsSpace(s[|s| - 1]))
    ensures Trim(s) == s
  {
    assert TrimStart(s) == s;
    assert TrimEnd(s) == s;
  }

  /** Trimming is idempotent. */
  lemma TrimIdempotent(s: string)
    ensures Trim(Trim(s)) == Trim(s)
  {
    TrimOfTrimmed(Trim(s));
  }

  /** ASCII lower-casing of one character. */
  function LowerChar(c: char): char {
    if 'A' <= c <= 'Z' then (c as int - 'A' as int + 'a' as int) as char else c
  }

  /** JavaScript `s.toLowerCase()` on ASCII letters. */
  function ToLower(s: string): (r: string)
    ensures |r| == |s|
    ensures forall i :: 0 <= i < |s| ==> r[i] == LowerChar(s[i])
  {
    seq(|s|, i requires 0 <= i < |s| => LowerChar(s[i]))
  }

  /** JavaScript `s.startsWith(p)`. */
  predicate StartsWith(s: string, p: string) {
    |p| <= |s| && s[..|p|] == p
  }

  /** Python `p in s` on strings: `p` occurs in `s` at some position. */
  predicate IsSubstring(p: string, s: string) {
    exists i {:trigger s[i..]} :: 0 <= i <= |s| - |p| && StartsWith(s[i..], p)
  }

  /** JavaScript `xs.join(sep)` and Python `sep.join(xs)`. */
  function Join(xs: seq<string>, sep: string): string {
    if xs == [] then ""
    else if |xs| == 1 then xs[0]
    else Join(xs[..|xs| - 1], sep) + sep + xs[|xs| - 1]
  }
}
