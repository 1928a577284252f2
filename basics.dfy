/** Values shared by every module: optional values, the outcome of a request
    handler, the outcome of a database write, and the few Python string
    operations the handlers and scripts rely on. */
module Basics {

  datatype Option<T> = None | Some(value: T)

  /** An HTTPException: a status code and a detail text. */
  datatype HttpError = HttpError(status: nat, detail: string)

  const BAD_REQUEST: nat := 400
  const FORBIDDEN: nat := 403
  const NOT_FOUND: nat := 404
  const SERVER_ERROR: nat := 500

  /** What a request handler ends with: a value; an HTTPException, which the
      framework answers with its own status and detail; or any other exception
      escaping the handler, which the framework answers with a bare 500. */
  datatype Response<T> = Ok(value: T) | Raised(error: HttpError) | Crashed(message: string)

  /** What an `insert`, `update` or `delete` call's `execute()` gives back: the
      rows written, an empty `data` list (nothing written), or an exception
      (nothing written). */
  datatype Write = Stored | NoData | WriteFailed(message: string)

  /** The text of Python's `IndexError` for `xs[i]` past the end of a list. */
  const INDEX_ERROR := "list index out of range"

  /** A query whose exception the handler catches itself. */
  datatype Fetch<T> = Fetched(data: T) | FetchRaised(message: string)

  function GetOr<K, V>(m: map<K, V>, k: K, default: V): (r: V)
    ensures k in m ==> r == m[k]
    ensures k !in m ==> r == default
  {
    if k in m then m[k] else default
  }

  function Lookup<K, V>(m: map<K, V>, k: K): (r: Option<V>)
    ensures r.Some? <==> k in m
    ensures r.Some? ==> r.value == m[k]
  {
    if k in m then Some(m[k]) else None
  }

  /** `str.isspace()` for one character: the code points Python strips by
      default (ASCII control whitespace, the information separators, NEL,
      NO-BREAK SPACE and the Unicode space separators). */
  predicate IsSpace(c: char) {
    var n := c as int;
    (9 <= n <= 13) || (28 <= n <= 32) || n == 0x85 || n == 0xA0 || n == 0x1680
    || (0x2000 <= n <= 0x200A) || n == 0x2028 || n == 0x2029 || n == 0x202F
    || n == 0x205F || n == 0x3000
  }

  /** `str.lstrip()`. */
  function LStrip(s: string): (r: string)
    ensures |r| <= |s|
  {
    if |s| > 0 && IsSpace(s[0]) then LStrip(s[1..]) else s
  }

  /** `str.rstrip()`. */
  function RStrip(s: string): (r: string)
    ensures |r| <= |s|
  {
    if |s| > 0 && IsSpace(s[|s| - 1]) then RStrip(s[..|s| - 1]) else s
  }

  /** `str.strip()`. */
  function Strip(s: string): (r: string)
    ensures |r| <= |s|
  {
    RStrip(LStrip(s))
  }

  /** `lstrip` removes a leading run of whitespace and stops at the first
      other character. */
  lemma {:induction false} LStripMeaning(s: string)
    ensures var r := LStrip(s);
            |r| <= |s| && r == s[|s| - |r|..]
            && (forall k :: 0 <= k < |s| - |r| ==> IsSpace(s[k]))
            && (r == [] || !IsSpace(r[0]))
  {
    if |s| > 0 && IsSpace(s[0]) {
      LStripMeaning(s[1..]);
      var r := LStrip(s);
      assert forall k :: 1 <= k < |s| ==> s[k] == s[1..][k - 1];
      assert s[1..][|s| - 1 - |r|..] == s[|s| - |r|..];
    }
  }

  /** `rstrip` removes a trailing run of whitespace and stops at the last
      other character. */
  lemma {:induction false} RStripMeaning(s: string)
    ensures var r := RStrip(s);
            |r| <= |s| && r == s[..|r|]
            && (forall k :: |r| <= k < |s| ==> IsSpace(s[k]))
            && (r == [] || !IsSpace(r[|r| - 1]))
  {
    if |s| > 0 && IsSpace(s[|s| - 1]) {
      RStripMeaning(s[..|s| - 1]);
      var r := RStrip(s);
      assert forall k :: 0 <= k < |s| - 1 ==> s[k] == s[..|s| - 1][k];
      assert s[..|s| - 1][..|r|] == s[..|r|];
    }
  }

  /** `strip` gives the slice of `s` that neither starts nor ends with
      whitespace, obtained by removing only whitespace from both ends. */
  lemma StripMeaning(s: string)
    ensures var r, i := Strip(s), |s| - |LStrip(s)|;
            i + |r| <= |s| && s[i..i + |r|] == r
            && (r == [] || (!IsSpace(r[0]) && !IsSpace(r[|r| - 1])))
            && (forall k :: 0 <= k < i ==> IsSpace(s[k]))
            && (forall k :: i + |r| <= k < |s| ==> IsSpace(s[k]))
  {
    var l := LStrip(s);
    var r := RStrip(l);
    LStripMeaning(s);
    RStripMeaning(l);
    StripSlice(s, l, r);
    assert r != [] ==> r[0] == l[0];
  }

  /** A prefix `r` of a suffix `l` of `s` is the slice of `s` at
      `|s| - |l|`, and what follows it in `s` is what follows it in `l`. */
  lemma StripSlice(s: string, l: string, r: string)
    requires |l| <= |s| && l == s[|s| - |l|..]
    requires |r| <= |l| && r == l[..|r|]
    requires forall k :: |r| <= k < |l| ==> IsSpace(l[k])
    ensures var i := |s| - |l|;
              i + |r| <= |s| && s[i..i + |r|] == r
              && forall k :: i + |r| <= k < |s| ==> IsSpace(s[k])
  {
    var i := |s| - |l|;
    assert s[i..][..|r|] == s[i..i + |r|];
    forall k | i + |r| <= k < |s| ensures IsSpace(s[k]) {
      assert s[k] == l[k - i];
    }
  }

  /** `s.startswith(p)`. */
  predicate StartsWith(s: string, p: string) {
    |p| <= |s| && s[..|p|] == p
  }

  /** The index of the first occurrence of `c` in `s`. */
  function IndexOf(s: string, c: char): (r: Option<nat>)
    ensures r.None? <==> c !in s
    ensures r.Some? ==> r.value < |s| && s[r.value] == c && c !in s[..r.value]
  {
    if |s| == 0 then None
    else if s[0] == c then Some(0)
    else match IndexOf(s[1..], c)
      case None => None
      case Some(i) =>
        assert s[1..][..i] == s[1..i + 1];
        Some(i + 1)
  }

  /** `s.split(c, 1)` when `c` occurs in `s`: the text before the first `c`
      and everything after it. */
  function SplitFirst(s: string, c: char): (r: Option<(string, string)>)
    ensures r.None? <==> c !in s
    ensures r.Some? ==> s == r.value.0 + [c] + r.value.1 && c !in r.value.0
  {
    match IndexOf(s, c)
    case None => None
    case Some(i) =>
      assert s == s[..i] + [c] + s[i + 1..];
      Some((s[..i], s[i + 1..]))
  }

  function Digit(d: nat): (c: char)
    requires d < 10
    ensures '0' <= c <= '9'
  {
    ['0', '1', '2', '3', '4', '5', '6', '7', '8', '9'][d]
  }

  /** `str(n)` for a non-negative integer. */
  function NatToString(n: nat): (r: string)
    ensures |r| >= 1
    ensures forall i :: 0 <= i < |r| ==> '0' <= r[i] <= '9'
    ensures n >= 10 ==> |r| >= 2
  {
    if n < 10 then [Digit(n)] else NatToString(n / 10) + [Digit(n % 10)]
  }

  /** `str(b)` for a Python bool. */
  function BoolToString(b: bool): string {
    if b then "True" else "False"
  }
}
