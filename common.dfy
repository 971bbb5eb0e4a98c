/** Values and text helpers shared by the front-end and back-end models. */
module Common {

  datatype Option<+T> = None | Some(value: T)

  datatype Result<+T, +E> = Ok(value: T) | Err(error: E)

  /** `a ?? d` for a field that is absent (or null) exactly when it is None. */
  function GetOr<T>(a: Option<T>, d: T): T {
    if a.Some? then a.value else d
  }

  /** What JavaScript's `Number(...)` makes of a field: a finite number, or NaN/Infinity. */
  datatype Num = Finite(v: real) | NonFinite

  /** `Number.isFinite(Number(x))` for a field that may be absent (`undefined`). */
  predicate IsFiniteField(x: Option<Num>) {
    x.Some? && x.value.Finite?
  }

  // ---------------------------------------------------------------------------
  // Whitespace trimming: JavaScript's `String.prototype.trim` and Python's `str.strip`
  // remove different sets of code points, so each has its own predicate.
  // ---------------------------------------------------------------------------

  /** WhiteSpace and LineTerminator code points, which JavaScript's `trim()` removes. */
  predicate IsJsSpace(c: char) {
    c == '\t' || c == '\n' || c == '\U{000B}' || c == '\U{000C}' || c == '\r' || c == ' '
    || c == '\U{00A0}' || c == '\U{1680}' || ('\U{2000}' <= c <= '\U{200A}')
    || c == '\U{2028}' || c == '\U{2029}' || c == '\U{202F}' || c == '\U{205F}'
    || c == '\U{3000}' || c == '\U{FEFF}'
  }

  /** Code points for which Python's `str.isspace()` holds, which `strip()` removes. */
  predicate IsPySpace(c: char) {
    c == '\t' || c == '\n' || c == '\U{000B}' || c == '\U{000C}' || c == '\r'
    || ('\U{001C}' <= c <= '\U{001F}') || c == ' ' || c == '\U{0085}' || c == '\U{00A0}'
    || c == '\U{1680}' || ('\U{2000}' <= c <= '\U{200A}') || c == '\U{2028}'
    || c == '\U{2029}' || c == '\U{202F}' || c == '\U{205F}' || c == '\U{3000}'
  }

  /** Drops the leading characters satisfying `ws`. */
  function TrimStart(s: string, ws: char -> bool): (r: string)
    ensures |r| <= |s| && r == s[|s| - |r|..]
    ensures r == [] || !ws(r[0])
    ensures forall i :: 0 <= i < |s| - |r| ==> ws(s[i])
  {
    if s != [] && ws(s[0]) then TrimStart(s[1..], ws) else s
  }

  /** Drops the trailing characters satisfying `ws`. */
  function TrimEnd(s: string, ws: char -> bool): (r: string)
    ensures |r| <= |s| && r == s[..|r|]
    ensures r == [] || !ws(r[|r| - 1])
    ensures forall i :: |r| <= i < |s| ==> ws(s[i])
  {
    if s != [] && ws(s[|s| - 1]) then TrimEnd(s[..|s| - 1], ws) else s
  }

  function Trim(s: string, ws: char -> bool): string {
    TrimEnd(TrimStart(s, ws), ws)
  }

  /** `s.trim()` in JavaScript. */
  function JsTrim(s: string): string {
    Trim(s, IsJsSpace)
  }

  /** `s.strip()` in Python. */
  function PyStrip(s: string): string {
    Trim(s, IsPySpace)
  }

  /** A trimmed string neither starts nor ends with whitespace. */
  lemma TrimShape(s: string, ws: char -> bool)
    ensures var r := Trim(s, ws);
      r == [] || (!ws(r[0]) && !ws(r[|r| - 1]))
  {
    var t := TrimStart(s, ws);
    var r := TrimEnd(t, ws);
    if r != [] {
      assert r[0] == t[0];
    }
  }

  /** A trimmed string is the slice of the input after its leading whitespace. */
  lemma TrimIsSlice(s: string, ws: char -> bool)
    ensures var r, k := Trim(s, ws), |s| - |TrimStart(s, ws)|;
      k + |r| <= |s| && r == s[k..k + |r|]
  {
    var t := TrimStart(s, ws);
    var r := TrimEnd(t, ws);
    var k := |s| - |t|;
    assert t == s[k..];
    assert r == s[k..][..|r|];
  }

  /** Leading whitespace before a text that starts with a non-space is all that `TrimStart` drops. */
  lemma {:induction false} TrimStartSkipsBlank(pre: string, s: string, ws: char -> bool)
    requires forall i :: 0 <= i < |pre| ==> ws(pre[i])
    requires s != [] && !ws(s[0])
    ensures TrimStart(pre + s, ws) == s
  {
    if pre != [] {
      assert (pre + s)[1..] == pre[1..] + s;
      TrimStartSkipsBlank(pre[1..], s, ws);
    }
  }

  /** Trailing whitespace after a text that ends with a non-space is all that `TrimEnd` drops. */
  lemma {:induction false} TrimEndSkipsBlank(s: string, post: string, ws: char -> bool)
    requires forall i :: 0 <= i < |post| ==> ws(post[i])
    requires s != [] && !ws(s[|s| - 1])
    ensures TrimEnd(s + post, ws) == s
  {
    if post != [] {
      var n := |post| - 1;
      assert (s + post)[..|s + post| - 1] == s + post[..n];
      TrimEndSkipsBlank(s, post[..n], ws);
    }
  }

  /** Trimming a text padded with whitespace gives back the text, when it has no whitespace at either end. */
  lemma TrimPadded(pre: string, s: string, post: string, ws: char -> bool)
    requires forall i :: 0 <= i < |pre| ==> ws(pre[i])
    requires forall i :: 0 <= i < |post| ==> ws(post[i])
    requires s != [] && !ws(s[0]) && !ws(s[|s| - 1])
    ensures Trim(pre + s + post, ws) == s
  {
    assert pre + s + post == pre + (s + post);
    TrimStartSkipsBlank(pre, s + post, ws);
    TrimEndSkipsBlank(s, post, ws);
  }

  /** Trimming twice is trimming once. */
  lemma {:induction false} TrimIdempotent(s: string, ws: char -> bool)
    ensures Trim(Trim(s, ws), ws) == Trim(s, ws)
  {
    var r := Trim(s, ws);
    TrimShape(s, ws);
    assert TrimStart(r, ws) == r;
    assert TrimEnd(r, ws) == r;
  }

  /** The trimmed string is empty exactly when every character is whitespace. */
  lemma {:induction false} TrimEmptyIffBlank(s: string, ws: char -> bool)
    ensures Trim(s, ws) == [] <==> forall i :: 0 <= i < |s| ==> ws(s[i])
  {
    var t := TrimStart(s, ws);
    if t != [] {
      assert !ws(t[0]);
      assert TrimEnd(t, ws) != [];
      assert !ws(s[|s| - |t|]);
    }
  }

  /** Whether `t` holds a character outside `ws`, scanned from the left. */
  function HasNonSpace(t: string, ws: char -> bool): bool {
    t != [] && (!ws(t[0]) || HasNonSpace(t[1..], ws))
  }

  /** Some character is outside `ws` exactly when trimming leaves something. */
  lemma {:induction false} HasNonSpaceIffTrimmedNonEmpty(t: string, ws: char -> bool)
    ensures HasNonSpace(t, ws) <==> Trim(t, ws) != []
  {
    HasNonSpaceWitness(t, ws);
    TrimEmptyIffBlank(t, ws);
  }

  lemma {:induction false} HasNonSpaceWitness(t: string, ws: char -> bool)
    ensures HasNonSpace(t, ws) <==> exists i :: 0 <= i < |t| && !ws(t[i])
  {
    if t != [] {
      HasNonSpaceWitness(t[1..], ws);
      if exists i :: 0 <= i < |t| && !ws(t[i]) {
        var i :| 0 <= i < |t| && !ws(t[i]);
        if i > 0 {
          assert t[1..][i - 1] == t[i];
        }
      }
      if exists i :: 0 <= i < |t[1..]| && !ws(t[1..][i]) {
        var i :| 0 <= i < |t[1..]| && !ws(t[1..][i]);
        assert t[i + 1] == t[1..][i];
      }
    }
  }

  // ---------------------------------------------------------------------------
  // Case folding (ASCII letters only)
  // ---------------------------------------------------------------------------

  function LowerChar(c: char): char {
    if 'A' <= c <= 'Z' then (c as int - 'A' as int + 'a' as int) as char else c
  }

  /** `s.lower()` restricted to ASCII letters. */
  function LowerAscii(s: string): (r: string)
    ensures |r| == |s|
    ensures forall i :: 0 <= i < |s| ==> r[i] == LowerChar(s[i])
  {
    seq(|s|, i requires 0 <= i < |s| => LowerChar(s[i]))
  }

  lemma LowerIdempotent(s: string)
    ensures LowerAscii(LowerAscii(s)) == LowerAscii(s)
  {
  }

  // ---------------------------------------------------------------------------
  // Prefixes, suffixes, decimal text
  // ---------------------------------------------------------------------------

  predicate StartsWith(s: string, p: string) {
    |p| <= |s| && s[..|p|] == p
  }

  predicate EndsWith(s: string, p: string) {
    |p| <= |s| && s[|s| - |p|..] == p
  }

  function DigitChar(d: nat): char
    requires d < 10
  {
    "0123456789"[d]
  }

  function DigitValue(c: char): nat {
    if '0' <= c <= '9' then c as int - '0' as int else 0
  }

  predicate IsDigit(c: char) {
    '0' <= c <= '9'
  }

  /** A natural number written in decimal, as JavaScript's template literals and Python's `str` do. */
  function NatToDecimal(n: nat): (r: string)
    ensures |r| > 0
    ensures forall i :: 0 <= i < |r| ==> IsDigit(r[i])
    ensures r[0] == '0' ==> n == 0 && r == "0"
  {
    if n < 10 then [DigitChar(n)] else NatToDecimal(n / 10) + [DigitChar(n % 10)]
  }

  /** An integer written in decimal, with a leading `-` when negative. */
  function IntToDecimal(i: int): (r: string)
    ensures |r| > 0
  {
    if i < 0 then "-" + NatToDecimal(-i) else NatToDecimal(i)
  }

  /** The value of a string of decimal digits, read left to right. */
  function DecimalValue(s: string): nat {
    if s == [] then 0 else DecimalValue(s[..|s| - 1]) * 10 + DigitValue(s[|s| - 1])
  }

  /** Reading back the decimal text of `n` gives `n`. */
  lemma {:induction false} DecimalRoundTrip(n: nat)
    ensures DecimalValue(NatToDecimal(n)) == n
  {
    if n >= 10 {
      var r := NatToDecimal(n);
      var prefix := NatToDecimal(n / 10);
      assert r[..|r| - 1] == prefix;
      DecimalRoundTrip(n / 10);
    }
  }
}
