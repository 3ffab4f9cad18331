/** String helpers shared by the route handlers: JavaScript's `trim`,
    `Number.prototype.toString(radix)`, `toUpperCase` on the digits it
    produces, and prefix/suffix tests used to state what a built string holds. */
module Text {

  predicate StartsWith(s: string, prefix: string) {
    |prefix| <= |s| && s[..|prefix|] == prefix
  }

  predicate EndsWith(s: string, suffix: string) {
    |suffix| <= |s| && s[|s| - |suffix|..] == suffix
  }

  /** `part` occurs in `s` starting at index `at`. */
  predicate OccursAt(s: string, part: string, at: nat) {
    at + |part| <= |s| && s[at..at + |part|] == part
  }

  /** The WhiteSpace and LineTerminator code points of ECMAScript, the
      characters that `String.prototype.trim` removes from both ends. */
  predicate IsJsWhitespace(c: char) {
    || c == ' ' || c == '\t' || c == '\n' || c == '\r'
    || c == '\U{000B}' || c == '\U{000C}' || c == '\U{00A0}' || c == '\U{1680}'
    || ('\U{2000}' <= c <= '\U{200A}')
    || c == '\U{2028}' || c == '\U{2029}' || c == '\U{202F}' || c == '\U{205F}'
    || c == '\U{3000}' || c == '\U{FEFF}'
  }

  predicate AllWhitespace(s: string) {
    forall i :: 0 <= i < |s| ==> IsJsWhitespace(s[i])
  }

  /** The first index from `k` on that does not hold whitespace, or the
      length when there is none. */
  function SkipLeading(s: string, k: nat): (n: nat)
    requires k <= |s|
    ensures k <= n <= |s|
    ensures n == |s| || !IsJsWhitespace(s[n])
    ensures forall i :: k <= i < n ==> IsJsWhitespace(s[i])
    decreases |s| - k
  {
    if k < |s| && IsJsWhitespace(s[k]) then SkipLeading(s, k + 1) else k
  }

  /** Scanning back from `k` towards `lo`: the end of the last character
      that is not whitespace, or `lo` when there is none. */
  function SkipTrailing(s: string, lo: nat, k: nat): (n: nat)
    requires lo <= k <= |s|
    ensures lo <= n <= k
    ensures n == lo || !IsJsWhitespace(s[n - 1])
    ensures forall i :: n <= i < k ==> IsJsWhitespace(s[i])
    decreases k - lo
  {
    if lo < k && IsJsWhitespace(s[k - 1]) then SkipTrailing(s, lo, k - 1) else k
  }

  /** `String.prototype.trim`: what lies between the leading and the
      trailing whitespace. */
  function Trim(s: string): (r: string)
    ensures |r| <= |s|
    ensures r == [] || (!IsJsWhitespace(r[0]) && !IsJsWhitespace(r[|r| - 1]))
    ensures r == [] <==> AllWhitespace(s)
  {
    var i := SkipLeading(s, 0);
    s[i..SkipTrailing(s, i, |s|)]
  }

  /** The trimmed string sits inside the original right after the leading
      whitespace, and only whitespace surrounds it. */
  lemma {:induction false} TrimIsInfix(s: string)
    ensures var i := SkipLeading(s, 0);
      && i + |Trim(s)| <= |s|
      && s[i..i + |Trim(s)|] == Trim(s)
      && (forall k :: 0 <= k < i ==> IsJsWhitespace(s[k]))
      && (forall k :: i + |Trim(s)| <= k < |s| ==> IsJsWhitespace(s[k]))
  {
    var i := SkipLeading(s, 0);
    var j := SkipTrailing(s, i, |s|);
    assert Trim(s) == s[i..j];
  }

  /** Trimming twice is trimming once. */
  lemma {:induction false} TrimIdempotent(s: string)
    ensures Trim(Trim(s)) == Trim(s)
  {
    var r := Trim(s);
    assert SkipLeading(r, 0) == 0;
    assert SkipTrailing(r, 0, |r|) == |r|;
    assert r[0..|r|] == r;
  }

  /** The digit characters of `Number.prototype.toString(radix)`, with the
      lower-case letters JavaScript uses above 9. */
  function DigitChar(d: nat): (c: char)
    requires d < 36
    ensures IsDigitOf(c, 36)
  {
    if d < 10 then ('0' as int + d) as char else ('a' as int + d - 10) as char
  }

  /** The value of a digit in either letter case. */
  function DigitValue(c: char): nat {
    if '0' <= c <= '9' then c as int - '0' as int
    else if 'a' <= c <= 'z' then c as int - 'a' as int + 10
    else if 'A' <= c <= 'Z' then c as int - 'A' as int + 10
    else 36
  }

  predicate IsDigitOf(c: char, base: nat) {
    DigitValue(c) < base
  }

  lemma DigitRoundTrip(d: nat)
    requires d < 36
    ensures DigitValue(DigitChar(d)) == d
    ensures DigitValue(UpperAscii(DigitChar(d))) == d
  {
  }

  lemma DivMod(n: nat, base: nat)
    requires 2 <= base
    ensures n == (n / base) * base + n % base && 0 <= n % base < base
    ensures n >= base ==> 1 <= n / base < n
  {
  }

  /** `n.toString(base)` for a non-negative integer: most significant digit
      first, no leading zeros. */
  function NatToString(n: nat, base: nat): (r: string)
    requires 2 <= base <= 36
    ensures |r| >= 1
    ensures forall i :: 0 <= i < |r| ==> IsDigitOf(r[i], base)
    ensures |r| > 1 ==> r[0] != '0'
    decreases n
  {
    if n < base then [DigitChar(n)]
    else
      DivMod(n, base);
      NatToString(n / base, base) + [DigitChar(n % base)]
  }

  /** Reads digits of the given base, most significant first. */
  function ParseNat(s: string, base: nat): nat {
    if s == [] then 0 else ParseNat(s[..|s| - 1], base) * base + DigitValue(s[|s| - 1])
  }

  /** Printing a number and reading it back gives the number. */
  lemma {:induction false} ParseNatToString(n: nat, base: nat)
    requires 2 <= base <= 36
    ensures ParseNat(NatToString(n, base), base) == n
    decreases n
  {
    var s := NatToString(n, base);
    if n < base {
      assert s[..|s| - 1] == [];
      DigitRoundTrip(n);
    } else {
      DivMod(n, base);
      ParseNatToString(n / base, base);
      assert s[..|s| - 1] == NatToString(n / base, base);
      DigitRoundTrip(n % base);
    }
  }

  /** A template literal `${n}` for an integer. */
  function IntToDecimal(n: int): (r: string)
    ensures |r| >= 1
    ensures n < 0 <==> r[0] == '-'
  {
    if n < 0 then "-" + NatToString(-n, 10) else NatToString(n, 10)
  }

  function UpperAscii(c: char): char {
    if 'a' <= c <= 'z' then (c as int - 'a' as int + 'A' as int) as char else c
  }

  /** `toUpperCase` restricted to ASCII, which covers every character that
      `NatToString` produces. */
  function ToUpperAscii(s: string): (r: string)
    ensures |r| == |s|
    ensures forall i :: 0 <= i < |s| ==> r[i] == UpperAscii(s[i])
  {
    if s == [] then [] else [UpperAscii(s[0])] + ToUpperAscii(s[1..])
  }

  /** Upper-casing the digits does not change the number they spell. */
  lemma {:induction false} ParseNatUpper(s: string, base: nat)
    ensures ParseNat(ToUpperAscii(s), base) == ParseNat(s, base)
    decreases |s|
  {
    if s != [] {
      var u := ToUpperAscii(s);
      assert u[..|u| - 1] == ToUpperAscii(s[..|s| - 1]);
      ParseNatUpper(s[..|s| - 1], base);
      var c := s[|s| - 1];
      assert DigitValue(UpperAscii(c)) == DigitValue(c);
    }
  }
}
