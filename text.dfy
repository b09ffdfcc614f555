/** Character classes and string helpers shared by the dice parser and the log relay. */
module Text {

  /** Python's `str.isspace`, which is also what `\s` matches in a `str` regular expression. */
  predicate IsSpace(c: char) {
    || ('\t' <= c <= '\r')
    || ('\U{1C}' <= c <= ' ')
    || c == '\U{85}' || c == '\U{A0}' || c == '\U{1680}'
    || ('\U{2000}' <= c <= '\U{200A}')
    || c == '\U{2028}' || c == '\U{2029}' || c == '\U{202F}' || c == '\U{205F}' || c == '\U{3000}'
  }

  predicate IsDigit(c: char) {
    '0' <= c <= '9'
  }

  predicate AllDigits(s: string) {
    forall i | 0 <= i < |s| :: IsDigit(s[i])
  }

  /** Every character is whitespace: `s.strip()` is empty, so `s` is falsy once stripped. */
  predicate AllSpace(s: string) {
    forall i | 0 <= i < |s| :: IsSpace(s[i])
  }

  /** `sep.join(parts)`. */
  function Join(parts: seq<string>, sep: string): string
  {
    if |parts| == 0 then ""
    else if |parts| == 1 then parts[0]
    else Join(parts[..|parts| - 1], sep) + sep + parts[|parts| - 1]
  }

  /** Sum of the lengths of the parts, `sum(len(x) for x in parts)`. */
  function TotalLength(parts: seq<string>): nat
  {
    if |parts| == 0 then 0 else TotalLength(parts[..|parts| - 1]) + |parts[|parts| - 1]|
  }

  /** The joined text is as long as the parts plus one separator between each two of them. */
  lemma {:induction false} JoinLength(parts: seq<string>, sep: string)
    ensures |parts| > 0 ==> |Join(parts, sep)| == TotalLength(parts) + (|parts| - 1) * |sep|
    ensures |parts| == 0 ==> Join(parts, sep) == ""
  {
    if |parts| > 1 {
      var n := |parts| - 1;
      JoinLength(parts[..n], sep);
      assert |Join(parts, sep)| == |Join(parts[..n], sep)| + |sep| + |parts[n]|;
      assert (n - 1) * |sep| + |sep| == n * |sep|;
    }
  }

  /** The value of a decimal digit string, as `int(s)` computes it (leading zeros allowed). */
  function DigitsValue(s: string): nat
    requires AllDigits(s)
  {
    if |s| == 0 then 0
    else 10 * DigitsValue(s[..|s| - 1]) + (s[|s| - 1] as int - '0' as int)
  }

  /** `str(n)` for a non-negative integer. */
  function NatToString(n: nat): (s: string)
    ensures |s| > 0 && AllDigits(s)
    ensures |s| > 1 ==> s[0] != '0'
  {
    if n < 10 then [('0' as int + n) as char]
    else NatToString(n / 10) + [('0' as int + n % 10) as char]
  }

  /** `int(str(n)) == n`. */
  lemma {:induction false} DigitsValueOfNatToString(n: nat)
    ensures DigitsValue(NatToString(n)) == n
  {
    var s := NatToString(n);
    if n >= 10 {
      DigitsValueOfNatToString(n / 10);
      assert s[..|s| - 1] == NatToString(n / 10);
    }
  }

  /** `f"{v:+d}"`: the sign is always written. */
  function SignedToString(v: int): (s: string)
    ensures |s| >= 2 && (s[0] == '+' || s[0] == '-') && AllDigits(s[1..])
    ensures (s[0] == '-') == (v < 0)
    ensures DigitsValue(s[1..]) == if v < 0 then -v else v
  {
    var s := if v < 0 then "-" + NatToString(-v) else "+" + NatToString(v);
    assert s[1..] == NatToString(if v < 0 then -v else v);
    DigitsValueOfNatToString(if v < 0 then -v else v);
    s
  }
}
