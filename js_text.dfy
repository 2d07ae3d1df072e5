/** How the component's JavaScript values turn into the text a user sees.

    An optional value is `Option`: `None` stands for JavaScript's `undefined`
    (a missing field, or the result of an optional chain that stopped early).
    A number placed inside JSX is shown as its decimal string; `undefined`
    placed there shows nothing at all. Numbers are modelled as integers. */
module JsText {

  datatype Option<T> = None | Some(value: T)

  predicate IsDigit(c: char) {
    '0' <= c <= '9'
  }

  predicate AllDigits(s: string) {
    forall i :: 0 <= i < |s| ==> IsDigit(s[i])
  }

  function DigitValue(c: char): nat
    requires IsDigit(c)
  {
    (c as int) - ('0' as int)
  }

  function DigitChar(d: nat): (c: char)
    requires d < 10
    ensures IsDigit(c) && DigitValue(c) == d
  {
    (('0' as int) + d) as char
  }

  /** The decimal digits of `n`, most significant first, without leading zeros. */
  function NatText(n: nat): (s: string)
    ensures 1 <= |s|
    ensures AllDigits(s)
    ensures s[0] == '0' ==> n == 0
    decreases n
  {
    if n < 10 then [DigitChar(n)] else NatText(n / 10) + [DigitChar(n % 10)]
  }

  /** Reads a string of decimal digits back as a number. */
  function ParseNat(s: string): nat
    requires AllDigits(s)
  {
    if |s| == 0 then 0 else 10 * ParseNat(s[..|s| - 1]) + DigitValue(s[|s| - 1])
  }

  lemma {:induction false} ParseNatText(n: nat)
    ensures ParseNat(NatText(n)) == n
  {
    if n >= 10 {
      var s := NatText(n);
      assert s[..|s| - 1] == NatText(n / 10);
      ParseNatText(n / 10);
    }
  }

  /** The text JavaScript gives an integer-valued number: a minus sign for a
      negative value, then the decimal digits of its magnitude. */
  function IntText(i: int): (s: string)
    ensures 1 <= |s|
    ensures s[0] == '-' <==> i < 0
    ensures i >= 0 ==> AllDigits(s)
    ensures var digits := if i < 0 then s[1..] else s;
            1 <= |digits| && AllDigits(digits) && (digits[0] == '0' ==> i == 0)
  {
    if i < 0 then
      var digits := NatText(-i);
      assert ("-" + digits)[1..] == digits;
      "-" + digits
    else NatText(i)
  }

  predicate IsIntText(s: string) {
    if |s| > 0 && s[0] == '-' then AllDigits(s[1..]) else AllDigits(s)
  }

  function ParseInt(s: string): int
    requires IsIntText(s)
  {
    if |s| > 0 && s[0] == '-' then -(ParseNat(s[1..]) as int) else ParseNat(s)
  }

  lemma IntTextRoundTrip(i: int)
    ensures IsIntText(IntText(i)) && ParseInt(IntText(i)) == i
  {
    var s := IntText(i);
    if i < 0 {
      assert s[1..] == NatText(-i);
      ParseNatText(-i);
    } else {
      ParseNatText(i);
    }
  }

  lemma IntTextInjective(i: int, j: int)
    ensures IntText(i) == IntText(j) ==> i == j
  {
    IntTextRoundTrip(i);
    IntTextRoundTrip(j);
  }

  /** The text React shows for a `{value}` child holding an optional number:
      nothing for `undefined`, the number's text otherwise. */
  function ChildText(v: Option<int>): (s: string)
    ensures s == "" <==> v.None?
    ensures v.Some? ==> s == IntText(v.value) && IsIntText(s) && ParseInt(s) == v.value
  {
    match v
    case None => ""
    case Some(i) => IntTextRoundTrip(i); IntText(i)
  }

  /** Different optional numbers never show the same text: in particular an
      absent value is never shown like zero. */
  lemma ChildTextInjective(a: Option<int>, b: Option<int>)
    ensures ChildText(a) == ChildText(b) ==> a == b
  {
  }
}
