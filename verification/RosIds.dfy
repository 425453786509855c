/** The message ids of the ROS client (platform/ros/RosPlatform.cpp): "<kind>: <topic>: <counter>". */
module RosIds {

  function Digit(d: nat): char
    requires d < 10
  {
    "0123456789"[d]
  }

  /** %d of a counter. */
  function Decimal(n: nat): (s: string)
    ensures s != []
  {
    if n < 10 then [Digit(n)] else Decimal(n / 10) + [Digit(n % 10)]
  }

  /** %s of a string prints its bytes up to the first NUL. */
  function CString(s: string): string {
    if s == [] || s[0] == '\0' then [] else [s[0]] + CString(s[1..])
  }

  const INT_MAX := 0x7fff_ffff
  const INT_RANGE := 0x1_0000_0000

  /** ++ of the counter, a 32-bit int that wraps around. */
  function Increment(n: int): int {
    if n == INT_MAX then INT_MAX + 1 - INT_RANGE else n + 1
  }

  /** The counter after k increments from 0. */
  function Wrap(k: nat): int {
    (k + INT_MAX + 1) % INT_RANGE - INT_MAX - 1
  }

  lemma WrapIncrement(k: nat)
    ensures Wrap(k + 1) == Increment(Wrap(k))
  {
  }

  lemma WrapRepeatsIff(i: nat, j: nat)
    requires i <= j
    ensures Wrap(i) == Wrap(j) <==> (j - i) % INT_RANGE == 0
  {
  }

  /** %d of an int. */
  function Print(n: int): string {
    if n < 0 then ['-'] + Decimal(-n) else Decimal(n)
  }

  /** The number a string of digits denotes. */
  function Value(s: string): nat
    requires forall i :: 0 <= i < |s| ==> '0' <= s[i] <= '9'
  {
    if s == [] then 0 else Value(s[..|s|-1]) * 10 + (s[|s|-1] as int - '0' as int)
  }

  lemma DigitMeaning(d: nat)
    requires d < 10
    ensures '0' <= Digit(d) <= '9' && Digit(d) as int - '0' as int == d
  {
  }

  lemma {:induction false} ValueSnoc(s: string, d: nat)
    requires d < 10 && forall i :: 0 <= i < |s| ==> '0' <= s[i] <= '9'
    ensures forall i :: 0 <= i < |s| + 1 ==> '0' <= (s + [Digit(d)])[i] <= '9'
    ensures Value(s + [Digit(d)]) == Value(s) * 10 + d
  {
    DigitMeaning(d);
    assert (s + [Digit(d)])[..|s|] == s;
  }

  lemma DecimalSnoc(q: nat, d: nat)
    requires q > 0 && d < 10
    ensures Decimal(q * 10 + d) == Decimal(q) + [Digit(d)]
  {
    assert (q * 10 + d) / 10 == q && (q * 10 + d) % 10 == d;
  }

  /** The digits of a counter denote it, without a leading zero. */
  lemma {:induction false} DecimalMeaning(n: nat)
    ensures forall i :: 0 <= i < |Decimal(n)| ==> '0' <= Decimal(n)[i] <= '9'
    ensures Value(Decimal(n)) == n
    ensures n > 0 ==> Decimal(n)[0] != '0'
  {
    if n < 10 {
      ValueSnoc([], n);
      assert [] + [Digit(n)] == Decimal(n);
      DigitMeaning(n);
    } else {
      var q, d := n / 10, n % 10;
      DecimalMeaning(q);
      DecimalSnoc(q, d);
      ValueSnoc(Decimal(q), d);
    }
  }

  /** What is printed of a topic is the topic up to its first NUL. */
  lemma {:induction false} CStringMeaning(s: string)
    ensures |CString(s)| <= |s| && CString(s) == s[..|CString(s)|] && '\0' !in CString(s)
    ensures |CString(s)| < |s| ==> s[|CString(s)|] == '\0'
  {
    if s != [] && s[0] != '\0' {
      CStringMeaning(s[1..]);
    }
  }

  function MakeId(kind: string, topic: string, n: int): string {
    kind + ": " + CString(topic) + ": " + Print(n)
  }

  /** The text after the last space. */
  function LastWord(s: string): string {
    if s == [] || s[|s|-1] == ' ' then [] else LastWord(s[..|s|-1]) + [s[|s|-1]]
  }

  lemma {:induction false} LastWordOf(p: string, w: string)
    requires ' ' !in w
    ensures LastWord(p + [' '] + w) == w
    decreases |w|
  {
    var s := p + [' '] + w;
    if w == [] {
      assert s[|s|-1] == ' ';
    } else {
      var w' := w[..|w|-1];
      assert s[..|s|-1] == p + [' '] + w';
      assert s[|s|-1] == w[|w|-1];
      LastWordOf(p, w');
    }
  }

  lemma {:induction false} DecimalChars(n: nat)
    ensures ' ' !in Decimal(n) && '-' !in Decimal(n)
  {
    if n >= 10 {
      DecimalChars(n / 10);
    }
  }

  lemma PrintHasNoSpace(n: int)
    ensures ' ' !in Print(n)
  {
    DecimalChars(if n < 0 then -n else n);
  }

  lemma {:induction false} DecimalInjective(m: nat, n: nat)
    requires Decimal(m) == Decimal(n)
    ensures m == n
  {
    var s := Decimal(m);
    if m >= 10 && n >= 10 {
      assert Decimal(m / 10) == s[..|s|-1] == Decimal(n / 10);
      assert Digit(m % 10) == s[|s|-1] == Digit(n % 10);
      DecimalInjective(m / 10, n / 10);
    }
  }

  lemma SignShows(n: int)
    ensures '-' in Print(n) <==> n < 0
  {
    DecimalChars(if n < 0 then -n else n);
  }

  lemma PrintInjective(m: int, n: int)
    requires Print(m) == Print(n)
    ensures m == n
  {
    SignShows(m);
    SignShows(n);
    if m < 0 {
      assert Decimal(-m) == Print(m)[1..] == Print(n)[1..] == Decimal(-n);
      DecimalInjective(-m, -n);
    } else {
      DecimalInjective(m, n);
    }
  }

  /** Whatever the topic contains, the last word of an id is its number. */
  lemma IdEndsInNumber(kind: string, topic: string, n: int)
    ensures LastWord(MakeId(kind, topic, n)) == Print(n)
  {
    PrintHasNoSpace(n);
    LastWordOf(kind + ": " + CString(topic) + ":", Print(n));
    assert MakeId(kind, topic, n) == (kind + ": " + CString(topic) + ":") + [' '] + Print(n);
  }

  /** Two ids are equal only if they carry the same number, whatever their kinds and topics. */
  lemma IdDeterminesNumber(kind: string, topic: string, n: int, kind': string, topic': string, n': int)
    requires MakeId(kind, topic, n) == MakeId(kind', topic', n')
    ensures n == n'
  {
    IdEndsInNumber(kind, topic, n);
    IdEndsInNumber(kind', topic', n');
    PrintInjective(n, n');
  }
}
