/** Decimal numbers as the C library prints and reads them. */
module Text {

  predicate IsDigit(c: char) { '0' <= c <= '9' }

  function Digit(d: nat): (c: char)
    requires d < 10
    ensures IsDigit(c) && c as int - '0' as int == d
  {
    ('0' as int + d) as char
  }

  /** "%d" and "%u" of a number that is not negative. */
  function Dec(n: nat): (s: string)
    ensures s != [] && AllDigits(s)
  {
    if n < 10 then [Digit(n)] else Dec(n / 10) + [Digit(n % 10)]
  }

  predicate AllDigits(s: string) { forall i :: 0 <= i < |s| ==> IsDigit(s[i]) }

  /** atoi on a string of digits. */
  function Atoi(s: string): nat
    requires AllDigits(s)
  {
    if s == [] then 0 else Atoi(s[..|s| - 1]) * 10 + (s[|s| - 1] as int - '0' as int)
  }

  /** The digits a text starts with. */
  function LeadingDigits(s: string): (d: string)
    ensures AllDigits(d) && |d| <= |s|
  {
    if s == [] || !IsDigit(s[0]) then [] else [s[0]] + LeadingDigits(s[1..])
  }

  /** atoi on any text: white space, one sign, digits; the rest is ignored. */
  function CAtoi(s: string): int {
    if s == [] then 0
    else if s[0] in {' ', '\t', '\n', '\r', '\U{0B}', '\U{0C}'} then CAtoi(s[1..])
    else if s[0] == '-' then 0 - Atoi(LeadingDigits(s[1..]))
    else if s[0] == '+' then Atoi(LeadingDigits(s[1..]))
    else Atoi(LeadingDigits(s))
  }

  lemma {:induction false} AllLeading(s: string)
    requires AllDigits(s)
    ensures LeadingDigits(s) == s
  {
    if s != [] {
      AllLeading(s[1..]);
    }
  }

  /** On a printed number it is what it should be. */
  lemma CAtoiDec(n: nat)
    ensures CAtoi(Dec(n)) == n
  {
    AllLeading(Dec(n));
    AtoiDec(n);
  }

  lemma {:induction false} LeadingUpTo(d: string, rest: string)
    requires AllDigits(d) && (rest != [] ==> !IsDigit(rest[0]))
    ensures LeadingDigits(d + rest) == d
  {
    if d == [] {
      assert d + rest == rest;
    } else {
      assert (d + rest)[1..] == d[1..] + rest;
      LeadingUpTo(d[1..], rest);
    }
  }

  lemma SignRead(sign: string, digits: string, rest: string)
    requires digits != [] && AllDigits(digits) && (rest != [] ==> !IsDigit(rest[0]))
    requires sign == "" || sign == "+" || sign == "-"
    ensures CAtoi(sign + (digits + rest)) == if sign == "-" then 0 - Atoi(digits) else Atoi(digits)
  {
    hide Atoi, LeadingDigits;
    LeadingUpTo(digits, rest);
    var t := digits + rest;
    assert IsDigit(t[0]);
    if sign == "" {
      assert sign + t == t;
    } else {
      assert (sign + t)[1..] == t && (sign + t)[0] == sign[0];
    }
  }

  /** White space in front, a sign, and whatever follows the digits. */
  lemma {:induction false} CAtoiReads(space: string, sign: string, n: nat, rest: string)
    requires forall i :: 0 <= i < |space| ==> space[i] in " \t\n\r\U{0B}\U{0C}"
    requires sign == "" || sign == "+" || sign == "-"
    requires rest != [] ==> rest[0] !in "0123456789"
    ensures CAtoi(space + (sign + (Dec(n) + rest))) == if sign == "-" then 0 - n else n
    decreases |space|
  {
    hide Dec, Atoi, LeadingDigits;
    var t := sign + (Dec(n) + rest);
    if space != [] {
      assert (space + t)[1..] == space[1..] + t && (space + t)[0] == space[0];
      CAtoiReads(space[1..], sign, n, rest);
    } else {
      AtoiDec(n);
      NoDigitNext(rest);
      SignRead(sign, Dec(n), rest);
      assert space + t == t;
    }
  }

  lemma NoDigitNext(rest: string)
    requires rest != [] ==> rest[0] !in "0123456789"
    ensures rest != [] ==> !IsDigit(rest[0])
  {
  }

  /** The base is ten. */
  lemma DecIsDecimal()
    ensures Dec(2048) == "2048" && Atoi("2048") == 2048
  {
    AtoiDec(2048);
    assert Dec(20) == Dec(2) + "0" && Dec(204) == Dec(20) + "4" && Dec(2048) == Dec(204) + "8";
  }

  /** No sign, no leading zero: the strings "%d" prints. */
  predicate Canonical(s: string) { s != [] && AllDigits(s) && (|s| > 1 ==> s[0] != '0') }

  lemma {:induction false} DecCanonical(n: nat)
    ensures Canonical(Dec(n)) && (n > 0 ==> Dec(n)[0] != '0')
  {
    if n >= 10 {
      DecCanonical(n / 10);
    }
  }

  lemma {:induction false} AtoiDec(n: nat)
    ensures Atoi(Dec(n)) == n
  {
    if n >= 10 {
      AtoiDec(n / 10);
      assert Dec(n)[..|Dec(n)| - 1] == Dec(n / 10);
    } else {
      assert Dec(n)[..0] == [];
    }
  }

  lemma {:induction false} DecAtoi(s: string)
    requires Canonical(s)
    ensures Dec(Atoi(s)) == s
    ensures |s| > 1 ==> Atoi(s) > 0
  {
    var front, d := s[..|s| - 1], s[|s| - 1] as int - '0' as int;
    if |s| == 1 {
      assert Atoi(front) == 0;
    } else {
      DecAtoi(front);
      if |front| == 1 {
        assert front[..0] == [] && Atoi(front) == front[0] as int - '0' as int;
      }
      assert Atoi(s) / 10 == Atoi(front) && Atoi(s) % 10 == d;
    }
  }

  /** Printing is injective. */
  lemma DecInjective(m: nat, n: nat)
    requires Dec(m) == Dec(n)
    ensures m == n
  {
    AtoiDec(m);
    AtoiDec(n);
  }

  /** The name of the FIFO from user i to user j: ".%dto%d". */
  function FifoName(i: nat, j: nat): string {
    "." + Dec(i) + "to" + Dec(j)
  }

  lemma FifoNameInjective(i: nat, j: nat, i': nat, j': nat)
    requires FifoName(i, j) == FifoName(i', j')
    ensures i == i' && j == j'
  {
    var a, b, a', b' := Dec(i), Dec(j), Dec(i'), Dec(j');
    var s := FifoName(i, j);
    assert s[1 + |a|] == 't' && s[1 + |a'|] == 't';
    assert forall k :: 0 <= k < |a| ==> s[1 + k] == a[k];
    assert forall k :: 0 <= k < |a'| ==> s[1 + k] == a'[k];
    assert |a| == |a'|;
    assert a == s[1..1 + |a|] == a';
    assert b == s[3 + |a|..] == b';
    DecInjective(i, i');
    DecInjective(j, j');
  }
}
