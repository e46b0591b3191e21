/** Decimal numbers and "host:port" text, and why neither is ambiguous. */
module HostPort {

  predicate Decimal(c: char) {
    '0' <= c <= '9' || c == '-'
  }

  function Digit(n: nat): char
    requires n < 10
  {
    '0' + n as char
  }

  function Digits(n: nat): (s: string)
    ensures s != [] && forall c :: c in s ==> '0' <= c <= '9'
  {
    if n < 10 then [Digit(n)] else Digits(n / 10) + [Digit(n % 10)]
  }

  /** strconv.Itoa */
  function Itoa(n: int): (s: string)
    ensures forall c :: c in s ==> Decimal(c)
  {
    if n < 0 then "-" + Digits(-n) else Digits(n)
  }

  /** The number that decimal digits stand for. */
  function Value(s: string): int {
    if s == [] then 0 else 10 * Value(s[..|s| - 1]) + (s[|s| - 1] as int - '0' as int)
  }

  /** The text of a number is that number in decimal, without leading zeros, after a sign if it is negative. */
  lemma {:induction false} DigitsValue(n: nat)
    ensures Value(Digits(n)) == n && (n > 0 ==> Digits(n)[0] != '0') && |Digits(0)| == 1
  {
    var s := Digits(n);
    if n < 10 {
      assert s[..0] == [];
    } else {
      DigitsValue(n / 10);
      assert s[..|s| - 1] == Digits(n / 10);
    }
  }

  lemma ItoaValue(n: int)
    ensures if n < 0 then Itoa(n)[0] == '-' && Value(Itoa(n)[1..]) == -n else Value(Itoa(n)) == n
  {
    DigitsValue(if n < 0 then -n else n);
    if n < 0 {
      assert Itoa(n)[1..] == Digits(-n);
    }
  }

  lemma {:induction false} DigitsInjective(m: nat, n: nat)
    requires Digits(m) == Digits(n)
    ensures m == n
  {
    var s := Digits(m);
    if 10 <= m && 10 <= n {
      assert Digits(m / 10) == s[..|s| - 1] == Digits(n / 10);
      assert Digit(m % 10) == s[|s| - 1] == Digit(n % 10);
      DigitsInjective(m / 10, n / 10);
    } else {
      assert s[|s| - 1] == Digit(m % 10) == Digit(n % 10);
    }
  }

  lemma ItoaSign(n: int)
    ensures Itoa(n) != [] && (Itoa(n)[0] == '-' <==> n < 0)
  {
    if 0 <= n {
      assert Digits(n)[0] in Digits(n);
    }
  }

  lemma ItoaInjective(m: int, n: int)
    requires Itoa(m) == Itoa(n)
    ensures m == n
  {
    ItoaSign(m);
    ItoaSign(n);
    if m < 0 {
      assert Digits(-m) == Itoa(m)[1..] == Digits(-n);
      DigitsInjective(-m, -n);
    } else {
      DigitsInjective(m, n);
    }
  }

  /** Where `c` last occurs, or -1. */
  function LastPos(s: string, c: char): int {
    if s == [] then -1
    else if s[|s| - 1] == c then |s| - 1
    else LastPos(s[..|s| - 1], c)
  }

  lemma {:induction false} LastPosAt(a: string, c: char, x: string)
    requires c !in x
    ensures LastPos(a + [c] + x, c) == |a|
    decreases |x|
  {
    var s := a + [c] + x;
    if x == [] {
      assert s[|s| - 1] == c;
    } else {
      assert s[..|s| - 1] == a + [c] + x[..|x| - 1];
      LastPosAt(a, c, x[..|x| - 1]);
    }
  }

  /** Text splits in one way only at the last separator. */
  lemma LastSeparator(a: string, x: string, b: string, y: string, c: char)
    requires a + [c] + x == b + [c] + y && c !in x && c !in y
    ensures a == b && x == y
  {
    var s := a + [c] + x;
    LastPosAt(a, c, x);
    LastPosAt(b, c, y);
    assert a == s[..|a|] && x == s[|a| + 1..];
    assert b == s[..|b|] && y == s[|b| + 1..];
  }

  predicate NeedsBrackets(host: string) {
    ':' in host || '%' in host
  }

  function HostText(host: string): string {
    if NeedsBrackets(host) then "[" + host + "]" else host
  }

  lemma HostTextKeeps(h: string, c: char)
    requires c != '[' && c != ']'
    ensures c in HostText(h) <==> c in h
  {
  }

  lemma HostTextInjective(h: string, g: string)
    requires HostText(h) == HostText(g)
    ensures h == g
  {
    HostTextKeeps(h, ':');
    HostTextKeeps(h, '%');
    HostTextKeeps(g, ':');
    HostTextKeeps(g, '%');
    if NeedsBrackets(h) {
      assert h == HostText(h)[1..|h| + 1];
      assert g == HostText(g)[1..|g| + 1];
    }
  }

  /** net.JoinHostPort of a port number */
  function JoinHostPort(host: string, port: int): string {
    HostText(host) + ":" + Itoa(port)
  }

  lemma JoinInjective(h: string, m: int, g: string, n: int)
    requires JoinHostPort(h, m) == JoinHostPort(g, n)
    ensures h == g && m == n
  {
    LastSeparator(HostText(h), Itoa(m), HostText(g), Itoa(n), ':');
    HostTextInjective(h, g);
    ItoaInjective(m, n);
  }
}
