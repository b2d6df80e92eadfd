/** Decimal numerals, joining, and splitting on line feeds. */
module Text {

  function Digit(n: nat): char
    requires n < 10
  {
    "0123456789"[n]
  }

  function Decimal(n: nat): (s: string)
    ensures s != "" && forall c | c in s :: '0' <= c <= '9'
  {
    (if n < 10 then "" else Decimal(n / 10)) + [Digit(n % 10)]
  }

  lemma {:induction false} DecimalInjective(m: nat, n: nat)
    requires Decimal(m) == Decimal(n)
    ensures m == n
  {
    var a, b := Decimal(m), Decimal(n);
    assert a[|a| - 1] == Digit(m % 10) && b[|b| - 1] == Digit(n % 10);
    DigitInjective(m % 10, n % 10);
    assert a[..|a| - 1] == (if m < 10 then "" else Decimal(m / 10));
    assert b[..|b| - 1] == (if n < 10 then "" else Decimal(n / 10));
    if m >= 10 && n >= 10 { DecimalInjective(m / 10, n / 10); }
  }

  lemma DigitInjective(m: nat, n: nat)
    requires m < 10 && n < 10 && Digit(m) == Digit(n)
    ensures m == n
  {}

  // `str(i)` of an integer.
  function IntText(i: int): (s: string)
    ensures s != "" && forall c | c in s :: c == '-' || '0' <= c <= '9'
  {
    if i < 0 then "-" + Decimal(-i) else Decimal(i)
  }

  function Join(parts: seq<string>, sep: string): string {
    if parts == [] then "" else if |parts| == 1 then parts[0] else parts[0] + sep + Join(parts[1..], sep)
  }

  // `s.split("\n")`
  function Split(s: string): (lines: seq<string>)
    ensures lines != [] && forall l | l in lines :: '\n' !in l
  {
    if s == "" then [""]
    else if s[0] == '\n' then [""] + Split(s[1..])
    else
      var rest := Split(s[1..]);
      [[s[0]] + rest[0]] + rest[1..]
  }

  lemma {:induction false} JoinSplit(s: string)
    ensures Join(Split(s), "\n") == s
  {
    if s != "" {
      JoinSplit(s[1..]);
      var rest := Split(s[1..]);
      if s[0] == '\n' {
        assert ([""] + rest)[1..] == rest;
      } else {
        assert Split(s)[1..] == rest[1..];
      }
      assert s == [s[0]] + s[1..];
    }
  }

  lemma {:induction false} SplitFirst(l: string, s: string)
    requires '\n' !in l
    ensures Split(l) == [l]
    ensures Split(l + "\n" + s) == [l] + Split(s)
  {
    if l == "" {
      assert l + "\n" + s == "\n" + s;
    } else {
      SplitFirst(l[1..], s);
      assert (l + "\n" + s)[1..] == l[1..] + "\n" + s;
      assert l == [l[0]] + l[1..];
    }
  }

  lemma {:induction false} SplitJoin(lines: seq<string>)
    requires lines != [] && forall l | l in lines :: '\n' !in l
    ensures Split(Join(lines, "\n")) == lines
  {
    if |lines| == 1 {
      SplitFirst(lines[0], "");
    } else {
      SplitJoin(lines[1..]);
      SplitFirst(lines[0], Join(lines[1..], "\n"));
      assert lines == [lines[0]] + lines[1..];
    }
  }

  lemma FirstReplaced(h: string, x: seq<string>, y: seq<string>)
    requires x != []
    ensures [h] + (x + y)[1..] == ([h] + x[1..]) + y && (x + y)[0] == x[0]
    ensures [h] + (x + y) == ([h] + x) + y
  {}

  lemma {:induction false} SplitConcat(a: string, b: string)
    ensures Split(a + "\n" + b) == Split(a) + Split(b)
  {
    var s := a + "\n" + b;
    if a == "" {
      assert s[0] == '\n' && s[1..] == b;
    } else {
      SplitConcat(a[1..], b);
      assert s[0] == a[0] && s[1..] == a[1..] + "\n" + b;
      FirstReplaced(if a[0] == '\n' then "" else [a[0]] + Split(a[1..])[0], Split(a[1..]), Split(b));
    }
  }

  function Repeat(c: char, n: nat): string {
    seq(n, _ => c)
  }
}
