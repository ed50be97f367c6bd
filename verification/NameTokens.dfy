/** Machine names as the natural-order comparator reads them: maximal runs of digits stand for their
    number, every other character for itself. */
module NameTokens {

  /** A C char; names hold no NUL. */
  type Char = c: int | -128 <= c < 128 && c != 0 witness 1

  type Name = seq<Char>

  predicate IsDigit(c: Char) {
    48 <= c <= 57
  }

  datatype Token = Num(value: nat) | Chr(c: Char)

  /** The length of the run of digits that s starts with. */
  function RunLength(s: Name): (n: nat)
    ensures n <= |s| && (forall i :: 0 <= i < n ==> IsDigit(s[i])) && (n < |s| ==> !IsDigit(s[n]))
  {
    if s == [] || !IsDigit(s[0]) then 0 else 1 + RunLength(s[1..])
  }

  function Value(run: Name): (v: nat)
    requires forall i :: 0 <= i < |run| ==> IsDigit(run[i])
  {
    if run == [] then 0
    else
      var last := run[|run| - 1];
      assert IsDigit(last);
      10 * Value(run[..|run| - 1]) + (last as int - 48)
  }

  ghost function Tokens(s: Name): seq<Token> {
    if s == [] then []
    else if IsDigit(s[0]) then
      var n := RunLength(s);
      [Num(Value(s[..n]))] + Tokens(s[n..])
    else [Chr(s[0])] + Tokens(s[1..])
  }

  // ----- the intended order -----

  function Sign(n: int): int {
    if n < 0 then -1 else if n > 0 then 1 else 0
  }

  /** Digits come between the characters below '0' and those above '9'. */
  function CompareToken(a: Token, b: Token): int {
    match (a, b)
    case (Num(v), Num(w)) => Sign(v - w)
    case (Num(_), Chr(c)) => if c < 48 then 1 else -1
    case (Chr(c), Num(_)) => if c < 48 then -1 else 1
    case (Chr(c), Chr(d)) => Sign(c as int - d as int)
  }

  /** No character token is a digit. */
  ghost predicate Proper(t: seq<Token>) {
    forall i :: 0 <= i < |t| && t[i].Chr? ==> !IsDigit(t[i].c)
  }

  ghost function Compare(a: seq<Token>, b: seq<Token>): int {
    if a == [] || b == [] then Sign(|a| - |b|)
    else if CompareToken(a[0], b[0]) != 0 then CompareToken(a[0], b[0])
    else Compare(a[1..], b[1..])
  }

  lemma {:induction false} TokensProper(s: Name)
    ensures Proper(Tokens(s))
    decreases |s|
  {
    if s != [] {
      TokensProper(if IsDigit(s[0]) then s[RunLength(s)..] else s[1..]);
    }
  }

  lemma {:induction false} CompareAntisymmetric(a: seq<Token>, b: seq<Token>)
    ensures Compare(a, b) == -Compare(b, a)
  {
    if a != [] && b != [] {
      CompareAntisymmetric(a[1..], b[1..]);
    }
  }

  lemma {:induction false} CompareZero(a: seq<Token>, b: seq<Token>)
    ensures Compare(a, b) == 0 <==> a == b
  {
    if a != [] && b != [] {
      CompareZero(a[1..], b[1..]);
      assert a == [a[0]] + a[1..] && b == [b[0]] + b[1..];
    }
  }

  lemma {:induction false} CompareTransitive(a: seq<Token>, b: seq<Token>, c: seq<Token>)
    requires Proper(a) && Proper(b) && Proper(c) && Compare(a, b) <= 0 && Compare(b, c) <= 0
    ensures Compare(a, c) <= 0
  {
    if a != [] && b != [] && c != [] && CompareToken(a[0], b[0]) == 0 && CompareToken(b[0], c[0]) == 0 {
      CompareTransitive(a[1..], b[1..], c[1..]);
    }
  }

  // ----- leading zeros -----

  /** The name without the leading zeros of its numbers. */
  function WithoutLeadingZeros(s: Name): Name {
    if s == [] then []
    else if IsDigit(s[0]) then
      var n := RunLength(s);
      Stripped(s[..n]) + WithoutLeadingZeros(s[n..])
    else [s[0]] + WithoutLeadingZeros(s[1..])
  }

  function Stripped(run: Name): Name {
    if |run| > 1 && run[0] == 48 then Stripped(run[1..]) else run
  }

  function Decimal(v: nat): Name {
    if v < 10 then [(48 + v) as Char] else Decimal(v / 10) + [(48 + v % 10) as Char]
  }

  ghost function Render(t: seq<Token>): Name {
    if t == [] then []
    else (match t[0] case Num(v) => Decimal(v) case Chr(c) => [c]) + Render(t[1..])
  }

  lemma {:induction false} ValueOfZero(run: Name)
    requires run != [] && run[0] == 48 && forall i :: 0 <= i < |run| ==> IsDigit(run[i])
    ensures Value(run) == Value(run[1..])
  {
    var n := |run| - 1;
    if n > 0 {
      ValueOfZero(run[..n]);
      assert run[..n][1..] == run[1..][..n - 1];
    }
  }

  lemma {:induction false} StrippedSame(run: Name)
    requires run != [] && forall i :: 0 <= i < |run| ==> IsDigit(run[i])
    ensures var r := Stripped(run);
            r != [] && (forall i :: 0 <= i < |r| ==> IsDigit(r[i])) && Value(r) == Value(run)
            && (r[0] == 48 ==> |r| == 1)
  {
    if |run| > 1 && run[0] == 48 {
      ValueOfZero(run);
      StrippedSame(run[1..]);
    }
  }

  lemma {:induction false} DecimalOfValue(run: Name)
    requires run != [] && (forall i :: 0 <= i < |run| ==> IsDigit(run[i])) && (run[0] == 48 ==> |run| == 1)
    ensures Decimal(Value(run)) == run && (run[0] != 48 ==> Value(run) > 0)
  {
    var n := |run| - 1;
    if n == 0 {
      assert Value(run[..0]) == 0;
    } else {
      DecimalOfValue(run[..n]);
      assert Value(run) / 10 == Value(run[..n]) && Value(run) % 10 == run[n] as int - 48;
    }
  }

  /** The tokens are known exactly when the name without leading zeros is. */
  lemma {:induction false} RenderTokens(s: Name)
    ensures Render(Tokens(s)) == WithoutLeadingZeros(s)
    decreases |s|
  {
    if s != [] {
      if IsDigit(s[0]) {
        var n := RunLength(s);
        StrippedSame(s[..n]);
        DecimalOfValue(Stripped(s[..n]));
        RenderTokens(s[n..]);
        assert Tokens(s)[1..] == Tokens(s[n..]);
      } else {
        RenderTokens(s[1..]);
        assert Tokens(s)[1..] == Tokens(s[1..]);
      }
    }
  }

  lemma {:induction false} RunOfConcat(run: Name, rest: Name)
    requires (forall i :: 0 <= i < |run| ==> IsDigit(run[i])) && (rest != [] ==> !IsDigit(rest[0]))
    ensures RunLength(run + rest) == |run|
  {
    if run == [] {
      assert run + rest == rest;
    } else {
      RunOfConcat(run[1..], rest);
      assert (run + rest)[1..] == run[1..] + rest;
    }
  }

  lemma {:induction false} TokensStripped(s: Name)
    ensures Tokens(WithoutLeadingZeros(s)) == Tokens(s)
    decreases |s|
  {
    if s != [] {
      if IsDigit(s[0]) {
        var n := RunLength(s);
        var run, rest := Stripped(s[..n]), WithoutLeadingZeros(s[n..]);
        StrippedSame(s[..n]);
        TokensStripped(s[n..]);
        if n < |s| {
          assert rest[0] == s[n];
        }
        RunOfConcat(run, rest);
        assert (run + rest)[..|run|] == run && (run + rest)[|run|..] == rest;
      } else {
        TokensStripped(s[1..]);
        assert WithoutLeadingZeros(s)[1..] == WithoutLeadingZeros(s[1..]);
      }
    }
  }

  /** Two names compare equal exactly when they agree up to leading zeros. */
  lemma EqualUpToZeros(s1: Name, s2: Name)
    ensures Compare(Tokens(s1), Tokens(s2)) == 0 <==> WithoutLeadingZeros(s1) == WithoutLeadingZeros(s2)
  {
    CompareZero(Tokens(s1), Tokens(s2));
    RenderTokens(s1);
    RenderTokens(s2);
    TokensStripped(s1);
    TokensStripped(s2);
  }
}
