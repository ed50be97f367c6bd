/** Which of two names comes first, said of their characters and numbers. */
module NameDirections {
  import opened NameTokens
  import opened NameOrder

  /** No number runs from p into s. */
  ghost predicate Apart(p: Name, s: Name) {
    p == [] || s == [] || !IsDigit(p[|p| - 1]) || !IsDigit(s[0])
  }

  lemma RunIs(s: Name, n: nat)
    requires n <= |s| && (forall i :: 0 <= i < n ==> IsDigit(s[i])) && (n < |s| ==> !IsDigit(s[n]))
    ensures RunLength(s) == n
  {
  }

  lemma {:induction false} TokensConcat(p: Name, s: Name)
    requires Apart(p, s)
    ensures Tokens(p + s) == Tokens(p) + Tokens(s)
    decreases |p|
  {
    if p == [] {
      assert p + s == s;
    } else if IsDigit(p[0]) {
      var n := RunLength(p);
      RunIs(p + s, n);
      assert (p + s)[..n] == p[..n] && (p + s)[n..] == p[n..] + s;
      TokensConcat(p[n..], s);
    } else {
      assert (p + s)[1..] == p[1..] + s;
      TokensConcat(p[1..], s);
    }
  }

  lemma {:induction false} CompareConcat(t: seq<Token>, a: seq<Token>, b: seq<Token>)
    ensures Compare(t + a, t + b) == Compare(a, b)
  {
    if t == [] {
      assert t + a == a && t + b == b;
    } else {
      assert (t + a)[1..] == t[1..] + a && (t + b)[1..] == t[1..] + b;
      CompareConcat(t[1..], a, b);
    }
  }

  lemma AfterPrefix(p: Name, a: Name, b: Name)
    requires Apart(p, a) && Apart(p, b)
    ensures Compare(Tokens(p + a), Tokens(p + b)) == Compare(Tokens(a), Tokens(b))
  {
    TokensConcat(p, a);
    TokensConcat(p, b);
    CompareConcat(Tokens(p), Tokens(a), Tokens(b));
  }

  /** Of two names that differ first in a character, the one with the smaller character is less, unless both
      characters belong to numbers. */
  lemma CharactersDecide(p: Name, c: Char, d: Char, r1: Name, r2: Name)
    requires c < d && !(48 <= c <= 57 && 48 <= d <= 57)
    requires p == [] || !(48 <= p[|p| - 1] <= 57) || (!(48 <= c <= 57) && !(48 <= d <= 57))
    ensures Less(p + ([c] + r1), p + ([d] + r2)) && !Less(p + ([d] + r2), p + ([c] + r1))
  {
    AfterPrefix(p, [c] + r1, [d] + r2);
    LessIsStrict(p + ([c] + r1), p + ([d] + r2));
  }

  /** Of two names that differ first in a number, the one with the smaller number is less. */
  lemma NumbersDecide(p: Name, v: nat, w: nat, r1: Name, r2: Name)
    requires v < w && (p == [] || !(48 <= p[|p| - 1] <= 57))
    requires (r1 == [] || !(48 <= r1[0] <= 57)) && (r2 == [] || !(48 <= r2[0] <= 57))
    ensures Less(p + (Decimal(v) + r1), p + (Decimal(w) + r2))
  {
    AfterPrefix(p, Decimal(v) + r1, Decimal(w) + r2);
    NumberFirst(v, r1);
    NumberFirst(w, r2);
  }

  lemma NumberFirst(v: nat, r: Name)
    requires r == [] || !IsDigit(r[0])
    ensures Tokens(Decimal(v) + r) == [Num(v)] + Tokens(r)
  {
    DecimalIsNumber(v);
    TokensOfDecimal(v);
    TokensConcat(Decimal(v), r);
  }

  /** A name comes before its continuations. */
  lemma PrefixFirst(p: Name, r: Name)
    requires r != [] && (p == [] || !(48 <= p[|p| - 1] <= 57) || !(48 <= r[0] <= 57))
    ensures Less(p, p + r)
  {
    AfterPrefix(p, [], r);
    assert p + [] == p;
  }

  /** Names that agree up to leading zeros are ordered by their first different character, as an unsigned one. */
  lemma ZerosByCharacters(p: Name, c: Char, d: Char, r1: Name, r2: Name)
    requires WithoutLeadingZeros(p + ([c] + r1)) == WithoutLeadingZeros(p + ([d] + r2))
    requires (if c < 0 then c as int + 256 else c as int) < (if d < 0 then d as int + 256 else d as int)
    ensures Less(p + ([c] + r1), p + ([d] + r2))
  {
    EqualUpToZeros(p + ([c] + r1), p + ([d] + r2));
    StrCmpAfter(p, [c] + r1, [d] + r2);
  }

  lemma {:induction false} StrCmpAfter(p: Name, a: Name, b: Name)
    ensures StrCmp(p + a, p + b) == StrCmp(a, b)
  {
    if p == [] {
      assert p + a == a && p + b == b;
    } else {
      assert (p + a)[1..] == p[1..] + a && (p + b)[1..] == p[1..] + b;
      StrCmpAfter(p[1..], a, b);
    }
  }
}
