/** The name comparator of the machines: the two-pointer loop with its machine integers, when it follows
    the intended order, and the strict order it then gives. */
module NameOrder {
  import opened NameTokens

  const LongMax: int := 0x7fff_ffff_ffff_ffff

  /** What strtol returns for a run of digits. */
  function Saturated(v: nat): nat {
    if v > LongMax then LongMax else v
  }

  /** The conversion of a long to an int. */
  function Truncated(n: int): (r: int)
    ensures -0x8000_0000 <= r < 0x8000_0000
  {
    (n + 0x8000_0000) % 0x1_0000_0000 - 0x8000_0000
  }

  datatype Comparison = Overflow | Result(sign: int)

  /** The comparator on tokens. Only an overflow in the first name is noticed: the second check looks at
      the first number again. */
  ghost function CodeCompare(a: seq<Token>, b: seq<Token>): Comparison {
    if a == [] || b == [] then Result(Sign(|a| - |b|))
    else if a[0].Num? && b[0].Num? then
      var v, w := Saturated(a[0].value), Saturated(b[0].value);
      if v == LongMax then Overflow
      else if v != w then Result(Sign(Truncated(v - w)))
      else CodeCompare(a[1..], b[1..])
    else if CompareToken(a[0], b[0]) != 0 then Result(CompareToken(a[0], b[0]))
    else CodeCompare(a[1..], b[1..])
  }

  // ----- the loop -----

  /** strtol: the number at i, and where it ends. */
  method ReadNumber(s: Name, i: nat) returns (number: int, end: nat)
    requires i < |s| && IsDigit(s[i])
    ensures end == i + RunLength(s[i..]) && i < end <= |s|
    ensures number == Saturated(Value(s[i..end]))
  {
    end, number := i, 0;
    while end < |s| && IsDigit(s[end])
      invariant i <= end <= |s| && (forall k :: i <= k < end ==> IsDigit(s[k]))
      invariant end - i + RunLength(s[end..]) == RunLength(s[i..])
      invariant number == Saturated(Value(s[i..end]))
    {
      OneMoreDigit(s, i, end);
      var more := 10 * number + (s[end] as int - 48);
      number := if more > LongMax then LongMax else more;
      end := end + 1;
    }
    assert s[end..] == [] || !IsDigit(s[end..][0]);
  }

  lemma OneMoreDigit(s: Name, i: nat, end: nat)
    requires i <= end < |s| && IsDigit(s[end]) && forall k :: i <= k < end ==> IsDigit(s[k])
    ensures RunLength(s[end..]) == 1 + RunLength(s[end + 1..])
    ensures Saturated(10 * Saturated(Value(s[i..end])) + (s[end] as int - 48)) == Saturated(Value(s[i..end + 1]))
  {
    assert s[end..][1..] == s[end + 1..];
    assert s[i..end + 1] == s[i..end] + [s[end]];
  }

  lemma TokensAt(s: Name, i: nat)
    requires i < |s|
    ensures Tokens(s[i..]) == if IsDigit(s[i]) then
                                [Num(Value(s[i..][..RunLength(s[i..])]))] + Tokens(s[i + RunLength(s[i..])..])
                              else [Chr(s[i])] + Tokens(s[i + 1..])
    ensures IsDigit(s[i]) ==> s[i..][..RunLength(s[i..])] == s[i..i + RunLength(s[i..])]
  {
    if IsDigit(s[i]) {
      assert s[i..][RunLength(s[i..])..] == s[i + RunLength(s[i..])..];
    } else {
      assert s[i..][1..] == s[i + 1..];
    }
  }

  /** string_numeric_comparator */
  method StringNumericComparator(s1: Name, s2: Name) returns (overflow: bool, r: int)
    ensures overflow <==> CodeCompare(Tokens(s1), Tokens(s2)).Overflow?
    ensures !overflow ==> CodeCompare(Tokens(s1), Tokens(s2)) == Result(Sign(r))
  {
    hide Tokens, Value, RunLength;
    var p1, p2 := 0, 0;
    assert s1[0..] == s1 && s2[0..] == s2;
    while p1 < |s1| && p2 < |s2|
      invariant 0 <= p1 <= |s1| && 0 <= p2 <= |s2|
      invariant CodeCompare(Tokens(s1[p1..]), Tokens(s2[p2..])) == CodeCompare(Tokens(s1), Tokens(s2))
      decreases |s1| - p1 + |s2| - p2
    {
      TokensAt(s1, p1);
      TokensAt(s2, p2);
      if IsDigit(s1[p1]) && IsDigit(s2[p2]) {
        var int1, end1 := ReadNumber(s1, p1);
        var int2, end2 := ReadNumber(s2, p2);
        if int1 == LongMax {
          return true, 0;
        }
        if int1 != int2 {
          return false, Truncated(int1 - int2);
        }
        p1, p2 := end1, end2;
      } else {
        if s1[p1] != s2[p2] {
          return false, s1[p1] as int - s2[p2] as int;
        }
        p1, p2 := p1 + 1, p2 + 1;
      }
    }
    NoTokens(s1[p1..]);
    NoTokens(s2[p2..]);
    if p1 < |s1| {
      return false, 1;
    } else if p2 < |s2| {
      return false, -1;
    } else {
      return false, 0;
    }
  }

  lemma NoTokens(s: Name)
    ensures Tokens(s) == [] <==> s == []
  {
  }

  // ----- when it follows the intended order -----

  /** strtol does not saturate the first number, and the difference keeps its sign as an int. */
  predicate Comparable(v: nat, w: nat) {
    && v < LongMax
    && (v > w ==> 0 < (v - w) % 0x1_0000_0000 < 0x8000_0000)
    && (v < w ==> 0 < (Saturated(w) - v) % 0x1_0000_0000 <= 0x8000_0000)
  }

  /** The numbers met before and at the first difference are comparable. */
  ghost predicate AllComparable(a: seq<Token>, b: seq<Token>) {
    a != [] && b != [] ==>
      && (a[0].Num? && b[0].Num? ==> Comparable(a[0].value, b[0].value))
      && (a[0] == b[0] ==> AllComparable(a[1..], b[1..]))
  }

  lemma TruncatedSign(v: nat, w: nat)
    requires v < LongMax && v != w
    ensures Saturated(v) != Saturated(w)
    ensures Sign(Truncated(Saturated(v) - Saturated(w))) == Sign(v - w) <==> Comparable(v, w)
  {
  }

  /** The comparator gives the intended sign if and only if all numbers it meets are comparable. */
  lemma {:induction false} IntendedIffComparable(a: seq<Token>, b: seq<Token>)
    ensures CodeCompare(a, b) == Result(Compare(a, b)) <==> AllComparable(a, b)
  {
    if a != [] && b != [] {
      if a[0] == b[0] {
        IntendedIffComparable(a[1..], b[1..]);
      } else if a[0].Num? && b[0].Num? && a[0].value < LongMax {
        TruncatedSign(a[0].value, b[0].value);
      }
    }
  }

  /** All numbers of the name are below 2^31. */
  ghost predicate SmallNumbers(t: seq<Token>) {
    forall i :: 0 <= i < |t| && t[i].Num? ==> t[i].value < 0x8000_0000
  }

  lemma {:induction false} SmallAreComparable(a: seq<Token>, b: seq<Token>)
    requires SmallNumbers(a) && SmallNumbers(b)
    ensures AllComparable(a, b)
  {
    if a != [] && b != [] && a[0] == b[0] {
      SmallAreComparable(a[1..], b[1..]);
    }
  }

  lemma {:induction false} DecimalIsNumber(v: nat)
    ensures var s := Decimal(v); s != [] && (forall i :: 0 <= i < |s| ==> IsDigit(s[i])) && Value(s) == v
  {
    if v >= 10 {
      DecimalIsNumber(v / 10);
      var s := Decimal(v);
      assert s[..|s| - 1] == Decimal(v / 10);
    } else {
      assert Value(Decimal(v)[..0]) == 0;
    }
  }

  lemma TokensOfDecimal(v: nat)
    ensures Tokens(Decimal(v)) == [Num(v)]
  {
    var s := Decimal(v);
    DecimalIsNumber(v);
    assert s + [] == s;
    RunOfConcat(s, []);
    assert s[..|s|] == s && s[|s|..] == [];
  }

  lemma CompareNumbers(v: nat, w: nat)
    ensures CodeCompare([Num(v)], [Num(w)])
         == if Saturated(v) == LongMax then Overflow
            else if v != w then Result(Sign(Truncated(Saturated(v) - Saturated(w)))) else Result(0)
  {
    assert [Num(v)][1..] == [] && [Num(w)][1..] == [];
  }

  /** Larger numbers can compare in a circle, or equal though they differ. */
  lemma LargeNumbersMisordered()
    ensures var a, b, c := Tokens(Decimal(0)), Tokens(Decimal(2147483647)), Tokens(Decimal(4294967295));
            CodeCompare(a, b) == CodeCompare(b, c) == CodeCompare(c, a) == Result(-1)
    ensures CodeCompare(Tokens(Decimal(0)), Tokens(Decimal(4294967296))) == Result(0)
  {
    hide Decimal, Tokens, CodeCompare;
    TokensOfDecimal(0);
    TokensOfDecimal(2147483647);
    TokensOfDecimal(4294967295);
    TokensOfDecimal(4294967296);
    CompareNumbers(0, 2147483647);
    CompareNumbers(2147483647, 4294967295);
    CompareNumbers(4294967295, 0);
    CompareNumbers(0, 4294967296);
  }

  // ----- the order of machines -----

  function Unsigned(c: Char): int {
    if c < 0 then c as int + 256 else c as int
  }

  /** The sign of strcmp. */
  function StrCmp(s1: Name, s2: Name): int {
    if s1 == [] || s2 == [] then Sign(|s1| - |s2|)
    else if s1[0] != s2[0] then Sign(Unsigned(s1[0]) - Unsigned(s2[0]))
    else StrCmp(s1[1..], s2[1..])
  }

  lemma {:induction false} StrCmpAntisymmetric(s1: Name, s2: Name)
    ensures StrCmp(s1, s2) == -StrCmp(s2, s1) && (StrCmp(s1, s2) == 0 <==> s1 == s2)
  {
    if s1 != [] && s2 != [] {
      StrCmpAntisymmetric(s1[1..], s2[1..]);
      assert s1 == [s1[0]] + s1[1..] && s2 == [s2[0]] + s2[1..];
    }
  }

  lemma {:induction false} StrCmpTransitive(s1: Name, s2: Name, s3: Name)
    requires StrCmp(s1, s2) < 0 && StrCmp(s2, s3) < 0
    ensures StrCmp(s1, s3) < 0
  {
    if s1 != [] && s2 != [] && s3 != [] && s1[0] == s2[0] && s2[0] == s3[0] {
      StrCmpTransitive(s1[1..], s2[1..], s3[1..]);
    }
  }

  /** Natural order, names that agree up to leading zeros being ordered by their characters. */
  ghost predicate Less(s1: Name, s2: Name) {
    var order := Compare(Tokens(s1), Tokens(s2));
    order < 0 || (order == 0 && StrCmp(s1, s2) < 0)
  }

  /** Less orders all names strictly ... */
  lemma LessIsStrict(s1: Name, s2: Name)
    requires Less(s1, s2)
    ensures !Less(s2, s1) && s1 != s2
  {
    CompareAntisymmetric(Tokens(s1), Tokens(s2));
    StrCmpAntisymmetric(s1, s2);
  }

  /** ... and totally. */
  lemma LessIsTotal(s1: Name, s2: Name)
    requires s1 != s2 && !Less(s1, s2)
    ensures Less(s2, s1)
  {
    CompareAntisymmetric(Tokens(s1), Tokens(s2));
    StrCmpAntisymmetric(s1, s2);
  }

  lemma LessIsTransitive(s1: Name, s2: Name, s3: Name)
    requires Less(s1, s2) && Less(s2, s3)
    ensures Less(s1, s3)
  {
    var a, b, c := Tokens(s1), Tokens(s2), Tokens(s3);
    TokensProper(s1);
    TokensProper(s2);
    TokensProper(s3);
    CompareTransitive(a, b, c);
    CompareZero(a, b);
    CompareZero(b, c);
    CompareZero(a, c);
    CompareAntisymmetric(a, b);
    if a == b && b == c {
      StrCmpTransitive(s1, s2, s3);
    }
  }

  /** machine_comparator_name */
  method MachineComparatorName(name1: Name, name2: Name) returns (overflow: bool, less: bool)
    ensures AllComparable(Tokens(name1), Tokens(name2)) ==> !overflow && (less <==> Less(name1, name2))
    ensures SmallNumbers(Tokens(name1)) && SmallNumbers(Tokens(name2)) ==> !overflow && (less <==> Less(name1, name2))
  {
    var cmpRet;
    overflow, cmpRet := StringNumericComparator(name1, name2);
    if !overflow && cmpRet == 0 {
      cmpRet := StrCmp(name1, name2);
    }
    less := cmpRet < 0;
    IntendedIffComparable(Tokens(name1), Tokens(name2));
    if SmallNumbers(Tokens(name1)) && SmallNumbers(Tokens(name2)) {
      SmallAreComparable(Tokens(name1), Tokens(name2));
    }
  }
}
