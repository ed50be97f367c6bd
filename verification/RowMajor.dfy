/** The position of an entry that is stored row by row: Times(row, n) + column, for rows of n entries. */
module RowMajor {

  /** c rows of n entries, counted row by row. */
  function Times(c: nat, n: nat): (p: nat)
  {
    if c == 0 then 0 else Times(c - 1, n) + n
  }

  lemma {:induction false} TimesIsProduct(c: nat, n: nat)
    ensures Times(c, n) == c * n
  {
    if c > 0 {
      TimesIsProduct(c - 1, n);
      assert c * n == (c - 1) * n + n;
    }
  }

  lemma {:induction false} TimesGrows(b: nat, c: nat, n: nat)
    requires b < c
    ensures Times(b, n) + n <= Times(c, n)
  {
    if b < c - 1 { TimesGrows(b, c - 1, n); }
  }

  /** The column of the k-th entry. */
  function Column(k: nat, n: nat): (i: nat)
    requires n > 0
    ensures i < n
  {
    if k < n then k else Column(k - n, n)
  }

  lemma {:induction false} ColumnOf(c: nat, n: nat, i: nat)
    requires i < n
    ensures Column(Times(c, n) + i, n) == i
  {
    if c > 0 {
      ColumnOf(c - 1, n, i);
    }
  }
}
