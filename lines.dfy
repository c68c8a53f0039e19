/** The rows of the entry table (`op_table` / the edited table) and the
    cleaning and totals computed from them. Amounts are whole cents. */
module Lines {

  import opened Text

  /** Amounts in cents; the form's number inputs have minimum 0. */
  type Cents = nat

  /** One row of the entry table: account code, line label, debit, credit. */
  datatype Row = Row(account: string, lineLabel: string, debit: Cents, credit: Cents)

  /** The one blank row the entry table is reset to. */
  const BlankRow := Row("", "", 0, 0)

  /** A row worth keeping: some account or label text, or some amount. */
  predicate Useful(r: Row) {
    Strip(r.account) != "" || Strip(r.lineLabel) != "" || r.debit > 0 || r.credit > 0
  }

  /** `lignes_valides`: the useful rows, in their original order. */
  function UsefulRows(rows: seq<Row>): seq<Row> {
    if rows == [] then []
    else if Useful(rows[|rows| - 1]) then UsefulRows(rows[..|rows| - 1]) + [rows[|rows| - 1]]
    else UsefulRows(rows[..|rows| - 1])
  }

  /** `a` is `b` with some elements left out, the rest in order. */
  predicate IsSubsequence<T(==)>(a: seq<T>, b: seq<T>)
    decreases |b|
  {
    if a == [] then true
    else if b == [] then false
    else if a[|a| - 1] == b[|b| - 1] then IsSubsequence(a[..|a| - 1], b[..|b| - 1])
    else IsSubsequence(a, b[..|b| - 1])
  }

  /** The cleaned table keeps exactly the useful rows: everything it holds
      is a useful row of the input, every useful row of the input is in it,
      and it is an order-preserving subsequence of the input. */
  lemma {:induction false} UsefulRowsSpec(rows: seq<Row>)
    ensures IsSubsequence(UsefulRows(rows), rows)
    ensures forall r :: r in UsefulRows(rows) <==> r in rows && Useful(r)
    ensures |UsefulRows(rows)| <= |rows|
  {
    if rows != [] {
      var init, last := rows[..|rows| - 1], rows[|rows| - 1];
      UsefulRowsSpec(init);
      assert rows == init + [last];
      var u := UsefulRows(init);
      if Useful(last) {
        assert (u + [last])[..|u + [last]| - 1] == u;
      } else {
        SubsequenceExtend(u, init, last);
      }
    }
  }

  /** Cleaning works row by row: the cleaned concatenation is the
      concatenation of the cleaned parts, so every useful position is kept,
      repeated rows included. */
  lemma {:induction false} UsefulRowsAppend(a: seq<Row>, b: seq<Row>)
    ensures UsefulRows(a + b) == UsefulRows(a) + UsefulRows(b)
  {
    if b == [] {
      assert a + b == a;
    } else {
      UsefulRowsAppend(a, b[..|b| - 1]);
      assert (a + b)[..|a + b| - 1] == a + b[..|b| - 1];
    }
  }

  /** One row is kept exactly when it is useful. */
  lemma UsefulRowsSingle(r: Row)
    ensures UsefulRows([r]) == if Useful(r) then [r] else []
  {
    assert [r][..0] == [];
  }

  lemma {:induction false} SubsequenceExtend<T>(a: seq<T>, b: seq<T>, x: T)
    requires IsSubsequence(a, b)
    ensures IsSubsequence(a, b + [x])
    decreases |b|, 1
  {
    if a != [] {
      assert (b + [x])[..|b + [x]| - 1] == b;
      if a[|a| - 1] != x {
      } else {
        SubsequenceDropLast(a, b);
      }
    }
  }

  /** Dropping the last element of a subsequence keeps it a subsequence. */
  lemma {:induction false} SubsequenceDropLast<T>(a: seq<T>, b: seq<T>)
    requires a != [] && IsSubsequence(a, b)
    ensures IsSubsequence(a[..|a| - 1], b)
    decreases |b|, 0
  {
    var init := b[..|b| - 1];
    if a[|a| - 1] == b[|b| - 1] {
      SubsequenceExtend(a[..|a| - 1], init, b[|b| - 1]);
      assert init + [b[|b| - 1]] == b;
    } else {
      SubsequenceDropLast(a, init);
      SubsequenceExtend(a[..|a| - 1], init, b[|b| - 1]);
      assert init + [b[|b| - 1]] == b;
    }
  }

  /** Cleaning a cleaned table changes nothing. */
  lemma {:induction false} UsefulRowsIdempotent(rows: seq<Row>)
    ensures UsefulRows(UsefulRows(rows)) == UsefulRows(rows)
  {
    if rows != [] {
      var init, last := rows[..|rows| - 1], rows[|rows| - 1];
      UsefulRowsIdempotent(init);
      var u := UsefulRows(init);
      if Useful(last) {
        assert (u + [last])[..|u + [last]| - 1] == u;
      }
    }
  }

  /** A table of blank rows cleans to nothing; in particular the reset
      table does. */
  lemma {:induction false} BlankRowsAreDropped(rows: seq<Row>)
    requires forall i :: 0 <= i < |rows| ==> rows[i] == BlankRow
    ensures UsefulRows(rows) == []
  {
    if rows != [] {
      BlankRowsAreDropped(rows[..|rows| - 1]);
    }
  }

  /** Sum of the debit column. */
  function TotalDebit(rows: seq<Row>): Cents {
    if rows == [] then 0 else TotalDebit(rows[..|rows| - 1]) + rows[|rows| - 1].debit
  }

  /** Sum of the credit column. */
  function TotalCredit(rows: seq<Row>): Cents {
    if rows == [] then 0 else TotalCredit(rows[..|rows| - 1]) + rows[|rows| - 1].credit
  }

  function Abs(x: int): nat {
    if x < 0 then -x else x
  }

  /** The balance tolerance, 0.01 of the currency: one cent. */
  const Tolerance: Cents := 1

  /** `abs(total_d - total_c) < 0.01`. */
  predicate Balanced(rows: seq<Row>) {
    Abs(TotalDebit(rows) - TotalCredit(rows)) < Tolerance
  }

  /** On whole cents the tolerance test is exact equality of the totals. */
  lemma BalancedIffEqualTotals(rows: seq<Row>)
    ensures Balanced(rows) <==> TotalDebit(rows) == TotalCredit(rows)
  {
  }
}
