/** The general journal the form builds: one entry per recorded line, each
    tagged with its operation's date, label and piece number, and the
    balance properties it keeps. */
module Journal {

  import opened Text
  import opened Lines
  import opened Validation

  /** One journal line, as the form stores it. */
  datatype Entry = Entry(
    date: string,
    operationLabel: string,
    piece: string,
    account: string,
    accountTitle: string,
    lineLabel: string,
    debit: Cents,
    credit: Cents)

  /** `chart.get(code, "")`. */
  function TitleOf(chart: map<string, string>, code: string): string {
    if code in chart then chart[code] else ""
  }

  /** The entry recorded for row `r`: the operation's date, label and piece,
      the row's account code as entered (not stripped) with its chart title
      or "", its line label and its amounts. */
  function Posting(chart: map<string, string>, date: string, operationLabel: string, piece: string, r: Row): Entry {
    Entry(date, operationLabel, piece, r.account, TitleOf(chart, r.account), r.lineLabel, r.debit, r.credit)
  }

  /** The entries recorded for the rows of one operation, in row order. */
  function Postings(chart: map<string, string>, date: string, operationLabel: string, piece: string, rows: seq<Row>): (es: seq<Entry>)
    ensures |es| == |rows|
  {
    if rows == [] then []
    else Postings(chart, date, operationLabel, piece, rows[..|rows| - 1])
         + [Posting(chart, date, operationLabel, piece, rows[|rows| - 1])]
  }

  function Debits(entries: seq<Entry>): Cents {
    if entries == [] then 0 else Debits(entries[..|entries| - 1]) + entries[|entries| - 1].debit
  }

  function Credits(entries: seq<Entry>): Cents {
    if entries == [] then 0 else Credits(entries[..|entries| - 1]) + entries[|entries| - 1].credit
  }

  /** The entries of one piece number, in journal order. */
  function OfPiece(entries: seq<Entry>, piece: string): seq<Entry> {
    if entries == [] then []
    else if entries[|entries| - 1].piece == piece then OfPiece(entries[..|entries| - 1], piece) + [entries[|entries| - 1]]
    else OfPiece(entries[..|entries| - 1], piece)
  }

  /** Operation `rows` becomes one entry per row, in order, each carrying the
      operation's date, label and piece, the row's raw account code with its
      chart title (or "" when the raw code is not in the chart), its label
      and its amounts. */
  lemma PostingsSpec(chart: map<string, string>, date: string, operationLabel: string, piece: string, rows: seq<Row>)
    ensures |Postings(chart, date, operationLabel, piece, rows)| == |rows|
    ensures forall i :: 0 <= i < |rows| ==>
              var e := Postings(chart, date, operationLabel, piece, rows)[i];
              && e.date == date && e.operationLabel == operationLabel && e.piece == piece
              && e.account == rows[i].account
              && (rows[i].account in chart ==> e.accountTitle == chart[rows[i].account])
              && (rows[i].account !in chart ==> e.accountTitle == "")
              && e.lineLabel == rows[i].lineLabel
              && e.debit == rows[i].debit && e.credit == rows[i].credit
  {
    PostingsAt(chart, date, operationLabel, piece, rows);
  }

  /** Entry `i` of an operation is the posting of row `i`. */
  lemma {:induction false} PostingsAt(chart: map<string, string>, date: string, operationLabel: string, piece: string, rows: seq<Row>)
    ensures forall i :: 0 <= i < |rows| ==>
              Postings(chart, date, operationLabel, piece, rows)[i] == Posting(chart, date, operationLabel, piece, rows[i])
  {
    if rows != [] {
      var init := rows[..|rows| - 1];
      PostingsAt(chart, date, operationLabel, piece, init);
      assert forall i :: 0 <= i < |init| ==> rows[i] == init[i];
    }
  }

  /** Recording an operation carries its debit and credit totals over to
      the journal unchanged. */
  lemma {:induction false} PostingsTotals(chart: map<string, string>, date: string, operationLabel: string, piece: string, rows: seq<Row>)
    ensures Debits(Postings(chart, date, operationLabel, piece, rows)) == TotalDebit(rows)
    ensures Credits(Postings(chart, date, operationLabel, piece, rows)) == TotalCredit(rows)
  {
    if rows != [] {
      PostingsTotals(chart, date, operationLabel, piece, rows[..|rows| - 1]);
      var all := Postings(chart, date, operationLabel, piece, rows);
      assert all[..|all| - 1] == Postings(chart, date, operationLabel, piece, rows[..|rows| - 1]);
    }
  }

  lemma {:induction false} DebitsCreditsAppend(a: seq<Entry>, b: seq<Entry>)
    ensures Debits(a + b) == Debits(a) + Debits(b)
    ensures Credits(a + b) == Credits(a) + Credits(b)
  {
    if b != [] {
      DebitsCreditsAppend(a, b[..|b| - 1]);
      assert (a + b)[..|a + b| - 1] == a + b[..|b| - 1];
    } else {
      assert a + b == a;
    }
  }

  lemma {:induction false} OfPieceAppend(a: seq<Entry>, b: seq<Entry>, piece: string)
    ensures OfPiece(a + b, piece) == OfPiece(a, piece) + OfPiece(b, piece)
  {
    if b != [] {
      OfPieceAppend(a, b[..|b| - 1], piece);
      assert (a + b)[..|a + b| - 1] == a + b[..|b| - 1];
    } else {
      assert a + b == a;
    }
  }

  /** The entries of one operation all carry its piece number: selecting
      that piece gives them all, selecting any other gives none. */
  lemma {:induction false} OfPiecePostings(chart: map<string, string>, date: string, operationLabel: string, q: string, rows: seq<Row>, piece: string)
    ensures OfPiece(Postings(chart, date, operationLabel, q, rows), piece) ==
            if piece == q then Postings(chart, date, operationLabel, q, rows) else []
  {
    if rows != [] {
      OfPiecePostings(chart, date, operationLabel, q, rows[..|rows| - 1], piece);
      var all := Postings(chart, date, operationLabel, q, rows);
      assert all[..|all| - 1] == Postings(chart, date, operationLabel, q, rows[..|rows| - 1]);
    }
  }

  /** A recorded line: an account of the chart once stripped, a label, one
      amount on exactly one side, under an operation with a label. */
  predicate EntryOk(chart: map<string, string>, e: Entry) {
    && Strip(e.account) != ""
    && Strip(e.account) in chart
    && Strip(e.lineLabel) != ""
    && (e.debit > 0) != (e.credit > 0)
    && Strip(e.operationLabel) != ""
  }

  /** Every piece number's entries balance. */
  ghost predicate PiecesBalance(entries: seq<Entry>) {
    forall piece :: Debits(OfPiece(entries, piece)) == Credits(OfPiece(entries, piece))
  }

  /** What recording only guarded operations guarantees of the journal:
      every line is well formed, total debit equals total credit, and so do
      the debits and credits of every piece number. */
  ghost predicate Consistent(chart: map<string, string>, entries: seq<Entry>) {
    && (forall i :: 0 <= i < |entries| ==> EntryOk(chart, entries[i]))
    && Debits(entries) == Credits(entries)
    && PiecesBalance(entries)
  }

  /** The empty journal is consistent. */
  lemma EmptyConsistent(chart: map<string, string>)
    ensures Consistent(chart, [])
  {
    forall piece ensures Debits(OfPiece([], piece)) == Credits(OfPiece([], piece)) {
      assert OfPiece([], piece) == [];
    }
  }

  /** The entries of rows that pass the checks are well formed. */
  lemma {:induction false} AcceptedRowsPostWell(chart: map<string, string>, date: string, operationLabel: string, piece: string, rows: seq<Row>)
    requires AllRowsOk(chart, rows) && Strip(operationLabel) != ""
    ensures forall i :: 0 <= i < |rows| ==> EntryOk(chart, Postings(chart, date, operationLabel, piece, rows)[i])
  {
    PostingsAt(chart, date, operationLabel, piece, rows);
    forall i | 0 <= i < |rows|
      ensures EntryOk(chart, Postings(chart, date, operationLabel, piece, rows)[i])
    {
      assert RowOk(chart, rows[i]);
    }
  }

  /** Appending an operation that the button lets through keeps the journal
      consistent, whatever its piece number and whether or not that number
      was used before. */
  lemma RecordKeepsConsistent(chart: map<string, string>, entries: seq<Entry>, date: string, operationLabel: string, piece: string, rows: seq<Row>)
    requires Consistent(chart, entries)
    requires !CommitDisabled(rows, Errors(chart, rows), operationLabel)
    ensures Consistent(chart, entries + Postings(chart, date, operationLabel, piece, rows))
  {
    var batch := Postings(chart, date, operationLabel, piece, rows);
    var all := entries + batch;
    CommitEnabledIff(chart, rows, operationLabel);
    PostingsTotals(chart, date, operationLabel, piece, rows);
    DebitsCreditsAppend(entries, batch);
    AcceptedRowsPostWell(chart, date, operationLabel, piece, rows);
    forall i | 0 <= i < |all| ensures EntryOk(chart, all[i]) {
      if i >= |entries| {
        assert all[i] == batch[i - |entries|];
      }
    }
    forall p ensures Debits(OfPiece(all, p)) == Credits(OfPiece(all, p)) {
      OfPieceAppend(entries, batch, p);
      OfPiecePostings(chart, date, operationLabel, piece, rows, p);
      DebitsCreditsAppend(OfPiece(entries, p), OfPiece(batch, p));
    }
  }
}
