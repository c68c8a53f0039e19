/** The state the entry form keeps between interactions (the journal, the
    current piece number, the operation header and the entry table) and the
    actions that change it: editing the header, recording an operation,
    clearing the journal and clearing the entry table. */
module Session {

  import opened Chart
  import opened Lines
  import opened Validation
  import opened Journal
  import opened Piece

  /** The number the first operation of a session gets. */
  const FirstPiece := "OP001"

  class Session {
    /** The chart of accounts the form checks codes against and takes
        titles from; always `Plan`. */
    const chart: map<string, string>
    /** The recorded journal lines, oldest first. */
    var journal: seq<Entry>
    /** The piece number the next recorded operation is tagged with. */
    var piece: string
    /** The operation date, already formatted as the journal shows it. */
    var dateOp: string
    /** The operation label. */
    var operationLabel: string
    /** The entry table the editor starts from. */
    var opTable: seq<Row>

    /** Only operations that passed the checks were ever recorded. */
    ghost predicate Valid()
      reads this
    {
      Consistent(chart, journal)
    }

    /** A fresh session: empty journal, piece "OP001", the given date, no
        label, and a table holding one blank row. */
    constructor(today: string)
      ensures Valid() && chart == Plan
      ensures journal == [] && piece == FirstPiece
      ensures dateOp == today && operationLabel == ""
      ensures opTable == [BlankRow]
    {
      chart := Plan;
      journal := [];
      piece := FirstPiece;
      dateOp := today;
      operationLabel := "";
      opTable := [BlankRow];
      new;
      EmptyConsistent(chart);
    }

    /** The three header inputs: date, operation label and piece number. */
    method EditHeader(date: string, newLabel: string, newPiece: string)
      requires Valid()
      modifies this
      ensures Valid()
      ensures dateOp == date && operationLabel == newLabel && piece == newPiece
      ensures journal == old(journal) && opTable == old(opTable)
    {
      dateOp := date;
      operationLabel := newLabel;
      piece := newPiece;
    }

    /** "Valider l'opération" pressed with the editor showing `edited`: the
        useful rows are checked; when the button is enabled, one journal line
        per useful row is appended in order, the table is reset to one blank
        row and the piece number advances. The checks' errors are returned
        either way; otherwise nothing changes. */
    method RecordOperation(edited: seq<Row>) returns (errors: seq<LineError>, recorded: bool)
      requires Valid()
      modifies this
      ensures Valid()
      ensures errors == Errors(chart, UsefulRows(edited))
      ensures recorded == !CommitDisabled(UsefulRows(edited), errors, old(operationLabel))
      ensures recorded ==>
                && journal == old(journal) + Postings(chart, old(dateOp), old(operationLabel), old(piece), UsefulRows(edited))
                && opTable == [BlankRow]
                && piece == Next(old(piece))
      ensures !recorded ==> journal == old(journal) && opTable == old(opTable) && piece == old(piece)
      ensures dateOp == old(dateOp) && operationLabel == old(operationLabel)
    {
      var rows := UsefulRows(edited);
      errors := CollectErrors(chart, rows);
      recorded := !CommitDisabled(rows, errors, operationLabel);
      if recorded {
        Commit(rows);
      }
    }

    /** The commit block, run once the button is enabled for `rows`: the
        journal grows by one line per row, the table is reset and the piece
        number advances; the journal stays consistent. */
    method Commit(rows: seq<Row>)
      requires Valid()
      requires !CommitDisabled(rows, Errors(chart, rows), operationLabel)
      modifies this
      ensures Valid()
      ensures journal == old(journal) + Postings(chart, dateOp, operationLabel, old(piece), rows)
      ensures opTable == [BlankRow] && piece == Next(old(piece))
      ensures dateOp == old(dateOp) && operationLabel == old(operationLabel)
    {
      RecordKeepsConsistent(chart, journal, dateOp, operationLabel, piece, rows);
      Post(rows);
      opTable := [BlankRow];
      piece := Next(piece);
    }

    /** The loop of the commit block: appends the line of each row, in
        order, tagged with the header and the piece number. */
    method Post(rows: seq<Row>)
      modifies this
      ensures journal == old(journal) + Postings(chart, dateOp, operationLabel, piece, rows)
      ensures piece == old(piece) && dateOp == old(dateOp)
      ensures operationLabel == old(operationLabel) && opTable == old(opTable)
    {
      var i := 0;
      while i < |rows|
        invariant 0 <= i <= |rows|
        invariant journal == old(journal) + Postings(chart, dateOp, operationLabel, piece, rows[..i])
        invariant piece == old(piece) && dateOp == old(dateOp)
        invariant operationLabel == old(operationLabel) && opTable == old(opTable)
      {
        journal := journal + [Posting(chart, dateOp, operationLabel, piece, rows[i])];
        assert rows[..i + 1][..i] == rows[..i];
        i := i + 1;
      }
      assert rows[..|rows|] == rows;
    }

    /** "Effacer le journal": the journal becomes empty, nothing else
        changes. */
    method ClearJournal()
      requires Valid()
      modifies this
      ensures Valid()
      ensures journal == []
      ensures piece == old(piece) && dateOp == old(dateOp)
      ensures operationLabel == old(operationLabel) && opTable == old(opTable)
    {
      journal := [];
      EmptyConsistent(chart);
    }

    /** "Vider le tableau" pressed with the editor showing `edited`: enabled
        only when some row is useful, and then resets the table to one blank
        row; the journal, the header and the piece number never change. */
    method ClearTable(edited: seq<Row>) returns (cleared: bool)
      requires Valid()
      modifies this
      ensures Valid()
      ensures cleared <==> UsefulRows(edited) != []
      ensures opTable == if cleared then [BlankRow] else old(opTable)
      ensures journal == old(journal) && piece == old(piece)
      ensures dateOp == old(dateOp) && operationLabel == old(operationLabel)
    {
      cleared := |UsefulRows(edited)| != 0;
      if cleared {
        opTable := [BlankRow];
      }
    }
  }

  /** The table a reset leaves holds no useful row: judged as it stands,
      it would disable both buttons. */
  lemma ResetTableIsEmpty()
    ensures UsefulRows([BlankRow]) == []
    ensures CommitDisabled(UsefulRows([BlankRow]), [], "")
  {
    BlankRowsAreDropped([BlankRow]);
  }
}
