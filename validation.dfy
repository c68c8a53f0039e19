/** The checks the entry form runs on the cleaned rows before an operation
    may be recorded: per-line errors, numbered from 1, and the guard that
    enables the "Valider l'opération" button. */
module Validation {

  import opened Text
  import opened Lines

  /** What is wrong with one line. */
  datatype Problem =
    | MissingAccount             // blank account code
    | UnknownAccount(code: string) // a code outside the chart (stripped)
    | MissingLabel               // blank line label
    | NoAmount                   // neither a debit nor a credit
    | BothAmounts                // a debit and a credit on the same line

  /** An error on the line numbered `line` (1-based) of the cleaned rows. */
  datatype LineError = LineError(line: nat, problem: Problem)

  /** The text after the line number of an error's message. */
  function ProblemText(p: Problem): string {
    match p
    case MissingAccount => "compte manquant."
    case UnknownAccount(code) => "compte inconnu (" + code + ")."
    case MissingLabel => "libellé manquant."
    case NoAmount => "saisir un débit **ou** un crédit."
    case BothAmounts => "débit **et** crédit saisis (choisir un seul sens)."
  }

  /** The message the form shows for an error. */
  function Message(e: LineError): string {
    "Ligne " + Decimal(e.line) + " : " + ProblemText(e.problem)
  }

  /** Different problems read differently, and an unknown code can be read
      back from its message. */
  lemma ProblemTextInjective(p: Problem, q: Problem)
    requires ProblemText(p) == ProblemText(q)
    ensures p == q
  {
    var s, t := ProblemText(p), ProblemText(q);
    assert s[0] == t[0] && s[7] == t[7];
    if p.UnknownAccount? && q.UnknownAccount? {
      assert p.code == s[16..|s| - 2];
      assert q.code == t[16..|t| - 2];
    }
  }

  /** A shorter line number ends where a longer one still has a digit. */
  lemma NumeralEndsFirst(a: string, b: string, x: string, y: string)
    requires AllDigits(b) && |a| < |b|
    ensures "Ligne " + a + " : " + x != "Ligne " + b + " : " + y
  {
    var s, t := "Ligne " + a + " : " + x, "Ligne " + b + " : " + y;
    assert s[6 + |a|] == ' ';
    assert t[6 + |a|] == b[|a|];
  }

  /** Two errors with the same message are the same error: the message
      names the line and the problem, unknown code included. */
  lemma MessageInjective(e: LineError, f: LineError)
    requires Message(e) == Message(f)
    ensures e == f
  {
    var m := Message(e);
    var a, b := Decimal(e.line), Decimal(f.line);
    if |a| < |b| {
      NumeralEndsFirst(a, b, ProblemText(e.problem), ProblemText(f.problem));
    } else if |b| < |a| {
      NumeralEndsFirst(b, a, ProblemText(f.problem), ProblemText(e.problem));
    }
    assert a == m[6..6 + |a|] == b;
    ParseDecimal(e.line);
    ParseDecimal(f.line);
    assert ProblemText(e.problem) == m[9 + |a|..] == ProblemText(f.problem);
    ProblemTextInjective(e.problem, f.problem);
  }

  /** The account check of one row. */
  function AccountErrors(chart: map<string, string>, r: Row, line: nat): seq<LineError> {
    var code := Strip(r.account);
    if code == "" then [LineError(line, MissingAccount)]
    else if code !in chart then [LineError(line, UnknownAccount(code))]
    else []
  }

  /** The label check of one row. */
  function LabelErrors(r: Row, line: nat): seq<LineError> {
    if Strip(r.lineLabel) == "" then [LineError(line, MissingLabel)] else []
  }

  /** The two amount checks of one row. */
  function AmountErrors(r: Row, line: nat): seq<LineError> {
    (if r.debit == 0 && r.credit == 0 then [LineError(line, NoAmount)] else [])
    + (if r.debit > 0 && r.credit > 0 then [LineError(line, BothAmounts)] else [])
  }

  /** The errors of one row, numbered `line`, in the order the form checks:
      account, label, amounts. */
  function RowErrors(chart: map<string, string>, r: Row, line: nat): seq<LineError> {
    AccountErrors(chart, r, line) + LabelErrors(r, line) + AmountErrors(r, line)
  }

  /** The errors of all rows, line by line. */
  function Errors(chart: map<string, string>, rows: seq<Row>): seq<LineError> {
    if rows == [] then []
    else Errors(chart, rows[..|rows| - 1]) + RowErrors(chart, rows[|rows| - 1], |rows|)
  }

  /** A row the form accepts: a chart account, a label, and an amount on
      exactly one side. */
  predicate RowOk(chart: map<string, string>, r: Row) {
    && Strip(r.account) != ""
    && Strip(r.account) in chart
    && Strip(r.lineLabel) != ""
    && (r.debit > 0) != (r.credit > 0)
  }

  /** The checks on one row, appended to `errors` in the form's order. */
  method CheckRow(chart: map<string, string>, row: Row, line: nat, errors: seq<LineError>)
    returns (errors': seq<LineError>)
    ensures errors' == errors + RowErrors(chart, row, line)
  {
    errors' := CheckAccount(chart, row, line, errors);
    errors' := CheckLabel(row, line, errors');
    errors' := CheckAmounts(row, line, errors');
  }

  /** The account check: blank code, else a code outside the chart. */
  method CheckAccount(chart: map<string, string>, row: Row, line: nat, errors: seq<LineError>)
    returns (errors': seq<LineError>)
    ensures errors' == errors + AccountErrors(chart, row, line)
  {
    var code := Strip(row.account);
    errors' := errors;
    if code == "" {
      errors' := errors' + [LineError(line, MissingAccount)];
    } else if code !in chart {
      errors' := errors' + [LineError(line, UnknownAccount(code))];
    }
  }

  /** The label check. */
  method CheckLabel(row: Row, line: nat, errors: seq<LineError>) returns (errors': seq<LineError>)
    ensures errors' == errors + LabelErrors(row, line)
  {
    errors' := errors;
    if Strip(row.lineLabel) == "" {
      errors' := errors' + [LineError(line, MissingLabel)];
    }
  }

  /** The two amount checks. */
  method CheckAmounts(row: Row, line: nat, errors: seq<LineError>) returns (errors': seq<LineError>)
    ensures errors' == errors + AmountErrors(row, line)
  {
    var d, c := row.debit, row.credit;
    errors' := errors;
    if d == 0 && c == 0 {
      errors' := errors' + [LineError(line, NoAmount)];
    }
    if d > 0 && c > 0 {
      errors' := errors' + [LineError(line, BothAmounts)];
    }
  }

  /** The per-line check loop: collects the errors of every row, in order. */
  method CollectErrors(chart: map<string, string>, rows: seq<Row>) returns (errors: seq<LineError>)
    ensures errors == Errors(chart, rows)
  {
    errors := [];
    var i := 0;
    while i < |rows|
      invariant 0 <= i <= |rows|
      invariant errors == Errors(chart, rows[..i])
    {
      errors := CheckRow(chart, rows[i], i + 1, errors);
      assert rows[..i + 1][..i] == rows[..i];
      i := i + 1;
    }
    assert rows[..|rows|] == rows;
  }

  /** One row yields at most three errors, all on its own line. */
  lemma RowErrorsLines(chart: map<string, string>, r: Row, line: nat)
    ensures |RowErrors(chart, r, line)| <= 3
    ensures forall e :: e in RowErrors(chart, r, line) ==> e.line == line
  {
    var a, l, m := AccountErrors(chart, r, line), LabelErrors(r, line), AmountErrors(r, line);
    assert |a| <= 1 && |l| <= 1 && |m| <= 1;
    assert RowErrors(chart, r, line) == a + l + m;
  }

  /** A row yields no error exactly when it is accepted. */
  lemma RowErrorsEmptyIff(chart: map<string, string>, r: Row, line: nat)
    ensures RowErrors(chart, r, line) == [] <==> RowOk(chart, r)
  {
    var a, l, m := AccountErrors(chart, r, line), LabelErrors(r, line), AmountErrors(r, line);
    assert RowErrors(chart, r, line) == [] <==> a == [] && l == [] && m == [];
  }

  /** Which errors a row yields: "compte manquant" for a blank account,
      otherwise "compte inconnu" naming the stripped code when it is not in
      the chart; "libellé manquant" for a blank label; one error when
      neither amount is entered and another when both are, never both. */
  lemma RowErrorsSpec(chart: map<string, string>, r: Row, line: nat)
    ensures LineError(line, MissingAccount) in RowErrors(chart, r, line) <==> Strip(r.account) == ""
    ensures forall code ::
              LineError(line, UnknownAccount(code)) in RowErrors(chart, r, line) <==>
              code == Strip(r.account) && code != "" && code !in chart
    ensures LineError(line, MissingLabel) in RowErrors(chart, r, line) <==> Strip(r.lineLabel) == ""
    ensures LineError(line, NoAmount) in RowErrors(chart, r, line) <==> r.debit == 0 && r.credit == 0
    ensures LineError(line, BothAmounts) in RowErrors(chart, r, line) <==> r.debit > 0 && r.credit > 0
  {
    var a, l, m := AccountErrors(chart, r, line), LabelErrors(r, line), AmountErrors(r, line);
    assert forall e :: e in RowErrors(chart, r, line) <==> e in a || e in l || e in m;
    AccountErrorsSpec(chart, r, line);
    OtherErrorsSpec(r, line);
  }

  lemma AccountErrorsSpec(chart: map<string, string>, r: Row, line: nat)
    ensures forall e :: e in AccountErrors(chart, r, line) <==>
              || (e == LineError(line, MissingAccount) && Strip(r.account) == "")
              || (e == LineError(line, UnknownAccount(Strip(r.account))) && Strip(r.account) != "" && Strip(r.account) !in chart)
  {
  }

  lemma OtherErrorsSpec(r: Row, line: nat)
    ensures forall e :: e in LabelErrors(r, line) <==> e == LineError(line, MissingLabel) && Strip(r.lineLabel) == ""
    ensures forall e :: e in AmountErrors(r, line) <==>
              || (e == LineError(line, NoAmount) && r.debit == 0 && r.credit == 0)
              || (e == LineError(line, BothAmounts) && r.debit > 0 && r.credit > 0)
  {
  }

  /** Every row of `rows` is accepted. */
  predicate AllRowsOk(chart: map<string, string>, rows: seq<Row>) {
    forall i :: 0 <= i < |rows| ==> RowOk(chart, rows[i])
  }

  /** No error at all exactly when every row is accepted. */
  lemma {:induction false} NoErrorsIffAllRowsOk(chart: map<string, string>, rows: seq<Row>)
    ensures Errors(chart, rows) == [] <==> AllRowsOk(chart, rows)
  {
    if rows != [] {
      var init, last := rows[..|rows| - 1], rows[|rows| - 1];
      NoErrorsIffAllRowsOk(chart, init);
      RowErrorsEmptyIff(chart, last, |rows|);
      AllRowsOkSnoc(chart, rows);
      assert Errors(chart, rows) == Errors(chart, init) + RowErrors(chart, last, |rows|);
    }
  }

  lemma AllRowsOkSnoc(chart: map<string, string>, rows: seq<Row>)
    requires rows != []
    ensures AllRowsOk(chart, rows) <==> AllRowsOk(chart, rows[..|rows| - 1]) && RowOk(chart, rows[|rows| - 1])
  {
    var init := rows[..|rows| - 1];
    assert forall i :: 0 <= i < |init| ==> init[i] == rows[i];
  }

  /** Every error names a line between 1 and the number of rows, and the
      errors come in line order. */
  lemma ErrorLines(chart: map<string, string>, rows: seq<Row>)
    ensures forall k :: 0 <= k < |Errors(chart, rows)| ==> 1 <= Errors(chart, rows)[k].line <= |rows|
    ensures forall j, k :: 0 <= j < k < |Errors(chart, rows)| ==> Errors(chart, rows)[j].line <= Errors(chart, rows)[k].line
  {
    ErrorLinesInRange(chart, rows);
    ErrorLinesOrdered(chart, rows);
  }

  lemma {:induction false} ErrorLinesInRange(chart: map<string, string>, rows: seq<Row>)
    ensures forall e :: e in Errors(chart, rows) ==> 1 <= e.line <= |rows|
  {
    if rows != [] {
      ErrorLinesInRange(chart, rows[..|rows| - 1]);
      RowErrorsLines(chart, rows[|rows| - 1], |rows|);
      assert Errors(chart, rows) == Errors(chart, rows[..|rows| - 1]) + RowErrors(chart, rows[|rows| - 1], |rows|);
    }
  }

  lemma {:induction false} ErrorLinesOrdered(chart: map<string, string>, rows: seq<Row>)
    ensures forall j, k :: 0 <= j < k < |Errors(chart, rows)| ==> Errors(chart, rows)[j].line <= Errors(chart, rows)[k].line
  {
    if rows != [] {
      var init := rows[..|rows| - 1];
      ErrorLinesOrdered(chart, init);
      ErrorLinesInRange(chart, init);
      RowErrorsLines(chart, rows[|rows| - 1], |rows|);
      var before, last := Errors(chart, init), RowErrors(chart, rows[|rows| - 1], |rows|);
      assert Errors(chart, rows) == before + last;
      assert forall k :: 0 <= k < |before| ==> before[k] in before;
      assert forall k :: 0 <= k < |last| ==> last[k] in last;
    }
  }

  /** The errors that name line `n` are exactly the errors of row `n`. */
  function ErrorsOnLine(errors: seq<LineError>, n: nat): seq<LineError> {
    if errors == [] then []
    else if errors[|errors| - 1].line == n then ErrorsOnLine(errors[..|errors| - 1], n) + [errors[|errors| - 1]]
    else ErrorsOnLine(errors[..|errors| - 1], n)
  }

  lemma {:induction false} ErrorsOnLineAppend(a: seq<LineError>, b: seq<LineError>, n: nat)
    ensures ErrorsOnLine(a + b, n) == ErrorsOnLine(a, n) + ErrorsOnLine(b, n)
  {
    if b != [] {
      ErrorsOnLineAppend(a, b[..|b| - 1], n);
      assert (a + b)[..|a + b| - 1] == a + b[..|b| - 1];
    } else {
      assert a + b == a;
    }
  }

  lemma {:induction false} ErrorsOnOtherLine(errors: seq<LineError>, n: nat)
    requires forall e :: e in errors ==> e.line != n
    ensures ErrorsOnLine(errors, n) == []
  {
    if errors != [] {
      assert errors[|errors| - 1] in errors;
      ErrorsOnOtherLine(errors[..|errors| - 1], n);
    }
  }

  lemma {:induction false} ErrorsOnOwnLine(errors: seq<LineError>, n: nat)
    requires forall e :: e in errors ==> e.line == n
    ensures ErrorsOnLine(errors, n) == errors
  {
    if errors != [] {
      assert errors[|errors| - 1] in errors;
      ErrorsOnOwnLine(errors[..|errors| - 1], n);
      assert errors[..|errors| - 1] + [errors[|errors| - 1]] == errors;
    }
  }

  /** The messages about line `n` are those of row `n` and no other, so
      every row is reported under its own 1-based number. */
  lemma {:induction false} ErrorsOfLine(chart: map<string, string>, rows: seq<Row>, n: nat)
    requires 1 <= n <= |rows|
    ensures ErrorsOnLine(Errors(chart, rows), n) == RowErrors(chart, rows[n - 1], n)
  {
    var init := rows[..|rows| - 1];
    var before, last := Errors(chart, init), RowErrors(chart, rows[|rows| - 1], |rows|);
    assert Errors(chart, rows) == before + last;
    RowErrorsLines(chart, rows[|rows| - 1], |rows|);
    if n == |rows| {
      ErrorLinesInRange(chart, init);
      ErrorsAfterOtherLines(before, last, n);
    } else {
      ErrorsOfLine(chart, init, n);
      assert init[n - 1] == rows[n - 1];
      ErrorsBeforeOtherLines(before, last, n);
    }
  }

  /** Errors about other lines followed by errors about line `n`: selecting
      line `n` gives the latter. */
  lemma ErrorsAfterOtherLines(before: seq<LineError>, last: seq<LineError>, n: nat)
    requires forall e :: e in before ==> 1 <= e.line < n
    requires forall e :: e in last ==> e.line == n
    ensures ErrorsOnLine(before + last, n) == last
  {
    ErrorsOnLineAppend(before, last, n);
    ErrorsOnOtherLine(before, n);
    ErrorsOnOwnLine(last, n);
    assert [] + last == last;
  }

  /** Errors followed by errors about lines other than `n`: selecting line
      `n` gives what the former alone give. */
  lemma ErrorsBeforeOtherLines(before: seq<LineError>, last: seq<LineError>, n: nat)
    requires forall e :: e in last ==> e.line != n
    ensures ErrorsOnLine(before + last, n) == ErrorsOnLine(before, n)
  {
    ErrorsOnLineAppend(before, last, n);
    ErrorsOnOtherLine(last, n);
    assert ErrorsOnLine(before, n) + [] == ErrorsOnLine(before, n);
  }

  /** `disabled_valider`: no useful row, some error, totals apart by at
      least the tolerance, or a blank operation label. */
  predicate CommitDisabled(rows: seq<Row>, errors: seq<LineError>, operationLabel: string) {
    || |rows| == 0
    || |errors| > 0
    || Abs(TotalDebit(rows) - TotalCredit(rows)) >= Tolerance
    || Strip(operationLabel) == ""
  }

  /** The button is enabled exactly when there is at least one row, every
      row is accepted, the totals are equal and the operation has a label. */
  lemma CommitEnabledIff(chart: map<string, string>, rows: seq<Row>, operationLabel: string)
    ensures !CommitDisabled(rows, Errors(chart, rows), operationLabel) <==>
            && |rows| > 0
            && AllRowsOk(chart, rows)
            && TotalDebit(rows) == TotalCredit(rows)
            && Strip(operationLabel) != ""
  {
    NoErrorsIffAllRowsOk(chart, rows);
  }

  /** Accepted rows carry at least one cent each, debit and credit
      together. */
  lemma {:induction false} AcceptedRowsCarryAmounts(chart: map<string, string>, rows: seq<Row>)
    requires AllRowsOk(chart, rows)
    ensures TotalDebit(rows) + TotalCredit(rows) >= |rows|
  {
    if rows != [] {
      var init := rows[..|rows| - 1];
      assert forall i :: 0 <= i < |init| ==> init[i] == rows[i];
      AcceptedRowsCarryAmounts(chart, init);
      assert RowOk(chart, rows[|rows| - 1]);
    }
  }

  /** An operation the button lets through has at least two lines and moves
      a positive amount: one accepted line alone is never balanced. */
  lemma CommittableOperationHasTwoLines(chart: map<string, string>, rows: seq<Row>, operationLabel: string)
    requires !CommitDisabled(rows, Errors(chart, rows), operationLabel)
    ensures |rows| >= 2
    ensures TotalDebit(rows) == TotalCredit(rows) > 0
  {
    CommitEnabledIff(chart, rows, operationLabel);
    AcceptedRowsCarryAmounts(chart, rows);
  }
}
