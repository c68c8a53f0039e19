# Journal entry form: a Dafny model

`bodega_compta_complete.py` is a Streamlit page where a student records
bookkeeping operations. An operation is entered as a table of rows: account
code, line label, debit and credit. The page first drops the blank rows, then
checks each remaining row against the chart of accounts and compares the
debit and credit totals. The "Valider l'opération" button is enabled only when
everything is in order. Pressing it appends one journal line per row, tagged
with the operation's date, label and piece (voucher) number, resets the table
and advances the piece number with `piece_suivante`. Two more buttons clear
the journal and clear the table.

This project models that logic and proves what it guarantees.

| file | module | models |
|---|---|---|
| `text.dfy` | `Text` | Python's `str.strip()` with the full `str.isspace()` set; ASCII digit and letter classes; `int(digits)`; the zero-padded `{n:0Wd}` format |
| `chart.dfy` | `Chart` | `PLAN_COMPTABLE`: the same 70 codes and titles, grouped by account class |
| `piece.dfy` | `Piece` | `piece_suivante` and repeated application of it |
| `lines.dfy` | `Lines` | entry-table rows, `lignes_valides`, column totals, the 0.01 balance test |
| `validation.dfy` | `Validation` | the per-line check loop, its messages, the `disabled_valider` guard |
| `journal.dfy` | `Journal` | journal lines, the lines recorded for an operation, the journal's consistency invariant |
| `session.dfy` | `Session` | the session state (journal, piece, header, entry table) as a class whose methods are the buttons and the header inputs |

Amounts are whole cents (`nat`). On whole cents the source's test
`abs(total_d - total_c) < 0.01` is exact equality of the totals
(`Lines.BalancedIffEqualTotals`); on the page's floats it is not (see
"## Left out"). Validation and recording take the chart as
a parameter. The session fixes it to `Chart.Plan`.

The session's invariant `Session.Session.Valid()` is `Journal.Consistent`.
It says three things hold whatever sequence of header edits, recordings and
clears has run since the constructor:

- every journal line has a stripped account code in the chart, a line label and an operation label;
- every line has an amount on exactly one side;
- total debit equals total credit, over the whole journal and within each piece number.

Every state-changing method requires and ensures it, except
`Session.Session.Post`, the append loop that only `Commit` calls: `Commit`
establishes the invariant for the journal `Post` produces.

Validation errors are values `LineError(line, problem)`. `Validation.Message`
turns one into the French text the page shows ("Ligne 2 : compte manquant.");
`Validation.MessageInjective` shows the text loses nothing.

## Model

| member | source | states |
|---|---|---|
| Text.StripEmptyIffBlank | bodega_compta_complete.py:112-113 | `s.strip()` is empty exactly when every character of `s` is whitespace |
| Text.StripEnds | bodega_compta_complete.py:134-135 | `s.strip()` is a slice `s[i..j]` with only whitespace before `i` and after `j`, neither end of it is whitespace, and stripping twice changes nothing |
| Text.ParseDecimal | bodega_compta_complete.py:57-58 | reading back the decimal numeral of `n` gives `n` |
| Text.PaddedSpec | bodega_compta_complete.py:58 | `{n:0Wd}` is all digits, exactly `max(W, len(str(n)))` long, and reads back as `n` |
| Piece.Digits | bodega_compta_complete.py:54 | the result is all digits and no longer than `p` (which characters it keeps is stated by the next two rows) |
| Piece.DigitsSingle | bodega_compta_complete.py:54 | one character is kept exactly when it is a digit |
| Piece.DigitsAppend | bodega_compta_complete.py:54 | the digits of `a + b` are those of `a` followed by those of `b`; with the row above, exactly the digits of `p`, in order |
| Piece.Letters | bodega_compta_complete.py:55 | the result is all letters and no longer than `p` (which characters it keeps is stated by the next two rows) |
| Piece.LettersSingle | bodega_compta_complete.py:55 | one character is kept exactly when it is a letter |
| Piece.LettersAppend | bodega_compta_complete.py:55 | the letters of `a + b` are those of `a` followed by those of `b`; with the row above, exactly the letters of `p`, in order |
| Piece.NextSpec | bodega_compta_complete.py:53-60 | the next number is a prefix followed only by digits. The prefix is the letters of `p`, or "OP" when it has none. The digits spell one more than `p`'s digits did (no digits count as 0) and take exactly 6 places after letters and 3 after "OP", or the numeral's own length when it is longer |
| Piece.NextParts | bodega_compta_complete.py:54-58 | the next number is exactly prefix + the successor zero-padded to the width the letters choose |
| Piece.NextCounts | bodega_compta_complete.py:54-57 | the digits of the next number spell one more than those of `p` |
| Piece.NextKeepsPrefix | bodega_compta_complete.py:55-58 | letters are kept; a number without letters gets "OP"; the prefix is stable from then on |
| Piece.NextIgnoresOthers | bodega_compta_complete.py:54-55 | a character that is neither a digit nor a letter makes no difference to the result |
| Piece.ExampleEmpty | bodega_compta_complete.py:57-58 | "" is followed by "OP001" |
| Piece.ExampleWithLetters | bodega_compta_complete.py:53-58 | the initial "OP001" is followed by "OP000002" (letters switch to six places) |
| Piece.ExampleDigitsOnly | bodega_compta_complete.py:58 | "123" is followed by "OP124" |
| Piece.ExampleOtherCharacters | bodega_compta_complete.py:54-58 | "A-7" is followed by "A000008" |
| Piece.IterateCounts | bodega_compta_complete.py:163 | a step that adds one to the count, taken `k` times, adds `k` |
| Piece.AfterCounts | bodega_compta_complete.py:163 | after `k` recorded operations the piece digits spell `k` more |
| Piece.AfterDistinct | bodega_compta_complete.py:163 | consecutive operations with no edit of the number in between never share a piece number |
| Lines.UsefulRowsSpec | bodega_compta_complete.py:110-115 | a row is kept iff its stripped account or label is non-empty or an amount is positive. The kept rows form an order-preserving subsequence of the input, no longer than it |
| Lines.UsefulRowsAppend | bodega_compta_complete.py:110-115 | cleaning works position by position: the cleaned concatenation is the concatenation of the cleaned parts, so repeated useful rows are all kept |
| Lines.UsefulRowsSingle | bodega_compta_complete.py:112-115 | a one-row table keeps its row exactly when it is useful |
| Lines.UsefulRowsIdempotent | bodega_compta_complete.py:110-115 | cleaning a cleaned table changes nothing |
| Lines.BlankRowsAreDropped | bodega_compta_complete.py:110-115 | a table of blank rows, such as the reset table, cleans to no rows |
| Lines.BalancedIffEqualTotals | bodega_compta_complete.py:120-126 | on cents, the 0.01 tolerance test holds exactly when total debit equals total credit |
| Validation.ProblemTextInjective | bodega_compta_complete.py:138-142 | the five message texts differ, and an unknown code is read back from its text |
| Validation.MessageInjective | bodega_compta_complete.py:138-142 | two errors with the same message are the same error: the message gives back the line number and the problem |
| Validation.CheckAccount | bodega_compta_complete.py:134-139 | appends "compte manquant" for a blank stripped code, else "compte inconnu" naming the code when it is not in the chart, else nothing |
| Validation.CheckLabel | bodega_compta_complete.py:135-140 | appends "libellé manquant" exactly when the stripped label is blank |
| Validation.CheckAmounts | bodega_compta_complete.py:136-142 | appends the "no amount" error when both amounts are zero and the "both amounts" error when both are positive |
| Validation.CheckRow | bodega_compta_complete.py:133-142 | the checks of one row append its errors in the order account, label, amounts |
| Validation.CollectErrors | bodega_compta_complete.py:132-142 | the loop collects exactly the errors of every row, row after row, numbered from 1 |
| Validation.RowErrorsLines | bodega_compta_complete.py:138-142 | one row yields at most three errors, all numbered with its own line |
| Validation.RowErrorsEmptyIff | bodega_compta_complete.py:138-142 | a row yields no error exactly when its code is in the chart, it has a label and it has an amount on exactly one side |
| Validation.RowErrorsSpec | bodega_compta_complete.py:138-142 | each of the five errors is reported exactly under its own condition; "compte inconnu" names the stripped code |
| Validation.NoErrorsIffAllRowsOk | bodega_compta_complete.py:132-142 | there are no errors at all exactly when every row is accepted |
| Validation.ErrorLines | bodega_compta_complete.py:133-142 | every error names a line between 1 and the number of rows, and the errors come in line order |
| Validation.ErrorsOfLine | bodega_compta_complete.py:133-142 | the errors that name line `n` are exactly the errors of row `n` |
| Validation.AcceptedRowsCarryAmounts | bodega_compta_complete.py:141-142 | accepted rows carry at least one cent each |
| Validation.CommitEnabledIff | bodega_compta_complete.py:147 | the button is enabled iff there is at least one row, every row is accepted, the totals are equal and the stripped operation label is non-empty |
| Validation.CommittableOperationHasTwoLines | bodega_compta_complete.py:147 | an operation the button lets through has at least two lines and moves a positive amount |
| Journal.Postings | bodega_compta_complete.py:150-160 | an operation yields exactly one journal line per row |
| Journal.PostingsSpec | bodega_compta_complete.py:150-160 | line `i` carries the date, operation label and piece. It also carries row `i`'s raw account code, its chart title (or "" when the raw code is not in the chart), its label and its amounts |
| Journal.PostingsAt | bodega_compta_complete.py:150-160 | line `i` of an operation is the line recorded for row `i` |
| Journal.PostingsTotals | bodega_compta_complete.py:150-160 | the recorded lines carry the operation's debit and credit totals unchanged |
| Journal.OfPiecePostings | bodega_compta_complete.py:154 | all lines of an operation carry its piece number: selecting that piece gives them all, any other gives none |
| Journal.EmptyConsistent | bodega_compta_complete.py:68-69 | the empty journal is consistent |
| Journal.AcceptedRowsPostWell | bodega_compta_complete.py:147-160 | the lines recorded for accepted rows under a labelled operation are well formed |
| Journal.RecordKeepsConsistent | bodega_compta_complete.py:147-160 | appending an operation the button lets through keeps the journal consistent, whatever its piece number |
| Session.Session.constructor | bodega_compta_complete.py:40-46 | a fresh session has an empty journal, piece "OP001", the given date, no label, a table of one blank row and the chart `Plan` |
| Session.Session.EditHeader | bodega_compta_complete.py:74-79 | the header inputs set the date, label and piece number and leave the journal and table alone |
| Session.Session.RecordOperation | bodega_compta_complete.py:117-163 | returns the errors of the cleaned rows and whether the button was enabled. When it was, the journal grows by the operation's lines after its unchanged earlier lines, the table is reset and the piece number advances; otherwise nothing changes. Consistency is kept |
| Session.Session.Commit | bodega_compta_complete.py:150-163 | the commit block appends the lines, resets the table to one blank row and sets the piece to `piece_suivante` of the old one, keeping consistency |
| Session.Session.Post | bodega_compta_complete.py:150-160 | the append loop adds exactly the operation's lines, in row order, and nothing else changes |
| Session.Session.ClearJournal | bodega_compta_complete.py:68-69 | "Effacer le journal" empties the journal and changes nothing else |
| Session.Session.ClearTable | bodega_compta_complete.py:167-168 | "Vider le tableau" acts exactly when some row is useful, then resets only the table |
| Session.ResetTableIsEmpty | bodega_compta_complete.py:162-168 | worked example: the one-blank-row table a reset stores cleans to no rows (the `BlankRowsAreDropped` case of one row), and the guard refuses it for having no rows |

## Left out

- Widgets, layout, metrics, toasts, `st.rerun` and Streamlit's re-execution of the whole page on every interaction are not modelled. Each button is a method of the session class. What the data editor shows (`edited`) is a parameter of the methods that read it.
- Student name (`eleve`) is not modelled: nothing in the modelled logic reads it except the export.
- `COMPTES`, the option list of the account selector, is not modelled: it only limits what the widget offers.
- `euro()` and the table's number formatting are left out: float-to-text formatting.
- The Excel export is left out: file I/O and the wall clock.
- Date picking and `strftime` are not modelled. The date is an already formatted string that the session stores and copies onto each line.
- pandas `fillna`, `astype` and `reset_index` are not modelled. Rows are already filled records with text fields and cent amounts.
- Floating-point amounts are modelled as whole cents. Non-negativity, which the widget enforces with `min_value=0.0`, comes from the `nat` type.
- Lines.Balanced and Journal.RecordKeepsConsistent: the page compares float totals, and its test accepts some one-cent differences. A debit of 0.03 against a credit of 0.02 gives a double difference just under the double nearest 0.01, and 0.11 against 0.10 behaves the same way. The page can therefore record an operation that is one cent off, and its journal can drift by a cent on each such operation. On cents the model refuses such operations, so the balance it proves for the journal (`Valid()`) holds of the model, not of the page.
- Piece.Next: letters and digits are classified in ASCII only. Python keeps non-ASCII letters and Unicode decimal digits, so for "É1" the page gives "É000002" where the model gives "OP002".
- Piece.Next: the `except` branch that returns `p` unchanged is not modelled. It is reached for characters `isdigit` accepts but `int` rejects (such as '²'). Under CPython 3.11 and later it is also reached when `int()` or the format at line 58 would handle more than 4300 digits, for instance a run of 4300 nines, whose successor has 4301. The model keeps counting in every case.
- Piece.AfterCounts: only repeated recording with no edit of the number in between is covered. A number edited through the header restarts the count from the edited value.
- Session.Session.ClearTable and Session.Session.Commit: the reset of `op_table` is modelled as the assignment only. What the data editor shows next (`edited`) stays a free parameter, so the model does not say that a reset empties the editor. Streamlit may keep the editor's own edits across a reset that stores identical data.
- The journal table's total metrics (line 192) are not modelled as such. Their equality is the `Debits == Credits` part of the session invariant.
- Trial balance, ledger, income statement, balance sheet and undo have no code in this file and are not part of this model.
