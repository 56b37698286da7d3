/**
 * The journal (GeneralLedger, script.js:410-667): line items built from the
 * entry form's (debit, credit) rows, posting a new entry, editing and
 * deleting a stored entry, and the running balance of the ledger view.
 */
module Journal {
  import opened Wrappers
  import opened Collections
  import opened Domain
  import opened BalanceEngine

  /** One row of the entry form, its amounts already read as `parseFloat(...) || 0`. */
  datatype InputRow = InputRow(accountId: int, description: string, debit: real, credit: real)

  /** The `code - name` snapshot of the selected account, or empty when no account has that id. */
  function AccountLabel(accounts: seq<Account>, id: int): (r: string)
    ensures r == "" <==> FindAccount(accounts, id).None?
    ensures FindAccount(accounts, id).Some? ==>
      r == FindAccount(accounts, id).value.code + " - " + FindAccount(accounts, id).value.name
  {
    match FindAccount(accounts, id)
    case None => ""
    case Some(a) => a.code + " - " + a.name
  }

  /** The type snapshot of the selected account, or empty when no account has that id. */
  function AccountTypeLabel(accounts: seq<Account>, id: int): (r: string)
    ensures FindAccount(accounts, id).None? ==> r == ""
    ensures FindAccount(accounts, id).Some? ==> r == FindAccount(accounts, id).value.accountType
  {
    match FindAccount(accounts, id)
    case None => ""
    case Some(a) => a.accountType
  }

  /** The line item a row describes: the debit side wins whenever the debit input is positive. */
  function LineFromRow(accounts: seq<Account>, row: InputRow): (r: LineItem)
    ensures r.accountId == row.accountId && r.description == row.description
    ensures r.side == Debit <==> row.debit > 0.0
    ensures r.amount > 0.0 <==> row.debit > 0.0 || row.credit > 0.0
  {
    LineItem(
      row.accountId, AccountLabel(accounts, row.accountId), AccountTypeLabel(accounts, row.accountId),
      row.description,
      if row.debit > 0.0 then Debit else Credit,
      if row.debit > 0.0 then row.debit else row.credit)
  }

  function RowLine(accounts: seq<Account>): InputRow -> LineItem
  {
    (row: InputRow) => LineFromRow(accounts, row)
  }

  function HasAmount(): LineItem -> bool
  {
    (l: LineItem) => l.amount > 0.0
  }

  /** A row that yields a stored line: some input is positive. */
  predicate Kept(row: InputRow)
  {
    row.debit > 0.0 || row.credit > 0.0
  }

  function KeptRow(): InputRow -> bool
  {
    (row: InputRow) => Kept(row)
  }

  /**
   * The line items addTransaction stores: every row mapped to a line item,
   * and the lines without a positive amount dropped. A row contributes a
   * line exactly when one of its inputs is positive.
   */
  function BuildLineItems(accounts: seq<Account>, rows: seq<InputRow>): (r: seq<LineItem>)
    ensures forall l :: l in r ==> l.amount > 0.0
    ensures forall l :: l in r ==> exists row :: row in rows && Kept(row) && l == LineFromRow(accounts, row)
    ensures forall row :: row in rows && Kept(row) ==> LineFromRow(accounts, row) in r
  {
    var lines := Map(rows, RowLine(accounts));
    FilterMembers(lines, HasAmount());
    forall l | l in Filter(lines, HasAmount())
      ensures exists row :: row in rows && Kept(row) && l == LineFromRow(accounts, row)
    {
      var k :| 0 <= k < |lines| && lines[k] == l;
      assert rows[k] in rows;
    }
    forall row | row in rows && Kept(row) ensures LineFromRow(accounts, row) in lines {
      var k :| 0 <= k < |rows| && rows[k] == row;
      assert lines[k] == LineFromRow(accounts, row);
    }
    Filter(lines, HasAmount())
  }

  /** Dropping lines after mapping is mapping only the rows that have a positive input. */
  lemma {:induction false} BuildKeepsRowOrder(accounts: seq<Account>, rows: seq<InputRow>)
    ensures BuildLineItems(accounts, rows) == Map(Filter(rows, KeptRow()), RowLine(accounts))
    decreases |rows|
  {
    if |rows| > 0 {
      var init := rows[..|rows| - 1];
      var row := rows[|rows| - 1];
      BuildKeepsRowOrder(accounts, init);
      assert Map(rows, RowLine(accounts))[..|rows| - 1] == Map(init, RowLine(accounts));
      var kept := Filter(init, KeptRow());
      if Kept(row) {
        assert Map(kept + [row], RowLine(accounts))[..|kept|] == Map(kept, RowLine(accounts));
      }
    }
  }

  /**
   * The loop of saveTransactionEdit: walk the edited rows and push a line
   * for every row with a positive debit or credit. It stores the same
   * lines as the add form would.
   */
  method CollectEditedLines(accounts: seq<Account>, rows: seq<InputRow>) returns (lineItems: seq<LineItem>)
    ensures lineItems == BuildLineItems(accounts, rows)
  {
    lineItems := [];
    var i := 0;
    while i < |rows|
      invariant 0 <= i <= |rows|
      invariant lineItems == Map(Filter(rows[..i], KeptRow()), RowLine(accounts))
    {
      var row := rows[i];
      KeptStep(accounts, rows, i);
      if row.debit > 0.0 || row.credit > 0.0 {
        lineItems := lineItems + [LineFromRow(accounts, row)];
      }
      i := i + 1;
    }
    assert rows[..i] == rows;
    BuildKeepsRowOrder(accounts, rows);
  }

  /** One more row adds its line to the kept rows' lines exactly when it is kept. */
  lemma KeptStep(accounts: seq<Account>, rows: seq<InputRow>, i: nat)
    requires i < |rows|
    ensures Map(Filter(rows[..i + 1], KeptRow()), RowLine(accounts))
         == Map(Filter(rows[..i], KeptRow()), RowLine(accounts)) + (if Kept(rows[i]) then [LineFromRow(accounts, rows[i])] else [])
  {
    FilterStep(rows, i, KeptRow());
    if Kept(rows[i]) {
      MapSnoc(Filter(rows[..i], KeptRow()), rows[i], RowLine(accounts));
    }
  }

  function DebitInput(): InputRow -> real
  {
    (row: InputRow) => row.debit
  }

  function CreditInput(): InputRow -> real
  {
    (row: InputRow) => row.credit
  }

  /** calculateTotal('debit'): the sum of every row's debit input, before any row is dropped. */
  function RawDebitTotal(rows: seq<InputRow>): real
  {
    SumOf(rows, DebitInput())
  }

  /** calculateTotal('credit'). */
  function RawCreditTotal(rows: seq<InputRow>): real
  {
    SumOf(rows, CreditInput())
  }

  /** A row the entry form can produce: no negative input, and at most one side filled in. */
  predicate WellFormed(row: InputRow)
  {
    row.debit >= 0.0 && row.credit >= 0.0 && (row.debit == 0.0 || row.credit == 0.0)
  }

  /** On well-formed rows the built lines total exactly the raw inputs, side by side. */
  lemma BuiltTotalsMatchInputs(accounts: seq<Account>, rows: seq<InputRow>)
    requires forall row :: row in rows ==> WellFormed(row)
    ensures DebitTotal(BuildLineItems(accounts, rows)) == RawDebitTotal(rows)
    ensures CreditTotal(BuildLineItems(accounts, rows)) == RawCreditTotal(rows)
  {
    BuiltSideTotal(accounts, rows, DebitOf(), DebitInput());
    BuiltSideTotal(accounts, rows, CreditOf(), CreditInput());
  }

  /**
   * One side of BuiltTotalsMatchInputs: `cell` picks the amount a line
   * shows on that side and `input` the row's input for it; a dropped row
   * shows nothing on either side.
   */
  lemma BuiltSideTotal(accounts: seq<Account>, rows: seq<InputRow>, cell: LineItem -> real, input: InputRow -> real)
    requires forall row :: row in rows ==> cell(LineFromRow(accounts, row)) == input(row)
    requires forall row :: row in rows && !Kept(row) ==> cell(LineFromRow(accounts, row)) == 0.0
    ensures SumOf(BuildLineItems(accounts, rows), cell) == SumOf(rows, input)
  {
    var lines := Map(rows, RowLine(accounts));
    var rowCell: InputRow -> real := (row: InputRow) => cell(LineFromRow(accounts, row));
    forall l | l in lines ensures cell(l) == if HasAmount()(l) then cell(l) else 0.0 {
      var k :| 0 <= k < |lines| && lines[k] == l;
      assert rows[k] in rows;
    }
    SumOfFilter(lines, HasAmount(), cell, cell);
    SumOfMap(rows, RowLine(accounts), cell, rowCell);
    SumOfCongruent(rows, rowCell, input);
  }

  /** When the form's rows are well formed, passing the raw-input check means the stored entry balances. */
  lemma RawCheckBalancesWellFormed(accounts: seq<Account>, rows: seq<InputRow>, id: int, date: Date, description: string)
    requires forall row :: row in rows ==> WellFormed(row)
    requires RawDebitTotal(rows) == RawCreditTotal(rows)
    ensures Balanced(Entry(id, date, description, BuildLineItems(accounts, rows)))
  {
    BuiltTotalsMatchInputs(accounts, rows);
  }

  /**
   * The raw-input check alone does not make an entry balance: a row holding
   * the same positive amount on both sides passes it, and the stored entry
   * keeps only the debit.
   */
  lemma RawCheckAdmitsUnbalanced(accounts: seq<Account>, row: InputRow, id: int, date: Date, description: string)
    requires row.debit > 0.0 && row.credit == row.debit
    ensures RawDebitTotal([row]) == RawCreditTotal([row])
    ensures !Balanced(Entry(id, date, description, BuildLineItems(accounts, [row])))
  {
    var line := LineFromRow(accounts, row);
    assert Map([row], RowLine(accounts)) == [line];
    assert BuildLineItems(accounts, [row]) == [line];
    SumOfSingle(row, DebitInput());
    SumOfSingle(row, CreditInput());
    SumOfSingle(line, DebitOf());
    SumOfSingle(line, CreditOf());
  }

  function HasEntryId(id: int): Entry -> bool
  {
    (e: Entry) => e.id == id
  }

  function NotEntryId(id: int): Entry -> bool
  {
    (e: Entry) => e.id != id
  }

  /**
   * `transactions[findIndex(t => t.id === updated.id)] = updated`: the
   * first entry with that id is replaced; when none has it, the list of
   * entries is unchanged (the assignment lands on index -1, which is no
   * element).
   */
  function Replaced(transactions: seq<Entry>, updated: Entry): (r: seq<Entry>)
    ensures |r| == |transactions|
    ensures forall i :: 0 <= i < |r| ==> r[i].id == transactions[i].id
    ensures forall i :: 0 <= i < |r| ==> r[i] == transactions[i] || r[i] == updated
    ensures (exists i :: 0 <= i < |transactions| && transactions[i].id == updated.id) <==> updated in r
    ensures (forall e :: e in transactions ==> e.id != updated.id) ==> r == transactions
    ensures forall i :: 0 <= i < |r| && r[i] != transactions[i] ==> FirstIndex(transactions, HasEntryId(updated.id)) == Some(i)
  {
    match FirstIndex(transactions, HasEntryId(updated.id))
    case None => transactions
    case Some(k) =>
      assert transactions[k := updated][k] == updated;
      transactions[k := updated]
  }

  /** Replacing an entry by a balanced one keeps every entry balanced. */
  lemma ReplacedKeepsBalanced(transactions: seq<Entry>, updated: Entry)
    requires forall e :: e in transactions ==> Balanced(e)
    requires Balanced(updated)
    ensures forall e :: e in Replaced(transactions, updated) ==> Balanced(e)
  {
    var r := Replaced(transactions, updated);
    forall e | e in r ensures Balanced(e) {
      var i :| 0 <= i < |r| && r[i] == e;
      assert r[i] == transactions[i] || r[i] == updated;
    }
  }

  /** Every line of every entry has a positive amount. */
  predicate PositiveLines(transactions: seq<Entry>)
  {
    forall e, l :: e in transactions && l in e.lineItems ==> l.amount > 0.0
  }

  /** Posting or saving built lines keeps every stored amount positive. */
  lemma {:induction false} BuiltLinesKeepPositive(transactions: seq<Entry>, accounts: seq<Account>, rows: seq<InputRow>, id: int, date: Date, description: string)
    requires PositiveLines(transactions)
    ensures PositiveLines(transactions + [Entry(id, date, description, BuildLineItems(accounts, rows))])
    ensures PositiveLines(Replaced(transactions, Entry(id, date, description, BuildLineItems(accounts, rows))))
  {
    var updated := Entry(id, date, description, BuildLineItems(accounts, rows));
    var r := Replaced(transactions, updated);
    forall e, l | e in r && l in e.lineItems ensures l.amount > 0.0 {
      var i :| 0 <= i < |r| && r[i] == e;
      assert r[i] == transactions[i] || r[i] == updated;
    }
  }

  /** Every line of the built entry posts to an account of the chart when every kept row names one. */
  lemma BuiltLinesRegistered(transactions: seq<Entry>, accounts: seq<Account>, rows: seq<InputRow>, id: int, date: Date, description: string)
    requires ConsistentBooks(accounts, transactions)
    requires forall row :: row in rows ==> WellFormed(row) && FindAccount(accounts, row.accountId).Some?
    requires RawDebitTotal(rows) == RawCreditTotal(rows)
    ensures ConsistentBooks(accounts, transactions + [Entry(id, date, description, BuildLineItems(accounts, rows))])
  {
    var e := Entry(id, date, description, BuildLineItems(accounts, rows));
    RawCheckBalancesWellFormed(accounts, rows, id, date, description);
    forall x, l | x in transactions + [e] && l in x.lineItems ensures FindAccount(accounts, l.accountId).Some? {
      if x == e {
        var row :| row in rows && Kept(row) && l == LineFromRow(accounts, row);
      } else {
        assert x in transactions;
      }
    }
  }

  /** Each row shows debits minus credits of every line up to and including its own. */
  predicate RunningRows(rows: seq<real>, lines: seq<LineItem>)
  {
    |rows| == |lines| && forall k :: 0 <= k < |rows| ==> rows[k] == SignedTotal(lines[..k + 1])
  }

  /** Showing one more line keeps the rows running. */
  lemma RunningStep(rows: seq<real>, lines: seq<LineItem>, running: real, x: LineItem)
    requires RunningRows(rows, lines) && running == SignedTotal(lines)
    ensures RunningRows(rows + [running + Signed(x)], lines + [x])
    ensures running + Signed(x) == SignedTotal(lines + [x])
  {
    var lines' := lines + [x];
    var rows' := rows + [running + Signed(x)];
    assert lines'[..|lines|] == lines;
    forall k | 0 <= k < |rows'| ensures rows'[k] == SignedTotal(lines'[..k + 1]) {
      if k < |lines| {
        assert lines'[..k + 1] == lines[..k + 1];
      } else {
        assert lines'[..k + 1] == lines';
      }
    }
  }

  /** The row of each line of one entry, carrying the running balance of all lines shown before it. */
  method EntryRows(e: Entry, rowsBefore: seq<real>, before: real, ghost shown: seq<LineItem>)
    returns (rows: seq<real>, running: real)
    requires RunningRows(rowsBefore, shown) && before == SignedTotal(shown)
    ensures RunningRows(rows, shown + e.lineItems) && running == SignedTotal(shown + e.lineItems)
  {
    rows, running := rowsBefore, before;
    ghost var lines := shown;
    var j := 0;
    while j < |e.lineItems|
      invariant 0 <= j <= |e.lineItems|
      invariant lines == shown + e.lineItems[..j]
      invariant RunningRows(rows, lines) && running == SignedTotal(lines)
    {
      var item := e.lineItems[j];
      RunningStep(rows, lines, running, item);
      if item.side == Debit {
        running := running + item.amount;
      } else {
        running := running - item.amount;
      }
      rows := rows + [running];
      lines := lines + [item];
      assert e.lineItems[..j + 1] == e.lineItems[..j] + [item];
      j := j + 1;
    }
    assert e.lineItems[..j] == e.lineItems;
  }

  /** The lines of all entries net to the sum of the entries' own nets. */
  lemma {:induction false} AllLinesNet(transactions: seq<Entry>)
    ensures SignedTotal(AllLines(transactions)) == SumOf(transactions, EntrySigned())
    decreases |transactions|
  {
    if |transactions| > 0 {
      var init := transactions[..|transactions| - 1];
      AllLinesNet(init);
      SumOfAppend(AllLines(init), transactions[|transactions| - 1].lineItems, SignedOf());
    }
  }

  /** The lines of the first `k` entries are the first lines of all of them. */
  lemma {:induction false} AllLinesPrefix(transactions: seq<Entry>, k: nat)
    requires k <= |transactions|
    ensures |AllLines(transactions[..k])| <= |AllLines(transactions)|
    ensures AllLines(transactions)[..|AllLines(transactions[..k])|] == AllLines(transactions[..k])
    decreases |transactions|
  {
    if k < |transactions| {
      var init := transactions[..|transactions| - 1];
      AllLinesPrefix(init, k);
      assert init[..k] == transactions[..k];
    } else {
      assert transactions[..k] == transactions;
    }
  }

  /**
   * When every entry balances, the ledger's running balance is back at zero
   * on the last line of every entry (that entry's running total recorded
   * and nothing left over).
   */
  lemma BalancedLedgerReturnsToZero(rows: seq<real>, transactions: seq<Entry>, k: nat)
    requires RunningRows(rows, AllLines(transactions))
    requires forall e :: e in transactions ==> Balanced(e)
    requires 0 < k <= |transactions| && |AllLines(transactions[..k])| > 0
    ensures |AllLines(transactions[..k])| <= |rows|
    ensures rows[|AllLines(transactions[..k])| - 1] == 0.0
  {
    var prefix := transactions[..k];
    AllLinesPrefix(transactions, k);
    AllLinesNet(prefix);
    forall e | e in prefix ensures EntrySigned()(e) == 0.0 {
      BalancedNetsToZero(e);
    }
    SumOfZero(prefix, EntrySigned());
    assert AllLines(transactions)[..|AllLines(prefix)|] == AllLines(prefix);
  }

  /** The running-balance rows of a journal, entry after entry and line after line. */
  method LedgerRows(transactions: seq<Entry>) returns (rows: seq<real>)
    ensures RunningRows(rows, AllLines(transactions))
  {
    rows := [];
    var runningBalance := 0.0;
    var i := 0;
    while i < |transactions|
      invariant 0 <= i <= |transactions|
      invariant RunningRows(rows, AllLines(transactions[..i]))
      invariant runningBalance == SignedTotal(AllLines(transactions[..i]))
    {
      assert transactions[..i + 1][..i] == transactions[..i];
      rows, runningBalance := EntryRows(transactions[i], rows, runningBalance, AllLines(transactions[..i]));
      i := i + 1;
    }
    assert transactions[..i] == transactions;
  }

  /** The journal of entries the entry form and the ledger view work on. */
  class GeneralLedger {
    var transactions: seq<Entry>

    /** Loaded from the stored journal. */
    constructor(stored: seq<Entry>)
      ensures transactions == stored
    {
      transactions := stored;
    }

    /**
     * addTransaction: rejected, with the journal unchanged, unless the raw
     * debit inputs total the raw credit inputs; otherwise the entry with
     * the built line items is appended.
     */
    method AddTransaction(accounts: seq<Account>, rows: seq<InputRow>, date: Date, description: string, id: int)
      returns (posted: bool)
      modifies this
      ensures posted <==> RawDebitTotal(rows) == RawCreditTotal(rows)
      ensures posted ==> transactions == old(transactions) + [Entry(id, date, description, BuildLineItems(accounts, rows))]
      ensures !posted ==> transactions == old(transactions)
    {
      var debitTotal := RawDebitTotal(rows);
      var creditTotal := RawCreditTotal(rows);
      if debitTotal != creditTotal {
        return false;
      }
      var lineItems := BuildLineItems(accounts, rows);
      transactions := transactions + [Entry(id, date, description, lineItems)];
      posted := true;
    }

    /**
     * saveTransactionEdit: the edited lines are checked on their own
     * totals; if they balance, the entry with the original's id takes the
     * new date, description and lines at its index, otherwise nothing
     * changes.
     */
    method SaveTransactionEdit(accounts: seq<Account>, original: Entry, date: Date, description: string, rows: seq<InputRow>)
      returns (saved: bool)
      modifies this
      ensures saved <==> Balanced(Entry(original.id, date, description, BuildLineItems(accounts, rows)))
      ensures saved ==> transactions == Replaced(old(transactions), Entry(original.id, date, description, BuildLineItems(accounts, rows)))
      ensures !saved ==> transactions == old(transactions)
    {
      var lineItems := CollectEditedLines(accounts, rows);
      var totalDebits := DebitTotal(lineItems);
      var totalCredits := CreditTotal(lineItems);
      if totalDebits != totalCredits {
        return false;
      }
      var updated := Entry(original.id, date, description, lineItems);
      var index := FirstIndex(transactions, HasEntryId(original.id));
      if index.Some? {
        transactions := transactions[index.value := updated];
      }
      saved := true;
    }

    /** deleteTransaction: once confirmed, every entry with that id is dropped and the rest keep their order. */
    method DeleteTransaction(id: int, confirmed: bool)
      modifies this
      ensures confirmed ==> transactions == Filter(old(transactions), NotEntryId(id))
      ensures confirmed ==> forall e :: e in transactions <==> e in old(transactions) && e.id != id
      ensures !confirmed ==> transactions == old(transactions)
    {
      if confirmed {
        FilterMembers(transactions, NotEntryId(id));
        transactions := Filter(transactions, NotEntryId(id));
      }
    }

    /**
     * The figures of renderLedger: the journal is sorted by date in place,
     * then every line of every entry shows one running balance over all
     * accounts, a debit adding its amount and a credit subtracting it.
     */
    method RenderLedger() returns (rows: seq<real>)
      modifies this
      ensures transactions == SortByKey(old(transactions), EntryDay())
      ensures RunningRows(rows, AllLines(transactions))
    {
      transactions := SortByKey(transactions, EntryDay());
      rows := LedgerRows(transactions);
    }
  }
}
