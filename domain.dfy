/**
 * The records the bookkeeping code stores: accounts in the chart of
 * accounts, journal entries with their line items, and the per-lot details
 * of investments. Amounts are exact reals; dates are calendar days.
 */
module Domain {
  import opened Wrappers
  import opened Collections

  /** A calendar day, as the `YYYY-MM-DD` strings of the date inputs. */
  datatype Date = Date(year: int, month: int, day: int)

  predicate ValidDate(d: Date)
  {
    1 <= d.month <= 12 && 1 <= d.day <= 31
  }

  /** A key that orders valid dates as `new Date(a) - new Date(b)` does. */
  function DayKey(d: Date): int
  {
    (d.year * 13 + d.month) * 32 + d.day
  }

  /** `setMonth(0, 1)`: the first of January of the date's year. */
  function YearStart(d: Date): (r: Date)
    ensures ValidDate(r) && r.year == d.year
    ensures ValidDate(d) ==> DayKey(r) <= DayKey(d)
  {
    Date(d.year, 1, 1)
  }

  /** Valid dates of an earlier year come before every valid date of a later year. */
  lemma {:induction false} EarlierYearFirst(a: Date, b: Date)
    requires ValidDate(a) && ValidDate(b) && a.year < b.year
    ensures DayKey(a) < DayKey(b)
  {
    assert a.year * 13 + a.month < b.year * 13 + b.month by {
      assert a.year * 13 + 13 <= b.year * 13;
    }
    assert (a.year * 13 + a.month) * 32 + 32 <= (b.year * 13 + b.month) * 32;
  }

  /** A valid date is on or after the start of a year exactly when its year is not earlier. */
  lemma YearStartBound(x: Date, d: Date)
    requires ValidDate(x)
    ensures DayKey(YearStart(d)) <= DayKey(x) <==> x.year >= d.year
  {
    if x.year < d.year {
      EarlierYearFirst(x, YearStart(d));
    } else if x.year > d.year {
      EarlierYearFirst(YearStart(d), x);
    }
  }

  /** The sort key of `new Date(a.date) - new Date(b.date)`. */
  function EntryDay(): Entry -> int
  {
    (e: Entry) => DayKey(e.date)
  }

  /** An entry of the chart of accounts. */
  datatype Account = Account(id: int, code: string, name: string, accountType: string, description: string)

  datatype Side = Debit | Credit

  /**
   * A stored line item: the account it posts to, a snapshot of that
   * account's `code - name` and type, a description, a side and an amount.
   */
  datatype LineItem = LineItem(
    accountId: int, accountName: string, accountType: string,
    description: string, side: Side, amount: real)

  /** A journal entry. */
  datatype Entry = Entry(id: int, date: Date, description: string, lineItems: seq<LineItem>)

  /** What the investment editor stores for one lot. */
  datatype LotDetail = LotDetail(shares: real, fmvPerShare: real, fmv: real)

  /** The line's effect on debits minus credits. */
  function Signed(l: LineItem): (r: real)
    ensures l.side == Debit ==> r == l.amount
    ensures l.side == Credit ==> r == -l.amount
  {
    if l.side == Debit then l.amount else -l.amount
  }

  function DebitAmount(l: LineItem): real
  {
    if l.side == Debit then l.amount else 0.0
  }

  function CreditAmount(l: LineItem): real
  {
    if l.side == Credit then l.amount else 0.0
  }

  /** The summands of the engine's sums, as named functions so that every sum uses the same term. */
  function SignedOf(): LineItem -> real
  {
    (l: LineItem) => Signed(l)
  }

  function DebitOf(): LineItem -> real
  {
    (l: LineItem) => DebitAmount(l)
  }

  function CreditOf(): LineItem -> real
  {
    (l: LineItem) => CreditAmount(l)
  }

  function DebitTotal(lines: seq<LineItem>): real
  {
    SumOf(lines, DebitOf())
  }

  function CreditTotal(lines: seq<LineItem>): real
  {
    SumOf(lines, CreditOf())
  }

  /** Debits minus credits of a list of lines. */
  function SignedTotal(lines: seq<LineItem>): real
  {
    SumOf(lines, SignedOf())
  }

  /** Debit total equals credit total. */
  predicate Balanced(e: Entry)
  {
    DebitTotal(e.lineItems) == CreditTotal(e.lineItems)
  }

  /** The net of a list of lines is its debit total minus its credit total. */
  lemma SignedIsDebitMinusCredit(lines: seq<LineItem>)
    ensures SignedTotal(lines) == DebitTotal(lines) - CreditTotal(lines)
  {
    var negCredit: LineItem -> real := l => -CreditAmount(l);
    SumOfAdd(lines, DebitOf(), negCredit, SignedOf());
    SumOfNegate(lines, CreditOf(), negCredit);
  }

  lemma {:induction false} SumOfNegate<T>(s: seq<T>, f: T -> real, g: T -> real)
    requires forall x :: x in s ==> g(x) == -f(x)
    ensures SumOf(s, g) == -SumOf(s, f)
    decreases |s|
  {
    if |s| > 0 {
      SumOfNegate(s[..|s| - 1], f, g);
    }
  }

  /** A balanced entry's lines net to zero. */
  lemma BalancedNetsToZero(e: Entry)
    requires Balanced(e)
    ensures SignedTotal(e.lineItems) == 0.0
  {
    SignedIsDebitMinusCredit(e.lineItems);
  }

  /** The line's effect on debits minus credits of account `id` (zero for other accounts). */
  function LineNet(id: int): LineItem -> real
  {
    (l: LineItem) => if l.accountId == id then Signed(l) else 0.0
  }

  /** The entry's effect on account `id`. */
  function EntryNet(id: int): Entry -> real
  {
    (e: Entry) => SumOf(e.lineItems, LineNet(id))
  }

  /** Debits minus credits posted to account `id` by `entries`. */
  function Net(entries: seq<Entry>, id: int): real
  {
    SumOf(entries, EntryNet(id))
  }

  /** The lines of the entries, entry after entry, in journal order. */
  function AllLines(transactions: seq<Entry>): seq<LineItem>
  {
    if |transactions| == 0 then []
    else AllLines(transactions[..|transactions| - 1]) + transactions[|transactions| - 1].lineItems
  }

  /** Some line of the entry posts to account `id` (`lineItems.some`). */
  predicate Touches(e: Entry, id: int)
  {
    exists l :: l in e.lineItems && l.accountId == id
  }

  /** An entry that does not touch an account does not change it. */
  lemma UntouchedEntryNet(e: Entry, id: int)
    requires !Touches(e, id)
    ensures EntryNet(id)(e) == 0.0
  {
    SumOfZero(e.lineItems, LineNet(id));
  }

  /** Entries none of which touches an account leave it at zero. */
  lemma UntouchedNet(entries: seq<Entry>, id: int)
    requires forall e :: e in entries ==> !Touches(e, id)
    ensures Net(entries, id) == 0.0
  {
    forall e | e in entries
      ensures EntryNet(id)(e) == 0.0
    {
      UntouchedEntryNet(e, id);
    }
    SumOfZero(entries, EntryNet(id));
  }

  /** Net is additive over concatenated journals. */
  lemma NetAppend(a: seq<Entry>, b: seq<Entry>, id: int)
    ensures Net(a + b, id) == Net(a, id) + Net(b, id)
  {
    SumOfAppend(a, b, EntryNet(id));
  }

  /** Net does not depend on the order of the entries. */
  lemma NetPermutation(a: seq<Entry>, b: seq<Entry>, id: int)
    requires multiset(a) == multiset(b)
    ensures Net(a, id) == Net(b, id)
  {
    SumOfPermutation(a, b, EntryNet(id));
  }

  /** No two accounts share an id. */
  predicate UniqueIds(accounts: seq<Account>)
  {
    forall i, j :: 0 <= i < j < |accounts| ==> accounts[i].id != accounts[j].id
  }

  /** `find(a => a.id === id)`. */
  function FindAccount(accounts: seq<Account>, id: int): (r: Option<Account>)
    ensures r.Some? ==> r.value in accounts && r.value.id == id
    ensures r.None? <==> forall a :: a in accounts ==> a.id != id
  {
    Find(accounts, HasId(id))
  }

  function HasId(id: int): Account -> bool
  {
    (a: Account) => a.id == id
  }

  /** With unique ids, looking up a registered account's id finds that account. */
  lemma FindRegistered(accounts: seq<Account>, a: Account)
    requires UniqueIds(accounts) && a in accounts
    ensures FindAccount(accounts, a.id) == Some(a)
  {
    var r := FindAccount(accounts, a.id);
    var i :| 0 <= i < |accounts| && accounts[i] == a;
    var j :| 0 <= j < |accounts| && accounts[j] == r.value;
    assert i == j;
  }
}
