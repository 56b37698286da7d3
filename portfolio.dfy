/**
 * The investments tab (class Investments, script.js:673-1020): creating a
 * company (an Investment account and its MTM partner), revaluing a lot,
 * which posts a mark-to-market entry against the "Unrealized Gain/Loss"
 * revenue account, the lots of an investment account, and the figures of
 * each lot row and subtotal.
 *
 * This class keeps no copy of the chart or the journal: it reads both from
 * storage and writes them back, so its operations take the stored chart and
 * journal and return the ones they store. Only the per-lot details are a
 * field.
 */
module Portfolio {
  import opened Wrappers
  import opened Collections
  import opened Text
  import opened Domain
  import opened Registry
  import Reports

  // ---------------------------------------------------------------------
  // createNewCompany (script.js:689-738)
  // ---------------------------------------------------------------------

  const CompanyExists: string := "A company with this name already exists"

  /** What a create-company request ends in. */
  datatype CompanyOutcome = Cancelled | Refused(message: string) | Created(accounts: seq<Account>)

  /** The Investment account of a new company. */
  function InvestmentAccount(id: int, code: string, name: string): Account
  {
    Account(id, code, name, InvestmentType, "Investment account for " + name)
  }

  /** Some account already has the company's name or its MTM name, ignoring case. */
  predicate CompanyNameTaken(accounts: seq<Account>, companyName: string)
  {
    exists a :: a in accounts && (SameIgnoringCase(a.name, companyName) || SameIgnoringCase(a.name, MtmName(companyName)))
  }

  /**
   * createNewCompany on the stored chart: an empty name or code cancels; a
   * code used by any account (compared exactly, case and all) refuses, then
   * a clashing company name; otherwise the Investment account and its MTM
   * partner are appended, in that order.
   */
  function CreateNewCompany(accounts: seq<Account>, companyName: string, accountCode: string, id: int, mtmId: int)
    : (r: CompanyOutcome)
    ensures r.Cancelled? <==> companyName == "" || accountCode == ""
    ensures r == Refused(CodeExists) <==>
      (companyName != "" && accountCode != "" && exists a :: a in accounts && a.code == accountCode)
    ensures r == Refused(CompanyExists) <==>
      (companyName != "" && accountCode != "" && (forall a :: a in accounts ==> a.code != accountCode)
       && CompanyNameTaken(accounts, companyName))
    ensures r.Created? ==>
      r.accounts == accounts + [InvestmentAccount(id, accountCode, companyName), MtmAccount(mtmId, accountCode, companyName)]
  {
    if companyName == "" || accountCode == "" then Cancelled
    else if exists a :: a in accounts && a.code == accountCode then Refused(CodeExists)
    else if CompanyNameTaken(accounts, companyName) then Refused(CompanyExists)
    else Created(accounts + [InvestmentAccount(id, accountCode, companyName), MtmAccount(mtmId, accountCode, companyName)])
  }

  /** A created company comes with its partner, so a chart whose investments all have partners keeps that property. */
  lemma CreatedKeepsPaired(accounts: seq<Account>, companyName: string, accountCode: string, id: int, mtmId: int)
    requires Paired(accounts)
    requires CreateNewCompany(accounts, companyName, accountCode, id, mtmId).Created?
    ensures Paired(CreateNewCompany(accounts, companyName, accountCode, id, mtmId).accounts)
  {
    var r := CreateNewCompany(accounts, companyName, accountCode, id, mtmId).accounts;
    var inv := InvestmentAccount(id, accountCode, companyName);
    var mtm := MtmAccount(mtmId, accountCode, companyName);
    assert r[|accounts| + 1] == mtm;
    forall x | x in r && x.accountType == InvestmentType ensures HasPair(r, x) {
      if x == inv {
        assert mtm in r;
      } else if x == mtm {
        assert false;
      } else {
        assert x in accounts;
        var a :| a in accounts && (a.code == MtmCode(x.code) || a.name == MtmName(x.name));
        assert a in r;
      }
    }
  }

  /**
   * Only the company's own code is checked: when another account already
   * holds the MTM code (the code followed by '1'), the company is still
   * created and the chart then holds two accounts with that code.
   */
  lemma CreateCanDuplicateMtmCode(accounts: seq<Account>, companyName: string, accountCode: string, id: int, mtmId: int, k: nat)
    requires companyName != "" && accountCode != ""
    requires forall a :: a in accounts ==> a.code != accountCode
    requires !CompanyNameTaken(accounts, companyName)
    requires k < |accounts| && accounts[k].code == MtmCode(accountCode)
    ensures var r := CreateNewCompany(accounts, companyName, accountCode, id, mtmId);
      r.Created? && r.accounts[k].code == r.accounts[|accounts| + 1].code && k != |accounts| + 1
  {
  }

  // ---------------------------------------------------------------------
  // saveInvestmentEdit (script.js:798-897)
  // ---------------------------------------------------------------------

  /** A lot as getTransactionsForAccount returns it: the entry's date and its signed amount on the account (the lot's cost). */
  datatype Lot = Lot(date: Date, amount: real)

  /** The per-lot details stored for an account and lot date, if any. */
  function StoredDetail(details: map<int, map<Date, LotDetail>>, id: int, date: Date): (r: Option<LotDetail>)
    ensures r.Some? <==> id in details && date in details[id]
    ensures r.Some? ==> r.value == details[id][date]
  {
    if id in details && date in details[id] then Some(details[id][date]) else None
  }

  /** `previousDetails.fmv || transaction.amount`: a missing or zero stored fair market value falls back to the cost. */
  function PreviousFmv(details: map<int, map<Date, LotDetail>>, id: int, lot: Lot): (r: real)
    ensures r != lot.amount ==> StoredDetail(details, id, lot.date).Some? && r == StoredDetail(details, id, lot.date).value.fmv
    ensures StoredDetail(details, id, lot.date).Some? && StoredDetail(details, id, lot.date).value.fmv != 0.0 ==>
      r == StoredDetail(details, id, lot.date).value.fmv
    ensures (StoredDetail(details, id, lot.date).None? || StoredDetail(details, id, lot.date).value.fmv == 0.0) ==> r == lot.amount
  {
    match StoredDetail(details, id, lot.date)
    case Some(d) => if d.fmv != 0.0 then d.fmv else lot.amount
    case None => lot.amount
  }

  /** The investment renamed by id, then the first account whose code is its code + '1' renamed to match. */
  function Renamed(accounts: seq<Account>, account: Account, newCompany: string): (r: seq<Account>)
    ensures |r| == |accounts|
    ensures forall i :: 0 <= i < |r| ==>
      r[i].id == accounts[i].id && r[i].code == accounts[i].code && r[i].accountType == accounts[i].accountType
    ensures newCompany == account.name || FirstIndex(accounts, HasId(account.id)).None? ==> r == accounts
  {
    if newCompany == account.name then accounts
    else match FirstIndex(accounts, HasId(account.id))
      case None => accounts
      case Some(k) =>
        var named := accounts[k := accounts[k].(name := newCompany)];
        match FirstIndex(named, HasCode(MtmCode(named[k].code)))
        case None => named
        case Some(m) => named[m := named[m].(name := MtmName(newCompany), description := MtmDescription(newCompany))]
  }

  /**
   * A rename changes the investment's name and the name and description of
   * its code partner (the first account with its code + '1'), which then
   * carries the investment's new name + ' - MTM'; no other account changes.
   */
  lemma RenameTouchesPairOnly(accounts: seq<Account>, account: Account, newCompany: string, k: nat)
    requires newCompany != account.name
    requires FirstIndex(accounts, HasId(account.id)) == Some(k)
    ensures var r := Renamed(accounts, account, newCompany);
      r[k] == accounts[k].(name := newCompany)
      && (FirstIndex(accounts, HasCode(MtmCode(accounts[k].code))).None? ==>
            forall i :: 0 <= i < |r| && i != k ==> r[i] == accounts[i])
      && (FirstIndex(accounts, HasCode(MtmCode(accounts[k].code))).Some? ==>
            var m := FirstIndex(accounts, HasCode(MtmCode(accounts[k].code))).value;
            m != k && r[m] == accounts[m].(name := MtmName(r[k].name), description := MtmDescription(r[k].name))
            && forall i :: 0 <= i < |r| && i != k && i != m ==> r[i] == accounts[i])
  {
    var code := accounts[k].code;
    var named := accounts[k := accounts[k].(name := newCompany)];
    assert code != MtmCode(code) by {
      DifferentLengthsDiffer(code, MtmCode(code));
    }
    assert forall i :: 0 <= i < |named| ==> (HasCode(MtmCode(code))(named[i]) <==> HasCode(MtmCode(code))(accounts[i]));
    FirstIndexSame(named, accounts, HasCode(MtmCode(code)));
  }

  /** Two sequences of equal length that agree on `p` everywhere have the same first index for `p`. */
  lemma {:induction false} FirstIndexSame<T>(a: seq<T>, b: seq<T>, p: T -> bool)
    requires |a| == |b|
    requires forall i :: 0 <= i < |a| ==> (p(a[i]) <==> p(b[i]))
    ensures FirstIndex(a, p) == FirstIndex(b, p)
    decreases |a|
  {
    if |a| > 0 && !p(a[0]) {
      FirstIndexSame(a[1..], b[1..], p);
    }
  }

  const UglCode: string := "UGL"
  const UglName: string := "Unrealized Gain/Loss"
  const RevenueType: string := "Revenue"

  /** The revenue account unrealized gains and losses are recorded against. */
  function UglAccount(id: int): Account
  {
    Account(id, UglCode, UglName, RevenueType, "Account for recording unrealized gains and losses")
  }

  /** An account counts as the unrealized gain/loss account only with this type, code and name, all compared exactly. */
  function IsUgl(): Account -> bool
  {
    (a: Account) => a.accountType == RevenueType && a.code == UglCode && a.name == UglName
  }

  /** The chart with the unrealized gain/loss account found, or created and appended. */
  function WithUgl(accounts: seq<Account>, uglId: int): (r: seq<Account>)
    ensures Find(accounts, IsUgl()).Some? ==> r == accounts
    ensures Find(accounts, IsUgl()).None? ==> r == accounts + [UglAccount(uglId)] && Find(r, IsUgl()) == Some(UglAccount(uglId))
    ensures Find(r, IsUgl()).Some?
  {
    if Find(accounts, IsUgl()).Some? then accounts
    else
      var r := accounts + [UglAccount(uglId)];
      assert IsUgl()(r[|accounts|]);
      assert forall j :: 0 <= j < |accounts| ==> !IsUgl()(r[j]);
      r
  }

  /** A line of an MTM adjustment entry. */
  function AdjustmentLine(a: Account, side: Side, amount: real): LineItem
  {
    LineItem(a.id, a.code + " - " + a.name, a.accountType, "MTM adjustment", side, amount)
  }

  /**
   * The entry a revaluation by `change` posts: the MTM account is debited
   * and the unrealized gain/loss account credited |change| when the value
   * rose, the other way round when it fell.
   */
  function MtmAdjustment(id: int, today: Date, company: string, mtm: Account, ugl: Account, change: real): (r: Entry)
    ensures Balanced(r)
    ensures |r.lineItems| == 2 && r.lineItems[0].accountId == mtm.id && r.lineItems[1].accountId == ugl.id
    ensures r.lineItems[0].side == Debit <==> change > 0.0
    ensures r.lineItems[1].side == Debit <==> !(change > 0.0)
    ensures r.lineItems[0].amount == r.lineItems[1].amount == Reports.Abs(change)
    ensures change != 0.0 ==> r.lineItems[0].amount > 0.0
  {
    var amount := Reports.Abs(change);
    var lines := [
      AdjustmentLine(mtm, if change > 0.0 then Debit else Credit, amount),
      AdjustmentLine(ugl, if change > 0.0 then Credit else Debit, amount)];
    assert lines[..1] == [lines[0]];
    SumOfSingle(lines[0], DebitOf());
    SumOfSingle(lines[0], CreditOf());
    Entry(id, today, "MTM adjustment for " + company, lines)
  }

  /** Posting the adjustment moves the MTM account's net by `change` and the gain/loss account's by `-change`. */
  lemma {:induction false} AdjustmentNets(journal: seq<Entry>, id: int, today: Date, company: string, mtm: Account, ugl: Account, change: real)
    requires mtm.id != ugl.id
    ensures var posted := journal + [MtmAdjustment(id, today, company, mtm, ugl, change)];
      Net(posted, mtm.id) == Net(journal, mtm.id) + change
      && Net(posted, ugl.id) == Net(journal, ugl.id) - change
  {
    var e := MtmAdjustment(id, today, company, mtm, ugl, change);
    NetAppend(journal, [e], mtm.id);
    NetAppend(journal, [e], ugl.id);
    SumOfSingle(e, EntryNet(mtm.id));
    SumOfSingle(e, EntryNet(ugl.id));
    assert e.lineItems[..1] == [e.lineItems[0]];
    SumOfSingle(e.lineItems[0], LineNet(mtm.id));
    SumOfSingle(e.lineItems[0], LineNet(ugl.id));
  }

  /** `storedDetails[id][date] = detail`, creating the account's dictionary when it has none. */
  function DetailsUpdated(details: map<int, map<Date, LotDetail>>, id: int, date: Date, detail: LotDetail)
    : (r: map<int, map<Date, LotDetail>>)
    ensures r.Keys == details.Keys + {id}
    ensures StoredDetail(r, id, date) == Some(detail)
    ensures forall other :: other in details && other != id ==> r[other] == details[other]
    ensures r[id].Keys == (if id in details then details[id].Keys else {}) + {date}
    ensures forall d :: d in r[id] && d != date ==> r[id][d] == details[id][d]
  {
    details[id := (if id in details then details[id] else map[])[date := detail]]
  }

  /** How a lot revaluation ends. */
  datatype EditOutcome =
    | NoAdjustment  // the value did not change: only the details are stored
    | Adjusted      // an MTM adjustment entry was posted and the details stored
    | MissingMtm    // no MTM account has the investment's code + '1': the save stops with an error

  /** The source of the investments tab, holding the per-lot details it stores. */
  class Investments {
    var details: map<int, map<Date, LotDetail>>

    /** Loaded from the stored details. */
    constructor(stored: map<int, map<Date, LotDetail>>)
      ensures details == stored
    {
      details := stored;
    }

    /**
     * saveInvestmentEdit on the stored chart and journal. A changed company
     * name renames the investment and its code partner. The change of value
     * is the new fair market value less the previous one (the stored one,
     * or the lot's cost when none is stored or it is zero). A nonzero change
     * finds the MTM account by the investment's code + '1', finds or creates
     * the unrealized gain/loss account, and appends the adjustment entry;
     * when the MTM account is missing the source fails at that point, after
     * the gain/loss account is stored and before the entry and the details
     * are. Otherwise the lot's details become the new shares, fair market
     * value per share and fair market value, and no other lot's change.
     */
    method SaveInvestmentEdit(accounts: seq<Account>, journal: seq<Entry>, account: Account, lot: Lot,
                              newCompany: string, newShares: real, newFmvPerShare: real, newFmv: real,
                              today: Date, entryId: int, uglId: int)
      returns (outcome: EditOutcome, storedAccounts: seq<Account>, storedJournal: seq<Entry>)
      modifies this
      ensures var renamed := Renamed(accounts, account, newCompany);
        var change := newFmv - PreviousFmv(old(details), account.id, lot);
        var mtm := Find(renamed, HasCode(MtmCode(account.code)));
        (change == 0.0 ==> outcome == NoAdjustment && storedAccounts == renamed && storedJournal == journal)
        && (change != 0.0 ==> storedAccounts == WithUgl(renamed, uglId))
        && (outcome == MissingMtm <==> change != 0.0 && mtm.None?)
        && (outcome == Adjusted <==> change != 0.0 && mtm.Some?)
        && (outcome == Adjusted ==>
              storedJournal == journal + [MtmAdjustment(entryId, today, account.name, mtm.value,
                                                        Find(storedAccounts, IsUgl()).value, change)])
        && (outcome == MissingMtm ==> storedJournal == journal && details == old(details))
        && (outcome != MissingMtm ==>
              details == DetailsUpdated(old(details), account.id, lot.date, LotDetail(newShares, newFmvPerShare, newFmv)))
    {
      var renamed := Renamed(accounts, account, newCompany);
      storedAccounts, storedJournal := renamed, journal;
      var previousFmv := PreviousFmv(details, account.id, lot);
      var fmvChange := newFmv - previousFmv;
      outcome := NoAdjustment;
      if fmvChange != 0.0 {
        var mtmAccount := Find(renamed, HasCode(MtmCode(account.code)));
        storedAccounts := WithUgl(renamed, uglId);
        var unrealizedAccount := Find(storedAccounts, IsUgl()).value;
        if mtmAccount.None? {
          outcome := MissingMtm;
        } else {
          var newEntry := MtmAdjustment(entryId, today, account.name, mtmAccount.value, unrealizedAccount, fmvChange);
          storedJournal := journal + [newEntry];
          outcome := Adjusted;
        }
      }
      if outcome != MissingMtm {
        details := DetailsUpdated(details, account.id, lot.date, LotDetail(newShares, newFmvPerShare, newFmv));
      }
    }
  }

  /** Saving a nonzero fair market value stores it, so saving the same value again changes nothing and posts no entry. */
  lemma ResaveSameFmvPostsNothing(details: map<int, map<Date, LotDetail>>, id: int, lot: Lot, detail: LotDetail)
    requires detail.fmv != 0.0
    ensures detail.fmv - PreviousFmv(DetailsUpdated(details, id, lot.date, detail), id, lot) == 0.0
  {
  }

  // ---------------------------------------------------------------------
  // getTransactionsForAccount (script.js:904-927)
  // ---------------------------------------------------------------------

  /** The lot an entry makes for an account: its date, and the first line on the account, debit positive. */
  function LotOf(id: int): Entry -> Lot
  {
    (e: Entry) => Lot(e.date, match Find(e.lineItems, Reports.OnAccount(id)) case None => 0.0 case Some(l) => Signed(l))
  }

  /** The lot's amount is the signed amount of the entry's first line on the account, zero when no line is on it. */
  lemma LotOfFirstLine(e: Entry, id: int)
    ensures LotOf(id)(e).date == e.date
    ensures (forall l :: l in e.lineItems ==> l.accountId != id) ==> LotOf(id)(e).amount == 0.0
    ensures forall k ::
      (0 <= k < |e.lineItems| && e.lineItems[k].accountId == id && (forall j :: 0 <= j < k ==> e.lineItems[j].accountId != id))
      ==> LotOf(id)(e).amount == Signed(e.lineItems[k])
  {
    var first := FirstIndex(e.lineItems, Reports.OnAccount(id));
    forall k | 0 <= k < |e.lineItems| && e.lineItems[k].accountId == id && (forall j :: 0 <= j < k ==> e.lineItems[j].accountId != id)
      ensures first == Some(k)
    {
      assert Reports.OnAccount(id)(e.lineItems[k]);
    }
  }

  function LotDay(): Lot -> int
  {
    (l: Lot) => DayKey(l.date)
  }

  function LotAmount(): Lot -> real
  {
    (l: Lot) => l.amount
  }

  /** The account's lots: one per entry touching it, in date order. */
  function AccountLots(entries: seq<Entry>, id: int): (r: seq<Lot>)
    ensures SortedBy(r, LotDay())
    ensures |r| == |Filter(entries, Reports.TouchesAccount(id))|
    ensures multiset(r) == multiset(Map(Filter(entries, Reports.TouchesAccount(id)), LotOf(id)))
  {
    SortByKey(Map(Filter(entries, Reports.TouchesAccount(id)), LotOf(id)), LotDay())
  }

  /** The balance getTransactionsForAccount returns: the sum of the lots' amounts. */
  function LotsBalance(lots: seq<Lot>): real
  {
    SumOf(lots, LotAmount())
  }

  /** No entry has two lines on the account. */
  predicate OneLinePerEntry(entries: seq<Entry>, id: int)
  {
    forall e, i, j :: e in entries && 0 <= i < j < |e.lineItems| && e.lineItems[i].accountId == id ==> e.lineItems[j].accountId != id
  }

  /** An entry with a single line on the account nets it exactly that line. */
  lemma SingleLineNet(e: Entry, id: int, k: nat)
    requires k < |e.lineItems| && e.lineItems[k].accountId == id
    requires forall j :: 0 <= j < |e.lineItems| && j != k ==> e.lineItems[j].accountId != id
    ensures EntryNet(id)(e) == Signed(e.lineItems[k])
  {
    var lines := e.lineItems;
    var before, after := lines[..k], lines[k + 1..];
    assert lines == before + [lines[k]] + after;
    forall l | l in before ensures LineNet(id)(l) == 0.0 {
      var j :| 0 <= j < |before| && before[j] == l;
      assert lines[j] == l;
    }
    forall l | l in after ensures LineNet(id)(l) == 0.0 {
      var j :| 0 <= j < |after| && after[j] == l;
      assert lines[k + 1 + j] == l;
    }
    SumOfZero(before, LineNet(id));
    SumOfZero(after, LineNet(id));
    SumOfAppend(before + [lines[k]], after, LineNet(id));
    SumOfAppend(before, [lines[k]], LineNet(id));
    SumOfSingle(lines[k], LineNet(id));
  }

  /** A lot's amount is the entry's net on the account when the entry has one line on it. */
  lemma LotAmountIsNet(entries: seq<Entry>, e: Entry, id: int)
    requires OneLinePerEntry(entries, id) && e in entries && Touches(e, id)
    ensures LotOf(id)(e).amount == EntryNet(id)(e)
  {
    var k := FirstIndex(e.lineItems, Reports.OnAccount(id)).value;
    forall j | 0 <= j < |e.lineItems| && j != k ensures e.lineItems[j].accountId != id {
      if j > k {
        assert e.lineItems[k].accountId == id;
      }
    }
    SingleLineNet(e, id, k);
  }

  /**
   * When no entry has two lines on the account, the balance of its lots is
   * its net over the journal, debits minus credits.
   */
  lemma LotsBalanceIsNet(entries: seq<Entry>, id: int)
    requires OneLinePerEntry(entries, id)
    ensures LotsBalance(AccountLots(entries, id)) == Net(entries, id)
  {
    var touching := Filter(entries, Reports.TouchesAccount(id));
    var lots := Map(touching, LotOf(id));
    SumOfPermutation(AccountLots(entries, id), lots, LotAmount());
    forall e | e in touching ensures EntryNet(id)(e) == LotAmount()(LotOf(id)(e)) {
      LotAmountIsNet(entries, e, id);
    }
    SumOfMap(touching, LotOf(id), LotAmount(), EntryNet(id));
    Reports.LedgerEntriesNet(entries, id);
    SumOfPermutation(SortByKey(touching, EntryDay()), touching, EntryNet(id));
  }

  /** An entry touching the account makes a journal of one entry yield exactly its lot. */
  lemma SingleEntryLots(e: Entry, id: int)
    requires Touches(e, id)
    ensures AccountLots([e], id) == [LotOf(id)(e)]
  {
    assert [e][..0] == [];
    assert Filter([e], Reports.TouchesAccount(id)) == [e];
    var lot := LotOf(id)(e);
    assert Map([e], LotOf(id)) == [lot];
    assert [lot][..0] == [];
    assert SortByKey([lot], LotDay()) == [lot];
  }

  /**
   * Only the first line on the account makes the lot: in an entry with two
   * lines on the account, the lot balance shows the first line alone while
   * the account's net adds both.
   */
  lemma LotsMissSecondLine(e: Entry, id: int)
    requires |e.lineItems| == 2 && e.lineItems[0].accountId == id && e.lineItems[1].accountId == id
    ensures LotsBalance(AccountLots([e], id)) == Signed(e.lineItems[0])
    ensures Net([e], id) == Signed(e.lineItems[0]) + Signed(e.lineItems[1])
  {
    var first := e.lineItems[0];
    assert first in e.lineItems;
    SingleEntryLots(e, id);
    assert FirstIndex(e.lineItems, Reports.OnAccount(id)) == Some(0);
    var lot := LotOf(id)(e);
    SumOfSingle(lot, LotAmount());
    SumOfSingle(e, EntryNet(id));
    assert e.lineItems[..1] == [first];
    SumOfSingle(first, LineNet(id));
  }

  // ---------------------------------------------------------------------
  // The lot rows and subtotals of renderInvestments (script.js:930-1020)
  // ---------------------------------------------------------------------

  /** The figures of one lot row. */
  datatype LotRow = LotRow(shares: real, costPerShare: real, fmvPerShare: real, cost: real, fmv: real, unrealized: real)

  /**
   * A lot row: stored shares, or 100 when none (or zero) is stored; cost
   * per share from the cost; stored fair market value per share or the
   * cost per share; stored fair market value or the cost; unrealized gain
   * or loss the fair market value less the cost.
   */
  function LotView(detail: Option<LotDetail>, cost: real): (r: LotRow)
    ensures r.shares != 0.0 && r.costPerShare * r.shares == cost
    ensures r.cost == cost && r.unrealized == r.fmv - r.cost
    ensures detail.None? ==> r.shares == 100.0 && r.fmv == cost && r.unrealized == 0.0 && r.fmvPerShare == r.costPerShare
    ensures detail.Some? && detail.value.shares != 0.0 ==> r.shares == detail.value.shares
    ensures detail.Some? && detail.value.shares == 0.0 ==> r.shares == 100.0
    ensures detail.Some? && detail.value.fmvPerShare != 0.0 ==> r.fmvPerShare == detail.value.fmvPerShare
    ensures detail.Some? && detail.value.fmvPerShare == 0.0 ==> r.fmvPerShare == r.costPerShare
    ensures detail.Some? && detail.value.fmv != 0.0 ==> r.fmv == detail.value.fmv
    ensures detail.Some? && detail.value.fmv == 0.0 ==> r.fmv == cost && r.unrealized == 0.0
  {
    var shares := if detail.Some? && detail.value.shares != 0.0 then detail.value.shares else 100.0;
    var costPerShare := cost / shares;
    var fmvPerShare := if detail.Some? && detail.value.fmvPerShare != 0.0 then detail.value.fmvPerShare else costPerShare;
    var fmv := if detail.Some? && detail.value.fmv != 0.0 then detail.value.fmv else cost;
    LotRow(shares, costPerShare, fmvPerShare, cost, fmv, fmv - cost)
  }

  /** The row shows the fair market value a revaluation of the lot compares against. */
  lemma ViewShowsPreviousFmv(details: map<int, map<Date, LotDetail>>, id: int, lot: Lot)
    ensures LotView(StoredDetail(details, id, lot.date), lot.amount).fmv == PreviousFmv(details, id, lot)
  {
  }

  /**
   * After a revaluation to a nonzero value, the lot row's unrealized gain
   * or loss has moved by exactly the change the adjustment entry posted.
   */
  lemma UnrealizedMovesByChange(details: map<int, map<Date, LotDetail>>, id: int, lot: Lot, detail: LotDetail)
    requires detail.fmv != 0.0
    ensures LotView(StoredDetail(DetailsUpdated(details, id, lot.date, detail), id, lot.date), lot.amount).unrealized
         == LotView(StoredDetail(details, id, lot.date), lot.amount).unrealized + (detail.fmv - PreviousFmv(details, id, lot))
  {
    ViewShowsPreviousFmv(details, id, lot);
  }

  /**
   * A revaluation to zero posts the full fall in value, yet the row then
   * reads the zero as "no value stored" and shows the cost again, with no
   * unrealized loss; saving zero again posts the cost once more. With a
   * cost of 1000 and a stored value of 1200: the first save posts -1200,
   * the row shows 0 unrealized, the second save posts -1000.
   */
  lemma ZeroFmvIsReadAsCost()
    ensures var lot := Lot(Date(2024, 1, 5), 1000.0);
      var details := map[3 := map[lot.date := LotDetail(100.0, 12.0, 1200.0)]];
      var zero := LotDetail(100.0, 0.0, 0.0);
      var after := DetailsUpdated(details, 3, lot.date, zero);
      0.0 - PreviousFmv(details, 3, lot) == -1200.0
      && LotView(StoredDetail(after, 3, lot.date), lot.amount).unrealized == 0.0
      && 0.0 - PreviousFmv(after, 3, lot) == -1000.0
  {
  }

  function Detailed(details: map<int, map<Date, LotDetail>>, id: int): Lot -> LotRow
  {
    (lot: Lot) => LotView(StoredDetail(details, id, lot.date), lot.amount)
  }

  function RowCost(): LotRow -> real
  {
    (r: LotRow) => r.cost
  }

  function RowFmv(): LotRow -> real
  {
    (r: LotRow) => r.fmv
  }

  function RowUnrealized(): LotRow -> real
  {
    (r: LotRow) => r.unrealized
  }

  /** The subtotal row of an account with more than one lot. */
  datatype Subtotal = Subtotal(totalCost: real, totalFmv: real, unrealized: real)

  /** The row of each lot, adding its cost and fair market value to the account's totals. */
  method LotRows(details: map<int, map<Date, LotDetail>>, id: int, lots: seq<Lot>)
    returns (rows: seq<LotRow>, totalCost: real, totalFmv: real)
    ensures rows == Map(lots, Detailed(details, id))
    ensures totalCost == LotsBalance(lots) && totalFmv == SumOf(rows, RowFmv())
  {
    rows, totalCost, totalFmv := [], 0.0, 0.0;
    var i := 0;
    while i < |lots|
      invariant 0 <= i <= |lots|
      invariant rows == Map(lots[..i], Detailed(details, id))
      invariant totalCost == SumOf(lots[..i], LotAmount()) && totalFmv == SumOf(rows, RowFmv())
    {
      var lot := lots[i];
      var row := LotView(StoredDetail(details, id, lot.date), lot.amount);
      SumOfStep(lots, i, LotAmount());
      assert lots[..i + 1] == lots[..i] + [lot];
      MapSnoc(lots[..i], lot, Detailed(details, id));
      SumOfSnoc(rows, row, RowFmv());
      totalCost := totalCost + row.cost;
      totalFmv := totalFmv + row.fmv;
      rows := rows + [row];
      i := i + 1;
    }
    assert lots[..i] == lots;
  }

  /** The total unrealized gain or loss is the sum of the rows' unrealized gains and losses. */
  lemma SubtotalUnrealized(details: map<int, map<Date, LotDetail>>, id: int, lots: seq<Lot>)
    ensures var rows := Map(lots, Detailed(details, id));
      SumOf(rows, RowFmv()) - LotsBalance(lots) == SumOf(rows, RowUnrealized())
  {
    var rows := Map(lots, Detailed(details, id));
    var negCost: LotRow -> real := (r: LotRow) => -r.cost;
    SumOfAdd(rows, RowFmv(), negCost, RowUnrealized());
    SumOfNegate(rows, RowCost(), negCost);
    SumOfMap(lots, Detailed(details, id), RowCost(), LotAmount());
  }

  /**
   * One investment account's part of renderInvestments: nothing when it
   * has no lots or a zero balance; otherwise a row per lot, and a subtotal
   * of cost, fair market value and unrealized gain or loss when it has more
   * than one lot.
   */
  method AccountSection(details: map<int, map<Date, LotDetail>>, account: Account, entries: seq<Entry>)
    returns (rows: seq<LotRow>, subtotal: Option<Subtotal>)
    ensures var lots := AccountLots(entries, account.id);
      var shown := |lots| > 0 && LotsBalance(lots) != 0.0;
      (!shown ==> rows == [] && subtotal.None?)
      && (shown ==> rows == Map(lots, Detailed(details, account.id)))
      && (subtotal.Some? <==> shown && |lots| > 1)
      && (subtotal.Some? ==>
            subtotal.value.totalCost == LotsBalance(lots)
            && subtotal.value.totalFmv == SumOf(rows, RowFmv())
            && subtotal.value.unrealized == SumOf(rows, RowUnrealized()))
  {
    var lots := AccountLots(entries, account.id);
    var balance := LotsBalance(lots);
    rows, subtotal := [], None;
    if |lots| == 0 || balance == 0.0 {
      return;
    }
    var totalCost, totalFmv;
    rows, totalCost, totalFmv := LotRows(details, account.id, lots);
    if |lots| > 1 {
      SubtotalUnrealized(details, account.id, lots);
      subtotal := Some(Subtotal(totalCost, totalFmv, totalFmv - totalCost));
    }
  }
}
