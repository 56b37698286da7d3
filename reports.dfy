/**
 * The report calculations of the Reports class (script.js:1076-1507): the
 * date filter, the balance sheet, the profit & loss statement, the trial
 * balance and the per-account general ledger. Each report reads the
 * balances calculateAccountBalances produces, as `balances[id] || 0`.
 */
module Reports {
  import opened Wrappers
  import opened Collections
  import opened AccountTypes
  import opened Domain
  import opened BalanceEngine

  /** The dates a report covers: up to an as-of date (balance sheet, trial balance) or an inclusive range. */
  datatype Period = AsOf(asOf: Date) | Between(start: Date, end: Date)

  predicate InPeriod(p: Period, d: Date)
  {
    match p
    case AsOf(asOf) => DayKey(d) <= DayKey(asOf)
    case Between(start, end) => DayKey(start) <= DayKey(d) <= DayKey(end)
  }

  function DatedIn(p: Period): Entry -> bool
  {
    (e: Entry) => InPeriod(p, e.date)
  }

  /** getTransactionsInRange: the entries dated inside the period, bounds included, in journal order. */
  function TransactionsInRange(entries: seq<Entry>, p: Period): (r: seq<Entry>)
    ensures forall e :: e in r <==> e in entries && InPeriod(p, e.date)
    ensures |r| <= |entries|
  {
    FilterMembers(entries, DatedIn(p));
    Filter(entries, DatedIn(p))
  }

  /** Reading the map with the `|| 0` default, per account. */
  function GetOf(balances: map<int, real>): Account -> real
  {
    (a: Account) => Get(balances, a.id)
  }

  /** Each account's balance over `entries`. */
  function BalanceOf(accounts: seq<Account>, entries: seq<Entry>): Account -> real
  {
    (a: Account) => Balance(accounts, entries, a.id)
  }

  function OfType(t: string): Account -> bool
  {
    (a: Account) => a.accountType == t
  }

  /** The accounts a report section selects by the tests of its type. */
  function InGroup(section: Section): Account -> bool
  {
    (a: Account) => InSection(a.accountType, section)
  }

  /** The balances the report maps hold are the engine's balances, for every account. */
  lemma GetOfIsBalanceOf(balances: map<int, real>, accounts: seq<Account>, entries: seq<Entry>)
    requires BalancesOf(balances, accounts, entries)
    ensures forall a :: GetOf(balances)(a) == BalanceOf(accounts, entries)(a)
  {
    forall a ensures GetOf(balances)(a) == BalanceOf(accounts, entries)(a) {
      GetIsBalance(balances, accounts, entries, a.id);
    }
  }

  /**
   * The per-group loops: `balances[account.id] || 0` summed over a group of
   * accounts, skipping zero balances as the forEach loops do (the reduce
   * loops add them; the total is the same).
   */
  method GroupTotal(group: seq<Account>, balances: map<int, real>) returns (total: real)
    ensures total == SumOf(group, GetOf(balances))
  {
    total := 0.0;
    var k := 0;
    while k < |group|
      invariant 0 <= k <= |group|
      invariant total == SumOf(group[..k], GetOf(balances))
    {
      var balance := Get(balances, group[k].id);
      SumOfStep(group, k, GetOf(balances));
      if balance != 0.0 {
        total := total + balance;
      }
      k := k + 1;
    }
    assert group[..|group|] == group;
  }

  /** A balance-sheet section: the accounts of each listed type in turn, each group summed. */
  function SectionSum(accounts: seq<Account>, types: seq<string>, f: Account -> real): real
  {
    if |types| == 0 then 0.0
    else SectionSum(accounts, types[..|types| - 1], f) + SumOf(Filter(accounts, OfType(types[|types| - 1])), f)
  }

  /** The asset and liability loops of generateBalanceSheet: per type, the accounts of that type. */
  method SectionTotal(accounts: seq<Account>, balances: map<int, real>, types: seq<string>) returns (total: real)
    ensures total == SectionSum(accounts, types, GetOf(balances))
  {
    total := 0.0;
    var i := 0;
    while i < |types|
      invariant 0 <= i <= |types|
      invariant total == SectionSum(accounts, types[..i], GetOf(balances))
    {
      var group := Filter(accounts, OfType(types[i]));
      if |group| > 0 {
        var sub := GroupTotal(group, balances);
        total := total + sub;
      }
      assert types[..i + 1][..i] == types[..i];
      i := i + 1;
    }
    assert types[..|types|] == types;
  }

  /** A section's total depends only on the summand's values on the accounts. */
  lemma {:induction false} SectionSumCongruent(accounts: seq<Account>, types: seq<string>, f: Account -> real, g: Account -> real)
    requires forall a :: a in accounts ==> f(a) == g(a)
    ensures SectionSum(accounts, types, f) == SectionSum(accounts, types, g)
    decreases |types|
  {
    if |types| > 0 {
      SectionSumCongruent(accounts, types[..|types| - 1], f, g);
      var group := Filter(accounts, OfType(types[|types| - 1]));
      SumOfCongruent(group, f, g);
    }
  }

  /** The profit & loss figures. */
  datatype ProfitLoss = ProfitLoss(totalRevenue: real, totalExpenses: real, netIncome: real)

  /** The profit & loss statement over entries already filtered to the period. */
  function ProfitLossOf(accounts: seq<Account>, entries: seq<Entry>): ProfitLoss
  {
    var revenue := SumOf(Filter(accounts, InGroup(Income)), BalanceOf(accounts, entries));
    var expenses := SumOf(Filter(accounts, InGroup(Expenses)), BalanceOf(accounts, entries));
    ProfitLoss(revenue, expenses, revenue - expenses)
  }

  /** generateProfitLoss: revenue-group and expense-group balances over the range, and their difference. */
  method GenerateProfitLoss(accounts: seq<Account>, entries: seq<Entry>, start: Date, end: Date) returns (r: ProfitLoss)
    ensures r == ProfitLossOf(accounts, TransactionsInRange(entries, Between(start, end)))
    ensures r.netIncome == r.totalRevenue - r.totalExpenses
  {
    var transactions := TransactionsInRange(entries, Between(start, end));
    var balances := CalculateAccountBalances(accounts, transactions);
    GetOfIsBalanceOf(balances, accounts, transactions);
    var totalRevenue := GroupTotal(Filter(accounts, InGroup(Income)), balances);
    SumOfCongruent(Filter(accounts, InGroup(Income)), GetOf(balances), BalanceOf(accounts, transactions));
    var totalExpenses := GroupTotal(Filter(accounts, InGroup(Expenses)), balances);
    SumOfCongruent(Filter(accounts, InGroup(Expenses)), GetOf(balances), BalanceOf(accounts, transactions));
    r := ProfitLoss(totalRevenue, totalExpenses, totalRevenue - totalExpenses);
  }

  /** `Math.max`. */
  function Max(x: real, y: real): real
  {
    if x < y then y else x
  }

  /**
   * The two cells of a trial-balance row, from the account's type and its
   * normal-side balance: they hold the net on the debit or on the credit
   * side, never both, and debit minus credit is the net.
   */
  function TrialBalanceCells(accountType: string, balance: real): (r: (real, real))
    ensures r.0 >= 0.0 && r.1 >= 0.0 && (r.0 == 0.0 || r.1 == 0.0)
    ensures r.0 - r.1 == NormalBalance(accountType, balance)
  {
    var isDebitNormal := IsDebitBalance(accountType);
    var debit := if isDebitNormal then Max(balance, 0.0) else Max(-balance, 0.0);
    var credit := if isDebitNormal then Max(-balance, 0.0) else Max(balance, 0.0);
    (debit, credit)
  }

  /** Whatever the normal side, the debit cell is max(D-C, 0) and the credit cell max(C-D, 0). */
  lemma TrialBalanceCellsOfNet(accountType: string, net: real)
    ensures TrialBalanceCells(accountType, NormalBalance(accountType, net)) == (Max(net, 0.0), Max(-net, 0.0))
  {
  }

  /** The debit cell of each account's row, for the balances `f` gives the accounts. */
  function DebitCell(f: Account -> real): Account -> real
  {
    (a: Account) => TrialBalanceCells(a.accountType, f(a)).0
  }

  function CreditCell(f: Account -> real): Account -> real
  {
    (a: Account) => TrialBalanceCells(a.accountType, f(a)).1
  }

  /** The loop over the accounts of generateTrialBalance, adding each nonzero balance's cells to the column totals. */
  method ColumnTotals(accounts: seq<Account>, balances: map<int, real>) returns (totalDebits: real, totalCredits: real)
    ensures totalDebits == SumOf(accounts, DebitCell(GetOf(balances)))
    ensures totalCredits == SumOf(accounts, CreditCell(GetOf(balances)))
  {
    totalDebits, totalCredits := 0.0, 0.0;
    var k := 0;
    while k < |accounts|
      invariant 0 <= k <= |accounts|
      invariant totalDebits == SumOf(accounts[..k], DebitCell(GetOf(balances)))
      invariant totalCredits == SumOf(accounts[..k], CreditCell(GetOf(balances)))
    {
      var account := accounts[k];
      var balance := Get(balances, account.id);
      SumOfStep(accounts, k, DebitCell(GetOf(balances)));
      SumOfStep(accounts, k, CreditCell(GetOf(balances)));
      if balance != 0.0 {
        var cells := TrialBalanceCells(account.accountType, balance);
        totalDebits := totalDebits + cells.0;
        totalCredits := totalCredits + cells.1;
      }
      k := k + 1;
    }
    assert accounts[..|accounts|] == accounts;
  }

  /** generateTrialBalance: the debit and credit column totals over the entries up to the as-of date. */
  method GenerateTrialBalance(accounts: seq<Account>, entries: seq<Entry>, asOf: Date)
    returns (totalDebits: real, totalCredits: real)
    ensures totalDebits == SumOf(accounts, DebitCell(BalanceOf(accounts, TransactionsInRange(entries, AsOf(asOf)))))
    ensures totalCredits == SumOf(accounts, CreditCell(BalanceOf(accounts, TransactionsInRange(entries, AsOf(asOf)))))
    ensures ConsistentBooks(accounts, entries) ==> totalDebits == totalCredits
  {
    var transactions := TransactionsInRange(entries, AsOf(asOf));
    var balances := CalculateAccountBalances(accounts, transactions);
    totalDebits, totalCredits := ColumnTotals(accounts, balances);
    GetOfIsBalanceOf(balances, accounts, transactions);
    SumOfCongruent(accounts, DebitCell(GetOf(balances)), DebitCell(BalanceOf(accounts, transactions)));
    SumOfCongruent(accounts, CreditCell(GetOf(balances)), CreditCell(BalanceOf(accounts, transactions)));
    if ConsistentBooks(accounts, entries) {
      TrialBalanceTiesOut(accounts, entries, transactions);
    }
  }

  /** Entries taken from consistent books are consistent books. */
  lemma ConsistentSubset(accounts: seq<Account>, entries: seq<Entry>, sub: seq<Entry>)
    requires ConsistentBooks(accounts, entries)
    requires forall e :: e in sub ==> e in entries
    ensures ConsistentBooks(accounts, sub)
  {
  }

  /** When every entry balances and posts to registered accounts, the two trial-balance columns are equal. */
  lemma TrialBalanceTiesOut(accounts: seq<Account>, entries: seq<Entry>, transactions: seq<Entry>)
    requires ConsistentBooks(accounts, entries)
    requires forall e :: e in transactions ==> e in entries
    ensures SumOf(accounts, DebitCell(BalanceOf(accounts, transactions))) == SumOf(accounts, CreditCell(BalanceOf(accounts, transactions)))
  {
    ConsistentSubset(accounts, entries, transactions);
    forall a | a in accounts
      ensures DebitCell(BalanceOf(accounts, transactions))(a)
           == CreditCell(BalanceOf(accounts, transactions))(a) + AccountNet(transactions)(a)
    {
      FindRegistered(accounts, a);
    }
    SumOfAdd(accounts, CreditCell(BalanceOf(accounts, transactions)), AccountNet(transactions), DebitCell(BalanceOf(accounts, transactions)));
    NetsSumToZero(accounts, transactions);
  }

  /** The trial-balance totals do not depend on the order the accounts are listed in (the report sorts by code). */
  lemma TrialBalanceOrderFree(accounts: seq<Account>, sorted: seq<Account>, transactions: seq<Entry>)
    requires multiset(sorted) == multiset(accounts)
    ensures SumOf(sorted, DebitCell(BalanceOf(accounts, transactions))) == SumOf(accounts, DebitCell(BalanceOf(accounts, transactions)))
    ensures SumOf(sorted, CreditCell(BalanceOf(accounts, transactions))) == SumOf(accounts, CreditCell(BalanceOf(accounts, transactions)))
  {
    SumOfPermutation(sorted, accounts, DebitCell(BalanceOf(accounts, transactions)));
    SumOfPermutation(sorted, accounts, CreditCell(BalanceOf(accounts, transactions)));
  }

  /** The current year of an as-of date: January 1st to the as-of date, bounds included. */
  function CurrentYear(asOf: Date): Period
  {
    Between(YearStart(asOf), asOf)
  }

  /** Dated before January 1st of the as-of date's year. */
  function PriorYears(asOf: Date): Entry -> bool
  {
    (e: Entry) => DayKey(e.date) < DayKey(YearStart(asOf))
  }

  /** The reduce of generateBalanceSheet that splits the as-of entries into current-year and prior-year ones. */
  method SplitByYear(transactions: seq<Entry>, asOf: Date) returns (current: seq<Entry>, prior: seq<Entry>)
    ensures current == Filter(transactions, DatedIn(CurrentYear(asOf)))
    ensures prior == Filter(transactions, PriorYears(asOf))
  {
    current, prior := [], [];
    var i := 0;
    while i < |transactions|
      invariant 0 <= i <= |transactions|
      invariant current == Filter(transactions[..i], DatedIn(CurrentYear(asOf)))
      invariant prior == Filter(transactions[..i], PriorYears(asOf))
    {
      var t := transactions[i];
      assert transactions[..i + 1][..i] == transactions[..i];
      if DayKey(t.date) >= DayKey(YearStart(asOf)) && DayKey(t.date) <= DayKey(asOf) {
        current := current + [t];
      } else if DayKey(t.date) < DayKey(YearStart(asOf)) {
        prior := prior + [t];
      }
      i := i + 1;
    }
    assert transactions[..|transactions|] == transactions;
  }

  /** Within the entries up to the as-of date, every entry is in exactly one of the two years' sets. */
  lemma YearSplitPartition(entries: seq<Entry>, asOf: Date)
    ensures forall e :: e in TransactionsInRange(entries, AsOf(asOf)) ==>
      DatedIn(CurrentYear(asOf))(e) != PriorYears(asOf)(e)
  {
  }

  /** For valid dates, the prior-year set holds exactly the entries of earlier calendar years. */
  lemma PriorYearsByYear(e: Entry, asOf: Date)
    requires ValidDate(e.date)
    ensures PriorYears(asOf)(e) <==> e.date.year < asOf.year
  {
    YearStartBound(e.date, asOf);
  }

  /** Net income of a set of entries: revenue-group balances minus expense-group balances. */
  function Earnings(accounts: seq<Account>, entries: seq<Entry>): real
  {
    ProfitLossOf(accounts, entries).netIncome
  }

  /** The figures of the balance sheet and whether its self-check warns. */
  datatype BalanceSheet = BalanceSheet(
    totalAssets: real, totalLiabilities: real, directEquity: real,
    retainedEarnings: real, currentYearEarnings: real,
    totalEquity: real, totalLiabilitiesAndEquity: real, warned: bool)

  function Abs(x: real): real
  {
    if x < 0.0 then -x else x
  }

  /**
   * The balance sheet as of a date: assets and liabilities by section,
   * equity as the equity accounts plus the prior years' earnings
   * (retained earnings) plus the current year's earnings.
   */
  function BalanceSheetOf(accounts: seq<Account>, entries: seq<Entry>, asOf: Date): BalanceSheet
  {
    var transactions := TransactionsInRange(entries, AsOf(asOf));
    var f := BalanceOf(accounts, transactions);
    var assets := SectionSum(accounts, AssetTypes, f);
    var liabilities := SectionSum(accounts, LiabilityTypes, f);
    var direct := SumOf(Filter(accounts, OfType(EquityType)), f);
    var retained := Earnings(accounts, Filter(transactions, PriorYears(asOf)));
    var current := Earnings(accounts, Filter(transactions, DatedIn(CurrentYear(asOf))));
    var equity := direct + retained + current;
    BalanceSheet(assets, liabilities, direct, retained, current, equity,
                 liabilities + equity, Abs(assets - (liabilities + equity)) > 0.01)
  }

  /** Every account has one of the types the account form offers. */
  predicate OfferedOnly(accounts: seq<Account>)
  {
    forall a :: a in accounts ==> a.accountType in OfferedTypes
  }

  /** The revenue-group and expense-group loops over one set of balances. */
  method EarningsOf(accounts: seq<Account>, ghost entries: seq<Entry>, balances: map<int, real>) returns (earnings: real)
    requires BalancesOf(balances, accounts, entries)
    ensures earnings == Earnings(accounts, entries)
  {
    GetOfIsBalanceOf(balances, accounts, entries);
    var revenue := GroupTotal(Filter(accounts, InGroup(Income)), balances);
    SumOfCongruent(Filter(accounts, InGroup(Income)), GetOf(balances), BalanceOf(accounts, entries));
    var expenses := GroupTotal(Filter(accounts, InGroup(Expenses)), balances);
    SumOfCongruent(Filter(accounts, InGroup(Expenses)), GetOf(balances), BalanceOf(accounts, entries));
    earnings := revenue - expenses;
  }

  /** The equity part of generateBalanceSheet: equity accounts, then prior-year and current-year earnings. */
  method EquityParts(accounts: seq<Account>, transactions: seq<Entry>, balances: map<int, real>, asOf: Date)
    returns (directEquity: real, retainedEarnings: real, currentYearEarnings: real)
    requires BalancesOf(balances, accounts, transactions)
    ensures directEquity == SumOf(Filter(accounts, OfType(EquityType)), BalanceOf(accounts, transactions))
    ensures retainedEarnings == Earnings(accounts, Filter(transactions, PriorYears(asOf)))
    ensures currentYearEarnings == Earnings(accounts, Filter(transactions, DatedIn(CurrentYear(asOf))))
  {
    var current, prior := SplitByYear(transactions, asOf);
    GetOfIsBalanceOf(balances, accounts, transactions);
    directEquity := GroupTotal(Filter(accounts, OfType(EquityType)), balances);
    SumOfCongruent(Filter(accounts, OfType(EquityType)), GetOf(balances), BalanceOf(accounts, transactions));
    var priorBalances := CalculateAccountBalances(accounts, prior);
    retainedEarnings := EarningsOf(accounts, prior, priorBalances);
    var currentBalances := CalculateAccountBalances(accounts, current);
    currentYearEarnings := EarningsOf(accounts, current, currentBalances);
  }

  /**
   * generateBalanceSheet. When every entry balances, posts to registered
   * accounts with unique ids and every account has an offered type, assets
   * equal liabilities plus equity and the self-check does not warn.
   */
  method GenerateBalanceSheet(accounts: seq<Account>, entries: seq<Entry>, asOf: Date) returns (sheet: BalanceSheet)
    ensures sheet == BalanceSheetOf(accounts, entries, asOf)
    ensures ConsistentBooks(accounts, entries) && OfferedOnly(accounts) ==>
      sheet.totalAssets == sheet.totalLiabilitiesAndEquity && !sheet.warned
  {
    var transactions := TransactionsInRange(entries, AsOf(asOf));
    var balances := CalculateAccountBalances(accounts, transactions);
    GetOfIsBalanceOf(balances, accounts, transactions);
    var totalAssets := SectionTotal(accounts, balances, AssetTypes);
    SectionSumCongruent(accounts, AssetTypes, GetOf(balances), BalanceOf(accounts, transactions));
    var totalLiabilities := SectionTotal(accounts, balances, LiabilityTypes);
    SectionSumCongruent(accounts, LiabilityTypes, GetOf(balances), BalanceOf(accounts, transactions));
    var directEquity, retainedEarnings, currentYearEarnings := EquityParts(accounts, transactions, balances, asOf);
    var totalEquity := directEquity + retainedEarnings + currentYearEarnings;
    var totalLiabilitiesAndEquity := totalLiabilities + totalEquity;
    var warned := Abs(totalAssets - totalLiabilitiesAndEquity) > 0.01;
    sheet := BalanceSheet(totalAssets, totalLiabilities, directEquity, retainedEarnings, currentYearEarnings,
                          totalEquity, totalLiabilitiesAndEquity, warned);
    assert sheet == BalanceSheetOf(accounts, entries, asOf);
    if ConsistentBooks(accounts, entries) && OfferedOnly(accounts) {
      BalanceSheetBalances(accounts, entries, asOf);
    }
  }

  /** The net of `entries` on the accounts of group `p`, zero on the others. */
  function Masked(entries: seq<Entry>, p: Account -> bool): Account -> real
  {
    (a: Account) => if p(a) then Net(entries, a.id) else 0.0
  }

  /** `f` on accounts whose type is listed, zero on the others. */
  function TypeMasked(types: seq<string>, f: Account -> real): Account -> real
  {
    (a: Account) => if a.accountType in types then f(a) else 0.0
  }

  predicate DistinctTypes(types: seq<string>)
  {
    forall i, j :: 0 <= i < j < |types| ==> types[i] != types[j]
  }

  /** Walking distinct types one group at a time sums over the accounts of any listed type. */
  lemma {:induction false} SectionSumMasked(accounts: seq<Account>, types: seq<string>, f: Account -> real)
    requires DistinctTypes(types)
    ensures SectionSum(accounts, types, f) == SumOf(accounts, TypeMasked(types, f))
    decreases |types|
  {
    if |types| == 0 {
      SumOfZero(accounts, TypeMasked(types, f));
    } else {
      var init := types[..|types| - 1];
      var t := types[|types| - 1];
      assert types == init + [t];
      SectionSumMasked(accounts, init, f);
      SumOfFilter(accounts, OfType(t), f, TypeMasked([t], f));
      forall a | a in accounts
        ensures TypeMasked(types, f)(a) == TypeMasked(init, f)(a) + TypeMasked([t], f)(a)
      {
        assert t !in init by {
          forall k | 0 <= k < |init| ensures init[k] != t {
            assert types[k] != types[|types| - 1];
          }
        }
      }
      SumOfAdd(accounts, TypeMasked(init, f), TypeMasked([t], f), TypeMasked(types, f));
    }
  }

  /**
   * A group whose accounts are all on the same normal side sums, in balances,
   * to its accounts' nets, negated for the credit side.
   */
  lemma GroupAsNet(accounts: seq<Account>, entries: seq<Entry>, p: Account -> bool, debitNormal: bool)
    requires UniqueIds(accounts)
    requires forall a :: a in accounts && p(a) ==> IsDebitBalance(a.accountType) == debitNormal
    ensures SumOf(Filter(accounts, p), BalanceOf(accounts, entries))
         == if debitNormal then SumOf(accounts, Masked(entries, p)) else -SumOf(accounts, Masked(entries, p))
  {
    var g := (a: Account) => if p(a) then BalanceOf(accounts, entries)(a) else 0.0;
    SumOfFilter(accounts, p, BalanceOf(accounts, entries), g);
    forall a | a in accounts && p(a)
      ensures Balance(accounts, entries, a.id) == NormalBalance(a.accountType, Net(entries, a.id))
    {
      FindRegistered(accounts, a);
    }
    if debitNormal {
      SumOfCongruent(accounts, g, Masked(entries, p));
    } else {
      SumOfNegate(accounts, Masked(entries, p), g);
    }
  }

  /** The as-of entries' net on an account is the prior years' net plus the current year's. */
  lemma NetSplitByYear(transactions: seq<Entry>, asOf: Date, id: int)
    requires forall e :: e in transactions ==> DatedIn(CurrentYear(asOf))(e) != PriorYears(asOf)(e)
    ensures Net(transactions, id)
         == Net(Filter(transactions, PriorYears(asOf)), id) + Net(Filter(transactions, DatedIn(CurrentYear(asOf))), id)
  {
    SumOfPartition(transactions, PriorYears(asOf), DatedIn(CurrentYear(asOf)), EntryNet(id));
  }

  /** Normal-side balances are additive over a split of the entries. */
  lemma EarningsSplit(accounts: seq<Account>, whole: seq<Entry>, a: seq<Entry>, b: seq<Entry>)
    requires forall id :: Net(whole, id) == Net(a, id) + Net(b, id)
    ensures Earnings(accounts, whole) == Earnings(accounts, a) + Earnings(accounts, b)
  {
    forall x ensures BalanceOf(accounts, whole)(x) == BalanceOf(accounts, a)(x) + BalanceOf(accounts, b)(x) {
      assert Net(whole, x.id) == Net(a, x.id) + Net(b, x.id);
    }
    SumOfAdd(Filter(accounts, InGroup(Income)), BalanceOf(accounts, a), BalanceOf(accounts, b), BalanceOf(accounts, whole));
    SumOfAdd(Filter(accounts, InGroup(Expenses)), BalanceOf(accounts, a), BalanceOf(accounts, b), BalanceOf(accounts, whole));
  }

  /** The accounts whose type is listed. */
  function InTypes(types: seq<string>): Account -> bool
  {
    (a: Account) => a.accountType in types
  }

  /**
   * A section of distinct types all on one normal side sums, in balances, to
   * the nets of its accounts, negated for the credit side.
   */
  lemma SectionAsNet(accounts: seq<Account>, entries: seq<Entry>, types: seq<string>, debitNormal: bool)
    requires UniqueIds(accounts) && DistinctTypes(types)
    requires forall t :: t in types ==> IsDebitBalance(t) == debitNormal
    ensures SectionSum(accounts, types, BalanceOf(accounts, entries))
         == if debitNormal then SumOf(accounts, Masked(entries, InTypes(types))) else -SumOf(accounts, Masked(entries, InTypes(types)))
  {
    SectionSumMasked(accounts, types, BalanceOf(accounts, entries));
    forall a | a in accounts && a.accountType in types
      ensures Balance(accounts, entries, a.id) == NormalBalance(a.accountType, Net(entries, a.id))
    {
      FindRegistered(accounts, a);
    }
    if debitNormal {
      SumOfCongruent(accounts, TypeMasked(types, BalanceOf(accounts, entries)), Masked(entries, InTypes(types)));
    } else {
      SumOfNegate(accounts, Masked(entries, InTypes(types)), TypeMasked(types, BalanceOf(accounts, entries)));
    }
  }

  /** The asset section, in balances, is the sum of the asset accounts' nets. */
  lemma AssetsAsNet(accounts: seq<Account>, entries: seq<Entry>)
    requires UniqueIds(accounts)
    ensures SectionSum(accounts, AssetTypes, BalanceOf(accounts, entries)) == SumOf(accounts, Masked(entries, InGroup(Assets)))
  {
    forall t | t in AssetTypes ensures IsDebitBalance(t) {
      AssetTypeSection(t);
    }
    SectionAsNet(accounts, entries, AssetTypes, true);
    SumOfCongruent(accounts, Masked(entries, InTypes(AssetTypes)), Masked(entries, InGroup(Assets)));
  }

  /** The liability section, in balances, is the liability accounts' nets negated. */
  lemma LiabilitiesAsNet(accounts: seq<Account>, entries: seq<Entry>)
    requires UniqueIds(accounts)
    ensures SectionSum(accounts, LiabilityTypes, BalanceOf(accounts, entries)) == -SumOf(accounts, Masked(entries, InGroup(Liabilities)))
  {
    forall t | t in LiabilityTypes ensures !IsDebitBalance(t) {
      LiabilityTypeSection(t);
    }
    SectionAsNet(accounts, entries, LiabilityTypes, false);
    SumOfCongruent(accounts, Masked(entries, InTypes(LiabilityTypes)), Masked(entries, InGroup(Liabilities)));
  }

  /** The equity accounts, in balances, are their nets negated. */
  lemma EquityAsNet(accounts: seq<Account>, entries: seq<Entry>)
    requires UniqueIds(accounts)
    ensures SumOf(Filter(accounts, OfType(EquityType)), BalanceOf(accounts, entries))
         == -SumOf(accounts, Masked(entries, InGroup(EquitySection)))
  {
    GroupAsNet(accounts, entries, OfType(EquityType), false);
    SumOfCongruent(accounts, Masked(entries, OfType(EquityType)), Masked(entries, InGroup(EquitySection)));
  }

  /** With offered types only, net income is minus the nets of the revenue-group and expense-group accounts. */
  lemma EarningsAsNet(accounts: seq<Account>, entries: seq<Entry>)
    requires UniqueIds(accounts) && OfferedOnly(accounts)
    ensures Earnings(accounts, entries)
         == -SumOf(accounts, Masked(entries, InGroup(Income))) - SumOf(accounts, Masked(entries, InGroup(Expenses)))
  {
    forall a | a in accounts
      ensures (InGroup(Income)(a) ==> !IsDebitBalance(a.accountType))
           && (InGroup(Expenses)(a) ==> IsDebitBalance(a.accountType))
    {
      OfferedTypeClassification(a.accountType);
    }
    GroupAsNet(accounts, entries, InGroup(Income), false);
    GroupAsNet(accounts, entries, InGroup(Expenses), true);
  }

  /** With offered types only, every account is in exactly one section, so the sections' nets add up to all nets. */
  lemma SectionsCoverNets(accounts: seq<Account>, entries: seq<Entry>)
    requires OfferedOnly(accounts)
    ensures SumOf(accounts, Masked(entries, InGroup(Assets))) + SumOf(accounts, Masked(entries, InGroup(Liabilities)))
          + SumOf(accounts, Masked(entries, InGroup(EquitySection))) + SumOf(accounts, Masked(entries, InGroup(Income)))
          + SumOf(accounts, Masked(entries, InGroup(Expenses)))
         == SumOf(accounts, AccountNet(entries))
  {
    var mA, mL, mE := Masked(entries, InGroup(Assets)), Masked(entries, InGroup(Liabilities)), Masked(entries, InGroup(EquitySection));
    var mI, mX := Masked(entries, InGroup(Income)), Masked(entries, InGroup(Expenses));
    var h1 := (a: Account) => mA(a) + mL(a);
    var h2 := (a: Account) => h1(a) + mE(a);
    var h3 := (a: Account) => h2(a) + mI(a);
    forall a | a in accounts ensures AccountNet(entries)(a) == h3(a) + mX(a) {
      OfferedTypeClassification(a.accountType);
    }
    SumOfAdd(accounts, mA, mL, h1);
    SumOfAdd(accounts, h1, mE, h2);
    SumOfAdd(accounts, h2, mI, h3);
    SumOfAdd(accounts, h3, mX, AccountNet(entries));
  }

  /**
   * The accounting equation: for consistent books whose accounts all have
   * offered types, total assets equal total liabilities plus total equity
   * (equity accounts, retained earnings and current-year earnings), so the
   * 0.01 self-check never warns.
   */
  lemma BalanceSheetBalances(accounts: seq<Account>, entries: seq<Entry>, asOf: Date)
    requires ConsistentBooks(accounts, entries) && OfferedOnly(accounts)
    ensures BalanceSheetOf(accounts, entries, asOf).totalAssets == BalanceSheetOf(accounts, entries, asOf).totalLiabilitiesAndEquity
    ensures !BalanceSheetOf(accounts, entries, asOf).warned
  {
    var transactions := TransactionsInRange(entries, AsOf(asOf));
    ConsistentSubset(accounts, entries, transactions);
    YearSplitPartition(entries, asOf);
    forall id ensures Net(transactions, id)
         == Net(Filter(transactions, PriorYears(asOf)), id) + Net(Filter(transactions, DatedIn(CurrentYear(asOf))), id)
    {
      NetSplitByYear(transactions, asOf, id);
    }
    EarningsSplit(accounts, transactions, Filter(transactions, PriorYears(asOf)), Filter(transactions, DatedIn(CurrentYear(asOf))));
    AssetsAsNet(accounts, transactions);
    LiabilitiesAsNet(accounts, transactions);
    EquityAsNet(accounts, transactions);
    EarningsAsNet(accounts, transactions);
    SectionsCoverNets(accounts, transactions);
    NetsSumToZero(accounts, transactions);
  }

  /**
   * A profit & loss statement from January 1st to the as-of date reports the
   * same net income the balance sheet shows as current-year earnings.
   */
  lemma ProfitLossIsCurrentYearEarnings(accounts: seq<Account>, entries: seq<Entry>, asOf: Date)
    ensures ProfitLossOf(accounts, TransactionsInRange(entries, CurrentYear(asOf))).netIncome
         == BalanceSheetOf(accounts, entries, asOf).currentYearEarnings
  {
    FilterNarrow(entries, DatedIn(AsOf(asOf)), DatedIn(CurrentYear(asOf)));
  }

  function TouchesAccount(id: int): Entry -> bool
  {
    (e: Entry) => Touches(e, id)
  }

  function OnAccount(id: int): LineItem -> bool
  {
    (l: LineItem) => l.accountId == id
  }

  /** The lines an account's general-ledger section lists: its lines in the entries touching it, sorted by date. */
  function LedgerLinesOf(transactions: seq<Entry>, id: int): seq<LineItem>
  {
    Filter(AllLines(SortByKey(Filter(transactions, TouchesAccount(id)), EntryDay())), OnAccount(id))
  }

  /** Each row shows, on the account's normal side, the net of every listed line up to and including its own. */
  predicate NormalRunning(rows: seq<real>, accountType: string, lines: seq<LineItem>)
  {
    |rows| == |lines| && forall k :: 0 <= k < |rows| ==> rows[k] == NormalBalance(accountType, SignedTotal(lines[..k + 1]))
  }

  /**
   * One account's section of generateGeneralLedger: the entries touching the
   * account, sorted by date, and in each the lines on the account, each
   * adding its change to a running balance that every row shows. The last
   * row shows the account's closing balance on its own normal side.
   */
  method AccountLedger(account: Account, transactions: seq<Entry>) returns (rows: seq<real>, closing: real)
    ensures NormalRunning(rows, account.accountType, LedgerLinesOf(transactions, account.id))
    ensures closing == NormalBalance(account.accountType, Net(transactions, account.id))
    ensures |rows| > 0 ==> rows[|rows| - 1] == closing
  {
    var id := account.id;
    var touching := Filter(transactions, TouchesAccount(id));
    var accountTransactions := SortByKey(touching, EntryDay());
    rows, closing := [], 0.0;
    var i := 0;
    while i < |accountTransactions|
      invariant 0 <= i <= |accountTransactions|
      invariant NormalRunning(rows, account.accountType, Filter(AllLines(accountTransactions[..i]), OnAccount(id)))
      invariant closing == NormalBalance(account.accountType, SignedTotal(Filter(AllLines(accountTransactions[..i]), OnAccount(id))))
      invariant |rows| > 0 ==> rows[|rows| - 1] == closing
    {
      var rows', closing' := LedgerLines(account, accountTransactions[i], rows, closing);
      LedgerSectionStep(account.accountType, accountTransactions, i, id, rows, closing, rows', closing');
      rows, closing := rows', closing';
      i := i + 1;
    }
    assert accountTransactions[..|accountTransactions|] == accountTransactions;
    LedgerLinesNet(accountTransactions, id);
    LedgerEntriesNet(transactions, id);
  }

  /** One more entry's rows, appended by LedgerLines, keep the section running. */
  lemma LedgerSectionStep(accountType: string, entries: seq<Entry>, i: nat, id: int,
                          rows: seq<real>, closing: real, rows': seq<real>, closing': real)
    requires i < |entries|
    requires NormalRunning(rows, accountType, Filter(AllLines(entries[..i]), OnAccount(id)))
    requires closing == NormalBalance(accountType, SignedTotal(Filter(AllLines(entries[..i]), OnAccount(id))))
    requires Continues(rows', rows, closing, accountType, Filter(entries[i].lineItems, OnAccount(id)))
    requires closing' == closing + NormalBalance(accountType, EntryNet(id)(entries[i]))
    ensures NormalRunning(rows', accountType, Filter(AllLines(entries[..i + 1]), OnAccount(id)))
    ensures closing' == NormalBalance(accountType, SignedTotal(Filter(AllLines(entries[..i + 1]), OnAccount(id))))
  {
    var shown := Filter(AllLines(entries[..i]), OnAccount(id));
    var items := Filter(entries[i].lineItems, OnAccount(id));
    ShownLinesStep(entries, i, id);
    AppendedRunning(accountType, rows, shown, rows', items);
    SumOfFilter(entries[i].lineItems, OnAccount(id), SignedOf(), LineNet(id));
    SumOfAppend(shown, items, SignedOf());
  }

  /** The listed lines of one more entry are the earlier ones followed by that entry's lines on the account. */
  lemma ShownLinesStep(entries: seq<Entry>, i: nat, id: int)
    requires i < |entries|
    ensures Filter(AllLines(entries[..i + 1]), OnAccount(id))
         == Filter(AllLines(entries[..i]), OnAccount(id)) + Filter(entries[i].lineItems, OnAccount(id))
  {
    assert entries[..i + 1][..i] == entries[..i];
    FilterAppend(AllLines(entries[..i]), entries[i].lineItems, OnAccount(id));
  }

  /** Rows continuing a running section from its last balance keep it running over the appended lines. */
  lemma AppendedRunning(accountType: string, rows: seq<real>, shown: seq<LineItem>, rows': seq<real>, items: seq<LineItem>)
    requires NormalRunning(rows, accountType, shown)
    requires Continues(rows', rows, NormalBalance(accountType, SignedTotal(shown)), accountType, items)
    ensures NormalRunning(rows', accountType, shown + items)
  {
    var lines := shown + items;
    forall k | 0 <= k < |rows'|
      ensures rows'[k] == NormalBalance(accountType, SignedTotal(lines[..k + 1]))
    {
      if k < |rows| {
        assert rows'[k] == rows[k];
        assert lines[..k + 1] == shown[..k + 1];
      } else {
        var j := k - |rows|;
        assert lines[..k + 1] == shown + items[..j + 1];
        SumOfAppend(shown, items[..j + 1], SignedOf());
      }
    }
  }

  /** The listed lines of a sequence of entries net to the account's net over those entries. */
  lemma LedgerLinesNet(entries: seq<Entry>, id: int)
    ensures SignedTotal(Filter(AllLines(entries), OnAccount(id))) == Net(entries, id)
  {
    SumOfFilter(AllLines(entries), OnAccount(id), SignedOf(), LineNet(id));
    AllLinesLineNet(entries, id);
  }

  lemma {:induction false} AllLinesLineNet(entries: seq<Entry>, id: int)
    ensures SumOf(AllLines(entries), LineNet(id)) == Net(entries, id)
    decreases |entries|
  {
    if |entries| > 0 {
      var init := entries[..|entries| - 1];
      AllLinesLineNet(init, id);
      SumOfAppend(AllLines(init), entries[|entries| - 1].lineItems, LineNet(id));
    }
  }

  /** generateGeneralLedger prints an account's section only when some reported entry touches the account. */
  predicate HasEntriesFor(transactions: seq<Entry>, a: Account)
  {
    |transactions| > 0 && (Touches(transactions[|transactions| - 1], a.id) || HasEntriesFor(transactions[..|transactions| - 1], a))
  }

  /** The listing test is the source's: the account's filtered entries are not empty. */
  lemma {:induction false} HasEntriesForIsNonEmptyFilter(transactions: seq<Entry>, a: Account)
    ensures HasEntriesFor(transactions, a) <==> |Filter(transactions, TouchesAccount(a.id))| > 0
    decreases |transactions|
  {
    if |transactions| > 0 {
      HasEntriesForIsNonEmptyFilter(transactions[..|transactions| - 1], a);
    }
  }

  function HasLedgerEntries(transactions: seq<Entry>): Account -> bool
  {
    (a: Account) => HasEntriesFor(transactions, a)
  }

  /**
   * generateGeneralLedger: over the entries dated within the period, one
   * section per account that some of them touch, in chart order, each
   * holding the running rows of AccountLedger.
   */
  method GenerateGeneralLedger(accounts: seq<Account>, entries: seq<Entry>, start: Date, end: Date)
    returns (shown: seq<Account>, sections: seq<seq<real>>)
    ensures shown == Filter(accounts, HasLedgerEntries(TransactionsInRange(entries, Between(start, end))))
    ensures LedgerSections(shown, sections, TransactionsInRange(entries, Between(start, end)))
  {
    var transactions := TransactionsInRange(entries, Between(start, end));
    shown, sections := [], [];
    var i := 0;
    while i < |accounts|
      invariant 0 <= i <= |accounts|
      invariant shown == Filter(accounts[..i], HasLedgerEntries(transactions))
      invariant LedgerSections(shown, sections, transactions)
    {
      assert accounts[..i + 1][..i] == accounts[..i];
      shown, sections := LedgerSection(accounts[i], transactions, shown, sections);
      i := i + 1;
    }
    assert accounts[..i] == accounts;
  }

  /** One account of generateGeneralLedger's loop: its section is added when some entry touches it. */
  method LedgerSection(account: Account, transactions: seq<Entry>, shown: seq<Account>, sections: seq<seq<real>>)
    returns (shown': seq<Account>, sections': seq<seq<real>>)
    requires LedgerSections(shown, sections, transactions)
    ensures shown' == shown + (if HasEntriesFor(transactions, account) then [account] else [])
    ensures LedgerSections(shown', sections', transactions)
  {
    var accountTransactions := Filter(transactions, TouchesAccount(account.id));
    HasEntriesForIsNonEmptyFilter(transactions, account);
    shown', sections' := shown, sections;
    if |accountTransactions| > 0 {
      var rows, closing := AccountLedger(account, transactions);
      LedgerSectionsSnoc(shown, sections, transactions, account, rows);
      shown', sections' := shown + [account], sections + [rows];
    }
  }

  /** One section per shown account, each running over that account's listed lines. */
  predicate LedgerSections(shown: seq<Account>, sections: seq<seq<real>>, transactions: seq<Entry>)
  {
    |sections| == |shown| &&
    forall k :: 0 <= k < |shown| ==> NormalRunning(sections[k], shown[k].accountType, LedgerLinesOf(transactions, shown[k].id))
  }

  lemma LedgerSectionsSnoc(shown: seq<Account>, sections: seq<seq<real>>, transactions: seq<Entry>, account: Account, rows: seq<real>)
    requires LedgerSections(shown, sections, transactions)
    requires NormalRunning(rows, account.accountType, LedgerLinesOf(transactions, account.id))
    ensures LedgerSections(shown + [account], sections + [rows], transactions)
  {
    var shown', sections' := shown + [account], sections + [rows];
    forall k | 0 <= k < |shown'|
      ensures NormalRunning(sections'[k], shown'[k].accountType, LedgerLinesOf(transactions, shown'[k].id))
    {
      if k < |shown| {
        assert sections'[k] == sections[k] && shown'[k] == shown[k];
      }
    }
  }

  /** Keeping only the entries that touch an account, in date order, leaves its net unchanged. */
  lemma LedgerEntriesNet(transactions: seq<Entry>, id: int)
    ensures Net(SortByKey(Filter(transactions, TouchesAccount(id)), EntryDay()), id) == Net(transactions, id)
  {
    var touching := Filter(transactions, TouchesAccount(id));
    SumOfPermutation(SortByKey(touching, EntryDay()), touching, EntryNet(id));
    forall e | e in transactions
      ensures EntryNet(id)(e) == if TouchesAccount(id)(e) then EntryNet(id)(e) else 0.0
    {
      if !Touches(e, id) {
        UntouchedEntryNet(e, id);
      }
    }
    SumOfFilter(transactions, TouchesAccount(id), EntryNet(id), EntryNet(id));
  }

  /** The lines of one entry that post to the account, each appending the new running balance as a row. */
  method LedgerLines(account: Account, e: Entry, rowsBefore: seq<real>, before: real) returns (rows: seq<real>, running: real)
    requires |rowsBefore| > 0 ==> rowsBefore[|rowsBefore| - 1] == before
    ensures Continues(rows, rowsBefore, before, account.accountType, Filter(e.lineItems, OnAccount(account.id)))
    ensures running == before + NormalBalance(account.accountType, EntryNet(account.id)(e))
    ensures |rows| > 0 ==> rows[|rows| - 1] == running
  {
    var items := Filter(e.lineItems, OnAccount(account.id));
    rows, running := ShowLines(account.accountType, items, rowsBefore, before);
    ContinuesLast(rows, rowsBefore, before, account.accountType, items);
    SumOfFilter(e.lineItems, OnAccount(account.id), SignedOf(), LineNet(account.id));
  }

  /** The `forEach` over the lines on the account: each adds its change and shows the new running balance. */
  method ShowLines(accountType: string, items: seq<LineItem>, rowsBefore: seq<real>, before: real) returns (rows: seq<real>, running: real)
    ensures Continues(rows, rowsBefore, before, accountType, items)
    ensures running == before + NormalBalance(accountType, SignedTotal(items))
  {
    rows, running := rowsBefore, before;
    var j := 0;
    assert rows[..|rowsBefore|] == rowsBefore && items[..0] == [];
    while j < |items|
      invariant 0 <= j <= |items|
      invariant Continues(rows, rowsBefore, before, accountType, items[..j])
      invariant running == before + NormalBalance(accountType, SignedTotal(items[..j]))
    {
      ContinuesStep(rows, rowsBefore, before, accountType, items, j, running);
      running := running + Change(accountType, items[j]);
      rows := rows + [running];
      j := j + 1;
    }
    assert items[..|items|] == items;
  }

  /**
   * `rows` is `rowsBefore` followed by one row per line of `items`, each
   * showing `before` plus the normal-side net of the items up to its own.
   */
  predicate Continues(rows: seq<real>, rowsBefore: seq<real>, before: real, accountType: string, items: seq<LineItem>)
  {
    |rows| == |rowsBefore| + |items| && rows[..|rowsBefore|] == rowsBefore &&
    forall k :: |rowsBefore| <= k < |rows| ==>
      rows[k] == before + NormalBalance(accountType, SignedTotal(items[..k - |rowsBefore| + 1]))
  }

  /** The last continued row shows `before` plus the net of all the items. */
  lemma ContinuesLast(rows: seq<real>, rowsBefore: seq<real>, before: real, accountType: string, items: seq<LineItem>)
    requires Continues(rows, rowsBefore, before, accountType, items)
    requires |rowsBefore| > 0 ==> rowsBefore[|rowsBefore| - 1] == before
    ensures |rows| > 0 ==> rows[|rows| - 1] == before + NormalBalance(accountType, SignedTotal(items))
  {
    if |items| == 0 {
      assert rows == rows[..|rowsBefore|];
    } else {
      assert items[..|rows| - 1 - |rowsBefore| + 1] == items;
    }
  }

  /** Showing item `j` continues the rows by one. */
  lemma ContinuesStep(rows: seq<real>, rowsBefore: seq<real>, before: real, accountType: string, items: seq<LineItem>, j: nat, running: real)
    requires j < |items|
    requires Continues(rows, rowsBefore, before, accountType, items[..j])
    requires running == before + NormalBalance(accountType, SignedTotal(items[..j]))
    ensures Continues(rows + [running + Change(accountType, items[j])], rowsBefore, before, accountType, items[..j + 1])
    ensures running + Change(accountType, items[j]) == before + NormalBalance(accountType, SignedTotal(items[..j + 1]))
  {
    SumOfStep(items, j, SignedOf());
    var rows' := rows + [running + Change(accountType, items[j])];
    assert rows'[..|rowsBefore|] == rows[..|rowsBefore|];
    forall k | |rowsBefore| <= k < |rows'|
      ensures rows'[k] == before + NormalBalance(accountType, SignedTotal(items[..j + 1][..k - |rowsBefore| + 1]))
    {
      if k < |rows| {
        assert rows'[k] == rows[k];
        assert items[..j + 1][..k - |rowsBefore| + 1] == items[..j][..k - |rowsBefore| + 1];
      } else {
        assert items[..j + 1][..k - |rowsBefore| + 1] == items[..j + 1];
      }
    }
  }

  /** With unique ids, an account's general-ledger closing balance is the balance the other reports give it. */
  lemma LedgerClosingIsBalance(accounts: seq<Account>, account: Account, transactions: seq<Entry>)
    requires UniqueIds(accounts) && account in accounts
    ensures NormalBalance(account.accountType, Net(transactions, account.id)) == Balance(accounts, transactions, account.id)
  {
    FindRegistered(accounts, account);
  }
}
