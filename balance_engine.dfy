/**
 * The balance engine of the reports (script.js:1510-1548): account balances
 * by normal side, and the double-entry facts the reports rest on.
 */
module BalanceEngine {
  import opened Wrappers
  import opened Collections
  import opened AccountTypes
  import opened Domain

  /** A net (debits minus credits) expressed on the normal side of an account type. */
  function NormalBalance(accountType: string, net: real): real
  {
    if IsDebitBalance(accountType) then net else -net
  }

  /** The balance the engine gives account `id` for a net of `net`: zero when no account has that id. */
  function Normalized(accounts: seq<Account>, id: int, net: real): real
  {
    match FindAccount(accounts, id)
    case None => 0.0
    case Some(a) => NormalBalance(a.accountType, net)
  }

  /** The balance of account `id` over `entries`, on its normal side. */
  function Balance(accounts: seq<Account>, entries: seq<Entry>, id: int): real
  {
    Normalized(accounts, id, Net(entries, id))
  }

  /** The account ids the lines of `lines` post to. */
  function LineIdsOf(lines: seq<LineItem>): set<int>
  {
    if |lines| == 0 then {} else LineIdsOf(lines[..|lines| - 1]) + {lines[|lines| - 1].accountId}
  }

  /** The account ids some line of `entries` posts to. */
  function LineIds(entries: seq<Entry>): set<int>
  {
    if |entries| == 0 then {} else LineIds(entries[..|entries| - 1]) + LineIdsOf(entries[|entries| - 1].lineItems)
  }

  /** LineIds holds exactly the account ids of the lines of the entries. */
  lemma {:induction false} LineIdsMeaning(entries: seq<Entry>, id: int)
    ensures id in LineIds(entries) <==> exists e :: e in entries && Touches(e, id)
    decreases |entries|
  {
    if |entries| > 0 {
      var init := entries[..|entries| - 1];
      var e := entries[|entries| - 1];
      assert entries == init + [e];
      LineIdsMeaning(init, id);
      LineIdsOfMeaning(e.lineItems, id);
      assert id in LineIdsOf(e.lineItems) <==> Touches(e, id);
      if exists e' :: e' in entries && Touches(e', id) {
        var e' :| e' in entries && Touches(e', id);
        if e' != e {
          assert e' in init;
        }
      } else {
        assert !Touches(e, id);
        assert forall e' :: e' in init ==> e' in entries;
      }
    }
  }

  lemma {:induction false} LineIdsOfMeaning(lines: seq<LineItem>, id: int)
    ensures id in LineIdsOf(lines) <==> exists l :: l in lines && l.accountId == id
    decreases |lines|
  {
    if |lines| > 0 {
      var init := lines[..|lines| - 1];
      assert lines == init + [lines[|lines| - 1]];
      LineIdsOfMeaning(init, id);
    }
  }

  /**
   * What calculateAccountBalances returns: a key for every account id a line
   * posts to (unknown accounts included, at zero) holding that account's
   * balance.
   */
  ghost predicate BalancesOf(balances: map<int, real>, accounts: seq<Account>, entries: seq<Entry>)
  {
    balances.Keys == LineIds(entries)
    && forall id :: id in balances ==> balances[id] == Balance(accounts, entries, id)
  }

  /** `balances[id] || 0`. */
  function Get(balances: map<int, real>, id: int): real
  {
    if id in balances then balances[id] else 0.0
  }

  lemma {:induction false} LinesWithoutId(lines: seq<LineItem>, id: int)
    requires id !in LineIdsOf(lines)
    ensures SumOf(lines, LineNet(id)) == 0.0
    decreases |lines|
  {
    if |lines| > 0 {
      LinesWithoutId(lines[..|lines| - 1], id);
    }
  }

  lemma {:induction false} EntriesWithoutId(entries: seq<Entry>, id: int)
    requires id !in LineIds(entries)
    ensures Net(entries, id) == 0.0
    decreases |entries|
  {
    if |entries| > 0 {
      EntriesWithoutId(entries[..|entries| - 1], id);
      LinesWithoutId(entries[|entries| - 1].lineItems, id);
    }
  }

  /** Reading the map with the `|| 0` default gives every id its balance, also ids no line posts to. */
  lemma {:induction false} GetIsBalance(balances: map<int, real>, accounts: seq<Account>, entries: seq<Entry>, id: int)
    requires BalancesOf(balances, accounts, entries)
    ensures Get(balances, id) == Balance(accounts, entries, id)
  {
    if id !in balances {
      EntriesWithoutId(entries, id);
    }
  }

  /** How one posted line changes the balance of the account it posts to, as the loop body adds it. */
  function Change(accountType: string, item: LineItem): (r: real)
    ensures r == NormalBalance(accountType, Signed(item))
  {
    if item.side == Debit then (if IsDebitBalance(accountType) then item.amount else -item.amount)
    else (if IsDebitBalance(accountType) then -item.amount else item.amount)
  }

  /**
   * calculateAccountBalances: one pass over the entries and their lines,
   * adding each line to its account on the account's normal side.
   */
  method CalculateAccountBalances(accounts: seq<Account>, entries: seq<Entry>) returns (balances: map<int, real>)
    ensures balances.Keys == LineIds(entries)
    ensures forall id :: id in balances ==> balances[id] == Balance(accounts, entries, id)
  {
    balances := map[];
    var i := 0;
    while i < |entries|
      invariant 0 <= i <= |entries|
      invariant balances.Keys == LineIds(entries[..i])
      invariant forall id :: id in balances ==> balances[id] == Balance(accounts, entries[..i], id)
    {
      assert entries[..i + 1] == entries[..i] + [entries[i]];
      balances := PostEntry(accounts, entries[..i], entries[i], balances);
      i := i + 1;
    }
    assert entries[..|entries|] == entries;
  }

  /** The inner `lineItems.forEach` of calculateAccountBalances: posts one entry's lines. */
  method PostEntry(accounts: seq<Account>, ghost done: seq<Entry>, e: Entry, before: map<int, real>)
    returns (balances: map<int, real>)
    requires before.Keys == LineIds(done)
    requires forall id :: id in before ==> before[id] == Balance(accounts, done, id)
    ensures balances.Keys == LineIds(done + [e])
    ensures forall id :: id in balances ==> balances[id] == Balance(accounts, done + [e], id)
  {
    balances := before;
    var lines := e.lineItems;
    var j := 0;
    while j < |lines|
      invariant 0 <= j <= |lines|
      invariant balances.Keys == LineIds(done) + LineIdsOf(lines[..j])
      invariant PostedUpTo(accounts, done, lines, j, balances)
    {
      ghost var was := balances;
      balances := PostLineItem(accounts, balances, lines[j]);
      PostStep(accounts, done, lines, j, was, balances);
      j := j + 1;
    }
    assert lines[..|lines|] == lines;
    EntryStep(accounts, done, e, balances);
  }

  /** The body of the inner loop: initialise a missing key at zero, then add the line's change when its account is known. */
  method PostLineItem(accounts: seq<Account>, before: map<int, real>, item: LineItem) returns (balances: map<int, real>)
    ensures balances == Posted(accounts, before, item)
  {
    balances := before;
    if item.accountId !in balances {
      balances := balances[item.accountId := 0.0];
    }
    var account := FindAccount(accounts, item.accountId);
    if account.Some? {
      balances := balances[item.accountId := balances[item.accountId] + Change(account.value.accountType, item)];
    }
  }

  /** The inner loop's value invariant: the lines before `j` are posted on top of the earlier entries. */
  ghost predicate PostedUpTo(accounts: seq<Account>, done: seq<Entry>, lines: seq<LineItem>, j: nat, balances: map<int, real>)
    requires j <= |lines|
  {
    forall id :: id in balances ==>
      balances[id] == Normalized(accounts, id, Net(done, id) + SumOf(lines[..j], LineNet(id)))
  }

  /** One line further, keys and values: a key not yet in the map has no line posted to it so far. */
  lemma PostStep(accounts: seq<Account>, done: seq<Entry>, lines: seq<LineItem>, j: nat,
                 was: map<int, real>, balances: map<int, real>)
    requires j < |lines|
    requires was.Keys == LineIds(done) + LineIdsOf(lines[..j]) && PostedUpTo(accounts, done, lines, j, was)
    requires balances == Posted(accounts, was, lines[j])
    ensures balances.Keys == LineIds(done) + LineIdsOf(lines[..j + 1]) && PostedUpTo(accounts, done, lines, j + 1, balances)
  {
    var id := lines[j].accountId;
    if id !in was {
      EntriesWithoutId(done, id);
      LinesWithoutId(lines[..j], id);
    }
    LineIdsStep(lines, j);
    PostLine(accounts, done, lines, j, was, balances);
  }

  /** One line further: initialising a missing key at zero and adding the line's change keeps the invariant. */
  lemma {:induction false} PostLine(accounts: seq<Account>, done: seq<Entry>, lines: seq<LineItem>, j: nat,
                                    was: map<int, real>, balances: map<int, real>)
    requires j < |lines| && PostedUpTo(accounts, done, lines, j, was)
    requires lines[j].accountId !in was ==>
      Net(done, lines[j].accountId) + SumOf(lines[..j], LineNet(lines[j].accountId)) == 0.0
    requires balances == Posted(accounts, was, lines[j])
    ensures PostedUpTo(accounts, done, lines, j + 1, balances)
  {
    OthersPosted(accounts, done, lines, j, was, balances);
    OwnPosted(accounts, done, lines, j, was, balances);
  }

  /** The accounts other than the line's keep their values, which stay correct one line further. */
  lemma OthersPosted(accounts: seq<Account>, done: seq<Entry>, lines: seq<LineItem>, j: nat,
                     was: map<int, real>, balances: map<int, real>)
    requires j < |lines| && PostedUpTo(accounts, done, lines, j, was)
    requires balances == Posted(accounts, was, lines[j])
    ensures forall id' :: id' in balances && id' != lines[j].accountId ==>
      balances[id'] == Normalized(accounts, id', Net(done, id') + SumOf(lines[..j + 1], LineNet(id')))
  {
    forall id' | id' in balances && id' != lines[j].accountId
      ensures balances[id'] == Normalized(accounts, id', Net(done, id') + SumOf(lines[..j + 1], LineNet(id')))
    {
      OtherAccountStep(accounts, lines, j, Net(done, id'), id');
    }
  }

  /** The line's own account gets exactly its change added. */
  lemma OwnPosted(accounts: seq<Account>, done: seq<Entry>, lines: seq<LineItem>, j: nat,
                  was: map<int, real>, balances: map<int, real>)
    requires j < |lines| && PostedUpTo(accounts, done, lines, j, was)
    requires lines[j].accountId !in was ==>
      Net(done, lines[j].accountId) + SumOf(lines[..j], LineNet(lines[j].accountId)) == 0.0
    requires balances == Posted(accounts, was, lines[j])
    ensures balances[lines[j].accountId]
         == Normalized(accounts, lines[j].accountId, Net(done, lines[j].accountId) + SumOf(lines[..j + 1], LineNet(lines[j].accountId)))
  {
    var id := lines[j].accountId;
    SumOfStep(lines, j, LineNet(id));
    if FindAccount(accounts, id).Some? {
      PostedAccountStep(accounts, lines, j, Net(done, id), FindAccount(accounts, id).value);
    }
  }

  /** The map after one line: the key initialised at zero if missing, then the change added when the account is known. */
  function Posted(accounts: seq<Account>, was: map<int, real>, item: LineItem): (r: map<int, real>)
    ensures r.Keys == was.Keys + {item.accountId}
    ensures forall id :: id in was && id != item.accountId ==> r[id] == was[id]
    ensures r[item.accountId] == (if item.accountId in was then was[item.accountId] else 0.0)
      + (match FindAccount(accounts, item.accountId)
         case None => 0.0
         case Some(a) => Change(a.accountType, item))
  {
    var id := item.accountId;
    var b := if id in was then was else was[id := 0.0];
    match FindAccount(accounts, id)
    case None => b
    case Some(a) => b[id := b[id] + Change(a.accountType, item)]
  }

  lemma LineIdsStep(lines: seq<LineItem>, j: nat)
    requires j < |lines|
    ensures LineIdsOf(lines[..j + 1]) == LineIdsOf(lines[..j]) + {lines[j].accountId}
  {
    assert lines[..j + 1][..j] == lines[..j];
  }

  lemma OtherAccountStep(accounts: seq<Account>, lines: seq<LineItem>, j: nat, x: real, id: int)
    requires j < |lines| && id != lines[j].accountId
    ensures Normalized(accounts, id, x + SumOf(lines[..j + 1], LineNet(id)))
         == Normalized(accounts, id, x + SumOf(lines[..j], LineNet(id)))
  {
    SumOfStep(lines, j, LineNet(id));
  }

  lemma PostedAccountStep(accounts: seq<Account>, lines: seq<LineItem>, j: nat, x: real, a: Account)
    requires j < |lines| && FindAccount(accounts, lines[j].accountId) == Some(a)
    ensures Normalized(accounts, a.id, x + SumOf(lines[..j + 1], LineNet(a.id)))
         == Normalized(accounts, a.id, x + SumOf(lines[..j], LineNet(a.id))) + Change(a.accountType, lines[j])
  {
    SumOfStep(lines, j, LineNet(a.id));
  }

  /** The outer loop's invariant, one entry further. */
  lemma {:induction false} EntryStep(accounts: seq<Account>, done: seq<Entry>, e: Entry, balances: map<int, real>)
    requires balances.Keys == LineIds(done) + LineIdsOf(e.lineItems)
    requires forall id :: id in balances ==>
      balances[id] == Normalized(accounts, id, Net(done, id) + SumOf(e.lineItems, LineNet(id)))
    ensures balances.Keys == LineIds(done + [e])
    ensures forall id :: id in balances ==> balances[id] == Balance(accounts, done + [e], id)
  {
    forall id ensures Net(done + [e], id) == Net(done, id) + SumOf(e.lineItems, LineNet(id)) {
      NetAppend(done, [e], id);
      SumOfSingle(e, EntryNet(id));
    }
    assert (done + [e])[..|done|] == done;
  }

  /** The balances do not depend on the order of the entries. */
  lemma BalanceOrderIndependent(accounts: seq<Account>, a: seq<Entry>, b: seq<Entry>, id: int)
    requires multiset(a) == multiset(b)
    ensures Balance(accounts, a, id) == Balance(accounts, b, id)
  {
    NetPermutation(a, b, id);
  }

  /** Lines on an account id nobody registered contribute to no balance. */
  lemma UnknownAccountsIgnored(accounts: seq<Account>, entries: seq<Entry>, id: int)
    requires forall a :: a in accounts ==> a.id != id
    ensures Balance(accounts, entries, id) == 0.0
  {
  }

  /** Debit-normal accounts grow with debits, the others with credits. */
  lemma {:induction false} BalanceOfRegistered(accounts: seq<Account>, entries: seq<Entry>, a: Account)
    requires UniqueIds(accounts) && a in accounts
    ensures IsDebitBalance(a.accountType) ==> Balance(accounts, entries, a.id) == Net(entries, a.id)
    ensures !IsDebitBalance(a.accountType) ==> Balance(accounts, entries, a.id) == -Net(entries, a.id)
  {
    FindRegistered(accounts, a);
  }

  /** Crediting a Revenue account 100 against a bank account gives both a balance of +100. */
  lemma {:induction false} CreditRevenueExample()
    ensures
      var bank := Account(1, "1000", "Bank", "Bank Account", "");
      var sales := Account(2, "4000", "Sales", "Revenue", "");
      var entry := Entry(7, Date(2024, 3, 1), "Sale", [
        LineItem(1, "1000 - Bank", "Bank Account", "", Debit, 100.0),
        LineItem(2, "4000 - Sales", "Revenue", "", Credit, 100.0)]);
      Balance([bank, sales], [entry], 2) == 100.0 && Balance([bank, sales], [entry], 1) == 100.0
  {
    var bank := Account(1, "1000", "Bank", "Bank Account", "");
    var sales := Account(2, "4000", "Sales", "Revenue", "");
    var lines := [LineItem(1, "1000 - Bank", "Bank Account", "", Debit, 100.0),
                  LineItem(2, "4000 - Sales", "Revenue", "", Credit, 100.0)];
    var entry := Entry(7, Date(2024, 3, 1), "Sale", lines);
    assert lines[..1] == [lines[0]];
    SumOfSingle(lines[0], LineNet(1));
    SumOfSingle(lines[0], LineNet(2));
    SumOfSingle(entry, EntryNet(1));
    SumOfSingle(entry, EntryNet(2));
    assert Net([entry], 2) == -100.0 && Net([entry], 1) == 100.0;
    assert UniqueIds([bank, sales]);
    RevenueTypeSection("Revenue");
    BalanceOfRegistered([bank, sales], [entry], sales);
    AssetTypeSection("Bank Account");
    BalanceOfRegistered([bank, sales], [entry], bank);
  }

  /** Every line of every entry posts to a registered account. */
  predicate Registered(accounts: seq<Account>, entries: seq<Entry>)
  {
    forall e, l :: e in entries && l in e.lineItems ==> FindAccount(accounts, l.accountId).Some?
  }

  /** Books the double-entry identities hold for: unique ids, balanced entries, registered accounts. */
  predicate ConsistentBooks(accounts: seq<Account>, entries: seq<Entry>)
  {
    UniqueIds(accounts) && Registered(accounts, entries)
    && forall e :: e in entries ==> Balanced(e)
  }

  function AccountLineNet(l: LineItem): Account -> real
  {
    (a: Account) => if l.accountId == a.id then Signed(l) else 0.0
  }

  function AccountLinesNet(lines: seq<LineItem>): Account -> real
  {
    (a: Account) => SumOf(lines, LineNet(a.id))
  }

  /** The net of every account over `entries`. */
  function AccountNet(entries: seq<Entry>): Account -> real
  {
    (a: Account) => Net(entries, a.id)
  }

  function EntrySigned(): Entry -> real
  {
    (e: Entry) => SignedTotal(e.lineItems)
  }

  /** Summed over accounts with unique ids, a line counts once if its account is registered. */
  lemma {:induction false} AccountsOfLine(accounts: seq<Account>, l: LineItem)
    requires UniqueIds(accounts)
    ensures SumOf(accounts, AccountLineNet(l)) == if FindAccount(accounts, l.accountId).Some? then Signed(l) else 0.0
    decreases |accounts|
  {
    if |accounts| > 0 {
      var init := accounts[..|accounts| - 1];
      var last := accounts[|accounts| - 1];
      assert accounts == init + [last];
      AccountsOfLine(init, l);
      if last.id == l.accountId {
        assert FindAccount(init, l.accountId).None? by {
          forall a | a in init ensures a.id != l.accountId {
            var k :| 0 <= k < |init| && init[k] == a;
            assert accounts[k] == a;
          }
        }
      } else {
        assert AccountLineNet(l)(last) == 0.0;
        assert FindAccount(init, l.accountId).Some? <==> FindAccount(accounts, l.accountId).Some? by {
          if FindAccount(accounts, l.accountId).Some? {
            var a := FindAccount(accounts, l.accountId).value;
            assert a in init;
          }
          if FindAccount(init, l.accountId).Some? {
            var a := FindAccount(init, l.accountId).value;
            assert a in accounts;
          }
        }
      }
    }
  }

  /** Summed over accounts, the nets of a list of registered lines add up to the lines' own net. */
  lemma {:induction false} AccountsOfLines(accounts: seq<Account>, lines: seq<LineItem>)
    requires UniqueIds(accounts)
    requires forall l :: l in lines ==> FindAccount(accounts, l.accountId).Some?
    ensures SumOf(accounts, AccountLinesNet(lines)) == SignedTotal(lines)
    decreases |lines|
  {
    if |lines| == 0 {
      SumOfZero(accounts, AccountLinesNet(lines));
    } else {
      var init := lines[..|lines| - 1];
      var l := lines[|lines| - 1];
      AccountsOfLines(accounts, init);
      AccountsOfLine(accounts, l);
      SumOfAdd(accounts, AccountLinesNet(init), AccountLineNet(l), AccountLinesNet(lines));
    }
  }

  /** Summed over accounts, the nets over a journal add up to the journal's debits minus credits. */
  lemma {:induction false} AccountsOfEntries(accounts: seq<Account>, entries: seq<Entry>)
    requires UniqueIds(accounts) && Registered(accounts, entries)
    ensures SumOf(accounts, AccountNet(entries)) == SumOf(entries, EntrySigned())
    decreases |entries|
  {
    if |entries| == 0 {
      SumOfZero(accounts, AccountNet(entries));
    } else {
      var init := entries[..|entries| - 1];
      var e := entries[|entries| - 1];
      assert entries == init + [e];
      AccountsOfEntries(accounts, init);
      AccountsOfLines(accounts, e.lineItems);
      forall a | a in accounts
        ensures AccountNet(entries)(a) == AccountNet(init)(a) + AccountLinesNet(e.lineItems)(a)
      {
        NetAppend(init, [e], a.id);
        SumOfSingle(e, EntryNet(a.id));
      }
      SumOfAdd(accounts, AccountNet(init), AccountLinesNet(e.lineItems), AccountNet(entries));
    }
  }

  /**
   * Double entry: when every entry balances and posts to registered
   * accounts, the nets of all accounts add up to zero.
   */
  lemma NetsSumToZero(accounts: seq<Account>, entries: seq<Entry>)
    requires ConsistentBooks(accounts, entries)
    ensures SumOf(accounts, AccountNet(entries)) == 0.0
  {
    AccountsOfEntries(accounts, entries);
    forall e | e in entries
      ensures EntrySigned()(e) == 0.0
    {
      BalancedNetsToZero(e);
    }
    SumOfZero(entries, EntrySigned());
  }
}
