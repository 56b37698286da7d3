/**
 * The chart of accounts (script.js:1-272) and the start-up loop that adds
 * missing MTM accounts (script.js:1580-1605). Codes and names must be
 * unique ignoring case; every Investment account is meant to have an MTM
 * ("mark to market") partner whose code is the investment's code followed by
 * '1' and whose name is the investment's name followed by ' - MTM'.
 */
module Registry {
  import opened Wrappers
  import opened Collections
  import opened Text
  import opened Domain

  const CodeExists: string := "An account with this code already exists"
  const NameExists: string := "An account with this name already exists"

  const InvestmentType: string := "Investment"
  const MtmType: string := "MTM"

  function MtmCode(code: string): string
  {
    code + "1"
  }

  function MtmName(name: string): string
  {
    name + " - MTM"
  }

  function MtmDescription(name: string): string
  {
    "MTM account for " + name
  }

  /** The MTM partner the account form creates for an investment with this code and name. */
  function MtmAccount(id: int, code: string, name: string): Account
  {
    Account(id, MtmCode(code), MtmName(name), MtmType, MtmDescription(name))
  }

  /** `account.id !== excludeId`, where no `excludeId` excludes nobody. */
  predicate Considered(a: Account, excludeId: Option<int>)
  {
    excludeId.None? || a.id != excludeId.value
  }

  function CodeMatch(code: string, excludeId: Option<int>): Account -> bool
  {
    (a: Account) => SameIgnoringCase(a.code, code) && Considered(a, excludeId)
  }

  function NameMatch(name: string, excludeId: Option<int>): Account -> bool
  {
    (a: Account) => SameIgnoringCase(a.name, name) && Considered(a, excludeId)
  }

  /** Another account already has this code, ignoring case. */
  predicate CodeTaken(accounts: seq<Account>, code: string, excludeId: Option<int>)
  {
    exists a :: a in accounts && SameIgnoringCase(a.code, code) && Considered(a, excludeId)
  }

  /** Another account already has this name, ignoring case. */
  predicate NameTaken(accounts: seq<Account>, name: string, excludeId: Option<int>)
  {
    exists a :: a in accounts && SameIgnoringCase(a.name, name) && Considered(a, excludeId)
  }

  /**
   * validateAccount: the code error when the code is taken (checked first),
   * else the name error when the name is taken, else no error.
   */
  function ValidateAccount(accounts: seq<Account>, code: string, name: string, excludeId: Option<int>): (r: Option<string>)
    ensures r == Some(CodeExists) <==> CodeTaken(accounts, code, excludeId)
    ensures r == Some(NameExists) <==> !CodeTaken(accounts, code, excludeId) && NameTaken(accounts, name, excludeId)
    ensures r == None <==> !CodeTaken(accounts, code, excludeId) && !NameTaken(accounts, name, excludeId)
  {
    FilterMembers(accounts, CodeMatch(code, excludeId));
    FilterMembers(accounts, NameMatch(name, excludeId));
    assert CodeTaken(accounts, code, excludeId) <==> Find(accounts, CodeMatch(code, excludeId)).Some? by {
      if CodeTaken(accounts, code, excludeId) {
        var a :| a in accounts && SameIgnoringCase(a.code, code) && Considered(a, excludeId);
        var k :| 0 <= k < |accounts| && accounts[k] == a;
        assert CodeMatch(code, excludeId)(accounts[k]);
      }
    }
    assert NameTaken(accounts, name, excludeId) <==> Find(accounts, NameMatch(name, excludeId)).Some? by {
      if NameTaken(accounts, name, excludeId) {
        var a :| a in accounts && SameIgnoringCase(a.name, name) && Considered(a, excludeId);
        var k :| 0 <= k < |accounts| && accounts[k] == a;
        assert NameMatch(name, excludeId)(accounts[k]);
      }
    }
    if Find(accounts, CodeMatch(code, excludeId)).Some? then Some(CodeExists)
    else if Find(accounts, NameMatch(name, excludeId)).Some? then Some(NameExists)
    else None
  }

  /**
   * The MTM check of addAccount runs after the investment itself was pushed,
   * but the investment can never collide with its own partner: the partner's
   * code and name are longer than the investment's.
   */
  lemma MtmCheckIgnoresOwner(accounts: seq<Account>, owner: Account)
    ensures ValidateAccount(accounts + [owner], MtmCode(owner.code), MtmName(owner.name), None)
         == ValidateAccount(accounts, MtmCode(owner.code), MtmName(owner.name), None)
  {
    DifferentLengthsDiffer(owner.code, MtmCode(owner.code));
    DifferentLengthsDiffer(owner.name, MtmName(owner.name));
    assert CodeTaken(accounts + [owner], MtmCode(owner.code), None) <==> CodeTaken(accounts, MtmCode(owner.code), None) by {
      if CodeTaken(accounts + [owner], MtmCode(owner.code), None) {
        var a :| a in accounts + [owner] && SameIgnoringCase(a.code, MtmCode(owner.code)) && Considered(a, None);
        assert a in accounts;
      }
    }
    assert NameTaken(accounts + [owner], MtmName(owner.name), None) <==> NameTaken(accounts, MtmName(owner.name), None) by {
      if NameTaken(accounts + [owner], MtmName(owner.name), None) {
        var a :| a in accounts + [owner] && SameIgnoringCase(a.name, MtmName(owner.name)) && Considered(a, None);
        assert a in accounts;
      }
    }
  }

  /** The validation of saveAccountEdit: skipped when neither code nor name changed, else excluding the account itself. */
  function EditError(accounts: seq<Account>, original: Account, code: string, name: string): (r: Option<string>)
    ensures code == original.code && name == original.name ==> r.None?
    ensures r.Some? ==> r == ValidateAccount(accounts, code, name, Some(original.id))
    ensures r.None? ==> ((code == original.code && name == original.name)
      || (!CodeTaken(accounts, code, Some(original.id)) && !NameTaken(accounts, name, Some(original.id))))
  {
    if code != original.code || name != original.name then ValidateAccount(accounts, code, name, Some(original.id))
    else None
  }

  function HasCode(code: string): Account -> bool
  {
    (a: Account) => a.code == code
  }

  /** `this.accounts[index] = updatedAccount` with `index` from findIndex by id; an index of -1 changes no element. */
  function WrittenBack(accounts: seq<Account>, updated: Account): (r: seq<Account>)
    ensures |r| == |accounts|
    ensures FirstIndex(accounts, HasId(updated.id)).None? ==> r == accounts
    ensures FirstIndex(accounts, HasId(updated.id)).Some? ==>
      r == accounts[FirstIndex(accounts, HasId(updated.id)).value := updated]
    ensures forall k :: 0 <= k < |r| ==>
      (r[k] == accounts[k] || (r[k] == updated && accounts[k].id == updated.id && forall j :: 0 <= j < k ==> accounts[j].id != updated.id))
    ensures (exists k :: 0 <= k < |accounts| && accounts[k].id == updated.id) <==> updated in r
  {
    match FirstIndex(accounts, HasId(updated.id))
    case None => accounts
    case Some(i) => accounts[i := updated]
  }

  /** The MTM partner renamed after its investment: new code, name and description, same id and type. */
  function RenamedPair(pair: Account, code: string, name: string): Account
  {
    pair.(code := MtmCode(code), name := MtmName(name), description := MtmDescription(name))
  }

  /**
   * The chart after a successful saveAccountEdit: the edited account written
   * back at its index, then, when the old or the new type is Investment, the
   * partner found by the old code + '1' created, removed or renamed.
   */
  function EditedAccounts(accounts: seq<Account>, original: Account, code: string, name: string,
                          newType: string, description: string, mtmId: int): (r: seq<Account>)
    ensures |accounts| - 1 <= |r| <= |accounts| + 1
    ensures newType == InvestmentType ==>
      exists a :: a in r && (SameIgnoringCase(a.code, MtmCode(code)) || SameIgnoringCase(a.name, MtmName(name)))
  {
    PairMaintained(WrittenBack(accounts, Account(original.id, code, name, newType, description)),
                   original, code, name, newType, mtmId)
  }

  /** The partner handling of saveAccountEdit, on the chart with the edited account already written back. */
  function PairMaintained(written: seq<Account>, original: Account, code: string, name: string,
                          newType: string, mtmId: int): (r: seq<Account>)
    ensures |written| - 1 <= |r| <= |written| + 1
    ensures newType != InvestmentType ==> forall a :: a in r ==> a in written
    ensures newType == InvestmentType ==>
      exists a :: a in r && (SameIgnoringCase(a.code, MtmCode(code)) || SameIgnoringCase(a.name, MtmName(name)))
  {
    if original.accountType != InvestmentType && newType != InvestmentType then written
    else match FirstIndex(written, HasCode(MtmCode(original.code)))
      case None =>
        if newType == InvestmentType && ValidateAccount(written, MtmCode(code), MtmName(name), None).None?
        then
          assert (written + [MtmAccount(mtmId, code, name)])[|written|] == MtmAccount(mtmId, code, name);
          written + [MtmAccount(mtmId, code, name)]
        else written
      case Some(k) =>
        if newType != InvestmentType then
          assert forall a :: a in written[..k] + written[k + 1..] ==> a in written;
          written[..k] + written[k + 1..]
        else
          assert written[k := RenamedPair(written[k], code, name)][k] == RenamedPair(written[k], code, name);
          written[k := RenamedPair(written[k], code, name)]
  }

  /** Without Investment on either side, an edit changes the edited account's slot and nothing else. */
  lemma EditWithoutInvestment(accounts: seq<Account>, original: Account, code: string, name: string,
                              newType: string, description: string, mtmId: int, i: nat)
    requires original.accountType != InvestmentType && newType != InvestmentType
    requires FirstIndex(accounts, HasId(original.id)) == Some(i)
    ensures var r := EditedAccounts(accounts, original, code, name, newType, description, mtmId);
      |r| == |accounts| && r[i] == Account(original.id, code, name, newType, description)
      && forall k :: 0 <= k < |accounts| && k != i ==> r[k] == accounts[k]
  {
  }

  /**
   * Leaving Investment removes the first account whose code is the old code
   * + '1', wherever it is; the chart shrinks by one.
   */
  lemma EditLeavingInvestment(accounts: seq<Account>, original: Account, code: string, name: string,
                              newType: string, description: string, mtmId: int, k: nat)
    requires original.accountType == InvestmentType && newType != InvestmentType
    requires FirstIndex(WrittenBack(accounts, Account(original.id, code, name, newType, description)), HasCode(MtmCode(original.code))) == Some(k)
    ensures var written := WrittenBack(accounts, Account(original.id, code, name, newType, description));
      var r := EditedAccounts(accounts, original, code, name, newType, description, mtmId);
      |r| == |accounts| - 1 && written[k].code == MtmCode(original.code)
      && r[..k] == written[..k] && r[k..] == written[k + 1..]
  {
  }

  /**
   * Staying Investment renames the partner found by the old code + '1' after
   * the new code and name; it keeps its id and its type, and the chart keeps
   * its length.
   */
  lemma EditStayingInvestment(accounts: seq<Account>, original: Account, code: string, name: string,
                              description: string, mtmId: int, k: nat)
    requires original.accountType == InvestmentType
    requires FirstIndex(WrittenBack(accounts, Account(original.id, code, name, InvestmentType, description)), HasCode(MtmCode(original.code))) == Some(k)
    ensures var written := WrittenBack(accounts, Account(original.id, code, name, InvestmentType, description));
      var r := EditedAccounts(accounts, original, code, name, InvestmentType, description, mtmId);
      |r| == |accounts| && r[k].id == written[k].id && r[k].accountType == written[k].accountType
      && r[k].code == MtmCode(code) && r[k].name == MtmName(name)
      && forall j :: 0 <= j < |r| && j != k ==> r[j] == written[j]
  {
  }

  /**
   * The partner is looked up by code alone, so an edit that gives the
   * investment the old code + '1' and moves it out of Investment removes the
   * edited account itself.
   */
  lemma EditCanRemoveEditedAccount()
    ensures var shares := Account(1, "150", "Acme", InvestmentType, "");
      EditedAccounts([shares], shares, "1501", "Acme", "Bank Account", "", 2) == []
  {
    var shares := Account(1, "150", "Acme", InvestmentType, "");
    var written := WrittenBack([shares], Account(1, "1501", "Acme", "Bank Account", ""));
    assert written == [Account(1, "1501", "Acme", "Bank Account", "")];
    assert MtmCode("150") == "1501";
    assert FirstIndex(written, HasCode("1501")) == Some(0);
  }

  function NotId(id: int): Account -> bool
  {
    (a: Account) => a.id != id
  }

  /** The accounts an Investment account's partner is recognised by at start-up: exact code + '1' or exact name + ' - MTM'. */
  predicate HasPair(accounts: seq<Account>, inv: Account)
  {
    exists a :: a in accounts && (a.code == MtmCode(inv.code) || a.name == MtmName(inv.name))
  }

  /** Every Investment account has a partner. */
  predicate Paired(accounts: seq<Account>)
  {
    forall inv :: inv in accounts && inv.accountType == InvestmentType ==> HasPair(accounts, inv)
  }

  function IsInvestment(): Account -> bool
  {
    (a: Account) => a.accountType == InvestmentType
  }

  /**
   * The start-up loop: for each Investment account of the stored chart
   * without a partner, append an MTM account (ids from `newId`, which stands
   * for `Date.now()` plus a random offset). Afterwards every Investment
   * account has a partner, the stored accounts are untouched and everything
   * appended is an MTM account.
   */
  method BackfillMtmAccounts(stored: seq<Account>, newId: nat -> int) returns (accounts: seq<Account>)
    ensures |stored| <= |accounts| && accounts[..|stored|] == stored
    ensures forall k :: |stored| <= k < |accounts| ==> accounts[k].accountType == MtmType
    ensures Paired(accounts)
    ensures Paired(stored) ==> accounts == stored
  {
    accounts := stored;
    var investments := Filter(stored, IsInvestment());
    var i := 0;
    while i < |investments|
      invariant 0 <= i <= |investments|
      invariant |stored| <= |accounts| && accounts[..|stored|] == stored
      invariant forall k :: |stored| <= k < |accounts| ==> accounts[k].accountType == MtmType
      invariant forall inv :: inv in investments[..i] ==> HasPair(accounts, inv)
      invariant Paired(stored) ==> accounts == stored
    {
      ghost var before := accounts;
      if Paired(stored) {
        StoredPartner(stored, i);
      }
      accounts := AddMissingPartner(accounts, investments[i], newId(i));
      PartnersKept(before, accounts, investments[..i]);
      assert investments[..i + 1] == investments[..i] + [investments[i]];
      i := i + 1;
    }
    assert investments[..i] == investments;
    BackfillPaired(stored, accounts);
  }

  /** In a paired chart, each stored investment already has its partner. */
  lemma StoredPartner(stored: seq<Account>, i: nat)
    requires Paired(stored) && i < |Filter(stored, IsInvestment())|
    ensures HasPair(stored, Filter(stored, IsInvestment())[i])
  {
    var inv := Filter(stored, IsInvestment())[i];
    assert inv in stored && inv.accountType == InvestmentType;
  }

  /** One step of the start-up loop: append the MTM partner of `account` unless one is already there. */
  method AddMissingPartner(accounts: seq<Account>, account: Account, id: int) returns (next: seq<Account>)
    ensures HasPair(accounts, account) ==> next == accounts
    ensures !HasPair(accounts, account) ==> next == accounts + [MtmAccount(id, account.code, account.name)]
    ensures HasPair(next, account)
  {
    var mtmExists := exists a :: a in accounts && (a.code == MtmCode(account.code) || a.name == MtmName(account.name));
    if mtmExists {
      next := accounts;
    } else {
      next := accounts + [MtmAccount(id, account.code, account.name)];
      assert next[|accounts|] == MtmAccount(id, account.code, account.name);
    }
  }

  /** Appending accounts keeps every partner found before. */
  lemma PartnersKept(before: seq<Account>, after: seq<Account>, invs: seq<Account>)
    requires |before| <= |after| && after[..|before|] == before
    requires forall inv :: inv in invs ==> HasPair(before, inv)
    ensures forall inv :: inv in invs ==> HasPair(after, inv)
  {
    forall inv | inv in invs ensures HasPair(after, inv) {
      var a :| a in before && (a.code == MtmCode(inv.code) || a.name == MtmName(inv.name));
      var k :| 0 <= k < |before| && before[k] == a;
      assert after[k] == a by {
        assert after[..|before|][k] == a;
      }
    }
  }

  /** Appending only MTM accounts after a stored chart whose investments all have partners leaves a paired chart. */
  lemma BackfillPaired(stored: seq<Account>, accounts: seq<Account>)
    requires |stored| <= |accounts| && accounts[..|stored|] == stored
    requires forall k :: |stored| <= k < |accounts| ==> accounts[k].accountType == MtmType
    requires forall inv :: inv in Filter(stored, IsInvestment()) ==> HasPair(accounts, inv)
    ensures Paired(accounts)
  {
    FilterMembers(stored, IsInvestment());
    forall inv | inv in accounts && inv.accountType == InvestmentType ensures HasPair(accounts, inv) {
      var k :| 0 <= k < |accounts| && accounts[k] == inv;
      assert k < |stored|;
      assert inv in stored by {
        assert accounts[..|stored|][k] == inv;
      }
    }
  }

  /** The chart of accounts as the account form edits it. */
  class ChartOfAccounts {
    var accounts: seq<Account>

    /** Loaded from the stored chart. */
    constructor(stored: seq<Account>)
      ensures accounts == stored
    {
      accounts := stored;
    }

    /**
     * addAccount: rejected with the validation error and no change, or the
     * new account appended; an Investment account also gets its MTM partner
     * appended when that partner's code and name are free.
     */
    method AddAccount(code: string, name: string, accountType: string, description: string, id: int, mtmId: int)
      returns (error: Option<string>)
      modifies this
      ensures error == ValidateAccount(old(accounts), code, name, None)
      ensures error.Some? ==> accounts == old(accounts)
      ensures error.None? ==> (accounts == old(accounts) + [Account(id, code, name, accountType, description)]
        + (if accountType == InvestmentType && ValidateAccount(old(accounts), MtmCode(code), MtmName(name), None).None?
           then [MtmAccount(mtmId, code, name)] else []))
    {
      error := ValidateAccount(accounts, code, name, None);
      if error.Some? {
        return;
      }
      var account := Account(id, code, name, accountType, description);
      MtmCheckIgnoresOwner(accounts, account);
      accounts := accounts + [account];
      if accountType == InvestmentType {
        var mtm := MtmAccount(mtmId, code, name);
        var mtmError := ValidateAccount(accounts, mtm.code, mtm.name, None);
        if mtmError.None? {
          accounts := accounts + [mtm];
        }
      }
    }

    /** deleteAccount: keeps exactly the accounts with another id, in order; an MTM partner stays. */
    method DeleteAccount(id: int)
      modifies this
      ensures accounts == Filter(old(accounts), NotId(id))
      ensures forall a :: a in accounts <==> a in old(accounts) && a.id != id
    {
      FilterMembers(accounts, NotId(id));
      accounts := Filter(accounts, NotId(id));
    }

    /**
     * saveAccountEdit: rejected with the validation error and no change, or
     * the edited account written back and its MTM partner maintained.
     */
    method SaveAccountEdit(original: Account, code: string, name: string, newType: string, description: string, mtmId: int)
      returns (error: Option<string>)
      modifies this
      ensures error == EditError(old(accounts), original, code, name)
      ensures error.Some? ==> accounts == old(accounts)
      ensures error.None? ==> accounts == EditedAccounts(old(accounts), original, code, name, newType, description, mtmId)
    {
      error := None;
      if code != original.code || name != original.name {
        error := ValidateAccount(accounts, code, name, Some(original.id));
        if error.Some? {
          return;
        }
      }
      var updated := Account(original.id, code, name, newType, description);
      var index := FirstIndex(accounts, HasId(original.id));
      if index.Some? {
        accounts := accounts[index.value := updated];
      }
      MaintainPair(original, code, name, newType, mtmId);
    }

    /** The partner found by the old code + '1': created, removed or renamed as the account enters, leaves or stays in Investment. */
    method MaintainPair(original: Account, code: string, name: string, newType: string, mtmId: int)
      modifies this
      ensures accounts == PairMaintained(old(accounts), original, code, name, newType, mtmId)
    {
      if original.accountType == InvestmentType || newType == InvestmentType {
        var existing := FirstIndex(accounts, HasCode(MtmCode(original.code)));
        if newType == InvestmentType && existing.None? {
          var mtm := MtmAccount(mtmId, code, name);
          var mtmError := ValidateAccount(accounts, mtm.code, mtm.name, None);
          if mtmError.None? {
            accounts := accounts + [mtm];
          }
        } else if newType != InvestmentType && existing.Some? {
          accounts := accounts[..existing.value] + accounts[existing.value + 1..];
        } else if newType == InvestmentType && existing.Some? {
          accounts := accounts[existing.value := RenamedPair(accounts[existing.value], code, name)];
        }
      }
    }
  }
}
