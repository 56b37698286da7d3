/**
 * Account types are the strings the account form offers
 * (script.js:169-175). The balance engine decides the normal side by list
 * membership (isDebitBalance) and the income-statement reports group types
 * by substring tests (`includes`); both are kept as the source writes them.
 */
module AccountTypes {
  import opened Text

  const AssetTypes: seq<string> :=
    ["Current Asset", "Non-current Asset", "Prepayment", "Bank Account", "Investment", "MTM"]
  const LiabilityTypes: seq<string> := ["Current Liability", "Non-current Liability"]
  const EquityType: string := "Equity"
  const RevenueTypes: seq<string> := ["Other Income", "Revenue", "Sales"]
  const ExpenseTypes: seq<string> := ["Depreciation", "Expense"]

  /** Every type the account form lets a user choose. */
  const OfferedTypes: seq<string> :=
    AssetTypes + LiabilityTypes + [EquityType] + RevenueTypes + ExpenseTypes

  /** The list isDebitBalance tests membership in; "Asset" is not an offered type. */
  const DebitNormalTypes: seq<string> :=
    ["Asset", "Current Asset", "Non-current Asset", "Prepayment", "Bank Account",
     "Investment", "MTM", "Expense", "Depreciation"]

  /** isDebitBalance: true for the nine listed types, false for every other string. */
  predicate IsDebitBalance(accountType: string)
  {
    accountType in DebitNormalTypes
  }

  /** Outside the offered types only the legacy "Asset" is debit-normal; every other string is credit-normal. */
  lemma UnofferedDebitBalance(t: string)
    requires t !in OfferedTypes
    ensures IsDebitBalance(t) <==> t == "Asset"
  {
  }

  /** The balance sheet's asset section walks these types. */
  predicate IsAssetType(accountType: string)
  {
    accountType in AssetTypes
  }

  predicate IsLiabilityType(accountType: string)
  {
    accountType in LiabilityTypes
  }

  predicate IsEquityType(accountType: string)
  {
    accountType == EquityType
  }

  /** The revenue filter of the profit & loss and balance sheet reports. */
  predicate InRevenueGroup(accountType: string)
  {
    Contains(accountType, "Revenue") || Contains(accountType, "Sales") || Contains(accountType, "Other Income")
  }

  /** The expense filter of the profit & loss and balance sheet reports. */
  predicate InExpenseGroup(accountType: string)
  {
    Contains(accountType, "Expense") || Contains(accountType, "Depreciation")
  }

  lemma NotRevenue(t: string)
    requires 'R' !in t && 'S' !in t && 'O' !in t
    ensures !InRevenueGroup(t)
  {
    LacksCharNotContains(t, "Revenue", 'R');
    LacksCharNotContains(t, "Sales", 'S');
    LacksCharNotContains(t, "Other Income", 'O');
  }

  lemma NotExpense(t: string)
    requires 'x' !in t && 'D' !in t
    ensures !InExpenseGroup(t)
  {
    LacksCharNotContains(t, "Expense", 'x');
    LacksCharNotContains(t, "Depreciation", 'D');
  }

  /** The five sections the balance sheet and profit & loss reports place accounts in. */
  datatype Section = Assets | Liabilities | EquitySection | Income | Expenses

  /** The test each report section applies to an account's type. */
  predicate InSection(t: string, section: Section)
  {
    match section
    case Assets => IsAssetType(t)
    case Liabilities => IsLiabilityType(t)
    case EquitySection => IsEquityType(t)
    case Income => InRevenueGroup(t)
    case Expenses => InExpenseGroup(t)
  }

  /** `t` passes the test of `section` and of no other section. */
  predicate OnlyIn(t: string, section: Section)
  {
    (InSection(t, Assets) <==> section == Assets)
    && (InSection(t, Liabilities) <==> section == Liabilities)
    && (InSection(t, EquitySection) <==> section == EquitySection)
    && (InSection(t, Income) <==> section == Income)
    && (InSection(t, Expenses) <==> section == Expenses)
  }

  /** The section the account form's option groups put an offered type in. */
  function OfferedSection(t: string): Section
  {
    if t in AssetTypes then Assets
    else if t in LiabilityTypes then Liabilities
    else if t == EquityType then EquitySection
    else if t in RevenueTypes then Income
    else Expenses
  }

  /** Neither income-statement filter matches a type lacking these letters. */
  lemma NotIncomeStatement(t: string)
    requires 'R' !in t && 'S' !in t && 'O' !in t && 'x' !in t && 'D' !in t
    ensures !InRevenueGroup(t) && !InExpenseGroup(t)
  {
    NotRevenue(t);
    NotExpense(t);
  }

  lemma RevenueTypeMatches(t: string)
    requires 'x' !in t && 'D' !in t && (t == "Revenue" || t == "Sales" || t == "Other Income")
    ensures InRevenueGroup(t) && !InExpenseGroup(t)
  {
    NotExpense(t);
    ContainsItself(t);
  }

  lemma ExpenseTypeMatches(t: string)
    requires 'R' !in t && 'S' !in t && 'O' !in t && (t == "Expense" || t == "Depreciation")
    ensures InExpenseGroup(t) && !InRevenueGroup(t)
  {
    NotRevenue(t);
    ContainsItself(t);
  }

  lemma CurrentAssetNotIncome()
    ensures !InRevenueGroup("Current Asset") && !InExpenseGroup("Current Asset")
  {
    NotIncomeStatement("Current Asset");
  }

  lemma CurrentAssetSection()
    ensures OnlyIn("Current Asset", Assets) && IsDebitBalance("Current Asset")
  {
    CurrentAssetNotIncome();
  }

  lemma NonCurrentAssetNotIncome()
    ensures !InRevenueGroup("Non-current Asset") && !InExpenseGroup("Non-current Asset")
  {
    NotIncomeStatement("Non-current Asset");
  }

  lemma NonCurrentAssetSection()
    ensures OnlyIn("Non-current Asset", Assets) && IsDebitBalance("Non-current Asset")
  {
    NonCurrentAssetNotIncome();
  }

  lemma PrepaymentNotIncome()
    ensures !InRevenueGroup("Prepayment") && !InExpenseGroup("Prepayment")
  {
    NotIncomeStatement("Prepayment");
  }

  lemma PrepaymentSection()
    ensures OnlyIn("Prepayment", Assets) && IsDebitBalance("Prepayment")
  {
    PrepaymentNotIncome();
  }

  lemma BankAccountNotIncome()
    ensures !InRevenueGroup("Bank Account") && !InExpenseGroup("Bank Account")
  {
    NotIncomeStatement("Bank Account");
  }

  lemma BankAccountSection()
    ensures OnlyIn("Bank Account", Assets) && IsDebitBalance("Bank Account")
  {
    BankAccountNotIncome();
  }

  lemma InvestmentNotIncome()
    ensures !InRevenueGroup("Investment") && !InExpenseGroup("Investment")
  {
    NotIncomeStatement("Investment");
  }

  lemma InvestmentSection()
    ensures OnlyIn("Investment", Assets) && IsDebitBalance("Investment")
  {
    InvestmentNotIncome();
  }

  lemma MtmNotIncome()
    ensures !InRevenueGroup("MTM") && !InExpenseGroup("MTM")
  {
    NotIncomeStatement("MTM");
  }

  lemma MtmSection()
    ensures OnlyIn("MTM", Assets) && IsDebitBalance("MTM")
  {
    MtmNotIncome();
  }

  lemma AssetTypeSection(t: string)
    requires IsAssetType(t)
    ensures OnlyIn(t, Assets) && IsDebitBalance(t)
  {
    if t == "Current Asset" {
      CurrentAssetSection();
    } else if t == "Non-current Asset" {
      NonCurrentAssetSection();
    } else if t == "Prepayment" {
      PrepaymentSection();
    } else if t == "Bank Account" {
      BankAccountSection();
    } else if t == "Investment" {
      InvestmentSection();
    } else if t == "MTM" {
      MtmSection();
    } else {
      assert false;
    }
  }

  lemma CurrentLiabilityNotIncome()
    ensures !InRevenueGroup("Current Liability") && !InExpenseGroup("Current Liability")
  {
    NotIncomeStatement("Current Liability");
  }

  lemma CurrentLiabilitySection()
    ensures OnlyIn("Current Liability", Liabilities) && !IsDebitBalance("Current Liability")
  {
    CurrentLiabilityNotIncome();
  }

  lemma NonCurrentLiabilityNotIncome()
    ensures !InRevenueGroup("Non-current Liability") && !InExpenseGroup("Non-current Liability")
  {
    NotIncomeStatement("Non-current Liability");
  }

  lemma NonCurrentLiabilitySection()
    ensures OnlyIn("Non-current Liability", Liabilities) && !IsDebitBalance("Non-current Liability")
  {
    NonCurrentLiabilityNotIncome();
  }

  lemma LiabilityTypeSection(t: string)
    requires IsLiabilityType(t)
    ensures OnlyIn(t, Liabilities) && !IsDebitBalance(t)
  {
    if t == "Current Liability" {
      CurrentLiabilitySection();
    } else if t == "Non-current Liability" {
      NonCurrentLiabilitySection();
    } else {
      assert false;
    }
  }

  lemma EquityTypeSection(t: string)
    requires IsEquityType(t)
    ensures OnlyIn(t, EquitySection) && !IsDebitBalance(t)
  {
    NotIncomeStatement(t);
  }

  lemma RevenueTypeSection(t: string)
    requires t in RevenueTypes
    ensures OnlyIn(t, Income) && !IsDebitBalance(t)
  {
    if t == "Other Income" {
      RevenueTypeMatches("Other Income");
    } else if t == "Revenue" {
      RevenueTypeMatches("Revenue");
    } else if t == "Sales" {
      RevenueTypeMatches("Sales");
    } else {
      assert false;
    }
  }

  lemma ExpenseTypeSection(t: string)
    requires t in ExpenseTypes
    ensures OnlyIn(t, Expenses) && IsDebitBalance(t)
  {
    if t == "Depreciation" {
      ExpenseTypeMatches("Depreciation");
    } else if t == "Expense" {
      ExpenseTypeMatches("Expense");
    } else {
      assert false;
    }
  }

  /**
   * Every offered type passes exactly one report section's test, the one its
   * option group names, and it is debit-normal exactly when that section is
   * assets or expenses.
   */
  lemma OfferedTypeClassification(t: string)
    requires t in OfferedTypes
    ensures OnlyIn(t, OfferedSection(t))
    ensures IsDebitBalance(t) <==> OfferedSection(t) == Assets || OfferedSection(t) == Expenses
  {
    if t in AssetTypes {
      AssetTypeSection(t);
    } else if t in LiabilityTypes {
      LiabilityTypeSection(t);
    } else if t == EquityType {
      EquityTypeSection(t);
    } else if t in RevenueTypes {
      RevenueTypeSection(t);
    } else {
      ExpenseTypeSection(t);
    }
  }
}
