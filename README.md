# General ledger: a Dafny model of the bookkeeping core

This project models the bookkeeping core of `script.js`, a browser-based
general ledger. The browser, the page markup and the storage are left out.
What the model keeps:

- **The chart of accounts** (`Registry`): the code and name validation,
  adding, deleting and editing accounts, and the companion "MTM" account
  that every Investment account gets. The MTM account's code is the
  investment's code followed by `1`. Its name is the investment's name
  followed by ` - MTM`. The module also covers the start-up pass that adds
  missing MTM accounts.
- **Account types** (`AccountTypes`): the fourteen offered types. The
  module keeps both ways the source classifies a type: `isDebitBalance`
  tests membership in a list, and the income-statement reports test
  substrings with `includes`.
- **The journal** (`Journal`): how line items are built from the input
  rows of the entry form, the debit = credit check, adding, editing and
  deleting entries, and the running balance of the ledger view.
- **The balance engine** (`BalanceEngine`, `Domain`): debits minus credits
  per account, stated on the account's normal side.
- **The reports** (`Reports`): the date filter, the balance sheet, the
  profit & loss statement, the trial balance and the per-account general
  ledger. The balance sheet splits equity into the equity accounts, the
  retained earnings of prior years and the current year's earnings.
- **The investments tab** (`Portfolio`): creating a company, revaluing a
  lot (which posts a mark-to-market entry against an "Unrealized
  Gain/Loss" revenue account), deriving lots from the journal, and the
  figures of each lot row and subtotal.

The main theorem is the accounting equation, `Reports.BalanceSheetBalances`.
It holds when four things are true: every entry balances, every line posts
to a registered account, account ids are unique, and every account has an
offered type. Under those conditions, total assets equal total liabilities
plus equity, so the balance sheet's 0.01 self-check never warns. Beside it
the model proves supporting facts:

- the trial balance ties out;
- balances do not depend on the order of entries;
- every general-ledger row shows the account's running balance on its
  normal side, and the closing row is the account's balance;
- a balanced journal's running balance returns to zero after every entry;
- after start-up, every Investment account has an MTM partner.

Some results record behaviour of the code that a reader may not expect,
each with a concrete input:

- the raw debit = credit check admits unbalanced entries, though only for a
  row the form itself cannot produce: the amount inputs have `min="0"`, and
  typing in one clears and disables the other (script.js:349-350 and
  364-382), so only input that bypasses those listeners reaches the case;
- an edit can remove the edited account itself;
- a company can be created whose MTM code duplicates an existing code;
- the lot list reads only the first line on an account;
- a revaluation to zero is later read as "no value stored".

Where the code and its prose description differ, the model follows the
code. Three cases:

- `GeneralLedger.addTransaction` checks the sums of the raw debit and
  credit inputs, while `saveTransactionEdit` checks the built line items.
- `createNewCompany` compares codes exactly, while the account form
  ignores case.
- The start-up pass recognises a partner by exact code or exact name,
  without ignoring case.

Conventions:

- Amounts are `real`. Dates are `Date(year, month, day)` and are ordered by
  `DayKey`.
- Account ids are `int`.
- External inputs become parameters: fresh ids (`Date.now()`), today's
  date, the user's confirmation and the form's input rows.

## Model

| member | source | states |
|---|---|---|
| AccountTypes.OfferedTypeClassification | script.js:168-175 | Every offered type passes exactly one report section's test, namely the section of its option group. It is debit-normal exactly when that section is Assets or Expenses. |
| AccountTypes.AssetTypeSection | script.js:1093 | Each of the six asset types is placed only in the asset section and is debit-normal. |
| AccountTypes.LiabilityTypeSection | script.js:1122 | Both liability types are placed only in the liability section and are credit-normal. |
| AccountTypes.EquityTypeSection | script.js:1176 | "Equity" is placed only in the equity section and is credit-normal. |
| AccountTypes.RevenueTypeSection | script.js:1300-1302 | Each revenue type passes the revenue substring test and no other section's test, and is credit-normal. |
| AccountTypes.ExpenseTypeSection | script.js:1326-1327 | Each expense type passes the expense substring test and no other section's test, and is debit-normal. |
| AccountTypes.RevenueTypeMatches | script.js:1300-1302 | A revenue type name passes the revenue `includes` test and fails the expense one. |
| AccountTypes.UnofferedDebitBalance | script.js:1540-1548 | Outside the offered types, isDebitBalance holds only for the legacy "Asset"; every other string is treated as credit-normal. |
| AccountTypes.ExpenseTypeMatches | script.js:1326-1327 | An expense type name passes the expense `includes` test and fails the revenue one. |
| Domain.SignedIsDebitMinusCredit | script.js:452-458 | The signed total of a set of lines is their debit total minus their credit total. |
| Domain.BalancedNetsToZero | script.js:634-639 | The signed lines of an entry whose debits equal its credits sum to zero. |
| Domain.YearStart | script.js:1157-1159 | January 1st of a date's year is a valid date, in that year, and not after the date. |
| Domain.EarlierYearFirst | script.js:477 | A valid date of an earlier year sorts before any valid date of a later year. |
| Domain.NetAppend | script.js:1512-1530 | An account's net over two journals appended is the sum of their nets. |
| Domain.NetPermutation | script.js:1512-1530 | An account's net does not depend on the order of the entries. |
| Domain.UntouchedNet | script.js:1512-1530 | An account that no entry touches has a net of zero. |
| Domain.FindAccount | script.js:1535-1538 | The lookup finds an account with the id exactly when one exists, and returns a member of the chart. |
| Domain.FindRegistered | script.js:1535-1538 | When ids are unique, looking up an account's id returns that account. |
| BalanceEngine.Change | script.js:1524-1528 | One line changes a balance by its signed amount, negated for credit-normal accounts. |
| BalanceEngine.CalculateAccountBalances | script.js:1510-1533 | The map has a key for every account id some line posts to, and no other keys. Each value is that account's net on its normal side, or 0 when no account has the id. |
| BalanceEngine.PostEntry | script.js:1515-1529 | Posting one entry's lines onto the balances of the earlier entries gives a key for every account some line of all these entries posts to, and each value is that account's balance over them. |
| BalanceEngine.PostLineItem | script.js:1514-1529 | Posting one line creates the key at 0 when it is missing, adds the change for a known account, and leaves every other key unchanged. |
| BalanceEngine.LineIdsMeaning | script.js:1514-1517 | An id is a key of the balances exactly when some entry has a line on it. |
| BalanceEngine.GetIsBalance | script.js:1304 | `balances[id] \|\| 0` is the account's balance, including for ids that have no key. |
| BalanceEngine.BalanceOrderIndependent | script.js:1512-1530 | Balances do not depend on the order of the journal. |
| BalanceEngine.UnknownAccountsIgnored | script.js:1518-1519 | Lines on an id that has no account contribute nothing: its balance is zero. |
| BalanceEngine.BalanceOfRegistered | script.js:1522-1528 | A registered account's balance is its net for debit-normal types and minus its net otherwise. |
| BalanceEngine.CreditRevenueExample | script.js:1522-1528 | A 100 sale debited to a bank account and credited to Revenue gives both accounts a balance of +100. |
| BalanceEngine.AccountsOfEntries | script.js:1512-1530 | Over registered accounts with unique ids, the accounts' nets add up to the signed total of all lines. |
| BalanceEngine.NetsSumToZero | script.js:1512-1530 | When every entry balances and posts to registered accounts, all accounts' nets sum to zero. |
| Registry.ValidateAccount | script.js:34-52 | The code error when another account's code matches ignoring case, checked first. Otherwise the name error when a name matches. Otherwise no error. The account being edited is excluded in both tests. |
| Registry.MtmCheckIgnoresOwner | script.js:76-88 | Validating the MTM partner after the investment was appended gives the same result as validating it before. |
| Registry.EditError | script.js:188-200 | An edit that changes neither code nor name skips validation. Otherwise its error is the validation error that excludes the account itself. |
| Registry.WrittenBack | script.js:212-215 | The length is kept. Every slot keeps its account, except that the first slot whose account has the edited id may hold the edited account instead. The edited account is in the result exactly when some account had its id, and with no such account nothing changes. |
| Registry.EditedAccounts | script.js:204-245 | A saved edit grows or shrinks the chart by at most one account. When the new type is Investment, some account afterwards matches, ignoring case, the partner's code (the new code + '1') or its name (the new name + ' - MTM'). |
| Registry.PairMaintained | script.js:217-236 | The partner step grows or shrinks the chart by at most one account. Outside Investment it adds no account. Into or within Investment it leaves an account matching the new partner's code or name, ignoring case: the renamed partner, the created one, or the account whose clash blocked creating it. |
| Registry.EditWithoutInvestment | script.js:212-216 | An edit with Investment on neither side changes only the edited account's slot. |
| Registry.EditLeavingInvestment | script.js:217-227 | Leaving Investment removes the first account whose code is the old code + '1', and the chart shrinks by one. |
| Registry.EditStayingInvestment | script.js:217-226 | Staying Investment gives the partner the new code + '1' and the new MTM name, keeping its id and type. Nothing else changes. |
| Registry.EditCanRemoveEditedAccount | script.js:217-227 | Renaming `150` to `1501` and leaving Investment deletes the edited account itself, and the chart becomes empty. |
| Registry.BackfillMtmAccounts | script.js:1580-1605 | The stored accounts are kept as a prefix and only MTM accounts are appended. Afterwards every Investment account has a partner by exact code or name. An already paired chart is left unchanged. |
| Registry.AddMissingPartner | script.js:1584-1601 | One step of the start-up loop: the chart is unchanged if the partner exists, else the MTM account is appended. Either way the partner is present afterwards. |
| Registry.PartnersKept | script.js:1582-1602 | Appending accounts keeps every partner that was already found. |
| Registry.BackfillPaired | script.js:1582-1602 | Once every stored investment has a partner and only MTM accounts were appended, the chart is paired. |
| Registry.ChartOfAccounts.constructor | script.js:2-3 | The chart starts as the stored accounts. |
| Registry.ChartOfAccounts.AddAccount | script.js:54-96 | A validation error leaves the chart unchanged. Otherwise the new account is appended, followed by its MTM partner when the type is Investment and the partner's code and name are free. |
| Registry.ChartOfAccounts.DeleteAccount | script.js:98-102 | Exactly the accounts with another id remain, in order. The MTM partner of a deleted investment stays. |
| Registry.ChartOfAccounts.SaveAccountEdit | script.js:188-246 | A validation error leaves the chart unchanged. Otherwise the edited account is written back and its partner is created, removed or renamed. |
| Registry.ChartOfAccounts.MaintainPair | script.js:217-236 | The partner found by the old code + '1' is created, removed or renamed as the account enters, leaves or stays in Investment. |
| Journal.AccountLabel | script.js:421-427 | The label is empty exactly when no account has the id; otherwise it is the first such account's code, " - " and name. |
| Journal.AccountTypeLabel | script.js:421-428 | The type snapshot is empty when no account has the id; otherwise it is the first such account's type. |
| Journal.LineFromRow | script.js:421-431 | A row's line keeps the account id and description. It is a debit exactly when the debit input is positive, and has a positive amount exactly when either input is positive. |
| Journal.BuildLineItems | script.js:419-433 | Every built line has a positive amount and comes from a row with a positive input. Every such row yields a line. |
| Journal.BuildKeepsRowOrder | script.js:419-433 | The built lines are the kept rows' lines in row order. |
| Journal.CollectEditedLines | script.js:615-632 | The edit form builds its lines exactly as the entry form does. |
| Journal.BuiltTotalsMatchInputs | script.js:411-417 | When every row's inputs are non-negative and at most one is nonzero, the built lines' debit and credit totals equal the raw input totals. |
| Journal.RawCheckBalancesWellFormed | script.js:411-442 | For such rows, passing the raw debit = credit check posts a balanced entry. |
| Journal.RawCheckAdmitsUnbalanced | script.js:411-433 | A single row with the same positive amount as debit and as credit passes the raw check, yet posts an unbalanced entry that keeps only the debit. The form's own listeners (script.js:364-382) never produce such a row; it needs input that bypasses them. |
| Journal.Replaced | script.js:641-649 | The entry with the updated entry's id is replaced at its place, and every other entry and the length are kept. The updated entry is present exactly when some entry had its id; otherwise nothing changes. A slot that changed is the first one holding the updated id. |
| Journal.ReplacedKeepsBalanced | script.js:634-649 | Replacing an entry by a balanced one keeps every entry balanced. |
| Journal.BuiltLinesKeepPositive | script.js:435-442 | Appending or replacing with built lines keeps every line amount positive. |
| Journal.BuiltLinesRegistered | script.js:410-442 | An appended entry whose rows are well formed, on registered accounts and pass the raw check keeps the books consistent. |
| Journal.RunningStep | script.js:528-533 | Adding a line's signed amount to the running balance gives the signed total of the lines so far. |
| Journal.EntryRows | script.js:525-575 | The rows of one entry continue the running balance, each row showing the signed total of all lines so far. |
| Journal.AllLinesNet | script.js:474-533 | The running balance over all lines equals the sum of the entries' signed totals. |
| Journal.AllLinesPrefix | script.js:474-533 | The lines of the first k entries are a prefix of all the lines. |
| Journal.BalancedLedgerReturnsToZero | script.js:528-533 | In a journal of balanced entries, the running balance shown on the last line of each entry is zero. |
| Journal.LedgerRows | script.js:474-575 | Each displayed row shows the signed total of every line up to and including its own. |
| Journal.GeneralLedger.constructor | script.js:275-276 | The journal starts as the stored entries. |
| Journal.GeneralLedger.AddTransaction | script.js:410-450 | The entry is posted exactly when the raw debit and credit totals are equal, and is then appended with the built lines. Otherwise the journal is unchanged. |
| Journal.GeneralLedger.SaveTransactionEdit | script.js:607-654 | The edit is saved exactly when the rebuilt entry balances, and then replaces the entry with its id. Otherwise the journal is unchanged. |
| Journal.GeneralLedger.DeleteTransaction | script.js:661-667 | A confirmed delete keeps exactly the entries with another id, in order. An unconfirmed one changes nothing. |
| Journal.GeneralLedger.RenderLedger | script.js:472-582 | The journal is sorted by date, in place. Each row shows the running signed balance of all lines so far. |
| Reports.TransactionsInRange | script.js:1495-1507 | The report keeps exactly the entries dated inside the period, bounds included, and never more entries. |
| Reports.GetOfIsBalanceOf | script.js:1304 | Reading the balances map with a default of 0 gives every account its balance. |
| Reports.GroupTotal | script.js:1299-1307 | The loop total is the sum of the group's balances. |
| Reports.SectionTotal | script.js:1095-1113 | The asset or liability loop total is the sum of the balances of each listed type's accounts. |
| Reports.GenerateProfitLoss | script.js:1277-1356 | Revenue is the revenue-group balances over the range, expenses are the expense-group balances, and net income is their difference. |
| Reports.TrialBalanceCells | script.js:1383-1387 | The debit and credit cells are non-negative and at most one is nonzero. Debit cell minus credit cell is the shown balance for a debit-normal type and minus it for a credit-normal type, that is the account's debits minus credits: a credit-normal account with balance 100 shows 0 and 100. |
| Reports.TrialBalanceCellsOfNet | script.js:1383-1387 | An account with a positive net shows it as a debit, and one with a negative net shows it as a credit, whatever the account's type. |
| Reports.ColumnTotals | script.js:1380-1395 | The column totals are the sums of the debit and credit cells. |
| Reports.GenerateTrialBalance | script.js:1358-1410 | The totals are the sums of the cells as of the date. For consistent books they are equal. |
| Reports.TrialBalanceTiesOut | script.js:1380-1395 | For consistent books, total debits equal total credits over any subset of the journal. |
| Reports.TrialBalanceOrderFree | script.js:1381 | Sorting the accounts by code does not change either total. |
| Reports.SplitByYear | script.js:1154-1173 | The split gives the entries from January 1st to the as-of date and the entries before January 1st, each in journal order. |
| Reports.YearSplitPartition | script.js:1154-1173 | Every entry up to the as-of date is in exactly one of the two years' sets. |
| Reports.PriorYearsByYear | script.js:1154-1173 | For a valid date, the prior set holds exactly the entries of earlier calendar years. |
| Reports.EarningsOf | script.js:1189-1226 | The revenue-minus-expenses loops over a set of balances compute that set's net income. |
| Reports.EquityParts | script.js:1175-1226 | Equity is split into the equity accounts' balances, the prior years' net income (retained earnings) and the current year's net income. |
| Reports.GenerateBalanceSheet | script.js:1076-1258 | The sheet's figures are the section sums as of the date. For consistent books whose accounts have offered types, assets equal liabilities plus equity and there is no warning. |
| Reports.SectionsCoverNets | script.js:1093-1226 | With offered types only, the five sections' nets add up to the nets of all accounts. |
| Reports.BalanceSheetBalances | script.js:1236-1244 | The accounting equation holds: total assets equal total liabilities plus equity, and the 0.01 check never warns. |
| Reports.ProfitLossIsCurrentYearEarnings | script.js:1212-1226 | A profit & loss from January 1st to the as-of date shows the same net income as the balance sheet's current-year earnings. |
| Reports.AccountLedger | script.js:1420-1456 | The section lists the account's lines in the entries touching it, sorted by date, one row per line. Every row shows, on the account's normal side, the net of the listed lines up to and including its own. The closing balance is the account's net on its normal side, and the last row shows it. |
| Reports.GenerateGeneralLedger | script.js:1412-1477 | Over the entries dated within the period, a section is shown exactly for the accounts some of those entries touch, in chart order, and each shown section holds that account's running rows. |
| Reports.ShowLines | script.js:1449-1456 | The rows of the lines on the account are the earlier rows followed by one row per line, each the balance before plus the normal-side net of the lines up to its own; the running balance ends at the balance before plus the net of all of them. |
| Reports.HasEntriesForIsNonEmptyFilter | script.js:1423-1427 | An account is listed exactly when its filtered entries are not empty. |
| Reports.LedgerLinesNet | script.js:1444-1456 | The account's lines among a sequence of entries net to the account's net over those entries. |
| Reports.LedgerEntriesNet | script.js:1423-1446 | Keeping only the entries that touch the account and sorting them by date leaves its net unchanged. |
| Reports.LedgerLines | script.js:1447-1456 | One entry's rows are the earlier rows followed by one row per line of the entry on the account, each showing the balance before the entry plus the normal-side net of those lines up to its own. The running balance grows by the entry's net on the account. |
| Reports.LedgerClosingIsBalance | script.js:1444-1456 | The ledger's closing running balance equals the balance calculateAccountBalances gives that account. |
| Portfolio.CreateNewCompany | script.js:689-738 | An empty name or code cancels; a code used by any account (compared exactly) refuses first; then a clashing company or MTM name, ignoring case, refuses. Otherwise the Investment account and its MTM partner are appended, in that order. |
| Portfolio.CreatedKeepsPaired | script.js:715-735 | Creating a company keeps every Investment account paired. |
| Portfolio.CreateCanDuplicateMtmCode | script.js:700-735 | The MTM code is not checked, so a new company can duplicate an existing account's code. |
| Portfolio.PreviousFmv | script.js:826-829 | The previous fair market value is the stored value when a detail is stored with a nonzero value. With no stored detail, or a stored zero, it is the lot's cost. |
| Portfolio.Renamed | script.js:806-823 | A rename keeps the length, every id, code and type. A name that did not change, or an unknown id, changes nothing. |
| Portfolio.RenameTouchesPairOnly | script.js:806-823 | Only the investment's name and its code partner's name and description change, and the partner then carries the new name + ' - MTM'. |
| Portfolio.WithUgl | script.js:835-852 | An existing gain/loss account is reused, otherwise one is appended. Afterwards one is always found. |
| Portfolio.MtmAdjustment | script.js:855-881 | The adjustment entry balances and has two lines, the MTM account first and the gain/loss account second. A gain debits MTM and a loss credits it. Both amounts are the absolute change, positive when the change is nonzero. |
| Portfolio.AdjustmentNets | script.js:855-881 | Posting the adjustment moves the MTM account's net by the change and the gain/loss account's net by minus the change. |
| Portfolio.DetailsUpdated | script.js:884-893 | The lot's detail is set and created when missing. No other lot or account changes. |
| Portfolio.Investments.constructor | script.js:826 | The details start as the stored investment details. |
| Portfolio.Investments.SaveInvestmentEdit | script.js:798-897 | The change is the new value less the previous one. A zero change posts nothing. Otherwise the gain/loss account is ensured and, when the MTM account exists, the adjustment entry is appended; when it is missing the edit fails before the entry and the details are stored. In every other case the lot's details are updated. |
| Portfolio.ResaveSameFmvPostsNothing | script.js:826-833 | Saving the same nonzero fair market value again gives a change of zero. |
| Portfolio.AccountLots | script.js:904-919 | There is one lot per entry touching the account, sorted by date, as a permutation of those entries' lots. |
| Portfolio.LotOfFirstLine | script.js:910-917 | A lot has the entry's date and the signed amount, debit positive, of the entry's first line on the account; it is zero when no line is on the account. |
| Portfolio.LotsBalanceIsNet | script.js:921-922 | When each entry has at most one line on the account, the lots' balance is the account's net. |
| Portfolio.LotsMissSecondLine | script.js:910-917 | For an entry with two lines on the account, the lot balance is the first line's signed amount while the account's net adds both lines. |
| Portfolio.LotView | script.js:944-956 | Stored nonzero shares, fair market value per share and fair market value are the ones shown. A missing detail or a stored zero falls back to 100 shares, the cost per share and the cost respectively. Cost per share times shares is the cost, and unrealized is fair market value less cost, so zero when the cost is shown. |
| Portfolio.ViewShowsPreviousFmv | script.js:826-829 | The row shows the same fair market value that a revaluation compares against. |
| Portfolio.UnrealizedMovesByChange | script.js:826-893 | After a revaluation to a nonzero value, the row's unrealized gain or loss moves by exactly the posted change. |
| Portfolio.ZeroFmvIsReadAsCost | script.js:826-829 | A revaluation to zero posts the full fall, yet the row then shows the cost with no loss, and saving zero again posts the cost once more. |
| Portfolio.LotRows | script.js:944-960 | There is one row per lot; the total cost is the lot balance and the total fair market value is the sum of the rows. |
| Portfolio.SubtotalUnrealized | script.js:999-1001 | The subtotal's unrealized gain or loss is the sum of the rows' unrealized amounts. |
| Portfolio.AccountSection | script.js:936-1017 | An account with no lots or a zero balance shows nothing. Otherwise it shows a row per lot, and a subtotal of cost, fair market value and unrealized amount when it has more than one lot. |
| Collections.SortByKey | script.js:476-477 | The date sort returns a sorted permutation of the same length. |
| Collections.Filter | script.js:663 | The filter keeps exactly the matching elements and is never longer than its input. |
| Collections.FirstIndex | script.js:648 | findIndex returns the first matching index, or none when nothing matches. |

## Left out

- The DOM, every `render*` method's markup, event handlers, the tab switching and the `editingRowId` UI state are not modelled. Rendering is reduced to the figures the rows show.
- `localStorage` and JSON are not modelled. The stored chart, journal and details are parameters and results.
- Lost writes between the stored copies are not modelled. `ChartOfAccounts` reads the stored chart once (script.js:3) and writes its whole array back on every save (271). `GeneralLedger` does the same with the journal (277, 670). The investments tab and the start-up pass write storage directly. So a save by one class erases whatever the others stored since it loaded:
  - `new ChartOfAccounts()` runs (1578) before the start-up pass stores the missing MTM partners (1580-1605). The first account added through the form then stores the stale chart plus the new account, and erases the backfilled partner. A stored Investment `150 Acme` with no partner loses its `1501 Acme - MTM` this way.
  - The same save erases a company created in the investments tab (734-735) and a gain/loss account created by a revaluation (850-851). The mark-to-market entries then post to an id no account has, which the assumption of `Reports.BalanceSheetBalances` that every line is registered excludes.
  - The next journal save (670) erases a mark-to-market entry appended by a revaluation (880-881), while the lot's new details stay stored (893). The next revaluation compares against the new value, so the lost entry is never posted again.

  The model treats each class on its own: every operation takes the chart, journal and details it acts on as parameters, and its results are what it stores.
- The `localeCompare` sorts of accounts by code, used by the account list, the trial balance and the general ledger, are not modelled. Only `Reports.TrialBalanceOrderFree` shows that the order does not change the totals.
- The XLSX export, `Intl` currency formatting and `toFixed` are not modelled.
- Floating point is not modelled. Amounts are exact reals, so the 0.01 tolerance of the balance-sheet check is compared exactly.
- `parseFloat(...) || 0` input parsing and `trim()` are not modelled. Inputs arrive as reals and strings.
- Date-string parsing and time zones are not modelled. Dates are day triples ordered by `DayKey`, and `Date.now()` and `Math.random()` id generation become parameters.
- Confirmation and prompt dialogs are not modelled. They become a boolean or empty-string parameter, and an empty prompt cancels.
- Ids are not modelled as the mix of strings and numbers the source compares with `toString()`. All ids are integers, and an unselected account is an id that no account has.
- Case folding is ASCII only: `toLowerCase` maps `A`–`Z`.
- The live recalculation of the investment edit row, `generateEditingRow`, is not modelled: it is UI arithmetic rendered with `toFixed`.
- fix-safe.js is not part of this model.
- Collections.SortByKey: the contract does not state how entries with the same date are ordered. JavaScript's sort keeps them in journal order; the model proves sortedness and permutation only.
- Reports.GenerateGeneralLedger: the accounts appear in chart order. The source sorts them by code with `localeCompare`, which is not modelled.
- Registry.ChartOfAccounts.DeleteAccount: deleting an Investment account leaves its MTM partner in the chart, as the source does.
- Portfolio.Investments.SaveInvestmentEdit: the missing-MTM case stands for the error the source raises. The renamed chart and the gain/loss account are already stored at that point; the entry and the details are not.
- Portfolio.AccountLots: a lot takes only the first line on the account in each entry, as the source does. `Portfolio.LotsBalanceIsNet` therefore needs at most one such line per entry.
