# FinMatrix reporting engine in Dafny

A model of the double-entry reporting engine of FinMatrix. The engine is `AccountingEngine` in
`services/accountingEngine.ts` together with the static data in `constants.ts`. It has three stages, and
the model proves properties of each:

1. **Account resolver** (`getAccountDetails`). It looks an account name up in the chart of accounts by
   exact name. A name the chart does not know resolves to a fixed fallback head: code `999`, an expense,
   no cost category, indirect.
2. **Ledger aggregator** (`generateLedgers`). It folds the journal entries into one balance per distinct
   account name. Each entry adds its amount to the debit total of its debit account and to the credit
   total of its credit account. The closing balance is debit minus credit, a net-debit convention, so a
   credit balance is negative.
3. **Statement classifier and cost sheet** (`generateFinancialStatements`). It resolves every ledger's
   name again. It places the ledger in one of seven statement lists chosen by the head's type and
   direct flag. A ledger with a cost category also goes on that category's cost-sheet list. The engine
   then derives:
   - gross profit and net profit;
   - total assets;
   - the cost waterfall: prime cost → works cost → cost of production → cost of sales.

Layout, one module per file:

| file | module | what it holds |
|---|---|---|
| `wrappers.dfy` | `Wrappers` | `Option`, the result of a first-match search |
| `types.dfy` | `Types` | the enumerations and records of `types.ts` |
| `constants.dfy` | `Constants` | the chart of accounts, the sample journal, and facts about both |
| `chart_resolver.dfy` | `ChartResolver` | the name lookup with its fallback |
| `ledger_aggregator.dfy` | `LedgerAggregator` | the specification of ledger generation; lemmas on names, zero sum, order independence |
| `statement_classifier.dfy` | `StatementClassifier` | the specification of statement generation; lemmas on bucketing, the cost sheet and the totals |
| `accounting_engine.dfy` | `AccountingEngine` | the two loops of the engine as methods, proved equal to their specifications |
| `mock_scenario.dfy` | `MockScenario` | the sample journal worked through end to end |

Modelling choices:

- **Amounts.** Amounts are unbounded integers, in whole currency units.
- **The accumulator record.** It becomes two things: a sequence of account names in first-seen order,
  and a map from name to `(debit, credit)`. The ledger list is emitted in that first-seen order. For a
  given entry, its debit account is introduced before its credit account.
- **Specification functions.** They are left folds taken from the end of the list (`s[..|s| - 1]`),
  which is the order in which `forEach` and `reduce` consume the list.
- **The chart.** The chart that names are resolved in is an explicit parameter of the specification
  functions and of the two methods. The engine itself always resolves in the static `CHART_OF_ACCOUNTS`.
  `ChartResolver.GetAccountDetails` is that instance, and the end-to-end lemmas use the static chart.
  General lemmas that need chart facts state them as preconditions (`DistinctNames`,
  `CostHeadsAreExpenses`, `NoDirectExpenseHeads`), and `Constants` proves those facts for the static chart.
- **Bucketing.** The statement bucket is computed from the re-resolved head, never from the ledger's own
  `type`. This matches the code (`meta` at services/accountingEngine.ts:76).
- **Order of the journal.** Permuting the journal leaves every account's ledger the same. It also leaves
  the set of ledgers the same and changes only their first-seen order (`LedgersPermutation`).
- **Idempotence.** `generateLedgers` never changes its input and is deterministic. Both facts hold of
  the model by construction: its input is a value and its output is the function `Ledgers` of it.

## Model

| member | source | states |
|---|---|---|
| ChartResolver.FindByName | services/accountingEngine.ts:11 | the search finds nothing exactly when no chart head has that name; anything it finds is a chart head with that name |
| ChartResolver.FindFirstMatch | services/accountingEngine.ts:11 | when several heads share a name, the search returns the one with the smallest index |
| ChartResolver.Resolve | services/accountingEngine.ts:10-18 | resolution never fails; the resolved head always carries the looked-up name; it is a chart head when the name is in the chart, and the code-999 indirect expense without cost category otherwise |
| ChartResolver.GetAccountDetails | services/accountingEngine.ts:10-18 | the same three facts for the static chart, with the fallback spelled out |
| ChartResolver.ResolveOwnName | services/accountingEngine.ts:11 | in a chart with distinct names, each head is exactly what its own name resolves to |
| ChartResolver.ResolveChartHead | constants.ts:4-25 | every head of the static chart is what the engine resolves its name to |
| ChartResolver.ResolvedCostCategory | constants.ts:5-24 | under a chart whose cost heads are exactly its expenses: a resolved head with a cost category is an expense (the fallback has none), and a chart expense always has a cost category; if the chart also has no Direct Expense head, no name resolves to Direct Expense |
| Constants.ChartNamesDistinct | constants.ts:4-25 | no two heads of the static chart share a name, so the first match is the only match |
| Constants.ChartCodesDistinct | constants.ts:4-25 | no two heads of the static chart share a code |
| Constants.ChartCostCategories | constants.ts:5-24 | a static head has a cost category exactly when it is an expense (`CostHeadsAreExpenses`), and none uses Direct Expense (`NoDirectExpenseHeads`) |
| Constants.ChartDirectFlags | constants.ts:5-17 | asset, liability and equity heads are indirect and have no cost category; both revenue heads are direct |
| Constants.MockEntriesWellFormed | constants.ts:34-48 | every sample amount is positive, and every account the sample journal names is a head of the static chart |
| LedgerAggregator.AccountNamesDistinct | services/accountingEngine.ts:23-33 | the ledger names (the key order of the accumulator) contain no duplicates |
| LedgerAggregator.AccountNamesComplete | services/accountingEngine.ts:23-33 | a name is among the ledger names exactly when some entry debits or credits it, whether or not the chart knows it |
| LedgerAggregator.OneLedgerPerAccount | services/accountingEngine.ts:33-48 | one ledger per mentioned name and no other; each ledger holds the sum of the amounts debited to that name, the sum credited to it, debit minus credit as its closing balance, and the resolved type |
| LedgerAggregator.NoEntriesNoLedgers | services/accountingEngine.ts:20-49 | an empty journal gives an empty ledger list |
| LedgerAggregator.PostedSnoc | services/accountingEngine.ts:23-31 | one more entry raises exactly its own account's total on each side by its amount, and introduces its debit name, then its credit name |
| LedgerAggregator.PostedUnmentioned | services/accountingEngine.ts:25-30 | nothing is posted to a name no entry mentions (the zero accumulator of a first sighting) |
| LedgerAggregator.ZeroSum | services/accountingEngine.ts:23-39 | over the whole ledger set the closing balances sum to 0, and the debit totals and the credit totals each sum to the total amount of the journal |
| LedgerAggregator.PostedAppend | services/accountingEngine.ts:23-31 | what a journal posts to a name is what its two halves post, added |
| LedgerAggregator.PostedPermutation | services/accountingEngine.ts:23-31 | reordering the journal changes no account's debit or credit total |
| LedgerAggregator.AccountNamesPermutation | services/accountingEngine.ts:23-33 | reordering the journal keeps the same set of ledger names |
| LedgerAggregator.LedgersPermutation | services/accountingEngine.ts:23-48 | reordering the journal gives every account the same ledger, and the same set of ledgers |
| AccountingEngine.GenerateLedgers | services/accountingEngine.ts:20-49 | the accumulate-then-emit loop returns exactly `Ledgers` of its input (one ledger per name, first-seen order, full totals), whose closing balances sum to 0 |
| AccountingEngine.PostDebit | services/accountingEngine.ts:25-26 | opening the debit account at zero if it is new, then adding the amount, keeps the accumulator in step with the entries with this debit posted |
| AccountingEngine.PostCredit | services/accountingEngine.ts:29-30 | the same for the credit side; afterwards the accumulator tracks the journal including this entry |
| AccountingEngine.GenerateFinancialStatements | services/accountingEngine.ts:51-138 | the bucketing loop and the totals return exactly `Statements` of the input ledgers |
| AccountingEngine.AllocateStep | services/accountingEngine.ts:75-97 | one pass of the loop body pushes the ledger onto its cost line and its one statement list, and leaves every list equal to the selection of the ledgers seen so far |
| StatementClassifier.CostDetails | services/accountingEngine.ts:66-73 | the cost-sheet record has exactly the six categories other than N/A as keys |
| StatementClassifier.SelectSnoc | services/accountingEngine.ts:79-96 | appending a ledger pushes it onto every list it belongs to and leaves the others unchanged |
| StatementClassifier.CostDetailsSnoc | services/accountingEngine.ts:79-81 | appending a ledger pushes it onto its own category's cost line when it has one, and otherwise leaves the cost sheet unchanged |
| StatementClassifier.SelectMembership | services/accountingEngine.ts:75-97 | a ledger is on a list exactly when it is an input ledger that belongs there |
| StatementClassifier.SelectAppend | services/accountingEngine.ts:75-97 | selection distributes over concatenation, so each list keeps the relative input order |
| StatementClassifier.DispatchTable | services/accountingEngine.ts:84-96 | the dispatch table read backwards: each of the seven buckets receives exactly the heads of its type and, for revenue and expense, its direct flag |
| StatementClassifier.BucketRule | services/accountingEngine.ts:84-96 | a ledger is listed under trading revenue, P&L income, COGS or P&L expenses exactly when it resolves to a direct revenue, indirect revenue, direct expense or indirect expense head, and under assets, liabilities or equity exactly when it resolves to that type |
| StatementClassifier.BucketsPartition | services/accountingEngine.ts:75-97 | the seven lists together hold as many ledgers as the input, and their closing balances add up to the input's, so every ledger is in exactly one list |
| StatementClassifier.StatementsLists | services/accountingEngine.ts:121-138 | each list in the report is the selection of the input for that bucket, and the cost-sheet details are the selections for the six categories |
| StatementClassifier.UnknownAccountPlacement | services/accountingEngine.ts:11-17 | a ledger whose name the chart does not know is listed under P&L expenses and on no cost line |
| StatementClassifier.CostSheetPlacement | services/accountingEngine.ts:79-81 | each cost line holds exactly the input ledgers of that category, whatever their statement bucket |
| StatementClassifier.SelectNone | services/accountingEngine.ts:75-97 | a list that none of the input ledgers belongs to stays empty |
| StatementClassifier.DirectExpenseLinesEmpty | services/accountingEngine.ts:69 | under any chart with no direct-expense head, such as the static one, the Direct Expense line is always empty |
| StatementClassifier.Waterfall | services/accountingEngine.ts:113-119 | prime cost is the sum of the Direct Material, Direct Labor and Direct Expense lines; works cost adds Factory Overhead to it, cost of production adds Admin Overhead to works cost, and cost of sales adds Selling Overhead to cost of production; when every category sums to at least 0 the four stages never decrease |
| StatementClassifier.WaterfallNonNegativeLedgers | services/accountingEngine.ts:113-119 | when no cost ledger has a negative closing balance, the four stages are non-negative and never decrease |
| StatementClassifier.ProfitAndAssetTotals | services/accountingEngine.ts:104-129 | gross profit is the absolute revenue sum less the COGS sum; net profit adds the absolute indirect income and subtracts the indirect expenses; total assets is the asset sum; liabilities and equity is always 0; with credit-balance revenue and income, net profit is their credit total less COGS and expenses |
| StatementClassifier.EmptyReport | services/accountingEngine.ts:51-138 | with no ledgers every list is empty and every total is 0 |
| StatementClassifier.CostOfSalesIsTotalExpense | services/accountingEngine.ts:104-119 | under any chart whose cost heads are exactly its expenses (Direct Expense heads allowed), and with every ledger in the chart: cost of sales equals total COGS plus P&L expenses, and net profit equals revenue plus indirect income less cost of sales |
| StatementClassifier.BalanceSheetWouldClose | services/accountingEngine.ts:128-129 | for the ledgers of any journal, with credit-balance revenue and income: the engine reports L&E as 0, and total assets equal net profit plus the credit balances of liabilities and equity |
| MockScenario.SampleAccountNames | services/accountingEngine.ts:23-33 | a journal of the sample's shape produces exactly the sample's eleven names, in first-seen order |
| MockScenario.SampleLedgers | services/accountingEngine.ts:33-48 | a chart and journal of the sample's shape give eleven ledgers with the sample's totals, types, buckets and categories |
| MockScenario.SampleStatements | services/accountingEngine.ts:104-128 | such a chart and journal give gross profit 975,000, net profit 825,000, total assets 7,050,000 and the waterfall 1,500,000 / 1,525,000 / 1,575,000 / 1,675,000 |
| MockScenario.MockChartShape | constants.ts:34-48 | the static chart and the sample journal have the sample's shape |
| MockScenario.MockLedgers | constants.ts:34-48 | the sample journal under the static chart: eleven ledgers in first-seen order with their totals; Bank +3,750,000, Share Capital −5,000,000, Accounts Payable −1,225,000, Sales −2,500,000 |
| MockScenario.MockReport | constants.ts:34-48 | the sample journal's report: gross profit 975,000, net profit 825,000, total assets 7,050,000, L&E 0, and the waterfall 1,500,000 / 1,525,000 / 1,575,000 / 1,675,000 |

## Left out

- The React application (`App.tsx`) is not part of this model. It covers:
  - login and registration against an in-memory user list;
  - `Date.now()` entry ids;
  - importing CSV with `FileReader` and `parseFloat`;
  - alerts.
- Tenant filtering by `clientId` happens in the caller, before entries reach the engine. The model takes
  whatever journal it is given. A filtered journal still balances, since `ZeroSum` holds for any journal.
- The rendering in `components/FinancialReports.tsx` and `components/Layout.tsx` is not modelled:
  currency formatting, `window.print` and the DOM-based CSV download. The report view adds the
  absolute equity, the absolute liabilities and the net profit into a "Total Liabilities" figure.
  That is presentation arithmetic and is not modelled. `BalanceSheetWouldClose` states the identity
  such a figure relies on, and the engine's own `totalLiabilitiesAndEquity` stays 0 as in the code.
- JavaScript `number`: NaN, infinities, rounding of fractional amounts and overflow beyond 2^53 are not
  modelled. Amounts are unbounded integers.
- Nothing validates amounts. Zero and negative amounts are accepted and flow into the sums, as in the
  code.
- `Object.keys` lists integer-like property names (such as "42") first, in numeric order. The model
  always uses first-seen insertion order, so it differs from the code for journals that use such
  account names.
- The accumulator is a plain object in the code, so names inherited from `Object.prototype`
  ("constructor", "toString", "__proto__" and the like) behave differently there. The `!ledgerMap[x]`
  guard (services/accountingEngine.ts:25,29) sees such a name as present, so it never gets its own
  accumulator, and `+=` writes NaN onto the inherited member. `Object.keys` (line 33) does not list it,
  so that account is missing from the ledgers and the remaining balances no longer sum to 0. The model
  treats every name as an ordinary key: `OneLedgerPerAccount` and `ZeroSum` do not carry over to the code
  for journals that use such names.
- `MOCK_USERS` (constants.ts:28-31) and its use for authentication are not modelled.
- The `User` and `UserRole` types (types.ts:1-13) are not modelled.
- `GenerateLedgers` and `GenerateFinancialStatements` take the chart as a parameter rather than reading
  the static chart themselves. Every result about the static chart is stated by instantiating that
  parameter with `Constants.ChartOfAccounts`.
- MockScenario.MockLedgers states the first-seen names and the eleven ledgers as one formula over the
  sample's tables rather than spelling out every record. Only the four balances quoted above are written
  as literals.
