/**
 * The records and enumerations of the bookkeeping domain.
 * Amounts are whole currency units (`int`); the floating-point `number`
 * of the TypeScript engine is not modelled.
 */
module Types {

  datatype AccountType = Asset | Liability | Equity | Revenue | Expense

  datatype CostCategory =
    | DirectMaterial
    | DirectLabor
    | DirectExpense
    | FactoryOverhead
    | AdminOverhead
    | SellingOverhead
    | NotApplicable

  /** One head of the chart of accounts; `isDirect` separates trading from P&L lines. */
  datatype AccountHead = AccountHead(
    code: string,
    name: string,
    accountType: AccountType,
    costCategory: CostCategory,
    isDirect: bool)

  /** A posted transaction: `amount` is debited to one account and credited to another. */
  datatype JournalEntry = JournalEntry(
    id: string,
    date: string,
    description: string,
    debitAccount: string,
    creditAccount: string,
    amount: int,
    clientId: string)

  /** Net position of one account; a positive closing balance is a net debit. */
  datatype LedgerBalance = LedgerBalance(
    accountName: string,
    totalDebit: int,
    totalCredit: int,
    closingBalance: int,
    accountType: AccountType)

  datatype TradingAccount = TradingAccount(
    revenue: seq<LedgerBalance>,
    cogs: seq<LedgerBalance>,
    grossProfit: int)

  datatype ProfitAndLoss = ProfitAndLoss(
    income: seq<LedgerBalance>,
    expenses: seq<LedgerBalance>,
    netProfit: int)

  datatype BalanceSheet = BalanceSheet(
    assets: seq<LedgerBalance>,
    liabilities: seq<LedgerBalance>,
    equity: seq<LedgerBalance>,
    totalAssets: int,
    totalLiabilitiesAndEquity: int)

  /** The cost waterfall and the ledgers of each cost category. */
  datatype CostSheet = CostSheet(
    primeCost: int,
    worksCost: int,
    costOfProduction: int,
    costOfSales: int,
    details: map<CostCategory, seq<LedgerBalance>>)

  datatype FinancialReportData = FinancialReportData(
    trading: TradingAccount,
    pnl: ProfitAndLoss,
    balanceSheet: BalanceSheet,
    costSheet: CostSheet)
}
