/** The static chart of accounts and the sample journal, with the facts the engine relies on. */
module Constants {
  import opened Types

  const ChartOfAccounts: seq<AccountHead> := [
    AccountHead("101", "Cash", Asset, NotApplicable, false),
    AccountHead("102", "Bank", Asset, NotApplicable, false),
    AccountHead("103", "Accounts Receivable", Asset, NotApplicable, false),
    AccountHead("104", "Machinery", Asset, NotApplicable, false),
    AccountHead("201", "Accounts Payable", Liability, NotApplicable, false),
    AccountHead("202", "Bank Loan", Liability, NotApplicable, false),
    AccountHead("301", "Share Capital", Equity, NotApplicable, false),
    AccountHead("302", "Retained Earnings", Equity, NotApplicable, false),
    AccountHead("401", "Sales", Revenue, NotApplicable, true),
    AccountHead("402", "Service Income", Revenue, NotApplicable, true),
    AccountHead("501", "Raw Material Purchase", Expense, DirectMaterial, true),
    AccountHead("502", "Factory Wages", Expense, DirectLabor, true),
    AccountHead("503", "Factory Electricity", Expense, FactoryOverhead, true),
    AccountHead("504", "Office Rent", Expense, AdminOverhead, false),
    AccountHead("505", "Salaries (Admin)", Expense, AdminOverhead, false),
    AccountHead("506", "Marketing", Expense, SellingOverhead, false)
  ]

  const MockEntries: seq<JournalEntry> := [
    JournalEntry("1", "2024-04-01", "Capital Infusion", "Bank", "Share Capital", 5000000, "c1"),
    JournalEntry("2", "2024-04-05", "Raw Material Purchase", "Raw Material Purchase", "Accounts Payable", 1200000, "c1"),
    JournalEntry("3", "2024-04-10", "Sales to Customer A", "Accounts Receivable", "Sales", 2500000, "c1"),
    JournalEntry("4", "2024-04-15", "Factory Wages Paid", "Factory Wages", "Bank", 300000, "c1"),
    JournalEntry("5", "2024-04-20", "Office Rent", "Office Rent", "Bank", 50000, "c1"),
    JournalEntry("6", "2024-04-25", "Factory Power Bill", "Factory Electricity", "Accounts Payable", 25000, "c1"),
    JournalEntry("7", "2024-04-28", "Marketing Campaign", "Marketing", "Bank", 100000, "c1"),
    JournalEntry("8", "2024-05-01", "Purchased New Machinery", "Machinery", "Bank", 800000, "c1")
  ]

  /** `name` is the name of some head of `chart`. */
  predicate NamedIn(chart: seq<AccountHead>, name: string) {
    exists i | 0 <= i < |chart| :: chart[i].name == name
  }

  predicate DistinctNames(chart: seq<AccountHead>) {
    forall i, j | 0 <= i < j < |chart| :: chart[i].name != chart[j].name
  }

  /** A head carries a cost category exactly when it is an expense. */
  predicate CostHeadsAreExpenses(chart: seq<AccountHead>) {
    forall i | 0 <= i < |chart| :: chart[i].costCategory != NotApplicable <==> chart[i].accountType == Expense
  }

  /** No head is classified as a direct expense. */
  predicate NoDirectExpenseHeads(chart: seq<AccountHead>) {
    forall i | 0 <= i < |chart| :: chart[i].costCategory != DirectExpense
  }

  /** No two heads of the static chart share a name. */
  lemma ChartNamesDistinct()
    ensures DistinctNames(ChartOfAccounts)
  {
    assert forall i, j | 0 <= i < j < |ChartOfAccounts| :: ChartOfAccounts[i].name != ChartOfAccounts[j].name;
  }

  /** No two heads of the static chart share a code. */
  lemma ChartCodesDistinct()
    ensures forall i, j | 0 <= i < j < |ChartOfAccounts| :: ChartOfAccounts[i].code != ChartOfAccounts[j].code
  {
  }

  /**
   * In the static chart a head carries a cost category exactly when it is
   * an expense, and no head is classified as a direct expense.
   */
  lemma ChartCostCategories()
    ensures CostHeadsAreExpenses(ChartOfAccounts)
    ensures NoDirectExpenseHeads(ChartOfAccounts)
  {
  }

  /** Balance-sheet heads are indirect and carry no cost category; revenue heads are direct. */
  lemma ChartDirectFlags()
    ensures forall i | 0 <= i < |ChartOfAccounts| && ChartOfAccounts[i].accountType in {Asset, Liability, Equity} ::
      !ChartOfAccounts[i].isDirect && ChartOfAccounts[i].costCategory == NotApplicable
    ensures forall i | 0 <= i < |ChartOfAccounts| && ChartOfAccounts[i].accountType == Revenue ::
      ChartOfAccounts[i].isDirect
  {
  }

  /** Every sample amount is positive and every sample account is a head of the chart. */
  lemma MockEntriesWellFormed()
    ensures forall k | 0 <= k < |MockEntries| :: MockEntries[k].amount > 0
    ensures forall k | 0 <= k < |MockEntries| ::
      NamedIn(ChartOfAccounts, MockEntries[k].debitAccount) && NamedIn(ChartOfAccounts, MockEntries[k].creditAccount)
  {
    assert ChartOfAccounts[1].name == "Bank";
    assert ChartOfAccounts[2].name == "Accounts Receivable";
    assert ChartOfAccounts[3].name == "Machinery";
    assert ChartOfAccounts[4].name == "Accounts Payable";
    assert ChartOfAccounts[6].name == "Share Capital";
    assert ChartOfAccounts[8].name == "Sales";
    assert ChartOfAccounts[10].name == "Raw Material Purchase";
    assert ChartOfAccounts[11].name == "Factory Wages";
    assert ChartOfAccounts[12].name == "Factory Electricity";
    assert ChartOfAccounts[13].name == "Office Rent";
    assert ChartOfAccounts[15].name == "Marketing";
  }
}
