/**
 * The sample journal of the static data (`Constants.MockEntries`) worked
 * through the engine's specification: the account names it mentions, the
 * ledger of each account, and the statements, totals and cost waterfall
 * of that ledger set. By the contracts of `AccountingEngine.GenerateLedgers`
 * and `AccountingEngine.GenerateFinancialStatements` these are also what
 * the two loops return on it.
 *
 * The results are first proved for every chart, journal and name list of
 * the sample's shape (`SampleShape`): which name each entry debits and
 * credits, what it posts, and how the chart classifies each name, all
 * given by index. The numbers are then folds over small tables of the
 * sample's amounts, which the verifier evaluates, and the names stay
 * symbolic. Finally the static chart and the sample journal are shown to
 * have that shape.
 */
module MockScenario {
  import opened Types
  import opened Constants
  import opened ChartResolver
  import opened LedgerAggregator
  import opened StatementClassifier

  // ----- The shape of the sample journal, by index -----

  /** The index in the name list of each sample entry's debit account. */
  const DebitOf: seq<nat> := [0, 2, 4, 6, 7, 8, 9, 10]

  /** The index in the name list of each sample entry's credit account. */
  const CreditOf: seq<nat> := [1, 3, 5, 0, 0, 3, 0, 0]

  /** The amount of each sample entry. */
  const AmountOf: seq<int> := [5000000, 1200000, 2500000, 300000, 50000, 25000, 100000, 800000]

  /** The accounts the sample journal mentions, in first-seen order. */
  const MockNames: seq<string> := [
    "Bank", "Share Capital", "Raw Material Purchase", "Accounts Payable", "Accounts Receivable", "Sales",
    "Factory Wages", "Office Rent", "Factory Electricity", "Marketing", "Machinery"]

  /** The index in the static chart of the head of each name. */
  const HeadOf: seq<nat> := [1, 6, 10, 4, 2, 8, 11, 13, 12, 15, 3]

  /** The type of each name's head. */
  const TypeOf: seq<AccountType> := [
    Asset, Equity, Expense, Liability, Asset, Revenue, Expense, Expense, Expense, Expense, Asset]

  /** The statement bucket of name `j`'s head (names 0 to 10). */
  function BucketOfName(j: nat): Bucket {
    if j == 0 then BalanceAssets else if j == 1 then BalanceEquity else if j == 2 then TradingCogs
    else if j == 3 then BalanceLiabilities else if j == 4 then BalanceAssets else if j == 5 then TradingRevenue
    else if j == 6 then TradingCogs else if j == 7 then PnlExpenses else if j == 8 then TradingCogs
    else if j == 9 then PnlExpenses
    else BalanceAssets
  }

  /** The cost category of name `j`'s head (names 0 to 10). */
  function CategoryOfName(j: nat): CostCategory {
    if j == 0 then NotApplicable else if j == 1 then NotApplicable else if j == 2 then DirectMaterial
    else if j == 3 then NotApplicable else if j == 4 then NotApplicable else if j == 5 then NotApplicable
    else if j == 6 then DirectLabor else if j == 7 then AdminOverhead else if j == 8 then FactoryOverhead
    else if j == 9 then SellingOverhead
    else NotApplicable
  }

  /** The debit total of name `j`'s ledger (names 0 to 10). */
  function MockDebit(j: nat): int {
    if j == 0 then 5000000 else if j == 1 then 0 else if j == 2 then 1200000 else if j == 3 then 0
    else if j == 4 then 2500000 else if j == 5 then 0 else if j == 6 then 300000 else if j == 7 then 50000
    else if j == 8 then 25000 else if j == 9 then 100000
    else 800000
  }

  /** The credit total of name `j`'s ledger (names 0 to 10). */
  function MockCredit(j: nat): int {
    if j == 0 then 1250000 else if j == 1 then 5000000 else if j == 2 then 0 else if j == 3 then 1225000
    else if j == 4 then 0 else if j == 5 then 2500000 else if j == 6 then 0 else if j == 7 then 0
    else if j == 8 then 0 else if j == 9 then 0
    else 0
  }

  /** Entry `k` debits name `DebitOf[k]`, credits name `CreditOf[k]` and posts `AmountOf[k]`. */
  predicate EntryShaped(es: seq<JournalEntry>, ns: seq<string>, k: nat)
    requires k < |es| == |DebitOf|
  {
    && DebitOf[k] < |ns| && CreditOf[k] < |ns|
    && es[k].debitAccount == ns[DebitOf[k]] && es[k].creditAccount == ns[CreditOf[k]]
    && es[k].amount == AmountOf[k]
  }

  /** Name `j` is the name of head `HeadOf[j]`, whose type, bucket and category are given. */
  predicate HeadShaped(chart: seq<AccountHead>, ns: seq<string>, j: nat)
    requires j < |ns| == |HeadOf|
  {
    && HeadOf[j] < |chart| && chart[HeadOf[j]].name == ns[j]
    && chart[HeadOf[j]].accountType == TypeOf[j]
    && StatementBucket(chart[HeadOf[j]]) == BucketOfName(j)
    && chart[HeadOf[j]].costCategory == CategoryOfName(j)
  }

  /** A journal of the sample's shape over the distinct names `ns`. */
  predicate JournalShape(es: seq<JournalEntry>, ns: seq<string>) {
    && |es| == |DebitOf| && |ns| == |HeadOf| && Distinct(ns)
    && forall k | 0 <= k < |es| :: EntryShaped(es, ns, k)
  }

  /** A chart and journal of the sample's shape. */
  predicate SampleShape(chart: seq<AccountHead>, es: seq<JournalEntry>, ns: seq<string>) {
    && JournalShape(es, ns) && DistinctNames(chart)
    && forall j | 0 <= j < |ns| :: HeadShaped(chart, ns, j)
  }

  // ----- Account names -----

  /** The account names of the first `n` entries, in first-seen order. */
  function NamesUpTo(es: seq<JournalEntry>, n: nat): seq<string>
    requires n <= |es|
  {
    if n == 0 then []
    else Introduce(Introduce(NamesUpTo(es, n - 1), es[n - 1].debitAccount), es[n - 1].creditAccount)
  }

  lemma {:induction false} NamesUpToAgrees(es: seq<JournalEntry>, n: nat)
    requires n <= |es|
    ensures AccountNames(es[..n]) == NamesUpTo(es, n)
  {
    if n > 0 {
      NamesUpToAgrees(es, n - 1);
      TakeSnoc(es, n - 1);
      PostedSnoc(es[..n - 1], es[n - 1], "", Debit);
    }
  }

  /** An entry whose accounts are both new appends both, debit account first. */
  lemma NamesBothNew(es: seq<JournalEntry>, ns: seq<string>, n: nat, p: nat)
    requires Distinct(ns) && n < |es| && p + 2 <= |ns|
    requires NamesUpTo(es, n) == ns[..p]
    requires es[n].debitAccount == ns[p] && es[n].creditAccount == ns[p + 1]
    ensures NamesUpTo(es, n + 1) == ns[..p + 2]
  {
    assert ns[p] !in ns[..p];
    TakeSnoc(ns, p);
    assert ns[p + 1] !in ns[..p + 1];
    TakeSnoc(ns, p + 1);
  }

  /** An entry whose debit account is new and whose credit account is known appends the debit account. */
  lemma NamesDebitNew(es: seq<JournalEntry>, ns: seq<string>, n: nat, p: nat, q: nat)
    requires Distinct(ns) && n < |es| && q < p < |ns|
    requires NamesUpTo(es, n) == ns[..p]
    requires es[n].debitAccount == ns[p] && es[n].creditAccount == ns[q]
    ensures NamesUpTo(es, n + 1) == ns[..p + 1]
  {
    assert ns[p] !in ns[..p];
    TakeSnoc(ns, p);
    assert ns[..p + 1][q] == ns[q];
  }

  /** The first four sample entries introduce the first seven names. */
  lemma NamesFirstHalf(es: seq<JournalEntry>, ns: seq<string>)
    requires JournalShape(es, ns)
    ensures NamesUpTo(es, 4) == ns[..7]
  {
    assert EntryShaped(es, ns, 0) && EntryShaped(es, ns, 1) && EntryShaped(es, ns, 2) && EntryShaped(es, ns, 3);
    assert NamesUpTo(es, 0) == ns[..0];
    NamesBothNew(es, ns, 0, 0);
    NamesBothNew(es, ns, 1, 2);
    NamesBothNew(es, ns, 2, 4);
    NamesDebitNew(es, ns, 3, 6, 0);
  }

  /** The last four sample entries introduce one name each. */
  lemma NamesSecondHalf(es: seq<JournalEntry>, ns: seq<string>)
    requires JournalShape(es, ns)
    ensures NamesUpTo(es, 8) == ns
  {
    NamesFirstHalf(es, ns);
    assert EntryShaped(es, ns, 4) && EntryShaped(es, ns, 5) && EntryShaped(es, ns, 6) && EntryShaped(es, ns, 7);
    NamesDebitNew(es, ns, 4, 7, 0);
    NamesDebitNew(es, ns, 5, 8, 3);
    NamesDebitNew(es, ns, 6, 9, 0);
    NamesDebitNew(es, ns, 7, 10, 0);
    assert ns[..11] == ns;
  }

  /** A journal of the sample's shape mentions exactly its names, in their order. */
  lemma SampleAccountNames(es: seq<JournalEntry>, ns: seq<string>)
    requires JournalShape(es, ns)
    ensures AccountNames(es) == ns
  {
    NamesSecondHalf(es, ns);
    NamesUpToAgrees(es, 8);
    assert es[..8] == es;
  }

  // ----- Ledgers -----

  /** What the first `n` sample entries post to name `j` on the side whose name indices are `side`. */
  function IxPosted(side: seq<nat>, j: nat, n: nat): int
    requires n <= |side| == |AmountOf|
  {
    if n == 0 then 0
    else IxPosted(side, j, n - 1) + (if side[n - 1] == j then AmountOf[n - 1] else 0)
  }

  lemma {:induction false} PostedByIndex(es: seq<JournalEntry>, ns: seq<string>, j: nat, n: nat)
    requires JournalShape(es, ns) && j < |ns| && n <= |es|
    ensures Posted(es[..n], ns[j], Debit) == IxPosted(DebitOf, j, n)
    ensures Posted(es[..n], ns[j], Credit) == IxPosted(CreditOf, j, n)
  {
    if n > 0 {
      PostedByIndex(es, ns, j, n - 1);
      TakeSnoc(es, n - 1);
      PostedSnoc(es[..n - 1], es[n - 1], ns[j], Debit);
      PostedSnoc(es[..n - 1], es[n - 1], ns[j], Credit);
      assert EntryShaped(es, ns, n - 1);
    }
  }

  /** The totals the sample journal posts to each name. */
  lemma SampleTotals()
    ensures forall j | 0 <= j < 11 ::
      IxPosted(DebitOf, j, 8) == MockDebit(j) && IxPosted(CreditOf, j, 8) == MockCredit(j)
  {
    forall j | 0 <= j < 11 ensures IxPosted(DebitOf, j, 8) == MockDebit(j) && IxPosted(CreditOf, j, 8) == MockCredit(j) {
      if j == 0 {} else if j == 1 {} else if j == 2 {} else if j == 3 {} else if j == 4 {} else if j == 5 {}
      else if j == 6 {} else if j == 7 {} else if j == 8 {} else if j == 9 {} else {}
    }
  }

  /** One ledger per name of the sample's shape, with its totals and its head's type, bucket and category. */
  lemma SampleLedgers(chart: seq<AccountHead>, es: seq<JournalEntry>, ns: seq<string>)
    requires SampleShape(chart, es, ns)
    ensures |Ledgers(chart, es)| == |ns|
    ensures forall j | 0 <= j < |ns| ::
      Ledgers(chart, es)[j] == LedgerBalance(ns[j], MockDebit(j), MockCredit(j), MockDebit(j) - MockCredit(j), TypeOf[j])
    ensures forall j | 0 <= j < |ns| ::
      BucketOf(chart, Ledgers(chart, es)[j]) == BucketOfName(j) && CategoryOf(chart, Ledgers(chart, es)[j]) == CategoryOfName(j)
  {
    SampleAccountNames(es, ns);
    SampleTotals();
    assert es[..8] == es;
    forall j | 0 <= j < |ns|
      ensures Ledgers(chart, es)[j] == LedgerBalance(ns[j], MockDebit(j), MockCredit(j), MockDebit(j) - MockCredit(j), TypeOf[j])
      ensures BucketOf(chart, Ledgers(chart, es)[j]) == BucketOfName(j) && CategoryOf(chart, Ledgers(chart, es)[j]) == CategoryOfName(j)
    {
      assert HeadShaped(chart, ns, j);
      ResolveOwnName(chart, HeadOf[j]);
      PostedByIndex(es, ns, j, 8);
    }
  }

  // ----- Statements -----

  /** The closing balances of those of the first `n` sample ledgers in bucket `b`, summed. */
  function BucketTotal(b: Bucket, n: nat): int {
    if n == 0 then 0
    else BucketTotal(b, n - 1) + (if BucketOfName(n - 1) == b then MockDebit(n - 1) - MockCredit(n - 1) else 0)
  }

  /** The closing balances of those of the first `n` sample ledgers in cost category `c`, summed. */
  function CategoryTotal(c: CostCategory, n: nat): int {
    if n == 0 then 0
    else CategoryTotal(c, n - 1) + (if CategoryOfName(n - 1) == c then MockDebit(n - 1) - MockCredit(n - 1) else 0)
  }

  /** Ledgers with the sample's closing balances and buckets: a bucket's total is `BucketTotal`. */
  lemma {:induction false} StatementTotal(chart: seq<AccountHead>, ls: seq<LedgerBalance>, b: Bucket, n: nat)
    requires |ls| == 11 && n <= |ls|
    requires forall k | 0 <= k < |ls| ::
      ls[k].closingBalance == MockDebit(k) - MockCredit(k) && BucketOf(chart, ls[k]) == BucketOfName(k)
    ensures SumClosing(Select(chart, ls[..n], Statement(b))) == BucketTotal(b, n)
  {
    if n > 0 {
      StatementTotal(chart, ls, b, n - 1);
      SelectStep(chart, ls, n - 1, Statement(b));
    }
  }

  /** Ledgers with the sample's closing balances and categories: a category's total is `CategoryTotal`. */
  lemma {:induction false} CostTotal(chart: seq<AccountHead>, ls: seq<LedgerBalance>, c: CostCategory, n: nat)
    requires |ls| == 11 && n <= |ls|
    requires forall k | 0 <= k < |ls| ::
      ls[k].closingBalance == MockDebit(k) - MockCredit(k) && CategoryOf(chart, ls[k]) == CategoryOfName(k)
    ensures SumClosing(Select(chart, ls[..n], CostLine(c))) == CategoryTotal(c, n)
  {
    if n > 0 {
      CostTotal(chart, ls, c, n - 1);
      SelectStep(chart, ls, n - 1, CostLine(c));
    }
  }

  // One literal fold per lemma: the sample's total in each bucket and category.
  lemma TradingRevenueTotal() ensures BucketTotal(TradingRevenue, 11) == -2500000 {}
  lemma TradingCogsTotal() ensures BucketTotal(TradingCogs, 11) == 1525000 {}
  lemma PnlIncomeTotal() ensures BucketTotal(PnlIncome, 11) == 0 {}
  lemma PnlExpensesTotal() ensures BucketTotal(PnlExpenses, 11) == 150000 {}
  lemma BalanceAssetsTotal() ensures BucketTotal(BalanceAssets, 11) == 7050000 {}
  lemma BalanceLiabilitiesTotal() ensures BucketTotal(BalanceLiabilities, 11) == -1225000 {}
  lemma BalanceEquityTotal() ensures BucketTotal(BalanceEquity, 11) == -5000000 {}
  lemma DirectMaterialTotal() ensures CategoryTotal(DirectMaterial, 11) == 1200000 {}
  lemma DirectLaborTotal() ensures CategoryTotal(DirectLabor, 11) == 300000 {}
  lemma DirectExpenseTotal() ensures CategoryTotal(DirectExpense, 11) == 0 {}
  lemma FactoryOverheadTotal() ensures CategoryTotal(FactoryOverhead, 11) == 25000 {}
  lemma AdminOverheadTotal() ensures CategoryTotal(AdminOverhead, 11) == 50000 {}
  lemma SellingOverheadTotal() ensures CategoryTotal(SellingOverhead, 11) == 100000 {}

  /** The sample's total in each statement bucket. */
  function BucketExpected(b: Bucket): int {
    match b
    case TradingRevenue => -2500000
    case TradingCogs => 1525000
    case PnlIncome => 0
    case PnlExpenses => 150000
    case BalanceAssets => 7050000
    case BalanceLiabilities => -1225000
    case BalanceEquity => -5000000
  }

  /** The sample's total in each cost category. */
  function CategoryExpected(c: CostCategory): int {
    match c
    case DirectMaterial => 1200000
    case DirectLabor => 300000
    case DirectExpense => 0
    case FactoryOverhead => 25000
    case AdminOverhead => 50000
    case SellingOverhead => 100000
    case NotApplicable => 0 // no cost line
  }

  /** Ledgers with the sample's balances and classification. */
  predicate SampleLike(chart: seq<AccountHead>, ls: seq<LedgerBalance>) {
    && |ls| == 11
    && forall k | 0 <= k < |ls| ::
      && ls[k].closingBalance == MockDebit(k) - MockCredit(k)
      && BucketOf(chart, ls[k]) == BucketOfName(k) && CategoryOf(chart, ls[k]) == CategoryOfName(k)
  }

  /** A statement bucket's total over ledgers with the sample's balances and classification. */
  lemma SampleBucketSum(chart: seq<AccountHead>, ls: seq<LedgerBalance>, b: Bucket)
    requires SampleLike(chart, ls)
    ensures SumClosing(Select(chart, ls, Statement(b))) == BucketExpected(b)
  {
    assert ls[..11] == ls;
    StatementTotal(chart, ls, b, 11);
    match b
    case TradingRevenue => TradingRevenueTotal();
    case TradingCogs => TradingCogsTotal();
    case PnlIncome => PnlIncomeTotal();
    case PnlExpenses => PnlExpensesTotal();
    case BalanceAssets => BalanceAssetsTotal();
    case BalanceLiabilities => BalanceLiabilitiesTotal();
    case BalanceEquity => BalanceEquityTotal();
  }

  /** A cost category's total over ledgers with the sample's balances and classification. */
  lemma SampleCategorySum(chart: seq<AccountHead>, ls: seq<LedgerBalance>, c: CostCategory)
    requires SampleLike(chart, ls) && c != NotApplicable
    ensures SumClosing(Select(chart, ls, CostLine(c))) == CategoryExpected(c)
  {
    assert ls[..11] == ls;
    CostTotal(chart, ls, c, 11);
    if c == DirectMaterial { DirectMaterialTotal(); }
    else if c == DirectLabor { DirectLaborTotal(); }
    else if c == DirectExpense { DirectExpenseTotal(); }
    else if c == FactoryOverhead { FactoryOverheadTotal(); }
    else if c == AdminOverhead { AdminOverheadTotal(); }
    else { SellingOverheadTotal(); }
  }

  /** The report of ledgers with the sample's balances and classification. */
  lemma SampleReport(chart: seq<AccountHead>, ls: seq<LedgerBalance>)
    requires SampleLike(chart, ls)
    ensures var r := Statements(chart, ls);
      && r.trading.grossProfit == 975000 && r.pnl.netProfit == 825000
      && r.balanceSheet.totalAssets == 7050000 && r.balanceSheet.totalLiabilitiesAndEquity == 0
      && r.costSheet.primeCost == 1500000 && r.costSheet.worksCost == 1525000
      && r.costSheet.costOfProduction == 1575000 && r.costSheet.costOfSales == 1675000
  {
    SampleBucketSum(chart, ls, TradingRevenue);
    SampleBucketSum(chart, ls, TradingCogs);
    SampleBucketSum(chart, ls, PnlIncome);
    SampleBucketSum(chart, ls, PnlExpenses);
    SampleBucketSum(chart, ls, BalanceAssets);
    SampleCategorySum(chart, ls, DirectMaterial);
    SampleCategorySum(chart, ls, DirectLabor);
    SampleCategorySum(chart, ls, DirectExpense);
    SampleCategorySum(chart, ls, FactoryOverhead);
    SampleCategorySum(chart, ls, AdminOverhead);
    SampleCategorySum(chart, ls, SellingOverhead);
  }

  /** The report of a chart and journal of the sample's shape. */
  lemma SampleStatements(chart: seq<AccountHead>, es: seq<JournalEntry>, ns: seq<string>)
    requires SampleShape(chart, es, ns)
    ensures var r := Statements(chart, Ledgers(chart, es));
      && r.trading.grossProfit == 975000 && r.pnl.netProfit == 825000
      && r.balanceSheet.totalAssets == 7050000 && r.balanceSheet.totalLiabilitiesAndEquity == 0
      && r.costSheet.primeCost == 1500000 && r.costSheet.worksCost == 1525000
      && r.costSheet.costOfProduction == 1575000 && r.costSheet.costOfSales == 1675000
  {
    SampleLedgers(chart, es, ns);
    var ls := Ledgers(chart, es);
    assert SampleLike(chart, ls) by {
      forall k | 0 <= k < |ls|
        ensures ls[k].closingBalance == MockDebit(k) - MockCredit(k)
      {
      }
    }
    SampleReport(chart, ls);
  }

  // ----- The static chart and the sample journal -----

  lemma MockJournalShape()
    ensures JournalShape(MockEntries, MockNames)
  {
    assert Distinct(MockNames);
    forall k | 0 <= k < 8 ensures EntryShaped(MockEntries, MockNames, k) {
      if k == 0 {} else if k == 1 {} else if k == 2 {} else if k == 3 {}
      else if k == 4 {} else if k == 5 {} else if k == 6 {} else {}
    }
  }

  lemma MockChartShape()
    ensures SampleShape(ChartOfAccounts, MockEntries, MockNames)
  {
    MockJournalShape();
    ChartNamesDistinct();
    forall j | 0 <= j < 11 ensures HeadShaped(ChartOfAccounts, MockNames, j) {
      if j == 0 {} else if j == 1 {} else if j == 2 {} else if j == 3 {} else if j == 4 {} else if j == 5 {}
      else if j == 6 {} else if j == 7 {} else if j == 8 {} else if j == 9 {} else {}
    }
  }

  /** The sample's headline balances, read off the expected totals. */
  lemma HeadlineBalances(ls: seq<LedgerBalance>)
    requires |ls| == 11 && forall j | 0 <= j < 11 :: ls[j].closingBalance == MockDebit(j) - MockCredit(j)
    ensures ls[0].closingBalance == 3750000 && ls[1].closingBalance == -5000000
    ensures ls[3].closingBalance == -1225000 && ls[5].closingBalance == -2500000
  {
    assert ls[0].closingBalance == MockDebit(0) - MockCredit(0);
    assert ls[1].closingBalance == MockDebit(1) - MockCredit(1);
    assert ls[3].closingBalance == MockDebit(3) - MockCredit(3);
    assert ls[5].closingBalance == MockDebit(5) - MockCredit(5);
  }

  /**
   * The sample journal under the static chart: one ledger per mentioned
   * account, in first-seen order, with Bank at +3,750,000, Share Capital
   * at -5,000,000, Accounts Payable at -1,225,000 and Sales at -2,500,000.
   * (The chart and journal come in as variables equal to the constants, so
   * that the verifier does not evaluate the folds on the literals eagerly.)
   */
  lemma MockLedgers(chart: seq<AccountHead>, es: seq<JournalEntry>)
    requires chart == ChartOfAccounts && es == MockEntries
    ensures AccountNames(es) == MockNames
    ensures |Ledgers(chart, es)| == 11
    ensures forall j | 0 <= j < 11 ::
      Ledgers(chart, es)[j] == LedgerBalance(MockNames[j], MockDebit(j), MockCredit(j), MockDebit(j) - MockCredit(j), TypeOf[j])
    ensures var ls := Ledgers(chart, es);
      && ls[0].closingBalance == 3750000 && ls[1].closingBalance == -5000000
      && ls[3].closingBalance == -1225000 && ls[5].closingBalance == -2500000
  {
    MockChartShape();
    SampleAccountNames(es, MockNames);
    SampleLedgers(chart, es, MockNames);
    HeadlineBalances(Ledgers(chart, es));
  }

  /**
   * The report of the sample journal under the static chart: a gross
   * profit of 975,000 and a net profit of 825,000; total assets of
   * 7,050,000; and the cost waterfall 1,500,000, 1,525,000, 1,575,000,
   * 1,675,000.
   */
  lemma MockReport(chart: seq<AccountHead>, es: seq<JournalEntry>)
    requires chart == ChartOfAccounts && es == MockEntries
    ensures var r := Statements(chart, Ledgers(chart, es));
      && r.trading.grossProfit == 975000 && r.pnl.netProfit == 825000
      && r.balanceSheet.totalAssets == 7050000 && r.balanceSheet.totalLiabilitiesAndEquity == 0
      && r.costSheet.primeCost == 1500000 && r.costSheet.worksCost == 1525000
      && r.costSheet.costOfProduction == 1575000 && r.costSheet.costOfSales == 1675000
  {
    MockChartShape();
    SampleStatements(chart, es, MockNames);
  }
}
