/**
 * What generating the financial statements computes: the seven statement
 * buckets chosen by `(type, isDirect)` of the re-resolved head, the six
 * cost-sheet buckets chosen by its cost category, and the totals derived
 * from their closing balances. The chart is a parameter here; the engine
 * uses the static chart. The bucketing loop itself is
 * `AccountingEngine.GenerateFinancialStatements`.
 */
module StatementClassifier {
  import opened Types
  import opened Constants
  import opened ChartResolver
  import opened LedgerAggregator

  datatype Bucket =
    | TradingRevenue
    | TradingCogs
    | PnlIncome
    | PnlExpenses
    | BalanceAssets
    | BalanceLiabilities
    | BalanceEquity

  /** The dispatch table keyed on `(type, isDirect)`. */
  function StatementBucket(head: AccountHead): Bucket {
    match head.accountType
    case Revenue => if head.isDirect then TradingRevenue else PnlIncome
    case Expense => if head.isDirect then TradingCogs else PnlExpenses
    case Asset => BalanceAssets
    case Liability => BalanceLiabilities
    case Equity => BalanceEquity
  }

  /** The bucket of a ledger, from its name re-resolved (its own `accountType` is not consulted). */
  function BucketOf(chart: seq<AccountHead>, l: LedgerBalance): Bucket {
    StatementBucket(Resolve(chart, l.accountName))
  }

  function CategoryOf(chart: seq<AccountHead>, l: LedgerBalance): CostCategory {
    Resolve(chart, l.accountName).costCategory
  }

  /** A place a ledger can be listed in: a statement bucket or a cost-sheet category. */
  datatype Slot = Statement(bucket: Bucket) | CostLine(category: CostCategory)

  predicate Belongs(chart: seq<AccountHead>, l: LedgerBalance, slot: Slot) {
    match slot
    case Statement(b) => BucketOf(chart, l) == b
    case CostLine(c) => CategoryOf(chart, l) == c
  }

  /** The ledgers of `ls` that belong in `slot`, in input order (the pushes of the loop). */
  function Select(chart: seq<AccountHead>, ls: seq<LedgerBalance>, slot: Slot): seq<LedgerBalance> {
    if |ls| == 0 then []
    else
      Select(chart, ls[..|ls| - 1], slot)
      + (if Belongs(chart, ls[|ls| - 1], slot) then [ls[|ls| - 1]] else [])
  }

  /** The keys of the cost-sheet details record. */
  const CostCategories: set<CostCategory> :=
    {DirectMaterial, DirectLabor, DirectExpense, FactoryOverhead, AdminOverhead, SellingOverhead}

  function CostDetails(chart: seq<AccountHead>, ls: seq<LedgerBalance>): (m: map<CostCategory, seq<LedgerBalance>>)
    ensures m.Keys == CostCategories
    ensures forall c :: c in m <==> c != NotApplicable
  {
    CostCategoriesExact();
    map c | c in CostCategories :: Select(chart, ls, CostLine(c))
  }

  /** The cost-sheet keys are exactly the categories other than `NotApplicable`. */
  lemma CostCategoriesExact()
    ensures forall c :: c in CostCategories <==> c != NotApplicable
  {
    forall c ensures c in CostCategories <==> c != NotApplicable {
      match c
      case DirectMaterial =>
      case DirectLabor =>
      case DirectExpense =>
      case FactoryOverhead =>
      case AdminOverhead =>
      case SellingOverhead =>
      case NotApplicable =>
    }
  }

  function Abs(x: int): int {
    if x < 0 then -x else x
  }

  function SumCategory(details: map<CostCategory, seq<LedgerBalance>>, c: CostCategory): int
    requires c in details
  {
    SumClosing(details[c])
  }

  /** The calculations that follow the bucketing: profits, total assets and the cost waterfall. */
  function Assemble(
    revenue: seq<LedgerBalance>, cogs: seq<LedgerBalance>,
    income: seq<LedgerBalance>, expenses: seq<LedgerBalance>,
    assets: seq<LedgerBalance>, liabilities: seq<LedgerBalance>, equity: seq<LedgerBalance>,
    details: map<CostCategory, seq<LedgerBalance>>): FinancialReportData
    requires CostCategories <= details.Keys
  {
    var grossProfit := Abs(SumClosing(revenue)) - SumClosing(cogs);
    var netProfit := grossProfit + Abs(SumClosing(income)) - SumClosing(expenses);
    var primeCost := SumCategory(details, DirectMaterial) + SumCategory(details, DirectLabor)
      + SumCategory(details, DirectExpense);
    var worksCost := primeCost + SumCategory(details, FactoryOverhead);
    var costOfProduction := worksCost + SumCategory(details, AdminOverhead);
    var costOfSales := costOfProduction + SumCategory(details, SellingOverhead);
    FinancialReportData(
      TradingAccount(revenue, cogs, grossProfit),
      ProfitAndLoss(income, expenses, netProfit),
      BalanceSheet(assets, liabilities, equity, SumClosing(assets), 0),
      CostSheet(primeCost, worksCost, costOfProduction, costOfSales, details))
  }

  /** The report of a ledger set. */
  function Statements(chart: seq<AccountHead>, ls: seq<LedgerBalance>): FinancialReportData {
    Assemble(
      Select(chart, ls, Statement(TradingRevenue)), Select(chart, ls, Statement(TradingCogs)),
      Select(chart, ls, Statement(PnlIncome)), Select(chart, ls, Statement(PnlExpenses)),
      Select(chart, ls, Statement(BalanceAssets)), Select(chart, ls, Statement(BalanceLiabilities)),
      Select(chart, ls, Statement(BalanceEquity)),
      CostDetails(chart, ls))
  }

  /** Appending one ledger pushes it onto the buckets it belongs to and leaves the others alone. */
  lemma SelectSnoc(chart: seq<AccountHead>, ls: seq<LedgerBalance>, l: LedgerBalance, slot: Slot)
    ensures Select(chart, ls + [l], slot) == Select(chart, ls, slot) + (if Belongs(chart, l, slot) then [l] else [])
  {
    assert (ls + [l])[..|ls|] == ls;
  }

  lemma CostDetailsSnocAt(chart: seq<AccountHead>, ls: seq<LedgerBalance>, l: LedgerBalance, k: CostCategory)
    requires k != NotApplicable
    ensures CostDetails(chart, ls + [l])[k] == CostDetails(chart, ls)[k] + (if k == CategoryOf(chart, l) then [l] else [])
  {
    SelectSnoc(chart, ls, l, CostLine(k));
  }

  /** Appending a ledger with a cost category pushes it onto that category's line. */
  lemma CostDetailsPush(chart: seq<AccountHead>, ls: seq<LedgerBalance>, l: LedgerBalance)
    requires CategoryOf(chart, l) != NotApplicable
    ensures var c := CategoryOf(chart, l);
      CostDetails(chart, ls + [l]) == CostDetails(chart, ls)[c := CostDetails(chart, ls)[c] + [l]]
  {
    var before, after := CostDetails(chart, ls), CostDetails(chart, ls + [l]);
    var c := CategoryOf(chart, l);
    var pushed := before[c := before[c] + [l]];
    assert c in before;
    assert pushed.Keys == before.Keys == after.Keys;
    forall k | k in pushed ensures pushed[k] == after[k] {
      CostDetailsSnocAt(chart, ls, l, k);
    }
  }

  /** Appending a ledger without a cost category leaves the cost lines alone. */
  lemma CostDetailsSkip(chart: seq<AccountHead>, ls: seq<LedgerBalance>, l: LedgerBalance)
    requires CategoryOf(chart, l) == NotApplicable
    ensures CostDetails(chart, ls + [l]) == CostDetails(chart, ls)
  {
    var before, after := CostDetails(chart, ls), CostDetails(chart, ls + [l]);
    forall k | k in before ensures before[k] == after[k] {
      CostDetailsSnocAt(chart, ls, l, k);
    }
  }

  lemma CostDetailsSnoc(chart: seq<AccountHead>, ls: seq<LedgerBalance>, l: LedgerBalance)
    ensures var c := CategoryOf(chart, l);
      CostDetails(chart, ls + [l]) ==
        if c != NotApplicable then CostDetails(chart, ls)[c := CostDetails(chart, ls)[c] + [l]]
        else CostDetails(chart, ls)
  {
    if CategoryOf(chart, l) != NotApplicable {
      CostDetailsPush(chart, ls, l);
    } else {
      CostDetailsSkip(chart, ls, l);
    }
  }

  // ----- Placement -----

  /** A ledger is listed in a slot exactly when it is in the input and belongs there. */
  lemma {:induction false} SelectMembership(chart: seq<AccountHead>, ls: seq<LedgerBalance>, slot: Slot)
    ensures forall x :: x in Select(chart, ls, slot) <==> x in ls && Belongs(chart, x, slot)
  {
    if |ls| > 0 {
      SelectMembership(chart, ls[..|ls| - 1], slot);
      assert ls == ls[..|ls| - 1] + [ls[|ls| - 1]];
    }
  }

  /** Selection distributes over concatenation, so relative input order is kept in every slot. */
  lemma {:induction false} SelectAppend(chart: seq<AccountHead>, a: seq<LedgerBalance>, b: seq<LedgerBalance>, slot: Slot)
    ensures Select(chart, a + b, slot) == Select(chart, a, slot) + Select(chart, b, slot)
  {
    if |b| == 0 {
      assert a + b == a;
    } else {
      assert (a + b)[..|a + b| - 1] == a + b[..|b| - 1];
      SelectAppend(chart, a, b[..|b| - 1], slot);
    }
  }

  lemma SumClosingSnoc(ls: seq<LedgerBalance>, l: LedgerBalance)
    ensures SumClosing(ls + [l]) == SumClosing(ls) + l.closingBalance
  {
    assert (ls + [l])[..|ls|] == ls;
  }

  function StatementCount(chart: seq<AccountHead>, ls: seq<LedgerBalance>): int {
    |Select(chart, ls, Statement(TradingRevenue))| + |Select(chart, ls, Statement(TradingCogs))|
    + |Select(chart, ls, Statement(PnlIncome))| + |Select(chart, ls, Statement(PnlExpenses))|
    + |Select(chart, ls, Statement(BalanceAssets))| + |Select(chart, ls, Statement(BalanceLiabilities))|
    + |Select(chart, ls, Statement(BalanceEquity))|
  }

  function StatementSums(chart: seq<AccountHead>, ls: seq<LedgerBalance>): int {
    SumClosing(Select(chart, ls, Statement(TradingRevenue))) + SumClosing(Select(chart, ls, Statement(TradingCogs)))
    + SumClosing(Select(chart, ls, Statement(PnlIncome))) + SumClosing(Select(chart, ls, Statement(PnlExpenses)))
    + SumClosing(Select(chart, ls, Statement(BalanceAssets)))
    + SumClosing(Select(chart, ls, Statement(BalanceLiabilities)))
    + SumClosing(Select(chart, ls, Statement(BalanceEquity)))
  }

  /** One more ledger adds one to the count and its closing balance to the sum of the slot it belongs to. */
  lemma SelectStep(chart: seq<AccountHead>, ls: seq<LedgerBalance>, k: nat, slot: Slot)
    requires k < |ls|
    ensures |Select(chart, ls[..k + 1], slot)| ==
      |Select(chart, ls[..k], slot)| + (if Belongs(chart, ls[k], slot) then 1 else 0)
    ensures SumClosing(Select(chart, ls[..k + 1], slot)) == SumClosing(Select(chart, ls[..k], slot))
      + (if Belongs(chart, ls[k], slot) then ls[k].closingBalance else 0)
  {
    TakeSnoc(ls, k);
    SelectSnoc(chart, ls[..k], ls[k], slot);
    if Belongs(chart, ls[k], slot) {
      SumClosingSnoc(Select(chart, ls[..k], slot), ls[k]);
    } else {
      assert Select(chart, ls[..k], slot) + [] == Select(chart, ls[..k], slot);
    }
  }

  lemma StatementStep(chart: seq<AccountHead>, ls: seq<LedgerBalance>)
    requires |ls| > 0
    ensures StatementCount(chart, ls) == StatementCount(chart, ls[..|ls| - 1]) + 1
    ensures StatementSums(chart, ls) == StatementSums(chart, ls[..|ls| - 1]) + ls[|ls| - 1].closingBalance
  {
    var k := |ls| - 1;
    assert ls[..k + 1] == ls;
    SelectStep(chart, ls, k, Statement(TradingRevenue));
    SelectStep(chart, ls, k, Statement(TradingCogs));
    SelectStep(chart, ls, k, Statement(PnlIncome));
    SelectStep(chart, ls, k, Statement(PnlExpenses));
    SelectStep(chart, ls, k, Statement(BalanceAssets));
    SelectStep(chart, ls, k, Statement(BalanceLiabilities));
    SelectStep(chart, ls, k, Statement(BalanceEquity));
  }

  /**
   * The seven statement buckets partition the input: together they list
   * as many ledgers as the input holds, and their closing balances add up
   * to the input's; with `SelectMembership` every ledger is in exactly the
   * one bucket its head selects.
   */
  lemma {:induction false} BucketsPartition(chart: seq<AccountHead>, ls: seq<LedgerBalance>)
    ensures StatementCount(chart, ls) == |ls|
    ensures StatementSums(chart, ls) == SumClosing(ls)
  {
    if |ls| > 0 {
      BucketsPartition(chart, ls[..|ls| - 1]);
      StatementStep(chart, ls);
    }
  }

  /** The lists of the report are the selections of its input. */
  lemma StatementsLists(chart: seq<AccountHead>, ls: seq<LedgerBalance>)
    ensures var r := Statements(chart, ls);
      && r.trading.revenue == Select(chart, ls, Statement(TradingRevenue))
      && r.trading.cogs == Select(chart, ls, Statement(TradingCogs))
      && r.pnl.income == Select(chart, ls, Statement(PnlIncome))
      && r.pnl.expenses == Select(chart, ls, Statement(PnlExpenses))
      && r.balanceSheet.assets == Select(chart, ls, Statement(BalanceAssets))
      && r.balanceSheet.liabilities == Select(chart, ls, Statement(BalanceLiabilities))
      && r.balanceSheet.equity == Select(chart, ls, Statement(BalanceEquity))
      && r.costSheet.details == CostDetails(chart, ls)
  {
  }

  /**
   * The bucket rule: a ledger is listed under trading revenue, P&L income,
   * COGS or P&L expenses exactly when it is in the input and its name
   * resolves to a direct or indirect revenue or expense head, and under
   * assets, liabilities or equity exactly when it resolves to that type.
   */
  lemma BucketRule(chart: seq<AccountHead>, ls: seq<LedgerBalance>, x: LedgerBalance)
    ensures var r, h := Statements(chart, ls), Resolve(chart, x.accountName);
      x in r.trading.revenue <==> x in ls && h.accountType == Revenue && h.isDirect
    ensures var r, h := Statements(chart, ls), Resolve(chart, x.accountName);
      x in r.pnl.income <==> x in ls && h.accountType == Revenue && !h.isDirect
    ensures var r, h := Statements(chart, ls), Resolve(chart, x.accountName);
      x in r.trading.cogs <==> x in ls && h.accountType == Expense && h.isDirect
    ensures var r, h := Statements(chart, ls), Resolve(chart, x.accountName);
      x in r.pnl.expenses <==> x in ls && h.accountType == Expense && !h.isDirect
    ensures var r, h := Statements(chart, ls), Resolve(chart, x.accountName);
      x in r.balanceSheet.assets <==> x in ls && h.accountType == Asset
    ensures var r, h := Statements(chart, ls), Resolve(chart, x.accountName);
      x in r.balanceSheet.liabilities <==> x in ls && h.accountType == Liability
    ensures var r, h := Statements(chart, ls), Resolve(chart, x.accountName);
      x in r.balanceSheet.equity <==> x in ls && h.accountType == Equity
  {
    StatementsLists(chart, ls);
    DispatchTable(Resolve(chart, x.accountName));
    BucketMembership(chart, ls, x, TradingRevenue);
    BucketMembership(chart, ls, x, PnlIncome);
    BucketMembership(chart, ls, x, TradingCogs);
    BucketMembership(chart, ls, x, PnlExpenses);
    BucketMembership(chart, ls, x, BalanceAssets);
    BucketMembership(chart, ls, x, BalanceLiabilities);
    BucketMembership(chart, ls, x, BalanceEquity);
  }

  /** The dispatch table read backwards: which heads each bucket receives. */
  lemma DispatchTable(h: AccountHead)
    ensures StatementBucket(h) == TradingRevenue <==> h.accountType == Revenue && h.isDirect
    ensures StatementBucket(h) == PnlIncome <==> h.accountType == Revenue && !h.isDirect
    ensures StatementBucket(h) == TradingCogs <==> h.accountType == Expense && h.isDirect
    ensures StatementBucket(h) == PnlExpenses <==> h.accountType == Expense && !h.isDirect
    ensures StatementBucket(h) == BalanceAssets <==> h.accountType == Asset
    ensures StatementBucket(h) == BalanceLiabilities <==> h.accountType == Liability
    ensures StatementBucket(h) == BalanceEquity <==> h.accountType == Equity
  {
  }

  lemma BucketMembership(chart: seq<AccountHead>, ls: seq<LedgerBalance>, x: LedgerBalance, b: Bucket)
    ensures x in Select(chart, ls, Statement(b)) <==> x in ls && BucketOf(chart, x) == b
  {
    SelectMembership(chart, ls, Statement(b));
  }

  lemma UnknownAccountSelect(chart: seq<AccountHead>, ls: seq<LedgerBalance>, l: LedgerBalance)
    requires l in ls && !NamedIn(chart, l.accountName)
    ensures l in Select(chart, ls, Statement(PnlExpenses))
    ensures forall c | c in CostCategories :: l !in Select(chart, ls, CostLine(c))
  {
    assert BucketOf(chart, l) == PnlExpenses && CategoryOf(chart, l) == NotApplicable;
    SelectMembership(chart, ls, Statement(PnlExpenses));
    forall c | c in CostCategories ensures l !in Select(chart, ls, CostLine(c)) {
      SelectMembership(chart, ls, CostLine(c));
    }
  }

  /**
   * A ledger whose name the chart does not know is listed under P&L
   * expenses and in no cost-sheet category.
   */
  lemma UnknownAccountPlacement(chart: seq<AccountHead>, ls: seq<LedgerBalance>, l: LedgerBalance)
    requires l in ls && !NamedIn(chart, l.accountName)
    ensures l in Statements(chart, ls).pnl.expenses
    ensures forall c | c in Statements(chart, ls).costSheet.details :: l !in Statements(chart, ls).costSheet.details[c]
  {
    StatementsLists(chart, ls);
    UnknownAccountSelect(chart, ls, l);
  }

  /**
   * The cost sheet lists, under each of its six categories, exactly the
   * input ledgers of that category, whatever their statement bucket;
   * ledgers without a category are in none of them.
   */
  lemma CostSheetPlacement(chart: seq<AccountHead>, ls: seq<LedgerBalance>)
    ensures Statements(chart, ls).costSheet.details.Keys == CostCategories
    ensures forall c, x | c in CostCategories ::
      x in Statements(chart, ls).costSheet.details[c] <==> x in ls && CategoryOf(chart, x) == c
  {
    StatementsLists(chart, ls);
    forall c | c in CostCategories
      ensures forall x :: x in Select(chart, ls, CostLine(c)) <==> x in ls && CategoryOf(chart, x) == c
    {
      SelectMembership(chart, ls, CostLine(c));
    }
  }

  /** A slot none of the input ledgers belongs to stays empty. */
  lemma {:induction false} SelectNone(chart: seq<AccountHead>, ls: seq<LedgerBalance>, slot: Slot)
    requires forall x | x in ls :: !Belongs(chart, x, slot)
    ensures Select(chart, ls, slot) == []
  {
    if |ls| > 0 {
      assert ls[|ls| - 1] in ls;
      assert forall x | x in ls[..|ls| - 1] :: x in ls;
      SelectNone(chart, ls[..|ls| - 1], slot);
    }
  }

  /** Under a chart with no direct-expense head (the static one), that cost list is always empty. */
  lemma DirectExpenseLinesEmpty(chart: seq<AccountHead>, ls: seq<LedgerBalance>)
    requires NoDirectExpenseHeads(chart)
    ensures Statements(chart, ls).costSheet.details[DirectExpense] == []
  {
    StatementsLists(chart, ls);
    forall x | x in ls ensures !Belongs(chart, x, CostLine(DirectExpense)) {
      var h := Resolve(chart, x.accountName);
      if NamedIn(chart, x.accountName) {
        var i :| 0 <= i < |chart| && chart[i] == h;
      }
    }
    SelectNone(chart, ls, CostLine(DirectExpense));
  }

  // ----- Totals -----

  lemma {:induction false} SumClosingNonNegative(ls: seq<LedgerBalance>)
    requires forall x | x in ls :: x.closingBalance >= 0
    ensures SumClosing(ls) >= 0
  {
    if |ls| > 0 {
      assert ls[|ls| - 1] in ls;
      assert forall x | x in ls[..|ls| - 1] :: x in ls;
      SumClosingNonNegative(ls[..|ls| - 1]);
    }
  }

  lemma CategorySumNonNegative(chart: seq<AccountHead>, ls: seq<LedgerBalance>, c: CostCategory)
    requires forall x | x in ls && CategoryOf(chart, x) != NotApplicable :: x.closingBalance >= 0
    requires c != NotApplicable
    ensures SumClosing(Select(chart, ls, CostLine(c))) >= 0
  {
    SelectMembership(chart, ls, CostLine(c));
    SumClosingNonNegative(Select(chart, ls, CostLine(c)));
  }

  /**
   * The cost waterfall: prime cost sums the three direct categories and
   * each later stage adds one overhead category to the stage before it;
   * when every category sums to a non-negative amount (a credit note may
   * still make one ledger negative) the stages never decrease.
   */
  lemma Waterfall(chart: seq<AccountHead>, ls: seq<LedgerBalance>)
    ensures var cs := Statements(chart, ls).costSheet;
      && cs.details == CostDetails(chart, ls)
      && cs.primeCost == SumCategory(cs.details, DirectMaterial) + SumCategory(cs.details, DirectLabor)
        + SumCategory(cs.details, DirectExpense)
      && cs.worksCost == cs.primeCost + SumCategory(cs.details, FactoryOverhead)
      && cs.costOfProduction == cs.worksCost + SumCategory(cs.details, AdminOverhead)
      && cs.costOfSales == cs.costOfProduction + SumCategory(cs.details, SellingOverhead)
    ensures var cs := Statements(chart, ls).costSheet;
      (forall c | c in CostCategories :: SumCategory(cs.details, c) >= 0) ==>
        0 <= cs.primeCost <= cs.worksCost <= cs.costOfProduction <= cs.costOfSales
  {
    StatementsLists(chart, ls);
    assert DirectMaterial in CostCategories && DirectLabor in CostCategories && DirectExpense in CostCategories;
    assert FactoryOverhead in CostCategories && AdminOverhead in CostCategories && SellingOverhead in CostCategories;
  }

  /** The waterfall never decreases when no cost ledger has a negative closing balance. */
  lemma WaterfallNonNegativeLedgers(chart: seq<AccountHead>, ls: seq<LedgerBalance>)
    requires forall x | x in ls && CategoryOf(chart, x) != NotApplicable :: x.closingBalance >= 0
    ensures var cs := Statements(chart, ls).costSheet;
      0 <= cs.primeCost <= cs.worksCost <= cs.costOfProduction <= cs.costOfSales
  {
    Waterfall(chart, ls);
    CostCategoriesExact();
    forall c | c in CostCategories ensures SumCategory(CostDetails(chart, ls), c) >= 0 {
      CategorySumNonNegative(chart, ls, c);
    }
  }

  /**
   * The profit and asset totals of the report, from the selections of its
   * input: revenue and indirect income enter as absolute values, COGS,
   * expenses and assets as raw net-debit sums, and the liabilities-and-
   * equity total is left at 0 for the consumer to close.
   */
  lemma ProfitAndAssetTotals(chart: seq<AccountHead>, ls: seq<LedgerBalance>)
    ensures var r := Statements(chart, ls);
      var revenue := SumClosing(Select(chart, ls, Statement(TradingRevenue)));
      var cogs := SumClosing(Select(chart, ls, Statement(TradingCogs)));
      var income := SumClosing(Select(chart, ls, Statement(PnlIncome)));
      var expenses := SumClosing(Select(chart, ls, Statement(PnlExpenses)));
      && r.trading.grossProfit == Abs(revenue) - cogs
      && r.pnl.netProfit == r.trading.grossProfit + Abs(income) - expenses
      && r.balanceSheet.totalAssets == SumClosing(Select(chart, ls, Statement(BalanceAssets)))
      && r.balanceSheet.totalLiabilitiesAndEquity == 0
    ensures var r := Statements(chart, ls);
      var revenue := SumClosing(r.trading.revenue);
      var income := SumClosing(r.pnl.income);
      revenue <= 0 && income <= 0 ==>
        r.pnl.netProfit == -revenue - income - SumClosing(r.trading.cogs) - SumClosing(r.pnl.expenses)
  {
    StatementsLists(chart, ls);
  }

  /** With no ledgers every list is empty and every total is 0. */
  lemma EmptyReport(chart: seq<AccountHead>)
    ensures var r := Statements(chart, []);
      && r.trading == TradingAccount([], [], 0)
      && r.pnl == ProfitAndLoss([], [], 0)
      && r.balanceSheet == BalanceSheet([], [], [], 0, 0)
      && r.costSheet.primeCost == r.costSheet.worksCost == r.costSheet.costOfProduction == r.costSheet.costOfSales == 0
      && forall c | c in r.costSheet.details :: r.costSheet.details[c] == []
  {
  }

  function CostLineSums(chart: seq<AccountHead>, ls: seq<LedgerBalance>): int {
    SumClosing(Select(chart, ls, CostLine(DirectMaterial))) + SumClosing(Select(chart, ls, CostLine(DirectLabor)))
    + SumClosing(Select(chart, ls, CostLine(DirectExpense)))
    + SumClosing(Select(chart, ls, CostLine(FactoryOverhead)))
    + SumClosing(Select(chart, ls, CostLine(AdminOverhead)))
    + SumClosing(Select(chart, ls, CostLine(SellingOverhead)))
  }

  function ExpenseSums(chart: seq<AccountHead>, ls: seq<LedgerBalance>): int {
    SumClosing(Select(chart, ls, Statement(TradingCogs))) + SumClosing(Select(chart, ls, Statement(PnlExpenses)))
  }

  lemma CostLineStep(chart: seq<AccountHead>, ls: seq<LedgerBalance>)
    requires |ls| > 0
    ensures CostLineSums(chart, ls) == CostLineSums(chart, ls[..|ls| - 1])
      + (if CategoryOf(chart, ls[|ls| - 1]) != NotApplicable then ls[|ls| - 1].closingBalance else 0)
  {
    var k := |ls| - 1;
    assert ls[..k + 1] == ls;
    SelectStep(chart, ls, k, CostLine(DirectMaterial));
    SelectStep(chart, ls, k, CostLine(DirectLabor));
    SelectStep(chart, ls, k, CostLine(DirectExpense));
    SelectStep(chart, ls, k, CostLine(FactoryOverhead));
    SelectStep(chart, ls, k, CostLine(AdminOverhead));
    SelectStep(chart, ls, k, CostLine(SellingOverhead));
  }

  lemma ExpenseStep(chart: seq<AccountHead>, ls: seq<LedgerBalance>)
    requires |ls| > 0
    ensures ExpenseSums(chart, ls) == ExpenseSums(chart, ls[..|ls| - 1])
      + (if BucketOf(chart, ls[|ls| - 1]) in {TradingCogs, PnlExpenses} then ls[|ls| - 1].closingBalance else 0)
  {
    var k := |ls| - 1;
    assert ls[..k + 1] == ls;
    SelectStep(chart, ls, k, Statement(TradingCogs));
    SelectStep(chart, ls, k, Statement(PnlExpenses));
  }

  /** Under such a chart, a chart account has a cost line exactly when it is an expense. */
  lemma CostLineIffExpense(chart: seq<AccountHead>, l: LedgerBalance)
    requires CostHeadsAreExpenses(chart) && NamedIn(chart, l.accountName)
    ensures CategoryOf(chart, l) != NotApplicable <==> BucketOf(chart, l) in {TradingCogs, PnlExpenses}
  {
    var i :| 0 <= i < |chart| && chart[i] == Resolve(chart, l.accountName);
  }

  lemma {:induction false} CostLinesAreExpenseLines(chart: seq<AccountHead>, ls: seq<LedgerBalance>)
    requires CostHeadsAreExpenses(chart)
    requires forall i | 0 <= i < |ls| :: NamedIn(chart, ls[i].accountName)
    ensures CostLineSums(chart, ls) == ExpenseSums(chart, ls)
  {
    if |ls| > 0 {
      CostLinesAreExpenseLines(chart, ls[..|ls| - 1]);
      CostLineStep(chart, ls);
      ExpenseStep(chart, ls);
      CostLineIffExpense(chart, ls[|ls| - 1]);
    }
  }

  /**
   * Under a chart whose cost heads are exactly its expenses (the static
   * one), when every ledger is a chart account the cost of sales is the
   * trading COGS plus the P&L expenses, so the net profit is revenue plus
   * indirect income less the cost of sales.
   */
  lemma CostOfSalesIsTotalExpense(chart: seq<AccountHead>, ls: seq<LedgerBalance>)
    requires CostHeadsAreExpenses(chart)
    requires forall i | 0 <= i < |ls| :: NamedIn(chart, ls[i].accountName)
    ensures var r := Statements(chart, ls);
      r.costSheet.costOfSales == SumClosing(r.trading.cogs) + SumClosing(r.pnl.expenses)
    ensures var r := Statements(chart, ls);
      r.pnl.netProfit ==
        Abs(SumClosing(r.trading.revenue)) + Abs(SumClosing(r.pnl.income)) - r.costSheet.costOfSales
  {
    CostLinesAreExpenseLines(chart, ls);
    StatementsLists(chart, ls);
  }

  /**
   * On the ledger set of any journal the balance sheet would close: when
   * revenue and indirect income carry credit balances, the total assets
   * equal the net profit plus the credit balances of the liabilities and
   * of the equity. The engine itself leaves `totalLiabilitiesAndEquity` at 0.
   */
  lemma BalanceSheetWouldClose(chart: seq<AccountHead>, entries: seq<JournalEntry>)
    requires var r := Statements(chart, Ledgers(chart, entries));
      SumClosing(r.trading.revenue) <= 0 && SumClosing(r.pnl.income) <= 0
    ensures var r := Statements(chart, Ledgers(chart, entries));
      && r.balanceSheet.totalLiabilitiesAndEquity == 0
      && r.balanceSheet.totalAssets ==
        r.pnl.netProfit - SumClosing(r.balanceSheet.liabilities) - SumClosing(r.balanceSheet.equity)
  {
    ZeroSum(chart, entries);
    BucketsPartition(chart, Ledgers(chart, entries));
    StatementsLists(chart, Ledgers(chart, entries));
  }
}
