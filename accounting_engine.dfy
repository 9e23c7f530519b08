/**
 * The two steps of the reporting engine, as the loops they are: the
 * accumulation of journal entries into ledger balances, and the bucketing
 * of ledger balances into the financial statements. Each is proved equal
 * to its specification function. The chart the names are resolved in is
 * a parameter; the engine always passes the static chart
 * (`Constants.ChartOfAccounts`, through `ChartResolver.GetAccountDetails`).
 */
module AccountingEngine {
  import opened Types
  import opened ChartResolver
  import opened LedgerAggregator
  import opened StatementClassifier

  /** The running totals kept per account name while the entries are folded. */
  datatype Accumulator = Accumulator(debit: int, credit: int)

  /**
   * The accumulator state after the entries `posted`: `order` lists the
   * names seen so far, in first-seen order, and `ledgerMap` holds the
   * totals of exactly those names.
   */
  ghost predicate Tracks(ledgerMap: map<string, Accumulator>, order: seq<string>, posted: seq<JournalEntry>) {
    && order == AccountNames(posted)
    && (forall n :: n in ledgerMap <==> n in order)
    && (forall n | n in ledgerMap ::
         ledgerMap[n] == Accumulator(Posted(posted, n, Debit), Posted(posted, n, Credit)))
  }

  /**
   * Posts every entry's amount to the debit total of its debit account
   * and the credit total of its credit account, creating a zero
   * accumulator the first time a name is seen, then produces one balance
   * per name in first-seen order with `debit - credit` as its closing
   * balance and the resolved type.
   */
  method GenerateLedgers(chart: seq<AccountHead>, entries: seq<JournalEntry>) returns (ledgers: seq<LedgerBalance>)
    ensures ledgers == Ledgers(chart, entries)
    ensures SumClosing(ledgers) == 0
  {
    // `order` is the key order of the accumulator record (insertion order).
    var order: seq<string> := [];
    var ledgerMap: map<string, Accumulator> := map[];
    var i := 0;
    while i < |entries|
      invariant 0 <= i <= |entries|
      invariant Tracks(ledgerMap, order, entries[..i])
    {
      var entry := entries[i];
      ghost var done, mapBefore, orderBefore := entries[..i], ledgerMap, order;

      if entry.debitAccount !in ledgerMap {
        ledgerMap := ledgerMap[entry.debitAccount := Accumulator(0, 0)];
        order := order + [entry.debitAccount];
      }
      ghost var mapDebitOpened := ledgerMap;
      ledgerMap := ledgerMap[entry.debitAccount :=
        ledgerMap[entry.debitAccount].(debit := ledgerMap[entry.debitAccount].debit + entry.amount)];
      ghost var mapHalfway, orderHalfway := ledgerMap, order;

      if entry.creditAccount !in ledgerMap {
        ledgerMap := ledgerMap[entry.creditAccount := Accumulator(0, 0)];
        order := order + [entry.creditAccount];
      }
      ghost var mapCreditOpened := ledgerMap;
      ledgerMap := ledgerMap[entry.creditAccount :=
        ledgerMap[entry.creditAccount].(credit := ledgerMap[entry.creditAccount].credit + entry.amount)];

      assert Tracks(ledgerMap, order, entries[..i + 1]) by {
        TakeSnoc(entries, i);
        PostDebit(mapBefore, orderBefore, done, entry, mapDebitOpened, mapHalfway, orderHalfway);
        PostCredit(mapHalfway, orderHalfway, done, entry, mapCreditOpened, ledgerMap, order);
      }
      i := i + 1;
    }
    assert entries[..i] == entries;
    ledgers := seq(|order|, k requires 0 <= k < |order| && order[k] in ledgerMap =>
      LedgerBalance(order[k], ledgerMap[order[k]].debit, ledgerMap[order[k]].credit,
        ledgerMap[order[k]].debit - ledgerMap[order[k]].credit, Resolve(chart, order[k]).accountType));
    assert ledgers == Ledgers(chart, entries) by {
      forall k | 0 <= k < |ledgers| ensures ledgers[k] == LedgerOf(chart, entries, order[k]) {
      }
    }
    ZeroSum(chart, entries);
  }

  /** The debit half of posting `e` after `done`: the debit account gains `e.amount`. */
  lemma PostDebit(m: map<string, Accumulator>, order: seq<string>, done: seq<JournalEntry>, e: JournalEntry,
                  withKey: map<string, Accumulator>, m': map<string, Accumulator>, order': seq<string>)
    requires Tracks(m, order, done)
    requires withKey == if e.debitAccount in m then m else m[e.debitAccount := Accumulator(0, 0)]
    requires m' == withKey[e.debitAccount := withKey[e.debitAccount].(debit := withKey[e.debitAccount].debit + e.amount)]
    requires order' == if e.debitAccount in m then order else order + [e.debitAccount]
    ensures order' == Introduce(AccountNames(done), e.debitAccount)
    ensures forall n :: n in m' <==> n in order'
    ensures forall n | n in m' :: m'[n] == Accumulator(Posted(done + [e], n, Debit), Posted(done, n, Credit))
  {
    if e.debitAccount !in m {
      PostedUnmentioned(done, e.debitAccount, Debit);
      PostedUnmentioned(done, e.debitAccount, Credit);
    }
    forall n | n in m' ensures m'[n] == Accumulator(Posted(done + [e], n, Debit), Posted(done, n, Credit)) {
      PostedSnoc(done, e, n, Debit);
    }
  }

  /** The credit half: the credit account gains `e.amount`, and `e` is fully posted. */
  lemma PostCredit(m: map<string, Accumulator>, order: seq<string>, done: seq<JournalEntry>, e: JournalEntry,
                   withKey: map<string, Accumulator>, m': map<string, Accumulator>, order': seq<string>)
    requires order == Introduce(AccountNames(done), e.debitAccount)
    requires forall n :: n in m <==> n in order
    requires forall n | n in m :: m[n] == Accumulator(Posted(done + [e], n, Debit), Posted(done, n, Credit))
    requires withKey == if e.creditAccount in m then m else m[e.creditAccount := Accumulator(0, 0)]
    requires m' == withKey[e.creditAccount := withKey[e.creditAccount].(credit := withKey[e.creditAccount].credit + e.amount)]
    requires order' == if e.creditAccount in m then order else order + [e.creditAccount]
    ensures Tracks(m', order', done + [e])
  {
    var c := e.creditAccount;
    assert order' == AccountNames(done + [e]) by {
      PostedSnoc(done, e, c, Credit);
    }
    if c !in m {
      assert c !in AccountNames(done) && c != e.debitAccount;
      PostedUnmentioned(done, c, Credit);
      PostedUnmentioned(done, c, Debit);
    }
    forall n | n in m' ensures m'[n] == Accumulator(Posted(done + [e], n, Debit), Posted(done + [e], n, Credit)) {
      PostedSnoc(done, e, n, Credit);
      PostedSnoc(done, e, n, Debit);
    }
  }

  /**
   * The bucketing state after the ledgers `done`: each list holds the
   * selection of `done` for its slot, in input order.
   */
  ghost predicate Allocated(
    chart: seq<AccountHead>, done: seq<LedgerBalance>,
    tradingRevenue: seq<LedgerBalance>, tradingCogs: seq<LedgerBalance>,
    pnlIncome: seq<LedgerBalance>, pnlExpenses: seq<LedgerBalance>,
    assets: seq<LedgerBalance>, liabilities: seq<LedgerBalance>, equity: seq<LedgerBalance>,
    costSheetDetails: map<CostCategory, seq<LedgerBalance>>)
  {
    && tradingRevenue == Select(chart, done, Statement(TradingRevenue))
    && tradingCogs == Select(chart, done, Statement(TradingCogs))
    && pnlIncome == Select(chart, done, Statement(PnlIncome))
    && pnlExpenses == Select(chart, done, Statement(PnlExpenses))
    && assets == Select(chart, done, Statement(BalanceAssets))
    && liabilities == Select(chart, done, Statement(BalanceLiabilities))
    && equity == Select(chart, done, Statement(BalanceEquity))
    && costSheetDetails == CostDetails(chart, done)
  }

  /**
   * Resolves each ledger's name again, pushes it onto the cost-sheet list
   * of its cost category (if it has one) and onto the one statement list
   * its type and direct flag select, then totals the lists.
   */
  method GenerateFinancialStatements(chart: seq<AccountHead>, ledgers: seq<LedgerBalance>) returns (report: FinancialReportData)
    ensures report == Statements(chart, ledgers)
  {
    var tradingRevenue: seq<LedgerBalance> := [];
    var tradingCogs: seq<LedgerBalance> := [];
    var pnlIncome: seq<LedgerBalance> := [];
    var pnlExpenses: seq<LedgerBalance> := [];
    var assets: seq<LedgerBalance> := [];
    var liabilities: seq<LedgerBalance> := [];
    var equity: seq<LedgerBalance> := [];
    var costSheetDetails: map<CostCategory, seq<LedgerBalance>> := map[
      DirectMaterial := [], DirectLabor := [], DirectExpense := [],
      FactoryOverhead := [], AdminOverhead := [], SellingOverhead := []];
    assert costSheetDetails == CostDetails(chart, ledgers[..0]);
    var i := 0;
    while i < |ledgers|
      invariant 0 <= i <= |ledgers|
      invariant Allocated(chart, ledgers[..i], tradingRevenue, tradingCogs, pnlIncome, pnlExpenses,
        assets, liabilities, equity, costSheetDetails)
    {
      var ledger := ledgers[i];
      ghost var rev, cogs, inc, exp := tradingRevenue, tradingCogs, pnlIncome, pnlExpenses;
      ghost var ast, lia, eq, det := assets, liabilities, equity, costSheetDetails;
      var meta := Resolve(chart, ledger.accountName);

      if meta.costCategory != NotApplicable {
        costSheetDetails := costSheetDetails[meta.costCategory := costSheetDetails[meta.costCategory] + [ledger]];
      }

      if meta.accountType == Revenue {
        if meta.isDirect {
          tradingRevenue := tradingRevenue + [ledger];
        } else {
          pnlIncome := pnlIncome + [ledger];
        }
      } else if meta.accountType == Expense {
        if meta.isDirect {
          tradingCogs := tradingCogs + [ledger];
        } else {
          pnlExpenses := pnlExpenses + [ledger];
        }
      } else if meta.accountType == Asset {
        assets := assets + [ledger];
      } else if meta.accountType == Liability {
        liabilities := liabilities + [ledger];
      } else if meta.accountType == Equity {
        equity := equity + [ledger];
      }

      AllocateStep(chart, ledgers, i, meta, rev, cogs, inc, exp, ast, lia, eq, det,
        tradingRevenue, tradingCogs, pnlIncome, pnlExpenses, assets, liabilities, equity, costSheetDetails);
      i := i + 1;
    }
    assert ledgers[..i] == ledgers;
    report := Assemble(tradingRevenue, tradingCogs, pnlIncome, pnlExpenses, assets, liabilities, equity,
      costSheetDetails);
  }

  /**
   * One pass of the bucketing loop: with `meta` the resolved head of
   * `ledgers[i]`, the pushes the loop body makes take the state after the
   * first `i` ledgers to the state after the first `i + 1`.
   */
  lemma AllocateStep(
    chart: seq<AccountHead>, ledgers: seq<LedgerBalance>, i: nat, meta: AccountHead,
    rev: seq<LedgerBalance>, cogs: seq<LedgerBalance>, inc: seq<LedgerBalance>, exp: seq<LedgerBalance>,
    ast: seq<LedgerBalance>, lia: seq<LedgerBalance>, eq: seq<LedgerBalance>,
    det: map<CostCategory, seq<LedgerBalance>>,
    rev': seq<LedgerBalance>, cogs': seq<LedgerBalance>, inc': seq<LedgerBalance>, exp': seq<LedgerBalance>,
    ast': seq<LedgerBalance>, lia': seq<LedgerBalance>, eq': seq<LedgerBalance>,
    det': map<CostCategory, seq<LedgerBalance>>)
    requires i < |ledgers|
    requires Allocated(chart, ledgers[..i], rev, cogs, inc, exp, ast, lia, eq, det)
    requires meta == Resolve(chart, ledgers[i].accountName)
    requires det' == if meta.costCategory != NotApplicable then det[meta.costCategory := det[meta.costCategory] + [ledgers[i]]] else det
    requires rev' == if meta.accountType == Revenue && meta.isDirect then rev + [ledgers[i]] else rev
    requires inc' == if meta.accountType == Revenue && !meta.isDirect then inc + [ledgers[i]] else inc
    requires cogs' == if meta.accountType == Expense && meta.isDirect then cogs + [ledgers[i]] else cogs
    requires exp' == if meta.accountType == Expense && !meta.isDirect then exp + [ledgers[i]] else exp
    requires ast' == if meta.accountType == Asset then ast + [ledgers[i]] else ast
    requires lia' == if meta.accountType == Liability then lia + [ledgers[i]] else lia
    requires eq' == if meta.accountType == Equity then eq + [ledgers[i]] else eq
    ensures Allocated(chart, ledgers[..i + 1], rev', cogs', inc', exp', ast', lia', eq', det')
  {
    var done, l := ledgers[..i], ledgers[i];
    TakeSnoc(ledgers, i);
    SelectSnoc(chart, done, l, Statement(TradingRevenue));
    SelectSnoc(chart, done, l, Statement(TradingCogs));
    SelectSnoc(chart, done, l, Statement(PnlIncome));
    SelectSnoc(chart, done, l, Statement(PnlExpenses));
    SelectSnoc(chart, done, l, Statement(BalanceAssets));
    SelectSnoc(chart, done, l, Statement(BalanceLiabilities));
    SelectSnoc(chart, done, l, Statement(BalanceEquity));
    CostDetailsSnoc(chart, done, l);
  }
}
