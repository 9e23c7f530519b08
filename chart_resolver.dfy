/**
 * Lookup of an account name in a chart of accounts, with the silent
 * fallback classification for names the chart does not know. The lookup
 * is stated for any chart; the engine uses the static one.
 */
module ChartResolver {
  import opened Types
  import opened Wrappers
  import opened Constants

  /** The first head of `chart` whose name is `name`, as `Array.prototype.find` returns it. */
  function FindByName(chart: seq<AccountHead>, name: string): (r: Option<AccountHead>)
    ensures r.None? <==> !NamedIn(chart, name)
    ensures r.Some? ==> r.value in chart && r.value.name == name
  {
    if |chart| == 0 then None
    else if chart[0].name == name then Some(chart[0])
    else
      var r := FindByName(chart[1..], name);
      assert forall i | 1 <= i < |chart| :: chart[i] == chart[1..][i - 1];
      r
  }

  /** The classification given to a name the chart does not know: an indirect expense. */
  function Fallback(name: string): AccountHead {
    AccountHead("999", name, Expense, NotApplicable, false)
  }

  /**
   * The head `name` is classified by: the chart's head of that name, or
   * the fallback when there is none. It never fails.
   */
  function Resolve(chart: seq<AccountHead>, name: string): (h: AccountHead)
    ensures h.name == name
    ensures NamedIn(chart, name) ==> h in chart
    ensures !NamedIn(chart, name) ==> h == Fallback(name)
  {
    match FindByName(chart, name)
    case Some(head) => head
    case None => Fallback(name)
  }

  /** The resolver of the engine, over the static chart. */
  function GetAccountDetails(name: string): (h: AccountHead)
    ensures h.name == name
    ensures NamedIn(ChartOfAccounts, name) ==> h in ChartOfAccounts
    ensures !NamedIn(ChartOfAccounts, name) ==> h == AccountHead("999", name, Expense, NotApplicable, false)
  {
    Resolve(ChartOfAccounts, name)
  }

  /** `find` returns the match with the smallest index. */
  lemma {:induction false} FindFirstMatch(chart: seq<AccountHead>, name: string, i: nat)
    requires i < |chart| && chart[i].name == name
    requires forall j | 0 <= j < i :: chart[j].name != name
    ensures FindByName(chart, name) == Some(chart[i])
  {
    if i > 0 {
      assert chart[1..][i - 1] == chart[i];
      forall j | 0 <= j < i - 1 ensures chart[1..][j].name != name {
        assert chart[1..][j] == chart[j + 1];
      }
      FindFirstMatch(chart[1..], name, i - 1);
    }
  }

  /** When names are distinct, every head is what its own name resolves to. */
  lemma ResolveOwnName(chart: seq<AccountHead>, i: nat)
    requires DistinctNames(chart) && i < |chart|
    ensures Resolve(chart, chart[i].name) == chart[i]
  {
    FindFirstMatch(chart, chart[i].name, i);
  }

  /** Every head of the static chart is what the engine resolves its name to. */
  lemma ResolveChartHead(i: nat)
    requires i < |ChartOfAccounts|
    ensures GetAccountDetails(ChartOfAccounts[i].name) == ChartOfAccounts[i]
  {
    ChartNamesDistinct();
    ResolveOwnName(ChartOfAccounts, i);
  }

  /**
   * Under a chart whose cost heads are exactly its expenses, every
   * resolved head with a cost category is an expense (the fallback has
   * none), and a name of the chart that resolves to an expense carries a
   * cost category; when the chart also has no direct-expense head, no name
   * resolves to that category.
   */
  lemma ResolvedCostCategory(chart: seq<AccountHead>, name: string)
    requires CostHeadsAreExpenses(chart)
    ensures var h := Resolve(chart, name);
      && (h.costCategory != NotApplicable ==> h.accountType == Expense)
      && (NamedIn(chart, name) && h.accountType == Expense ==> h.costCategory != NotApplicable)
      && (NoDirectExpenseHeads(chart) ==> h.costCategory != DirectExpense)
  {
    var h := Resolve(chart, name);
    if NamedIn(chart, name) {
      var i :| 0 <= i < |chart| && chart[i] == h;
    }
  }
}
