/**
 * What generating ledgers computes: one balance per distinct account name,
 * in first-seen order, with the totals posted to it on each side. The
 * functions here are left folds over the entries, in the order the
 * accumulator loop consumes them; the loop itself is
 * `AccountingEngine.GenerateLedgers`.
 */
module LedgerAggregator {
  import opened Types
  import opened ChartResolver

  datatype Side = Debit | Credit

  /** The account an entry posts to on `side`. */
  function AccountOn(e: JournalEntry, side: Side): string {
    match side
    case Debit => e.debitAccount
    case Credit => e.creditAccount
  }

  predicate Mentions(e: JournalEntry, name: string) {
    e.debitAccount == name || e.creditAccount == name
  }

  predicate Distinct<T(==)>(s: seq<T>) {
    forall i, j | 0 <= i < j < |s| :: s[i] != s[j]
  }

  /** Extending a prefix by one element. */
  lemma TakeSnoc<T>(s: seq<T>, i: nat)
    requires i < |s|
    ensures s[..i + 1] == s[..i] + [s[i]]
  {
  }

  /** The sum of the amounts of the entries that post to `name` on `side`. */
  function Posted(entries: seq<JournalEntry>, name: string, side: Side): int {
    if |entries| == 0 then 0
    else
      var e := entries[|entries| - 1];
      Posted(entries[..|entries| - 1], name, side) + (if AccountOn(e, side) == name then e.amount else 0)
  }

  /** The sum of all entry amounts. */
  function TotalAmount(entries: seq<JournalEntry>): int {
    if |entries| == 0 then 0 else TotalAmount(entries[..|entries| - 1]) + entries[|entries| - 1].amount
  }

  /** `names` with `name` appended unless it is already there (first-seen order). */
  function Introduce(names: seq<string>, name: string): seq<string> {
    if name in names then names else names + [name]
  }

  /** The distinct account names of `entries`, debit side before credit side, in first-seen order. */
  function AccountNames(entries: seq<JournalEntry>): seq<string> {
    if |entries| == 0 then []
    else
      var e := entries[|entries| - 1];
      Introduce(Introduce(AccountNames(entries[..|entries| - 1]), e.debitAccount), e.creditAccount)
  }

  /** The ledger balance of `name` over `entries`; its type comes from resolving `name` in `chart`. */
  function LedgerOf(chart: seq<AccountHead>, entries: seq<JournalEntry>, name: string): LedgerBalance {
    var debit := Posted(entries, name, Debit);
    var credit := Posted(entries, name, Credit);
    LedgerBalance(name, debit, credit, debit - credit, Resolve(chart, name).accountType)
  }

  function LedgersFor(chart: seq<AccountHead>, entries: seq<JournalEntry>, names: seq<string>): seq<LedgerBalance> {
    seq(|names|, k requires 0 <= k < |names| => LedgerOf(chart, entries, names[k]))
  }

  /** The ledger set of `entries`: one balance per account name, in first-seen order. */
  function Ledgers(chart: seq<AccountHead>, entries: seq<JournalEntry>): seq<LedgerBalance> {
    LedgersFor(chart, entries, AccountNames(entries))
  }

  /** The total of a ledger on `side`. */
  function SideTotal(l: LedgerBalance, side: Side): int {
    match side
    case Debit => l.totalDebit
    case Credit => l.totalCredit
  }

  function SumSide(ls: seq<LedgerBalance>, side: Side): int {
    if |ls| == 0 then 0 else SumSide(ls[..|ls| - 1], side) + SideTotal(ls[|ls| - 1], side)
  }

  /** The sum of closing balances, as `reduce((sum, l) => sum + l.closingBalance, 0)`. */
  function SumClosing(ls: seq<LedgerBalance>): int {
    if |ls| == 0 then 0 else SumClosing(ls[..|ls| - 1]) + ls[|ls| - 1].closingBalance
  }

  /** The sum of `Posted` over `names`. */
  function PostedOver(entries: seq<JournalEntry>, names: seq<string>, side: Side): int {
    if |names| == 0 then 0
    else PostedOver(entries, names[..|names| - 1], side) + Posted(entries, names[|names| - 1], side)
  }

  // ----- Names: no duplicates, none dropped -----

  lemma {:induction false} AccountNamesDistinct(entries: seq<JournalEntry>)
    ensures Distinct(AccountNames(entries))
  {
    if |entries| > 0 {
      AccountNamesDistinct(entries[..|entries| - 1]);
    }
  }

  /** Some entry debits or credits `name`. */
  predicate IsMentioned(entries: seq<JournalEntry>, name: string) {
    exists k | 0 <= k < |entries| :: Mentions(entries[k], name)
  }

  /** A name is in the ledger set exactly when some entry debits or credits it. */
  lemma {:induction false} AccountNamesComplete(entries: seq<JournalEntry>)
    ensures forall n :: n in AccountNames(entries) <==> IsMentioned(entries, n)
  {
    if |entries| > 0 {
      var init := entries[..|entries| - 1];
      AccountNamesComplete(init);
      forall n ensures n in AccountNames(entries) <==> IsMentioned(entries, n) {
        if n in AccountNames(init) {
          var k :| 0 <= k < |init| && Mentions(init[k], n);
          assert entries[k] == init[k];
        }
        if IsMentioned(entries, n) {
          var k :| 0 <= k < |entries| && Mentions(entries[k], n);
          if k < |init| {
            assert init[k] == entries[k];
          }
        }
      }
    }
  }

  /** Some ledger of `ls` belongs to account `name`. */
  predicate HasLedgerFor(ls: seq<LedgerBalance>, name: string) {
    exists i | 0 <= i < |ls| :: ls[i].accountName == name
  }

  /**
   * Exactly one ledger per account name that some entry mentions, and each
   * ledger holds that account's totals and its resolved type.
   */
  lemma OneLedgerPerAccount(chart: seq<AccountHead>, entries: seq<JournalEntry>)
    ensures forall i, j | 0 <= i < j < |Ledgers(chart, entries)| ::
      Ledgers(chart, entries)[i].accountName != Ledgers(chart, entries)[j].accountName
    ensures forall n :: HasLedgerFor(Ledgers(chart, entries), n) <==> IsMentioned(entries, n)
    ensures forall i | 0 <= i < |Ledgers(chart, entries)| :: var l := Ledgers(chart, entries)[i];
      && l.totalDebit == Posted(entries, l.accountName, Debit)
      && l.totalCredit == Posted(entries, l.accountName, Credit)
      && l.closingBalance == l.totalDebit - l.totalCredit
      && l.accountType == Resolve(chart, l.accountName).accountType
  {
    var names := AccountNames(entries);
    AccountNamesDistinct(entries);
    AccountNamesComplete(entries);
    forall n ensures HasLedgerFor(Ledgers(chart, entries), n) <==> IsMentioned(entries, n) {
      if n in names {
        var i :| 0 <= i < |names| && names[i] == n;
        assert Ledgers(chart, entries)[i].accountName == n;
      }
    }
  }

  /** One more entry adds its amount to the account it posts to on `side`, and introduces its two names. */
  lemma PostedSnoc(entries: seq<JournalEntry>, e: JournalEntry, name: string, side: Side)
    ensures Posted(entries + [e], name, side) == Posted(entries, name, side) + (if AccountOn(e, side) == name then e.amount else 0)
    ensures AccountNames(entries + [e]) == Introduce(Introduce(AccountNames(entries), e.debitAccount), e.creditAccount)
  {
    assert (entries + [e])[..|entries|] == entries;
  }

  /** An account no entry mentions has nothing posted to it. */
  lemma {:induction false} PostedUnmentioned(entries: seq<JournalEntry>, name: string, side: Side)
    requires name !in AccountNames(entries)
    ensures Posted(entries, name, side) == 0
  {
    if |entries| > 0 {
      PostedUnmentioned(entries[..|entries| - 1], name, side);
    }
  }

  /** No entries, no ledgers. */
  lemma NoEntriesNoLedgers(chart: seq<AccountHead>)
    ensures Ledgers(chart, []) == []
  {
  }

  // ----- Zero sum -----

  /** Adding the last entry raises the sum over distinct `names` by its amount iff its account is listed. */
  lemma {:induction false} PostedOverStep(entries: seq<JournalEntry>, names: seq<string>, side: Side)
    requires |entries| > 0 && Distinct(names)
    ensures PostedOver(entries, names, side) ==
      PostedOver(entries[..|entries| - 1], names, side)
      + (if AccountOn(entries[|entries| - 1], side) in names then entries[|entries| - 1].amount else 0)
  {
    if |names| > 0 {
      var init := names[..|names| - 1];
      assert Distinct(init);
      PostedOverStep(entries, init, side);
      assert names == init + [names[|names| - 1]];
    }
  }

  /** Summed over distinct names that cover every account on `side`, the postings are the total amount. */
  lemma {:induction false} PostedOverCovering(entries: seq<JournalEntry>, names: seq<string>, side: Side)
    requires Distinct(names)
    requires forall i | 0 <= i < |entries| :: AccountOn(entries[i], side) in names
    ensures PostedOver(entries, names, side) == TotalAmount(entries)
  {
    if |entries| == 0 {
      PostedOverOfEmpty(entries, names, side);
    } else {
      var init := entries[..|entries| - 1];
      assert forall i | 0 <= i < |init| :: init[i] == entries[i];
      PostedOverCovering(init, names, side);
      PostedOverStep(entries, names, side);
    }
  }

  lemma {:induction false} PostedOverOfEmpty(entries: seq<JournalEntry>, names: seq<string>, side: Side)
    requires |entries| == 0
    ensures PostedOver(entries, names, side) == 0
  {
    if |names| > 0 {
      PostedOverOfEmpty(entries, names[..|names| - 1], side);
    }
  }

  lemma {:induction false} SumSideLedgersFor(chart: seq<AccountHead>, entries: seq<JournalEntry>, names: seq<string>, side: Side)
    ensures SumSide(LedgersFor(chart, entries, names), side) == PostedOver(entries, names, side)
    ensures SumClosing(LedgersFor(chart, entries, names)) ==
      SumSide(LedgersFor(chart, entries, names), Debit) - SumSide(LedgersFor(chart, entries, names), Credit)
  {
    if |names| > 0 {
      var init := names[..|names| - 1];
      SumSideLedgersFor(chart, entries, init, side);
      assert LedgersFor(chart, entries, names)[..|names| - 1] == LedgersFor(chart, entries, init);
    }
  }

  lemma AccountNamesCoverSide(entries: seq<JournalEntry>, side: Side)
    ensures forall i | 0 <= i < |entries| :: AccountOn(entries[i], side) in AccountNames(entries)
  {
    AccountNamesComplete(entries);
    forall i | 0 <= i < |entries| ensures AccountOn(entries[i], side) in AccountNames(entries) {
      assert Mentions(entries[i], AccountOn(entries[i], side));
    }
  }

  /**
   * The zero-sum invariant: over the whole ledger set the closing balances
   * sum to 0, and both the debit and the credit totals sum to the total
   * amount of the entries.
   */
  lemma ZeroSum(chart: seq<AccountHead>, entries: seq<JournalEntry>)
    ensures SumSide(Ledgers(chart, entries), Debit) == TotalAmount(entries)
    ensures SumSide(Ledgers(chart, entries), Credit) == TotalAmount(entries)
    ensures SumClosing(Ledgers(chart, entries)) == 0
  {
    var names := AccountNames(entries);
    AccountNamesDistinct(entries);
    AccountNamesCoverSide(entries, Debit);
    AccountNamesCoverSide(entries, Credit);
    PostedOverCovering(entries, names, Debit);
    PostedOverCovering(entries, names, Credit);
    SumSideLedgersFor(chart, entries, names, Debit);
    SumSideLedgersFor(chart, entries, names, Credit);
  }

  // ----- Order independence -----

  lemma {:induction false} PostedAppend(a: seq<JournalEntry>, b: seq<JournalEntry>, name: string, side: Side)
    ensures Posted(a + b, name, side) == Posted(a, name, side) + Posted(b, name, side)
  {
    if |b| > 0 {
      var init := b[..|b| - 1];
      assert (a + b)[..|a + b| - 1] == a + init;
      PostedAppend(a, init, name, side);
    } else {
      assert a + b == a;
    }
  }

  /** Taking one entry out of the middle removes exactly its contribution. */
  lemma PostedRemoveAt(b: seq<JournalEntry>, j: nat, name: string, side: Side)
    requires j < |b|
    ensures Posted(b, name, side) ==
      Posted(b[..j] + b[j + 1..], name, side) + (if AccountOn(b[j], side) == name then b[j].amount else 0)
  {
    assert b == (b[..j] + [b[j]]) + b[j + 1..];
    PostedAppend(b[..j] + [b[j]], b[j + 1..], name, side);
    PostedAppend(b[..j], [b[j]], name, side);
    PostedAppend(b[..j], b[j + 1..], name, side);
    assert [b[j]][..0] == [];
  }

  lemma MultisetRemoveAt(b: seq<JournalEntry>, j: nat)
    requires j < |b|
    ensures multiset(b[..j] + b[j + 1..]) == multiset(b) - multiset{b[j]}
  {
    assert b == b[..j] + [b[j]] + b[j + 1..];
  }

  /** Where the last entry of `a` sits in its reordering `b`; without it the two are still reorderings. */
  lemma RemoveLastOf(a: seq<JournalEntry>, b: seq<JournalEntry>) returns (j: nat)
    requires multiset(a) == multiset(b) && |a| > 0
    ensures j < |b| && b[j] == a[|a| - 1]
    ensures multiset(a[..|a| - 1]) == multiset(b[..j] + b[j + 1..])
  {
    MultisetRemoveAt(a, |a| - 1);
    assert a[..|a| - 1] + a[|a|..] == a[..|a| - 1];
    assert a[|a| - 1] in multiset(b);
    j :| 0 <= j < |b| && b[j] == a[|a| - 1];
    MultisetRemoveAt(b, j);
  }

  /** Reordering the entries changes no account's totals. */
  lemma {:induction false} PostedPermutation(a: seq<JournalEntry>, b: seq<JournalEntry>, name: string, side: Side)
    requires multiset(a) == multiset(b)
    ensures Posted(a, name, side) == Posted(b, name, side)
    decreases |a|
  {
    if |a| > 0 {
      var j := RemoveLastOf(a, b);
      PostedPermutation(a[..|a| - 1], b[..j] + b[j + 1..], name, side);
      PostedRemoveAt(b, j, name, side);
    } else {
      assert |b| == |multiset(b)| == 0;
    }
  }

  lemma MentionedPermutation(a: seq<JournalEntry>, b: seq<JournalEntry>, name: string)
    requires multiset(a) == multiset(b)
    requires IsMentioned(a, name)
    ensures IsMentioned(b, name)
  {
    var i :| 0 <= i < |a| && Mentions(a[i], name);
    assert a[i] in multiset(b);
    var k :| 0 <= k < |b| && b[k] == a[i];
  }

  lemma AccountNamesPermutation(a: seq<JournalEntry>, b: seq<JournalEntry>)
    requires multiset(a) == multiset(b)
    ensures forall n :: n in AccountNames(a) <==> n in AccountNames(b)
  {
    AccountNamesComplete(a);
    AccountNamesComplete(b);
    forall n ensures n in AccountNames(a) <==> n in AccountNames(b) {
      if n in AccountNames(a) {
        assert IsMentioned(a, n);
        MentionedPermutation(a, b, n);
      }
      if n in AccountNames(b) {
        assert IsMentioned(b, n);
        MentionedPermutation(b, a, n);
      }
    }
  }

  lemma LedgerInPermutation(chart: seq<AccountHead>, a: seq<JournalEntry>, b: seq<JournalEntry>, l: LedgerBalance)
    requires multiset(a) == multiset(b)
    requires l in Ledgers(chart, a)
    ensures l in Ledgers(chart, b)
  {
    var i :| 0 <= i < |Ledgers(chart, a)| && Ledgers(chart, a)[i] == l;
    var n := AccountNames(a)[i];
    AccountNamesPermutation(a, b);
    assert n in AccountNames(a);
    assert n in AccountNames(b);
    var k :| 0 <= k < |AccountNames(b)| && AccountNames(b)[k] == n;
    PostedPermutation(a, b, n, Debit);
    PostedPermutation(a, b, n, Credit);
    assert Ledgers(chart, b)[k] == LedgerOf(chart, b, n) == LedgerOf(chart, a, n) == l;
  }

  /**
   * Permuting the entries yields the same ledger for every account and the
   * same set of ledgers (possibly listed in another first-seen order).
   */
  lemma LedgersPermutation(chart: seq<AccountHead>, a: seq<JournalEntry>, b: seq<JournalEntry>)
    requires multiset(a) == multiset(b)
    ensures forall n :: LedgerOf(chart, a, n) == LedgerOf(chart, b, n)
    ensures forall n :: n in AccountNames(a) <==> n in AccountNames(b)
    ensures forall l :: l in Ledgers(chart, a) <==> l in Ledgers(chart, b)
  {
    forall n ensures LedgerOf(chart, a, n) == LedgerOf(chart, b, n) {
      PostedPermutation(a, b, n, Debit);
      PostedPermutation(a, b, n, Credit);
    }
    AccountNamesPermutation(a, b);
    forall l ensures l in Ledgers(chart, a) <==> l in Ledgers(chart, b) {
      if l in Ledgers(chart, a) {
        LedgerInPermutation(chart, a, b, l);
      }
      if l in Ledgers(chart, b) {
        LedgerInPermutation(chart, b, a, l);
      }
    }
  }
}
