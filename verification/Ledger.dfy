/** Double-entry ledger: credence/ledger/service.py over the chart of accounts of
    credence/services/accounts.py. */
module Ledger {
  import opened Tables

  datatype Account =
    | SandboxCash | LenderLiquidity | PrincipalReceivable | VaultAvailable | VendorPayable
    | RevenueEscrow | OwnerPayable | ReservePool | FeeIncome | LossDefault

  datatype AccountType = Asset | Liability | Income | Expense

  const CHART: seq<Account> := [
    SandboxCash, LenderLiquidity, PrincipalReceivable, VaultAvailable, VendorPayable,
    RevenueEscrow, OwnerPayable, ReservePool, FeeIncome, LossDefault]

  function TypeOf(a: Account): AccountType {
    match a
    case SandboxCash => Asset
    case LenderLiquidity => Asset
    case PrincipalReceivable => Asset
    case FeeIncome => Income
    case LossDefault => Expense
    case _ => Liability
  }

  datatype Direction = Debit | Credit

  datatype Entry = Entry(account: Account, direction: Direction, amount: int, currency: string)

  datatype EventType = Disbursement | VendorPayment | RevenueReceipt | RepaymentWaterfall | RecoveryWaterfall

  datatype Journal = Journal(key: string, event: EventType, reference: nat, entries: seq<Entry>)

  /** The ledger tables: accounts created so far and journal transactions in posting order. */
  datatype Books = Books(chart: set<Account>, journal: seq<Journal>)

  datatype LedgerError = KeyRequired | TooFewEntries | NotPositive | Unbalanced | UnknownAccount

  /** A posting yields the journal row for the key and the books after it, or an error. */
  datatype Posting = Posted(books: Books, id: nat) | Rejected(error: LedgerError)

  function Signed(e: Entry): int { if e.direction == Debit then e.amount else -e.amount }

  function NetOf(entries: seq<Entry>, currency: string): int {
    if entries == [] then 0
    else
      var e := entries[|entries| - 1];
      NetOf(entries[..|entries| - 1], currency) + if e.currency == currency then Signed(e) else 0
  }

  function Effect(entries: seq<Entry>, account: Account): int {
    if entries == [] then 0
    else
      var e := entries[|entries| - 1];
      Effect(entries[..|entries| - 1], account) + if e.account == account then Signed(e) else 0
  }

  ghost predicate Balanced(entries: seq<Entry>) { forall c :: NetOf(entries, c) == 0 }

  predicate Positive(entries: seq<Entry>) { forall e :: e in entries ==> e.amount > 0 }

  predicate InChart(entries: seq<Entry>, chart: set<Account>) { forall e :: e in entries ==> e.account in chart }

  /** The row holding an idempotency key; keys are unique, so there is at most one. */
  function FindKey(journal: seq<Journal>, key: string): (r: Option<nat>)
    ensures r.Some? ==> r.value < |journal| && journal[r.value].key == key
    ensures r.None? ==> forall i :: 0 <= i < |journal| ==> journal[i].key != key
  {
    Last(journal, KeyOf, key)
  }

  function KeyOf(j: Journal): string { j.key }

  ghost function Post(b: Books, key: string, event: EventType, reference: nat, entries: seq<Entry>): Posting {
    if key == "" then Rejected(KeyRequired)
    else
      match FindKey(b.journal, key)
      case Some(id) => Posted(b, id)
      case None =>
        if |entries| < 2 then Rejected(TooFewEntries)
        else if !Positive(entries) then Rejected(NotPositive)
        else if !Balanced(entries) then Rejected(Unbalanced)
        else if !InChart(entries, b.chart) then Rejected(UnknownAccount)
        else Posted(b.(journal := b.journal + [Journal(key, event, reference, entries)]), |b.journal|)
  }

  // ----- The service -----

  class LedgerService {
    var chart: set<Account>
    var journal: seq<Journal>

    function Tables(): Books
      reads this
    {
      Books(chart, journal)
    }

    constructor ()
      ensures Tables() == Books({}, [])
    {
      chart, journal := {}, [];
    }

    /** `ensure_chart`: creates the platform accounts that are missing. */
    method EnsureChart()
      modifies this
      ensures Tables() == Complete(old(Tables()))
    {
      var i := 0;
      while i < |CHART|
        invariant 0 <= i <= |CHART|
        invariant journal == old(journal)
        invariant chart == old(chart) + set k | 0 <= k < i :: CHART[k]
      {
        if CHART[i] !in chart {
          chart := chart + {CHART[i]};
        }
        i := i + 1;
      }
      ChartIsEverything();
    }

    /** The totals loop of `post_journal`: every amount positive, every currency balanced. */
    static method CheckBalance(entries: seq<Entry>) returns (refusal: Option<LedgerError>)
      ensures refusal ==
        if !Positive(entries) then Some(NotPositive) else if !Balanced(entries) then Some(Unbalanced) else None
    {
      var totals: map<string, int> := map[];
      var i := 0;
      while i < |entries|
        invariant 0 <= i <= |entries|
        invariant Positive(entries[..i])
        invariant forall c :: NetOf(entries[..i], c) == if c in totals then totals[c] else 0
      {
        var e := entries[i];
        assert entries[..i + 1][..i] == entries[..i];
        if e.amount <= 0 {
          assert e in entries;
          return Some(NotPositive);
        }
        var before := if e.currency in totals then totals[e.currency] else 0;
        totals := totals[e.currency := before + Signed(e)];
        i := i + 1;
      }
      assert entries[..i] == entries;
      if exists c :: c in totals && totals[c] != 0 {
        var c :| c in totals && totals[c] != 0;
        assert NetOf(entries, c) != 0;
        return Some(Unbalanced);
      }
      return None;
    }

    /** `post_journal`: atomic, balanced and idempotent. */
    method PostJournal(key: string, event: EventType, reference: nat, entries: seq<Entry>) returns (r: Posting)
      modifies this
      ensures r == Post(old(Tables()), key, event, reference, entries)
      ensures Tables() == if r.Posted? then r.books else old(Tables())
    {
      if key == "" {
        return Rejected(KeyRequired);
      }
      var existing := FindKey(journal, key);
      if existing.Some? {
        return Posted(Tables(), existing.value);
      }
      if |entries| < 2 {
        return Rejected(TooFewEntries);
      }
      var refusal := CheckBalance(entries);
      if refusal.Some? {
        return Rejected(refusal.value);
      }
      if !InChart(entries, chart) {
        return Rejected(UnknownAccount);
      }
      journal := journal + [Journal(key, event, reference, entries)];
      r := Posted(Tables(), |journal| - 1);
    }

    /** `account_balance`: positive on the account's natural side; None when unknown. */
    method AccountBalance(account: Account) returns (r: Option<int>)
      ensures r == if account in chart then Some(Balance(journal, account)) else None
    {
      if account !in chart {
        return None;
      }
      var raw := 0;
      var i := 0;
      while i < |journal|
        invariant 0 <= i <= |journal|
        invariant raw == Raw(journal[..i], account)
      {
        assert journal[..i + 1][..i] == journal[..i];
        raw := raw + Effect(journal[i].entries, account);
        i := i + 1;
      }
      assert journal[..i] == journal;
      r := Some(if TypeOf(account) in {Asset, Expense} then raw else -raw);
    }

    /** `reconcile`: the currencies whose global trial balance is not zero. */
    method Reconcile() returns (imbalance: map<string, int>)
      ensures forall c :: c in imbalance <==> TrialNet(journal, c) != 0
      ensures forall c :: c in imbalance ==> imbalance[c] == TrialNet(journal, c)
    {
      var net: map<string, int> := map[];
      var i := 0;
      while i < |journal|
        invariant 0 <= i <= |journal|
        invariant forall c :: TrialNet(journal[..i], c) == if c in net then net[c] else 0
      {
        var entries := journal[i].entries;
        assert journal[..i + 1][..i] == journal[..i];
        var k := 0;
        while k < |entries|
          invariant 0 <= k <= |entries|
          invariant forall c :: TrialNet(journal[..i], c) + NetOf(entries[..k], c) == if c in net then net[c] else 0
        {
          var e := entries[k];
          assert entries[..k + 1][..k] == entries[..k];
          net := net[e.currency := (if e.currency in net then net[e.currency] else 0) + Signed(e)];
          k := k + 1;
        }
        assert entries[..k] == entries;
        i := i + 1;
      }
      assert journal[..i] == journal;
      imbalance := map c | c in net && net[c] != 0 :: net[c];
    }
  }

  function Complete(b: Books): Books { b.(chart := b.chart + set a | a in CHART) }

  lemma ChartIsEverything()
    ensures (set k | 0 <= k < |CHART| :: CHART[k]) == set a | a in CHART
    ensures forall a: Account :: a in CHART
  {
    forall a: Account ensures a in CHART {
      match a
      case SandboxCash => assert CHART[0] == a;
      case LenderLiquidity => assert CHART[1] == a;
      case PrincipalReceivable => assert CHART[2] == a;
      case VaultAvailable => assert CHART[3] == a;
      case VendorPayable => assert CHART[4] == a;
      case RevenueEscrow => assert CHART[5] == a;
      case OwnerPayable => assert CHART[6] == a;
      case ReservePool => assert CHART[7] == a;
      case FeeIncome => assert CHART[8] == a;
      case LossDefault => assert CHART[9] == a;
    }
  }

  // ----- Balances -----

  /** Debits minus credits on one account. */
  function Raw(journal: seq<Journal>, account: Account): int {
    if journal == [] then 0
    else Raw(journal[..|journal| - 1], account) + Effect(journal[|journal| - 1].entries, account)
  }

  function Balance(journal: seq<Journal>, account: Account): int {
    if TypeOf(account) in {Asset, Expense} then Raw(journal, account) else -Raw(journal, account)
  }

  function TrialNet(journal: seq<Journal>, currency: string): int {
    if journal == [] then 0
    else TrialNet(journal[..|journal| - 1], currency) + NetOf(journal[|journal| - 1].entries, currency)
  }

  lemma RawAppend(journal: seq<Journal>, j: Journal, account: Account)
    ensures Raw(journal + [j], account) == Raw(journal, account) + Effect(j.entries, account)
  {
    assert (journal + [j])[..|journal|] == journal;
  }

  lemma {:induction false} EntriesConcat(a: seq<Entry>, b: seq<Entry>, account: Account, currency: string)
    ensures Effect(a + b, account) == Effect(a, account) + Effect(b, account)
    ensures NetOf(a + b, currency) == NetOf(a, currency) + NetOf(b, currency)
  {
    if b == [] {
      assert a + b == a;
    } else {
      EntriesConcat(a, b[..|b| - 1], account, currency);
      assert (a + b)[..|a + b| - 1] == a + b[..|b| - 1];
    }
  }

  // ----- What every posting keeps -----

  ghost predicate WellPosted(j: Journal, chart: set<Account>) {
    && j.key != "" && |j.entries| >= 2
    && Positive(j.entries) && Balanced(j.entries) && InChart(j.entries, chart)
  }

  ghost predicate Consistent(b: Books) {
    && (forall j :: j in b.journal ==> WellPosted(j, b.chart))
    && (forall i, k :: 0 <= i < k < |b.journal| ==> b.journal[i].key != b.journal[k].key)
  }

  /** Whatever a caller asks for, the ledger stays consistent, existing rows stay as they
      are, and the key posts at most once: asking again changes nothing. */
  lemma PostKeepsBooks(b: Books, key: string, event: EventType, reference: nat, entries: seq<Entry>)
    requires Consistent(b)
    ensures var r := Post(b, key, event, reference, entries);
      r.Posted? ==>
        && Consistent(r.books) && b.journal <= r.books.journal
        && r.id < |r.books.journal| && r.books.journal[r.id].key == key
        && forall event', reference', entries' :: Post(r.books, key, event', reference', entries') == r
  {
    var r := Post(b, key, event, reference, entries);
    if r.Posted? {
      forall j | j in r.books.journal ensures WellPosted(j, r.books.chart) {
        assert j in b.journal || j == Journal(key, event, reference, entries);
      }
      var again := FindKey(r.books.journal, key);
      assert r.books.journal[r.id].key == key;
    }
  }

  function DebitIn(currency: string): Entry -> int {
    (e: Entry) => if e.currency == currency && e.direction == Debit then e.amount else 0
  }

  function CreditIn(currency: string): Entry -> int {
    (e: Entry) => if e.currency == currency && e.direction == Credit then e.amount else 0
  }

  function DebitOn(account: Account): Entry -> int {
    (e: Entry) => if e.account == account && e.direction == Debit then e.amount else 0
  }

  function CreditOn(account: Account): Entry -> int {
    (e: Entry) => if e.account == account && e.direction == Credit then e.amount else 0
  }

  /** The net of a currency and the effect on an account are debits less credits. */
  lemma {:induction false} DebitsLessCredits(entries: seq<Entry>, currency: string, account: Account)
    ensures NetOf(entries, currency) == Sum(entries, DebitIn(currency)) - Sum(entries, CreditIn(currency))
    ensures Effect(entries, account) == Sum(entries, DebitOn(account)) - Sum(entries, CreditOn(account))
  {
    if |entries| > 0 {
      DebitsLessCredits(entries[..|entries| - 1], currency, account);
    }
  }

  /** A posting that may enter the books: at least two entries, each of a positive amount on a known
      account, with equal debits and credits in every currency. */
  ghost predicate Acceptable(b: Books, entries: seq<Entry>) {
    && |entries| >= 2
    && (forall i :: 0 <= i < |entries| ==> entries[i].amount > 0 && entries[i].account in b.chart)
    && forall c :: Sum(entries, DebitIn(c)) == Sum(entries, CreditIn(c))
  }

  lemma AcceptableIsPostable(b: Books, entries: seq<Entry>)
    ensures Acceptable(b, entries)
      <==> |entries| >= 2 && Positive(entries) && Balanced(entries) && InChart(entries, b.chart)
  {
    forall c ensures NetOf(entries, c) == Sum(entries, DebitIn(c)) - Sum(entries, CreditIn(c)) {
      DebitsLessCredits(entries, c, SandboxCash);
    }
    assert forall i :: 0 <= i < |entries| ==> entries[i] in entries;
  }

  /** What a posting comes to: without a key it is refused; a known key answers with its row and
      changes nothing; otherwise it becomes the last row exactly when it is acceptable. */
  lemma PostsWhen(b: Books, key: string, event: EventType, reference: nat, entries: seq<Entry>)
    ensures var r := Post(b, key, event, reference, entries);
      if key == "" then r == Rejected(KeyRequired)
      else if exists j :: j in b.journal && j.key == key then
        r.Posted? && r.books == b && r.id < |b.journal| && b.journal[r.id].key == key
      else
        && (r.Posted? <==> Acceptable(b, entries))
        && (r.Posted? ==>
              r == Posted(Books(b.chart, b.journal + [Journal(key, event, reference, entries)]), |b.journal|))
  {
    AcceptableIsPostable(b, entries);
    if exists j :: j in b.journal && j.key == key {
      var j :| j in b.journal && j.key == key;
      var i :| 0 <= i < |b.journal| && b.journal[i] == j;
    }
  }

  /** Which refusal: too few entries, then an amount that is not positive, then an imbalance, then
      an unknown account. */
  lemma RefusalsInOrder(b: Books, key: string, event: EventType, reference: nat, entries: seq<Entry>)
    requires key != "" && (forall j :: j in b.journal ==> j.key != key) && !Acceptable(b, entries)
    ensures Post(b, key, event, reference, entries) == Rejected(
      if |entries| < 2 then TooFewEntries
      else if exists i :: 0 <= i < |entries| && entries[i].amount <= 0 then NotPositive
      else if exists c :: Sum(entries, DebitIn(c)) != Sum(entries, CreditIn(c)) then Unbalanced
      else UnknownAccount)
  {
    AcceptableIsPostable(b, entries);
    forall c ensures NetOf(entries, c) == Sum(entries, DebitIn(c)) - Sum(entries, CreditIn(c)) {
      DebitsLessCredits(entries, c, SandboxCash);
    }
    assert forall i :: 0 <= i < |entries| ==> entries[i] in entries;
  }

  /** A consistent ledger has an empty trial balance in every currency. */
  lemma {:induction false} TrialBalanceEmpty(b: Books, currency: string)
    requires Consistent(b)
    ensures TrialNet(b.journal, currency) == 0
    decreases |b.journal|
  {
    var n := |b.journal|;
    if n > 0 {
      assert b.journal[n - 1] in b.journal;
      TrialBalanceEmpty(b.(journal := b.journal[..n - 1]), currency);
    }
  }

  function Assets(journal: seq<Journal>): int {
    Balance(journal, SandboxCash) + Balance(journal, LenderLiquidity) + Balance(journal, PrincipalReceivable)
  }

  function Liabilities(journal: seq<Journal>): int {
    Balance(journal, VaultAvailable) + Balance(journal, VendorPayable) + Balance(journal, RevenueEscrow)
    + Balance(journal, OwnerPayable) + Balance(journal, ReservePool)
  }

  /** Debits minus credits over the whole chart. */
  function RawTotal(journal: seq<Journal>): int {
    Raw(journal, SandboxCash) + Raw(journal, LenderLiquidity) + Raw(journal, PrincipalReceivable)
    + Raw(journal, VaultAvailable) + Raw(journal, VendorPayable) + Raw(journal, RevenueEscrow)
    + Raw(journal, OwnerPayable) + Raw(journal, ReservePool) + Raw(journal, FeeIncome) + Raw(journal, LossDefault)
  }

  lemma {:induction false} RawTotalZero(journal: seq<Journal>)
    requires forall j :: j in journal ==> Balanced(j.entries)
    ensures RawTotal(journal) == 0
  {
    if journal != [] {
      assert journal[|journal| - 1] in journal;
      RawTotalZero(journal[..|journal| - 1]);
      EffectsCancel(journal[|journal| - 1].entries);
    }
  }

  /** Assets + expenses = liabilities + income in every consistent ledger, although entries
      are balanced per currency and account balances ignore currency. */
  lemma AccountingIdentity(b: Books)
    requires Consistent(b)
    ensures Assets(b.journal) + Balance(b.journal, LossDefault)
         == Liabilities(b.journal) + Balance(b.journal, FeeIncome)
  {
    RawTotalZero(b.journal);
  }

  function Overall(entries: seq<Entry>): int {
    if entries == [] then 0 else Overall(entries[..|entries| - 1]) + Signed(entries[|entries| - 1])
  }

  function Without(entries: seq<Entry>, currency: string): seq<Entry> {
    if entries == [] then []
    else
      var e := entries[|entries| - 1];
      Without(entries[..|entries| - 1], currency) + if e.currency == currency then [] else [e]
  }

  lemma {:induction false} WithoutSplits(entries: seq<Entry>, currency: string, other: string)
    ensures |Without(entries, currency)| <= |entries|
    ensures Overall(entries) == Overall(Without(entries, currency)) + NetOf(entries, currency)
    ensures NetOf(Without(entries, currency), other) == if other == currency then 0 else NetOf(entries, other)
  {
    if entries != [] {
      var e := entries[|entries| - 1];
      var rest := Without(entries[..|entries| - 1], currency);
      WithoutSplits(entries[..|entries| - 1], currency, other);
      assert (rest + [e])[..|rest|] == rest && rest + [] == rest;
    }
  }

  lemma {:induction false} BalancedOverall(entries: seq<Entry>)
    requires Balanced(entries)
    ensures Overall(entries) == 0
    decreases |entries|
  {
    if entries != [] {
      var c := entries[|entries| - 1].currency;
      WithoutSplits(entries[..|entries| - 1], c, c);
      WithoutSplits(entries, c, c);
      forall d ensures NetOf(Without(entries, c), d) == 0 {
        WithoutSplits(entries, c, d);
      }
      BalancedOverall(Without(entries, c));
    }
  }

  lemma {:induction false} EffectsTotal(entries: seq<Entry>)
    ensures Effect(entries, SandboxCash) + Effect(entries, LenderLiquidity) + Effect(entries, PrincipalReceivable)
          + Effect(entries, VaultAvailable) + Effect(entries, VendorPayable) + Effect(entries, RevenueEscrow)
          + Effect(entries, OwnerPayable) + Effect(entries, ReservePool) + Effect(entries, FeeIncome)
          + Effect(entries, LossDefault) == Overall(entries)
  {
    if entries != [] {
      EffectsTotal(entries[..|entries| - 1]);
    }
  }

  lemma EffectsCancel(entries: seq<Entry>)
    requires Balanced(entries)
    ensures Effect(entries, SandboxCash) + Effect(entries, LenderLiquidity) + Effect(entries, PrincipalReceivable)
          + Effect(entries, VaultAvailable) + Effect(entries, VendorPayable) + Effect(entries, RevenueEscrow)
          + Effect(entries, OwnerPayable) + Effect(entries, ReservePool) + Effect(entries, FeeIncome)
          + Effect(entries, LossDefault) == 0
  {
    EffectsTotal(entries);
    BalancedOverall(entries);
  }
}
