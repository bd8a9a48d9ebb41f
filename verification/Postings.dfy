/** The entry lists of the money-moving operations: each is one the ledger accepts, and what
    each does to every account. */
module Postings {
  import opened Operations
  import W = Waterfall
  import L = Ledger

  /** What `post_journal` asks of a list of entries, apart from known accounts. */
  ghost predicate Postable(entries: seq<L.Entry>) {
    |entries| >= 2 && L.Positive(entries) && L.Balanced(entries)
  }

  /** The ledger after a first posting under a key. */
  function Filed(b: L.Books, key: string, event: L.EventType, reference: nat, entries: seq<L.Entry>): L.Books {
    L.Books(L.Complete(b).chart, b.journal + [L.Journal(key, event, reference, entries)])
  }

  predicate Fresh(b: L.Books, key: string) { forall j :: j in b.journal ==> j.key != key }

  /** Neither rejected nor swallowed: with a fresh key a postable list becomes a new row. */
  lemma PostFresh(b: L.Books, key: string, event: L.EventType, reference: nat, entries: seq<L.Entry>)
    requires L.Consistent(b) && key != "" && Fresh(b, key) && Postable(entries)
    ensures L.Post(L.Complete(b), key, event, reference, entries)
         == L.Posted(Filed(b, key, event, reference, entries), |b.journal|)
    ensures L.Consistent(Filed(b, key, event, reference, entries))
  {
    L.ChartIsEverything();
    var c := L.Complete(b);
    assert forall i :: 0 <= i < |b.journal| ==> b.journal[i] in b.journal;
    assert L.FindKey(c.journal, key).None?;
    assert L.Consistent(c);
    L.PostKeepsBooks(c, key, event, reference, entries);
  }

  lemma Pair(debit: L.Account, credit: L.Account, amount: int, currency: string)
    requires amount > 0 && debit != credit
    ensures var entries := [L.Entry(debit, L.Debit, amount, currency), L.Entry(credit, L.Credit, amount, currency)];
      && Postable(entries)
      && forall x :: L.Effect(entries, x) == if x == debit then amount else if x == credit then -amount else 0
  {
    var d, c := L.Entry(debit, L.Debit, amount, currency), L.Entry(credit, L.Credit, amount, currency);
    var entries := [d, c];
    assert entries == [d] + [c];
    forall ccy ensures L.NetOf(entries, ccy) == 0 {
      L.EntriesConcat([d], [c], debit, ccy);
      Single(d, debit, ccy);
      Single(c, debit, ccy);
    }
    forall x ensures L.Effect(entries, x) == if x == debit then amount else if x == credit then -amount else 0 {
      L.EntriesConcat([d], [c], x, currency);
      Single(d, x, currency);
      Single(c, x, currency);
    }
  }

  lemma Single(e: L.Entry, account: L.Account, currency: string)
    ensures L.Effect([e], account) == if e.account == account then L.Signed(e) else 0
    ensures L.NetOf([e], currency) == if e.currency == currency then L.Signed(e) else 0
  {
    assert [e][..0] == [];
  }

  function SignedBy(direction: L.Direction, amount: int): int { if direction == L.Debit then amount else -amount }

  lemma Optional(account: L.Account, direction: L.Direction, amount: int, currency: string, x: L.Account, ccy: string)
    ensures var e := EntryIf(account, direction, amount, currency);
      && L.Effect(e, x) == (if x == account then SignedBy(direction, amount) else 0)
      && L.NetOf(e, ccy) == (if ccy == currency then SignedBy(direction, amount) else 0)
  {
    if amount != 0 {
      Single(L.Entry(account, direction, amount, currency), x, ccy);
    }
  }

  lemma WaterfallEffects(amount: int, w: W.RepaymentResult, currency: string, x: L.Account, ccy: string)
    ensures var entries := WaterfallEntries(amount, w, currency);
      && L.Effect(entries, x)
         == (if x == L.RevenueEscrow then amount else 0)
          - (if x == L.PrincipalReceivable then w.principalRepaid else 0)
          - (if x == L.FeeIncome then w.feePaid else 0)
          - (if x == L.ReservePool then w.reserveReplenished else 0)
          - (if x == L.OwnerPayable then w.ownerReleased else 0)
      && L.NetOf(entries, ccy)
         == if ccy == currency then amount - w.principalRepaid - w.feePaid - w.reserveReplenished - w.ownerReleased
           else 0
  {
    var e0 := [L.Entry(L.RevenueEscrow, L.Debit, amount, currency)];
    var e1 := EntryIf(L.PrincipalReceivable, L.Credit, w.principalRepaid, currency);
    var e2 := EntryIf(L.FeeIncome, L.Credit, w.feePaid, currency);
    var e3 := EntryIf(L.ReservePool, L.Credit, w.reserveReplenished, currency);
    var e4 := EntryIf(L.OwnerPayable, L.Credit, w.ownerReleased, currency);
    Single(e0[0], x, ccy);
    Optional(L.PrincipalReceivable, L.Credit, w.principalRepaid, currency, x, ccy);
    Optional(L.FeeIncome, L.Credit, w.feePaid, currency, x, ccy);
    Optional(L.ReservePool, L.Credit, w.reserveReplenished, currency, x, ccy);
    Optional(L.OwnerPayable, L.Credit, w.ownerReleased, currency, x, ccy);
    L.EntriesConcat(e0 + e1 + e2 + e3, e4, x, ccy);
    L.EntriesConcat(e0 + e1 + e2, e3, x, ccy);
    L.EntriesConcat(e0 + e1, e2, x, ccy);
    L.EntriesConcat(e0, e1, x, ccy);
  }

  lemma WaterfallPostable(amount: int, w: W.RepaymentResult, currency: string)
    requires amount > 0 && w.principalRepaid >= 0 && w.feePaid >= 0 && w.reserveReplenished >= 0 && w.ownerReleased >= 0
    requires w.principalRepaid + w.feePaid + w.reserveReplenished + w.ownerReleased == amount
    ensures Postable(WaterfallEntries(amount, w, currency))
  {
    forall ccy ensures L.NetOf(WaterfallEntries(amount, w, currency), ccy) == 0 {
      WaterfallEffects(amount, w, currency, L.RevenueEscrow, ccy);
    }
  }

  lemma RecoveryEffects(w: W.RecoveryResult, currency: string, x: L.Account, ccy: string)
    ensures var entries := RecoveryEntries(w, currency);
      && L.Effect(entries, x)
         == (if x == L.VaultAvailable then w.swept else 0)
          + (if x == L.ReservePool then w.reserveDrawn else 0)
          + (if x == L.LossDefault then w.loss else 0)
          - (if x == L.PrincipalReceivable then w.swept + w.reserveDrawn + w.loss else 0)
      && L.NetOf(entries, ccy) == 0
  {
    var total := w.swept + w.reserveDrawn + w.loss;
    var e1 := EntryIf(L.VaultAvailable, L.Debit, w.swept, currency);
    var e2 := EntryIf(L.ReservePool, L.Debit, w.reserveDrawn, currency);
    var e3 := EntryIf(L.LossDefault, L.Debit, w.loss, currency);
    var e4 := EntryIf(L.PrincipalReceivable, L.Credit, total, currency);
    Optional(L.VaultAvailable, L.Debit, w.swept, currency, x, ccy);
    Optional(L.ReservePool, L.Debit, w.reserveDrawn, currency, x, ccy);
    Optional(L.LossDefault, L.Debit, w.loss, currency, x, ccy);
    Optional(L.PrincipalReceivable, L.Credit, total, currency, x, ccy);
    L.EntriesConcat(e1 + e2 + e3, e4, x, ccy);
    L.EntriesConcat(e1 + e2, e3, x, ccy);
    L.EntriesConcat(e1, e2, x, ccy);
  }

  lemma RecoveryPostable(w: W.RecoveryResult, currency: string)
    requires w.swept >= 0 && w.reserveDrawn >= 0 && w.loss >= 0 && w.swept + w.reserveDrawn + w.loss > 0
    ensures Postable(RecoveryEntries(w, currency))
  {
    forall ccy ensures L.NetOf(RecoveryEntries(w, currency), ccy) == 0 {
      RecoveryEffects(w, currency, L.VaultAvailable, ccy);
    }
  }
}
