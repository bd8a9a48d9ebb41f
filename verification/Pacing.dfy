/** Velocity and anti-splitting over whole runs: the checks are made one payment at a time,
    the guarantee is about every interval of the length of the window. */
module Pacing {
  import opened Tables
  import opened Records
  import opened Operations
  import opened Growth
  import opened SpendTerms
  import R = Rules

  /** What the rules granted when a payment was executed from a vault after the given rows. */
  predicate Admitted(rows: seq<Payment>, p: Payment, v: Vault) {
    var recent := Spends(rows, p.vault, p.at - R.VELOCITY_WINDOW);
    var same := R.ToVendor(recent, p.vendor);
    && p.amount > 0 && |recent| < R.VELOCITY_MAX
    && (|same| >= 2 ==> Sum(same, R.SpendAmount) + p.amount <= v.perTransactionLimit)
    && Sum(Spends(rows, p.vault, p.at - p.at % R.DAY), R.SpendAmount) + p.amount <= v.dailyLimit
  }

  /** Every payment was admitted when it was made, in whatever order the payments are dated. */
  predicate Paced(rows: seq<Payment>, vaults: seq<Vault>) {
    rows == []
    || (var p := rows[|rows| - 1];
        && Paced(rows[..|rows| - 1], vaults)
        && p.vault < |vaults| && Admitted(rows[..|rows| - 1], p, vaults[p.vault]))
  }

  /** The payments of one vault in a closed time interval. */
  function Within(rows: seq<Payment>, vault: nat, from: int, until: int): seq<R.RecentSpend> {
    if rows == [] then []
    else
      var p := rows[|rows| - 1];
      Within(rows[..|rows| - 1], vault, from, until)
      + if p.vault == vault && from <= p.at <= until then [R.RecentSpend(p.vendor, p.amount, p.at)] else []
  }

  lemma ToVendorAppend(spends: seq<R.RecentSpend>, x: R.RecentSpend, vendor: string)
    ensures R.ToVendor(spends + [x], vendor) == R.ToVendor(spends, vendor) + if x.vendor == vendor then [x] else []
  {
    assert (spends + [x])[..|spends|] == spends;
  }

  lemma VendorTotalAppend(spends: seq<R.RecentSpend>, x: R.RecentSpend, vendor: string)
    ensures Sum(R.ToVendor(spends + [x], vendor), R.SpendAmount)
         == Sum(R.ToVendor(spends, vendor), R.SpendAmount) + if x.vendor == vendor then x.amount else 0
    ensures |R.ToVendor(spends + [x], vendor)| == |R.ToVendor(spends, vendor)| + if x.vendor == vendor then 1 else 0
  {
    ToVendorAppend(spends, x, vendor);
    if x.vendor == vendor {
      SumAppend(R.ToVendor(spends, vendor), x, R.SpendAmount);
    } else {
      assert R.ToVendor(spends, vendor) + [] == R.ToVendor(spends, vendor);
    }
  }

  /** No more spends, in number and in amount, all told and to one vendor. */
  predicate Covered(a: seq<R.RecentSpend>, b: seq<R.RecentSpend>, vendor: string) {
    && |a| <= |b| && |R.ToVendor(a, vendor)| <= |R.ToVendor(b, vendor)|
    && Sum(R.ToVendor(a, vendor), R.SpendAmount) <= Sum(R.ToVendor(b, vendor), R.SpendAmount)
    && Sum(a, R.SpendAmount) <= Sum(b, R.SpendAmount)
  }

  lemma CoverGrows(a: seq<R.RecentSpend>, b: seq<R.RecentSpend>, x: R.RecentSpend, inA: bool, inB: bool, vendor: string)
    requires Covered(a, b, vendor) && (inA ==> inB) && x.amount >= 0
    ensures Covered(a + if inA then [x] else [], b + if inB then [x] else [], vendor)
  {
    VendorTotalAppend(a, x, vendor);
    VendorTotalAppend(b, x, vendor);
    SumAppend(a, x, R.SpendAmount);
    SumAppend(b, x, R.SpendAmount);
    assert a + [] == a && b + [] == b;
  }

  /** An interval starting no earlier than a look-back holds no more than it, in number, per
      vendor and in amount. */
  lemma {:induction false} IntervalInLookBack(rows: seq<Payment>, vaults: seq<Vault>, vault: nat, from: int, until: int,
                                                since: int, vendor: string)
    requires Paced(rows, vaults) && since <= from
    ensures Covered(Within(rows, vault, from, until), Spends(rows, vault, since), vendor)
  {
    if rows != [] {
      var earlier, p := rows[..|rows| - 1], rows[|rows| - 1];
      IntervalInLookBack(earlier, vaults, vault, from, until, since, vendor);
      CoverGrows(Within(earlier, vault, from, until), Spends(earlier, vault, since),
                 R.RecentSpend(p.vendor, p.amount, p.at),
                 p.vault == vault && from <= p.at <= until, p.vault == vault && p.at >= since, vendor);
    }
  }

  // ----- The window -----

  /** The window guarantee: at most five payments, and three or more to one vendor total at
      most the per-transaction limit. */
  predicate CalmSpends(inside: seq<R.RecentSpend>, vendor: string, perTransaction: int) {
    var same := R.ToVendor(inside, vendor);
    |inside| <= R.VELOCITY_MAX && (|same| >= 3 ==> Sum(same, R.SpendAmount) <= perTransaction)
  }

  predicate Calm(rows: seq<Payment>, vault: nat, from: int, vendor: string, perTransaction: int) {
    CalmSpends(Within(rows, vault, from, from + R.VELOCITY_WINDOW), vendor, perTransaction)
  }

  /** One more admitted payment, whose look-back holds at least what the interval holds so far. */
  lemma CalmExtends(inside: seq<R.RecentSpend>, look: seq<R.RecentSpend>, x: R.RecentSpend, vendor: string,
                    perTransaction: int)
    requires CalmSpends(inside, vendor, perTransaction)
    requires |inside| <= |look| < R.VELOCITY_MAX
    requires var l, s := R.ToVendor(look, x.vendor), R.ToVendor(inside, x.vendor);
      && |s| <= |l| && Sum(s, R.SpendAmount) <= Sum(l, R.SpendAmount)
      && (|l| >= 2 ==> Sum(l, R.SpendAmount) + x.amount <= perTransaction)
    ensures CalmSpends(inside + [x], vendor, perTransaction)
  {
    VendorTotalAppend(inside, x, vendor);
  }

  /** The look-back check made at each payment suffices for every interval of its length. */
  lemma {:induction false} PacedIsCalm(rows: seq<Payment>, vaults: seq<Vault>, vault: nat, from: int, vendor: string)
    requires Paced(rows, vaults) && vault < |vaults|
    ensures Calm(rows, vault, from, vendor, vaults[vault].perTransactionLimit)
  {
    if rows != [] {
      var earlier, p := rows[..|rows| - 1], rows[|rows| - 1];
      PacedIsCalm(earlier, vaults, vault, from, vendor);
      if p.vault == vault && from <= p.at <= from + R.VELOCITY_WINDOW {
        CalmStep(earlier, vaults, from, vendor, p);
      } else {
        var inside := Within(earlier, vault, from, from + R.VELOCITY_WINDOW);
        assert inside + [] == inside;
      }
    }
  }

  lemma CalmStep(earlier: seq<Payment>, vaults: seq<Vault>, from: int, vendor: string, p: Payment)
    requires Paced(earlier, vaults) && p.vault < |vaults| && Admitted(earlier, p, vaults[p.vault])
    requires from <= p.at <= from + R.VELOCITY_WINDOW
    requires Calm(earlier, p.vault, from, vendor, vaults[p.vault].perTransactionLimit)
    ensures var inside := Within(earlier, p.vault, from, from + R.VELOCITY_WINDOW);
      CalmSpends(inside + [R.RecentSpend(p.vendor, p.amount, p.at)], vendor, vaults[p.vault].perTransactionLimit)
  {
    var since := p.at - R.VELOCITY_WINDOW;
    IntervalInLookBack(earlier, vaults, p.vault, from, from + R.VELOCITY_WINDOW, since, p.vendor);
    CalmExtends(Within(earlier, p.vault, from, from + R.VELOCITY_WINDOW), Spends(earlier, p.vault, since),
                R.RecentSpend(p.vendor, p.amount, p.at), vendor, vaults[p.vault].perTransactionLimit);
  }

  // ----- The day -----

  /** What a vault paid out on one UTC day. */
  function PaidOn(rows: seq<Payment>, vault: nat, day: int): int {
    Sum(Within(rows, vault, day * R.DAY, day * R.DAY + R.DAY - 1), R.SpendAmount)
  }

  lemma DayStart(at: int, day: int)
    requires day * R.DAY <= at <= day * R.DAY + R.DAY - 1
    ensures at - at % R.DAY == day * R.DAY
  {
    assert at == R.DAY * (at / R.DAY) + at % R.DAY;
    assert at / R.DAY == day;
  }

  /** The check against the daily limit made at each payment bounds every UTC day, for any daily
      limit and without help from the total limit. */
  lemma {:induction false} PacedDay(rows: seq<Payment>, vaults: seq<Vault>, vault: nat, day: int)
    requires Paced(rows, vaults) && vault < |vaults|
    ensures PaidOn(rows, vault, day) <= Max(vaults[vault].dailyLimit, 0)
  {
    if rows != [] {
      var earlier, p := rows[..|rows| - 1], rows[|rows| - 1];
      var from, until := day * R.DAY, day * R.DAY + R.DAY - 1;
      PacedDay(earlier, vaults, vault, day);
      var inside := Within(earlier, vault, from, until);
      if p.vault == vault && from <= p.at <= until {
        DayStart(p.at, day);
        IntervalInLookBack(earlier, vaults, vault, from, until, from, p.vendor);
        SumAppend(inside, R.RecentSpend(p.vendor, p.amount, p.at), R.SpendAmount);
      } else {
        assert inside + [] == inside;
      }
    }
  }

  // ----- Runs -----

  lemma {:induction false} PacedGrows(rows: seq<Payment>, b: seq<Vault>, c: seq<Vault>)
    requires Paced(rows, b) && |b| <= |c|
    requires forall i :: 0 <= i < |b| ==> SameTerms(b[i], c[i])
    ensures Paced(rows, c)
  {
    if |rows| > 0 {
      var n := |rows| - 1;
      PacedGrows(rows[..n], b, c);
      AdmittedStays(rows[..n], rows[n], b[rows[n].vault], c[rows[n].vault]);
    }
  }

  lemma AdmittedStays(rows: seq<Payment>, p: Payment, v: Vault, w: Vault)
    requires Admitted(rows, p, v) && SameTerms(v, w)
    ensures Admitted(rows, p, w)
  {
  }

  /** The window the rules look at is the look-back. */
  lemma PaceSeen(s: State, q: SpendRequest, now: int)
    requires q.vault < |s.book.vaults|
    ensures var recent := Spends(s.book.payments, q.vault, now - R.VELOCITY_WINDOW);
      var same := R.ToVendor(recent, q.vendor);
      PaceNow(s, q, now) == R.Pace(|recent|, |same|, Sum(same, R.SpendAmount))
  {
    SpendsOnRows(s.book.payments, q.vault, now - R.VELOCITY_WINDOW);
    AllInWindow(Spends(s.book.payments, q.vault, now - R.VELOCITY_WINDOW), now - R.VELOCITY_WINDOW);
  }

  lemma UnopposedFacts(s: State, q: SpendRequest, now: int)
    requires q.vault < |s.book.vaults| && RuleReasons(s, q, now) == {}
    ensures var v, pace := s.book.vaults[q.vault], PaceNow(s, q, now);
      && q.amount > 0 && pace.count < R.VELOCITY_MAX
      && (pace.sameVendor >= 2 ==> pace.sameVendorTotal + q.amount <= v.perTransactionLimit)
      && Sum(Spends(s.book.payments, q.vault, now - now % R.DAY), R.SpendAmount) + q.amount <= v.dailyLimit
  {
    R.NoViolationMeansPermitted(LimitsOf(s, q.vault, now), ProposalOf(q), PaceNow(s, q, now), now);
  }

  lemma UnopposedIsAdmitted(s: State, q: SpendRequest, p: Payment, now: int)
    requires q.vault < |s.book.vaults| && RuleReasons(s, q, now) == {}
    requires p.vault == q.vault && p.vendor == q.vendor && p.amount == q.amount && p.at == now
    ensures Admitted(s.book.payments, p, s.book.vaults[q.vault])
  {
    UnopposedRecent(s, q, now);
  }

  lemma UnopposedRecent(s: State, q: SpendRequest, now: int)
    requires q.vault < |s.book.vaults| && RuleReasons(s, q, now) == {}
    ensures var v, recent := s.book.vaults[q.vault], Spends(s.book.payments, q.vault, now - R.VELOCITY_WINDOW);
      var same := R.ToVendor(recent, q.vendor);
      && q.amount > 0 && |recent| < R.VELOCITY_MAX
      && (|same| >= 2 ==> Sum(same, R.SpendAmount) + q.amount <= v.perTransactionLimit)
      && Sum(Spends(s.book.payments, q.vault, now - now % R.DAY), R.SpendAmount) + q.amount <= v.dailyLimit
  {
    UnopposedFacts(s, q, now);
    PaceSeen(s, q, now);
  }

  lemma ExecutePace(s: State, pid: nat, caught: bool, now: int)
    requires Paced(s.book.payments, s.book.vaults)
    ensures Paced(Execute(s, pid, caught, now).state.book.payments, s.book.vaults)
  {
    ExecutePays(s, pid, caught, now);
    var b, c := s.book, Execute(s, pid, caught, now).state.book;
    if c.payments != b.payments {
      var q := c.payments[|b.payments|];
      UnopposedIsAdmitted(s, RequestOf(b.proposals[pid]), q, now);
      assert c.payments[..|b.payments|] == b.payments;
    }
  }

  /** Every service call keeps the pace, in any state and whatever its date. */
  lemma PerformKeepsPace(s: State, op: Op, now: int)
    requires Paced(s.book.payments, s.book.vaults)
    ensures var c := Perform(s, op, now).state.book;
      Paced(c.payments, c.vaults)
  {
    var c := Perform(s, op, now).state.book;
    if op.OpExecute? {
      ExecutePace(s, op.proposal, op.caught, now);
    } else {
      OnlyExecutePays(s, op, now);
    }
    PerformGrows(s, op, now);
    TermsStay(s.book, c);
    PacedGrows(c.payments, s.book.vaults, c.vaults);
  }

  lemma TermsStay(b: Book, c: Book)
    requires Grows(b, c)
    ensures |b.vaults| <= |c.vaults| && forall i :: 0 <= i < |b.vaults| ==> SameTerms(b.vaults[i], c.vaults[i])
  {
    assert forall i :: 0 <= i < |b.vaults| ==> VaultGrows(b.vaults[i], c.vaults[i]);
  }

  lemma {:induction false} ServeKeepsPace(s: State, calls: seq<Event>)
    requires Paced(s.book.payments, s.book.vaults)
    ensures var b := Serve(s, calls).book;
      Paced(b.payments, b.vaults)
  {
    if calls != [] {
      var n := |calls| - 1;
      ServeKeepsPace(s, calls[..n]);
      PerformKeepsPace(Serve(s, calls[..n]), calls[n].op, calls[n].now);
    }
  }

  /** Sliding-window safety, with no assumption on the clock: from any state in which nothing has
      been paid yet, whatever its vaults, after any calls dated in any order every closed
      ten-minute interval holds at most five executed payments of a vault, and any three or more
      of them to one vendor total at most the vault's per-transaction limit. */
  lemma WindowHoldsWithoutClock(s: State, calls: seq<Event>, vault: nat, from: int, vendor: string)
    requires s.book.payments == [] && vault < |Serve(s, calls).book.vaults|
    ensures var b := Serve(s, calls).book;
      Calm(b.payments, vault, from, vendor, b.vaults[vault].perTransactionLimit)
  {
    ServeKeepsPace(s, calls);
    var b := Serve(s, calls).book;
    PacedIsCalm(b.payments, b.vaults, vault, from, vendor);
  }

  /** The daily limit under the same conditions, whatever the limits of the vaults. */
  lemma DailyLimitHolds(s: State, calls: seq<Event>, vault: nat, day: int)
    requires s.book.payments == [] && vault < |Serve(s, calls).book.vaults|
    ensures var b := Serve(s, calls).book;
      PaidOn(b.payments, vault, day) <= Max(b.vaults[vault].dailyLimit, 0)
  {
    ServeKeepsPace(s, calls);
    var b := Serve(s, calls).book;
    PacedDay(b.payments, b.vaults, vault, day);
  }

  /** Both in every reachable state. */
  lemma SlidingWindowSafety(events: seq<Event>, vault: nat, from: int, vendor: string, day: int)
    requires vault < |Run(START, events).state.book.vaults|
    ensures var b := Run(START, events).state.book;
      && Calm(b.payments, vault, from, vendor, b.vaults[vault].perTransactionLimit)
      && PaidOn(b.payments, vault, day) <= Max(b.vaults[vault].dailyLimit, 0)
  {
    RunServes(START, events);
    WindowHoldsWithoutClock(EMPTY, Performed(START, events), vault, from, vendor);
    DailyLimitHolds(EMPTY, Performed(START, events), vault, day);
  }
}
