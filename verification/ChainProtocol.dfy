/** Concurrent appenders to the audit chain: every transaction locks the chain, reads the head,
    inserts, and commits or aborts, in any interleaving with the others. */
module ChainProtocol {
  import opened Tables
  import opened AuditChain

  datatype Phase = Idle | HoldsLock | HasHead(prev: string)

  /** One database session: how far its current append is, and its uncommitted rows. */
  datatype Txn = Txn(phase: Phase, pending: seq<Row>)

  /** The committed table ordered by seq, the advisory lock, the sequence generator (which an
      abort does not rewind) and the open sessions. */
  datatype Db = Db(committed: seq<Row>, lock: Option<nat>, nextSeq: nat, txns: seq<Txn>)

  datatype Action =
    | Lock(t: nat) | ReadHead(t: nat) | Insert(t: nat, body: Body) | Commit(t: nat) | Abort(t: nat)

  /** Where a row goes in a table ordered by seq. */
  function Place(rows: seq<Row>, row: Row): seq<Row> {
    if rows == [] || rows[|rows| - 1].seqNo < row.seqNo then rows + [row]
    else Place(rows[..|rows| - 1], row) + [rows[|rows| - 1]]
  }

  function PlaceAll(rows: seq<Row>, more: seq<Row>): seq<Row> {
    if more == [] then rows else Place(PlaceAll(rows, more[..|more| - 1]), more[|more| - 1])
  }

  /** One step of one session.  With `locking` the advisory lock is taken before the head is
      read and held to the end of the transaction; a session that cannot take it waits. */
  function Step(g: Digest, db: Db, a: Action, locking: bool): Db {
    if a.t >= |db.txns| then db
    else
      var x := db.txns[a.t];
      match a
      case Lock(t) =>
        if x.phase != Idle || (locking && db.lock != None && db.lock != Some(t)) then db
        else db.(lock := if locking then Some(t) else db.lock, txns := db.txns[t := x.(phase := HoldsLock)])
      case ReadHead(t) =>
        if x.phase != HoldsLock then db
        else db.(txns := db.txns[t := x.(phase := HasHead(HeadHash(PlaceAll(db.committed, x.pending))))])
      case Insert(t, body) =>
        if !x.phase.HasHead? then db
        else db.(nextSeq := db.nextSeq + 1,
                 txns := db.txns[t := Txn(Idle, x.pending + [Seal(g, x.phase.prev, body, db.nextSeq)])])
      case Commit(t) =>
        db.(committed := PlaceAll(db.committed, x.pending), lock := if db.lock == Some(t) then None else db.lock,
            txns := db.txns[t := Txn(Idle, [])])
      case Abort(t) =>
        db.(lock := if db.lock == Some(t) then None else db.lock, txns := db.txns[t := Txn(Idle, [])])
  }

  function RunDb(g: Digest, db: Db, actions: seq<Action>, locking: bool): Db {
    if actions == [] then db
    else Step(g, RunDb(g, db, actions[..|actions| - 1], locking), actions[|actions| - 1], locking)
  }

  function Idlers(n: nat): (txns: seq<Txn>)
    ensures |txns| == n && forall t :: 0 <= t < n ==> txns[t] == Txn(Idle, [])
  {
    if n == 0 then [] else Idlers(n - 1) + [Txn(Idle, [])]
  }

  /** Idle sessions over a table of committed events. */
  function Opened(rows: seq<Row>, nextSeq: nat, sessions: nat): Db { Db(rows, None, nextSeq, Idlers(sessions)) }

  // ----- Safety -----

  ghost predicate Ordered(rows: seq<Row>, bound: nat) {
    && (forall i :: 0 <= i < |rows| ==> rows[i].seqNo < bound)
    && (forall i, k :: 0 <= i < k < |rows| ==> rows[i].seqNo < rows[k].seqNo)
  }

  /** Only the lock holder has anything in flight, and what it has extends the committed chain. */
  ghost predicate Safe(g: Digest, db: Db) {
    && Intact(g, db.committed) && Ordered(db.committed, db.nextSeq)
    && forall t :: 0 <= t < |db.txns| ==>
         if db.lock == Some(t) then
           && Intact(g, db.committed + db.txns[t].pending) && Ordered(db.committed + db.txns[t].pending, db.nextSeq)
           && (db.txns[t].phase.HasHead? ==> db.txns[t].phase.prev == HeadHash(db.committed + db.txns[t].pending))
         else db.txns[t] == Txn(Idle, [])
  }

  lemma {:induction false} PlaceAllAppends(rows: seq<Row>, more: seq<Row>, bound: nat)
    requires Ordered(rows + more, bound)
    ensures PlaceAll(rows, more) == rows + more
  {
    if more == [] {
      assert rows + more == rows;
    } else {
      var n := |more| - 1;
      var all, last := rows + more, more[n];
      assert all[..|rows| + n] == rows + more[..n] && all[|rows| + n] == last;
      assert forall i :: 0 <= i < |rows| + n ==> (rows + more[..n])[i] == all[i];
      PlaceAllAppends(rows, more[..n], bound);
      var placed := rows + more[..n];
      assert placed != [] ==> placed[|placed| - 1] == all[|rows| + n - 1];
      assert placed + [last] == all;
    }
  }

  lemma InsertSafe(g: Digest, rows: seq<Row>, body: Body, bound: nat)
    requires Intact(g, rows) && Ordered(rows, bound)
    ensures var row := Seal(g, HeadHash(rows), body, bound);
      Intact(g, rows + [row]) && Ordered(rows + [row], bound + 1)
  {
    ExtendsIntact(g, rows, Seal(g, HeadHash(rows), body, bound));
  }

  /** A step keeps the invariant, and the table only ever grows at its end, by what a commit publishes. */
  lemma StepSafe(g: Digest, db: Db, a: Action)
    requires Safe(g, db)
    ensures Safe(g, Step(g, db, a, true))
    ensures Step(g, db, a, true).committed ==
      db.committed + if a.Commit? && a.t < |db.txns| then db.txns[a.t].pending else []
  {
    assert db.committed + [] == db.committed;
    if a.t < |db.txns| {
      var t, x, after := a.t, db.txns[a.t], Step(g, db, a, true);
      var mine := db.committed + x.pending;
      if db.lock == Some(t) {
        PlaceAllAppends(db.committed, x.pending, db.nextSeq);
      }
      if a.Insert? && x.phase.HasHead? {
        InsertSafe(g, mine, a.body, db.nextSeq);
        var row := Seal(g, x.phase.prev, a.body, db.nextSeq);
        assert db.committed + (x.pending + [row]) == mine + [row];
      }
      forall k | 0 <= k < |after.txns| && k != t ensures after.txns[k] == db.txns[k] { }
    }
  }

  lemma {:induction false} RunSafe(g: Digest, rows: seq<Row>, n: nat, sessions: nat, actions: seq<Action>)
    requires Intact(g, rows) && Ordered(rows, n)
    ensures Safe(g, RunDb(g, Opened(rows, n, sessions), actions, true))
  {
    if actions != [] {
      var k := |actions| - 1;
      RunSafe(g, rows, n, sessions, actions[..k]);
      StepSafe(g, RunDb(g, Opened(rows, n, sessions), actions[..k], true), actions[k]);
    }
  }

  /** From any intact log, the empty one included, whatever the number of sessions and however
      their steps interleave, with aborts and several appends per transaction, the committed chain
      always passes verification. */
  lemma LockedAppendsVerify(g: Digest, rows: seq<Row>, n: nat, sessions: nat, actions: seq<Action>)
    requires Intact(g, rows) && Ordered(rows, n)
    ensures Intact(g, RunDb(g, Opened(rows, n, sessions), actions, true).committed)
  {
    RunSafe(g, rows, n, sessions, actions);
  }

  // ----- Without the lock -----

  /** Both sessions read the same head before either inserts. */
  function ForkSchedule(x: Body, y: Body): seq<Action> {
    [Lock(0), ReadHead(0), Lock(1), ReadHead(1), Insert(0, x), Insert(1, y), Commit(0), Commit(1)]
  }

  lemma OneCommit(rows: seq<Row>, row: Row)
    requires Ordered(rows, row.seqNo)
    ensures PlaceAll(rows, [row]) == rows + [row] && Ordered(rows + [row], row.seqNo + 1)
  {
    PlaceAllAppends(rows, [row], row.seqNo + 1);
  }

  function BothRead(rows: seq<Row>, n: nat): Db {
    Db(rows, None, n, [Txn(HasHead(HeadHash(rows)), []), Txn(HasHead(HeadHash(rows)), [])])
  }

  lemma ForkReads(g: Digest, rows: seq<Row>, n: nat)
    ensures Step(g, Step(g, Step(g, Step(g, Opened(rows, n, 2), Lock(0), false), ReadHead(0), false), Lock(1), false),
                 ReadHead(1), false) == BothRead(rows, n)
  {
    assert Idlers(2) == Idlers(1) + [Txn(Idle, [])] && Idlers(1) == Idlers(0) + [Txn(Idle, [])];
    var d2 := Step(g, Step(g, Opened(rows, n, 2), Lock(0), false), ReadHead(0), false);
    assert d2.txns == [Txn(HasHead(HeadHash(rows)), []), Txn(Idle, [])];
    var d4 := Step(g, Step(g, d2, Lock(1), false), ReadHead(1), false);
    assert d4.txns == BothRead(rows, n).txns;
  }

  lemma ForkInserts(g: Digest, rows: seq<Row>, n: nat, x: Body, y: Body)
    ensures var p, q := Seal(g, HeadHash(rows), x, n), Seal(g, HeadHash(rows), y, n + 1);
      Step(g, Step(g, BothRead(rows, n), Insert(0, x), false), Insert(1, y), false)
      == Db(rows, None, n + 2, [Txn(Idle, [p]), Txn(Idle, [q])])
  {
    var p, q := Seal(g, HeadHash(rows), x, n), Seal(g, HeadHash(rows), y, n + 1);
    assert [] + [p] == [p] && [] + [q] == [q];
    var d5 := Step(g, BothRead(rows, n), Insert(0, x), false);
    assert d5.txns == [Txn(Idle, [p]), Txn(HasHead(HeadHash(rows)), [])];
    assert Step(g, d5, Insert(1, y), false).txns == [Txn(Idle, [p]), Txn(Idle, [q])];
  }

  lemma ForkCommits(g: Digest, rows: seq<Row>, p: Row, q: Row, n: nat)
    requires Ordered(rows, p.seqNo) && q.seqNo == p.seqNo + 1
    ensures Step(g, Step(g, Db(rows, None, n, [Txn(Idle, [p]), Txn(Idle, [q])]), Commit(0), false), Commit(1),
                 false).committed
         == rows + [p] + [q]
  {
    OneCommit(rows, p);
    OneCommit(rows + [p], q);
  }

  lemma ForkOutcome(g: Digest, rows: seq<Row>, n: nat, x: Body, y: Body)
    requires Ordered(rows, n)
    ensures RunDb(g, Opened(rows, n, 2), ForkSchedule(x, y), false).committed
         == rows + [Seal(g, HeadHash(rows), x, n)] + [Seal(g, HeadHash(rows), y, n + 1)]
  {
    var p, q := Seal(g, HeadHash(rows), x, n), Seal(g, HeadHash(rows), y, n + 1);
    var d6 := Db(rows, None, n + 2, [Txn(Idle, [p]), Txn(Idle, [q])]);
    ForkReads(g, rows, n);
    ForkInserts(g, rows, n, x, y);
    ForkCommits(g, rows, p, q, n + 2);
    Unroll(g, Opened(rows, n, 2), ForkSchedule(x, y), Step(g, Step(g, d6, Commit(0), false), Commit(1), false));
  }

  lemma Unroll(g: Digest, d0: Db, all: seq<Action>, d8: Db)
    requires |all| == 8
    requires d8 == Step(g, Step(g, Step(g, Step(g, Step(g, Step(g, Step(g, Step(g, d0, all[0], false), all[1], false),
                   all[2], false), all[3], false), all[4], false), all[5], false), all[6], false), all[7], false)
    ensures RunDb(g, d0, all, false) == d8
  {
    assert all[..8] == all && all[..0] == [];
    assert all[..8][..7] == all[..7] && all[..7][..6] == all[..6] && all[..6][..5] == all[..5];
    assert all[..5][..4] == all[..4] && all[..4][..3] == all[..3] && all[..3][..2] == all[..2]
      && all[..2][..1] == all[..1];
    assert RunDb(g, d0, all[..1], false) == Step(g, RunDb(g, d0, all[..0], false), all[0], false);
    assert RunDb(g, d0, all[..2], false) == Step(g, RunDb(g, d0, all[..1], false), all[1], false);
    assert RunDb(g, d0, all[..3], false) == Step(g, RunDb(g, d0, all[..2], false), all[2], false);
    assert RunDb(g, d0, all[..4], false) == Step(g, RunDb(g, d0, all[..3], false), all[3], false);
    assert RunDb(g, d0, all[..5], false) == Step(g, RunDb(g, d0, all[..4], false), all[4], false);
    assert RunDb(g, d0, all[..6], false) == Step(g, RunDb(g, d0, all[..5], false), all[5], false);
    assert RunDb(g, d0, all[..7], false) == Step(g, RunDb(g, d0, all[..6], false), all[6], false);
  }

  /** The same protocol without the lock forks, whatever was committed before: two concurrent
      appends to an intact chain leave one that fails verification, unless the first of them
      happens to hash to the old head. */
  lemma UnlockedAppendsFork(g: Digest, rows: seq<Row>, n: nat, x: Body, y: Body)
    requires Intact(g, rows) && Ordered(rows, n)
    ensures Intact(g, RunDb(g, Opened(rows, n, 2), ForkSchedule(x, y), false).committed)
      <==> Seal(g, HeadHash(rows), x, n).eventHash == HeadHash(rows)
  {
    ForkOutcome(g, rows, n, x, y);
    var p, q := Seal(g, HeadHash(rows), x, n), Seal(g, HeadHash(rows), y, n + 1);
    ExtendsIntact(g, rows, p);
    ExtendsIntact(g, rows + [p], q);
  }

  // ----- Progress -----

  /** Ending a transaction frees the lock: a commit publishes what is pending, an abort forgets it. */
  lemma EndingFreesLock(g: Digest, db: Db, t: nat)
    requires Safe(g, db) && t < |db.txns| && (db.lock == Some(t) || db.lock == None)
    ensures var done, undone := Step(g, db, Commit(t), true), Step(g, db, Abort(t), true);
      && done.lock == None && done.committed == db.committed + db.txns[t].pending && done.txns[t] == Txn(Idle, [])
      && undone.lock == None && undone.committed == db.committed && undone.txns[t] == Txn(Idle, [])
  {
    StepSafe(g, db, Commit(t));
    StepSafe(g, db, Abort(t));
  }

  /** No session is locked out: once the lock is free, any session that takes its four steps has
      its event at the end of the committed chain, and the lock is free again. */
  lemma FreeLockAppends(g: Digest, db: Db, t: nat, body: Body)
    requires Safe(g, db) && db.lock == None && t < |db.txns|
    ensures var locked := Step(g, db, Lock(t), true);
      var read := Step(g, locked, ReadHead(t), true);
      var written := Step(g, read, Insert(t, body), true);
      var done := Step(g, written, Commit(t), true);
      && done.committed == db.committed + [Seal(g, HeadHash(db.committed), body, db.nextSeq)]
      && done.lock == None && done.nextSeq == db.nextSeq + 1
  {
    var locked := Step(g, db, Lock(t), true);
    var read := Step(g, locked, ReadHead(t), true);
    var written := Step(g, read, Insert(t, body), true);
    StepSafe(g, db, Lock(t));
    StepSafe(g, locked, ReadHead(t));
    StepSafe(g, read, Insert(t, body));
    EndingFreesLock(g, written, t);
  }
}
