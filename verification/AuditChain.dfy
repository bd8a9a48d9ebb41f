/** The hash-chained audit log: credence/audit/chain.py.  The hash is an arbitrary function,
    never assumed injective; only the canonical encoding of the covered fields is. */
module AuditChain {
  import opened Tables

  /** The fields an event hash covers.  request_id and timestamps are not among them. */
  datatype Covered = Covered(
    prevHash: string, payloadHash: string, actorType: string, actorId: string, eventType: string,
    organization: Option<string>, resource: Option<string>)

  datatype Body = Body(
    actorType: string, actorId: string, eventType: string, payload: string,
    organization: Option<string>, resource: Option<string>, request: Option<string>)

  datatype Row = Row(seqNo: nat, body: Body, payloadHash: string, prevHash: string, eventHash: string)

  /** SHA-256 in hexadecimal, and canonical JSON of the covered fields. */
  datatype Digest = Digest(hash: string -> string, encode: Covered -> string)

  ghost predicate Injective(g: Digest) {
    forall x, y :: g.encode(x) == g.encode(y) ==> x == y
  }

  const GENESIS: string := "0000000000000000000000000000000000000000000000000000000000000000"

  function CoveredBy(row: Row): Covered {
    Covered(row.prevHash, row.payloadHash, row.body.actorType, row.body.actorId, row.body.eventType,
            row.body.organization, row.body.resource)
  }

  /** The row `append_audit_event` inserts after a head with the given hash. */
  function Seal(g: Digest, prev: string, body: Body, seqNo: nat): Row {
    var payloadHash := g.hash(body.payload);
    var covered := Covered(prev, payloadHash, body.actorType, body.actorId, body.eventType, body.organization,
                           body.resource);
    Row(seqNo, body, payloadHash, prev, g.hash(g.encode(covered)))
  }

  /** The hash the event at position i must name as its predecessor's. */
  function HashBefore(rows: seq<Row>, i: nat): string
    requires i <= |rows|
  {
    if i == 0 then GENESIS else rows[i - 1].eventHash
  }

  function HeadHash(rows: seq<Row>): string { HashBefore(rows, |rows|) }

  /** The three checks `verify_chain` makes of one event. */
  predicate Link(g: Digest, row: Row, prev: string) {
    && row.prevHash == prev
    && g.hash(row.body.payload) == row.payloadHash
    && row.eventHash == g.hash(g.encode(CoveredBy(row)))
  }

  predicate LinkAt(g: Digest, rows: seq<Row>, i: nat)
    requires i < |rows|
  {
    Link(g, rows[i], HashBefore(rows, i))
  }

  predicate Intact(g: Digest, rows: seq<Row>) {
    forall i :: 0 <= i < |rows| ==> LinkAt(g, rows, i)
  }

  /** Event i is the first that does not verify. */
  predicate BreaksAt(g: Digest, rows: seq<Row>, i: nat) {
    i < |rows| && !LinkAt(g, rows, i) && forall k :: 0 <= k < i ==> LinkAt(g, rows, k)
  }

  /** `verify_chain`: walks the chain and names the first event that fails. */
  method VerifyChain(g: Digest, rows: seq<Row>) returns (intact: bool, broken: Option<nat>)
    ensures intact <==> Intact(g, rows)
    ensures intact <==> broken.None?
    ensures broken.Some? ==> exists i: nat :: BreaksAt(g, rows, i) && broken.value == rows[i].seqNo
  {
    var prev := GENESIS;
    var i := 0;
    while i < |rows|
      invariant 0 <= i <= |rows|
      invariant prev == HashBefore(rows, i)
      invariant forall k :: 0 <= k < i ==> LinkAt(g, rows, k)
    {
      var row := rows[i];
      if row.prevHash != prev || g.hash(row.body.payload) != row.payloadHash
         || row.eventHash != g.hash(g.encode(CoveredBy(row))) {
        assert BreaksAt(g, rows, i);
        return false, Some(row.seqNo);
      }
      prev := row.eventHash;
      i := i + 1;
    }
    return true, None;
  }

  class AuditLog {
    var rows: seq<Row>
    var nextSeq: nat

    constructor ()
      ensures rows == [] && nextSeq == 1
    {
      rows, nextSeq := [], 1;
    }

    /** `append_audit_event`, holding the chain lock. */
    method Append(g: Digest, body: Body) returns (row: Row)
      modifies this
      ensures row == Seal(g, HeadHash(old(rows)), body, old(nextSeq))
      ensures rows == old(rows) + [row] && nextSeq == old(nextSeq) + 1
      ensures Intact(g, old(rows)) ==> Intact(g, rows)
    {
      var payloadHash := g.hash(body.payload);
      var prev := if rows == [] then GENESIS else rows[|rows| - 1].eventHash;
      var covered := Covered(prev, payloadHash, body.actorType, body.actorId, body.eventType, body.organization,
                             body.resource);
      row := Row(nextSeq, body, payloadHash, prev, g.hash(g.encode(covered)));
      ExtendsIntact(g, rows, row);
      rows := rows + [row];
      nextSeq := nextSeq + 1;
    }
  }

  /** An intact chain extended by one event is intact exactly when that event links to its head. */
  lemma ExtendsIntact(g: Digest, rows: seq<Row>, row: Row)
    ensures Intact(g, rows + [row]) <==> Intact(g, rows) && Link(g, row, HeadHash(rows))
  {
    var all := rows + [row];
    forall i | 0 <= i < |rows| ensures LinkAt(g, all, i) <==> LinkAt(g, rows, i) { }
    assert LinkAt(g, all, |rows|) <==> Link(g, row, HeadHash(rows));
  }

  // ----- Binding -----

  datatype Evidence = Same | Collision(x: string, y: string) | GenesisPreimage(x: string)

  /** Finds, from the head backwards, where two chains with one head hash part company. */
  function Extract(g: Digest, a: seq<Row>, b: seq<Row>): Evidence
    decreases |a|
  {
    if a == [] && b == [] then Same
    else if a == [] then GenesisPreimage(g.encode(CoveredBy(b[|b| - 1])))
    else if b == [] then GenesisPreimage(g.encode(CoveredBy(a[|a| - 1])))
    else
      var x, y := a[|a| - 1], b[|b| - 1];
      if CoveredBy(x) != CoveredBy(y) then Collision(g.encode(CoveredBy(x)), g.encode(CoveredBy(y)))
      else if x.body.payload != y.body.payload then Collision(x.body.payload, y.body.payload)
      else Extract(g, a[..|a| - 1], b[..|b| - 1])
  }

  /** Evidence one can check: two different texts with one hash, or a text hashing to the genesis value. */
  predicate Genuine(g: Digest, e: Evidence) {
    match e
    case Same => true
    case Collision(x, y) => x != y && g.hash(x) == g.hash(y)
    case GenesisPreimage(x) => g.hash(x) == GENESIS
  }

  /** Two events agree in everything but their numbers, request ids and own hashes. */
  predicate SameContent(x: Row, y: Row) {
    x.prevHash == y.prevHash && x.payloadHash == y.payloadHash && x.body == y.body.(request := x.body.request)
  }

  /** That is what the hashes cover. */
  lemma ContentIsCovered(x: Row, y: Row)
    ensures SameContent(x, y) <==> CoveredBy(x) == CoveredBy(y) && x.body.payload == y.body.payload
  {
  }

  /** Two chains record the same events. */
  ghost predicate SameHistory(a: seq<Row>, b: seq<Row>) {
    |a| == |b| && forall i :: 0 <= i < |a| ==> SameContent(a[i], b[i]) && a[i].eventHash == b[i].eventHash
  }

  /** Chain binding: two intact chains with the same head hash have the same history, or the
      extractor hands out a concrete collision of the hash or a preimage of the genesis value. */
  lemma {:induction false} HeadBindsHistory(g: Digest, a: seq<Row>, b: seq<Row>)
    requires Injective(g) && Intact(g, a) && Intact(g, b) && HeadHash(a) == HeadHash(b)
    ensures Genuine(g, Extract(g, a, b))
    ensures Extract(g, a, b).Same? <==> SameHistory(a, b)
    decreases |a|
  {
    if a == [] || b == [] {
      if a != [] { assert LinkAt(g, a, |a| - 1); }
      if b != [] { assert LinkAt(g, b, |b| - 1); }
    } else {
      var x, y := a[|a| - 1], b[|b| - 1];
      var a', b' := a[..|a| - 1], b[..|b| - 1];
      assert a == a' + [x] && b == b' + [y];
      ExtendsIntact(g, a', x);
      ExtendsIntact(g, b', y);
      if CoveredBy(x) == CoveredBy(y) && x.body.payload == y.body.payload {
        HeadBindsHistory(g, a', b');
        ContentIsCovered(x, y);
        SameHistoryExtends(a', b', x, y);
      } else {
        ContentIsCovered(x, y);
        LastDiffers(a, b);
      }
    }
  }

  lemma {:induction false} LastDiffers(a: seq<Row>, b: seq<Row>)
    requires |a| > 0 && |b| > 0 && !SameContent(a[|a| - 1], b[|b| - 1])
    ensures !SameHistory(a, b)
  {
  }

  lemma SameHistoryExtends(a: seq<Row>, b: seq<Row>, x: Row, y: Row)
    requires SameContent(x, y) && x.eventHash == y.eventHash
    ensures SameHistory(a + [x], b + [y]) <==> SameHistory(a, b)
  {
    var c, d := a + [x], b + [y];
    if SameHistory(c, d) {
      forall i | 0 <= i < |a|
        ensures SameContent(a[i], b[i]) && a[i].eventHash == b[i].eventHash
      {
        assert c[i] == a[i] && d[i] == b[i];
      }
    }
  }

  // ----- Tampering -----

  predicate LinkFrom(g: Digest, prev: string, rows: seq<Row>, k: nat)
    requires k < |rows|
  {
    Link(g, rows[k], if k == 0 then prev else rows[k - 1].eventHash)
  }

  /** Events that link one to the next, the first to `prev`. */
  predicate Chained(g: Digest, prev: string, rows: seq<Row>) {
    forall k :: 0 <= k < |rows| ==> LinkFrom(g, prev, rows, k)
  }

  function EndHash(prev: string, rows: seq<Row>): string {
    if rows == [] then prev else rows[|rows| - 1].eventHash
  }

  function Splice(rows: seq<Row>, i: nat, j: nat, middle: seq<Row>): seq<Row>
    requires i <= j <= |rows|
  {
    rows[..i] + middle + rows[j..]
  }

  lemma SpliceAt(rows: seq<Row>, i: nat, j: nat, middle: seq<Row>, k: nat)
    requires i <= j <= |rows| && k < |Splice(rows, i, j, middle)|
    ensures Splice(rows, i, j, middle)[k] ==
      if k < i then rows[k] else if k < i + |middle| then middle[k - i] else rows[k - i - |middle| + j]
  {
  }

  lemma SpliceHash(rows: seq<Row>, i: nat, j: nat, middle: seq<Row>, k: nat)
    requires i <= j <= |rows| && k < |Splice(rows, i, j, middle)|
    ensures HashBefore(Splice(rows, i, j, middle), k) ==
      if k <= i then HashBefore(rows, k)
      else if k <= i + |middle| then middle[k - i - 1].eventHash
      else HashBefore(rows, k - i - |middle| + j)
  {
    if k > 0 { SpliceAt(rows, i, j, middle, k - 1); }
  }

  lemma SpliceLinks(g: Digest, rows: seq<Row>, i: nat, j: nat, middle: seq<Row>, k: nat)
    requires Intact(g, rows) && i <= j <= |rows| && k < |Splice(rows, i, j, middle)|
    ensures LinkAt(g, Splice(rows, i, j, middle), k) <==>
      if k < i then true
      else if k < i + |middle| then LinkFrom(g, HashBefore(rows, i), middle, k - i)
      else k > i + |middle| || EndHash(HashBefore(rows, i), middle) == HashBefore(rows, j)
  {
    SpliceAt(rows, i, j, middle, k);
    SpliceHash(rows, i, j, middle, k);
    if k < i {
      assert LinkAt(g, rows, k);
    } else if k >= i + |middle| {
      assert LinkAt(g, rows, k - i - |middle| + j);
    }
  }

  /** The exact condition for any tampering with a stretch of an intact chain, be it editing,
      deleting, inserting, reordering or cutting off: it goes unnoticed if and only if the new
      stretch links up with what stands before it and ends in the hash the next event names, or
      has no next event.  A stretch that links up but ends elsewhere is reported right after it. */
  lemma TamperingNoticed(g: Digest, rows: seq<Row>, i: nat, j: nat, middle: seq<Row>)
    requires Intact(g, rows) && i <= j <= |rows|
    ensures var prev := HashBefore(rows, i);
      && (Intact(g, Splice(rows, i, j, middle)) <==>
            Chained(g, prev, middle) && (j == |rows| || EndHash(prev, middle) == HashBefore(rows, j)))
      && (Chained(g, prev, middle) && j < |rows| && EndHash(prev, middle) != HashBefore(rows, j) ==>
            BreaksAt(g, Splice(rows, i, j, middle), i + |middle|))
  {
    var changed, prev := Splice(rows, i, j, middle), HashBefore(rows, i);
    forall k | 0 <= k < |changed|
      ensures LinkAt(g, changed, k) <==>
        if k < i then true
        else if k < i + |middle| then LinkFrom(g, prev, middle, k - i)
        else k > i + |middle| || EndHash(prev, middle) == HashBefore(rows, j)
    {
      SpliceLinks(g, rows, i, j, middle, k);
    }
    forall k | 0 <= k < |middle| ensures LinkFrom(g, prev, middle, k) <==> LinkAt(g, changed, i + k) {
    }
    if j < |rows| {
      assert LinkAt(g, changed, i + |middle|) <==> EndHash(prev, middle) == HashBefore(rows, j);
    }
  }

  lemma UpdateIsSplice(rows: seq<Row>, i: nat, row: Row)
    requires i < |rows|
    ensures rows[i := row] == Splice(rows, i, i + 1, [row])
  {
  }

  /** Rewriting one event goes unnoticed if and only if the new event passes its own checks after
      the same predecessor and is the last or keeps its hash.  A self-consistent edit with another
      hash is reported exactly at the next event; one that keeps the hash either changes nothing
      covered or exhibits a collision. */
  lemma RehashedEditReported(g: Digest, rows: seq<Row>, i: nat, edited: Row)
    requires Intact(g, rows) && i < |rows|
    ensures var changed, links := rows[i := edited], Link(g, edited, HashBefore(rows, i));
      && (Intact(g, changed) <==> links && (i + 1 == |rows| || edited.eventHash == rows[i].eventHash))
      && (links && i + 1 < |rows| && edited.eventHash != rows[i].eventHash ==> BreaksAt(g, changed, i + 1))
      && (!links ==> BreaksAt(g, changed, i))
    ensures Injective(g) && Link(g, edited, HashBefore(rows, i)) && edited.eventHash == rows[i].eventHash ==>
      var e := Extract(g, [rows[i]], [edited]);
      Genuine(g, e) && (e.Same? <==> SameContent(rows[i], edited))
  {
    ContentIsCovered(rows[i], edited);
    UpdateIsSplice(rows, i, edited);
    TamperingNoticed(g, rows, i, i + 1, [edited]);
    assert LinkAt(g, rows, i);
    assert LinkFrom(g, HashBefore(rows, i), [edited], 0) <==> Link(g, edited, HashBefore(rows, i));
    var changed := rows[i := edited];
    forall k | 0 <= k < i ensures LinkAt(g, changed, k) {
      assert LinkAt(g, rows, k);
    }
  }

  /** Editing covered fields or the payload of any event, the last included, while leaving its
      stored hashes alone is reported at that event, or the two contents are a hash collision. */
  lemma PlainEditReported(g: Digest, rows: seq<Row>, i: nat, edited: Row)
    requires Injective(g) && Intact(g, rows) && i < |rows| && !SameContent(rows[i], edited)
    requires edited.prevHash == rows[i].prevHash && edited.payloadHash == rows[i].payloadHash
    requires edited.eventHash == rows[i].eventHash
    ensures BreaksAt(g, rows[i := edited], i)
      || (var e := Extract(g, [rows[i]], [edited]); e.Collision? && Genuine(g, e))
    ensures Intact(g, rows[i := edited]) <==>
      && g.hash(edited.body.payload) == g.hash(rows[i].body.payload)
      && g.hash(g.encode(CoveredBy(edited))) == g.hash(g.encode(CoveredBy(rows[i])))
  {
    RehashedEditReported(g, rows, i, edited);
    ContentIsCovered(rows[i], edited);
    assert LinkAt(g, rows, i);
    if Link(g, edited, HashBefore(rows, i)) {
      var e := Extract(g, [rows[i]], [edited]);
      assert !e.Same? && !e.GenesisPreimage?;
    }
  }

  /** Deleting a block of events goes unnoticed if and only if nothing follows it or the hashes
      before and at its end coincide; otherwise the break is reported at the event after it. */
  lemma DeletionReported(g: Digest, rows: seq<Row>, i: nat, j: nat)
    requires Intact(g, rows) && i <= j <= |rows|
    ensures Intact(g, rows[..i] + rows[j..]) <==> j == |rows| || HashBefore(rows, i) == HashBefore(rows, j)
    ensures j < |rows| && HashBefore(rows, i) != HashBefore(rows, j) ==> BreaksAt(g, rows[..i] + rows[j..], i)
  {
    TamperingNoticed(g, rows, i, j, []);
    assert Splice(rows, i, j, []) == rows[..i] + rows[j..];
  }

  /** What verification does not see: a chain cut off at any point still verifies, and request ids
      can be changed freely. */
  lemma TruncationAndRequestIdsUnseen(g: Digest, rows: seq<Row>, n: nat, i: nat, request: Option<string>)
    requires Intact(g, rows) && n <= |rows| && i < |rows|
    ensures Intact(g, rows[..n])
    ensures Intact(g, rows[i := rows[i].(body := rows[i].body.(request := request))])
  {
    DeletionReported(g, rows, n, |rows|);
    assert rows[..n] + rows[|rows|..] == rows[..n];
    assert LinkAt(g, rows, i);
    RehashedEditReported(g, rows, i, rows[i].(body := rows[i].body.(request := request)));
  }
}
