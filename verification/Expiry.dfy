/** What the expiry times in the lists of a scheduler mean: a request that has absorbed
    others expires with the first of them. */
module Expiry {
  import opened SortList

  /** The times at which a request and those it has absorbed were to expire. */
  type Dues = map<nat, set<nat>>

  /** The entry expires at the earliest of these times. */
  ghost predicate Earliest(e: Entry, dues: Dues) {
    e.id in dues && e.expiry in dues[e.id] && forall x: nat :: x in dues[e.id] ==> e.expiry <= x
  }

  ghost predicate AllEarliest(fifo: seq<Entry>, dues: Dues) { forall e: Entry :: e in fifo ==> Earliest(e, dues) }

  lemma AppendEarliest(fifo: seq<Entry>, id: nat, due: nat, dues: Dues)
    requires AllEarliest(fifo, dues) && !InFifo(fifo, id)
    ensures AllEarliest(fifo + [Entry(id, due)], dues[id := {due}])
  {
    OthersEarliest(fifo, id, {due}, dues);
  }

  lemma OthersEarliest(fifo: seq<Entry>, id: nat, times: set<nat>, dues: Dues)
    requires AllEarliest(fifo, dues) && !InFifo(fifo, id)
    ensures AllEarliest(fifo, dues[id := times])
  {
    forall e: Entry | e in fifo ensures e.id != id {
      var i :| 0 <= i < |fifo| && fifo[i] == e;
    }
  }

  lemma DropEarliest(fifo: seq<Entry>, i: nat, dues: Dues)
    requires AllEarliest(fifo, dues)
    ensures AllEarliest(Drop(fifo, i), dues)
  {
    assert forall e: Entry :: e in Drop(fifo, i) ==> e in fifo;
  }

  lemma OthersOnly(fifo: seq<Entry>, i: nat)
    requires FifoIds(fifo) && i < |fifo|
    ensures forall e: Entry :: e in Drop(fifo, i) ==> e in fifo && e.id != fifo[i].id
    ensures forall e: Entry :: e in fifo && e.id == fifo[i].id ==> e == fifo[i]
  {
    hide Drop;
    var f := Drop(fifo, i);
    DropAt(fifo, i);
    forall e: Entry | e in f ensures e in fifo && e.id != fifo[i].id {
      var k :| 0 <= k < |f| && f[k] == e;
    }
    forall e: Entry | e in fifo && e.id == fifo[i].id ensures e == fifo[i] {
      var k :| 0 <= k < |fifo| && fifo[k] == e;
    }
  }

  lemma InsertedIn(fifo: seq<Entry>, i: nat, x: Entry)
    requires i <= |fifo|
    ensures forall e: Entry :: e in InsertAt(fifo, i, x) ==> e in fifo || e == x
  {}

  lemma Found(fifo: seq<Entry>, id: nat)
    requires InFifo(fifo, id)
    ensures FifoIndex(fifo, id) < |fifo|
  {}

  /** What the list of an absorbing request holds. */
  lemma OvertakenEntries(fifo: seq<Entry>, req: nat, next: nat)
    requires FifoIds(fifo) && InFifo(fifo, req) && InFifo(fifo, next) && req != next
    ensures var i, j := FifoIndex(fifo, req), FifoIndex(fifo, next);
      i < |fifo| && j < |fifo|
      && forall e: Entry :: e in Overtaken(fifo, req, next) ==>
           e == Entry(req, if fifo[j].expiry < fifo[i].expiry then fifo[j].expiry else fifo[i].expiry)
           || (e in fifo && e.id != req)
  {
    hide InFifo, FifoIds, FifoIndex, Drop, InsertAt;
    Found(fifo, req);
    Found(fifo, next);
    var i, j := FifoIndex(fifo, req), FifoIndex(fifo, next);
    OthersOnly(fifo, i);
    if fifo[j].expiry < fifo[i].expiry {
      var f := Drop(fifo, i);
      Kept(fifo, req, next);
      InsertedIn(f, FifoIndex(f, next) + 1, Entry(req, fifo[j].expiry));
    }
  }

  lemma Kept(fifo: seq<Entry>, req: nat, next: nat)
    requires FifoIds(fifo) && InFifo(fifo, next) && req != next
    ensures var f := Drop(fifo, FifoIndex(fifo, req)); FifoIndex(f, next) < |f|
  {
    FifoDropMembers(fifo, req);
    var f := Drop(fifo, FifoIndex(fifo, req));
    assert InFifo(f, next);
  }

  lemma MergeEarliest(fifo: seq<Entry>, req: nat, next: nat, dues: Dues)
    requires FifoIds(fifo) && InFifo(fifo, req) && InFifo(fifo, next) && req != next && AllEarliest(fifo, dues)
    ensures req in dues && next in dues
    ensures AllEarliest(Overtaken(fifo, req, next), dues[req := dues[req] + dues[next]])
  {
    hide Overtaken;
    OvertakenEntries(fifo, req, next);
    var i, j := FifoIndex(fifo, req), FifoIndex(fifo, next);
    assert fifo[i] in fifo && fifo[j] in fifo;
    assert Earliest(fifo[i], dues) && Earliest(fifo[j], dues);
  }
}
