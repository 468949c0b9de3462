/** What every operation of the fair queueing scheduler keeps. */
module CfqInvariant {
  import opened Cfq
  import opened CfqService
  import opened IdList
  import opened Optional
  import opened SortList

  // ----- counts -----

  /** How many of the requests of a list are in a set. */
  function Count(ids: seq<nat>, set1: set<nat>): nat {
    if ids == [] then 0 else (if ids[0] in set1 then 1 else 0) + Count(ids[1..], set1)
  }

  function TreeList(tree: seq<Node>): (r: seq<nat>)
    ensures |r| == |tree| && forall i :: 0 <= i < |tree| ==> r[i] == tree[i].id
  {
    seq(|tree|, i requires 0 <= i < |tree| => tree[i].id)
  }

  function FifoList(fifo: seq<Entry>): (r: seq<nat>)
    ensures |r| == |fifo| && forall i :: 0 <= i < |fifo| ==> r[i] == fifo[i].id
  {
    seq(|fifo|, i requires 0 <= i < |fifo| => fifo[i].id)
  }

  lemma {:induction false} CountAppend(a: seq<nat>, b: seq<nat>, u: set<nat>)
    ensures Count(a + b, u) == Count(a, u) + Count(b, u)
    decreases |a|
  {
    if a == [] {
      assert a + b == b;
    } else {
      assert (a + b)[1..] == a[1..] + b;
      CountAppend(a[1..], b, u);
    }
  }

  lemma CountDrop(ids: seq<nat>, i: nat, u: set<nat>)
    requires i < |ids|
    ensures Count(Drop(ids, i), u) == Count(ids, u) - if ids[i] in u then 1 else 0
  {
    assert ids == ids[..i] + ([ids[i]] + ids[i + 1..]);
    CountAppend(ids[..i], [ids[i]] + ids[i + 1..], u);
    CountAppend([ids[i]], ids[i + 1..], u);
    CountAppend(ids[..i], ids[i + 1..], u);
  }

  lemma CountInsert(ids: seq<nat>, i: nat, x: nat, u: set<nat>)
    requires i <= |ids|
    ensures Count(InsertAt(ids, i, x), u) == Count(ids, u) + if x in u then 1 else 0
  {
    assert InsertAt(ids, i, x) == ids[..i] + ([x] + ids[i..]);
    assert ids == ids[..i] + ids[i..];
    CountAppend(ids[..i], [x] + ids[i..], u);
    CountAppend([x], ids[i..], u);
    CountAppend(ids[..i], ids[i..], u);
  }

  lemma {:induction false} CountSame(ids: seq<nat>, u: set<nat>, v: set<nat>)
    requires forall x: nat :: x in ids ==> (x in u <==> x in v)
    ensures Count(ids, u) == Count(ids, v)
    decreases |ids|
  {
    if ids != [] {
      assert forall x: nat :: x in ids[1..] ==> x in ids;
      CountSame(ids[1..], u, v);
    }
  }

  lemma TreeDropCount(tree: seq<Node>, id: nat, u: set<nat>)
    requires InTree(tree, id)
    ensures var i := TreeIndex(tree, id);
      i < |tree| && |Drop(tree, i)| == |tree| - 1
      && Count(TreeList(Drop(tree, i)), u) == Count(TreeList(tree), u) - if id in u then 1 else 0
  {
    hide Count;
    var i := TreeIndex(tree, id);
    DropAt(tree, i);
    assert TreeList(Drop(tree, i)) == Drop(TreeList(tree), i);
    CountDrop(TreeList(tree), i, u);
  }

  lemma TreeInsertCount(tree: seq<Node>, i: nat, n: Node, u: set<nat>)
    requires i <= |tree|
    ensures |InsertAt(tree, i, n)| == |tree| + 1
    ensures Count(TreeList(InsertAt(tree, i, n)), u) == Count(TreeList(tree), u) + if n.id in u then 1 else 0
  {
    hide Count;
    InsertedAt(tree, i, n);
    assert TreeList(InsertAt(tree, i, n)) == InsertAt(TreeList(tree), i, n.id);
    CountInsert(TreeList(tree), i, n.id, u);
  }

  lemma FifoDropCount(fifo: seq<Entry>, id: nat, u: set<nat>)
    requires InFifo(fifo, id)
    ensures var i := FifoIndex(fifo, id);
      i < |fifo| && Count(FifoList(Drop(fifo, i)), u) == Count(FifoList(fifo), u) - if id in u then 1 else 0
  {
    hide Count;
    var i := FifoIndex(fifo, id);
    DropAt(fifo, i);
    assert FifoList(Drop(fifo, i)) == Drop(FifoList(fifo), i);
    CountDrop(FifoList(fifo), i, u);
  }

  lemma FifoInsertCount(fifo: seq<Entry>, i: nat, e: Entry, u: set<nat>)
    requires i <= |fifo|
    ensures Count(FifoList(InsertAt(fifo, i, e)), u) == Count(FifoList(fifo), u) + if e.id in u then 1 else 0
  {
    hide Count;
    InsertedAt(fifo, i, e);
    assert FifoList(InsertAt(fifo, i, e)) == InsertAt(FifoList(fifo), i, e.id);
    CountInsert(FifoList(fifo), i, e.id, u);
  }

  // ----- lists without an order -----

  lemma FifoDropIds(fifo: seq<Entry>, id: nat)
    requires FifoIds(fifo)
    ensures FifoIds(Drop(fifo, FifoIndex(fifo, id)))
    ensures forall x: nat :: InFifo(Drop(fifo, FifoIndex(fifo, id)), x) <==> InFifo(fifo, x) && x != id
  {
    FifoDropMembers(fifo, id);
    hide InFifo;
    var i := FifoIndex(fifo, id);
    if i < |fifo| { DropAt(fifo, i); }
  }

  lemma FifoInsertIds(fifo: seq<Entry>, i: nat, e: Entry)
    requires FifoIds(fifo) && i <= |fifo| && !InFifo(fifo, e.id)
    ensures FifoIds(InsertAt(fifo, i, e)) && forall x: nat :: InFifo(InsertAt(fifo, i, e), x) <==> InFifo(fifo, x) || x == e.id
  {
    InsertedAt(fifo, i, e);
    var t := InsertAt(fifo, i, e);
    assert t[i].id == e.id;
    forall x: nat | InFifo(fifo, x) ensures InFifo(t, x) {
      var k :| 0 <= k < |fifo| && fifo[k].id == x;
      assert t[if k < i then k else k + 1].id == x;
    }
  }

  lemma OvertakenKeeps(fifo: seq<Entry>, req: nat, next: nat, u: set<nat>)
    requires FifoIds(fifo) && req != next
    ensures var g := Overtaken(fifo, req, next);
      FifoIds(g) && (forall x: nat :: InFifo(g, x) <==> InFifo(fifo, x)) && Count(FifoList(g), u) == Count(FifoList(fifo), u)
  {
    hide InFifo, FifoIds, Count, FifoIndex, Drop, InsertAt;
    var i, j := FifoIndex(fifo, req), FifoIndex(fifo, next);
    if i < |fifo| && j < |fifo| && fifo[j].expiry < fifo[i].expiry {
      var f := Drop(fifo, i);
      Listed(fifo, i);
      FifoDropIds(fifo, req);
      FifoDropCount(fifo, req, u);
      var k := FifoIndex(f, next);
      if k < |f| {
        var e := Entry(req, fifo[j].expiry);
        FifoInsertIds(f, k + 1, e);
        FifoInsertCount(f, k + 1, e, u);
      }
    }
  }

  lemma Listed(fifo: seq<Entry>, i: nat)
    requires i < |fifo|
    ensures InFifo(fifo, fifo[i].id)
  {}

  // ----- a queue -----

  /** sort_list and fifo hold the same requests, except that `out`, if any, is not in
      sort_list; there is a next request exactly when there is one at all, and then the
      queue is marked as being on the service tree; the counters count. */
  ghost predicate QueueBut(c: Queue, syncs: set<nat>, metas: set<nat>, out: Option<nat>) {
    QueueMost(c, syncs, metas, out) && (out == None ==> (c.next == None <==> c.tree == []))
  }

  ghost predicate QueueMost(c: Queue, syncs: set<nat>, metas: set<nat>, out: Option<nat>) {
    && SortedTree(c.tree) && TreeIds(c.tree) && FifoIds(c.fifo)
    && (forall id: nat :: InTree(c.tree, id) <==> InFifo(c.fifo, id) && out != Some(id))
    && (c.next.Some? ==> c.next == out || InTree(c.tree, c.next.value))
    && (out == None ==> (c.onRr <==> c.tree != [])) && (c.tree != [] ==> c.onRr)
    && CountsOk(c, syncs, metas)
  }

  ghost predicate CountsOk(c: Queue, syncs: set<nat>, metas: set<nat>) {
    && c.queuedSync == Count(TreeList(c.tree), syncs) && c.queuedAsync == |c.tree| - Count(TreeList(c.tree), syncs)
    && c.meta == Count(FifoList(c.fifo), metas)
  }

  ghost predicate OthersOk(s: Data, q: nat) {
    forall p: nat :: p in s.queues && p != q ==> QueueBut(s.queues[p], s.syncs, s.metas, None)
  }

  ghost predicate InvBut(s: Data, q: nat, out: Option<nat>) {
    && ServiceBut(s, None)
    && OthersOk(s, q) && q in s.queues && QueueBut(s.queues[q], s.syncs, s.metas, out)
  }

  ghost predicate Inv(s: Data) {
    ServiceBut(s, None) && forall p: nat :: p in s.queues ==> QueueBut(s.queues[p], s.syncs, s.metas, None)
  }

  lemma Focus(s: Data, q: nat)
    requires q in s.queues
    ensures InvBut(s, q, None) <==> Inv(s)
  {
    hide QueueBut, ServiceBut;
  }

  lemma FoundInTree(tree: seq<Node>, id: nat)
    ensures InTree(tree, id) <==> TreeIndex(tree, id) < |tree|
  {}

  lemma NodeInTree(tree: seq<Node>, i: nat)
    requires i < |tree|
    ensures InTree(tree, tree[i].id)
  {}

  /** cfq_find_next_rq names another request of the queue, unless there is none. */
  lemma FindNextOk(t: Tunables, s: Data, tree: seq<Node>, id: nat)
    requires TreeIds(tree) && InTree(tree, id)
    ensures var n := FindNext(t, s, tree, id);
      (n.Some? ==> n.value != id && InTree(tree, n.value)) && (n == None <==> |tree| == 1)
  {
    hide InTree, Nearer;
    FoundInTree(tree, id);
    var i := TreeIndex(tree, id);
    if i > 0 { NodeInTree(tree, i - 1); NodeInTree(tree, 0); }
    if i + 1 < |tree| { NodeInTree(tree, i + 1); }
  }

  /** The queue after cfq_remove_request. */
  function Removed(t: Tunables, s: Data, c: Queue, id: nat): Queue {
    var c1 := c.(next := if c.next == Some(id) then FindNext(t, s, c.tree, id) else c.next,
                 fifo := Drop(c.fifo, FifoIndex(c.fifo, id)),
                 meta := if id in s.metas then c.meta - 1 else c.meta);
    var c2 := Counted(s, c1, id, -1);
    var c3 := c2.(tree := Drop(c2.tree, TreeIndex(c2.tree, id)));
    c3.(onRr := c3.onRr && c3.tree != [])
  }

  /** The next request is missing only if one request is left, which is about to leave. */
  ghost predicate NextOk(c: Queue, out: Option<nat>) { out == None && c.next == None ==> |c.tree| <= 1 }

  lemma QueueRemoved(t: Tunables, s: Data, c: Queue, id: nat, out: Option<nat>)
    requires QueueMost(c, s.syncs, s.metas, out) && NextOk(c, out) && InTree(c.tree, id)
    ensures var r := Removed(t, s, c, id);
      && QueueBut(r, s.syncs, s.metas, out) && c.onRr && InFifo(c.fifo, id)
      && |r.tree| == |c.tree| - 1 && (r.onRr <==> r.tree != []) && r.key == c.key && r.cls == c.cls
      && (forall x: nat :: InFifo(r.fifo, x) <==> InFifo(c.fifo, x) && x != id)
  {
    hide InTree, InFifo, SortedTree, TreeIds, FifoIds, Count, FindNext, Drop, TreeIndex, FifoIndex;
    TreeDrop(c.tree, id);
    FifoDropIds(c.fifo, id);
    FindNextOk(t, s, c.tree, id);
    TreeDropCount(c.tree, id, s.syncs);
    FifoDropCount(c.fifo, id, s.metas);
    EmptyTree();
  }

  lemma EmptyTree()
    ensures forall x: nat :: !InTree([], x)
  {}

  lemma Assemble(s: Data, s': Data, q: nat, c: Queue, out: Option<nat>)
    requires OthersOk(s, q) && Becomes(s, s', q, c) && ServiceBut(s', None) && QueueBut(c, s.syncs, s.metas, out)
    ensures InvBut(s', q, out)
  {
    hide QueueBut, ServiceBut;
    KeyFree(c, s'.queues[q].key, s.syncs, s.metas, out);
  }

  lemma RemoveShape(t: Tunables, s: Data, q: nat, id: nat)
    requires q in s.queues
    ensures var r := Removed(t, s, s.queues[q], id); var kept := r.(onRr := s.queues[q].onRr);
      Remove(t, s, q, id) == if kept.onRr && kept.tree == [] then DelRr(With(s, q, kept), q) else With(s, q, kept)
  {
    hide FindNext, Drop, TreeIndex, FifoIndex, DelRr;
    var c := s.queues[q];
    var c1 := c.(next := if c.next == Some(id) then FindNext(t, s, c.tree, id) else c.next,
                 fifo := Drop(c.fifo, FifoIndex(c.fifo, id)),
                 meta := if id in s.metas then c.meta - 1 else c.meta);
    var r := Removed(t, s, c, id);
    assert With(With(s, q, c1), q, r.(onRr := c.onRr)) == With(s, q, r.(onRr := c.onRr));
  }

  lemma RemoveOk(t: Tunables, s: Data, q: nat, id: nat, out: Option<nat>)
    requires ServiceBut(s, None) && OthersOk(s, q) && q in s.queues
    requires QueueMost(s.queues[q], s.syncs, s.metas, out) && NextOk(s.queues[q], out) && InTree(s.queues[q].tree, id)
    ensures InvBut(Remove(t, s, q, id), q, out) && Becomes(s, Remove(t, s, q, id), q, Removed(t, s, s.queues[q], id))
  {
    hide InTree, InFifo, Removed, Remove, DelRr, ServiceBut, QueueBut, QueueMost, NextOk, OthersOk, InvBut;
    var c := s.queues[q];
    QueueRemoved(t, s, c, id, out);
    RemoveShape(t, s, q, id);
    var r := Removed(t, s, c, id);
    var kept := r.(onRr := c.onRr);
    QueueChanged(s, q, kept);
    if kept.tree == [] { DelRrOk(With(s, q, kept), q); }
    Assemble(s, Remove(t, s, q, id), q, r, out);
  }

  lemma KeyFree(c: Queue, key: int, syncs: set<nat>, metas: set<nat>, out: Option<nat>)
    requires QueueBut(c, syncs, metas, out)
    ensures QueueBut(c.(key := key), syncs, metas, out)
  {
    hide InTree, InFifo, SortedTree, TreeIds, FifoIds, Count;
  }

  /** The queue after cfq_dispatch_insert. */
  function Dispatched(t: Tunables, s: Data, c: Queue, id: nat): Queue {
    Removed(t, s, c.(next := FindNext(t, s, c.tree, id), dispatched := c.dispatched + 1), id)
  }

  lemma MoveOk(t: Tunables, s: Data, q: nat, id: nat, out: Option<nat>)
    requires InvBut(s, q, out) && InTree(s.queues[q].tree, id)
    ensures var m := Move(t, s, q, id);
      && InvBut(m, q, out) && Becomes(s, m.(out := s.out), q, Dispatched(t, s, s.queues[q], id)) && m.out == s.out + [id]
      && |m.queues[q].tree| == |s.queues[q].tree| - 1 && (m.queues[q].onRr <==> m.queues[q].tree != [])
      && (forall x: nat :: InFifo(m.queues[q].fifo, x) <==> InFifo(s.queues[q].fifo, x) && x != id)
  {
    hide InTree, InFifo, FindNext, Removed, Remove, ServiceBut, QueueBut, QueueMost, NextOk, OthersOk;
    var c := s.queues[q];
    var c1 := c.(next := FindNext(t, s, c.tree, id), dispatched := c.dispatched + 1);
    NextFound(t, s, c, id, out);
    QueueChanged(s, q, c1);
    var s1 := With(s, q, c1);
    OthersSame(s, s1, q);
    RemoveOk(t, s1, q, id, out);
    QueueRemoved(t, s1, c1, id, out);
    RemovedFrame(t, s, s1, c1, id);
    var m := Remove(t, s1, q, id);
    OutFree(m, m.(out := s.out + [id]), q, out);
  }

  lemma OutFree(m: Data, n: Data, q: nat, out: Option<nat>)
    requires InvBut(m, q, out) && n == m.(out := n.out)
    ensures InvBut(n, q, out)
  {
    hide InService, InOrder, LeftOk, QueueBut;
  }

  lemma OthersSame(s: Data, s1: Data, q: nat)
    requires OthersOk(s, q) && s1.queues.Keys == s.queues.Keys && s1.syncs == s.syncs && s1.metas == s.metas
    requires forall p: nat :: p in s.queues && p != q ==> s1.queues[p] == s.queues[p]
    ensures OthersOk(s1, q)
  {
    hide QueueBut;
  }

  lemma FindNextFrame(t: Tunables, s: Data, s1: Data, tree: seq<Node>, id: nat)
    requires s1.syncs == s.syncs && s1.metas == s.metas && s1.last == s.last
    ensures FindNext(t, s1, tree, id) == FindNext(t, s, tree, id)
  {
    hide Nearer;
  }

  lemma RemovedFrame(t: Tunables, s: Data, s1: Data, c: Queue, id: nat)
    requires s1.syncs == s.syncs && s1.metas == s.metas && s1.last == s.last
    ensures Removed(t, s1, c, id) == Removed(t, s, c, id)
  {
    hide FindNext, Drop, TreeIndex, FifoIndex, Place;
    FindNextFrame(t, s, s1, c.tree, id);
  }

  lemma NextFound(t: Tunables, s: Data, c: Queue, id: nat, out: Option<nat>)
    requires QueueBut(c, s.syncs, s.metas, out) && InTree(c.tree, id)
    ensures var c1 := c.(next := FindNext(t, s, c.tree, id), dispatched := c.dispatched + 1);
      QueueMost(c1, s.syncs, s.metas, out) && NextOk(c1, out)
  {
    hide SortedTree, TreeIds, FifoIds, Count, InTree, InFifo, FindNext;
    FindNextOk(t, s, c.tree, id);
  }

  // ----- a request enters -----

  /** id has been put into sort_list and is counted; it may not be in fifo yet. */
  ghost predicate Placed(c: Queue, syncs: set<nat>, metas: set<nat>, id: nat) {
    && SortedTree(c.tree) && TreeIds(c.tree) && FifoIds(c.fifo) && InTree(c.tree, id)
    && (forall x: nat :: InTree(c.tree, x) <==> InFifo(c.fifo, x) || x == id)
    && (c.next.Some? ==> InTree(c.tree, c.next.value)) && CountsOk(c, syncs, metas)
  }

  function Inserted(s: Data, c: Queue, n: Node): Queue {
    var d := Counted(s, c, n.id, 1);
    d.(tree := InsertAt(d.tree, Place(d.tree, n.sector), n))
  }

  lemma InsertOk(s: Data, c: Queue, n: Node)
    requires QueueBut(c, s.syncs, s.metas, Some(n.id)) && Alias(c.tree, n.sector) == None
    ensures Placed(Inserted(s, c, n), s.syncs, s.metas, n.id)
  {
    hide InTree, InFifo, SortedTree, TreeIds, FifoIds, Count, InsertAt, Place, Alias;
    PlaceSorted(c.tree, n);
    InsertIds(c.tree, Place(c.tree, n.sector), n);
    TreeInsertCount(c.tree, Place(c.tree, n.sector), n, s.syncs);
  }

  lemma AliasGone(t: Tunables, s: Data, c: Queue, n: Node, a: nat)
    requires SortedTree(c.tree) && TreeIds(c.tree) && Alias(c.tree, n.sector) == Some(a)
    ensures InTree(c.tree, a) && Alias(Dispatched(t, s, c, a).tree, n.sector) == None
  {
    hide FindNext;
    AliasOk(c.tree, n.sector);
    NoAliasAfterMove(c.tree, n.sector);
  }

  lemma NodeOfOk(tree: seq<Node>, id: nat)
    requires InTree(tree, id)
    ensures NodeOf(tree, Some(id)).Some? && NodeOf(tree, Some(id)).value.id == id
  {
    FoundInTree(tree, id);
  }

  /** The better of the next request and the new one is a request of the queue. */
  lemma Better(t: Tunables, s: Data, c: Queue, n: Node)
    requires InTree(c.tree, n.id) && (c.next.Some? ==> InTree(c.tree, c.next.value))
    ensures var b := IdOf(ChooseReq(t, s, NodeOf(c.tree, c.next), Some(n))); b.Some? && InTree(c.tree, b.value)
  {
    hide InTree, Nearer, TreeIndex;
    if c.next.Some? { NodeOfOk(c.tree, c.next.value); }
  }

  lemma PlacedKey(c: Queue, key: int, onRr: bool, next: Option<nat>, syncs: set<nat>, metas: set<nat>, id: nat)
    requires Placed(c, syncs, metas, id) && next.Some? && InTree(c.tree, next.value)
    ensures Placed(c.(key := key, onRr := onRr, next := next), syncs, metas, id)
  {
    hide InTree, InFifo, SortedTree, TreeIds, FifoIds, Count;
  }

  /** The new request is in the tree of its queue, the queue on the service tree. */
  ghost predicate InvPlaced(s: Data, q: nat, id: nat) {
    && ServiceBut(s, None) && OthersOk(s, q) && q in s.queues
    && Placed(s.queues[q], s.syncs, s.metas, id) && s.queues[q].onRr && s.queues[q].next.Some?
  }

  lemma OfferOk(t: Tunables, s: Data, q: nat, n: Node, offset: int)
    requires ServiceBut(s, None) && OthersOk(s, q) && q in s.queues && Placed(s.queues[q], s.syncs, s.metas, n.id)
    ensures var s' := Offer(t, s, q, n, offset);
      InvPlaced(s', q, n.id) && Becomes(s, s', q, s.queues[q].(onRr := true, next := s'.queues[q].next))
  {
    hide InTree, Placed, ServiceBut, QueueBut, AddRr, ChooseReq, NodeOf, OthersOk;
    var c := s.queues[q];
    var s1 := if c.onRr then s else AddRr(s, q, offset);
    if !c.onRr { AddRrOk(s, q, offset); }
    OthersSame(s, s1, q);
    PlacedNext(c, s.syncs, s.metas, n.id);
    var c1 := s1.queues[q];
    Better(t, s1, c1, n);
    var next := IdOf(ChooseReq(t, s1, NodeOf(c1.tree, c1.next), Some(n)));
    PlacedKey(c, c1.key, true, next, s.syncs, s.metas, n.id);
    QueueChanged(s1, q, c1.(next := next));
    OthersSame(s1, Offer(t, s, q, n, offset), q);
  }

  lemma PlacedNext(c: Queue, syncs: set<nat>, metas: set<nat>, id: nat)
    requires Placed(c, syncs, metas, id)
    ensures InTree(c.tree, id) && (c.next.Some? ==> InTree(c.tree, c.next.value))
  {}

  /** Queue q may have lost requests other than id; no other queue has changed. */
  ghost predicate Frame(s: Data, s': Data, q: nat, id: nat) {
    && s'.queues.Keys == s.queues.Keys && q in s.queues
    && s'.now == s.now && s'.syncs == s.syncs && s'.metas == s.metas && s'.last == s.last
    && (forall x: nat :: InFifo(s'.queues[q].fifo, x) ==> InFifo(s.queues[q].fifo, x))
    && (InFifo(s.queues[q].fifo, id) ==> InFifo(s'.queues[q].fifo, id))
    && (forall p: nat :: p in s.queues && p != q ==> s'.queues[p] == s.queues[p])
  }

  lemma ClearedOk(t: Tunables, s: Data, q: nat, n: Node)
    requires InvBut(s, q, Some(n.id))
    ensures var s1 := Cleared(t, s, q, n.sector);
      InvBut(s1, q, Some(n.id)) && Frame(s, s1, q, n.id) && Alias(s1.queues[q].tree, n.sector) == None
  {
    SortedOf(s.queues[q], s.syncs, s.metas, Some(n.id));
    hide InTree, InFifo, ServiceBut, QueueBut, Move, OthersOk, Dispatched, Alias, SortedTree, TreeIds;
    var a := Alias(s.queues[q].tree, n.sector);
    if a.Some? {
      AliasGone(t, s, s.queues[q], n, a.value);
      AliasIsOther(s, q, n, a.value);
      MoveOk(t, s, q, a.value, Some(n.id));
    }
  }

  lemma AddRbOk(t: Tunables, s: Data, q: nat, n: Node, offset: int)
    requires InvBut(s, q, Some(n.id))
    ensures InvPlaced(AddRb(t, s, q, n, offset), q, n.id) && Frame(s, AddRb(t, s, q, n, offset), q, n.id)
  {
    hide InTree, InFifo, Placed, ServiceBut, QueueBut, Offer, Cleared, OthersOk, Alias, InsertAt, Place, InvPlaced;
    ClearedOk(t, s, q, n);
    var s1 := Cleared(t, s, q, n.sector);
    InsertOk(s1, s1.queues[q], n);
    var s2 := Insert(s1, q, n);
    QueueChanged(s1, q, Inserted(s1, s1.queues[q], n));
    OthersSame(s1, s2, q);
    OfferOk(t, s2, q, n, offset);
  }

  lemma SortedOf(c: Queue, syncs: set<nat>, metas: set<nat>, out: Option<nat>)
    requires QueueBut(c, syncs, metas, out)
    ensures SortedTree(c.tree) && TreeIds(c.tree) && FifoIds(c.fifo)
  {}

  lemma AliasIsOther(s: Data, q: nat, n: Node, a: nat)
    requires InvBut(s, q, Some(n.id)) && InTree(s.queues[q].tree, a)
    ensures a != n.id
  {
    hide SortedTree, TreeIds, FifoIds, Count, InTree, InFifo, ServiceBut, OthersOk;
  }
}
