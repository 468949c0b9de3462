/** The operations of the fair queueing scheduler keep its queues and its service tree in
    agreement, and a forced dispatch empties them. */
module CfqTheorems {
  import opened Cfq
  import opened CfqInvariant
  import opened CfqService
  import opened IdList
  import opened Optional
  import opened SortList

  lemma PlacedBack(s: Data, q: nat, id: nat)
    requires InvPlaced(s, q, id) && InFifo(s.queues[q].fifo, id)
    ensures Inv(s)
  {
    hide SortedTree, TreeIds, FifoIds, Count, InFifo, ServiceBut;
    assert s.queues[q].tree != [];
  }

  /** A request that is in no queue is in no tree, so its flags count nowhere. */
  lemma FlagsFree(c: Queue, syncs: set<nat>, metas: set<nat>, syncs': set<nat>, metas': set<nat>, id: nat)
    requires QueueBut(c, syncs, metas, None) && !InFifo(c.fifo, id)
    requires forall x: nat :: x != id ==> (x in syncs <==> x in syncs') && (x in metas <==> x in metas')
    ensures QueueBut(c, syncs', metas', None)
  {
    hide SortedTree, TreeIds, FifoIds, Count;
    ListMembers(c);
    CountSame(TreeList(c.tree), syncs, syncs');
    CountSame(FifoList(c.fifo), metas, metas');
  }

  lemma ListMembers(c: Queue)
    ensures forall x: nat :: x in TreeList(c.tree) ==> InTree(c.tree, x)
    ensures forall x: nat :: x in FifoList(c.fifo) ==> InFifo(c.fifo, x)
  {}

  /** No queue holds the request. */
  ghost predicate Unknown(s: Data, id: nat) { forall p: nat :: p in s.queues ==> !InFifo(s.queues[p].fifo, id) }

  lemma AsideOk(c: Queue, syncs: set<nat>, metas: set<nat>, id: nat)
    requires QueueBut(c, syncs, metas, None) && !InFifo(c.fifo, id)
    ensures QueueBut(c, syncs, metas, Some(id))
  {
    hide SortedTree, TreeIds, FifoIds, Count;
  }

  function Flagged(s: Data, id: nat, sync: bool, meta: bool): Data {
    s.(syncs := if sync then s.syncs + {id} else s.syncs - {id}, metas := if meta then s.metas + {id} else s.metas - {id})
  }

  lemma FlaggedOk(s: Data, q: nat, id: nat, sync: bool, meta: bool)
    requires Inv(s) && q in s.queues && Unknown(s, id)
    ensures InvBut(Flagged(s, id, sync, meta), q, Some(id))
  {
    hide QueueBut, InFifo, InService, InOrder, LeftOk;
    var s0 := Flagged(s, id, sync, meta);
    forall p: nat | p in s.queues ensures QueueBut(s.queues[p], s0.syncs, s0.metas, None) {
      FlagsFree(s.queues[p], s.syncs, s.metas, s0.syncs, s0.metas, id);
    }
    AsideOk(s.queues[q], s0.syncs, s0.metas, id);
  }

  function Listed(c: Queue, e: Entry, meta: bool): Queue { c.(fifo := c.fifo + [e], meta := if meta then c.meta + 1 else c.meta) }

  lemma ListedOk(s: Data, c: Queue, e: Entry, meta: bool)
    requires Placed(c, s.syncs, s.metas, e.id) && !InFifo(c.fifo, e.id) && (meta <==> e.id in s.metas)
    ensures Placed(Listed(c, e, meta), s.syncs, s.metas, e.id) && InFifo(Listed(c, e, meta).fifo, e.id)
  {
    hide SortedTree, TreeIds, Count, InTree, InFifo, FifoIds;
    assert InsertAt(c.fifo, |c.fifo|, e) == c.fifo + [e];
    FifoInsertIds(c.fifo, |c.fifo|, e);
    FifoInsertCount(c.fifo, |c.fifo|, e, s.metas);
  }

  lemma AddOk(t: Tunables, s: Data, q: nat, n: Node, sync: bool, meta: bool, offset: int)
    requires Inv(s) && q in s.queues && Unknown(s, n.id)
    ensures Inv(Add(t, s, q, n, sync, meta, offset))
    ensures var s' := Add(t, s, q, n, sync, meta, offset); s'.queues.Keys == s.queues.Keys && InFifo(s'.queues[q].fifo, n.id)
    ensures Add(t, s, q, n, sync, meta, offset).queues[q].onRr
    ensures var f := Add(t, s, q, n, sync, meta, offset).queues[q].fifo;
      f != [] && f[|f| - 1] == Entry(n.id, s.now + if sync then t.expireSync else t.expireAsync)
  {
    hide QueueBut, InFifo, ServiceBut, Placed, AddRb, OthersOk, Inv, InvBut;
    var s0 := Flagged(s, n.id, sync, meta);
    FlaggedOk(s, q, n.id, sync, meta);
    AddRbOk(t, s0, q, n, offset);
    var s1 := AddRb(t, s0, q, n, offset);
    var e := Entry(n.id, s.now + if sync then t.expireSync else t.expireAsync);
    assert !InFifo(s1.queues[q].fifo, n.id);
    ListedOk(s1, s1.queues[q], e, meta);
    QueueChanged(s1, q, Listed(s1.queues[q], e, meta));
    var s2 := With(s1, q, Listed(s1.queues[q], e, meta));
    OthersSame(s1, s2, q);
    PlacedBack(s2, q, n.id);
  }

  lemma TakenOut(s: Data, c: Queue, id: nat)
    requires QueueBut(c, s.syncs, s.metas, None) && InFifo(c.fifo, id)
    ensures var d := Counted(s, c, id, -1);
      QueueBut(d.(tree := Drop(d.tree, TreeIndex(d.tree, id))), s.syncs, s.metas, Some(id))
  {
    hide SortedTree, TreeIds, FifoIds, Count, InTree, InFifo, Drop, TreeIndex;
    TreeDrop(c.tree, id);
    TreeDropCount(c.tree, id, s.syncs);
    EmptyTree();
  }

  lemma FrontOk(t: Tunables, s: Data, q: nat, id: nat, sector: nat, nsect: nat, offset: int)
    requires Inv(s) && q in s.queues && InFifo(s.queues[q].fifo, id)
    ensures Inv(FrontMerged(t, s, q, id, sector, nsect, offset))
    ensures var s' := FrontMerged(t, s, q, id, sector, nsect, offset); s'.queues.Keys == s.queues.Keys && InFifo(s'.queues[q].fifo, id)
  {
    hide QueueBut, InFifo, ServiceBut, Placed, AddRb, OthersOk, Inv, Drop, TreeIndex;
    Focus(s, q);
    var d := Counted(s, s.queues[q], id, -1);
    var c := d.(tree := Drop(d.tree, TreeIndex(d.tree, id)));
    TakenOut(s, s.queues[q], id);
    QueueChanged(s, q, c);
    OthersSame(s, With(s, q, c), q);
    AddRbOk(t, With(s, q, c), q, Node(id, sector, nsect), offset);
    PlacedBack(AddRb(t, With(s, q, c), q, Node(id, sector, nsect), offset), q, id);
  }

  lemma SetLengthOk(s: Data, c: Queue, i: nat, nsect: nat)
    requires QueueBut(c, s.syncs, s.metas, None) && i < |c.tree|
    ensures QueueBut(c.(tree := c.tree[i := c.tree[i].(nsect := nsect)]), s.syncs, s.metas, None)
  {
    hide SortedTree, TreeIds, FifoIds, Count, InTree, InFifo;
    SetLength(c.tree, i, nsect);
    assert TreeList(c.tree[i := c.tree[i].(nsect := nsect)]) == TreeList(c.tree);
  }

  lemma BackOk(s: Data, q: nat, id: nat, nsect: nat)
    requires Inv(s) && q in s.queues
    ensures Inv(BackMerged(s, q, id, nsect)) && BackMerged(s, q, id, nsect).queues.Keys == s.queues.Keys
  {
    hide QueueBut, ServiceBut, TreeIndex;
    var c := s.queues[q];
    var i := TreeIndex(c.tree, id);
    if i < |c.tree| {
      SetLengthOk(s, c, i, nsect);
      QueueChanged(s, q, c.(tree := c.tree[i := c.tree[i].(nsect := nsect)]));
    }
  }

  lemma OvertakenOk1(s: Data, c: Queue, req: nat, next: nat)
    requires QueueBut(c, s.syncs, s.metas, None) && req != next && InFifo(c.fifo, next)
    ensures var d := c.(fifo := Overtaken(c.fifo, req, next));
      QueueMost(d, s.syncs, s.metas, None) && NextOk(d, None) && InTree(d.tree, next)
  {
    hide SortedTree, TreeIds, FifoIds, Count, InTree, InFifo, Overtaken;
    OvertakenKeeps(c.fifo, req, next, s.metas);
  }

  lemma AbsorbOk(t: Tunables, s: Data, q: nat, req: nat, next: nat)
    requires Inv(s) && q in s.queues && InFifo(s.queues[q].fifo, next) && req != next
    ensures Inv(Merged(t, s, q, req, next)) && Merged(t, s, q, req, next).queues.Keys == s.queues.Keys
  {
    hide QueueBut, QueueMost, NextOk, InFifo, InTree, ServiceBut, OthersOk, Inv, Remove, Overtaken, Removed;
    Focus(s, q);
    var d := s.queues[q].(fifo := Overtaken(s.queues[q].fifo, req, next));
    OvertakenOk1(s, s.queues[q], req, next);
    QueueChanged(s, q, d);
    OthersSame(s, With(s, q, d), q);
    RemoveOk(t, With(s, q, d), q, next, None);
    Focus(Merged(t, s, q, req, next), q);
  }

  // ----- slices -----

  lemma KeysOnly(s: Data, s': Data, q: nat)
    requires Inv(s) && SameBut(s, s', q) && ServiceBut(s', None)
    ensures Inv(s')
  {
    hide QueueBut, ServiceBut;
    KeyFree(s.queues[q], s'.queues[q].key, s.syncs, s.metas, None);
  }

  lemma ActiveFree(s: Data, active: Option<nat>, left: Option<nat>)
    requires Inv(s) && (active.Some? ==> active.value in s.queues) && LeftOk(left, s.service)
    ensures Inv(s.(active := active, left := left))
  {
    hide QueueBut, InService, InOrder;
  }

  lemma ActiveKnown(s: Data)
    requires Inv(s)
    ensures LeftOk(s.left, s.service) && (s.active.Some? ==> s.active.value in s.queues)
  {
    hide QueueBut, InService, InOrder;
  }

  /** The queues are the same but for their keys. */
  ghost predicate SameRequests(s: Data, s': Data) {
    && s'.queues.Keys == s.queues.Keys && s'.busy == s.busy && s'.out == s.out
    && (forall q: nat :: q in s.queues ==> s'.queues[q] == s.queues[q].(key := s'.queues[q].key))
  }

  lemma ExpiredOk(s: Data, offset: int)
    requires Inv(s)
    ensures Inv(Expired(s, offset)) && SameRequests(s, Expired(s, offset)) && Expired(s, offset).active == None
    ensures forall p: nat :: p in Expired(s, offset).service <==> p in s.service
  {
    hide QueueBut, ServiceBut, Inv, Resort;
    ActiveKnown(s);
    if s.active.Some? {
      var s1 := Resort(s, s.active.value, offset);
      ServiceOf(s);
      ResortOk(s, s.active.value, offset);
      KeysOnly(s, s1, s.active.value);
      ActiveKnown(s1);
      ActiveFree(s1, None, s1.left);
    }
  }

  lemma ServiceOf(s: Data)
    requires Inv(s)
    ensures ServiceBut(s, None)
  {}

  lemma PreemptOk(s: Data, q: nat, offset: int)
    requires Inv(s) && q in s.queues && s.queues[q].onRr
    ensures Inv(Preempt(s, q, offset)) && SameRequests(s, Preempt(s, q, offset))
  {
    hide QueueBut, ServiceBut, Inv, Expired, ServiceAdd;
    ExpiredOk(s, offset);
    var s1 := Expired(s, offset);
    OnTree(s1, q);
    ServiceAddOk(s1, q, true, 0);
    KeysOnly(s1, Preempt(s, q, offset), q);
  }

  lemma OnTree(s: Data, q: nat)
    requires Inv(s) && q in s.queues && s.queues[q].onRr
    ensures q in s.service && ServiceBut(s, None)
  {
    hide QueueBut, InOrder;
  }

  lemma SetActiveOk(s: Data, q: Option<nat>)
    requires Inv(s) && (q.Some? ==> q.value in s.queues)
    ensures Inv(SetActive(s, q)) && SameRequests(s, SetActive(s, q))
    ensures SetActive(s, q).active == if q.Some? then q else First(s).1
  {
    hide QueueBut, InService, InOrder;
    if q == None && s.service != [] {
      ServiceOf(s);
      FirstOk(s);
      var z: nat := 0;
      assert s.service[z] in s.service;
      InTreeKnown(s, s.service[z]);
    }
  }

  lemma InTreeKnown(s: Data, q: nat)
    requires Inv(s) && q in s.service
    ensures q in s.queues && s.queues[q].onRr && s.queues[q].tree != [] && s.queues[q].fifo != [] && s.queues[q].next.Some?
  {
    hide InOrder, SortedTree, TreeIds, FifoIds, Count;
    var c := s.queues[q];
    NodeInTree(c.tree, 0);
  }

  // ----- dispatch -----

  /** A queue that cfq_close_cooperator names is on the service tree. */
  ghost predicate ChoiceOk(s: Data, c: Choice) {
    c.close.Some? ==> c.close.value in s.queues && s.queues[c.close.value].onRr
  }

  ghost predicate Servable(s: Data, q: nat) {
    q in s.queues && s.queues[q].tree != [] && s.queues[q].fifo != [] && s.queues[q].next.Some?
  }

  lemma ServableOk(s: Data, q: nat)
    requires Inv(s) && q in s.queues && s.queues[q].tree != []
    ensures Servable(s, q)
  {
    hide SortedTree, TreeIds, FifoIds, Count, ServiceBut;
    NodeInTree(s.queues[q].tree, 0);
  }

  lemma BusyIsService(s: Data)
    requires Inv(s)
    ensures s.busy == |s.service|
  {
    hide InService, InOrder, LeftOk;
  }

  /** While queues are busy a queue with requests is selected, unless the active one idles. */
  lemma SelectOk(s: Data, c: Choice)
    requires Inv(s) && s.busy != 0 && ChoiceOk(s, c)
    ensures Inv(Select(s, c).0) && SameRequests(s, Select(s, c).0)
    ensures if Select(s, c).1.Some? then Servable(Select(s, c).0, Select(s, c).1.value) else s.active.Some? && c.idle
  {
    hide Inv, Expired, SetActive, Servable;
    ActiveKnown(s);
    if s.active.Some? && !c.used && s.active.value in s.queues && s.queues[s.active.value].tree != [] {
      ServableOk(s, s.active.value);
    } else if !(s.active.Some? && !c.used && c.close == None && c.idle) {
      var close := if s.active.Some? && !c.used then c.close else None;
      ExpiredOk(s, c.offset);
      var s1 := Expired(s, c.offset);
      SetActiveOk(s1, close);
      var s2 := SetActive(s1, close);
      BusyIsService(s1);
      if close.Some? {
        OnTree(s1, close.value);
        InTreeKnown(s1, close.value);
        ServableOk(s2, close.value);
      } else {
        var z: nat := 0;
        assert s1.service[z] in s1.service;
        InTreeKnown(s1, s1.service[z]);
        FirstOf(s1);
        ServableOk(s2, s1.service[z]);
      }
    }
  }

  lemma FirstOf(s: Data)
    requires Inv(s) && s.service != []
    ensures First(s).1 == Some(s.service[0])
  {
    hide QueueBut, InService, InOrder;
  }

  /** Queue q has lost request id: its oldest one, or its next one. */
  ghost predicate Served(s: Data, s': Data, q: nat, id: nat, oldest: bool) {
    && q in s.queues && InFifo(s.queues[q].fifo, id)
    && (if oldest then s.queues[q].fifo[0].id == id else s.queues[q].next == Some(id))
    && s'.out == s.out + [id] && s'.queues.Keys == s.queues.Keys
    && (forall x: nat :: InFifo(s'.queues[q].fifo, x) <==> InFifo(s.queues[q].fifo, x) && x != id)
    && (forall p: nat :: p in s.queues && p != q ==> s'.queues[p].fifo == s.queues[p].fifo)
  }

  lemma ServeOk(t: Tunables, s: Data, q: nat, c: Choice)
    requires Inv(s) && Servable(s, q)
    ensures Inv(Serve(t, s, q, c).0) && (Serve(t, s, q, c).1 <==> c.may)
    ensures if c.may then exists id: nat :: Served(s, Serve(t, s, q, c).0, q, id, c.oldest) else Serve(t, s, q, c).0 == s
  {
    hide Inv, InFifo, InTree, Move, QueueBut, Dispatched;
    Focus(s, q);
    if c.may {
      var u := s.queues[q];
      var id := if c.oldest then u.fifo[0].id else u.next.value;
      ChosenOk(s, q, c.oldest);
      MoveOk(t, s, q, id, None);
      Focus(Move(t, s, q, id), q);
      ChosenListed(s, q, id);
      assert Served(s, Move(t, s, q, id), q, id, c.oldest);
    }
  }

  lemma ChosenOk(s: Data, q: nat, oldest: bool)
    requires Inv(s) && Servable(s, q)
    ensures var u := s.queues[q]; InTree(u.tree, if oldest then u.fifo[0].id else u.next.value)
  {
    hide SortedTree, TreeIds, FifoIds, Count, ServiceBut;
    assert InFifo(s.queues[q].fifo, s.queues[q].fifo[0].id);
  }

  lemma ChosenListed(s: Data, q: nat, id: nat)
    requires Inv(s) && q in s.queues && InTree(s.queues[q].tree, id)
    ensures InFifo(s.queues[q].fifo, id)
  {
    hide SortedTree, TreeIds, FifoIds, Count, ServiceBut, InTree, InFifo;
  }

  lemma ServedSame(s: Data, s1: Data, s2: Data, s3: Data, q: nat, id: nat, oldest: bool)
    requires SameRequests(s, s1) && Served(s1, s2, q, id, oldest) && SameRequests(s2, s3)
    ensures Served(s, s3, q, id, oldest)
  {
    hide InFifo;
  }

  /** A dispatch call keeps the invariant. It serves one request of one queue, the oldest if
      that has expired and otherwise the next one; or none, when no queue is busy, when the
      active one idles, or when it may not dispatch now. */
  lemma DispatchOk(t: Tunables, s: Data, c: Choice)
    requires Inv(s) && ChoiceOk(s, c)
    ensures Inv(Dispatch(t, s, c).0)
    ensures if Dispatch(t, s, c).1 then exists q: nat, id: nat :: Served(s, Dispatch(t, s, c).0, q, id, c.oldest)
            else SameRequests(s, Dispatch(t, s, c).0) && (s.busy == 0 || (s.active.Some? && c.idle) || !c.may)
  {
    hide Inv, Select, Serve, Expired, Served, Servable;
    if s.busy != 0 {
      SelectOk(s, c);
      var (s1, q) := Select(s, c);
      if q.Some? {
        Known(s1, q.value);
        ServeOk(t, s1, q.value, c);
        var s2 := Serve(t, s1, q.value, c).0;
        if c.may {
          var id: nat :| Served(s1, s2, q.value, id, c.oldest);
          ExpiredOk(s2, c.offset);
          ServedSame(s, s1, s2, Dispatch(t, s, c).0, q.value, id, c.oldest);
        }
      }
    }
  }

  lemma Known(s: Data, q: nat)
    requires Servable(s, q)
    ensures q in s.queues
  {}

  // ----- forced dispatch -----

  /** The inner loop empties its queue and takes it off the service tree. */
  lemma {:induction false} FlushQueueOk(t: Tunables, s: Data, q: nat)
    requires Inv(s) && q in s.queues
    ensures var f := FlushQueue(t, s, q);
      && Inv(f) && f.queues.Keys == s.queues.Keys && f.queues[q].fifo == [] && !f.queues[q].onRr
      && (forall p: nat :: p in s.queues && p != q ==> f.queues[p] == s.queues[p])
      && |f.out| == |s.out| + |s.queues[q].tree|
    decreases |s.queues[q].tree|
  {
    hide Inv, InFifo, InTree, Move, QueueBut, Dispatched;
    NextIsThere(s, q);
    Focus(s, q);
    var c := s.queues[q];
    if c.next.Some? {
      MoveOk(t, s, q, c.next.value, None);
      Focus(Move(t, s, q, c.next.value), q);
      FlushQueueOk(t, Move(t, s, q, c.next.value), q);
    }
  }

  lemma NextIsThere(s: Data, q: nat)
    requires Inv(s) && q in s.queues
    ensures var c := s.queues[q];
      if c.next.Some? then InTree(c.tree, c.next.value) else c.tree == [] && c.fifo == [] && !c.onRr
  {
    hide SortedTree, TreeIds, FifoIds, Count, ServiceBut;
    var c := s.queues[q];
    if c.fifo != [] { assert InFifo(c.fifo, c.fifo[0].id); }
  }

  /** All requests that are queued, over the queues of a list. */
  function Held(s: Data, qs: seq<nat>): nat {
    if qs == [] then 0 else (if qs[0] in s.queues then |s.queues[qs[0]].tree| else 0) + Held(s, qs[1..])
  }

  lemma {:induction false} HeldFlushed(s: Data, f: Data, q: nat, qs: seq<nat>)
    requires Distinct(qs) && q in s.queues && f.queues.Keys == s.queues.Keys && f.queues[q].tree == []
    requires forall p: nat :: p in s.queues && p != q ==> f.queues[p] == s.queues[p]
    ensures Held(f, qs) == Held(s, qs) - if q in qs then |s.queues[q].tree| else 0
    decreases |qs|
  {
    if qs != [] {
      assert forall i :: 0 <= i < |qs| - 1 ==> qs[1..][i] == qs[i + 1];
      HeldFlushed(s, f, q, qs[1..]);
    }
  }

  lemma {:induction false} HeldFrame(s: Data, f: Data, qs: seq<nat>)
    requires f.queues.Keys == s.queues.Keys && forall p: nat :: p in s.queues ==> |f.queues[p].tree| == |s.queues[p].tree|
    ensures Held(f, qs) == Held(s, qs)
    decreases |qs|
  {
    if qs != [] { HeldFrame(s, f, qs[1..]); }
  }

  /** A list of all the queues. */
  ghost predicate Lists(s: Data, qs: seq<nat>) { Distinct(qs) && forall q: nat :: q in s.queues <==> q in qs }

  /** The outer loop ends with an empty service tree and every queue empty; what was queued
      has been dispatched, each request once. */
  lemma {:induction false} FlushAllOk(t: Tunables, s: Data, qs: seq<nat>)
    requires Inv(s) && Lists(s, qs)
    ensures var f := FlushAll(t, s);
      && Inv(f) && f.service == [] && f.queues.Keys == s.queues.Keys && |f.out| == |s.out| + Held(s, qs)
      && Held(f, qs) == 0
    decreases |s.service|
  {
    hide Inv, Distinct, FlushQueue, QueueBut;
    ServiceOf(s);
    FirstOk(s);
    var (s1, q) := First(s);
    ActiveKnown(s);
    FirstKept(s);
    HeldFrame(s, s1, qs);
    if q == None {
      NothingHeld(s1, qs);
    } else {
      FirstListed(s);
      InTreeKnown(s, q.value);
      FlushQueueOk(t, s1, q.value);
      var s2 := FlushQueue(t, s1, q.value);
      NextIsThere(s2, q.value);
      HeldFlushed1(s1, s2, q.value, qs);
      Shrunk(s1, s2, q.value);
      FlushAllOk(t, s2, qs);
    }
  }

  lemma HeldFlushed1(s: Data, f: Data, q: nat, qs: seq<nat>)
    requires Inv(f) && Lists(s, qs) && q in s.queues && f.queues.Keys == s.queues.Keys && f.queues[q].fifo == []
    requires forall p: nat :: p in s.queues && p != q ==> f.queues[p] == s.queues[p]
    ensures Held(f, qs) == Held(s, qs) - |s.queues[q].tree|
  {
    hide ServiceBut, SortedTree, TreeIds, FifoIds, Count, Held;
    EmptyFifo(f, q);
    HeldFlushed(s, f, q, qs);
  }

  lemma EmptyFifo(s: Data, q: nat)
    requires Inv(s) && q in s.queues
    ensures s.queues[q].fifo == [] ==> s.queues[q].tree == []
  {
    hide ServiceBut, SortedTree, TreeIds, FifoIds, Count;
    if s.queues[q].tree != [] { NodeInTree(s.queues[q].tree, 0); }
  }

  lemma FirstKept(s: Data)
    requires Inv(s)
    ensures Inv(First(s).0)
  {
    hide QueueBut, InService, InOrder;
  }

  lemma FirstListed(s: Data)
    requires Inv(s) && First(s).1.Some?
    ensures First(s).1.value in s.service
  {
    hide QueueBut, InOrder;
  }

  lemma {:induction false} NothingHeld(s: Data, qs: seq<nat>)
    requires Inv(s) && s.service == []
    ensures Held(s, qs) == 0
    decreases |qs|
  {
    hide SortedTree, TreeIds, FifoIds, Count, InOrder;
    if qs != [] {
      NothingHeld(s, qs[1..]);
      assert qs[0] !in s.service;
    }
  }

  /** A queue that lost its flag is off the tree, and no other has come. */
  lemma Shrunk(s: Data, f: Data, q: nat)
    requires Inv(s) && Inv(f) && q in s.service && f.queues.Keys == s.queues.Keys && !f.queues[q].onRr
    requires forall p: nat :: p in s.queues && p != q ==> f.queues[p] == s.queues[p]
    ensures |f.service| < |s.service|
  {
    hide QueueBut, InOrder;
    assert forall p: nat :: p in f.service ==> p in s.service && p != q;
    SubListShorter(f.service, s.service, q);
  }

  lemma {:induction false} SubListShorter(a: seq<nat>, b: seq<nat>, q: nat)
    requires Distinct(a) && Distinct(b) && q in b && forall p: nat :: p in a ==> p in b && p != q
    ensures |a| < |b|
    decreases |a|
  {
    hide Without;
    if a != [] {
      var x := a[0];
      assert x in a;
      var i: nat :| i < |b| && b[i] == x;
      WithoutAt(b, i);
      WithoutDistinct(b, x);
      assert forall p: nat :: p in a[1..] ==> p in a && p != x;
      assert forall k: nat :: k < |a| - 1 ==> a[1..][k] == a[k + 1];
      SubListShorter(a[1..], Without(b, x), q);
    }
  }

  /** Every queue is empty and none is busy. */
  ghost predicate Drained(s: Data) {
    s.busy == 0 && s.service == [] && forall q: nat :: q in s.queues ==> s.queues[q].tree == [] && s.queues[q].fifo == []
  }

  lemma DrainedOk(s: Data)
    requires Inv(s) && s.service == []
    ensures Drained(s)
  {
    hide SortedTree, TreeIds, FifoIds, Count, InOrder;
    forall q: nat | q in s.queues ensures s.queues[q].tree == [] && s.queues[q].fifo == [] {
      assert q !in s.service;
      NextIsThere(s, q);
    }
  }

  /** A forced dispatch ends with no queue busy and every queue empty, so its two BUG_ONs
      never fire; and it has dispatched as many requests as were queued. */
  lemma ForceOk(t: Tunables, s: Data, qs: seq<nat>)
    requires Inv(s) && Lists(s, qs)
    ensures Inv(Force(t, s)) && Drained(Force(t, s)) && |Force(t, s).out| == |s.out| + Held(s, qs)
  {
    hide Inv, FlushAll, Expired, Lists, Held, Drained;
    BusyIsService(s);
    if s.busy == 0 {
      NothingHeld(s, qs);
      DrainedOk(s);
    } else {
      FlushAllOk(t, s, qs);
      var f := FlushAll(t, s);
      ExpiredOk(f, 0);
      NoService(Expired(f, 0));
      DrainedOk(Expired(f, 0));
    }
  }

  lemma NoService(s: Data)
    ensures (forall p: nat :: p !in s.service) ==> s.service == []
  {
    if s.service != [] { assert s.service[0] in s.service; }
  }

  // ----- runs -----

  /** What the elevator core, the processes and the timer can ask of the scheduler. */
  datatype Step =
    | Create(q: nat, cls: Class)
    | Arrive(q: nat, n: Node, sync: bool, meta: bool, offset: int, preempt: bool)
    | Front(q: nat, id: nat, sector: nat, nsect: nat, offset: int)
    | Back(q: nat, id: nat, nsect: nat)
    | Absorb(q: nat, req: nat, next: nat)
    | Call(c: Choice)
    | SliceOver(offset: int)
    | Drain
    | Free(q: nat, offset: int)
    | Clock(now: nat, last: nat)

  ghost predicate Enabled(s: Data, l: Step) {
    match l
    case Create(q, cls) => q !in s.queues
    case Arrive(q, n, sync, meta, offset, preempt) => q in s.queues && Unknown(s, n.id)
    case Front(q, id, sector, nsect, offset) => q in s.queues && InFifo(s.queues[q].fifo, id)
    case Back(q, id, nsect) => q in s.queues
    case Absorb(q, req, next) => q in s.queues && InFifo(s.queues[q].fifo, next) && req != next
    case Call(c) => ChoiceOk(s, c)
    case SliceOver(offset) => true
    case Drain => true
    case Free(q, offset) => q in s.queues && s.queues[q].fifo == []
    case Clock(now, last) => true
  }

  function Freed(s: Data, q: nat, offset: int): Data {
    var s1 := if s.active == Some(q) then Expired(s, offset) else s;
    s1.(queues := s1.queues - {q})
  }

  function Entered(t: Tunables, s: Data, q: nat, n: Node, sync: bool, meta: bool, offset: int, preempt: bool): Data
    requires q in s.queues
  {
    var s1 := Add(t, s, q, n, sync, meta, offset);
    if preempt && s1.active.Some? && s1.active != Some(q) && q in s1.queues then Preempt(s1, q, offset) else s1
  }

  ghost function Next(t: Tunables, s: Data, l: Step): Data
    requires Enabled(s, l)
  {
    match l
    case Create(q, cls) => With(s, q, NewQueue(cls))
    case Arrive(q, n, sync, meta, offset, preempt) => Entered(t, s, q, n, sync, meta, offset, preempt)
    case Front(q, id, sector, nsect, offset) => FrontMerged(t, s, q, id, sector, nsect, offset)
    case Back(q, id, nsect) => BackMerged(s, q, id, nsect)
    case Absorb(q, req, next) => Merged(t, s, q, req, next)
    case Call(c) => Dispatch(t, s, c).0
    case SliceOver(offset) => Expired(s, offset)
    case Drain => Force(t, s)
    case Free(q, offset) => Freed(s, q, offset)
    case Clock(now, last) => s.(now := now, last := last)
  }

  lemma CreateOk(s: Data, q: nat, cls: Class)
    requires Inv(s) && q !in s.queues
    ensures Inv(With(s, q, NewQueue(cls)))
  {
    hide Distinct, LeftOk;
    var s' := With(s, q, NewQueue(cls));
    NewQueueOk(cls, s.syncs, s.metas);
    hide QueueBut;
    assert forall p: nat :: p in s.queues ==> s'.queues[p] == s.queues[p];
    OrderGrows(s.queues, s'.queues, s.service);
  }

  lemma NewQueueOk(cls: Class, syncs: set<nat>, metas: set<nat>)
    ensures QueueBut(NewQueue(cls), syncs, metas, None)
  {}

  lemma OrderGrows(queues: map<nat, Queue>, queues': map<nat, Queue>, service: seq<nat>)
    requires InOrder(queues, service) && forall i: nat :: i < |service| ==> service[i] in queues' && queues'[service[i]] == queues[service[i]]
    ensures InOrder(queues', service)
  {
    hide Precedes;
  }

  /** When a queue without requests is freed it is not on the service tree and its
      sort_list is empty: the BUG_ONs of cfq_put_queue do not fire. */
  lemma FreeOk(s: Data, q: nat, offset: int)
    requires Inv(s) && q in s.queues && s.queues[q].fifo == []
    ensures s.queues[q].tree == [] && !s.queues[q].onRr && Inv(Freed(s, q, offset))
  {
    hide QueueBut, Distinct, Inv;
    var s1 := if s.active == Some(q) then Expired(s, offset) else s;
    ExpiredOk(s, offset);
    FreeNow(s, q);
    FreeNow(s1, q);
  }

  lemma FreeNow(s: Data, q: nat)
    requires Inv(s) && q in s.queues && s.queues[q].fifo == []
    ensures s.queues[q].tree == [] && !s.queues[q].onRr
    ensures s.active != Some(q) ==> Inv(s.(queues := s.queues - {q}))
  {
    EmptyFifo(s, q);
    NextIsThere(s, q);
    EmptyOff(s, q);
    hide QueueBut, Distinct, LeftOk;
    OrderGrows(s.queues, s.queues - {q}, s.service);
  }

  lemma EmptyOff(s: Data, q: nat)
    requires Inv(s) && q in s.queues
    ensures s.queues[q].tree == [] ==> !s.queues[q].onRr && q !in s.service
  {
    hide SortedTree, TreeIds, FifoIds, Count, InOrder;
  }

  lemma ClockOk(s: Data, now: nat, last: nat)
    requires Inv(s)
    ensures Inv(s.(now := now, last := last))
  {
    hide QueueBut, InService, InOrder, LeftOk;
  }

  lemma EnteredOk(t: Tunables, s: Data, q: nat, n: Node, sync: bool, meta: bool, offset: int, preempt: bool)
    requires Inv(s) && q in s.queues && Unknown(s, n.id)
    ensures Inv(Entered(t, s, q, n, sync, meta, offset, preempt))
  {
    hide Inv, Add, Preempt, Unknown;
    AddOk(t, s, q, n, sync, meta, offset);
    var s1 := Add(t, s, q, n, sync, meta, offset);
    if preempt && s1.active.Some? && s1.active != Some(q) { PreemptOk(s1, q, offset); }
  }

  /** Some list of all the queues. */
  lemma {:induction false} ListOf(qs: set<nat>) returns (r: seq<nat>)
    ensures Distinct(r) && forall q: nat :: q in qs <==> q in r
    decreases |qs|
  {
    if qs == {} {
      r := [];
    } else {
      var q :| q in qs;
      var rest := ListOf(qs - {q});
      r := [q] + rest;
    }
  }

  lemma StepKeepsInv(t: Tunables, s: Data, l: Step)
    requires Inv(s) && Enabled(s, l)
    ensures Inv(Next(t, s, l))
  {
    hide Inv, Entered, FrontMerged, BackMerged, Merged, Dispatch, Expired, Force, Freed, Unknown, ChoiceOk;
    match l
    case Create(q, cls) => CreateOk(s, q, cls);
    case Arrive(q, n, sync, meta, offset, preempt) => EnteredOk(t, s, q, n, sync, meta, offset, preempt);
    case Front(q, id, sector, nsect, offset) => FrontOk(t, s, q, id, sector, nsect, offset);
    case Back(q, id, nsect) => BackOk(s, q, id, nsect);
    case Absorb(q, req, next) => AbsorbOk(t, s, q, req, next);
    case Call(c) => DispatchOk(t, s, c);
    case SliceOver(offset) => ExpiredOk(s, offset);
    case Drain =>
      var qs := ListOf(s.queues.Keys);
      ForceOk(t, s, qs);
    case Free(q, offset) => FreeOk(s, q, offset);
    case Clock(now, last) => ClockOk(s, now, last);
  }

  ghost predicate Runs(t: Tunables, s: Data, ls: seq<Step>)
    decreases |ls|
  {
    ls == [] || (Enabled(s, ls[0]) && Runs(t, Next(t, s, ls[0]), ls[1..]))
  }

  ghost function After(t: Tunables, s: Data, ls: seq<Step>): Data
    requires Runs(t, s, ls)
    decreases |ls|
  {
    if ls == [] then s else After(t, Next(t, s, ls[0]), ls[1..])
  }

  function Start(now: nat): Data { Data(map[], [], None, 0, None, {}, {}, 0, now, []) }

  lemma {:induction false} RunKeepsInv(t: Tunables, s: Data, ls: seq<Step>)
    requires Inv(s) && Runs(t, s, ls)
    ensures Inv(After(t, s, ls))
    decreases |ls|
  {
    hide Inv, Enabled, Next;
    if ls != [] {
      StepKeepsInv(t, s, ls[0]);
      RunKeepsInv(t, Next(t, s, ls[0]), ls[1..]);
    }
  }

  /** In every state that can be reached: the sorted requests of a queue are the listed
      ones; it has a next request, one of them, exactly when it has any, and exactly then it
      is on the service tree; busy_queues is the size of the tree; the cached node, if there
      is one, is the first; and the counters count. */
  lemma QueuesAgree(t: Tunables, now: nat, ls: seq<Step>, q: nat)
    requires Runs(t, Start(now), ls)
    ensures var s := After(t, Start(now), ls);
      && s.busy == |s.service| && (s.left.Some? ==> s.service != [] && s.left.value == s.service[0])
      && (q in s.queues ==> var c := s.queues[q];
        && (forall id: nat :: InTree(c.tree, id) <==> InFifo(c.fifo, id))
        && (c.next == None <==> c.tree == []) && (c.next.Some? ==> InTree(c.tree, c.next.value))
        && (q in s.service <==> c.tree != []) && c.queuedSync + c.queuedAsync == |c.tree|)
  {
    hide SortedTree, TreeIds, FifoIds, Count, InOrder, InTree, InFifo, Enabled, Next, Start;
    StartOk(now);
    RunKeepsInv(t, Start(now), ls);
  }

  lemma StartOk(now: nat)
    ensures Inv(Start(now))
  {}
}
