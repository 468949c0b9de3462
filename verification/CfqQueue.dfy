/** struct cfq_data as the fair queueing scheduler updates it in place. */
module CfqQueue {
  import opened Cfq
  import opened CfqInvariant
  import opened CfqService
  import opened CfqTheorems
  import opened IdList
  import opened Optional
  import opened SortList

  class Scheduler {
    const t: Tunables
    var queues: map<nat, Queue>
    var service: seq<nat>          // service_tree, in order
    var left: Option<nat>          // its cached first node
    var busyQueues: int
    var activeQueue: Option<nat>
    var syncs: set<nat>
    var metas: set<nat>
    var lastPosition: nat
    var jiffies: nat
    var dispatched: seq<nat>

    function State(): Data
      reads this
    {
      Data(queues, service, left, busyQueues, activeQueue, syncs, metas, lastPosition, jiffies, dispatched)
    }

    ghost predicate Valid()
      reads this
    {
      Inv(State())
    }

    /** cfq_init_queue */
    constructor (t: Tunables, now: nat)
      ensures Valid() && this.t == t && State() == Start(now)
    {
      this.t := t;
      queues, service, left, busyQueues, activeQueue := map[], [], None, 0, None;
      syncs, metas, lastPosition, jiffies, dispatched := {}, {}, 0, now, [];
      new;
      StartOk(now);
    }

    /** cfq_rb_first */
    method RbFirst() returns (q: Option<nat>)
      modifies this`left
      ensures (State(), q) == First(old(State()))
    {
      if left == None && service != [] { left := Some(service[0]); }
      q := left;
    }

    /** cfq_rb_erase */
    method RbErase(q: nat)
      modifies this`left, this`service
      ensures State() == Erase(old(State()), q)
    {
      if left == Some(q) { left := None; }
      service := Without(service, q);
    }

    /** The descent of cfq_service_tree_add, and whether it only went left. */
    method FindPlace(cls: Class, key: int) returns (i: nat, onlyLeft: bool)
      requires forall p: nat :: p in service ==> p in queues
      ensures i == ServicePlace(queues, service, cls, key) && onlyLeft == (i == 0)
    {
      i, onlyLeft := 0, true;
      assert service[0..] == service;
      while i < |service| && !Precedes(cls, key, queues[service[i]])
        invariant i <= |service| && onlyLeft == (i == 0)
        invariant ServicePlace(queues, service, cls, key) == i + ServicePlace(queues, service[i..], cls, key)
      {
        assert service[i..][1..] == service[i + 1..];
        i, onlyLeft := i + 1, false;
      }
    }

    /** cfq_service_tree_add */
    method ServiceTreeAdd(q: nat, front: bool, offset: int)
      requires q in queues && forall p: nat :: p in service ==> p in queues
      requires LeftOk(left, service)
      modifies this`left, this`service, this`queues
      ensures State() == ServiceAdd(old(State()), q, front, offset)
    {
      hide ServicePlace, Without, InsertAt, LeftOk;
      ghost var s := State();
      var key := 0;
      if queues[q].cls == Idle {
        var n := |service|;
        key := CFQ_IDLE_DELAY + if n > 0 && service[n - 1] != q then queues[service[n - 1]].key else jiffies;
      } else if !front {
        key := offset + jiffies;
      } else {
        FirstKey(s);
        var f := RbFirst();
        key := (if f.Some? then queues[f.value].key else jiffies) - HZ;
      }
      assert key == ServiceKey(s, q, front, offset);
      if q in service {
        if key == queues[q].key { return; }
        RbErase(q);
      }
      var i, onlyLeft := FindPlace(queues[q].cls, key);
      if onlyLeft { left := Some(q); }
      queues := queues[q := queues[q].(key := key)];
      service := InsertAt(service, i, q);
    }

    lemma FirstKey(s: Data)
      requires LeftOk(s.left, s.service) && forall p: nat :: p in s.service ==> p in s.queues
      ensures First(s).1 == if s.service == [] then None else Some(s.service[0])
      ensures s.service != [] ==> KeyOf(s, s.service[0]) == s.queues[s.service[0]].key
    {}

    lemma ServiceKnown()
      requires ServiceBut(State(), None)
      ensures LeftOk(left, service) && forall p: nat :: p in service ==> p in queues
    {}

    /** cfq_resort_rr_list */
    method ResortRrList(q: nat, offset: int)
      requires q in queues && ServiceBut(State(), None)
      modifies this`left, this`service, this`queues
      ensures State() == Resort(old(State()), q, offset)
    {
      hide ServiceAdd, ServiceBut;
      ServiceKnown();
      if queues[q].onRr { ServiceTreeAdd(q, false, offset); }
    }

    /** cfq_add_cfqq_rr: the precondition is its BUG_ON. */
    method AddCfqqRr(q: nat, offset: int)
      requires q in queues && !queues[q].onRr && ServiceBut(State(), None)
      modifies this`left, this`service, this`queues, this`busyQueues
      ensures State() == AddRr(old(State()), q, offset)
    {
      hide ServiceAdd, ServiceBut;
      ServiceKnown();
      queues := queues[q := queues[q].(onRr := true)];
      busyQueues := busyQueues + 1;
      ServiceTreeAdd(q, false, offset);
    }

    /** cfq_del_cfqq_rr: its BUG_ONs do not fire. */
    method DelCfqqRr(q: nat)
      requires q in queues && queues[q].onRr && ServiceBut(State(), None)
      modifies this`left, this`service, this`queues, this`busyQueues
      ensures State() == DelRr(old(State()), q) && old(busyQueues) > 0
    {
      hide ServiceBut;
      DelRrOk(State(), q);
      queues := queues[q := queues[q].(onRr := false)];
      if q in service { RbErase(q); }
      busyQueues := busyQueues - 1;
    }

    /** cfq_remove_request with cfq_del_rq_rb: a request that is in sort_list */
    method RemoveRequest(q: nat, id: nat, ghost out: Option<nat>)
      requires ServiceBut(State(), None) && OthersOk(State(), q) && q in queues
      requires QueueMost(queues[q], syncs, metas, out) && NextOk(queues[q], out) && InTree(queues[q].tree, id)
      modifies this`left, this`service, this`queues, this`busyQueues
      ensures State() == Remove(t, old(State()), q, id)
    {
      hide ServiceBut, OthersOk, QueueMost, NextOk, InTree, FindNext, Drop, TreeIndex, FifoIndex, DelRr, Removed;
      ghost var s := State();
      RemoveShape(t, s, q, id);
      QueueRemoved(t, s, queues[q], id, out);
      var c := queues[q];
      if c.next == Some(id) { c := c.(next := FindNext(t, State(), c.tree, id)); }
      c := c.(fifo := Drop(c.fifo, FifoIndex(c.fifo, id)));
      if id in metas { c := c.(meta := c.meta - 1); }
      c := Counted(State(), c, id, -1);
      c := c.(tree := Drop(c.tree, TreeIndex(c.tree, id)));
      QueueChanged(s, q, c);
      RemovedIs(s, c, q, id);
      queues := queues[q := c];
      if c.onRr && c.tree == [] { DelCfqqRr(q); }
    }

    lemma RemovedIs(s: Data, c: Queue, q: nat, id: nat)
      requires q in s.queues
      requires var u := s.queues[q];
        c == Counted(s, u.(next := if u.next == Some(id) then FindNext(t, s, u.tree, id) else u.next,
                           fifo := Drop(u.fifo, FifoIndex(u.fifo, id)),
                           meta := if id in s.metas then u.meta - 1 else u.meta), id, -1)
             .(tree := Drop(u.tree, TreeIndex(u.tree, id)))
      ensures c == Removed(t, s, s.queues[q], id).(onRr := s.queues[q].onRr)
    {
      hide FindNext, Drop, TreeIndex, FifoIndex;
    }

    /** cfq_dispatch_insert */
    method DispatchInsert(q: nat, id: nat, ghost out: Option<nat>)
      requires InvBut(State(), q, out) && InTree(queues[q].tree, id)
      modifies this`left, this`service, this`queues, this`busyQueues, this`dispatched
      ensures State() == Move(t, old(State()), q, id)
    {
      hide ServiceBut, OthersOk, QueueBut, QueueMost, NextOk, InTree, FindNext, Remove;
      ghost var s := State();
      var c := queues[q];
      c := c.(next := FindNext(t, State(), c.tree, id), dispatched := c.dispatched + 1);
      NextFound(t, s, queues[q], id, out);
      QueueChanged(s, q, c);
      queues := queues[q := c];
      OthersSame(s, State(), q);
      RemoveRequest(q, id, out);
      dispatched := dispatched + [id];
    }

    /** cfq_add_rq_rb: while another request starts at the same sector, it is dispatched. */
    method AddRqRb(q: nat, n: Node, offset: int)
      requires InvBut(State(), q, Some(n.id))
      modifies this`left, this`service, this`queues, this`busyQueues, this`dispatched
      ensures State() == AddRb(t, old(State()), q, n, offset)
    {
      hide ServiceBut, OthersOk, QueueBut, InTree, Move, Alias, Dispatched, InsertAt, Place, AddRr, ChooseReq, NodeOf, Placed;
      ghost var s := State();
      ClearedOk(t, s, q, n);
      var alias := Alias(queues[q].tree, n.sector);
      while alias.Some?
        invariant q in queues && alias == Alias(queues[q].tree, n.sector)
        invariant if alias.Some? then State() == s else State() == Cleared(t, s, q, n.sector)
        decreases alias.Some?
      {
        AliasInTree(s, q, n.sector, n.id);
        DispatchInsert(q, alias.value, Some(n.id));
        alias := Alias(queues[q].tree, n.sector);
      }
      InsertOk(State(), queues[q], n);
      QueueChanged(State(), q, Inserted(State(), queues[q], n));
      ghost var s1 := State();
      var c := Counted(State(), queues[q], n.id, 1);
      queues := queues[q := c.(tree := InsertAt(c.tree, Place(c.tree, n.sector), n))];
      OthersSame(s1, State(), q);
      OfferOk(t, State(), q, n, offset);
      OfferRq(q, n, offset);
    }

    lemma AliasInTree(s: Data, q: nat, sector: nat, id: nat)
      requires InvBut(s, q, Some(id)) && Alias(s.queues[q].tree, sector).Some?
      ensures InTree(s.queues[q].tree, Alias(s.queues[q].tree, sector).value)
    {
      hide ServiceBut, OthersOk, QueueBut;
      AliasOk(s.queues[q].tree, sector);
    }

    /** The rest of cfq_add_rq_rb: the queue goes on the service tree and the request may
        become the next one; there is a next one then. */
    method OfferRq(q: nat, n: Node, offset: int)
      requires ServiceBut(State(), None) && OthersOk(State(), q) && q in queues && Placed(queues[q], syncs, metas, n.id)
      modifies this`left, this`service, this`queues, this`busyQueues
      ensures State() == Offer(t, old(State()), q, n, offset) && q in queues && queues[q].next.Some?
    {
      hide ServiceBut, OthersOk, AddRr, ChooseReq, NodeOf, Placed;
      OfferOk(t, State(), q, n, offset);
      if !queues[q].onRr {
        AddRrOk(State(), q, offset);
        AddCfqqRr(q, offset);
      }
      var c := queues[q];
      queues := queues[q := c.(next := IdOf(ChooseReq(t, State(), NodeOf(c.tree, c.next), Some(n))))];
    }

    /** cfq_insert_request up to the question whether to preempt */
    method InsertRequest(q: nat, n: Node, sync: bool, meta: bool, offset: int)
      requires Valid() && q in queues && Unknown(State(), n.id)
      modifies this
      ensures Valid() && State() == Add(t, old(State()), q, n, sync, meta, offset)
    {
      hide Inv, Unknown, AddRb, InvBut, Placed, OthersOk, ServiceBut, InFifo;
      ghost var s := State();
      AddOk(t, s, q, n, sync, meta, offset);
      FlaggedOk(s, q, n.id, sync, meta);
      AddRbOk(t, Flagged(s, n.id, sync, meta), q, n, offset);
      syncs := if sync then syncs + {n.id} else syncs - {n.id};
      metas := if meta then metas + {n.id} else metas - {n.id};
      AddRqRb(q, n, offset);
      var c := queues[q];
      c := c.(fifo := c.fifo + [Entry(n.id, jiffies + if sync then t.expireSync else t.expireAsync)]);
      if meta { c := c.(meta := c.meta + 1); }
      queues := queues[q := c];
    }

    /** cfq_merged_request after a front merge, with cfq_reposition_rq_rb */
    method RepositionRqRb(q: nat, id: nat, sector: nat, nsect: nat, offset: int)
      requires Valid() && q in queues && InFifo(queues[q].fifo, id)
      modifies this
      ensures Valid() && State() == FrontMerged(t, old(State()), q, id, sector, nsect, offset)
    {
      hide ServiceBut, OthersOk, QueueBut, AddRb, Drop, TreeIndex, InFifo, Inv;
      ghost var s := State();
      FrontOk(t, s, q, id, sector, nsect, offset);
      Focus(s, q);
      TakenOut(s, queues[q], id);
      var c := Counted(State(), queues[q], id, -1);
      c := c.(tree := Drop(c.tree, TreeIndex(c.tree, id)));
      QueueChanged(s, q, c);
      queues := queues[q := c];
      OthersSame(s, State(), q);
      AddRqRb(q, Node(id, sector, nsect), offset);
    }

    /** cfq_merged_requests */
    method MergedRequests(q: nat, req: nat, nxt: nat)
      requires Valid() && q in queues && InFifo(queues[q].fifo, nxt) && req != nxt
      modifies this
      ensures Valid() && State() == Merged(t, old(State()), q, req, nxt)
    {
      hide ServiceBut, OthersOk, QueueBut, QueueMost, NextOk, InTree, InFifo, Inv, Remove, Overtaken;
      ghost var s := State();
      AbsorbOk(t, s, q, req, nxt);
      Focus(s, q);
      OvertakenOk1(s, queues[q], req, nxt);
      var fifo := TakeOver(queues[q].fifo, req, nxt);
      QueueChanged(s, q, queues[q].(fifo := fifo));
      queues := queues[q := queues[q].(fifo := fifo)];
      OthersSame(s, State(), q);
      RemoveRequest(q, nxt, None);
    }

    /** The move in fifo when the absorbed request expires earlier. */
    method TakeOver(f: seq<Entry>, req: nat, nxt: nat) returns (g: seq<Entry>)
      ensures g == Overtaken(f, req, nxt)
    {
      hide Drop, InsertAt, FifoIndex;
      g := f;
      var i, j := FifoIndex(f, req), FifoIndex(f, nxt);
      if i < |f| && j < |f| {
        if f[j].expiry < f[i].expiry {
          g := Drop(f, i);
          var k := FifoIndex(g, nxt);
          if k < |g| { g := InsertAt(g, k + 1, Entry(req, f[j].expiry)); } else { g := f; }
        }
      }
    }

    /** cfq_slice_expired */
    method SliceExpired(offset: int)
      requires Valid()
      modifies this`left, this`service, this`queues, this`activeQueue
      ensures Valid() && State() == Expired(old(State()), offset)
    {
      hide Inv, Resort, ServiceBut;
      ghost var s := State();
      ExpiredOk(s, offset);
      ActiveKnown(s);
      ServiceOf(s);
      if activeQueue.Some? {
        ResortRrList(activeQueue.value, offset);
        activeQueue := None;
      }
    }

    /** cfq_set_active_queue */
    method SetActiveQueue(given: Option<nat>)
      requires Valid() && (given.Some? ==> given.value in queues)
      modifies this`left, this`activeQueue
      ensures Valid() && State() == SetActive(old(State()), given)
    {
      hide Inv;
      SetActiveOk(State(), given);
      if given.Some? {
        activeQueue := given;
      } else if service == [] {
        activeQueue := None;
      } else {
        var f := RbFirst();
        activeQueue := f;
      }
    }

    /** cfq_preempt_queue: its BUG_ON does not fire for a queue with requests. */
    method PreemptQueue(q: nat, offset: int)
      requires Valid() && q in queues && queues[q].onRr
      modifies this`left, this`service, this`queues, this`activeQueue
      ensures Valid() && State() == Preempt(old(State()), q, offset)
    {
      hide Inv, Expired, ServiceAdd, ServiceBut;
      ghost var s := State();
      PreemptOk(s, q, offset);
      ExpiredOk(s, offset);
      SliceExpired(offset);
      OnTree(State(), q);
      ServiceKnown();
      ServiceTreeAdd(q, true, 0);
    }

    /** cfq_select_queue */
    method SelectQueue(c: Choice) returns (q: Option<nat>)
      requires Valid() && busyQueues != 0 && ChoiceOk(State(), c)
      modifies this`left, this`service, this`queues, this`activeQueue
      ensures Valid() && (State(), q) == Select(old(State()), c)
      ensures q.Some? ==> Servable(State(), q.value)
    {
      hide Inv, Expired, SetActive, Servable;
      ghost var s := State();
      SelectOk(s, c);
      ActiveKnown(s);
      var close: Option<nat> := None;
      if activeQueue.Some? && !c.used {
        if queues[activeQueue.value].tree != [] { return activeQueue; }
        close := c.close;
        if close == None && c.idle { return None; }
      }
      ExpiredOk(s, c.offset);
      SliceExpired(c.offset);
      SetActiveQueue(close);
      q := activeQueue;
    }

    /** cfq_dispatch_request: the queue has requests, which is its BUG_ON. */
    method ServeQueue(q: nat, c: Choice) returns (moved: bool)
      requires Valid() && Servable(State(), q)
      modifies this`left, this`service, this`queues, this`busyQueues, this`dispatched
      ensures Valid() && (State(), moved) == Serve(t, old(State()), q, c)
    {
      hide Inv, InTree, Move, InvBut;
      ghost var s := State();
      ServeOk(t, s, q, c);
      ChosenOk(s, q, c.oldest);
      Focus(s, q);
      if !c.may { return false; }
      var rq := queues[q].next;
      if c.oldest { rq := Some(queues[q].fifo[0].id); }
      DispatchInsert(q, rq.value, None);
      moved := true;
    }

    /** cfq_dispatch_requests without force */
    method DispatchRequests(c: Choice) returns (moved: bool)
      requires Valid() && ChoiceOk(State(), c)
      modifies this
      ensures Valid() && (State(), moved) == Dispatch(t, old(State()), c)
    {
      hide Inv, Select, Serve, Expired, Servable;
      DispatchOk(t, State(), c);
      if busyQueues == 0 { return false; }
      var q := SelectQueue(c);
      if q == None { return false; }
      Known(State(), q.value);
      moved := ServeQueue(q.value, c);
      if !moved { return; }
      if busyQueues > 1 && c.over { SliceExpired(c.offset); }
    }

    /** __cfq_forced_dispatch_cfqq: its BUG_ON does not fire, for fifo is empty at the end. */
    method ForcedDispatchCfqq(q: nat) returns (n: nat)
      requires Valid() && q in queues
      modifies this`left, this`service, this`queues, this`busyQueues, this`dispatched
      ensures Valid() && State() == FlushQueue(t, old(State()), q) && |dispatched| == |old(dispatched)| + n
      ensures q in queues && queues[q].fifo == []
    {
      hide Inv, InTree, Move, InvBut;
      ghost var s := State();
      FlushQueueOk(t, s, q);
      n := 0;
      while queues[q].next.Some?
        invariant Valid() && q in queues && FlushQueue(t, State(), q) == FlushQueue(t, s, q)
        invariant |dispatched| == |s.out| + n
        decreases |queues[q].tree|
      {
        FlushStep(State(), q);
        DispatchInsert(q, queues[q].next.value, None);
        n := n + 1;
      }
    }

    lemma FlushStep(s: Data, q: nat)
      requires Inv(s) && q in s.queues && s.queues[q].next.Some?
      ensures var id := s.queues[q].next.value; var m := Move(t, s, q, id);
        && InTree(s.queues[q].tree, id) && InvBut(s, q, None) && Inv(m) && m.queues.Keys == s.queues.Keys
        && |m.queues[q].tree| < |s.queues[q].tree| && FlushQueue(t, s, q) == FlushQueue(t, m, q) && |m.out| == |s.out| + 1
    {
      hide Inv, InFifo, InTree, Move, QueueBut, Dispatched, OthersOk, ServiceBut;
      NextIsThere(s, q);
      Focus(s, q);
      MoveOk(t, s, q, s.queues[q].next.value, None);
      Focus(Move(t, s, q, s.queues[q].next.value), q);
    }

    /** cfq_forced_dispatch: it returns the number of requests that were queued, all of
        which are dispatched, and neither of its BUG_ONs fires. */
    method ForcedDispatch(ghost qs: seq<nat>) returns (n: nat)
      requires Valid() && busyQueues != 0 && Lists(State(), qs)
      modifies this`left, this`service, this`queues, this`busyQueues, this`dispatched, this`activeQueue
      ensures Valid() && State() == Force(t, old(State())) && Drained(State())
      ensures n == Held(old(State()), qs) && |dispatched| == |old(dispatched)| + n
    {
      hide Inv, FlushQueue, Expired, Lists, Held, Drained;
      ghost var s := State();
      ForceOk(t, s, qs);
      n := 0;
      FlushAllOk(t, s, qs);
      FirstTwice(s);
      var q := RbFirst();
      while q.Some?
        invariant Valid() && (State(), q) == First(State()) && FlushAll(t, State()) == FlushAll(t, s)
        invariant |dispatched| == |s.out| + n
        decreases |service|
      {
        FlushRound(State(), q.value);
        var k := ForcedDispatchCfqq(q.value);
        n := n + k;
        FirstTwice(State());
        q := RbFirst();
      }
      NoneFirst(State());
      SliceExpired(0);
    }

    lemma FlushRound(s: Data, q: nat)
      requires Inv(s) && (s, Some(q)) == First(s)
      ensures q in s.queues
      ensures var f := FlushQueue(t, s, q); |f.service| < |s.service| && FlushAll(t, s) == FlushAll(t, f) && Inv(f)
    {
      hide Inv, FlushQueue;
      FirstListed(s);
      InTreeKnown(s, q);
      FlushQueueOk(t, s, q);
      Shrunk(s, FlushQueue(t, s, q), q);
    }

    /** Looking up the first queue again changes nothing. */
    lemma FirstTwice(s: Data)
      requires Inv(s)
      ensures Inv(First(s).0) && First(First(s).0) == (First(s).0, First(s).1) && FlushAll(t, First(s).0) == FlushAll(t, s)
      ensures |First(s).0.service| == |s.service|
    {
      hide Inv, FlushQueue;
      FirstKept(s);
    }

    lemma NoneFirst(s: Data)
      requires Inv(s) && First(s) == (s, None)
      ensures FlushAll(t, s) == s
    {
      hide Inv;
    }
  }
}
