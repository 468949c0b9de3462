/** struct deadline_data as the scheduler updates it in place. */
module DeadlineQueue {
  import opened Optional
  import opened SortList
  import opened Deadline
  import opened DeadlineInvariant

  class Scheduler {
    const t: Tunables
    var tree: map<bool, seq<Node>>     // sort_list, by direction (true for writes)
    var fifo: map<bool, seq<Entry>>    // fifo_list
    var next: map<bool, Option<nat>>   // next_rq
    var batching: nat
    var lastSector: nat
    var starved: nat
    var jiffies: nat
    var dispatched: seq<nat>

    predicate Shape()
      reads this
    {
      forall d :: d in {false, true} ==> d in tree && d in fifo && d in next
    }

    ghost function State(): Data
      requires Shape()
      reads this
    {
      Data(Side(tree[false], fifo[false], next[false]), Side(tree[true], fifo[true], next[true]), batching, starved, lastSector,
           jiffies, dispatched)
    }

    ghost predicate Valid()
      reads this
    {
      Shape() && Inv(t, State())
    }

    /** deadline_init_queue */
    constructor (t: Tunables)
      ensures Valid() && this.t == t && State() == INITIAL
    {
      this.t := t;
      tree, fifo, next := map[false := [], true := []], map[false := [], true := []], map[false := None, true := None];
      batching, lastSector, starved, jiffies, dispatched := 0, 0, 0, 0, [];
    }

    /** deadline_remove_request */
    method RemoveRequest(d: bool, id: nat)
      requires Shape()
      modifies this`tree, this`fifo, this`next
      ensures Shape() && State() == With(old(State()), d, Remove(Of(old(State()), d), id))
    {
      fifo := fifo[d := Drop(fifo[d], FifoIndex(fifo[d], id))];
      if next[d] == Some(id) {
        next := next[d := Latter(tree[d], id)];
      }
      tree := tree[d := Drop(tree[d], TreeIndex(tree[d], id))];
    }

    /** deadline_move_request */
    method MoveRequest(d: bool, id: nat)
      requires Shape()
      modifies this
      ensures Shape() && State() == Move(old(State()), d, id)
    {
      hide Drop, Latter, TreeIndex, FifoIndex, Remove;
      next := next[false := None][true := None];
      next := next[d := Latter(tree[d], id)];
      var i := TreeIndex(tree[d], id);
      if i < |tree[d]| { lastSector := tree[d][i].sector + tree[d][i].nsect; }
      RemoveRequest(d, id);
      dispatched := dispatched + [id];
    }

    /** deadline_add_rq_rb: while another request starts at the same sector, it is moved
        to the dispatch queue. */
    method AddRqRb(d: bool, n: Node)
      requires Shape() && SortedTree(tree[d]) && TreeIds(tree[d])
      modifies this
      ensures Shape() && State() == AddRb(old(State()), d, n)
    {
      hide Place, Latter, TreeIndex;
      ghost var s0 := State();
      var alias := Alias(tree[d], n.sector);
      while alias.Some?
        invariant Shape() && alias == Alias(tree[d], n.sector)
        invariant State() == s0 || (Alias(Of(s0, d).tree, n.sector).Some? && alias == None
          && State() == Move(s0, d, Alias(Of(s0, d).tree, n.sector).value))
        decreases alias.Some?
      {
        NoAliasAfterMove(tree[d], n.sector);
        MoveRequest(d, alias.value);
        alias := Alias(tree[d], n.sector);
      }
      tree := tree[d := InsertAt(tree[d], Place(tree[d], n.sector), n)];
    }

    /** deadline_add_request */
    method AddRequest(d: bool, n: Node)
      requires Valid() && !Queued(State(), n.id)
      modifies this
      ensures Valid() && State() == Next(t, old(State()), Arrive(d, n))
    {
      hide AddRb, SideBut;
      ArriveOk(t, State(), d, n);
      AliasKeepsTime(t, State(), d, n);
      SidesSorted(d);
      AddRqRb(d, n);
      fifo := fifo[d := fifo[d] + [Entry(n.id, jiffies + Expire(t, d))]];
    }

    lemma SidesSorted(d: bool)
      requires Valid()
      ensures SortedTree(tree[d]) && TreeIds(tree[d]) && (SortedTree(tree[!d]) && TreeIds(tree[!d]))
    {}

    /** deadline_merged_request after a front merge. */
    method MergedRequest(d: bool, id: nat, sector: nat, nsect: nat)
      requires Valid() && InFifo(fifo[d], id)
      modifies this
      ensures Valid() && State() == Next(t, old(State()), Front(d, id, sector, nsect))
    {
      hide AddRb, SideBut;
      FrontOk(t, State(), d, id, sector, nsect);
      SidesSorted(d);
      InBoth(d, id);
      TreeDrop(tree[d], id);
      tree := tree[d := Drop(tree[d], TreeIndex(tree[d], id))];
      AddRqRb(d, Node(id, sector, nsect));
    }

    lemma InBoth(d: bool, id: nat)
      requires Valid() && InFifo(fifo[d], id)
      ensures InTree(tree[d], id)
    {
      hide SortedTree, TreeIds, FifoIds, SortedFifo;
    }

    /** deadline_merged_requests */
    method MergedRequests(d: bool, req: nat, nxt: nat)
      requires Valid() && InFifo(fifo[d], req) && InFifo(fifo[d], nxt) && req != nxt
      modifies this
      ensures Valid() && State() == Next(t, old(State()), Absorb(d, req, nxt))
    {
      hide SideBut, Drop, InsertAt, Remove;
      AbsorbOk(t, State(), d, req, nxt);
      var f := fifo[d];
      var i, j := FifoIndex(f, req), FifoIndex(f, nxt);
      if i < |f| && j < |f| {
        var e := f[j].expiry;
        if e < f[i].expiry {
          var g := Drop(f, i);
          var k := FifoIndex(g, nxt);
          if k < |g| { fifo := fifo[d := InsertAt(g, k + 1, Entry(req, e))]; }
        }
      }
      RemoveRequest(d, nxt);
    }

    /** deadline_check_fifo */
    method CheckFifo(d: bool) returns (expired: bool)
      requires Shape() && fifo[d] != []
      ensures expired == Expired(State(), d)
    {
      expired := jiffies > fifo[d][0].expiry;
    }

    /** The part of deadline_dispatch_requests that chooses within a direction. */
    method FindRequest(d: bool) returns (id: nat)
      requires Shape() && fifo[d] != []
      ensures Pick(State(), d) == Some(id)
    {
      var expired := CheckFifo(d);
      if expired || next[d] == None { return fifo[d][0].id; }
      id := next[d].value;
    }

    /** deadline_dispatch_requests: 0 exactly when nothing is queued. */
    method DispatchRequests() returns (moved: bool)
      requires Valid()
      modifies this
      ensures Valid() && (State(), moved) == Dispatch(t, old(State()))
      ensures moved == (old(fifo[false]) != [] || old(fifo[true]) != [])
      ensures !moved ==> State() == old(State())
      ensures moved ==> |fifo[false]| + |fifo[true]| + 1 == old(|fifo[false]| + |fifo[true]|)
      ensures moved ==> |dispatched| == |old(dispatched)| + 1
    {
      hide Move, Pick, Inv, Dispatch;
      ghost var s0 := State();
      ServeCounts(t, s0);
      var d := next[true].Some?;
      var rq := next[d];
      if rq.Some? && batching < t.fifoBatch {
        BatchGoesOn(t, s0, d);
        batching := batching + 1;
        MoveRequest(d, rq.value);
        return true;
      }
      if fifo[false] == [] && fifo[true] == [] { return false; }
      d := fifo[false] == [];
      if !d && fifo[true] != [] {
        starved := starved + 1;
        if starved > t.writesStarved { d := true; }
      }
      if d { starved := 0; }
      PickIgnores(s0, State(), d);
      var id := FindRequest(d);
      NewBatch(t, s0, d, id, starved);
      batching := 1;
      MoveRequest(d, id);
      moved := true;
    }

    /** elv_drain_elevator: dispatching until nothing comes empties both directions. */
    method Drain()
      requires Valid()
      modifies this
      ensures Valid() && fifo[false] == [] && fifo[true] == []
      ensures |dispatched| == |old(dispatched)| + old(|fifo[false]| + |fifo[true]|)
    {
      hide Inv, Dispatch;
      var more := true;
      while more
        invariant Valid() && |dispatched| + |fifo[false]| + |fifo[true]| == old(|dispatched| + |fifo[false]| + |fifo[true]|)
        invariant !more ==> fifo[false] == [] && fifo[true] == []
        decreases |fifo[false]| + |fifo[true]|, more
      {
        more := DispatchRequests();
      }
    }
  }

  lemma AliasKeepsTime(t: Tunables, s: Data, d: bool, n: Node)
    requires Inv(t, s) && !Queued(s, n.id)
    ensures AddRb(s, d, n).now == s.now
  {
    hide InTree, InFifo, SortedTree, TreeIds, FifoIds, SortedFifo, AddRb;
    Flip(t, s, d);
    AddRbOk(t, s, d, n);
  }

  lemma BatchGoesOn(t: Tunables, s: Data, d: bool)
    requires d == s.write.next.Some? && Of(s, d).next.Some? && s.batching < t.fifoBatch
    ensures Dispatch(t, s) == (Move(s.(batching := s.batching + 1), d, Of(s, d).next.value), true)
  {
    hide Move, Pick;
  }

  lemma NewBatch(t: Tunables, s: Data, d: bool, id: nat, starved: nat)
    requires !(Of(s, s.write.next.Some?).next.Some? && s.batching < t.fifoBatch) && (s.read.fifo != [] || s.write.fifo != [])
    requires d == (s.read.fifo == [] || (s.write.fifo != [] && s.starved >= t.writesStarved)) && Pick(s, d) == Some(id)
    requires starved == if d then 0 else if s.write.fifo != [] then s.starved + 1 else s.starved
    ensures Dispatch(t, s) == (Move(s.(starved := starved, batching := 1), d, id), true)
  {
    hide Move, Pick;
    PickIgnores(s, s.(starved := starved, batching := 0), d);
  }

  lemma PickIgnores(s: Data, s': Data, d: bool)
    requires s' == s.(starved := s'.starved, batching := s'.batching)
    ensures Pick(s', d) == Pick(s, d)
  {}

  lemma ServeCounts(t: Tunables, s: Data)
    requires Inv(t, s)
    ensures var (s', moved) := Dispatch(t, s);
      && Inv(t, s') && moved == (s.read.fifo != [] || s.write.fifo != []) && (!moved ==> s' == s)
      && (moved ==> |s'.read.fifo| + |s'.write.fifo| + 1 == |s.read.fifo| + |s.write.fifo| && |s'.out| == |s.out| + 1)
  {
    hide SideBut, Dispatch, Drop, FifoIndex, InFifo;
    ServeOk(t, s);
    var (s', moved) := Dispatch(t, s);
    if moved {
      var write: bool, id: nat :| InFifo(Of(s, write).fifo, id) && s'.out == s.out + [id]
        && Of(s', write).fifo == Drop(Of(s, write).fifo, FifoIndex(Of(s, write).fifo, id))
        && Of(s', !write).fifo == Of(s, !write).fifo;
      FifoFound(Of(s, write).fifo, id);
      DropAt(Of(s, write).fifo, FifoIndex(Of(s, write).fifo, id));
    }
  }

  lemma FifoFound(f: seq<Entry>, id: nat)
    requires InFifo(f, id)
    ensures FifoIndex(f, id) < |f|
  {}
}
