/** What every operation of the deadline scheduler keeps. */
module DeadlineInvariant {
  import opened Optional
  import opened SortList
  import opened Deadline

  lemma RemoveOk(side: Side, id: nat, bound: nat, u: Option<nat>)
    requires SideBut(side, bound, u) && InTree(side.tree, id)
    ensures SideBut(Remove(side, id), bound, u)
    ensures forall x: nat :: InTree(Remove(side, id).tree, x) <==> InTree(side.tree, x) && x != id
    ensures forall x: nat :: InFifo(Remove(side, id).fifo, x) <==> InFifo(side.fifo, x) && x != id
    ensures side.next == None ==> Remove(side, id).next == None
  {
    hide InTree, InFifo, SortedTree, TreeIds, FifoIds, SortedFifo, Latter;
    TreeDrop(side.tree, id);
    FifoDrop(side.fifo, id, bound);
    if Latter(side.tree, id).Some? { LatterOk(side.tree, id); }
  }

  /** The request that is moved leaves both views of its direction, and nothing else
      leaves; only its direction may have a next request afterwards. */
  ghost predicate Moved(s: Data, s': Data, write: bool, id: nat) {
    && Of(s', write).fifo == Drop(Of(s, write).fifo, FifoIndex(Of(s, write).fifo, id))
    && Of(s', write).tree == Drop(Of(s, write).tree, TreeIndex(Of(s, write).tree, id))
    && Of(s', !write) == Of(s, !write).(next := None)
    && s'.out == s.out + [id] && s'.now == s.now && s'.starved == s.starved && s'.batching == s.batching
  }

  lemma MoveOk(t: Tunables, s: Data, write: bool, id: nat, u: Option<nat>)
    requires InvBut(t, s, write, u) && InTree(Of(s, write).tree, id)
    ensures InvBut(t, Move(s, write, id), write, u) && Moved(s, Move(s, write, id), write, id)
    ensures forall x: nat :: InFifo(Of(Move(s, write, id), write).fifo, x) <==> InFifo(Of(s, write).fifo, x) && x != id
  {
    hide InTree, InFifo, SortedTree, TreeIds, FifoIds, SortedFifo, Latter, Drop;
    var side := Of(s, write);
    var next := Latter(side.tree, id);
    if next.Some? { LatterOk(side.tree, id); }
    RemoveOk(side.(next := next), id, s.now + Expire(t, write), u);
  }

  lemma AddRbOk(t: Tunables, s: Data, write: bool, n: Node)
    requires InvBut(t, s, write, Some(n.id))
    ensures var s' := AddRb(s, write, n);
      && SideBut(Of(s', !write), s.now + Expire(t, !write), None)
      && (s'.read.next == None || s'.write.next == None) && s'.starved == s.starved && s'.now == s.now
      && s'.batching == s.batching && s.out <= s'.out
      && (forall id: nat :: InFifo(Of(s', write).fifo, id) ==> InFifo(Of(s, write).fifo, id))
      && (InFifo(Of(s, write).fifo, n.id) ==> InFifo(Of(s', write).fifo, n.id))
      && Of(s', !write).fifo == Of(s, !write).fifo
      && Placed(Of(s', write), s.now + Expire(t, write), n.id)
  {
    hide InTree, InFifo, SortedTree, TreeIds, FifoIds, SortedFifo, Latter, Drop, InsertAt, Place;
    var side := Of(s, write);
    var a := Alias(side.tree, n.sector);
    AliasOk(side.tree, n.sector);
    var s1 := if a.Some? then Move(s, write, a.value) else s;
    if a.Some? {
      MoveOk(t, s, write, a.value, Some(n.id));
      NoAliasAfterMove(side.tree, n.sector);
    }
    var side1 := Of(s1, write);
    PlaceSorted(side1.tree, n);
    InsertIds(side1.tree, Place(side1.tree, n.sector), n);
  }

  /** id has been put into the tree. */
  ghost predicate Placed(side: Side, bound: nat, id: nat) {
    && SortedTree(side.tree) && TreeIds(side.tree) && FifoIds(side.fifo) && SortedFifo(side.fifo, bound)
    && (forall x: nat :: InTree(side.tree, x) <==> InFifo(side.fifo, x) || x == id)
    && (side.next.Some? ==> InTree(side.tree, side.next.value))
  }

  lemma Flip(t: Tunables, s: Data, write: bool)
    ensures InvBut(t, s, write, None) <==> Inv(t, s)
  {
    hide SideBut;
  }

  lemma ArriveOk(t: Tunables, s: Data, write: bool, n: Node)
    requires Inv(t, s) && !Queued(s, n.id)
    ensures Inv(t, Add(t, s, write, n))
  {
    hide InTree, InFifo, SortedTree, TreeIds, FifoIds, SortedFifo, AddRb;
    Flip(t, s, write);
    AddRbOk(t, s, write, n);
    var s1 := AddRb(s, write, n);
    FifoAppend(Of(s1, write).fifo, Entry(n.id, s.now + Expire(t, write)), s.now + Expire(t, write));
    Flip(t, Add(t, s, write, n), write);
  }

  lemma FrontOk(t: Tunables, s: Data, write: bool, id: nat, sector: nat, nsect: nat)
    requires Inv(t, s) && InFifo(Of(s, write).fifo, id)
    ensures Inv(t, FrontMerged(s, write, id, sector, nsect))
    ensures InFifo(Of(FrontMerged(s, write, id, sector, nsect), write).fifo, id)
  {
    hide InTree, InFifo, SortedTree, TreeIds, FifoIds, SortedFifo, AddRb, Drop;
    Flip(t, s, write);
    var side := Of(s, write);
    TreeDrop(side.tree, id);
    var s1 := With(s, write, side.(tree := Drop(side.tree, TreeIndex(side.tree, id))));
    AddRbOk(t, s1, write, Node(id, sector, nsect));
    Flip(t, FrontMerged(s, write, id, sector, nsect), write);
  }

  lemma BackOk(t: Tunables, s: Data, write: bool, id: nat, nsect: nat)
    requires Inv(t, s)
    ensures Inv(t, BackMerged(s, write, id, nsect)) && Of(BackMerged(s, write, id, nsect), true).fifo == s.write.fifo
  {
    hide InTree, InFifo, FifoIds, SortedFifo, SortedTree, TreeIds;
    Flip(t, s, write);
    var tree := Of(s, write).tree;
    var i := TreeIndex(tree, id);
    if i < |tree| { SetLength(tree, i, nsect); }
    Flip(t, BackMerged(s, write, id, nsect), write);
  }

  lemma AbsorbOk(t: Tunables, s: Data, write: bool, req: nat, next: nat)
    requires Inv(t, s) && InFifo(Of(s, write).fifo, req) && InFifo(Of(s, write).fifo, next) && req != next
    ensures Inv(t, Merged(s, write, req, next))
    ensures Of(Merged(s, write, req, next), write).fifo
      == Drop(Overtaken(Of(s, write).fifo, req, next), FifoIndex(Overtaken(Of(s, write).fifo, req, next), next))
  {
    hide InTree, InFifo, SortedTree, TreeIds, FifoIds, SortedFifo, Drop, InsertAt;
    Flip(t, s, write);
    var side := Of(s, write);
    var bound := s.now + Expire(t, write);
    OvertakenOk(side.fifo, req, next, bound);
    RemoveOk(side.(fifo := Overtaken(side.fifo, req, next)), next, bound, None);
    Flip(t, Merged(s, write, req, next), write);
  }

  lemma TickOk(t: Tunables, s: Data, now: nat)
    requires Inv(t, s) && s.now <= now
    ensures Inv(t, s.(now := now))
  {
    hide InTree, InFifo, SortedTree, TreeIds, FifoIds;
  }

  /** What a dispatch call takes and from which direction. */
  lemma PickOk(t: Tunables, s: Data, write: bool)
    requires Inv(t, s) && Of(s, write).fifo != []
    ensures Pick(s, write).Some? && InTree(Of(s, write).tree, Pick(s, write).value)
  {
    hide SortedTree, TreeIds, FifoIds, SortedFifo;
    var f := Of(s, write).fifo;
    assert InFifo(f, f[0].id);
  }

  lemma ServeOk(t: Tunables, s: Data)
    requires Inv(t, s)
    ensures Inv(t, Dispatch(t, s).0)
    ensures Dispatch(t, s).1 <==> s.read.fifo != [] || s.write.fifo != []
    ensures !Dispatch(t, s).1 ==> Dispatch(t, s).0 == s
    ensures Dispatch(t, s).1 ==> exists write: bool, id: nat ::
      InFifo(Of(s, write).fifo, id) && Dispatch(t, s).0.out == s.out + [id]
      && Of(Dispatch(t, s).0, write).fifo == Drop(Of(s, write).fifo, FifoIndex(Of(s, write).fifo, id))
      && Of(Dispatch(t, s).0, !write).fifo == Of(s, !write).fifo
  {
    hide InTree, SortedTree, TreeIds, FifoIds, SortedFifo, Move, Pick, Drop;
    var write := s.write.next.Some?;
    var rq := if write then s.write.next else s.read.next;
    if rq.Some? && s.batching < t.fifoBatch {
      ServeMove(t, s, s.(batching := s.batching + 1), write, rq.value);
    } else if s.read.fifo != [] {
      if s.write.fifo != [] && s.starved >= t.writesStarved {
        PickOk(t, s, true);
        ServeMove(t, s, s.(starved := 0, batching := 1), true, Pick(s, true).value);
      } else {
        PickOk(t, s, false);
        ServeMove(t, s, s.(starved := if s.write.fifo != [] then s.starved + 1 else s.starved, batching := 1), false,
                  Pick(s, false).value);
      }
    } else if s.write.fifo != [] {
      PickOk(t, s, true);
      ServeMove(t, s, s.(starved := 0, batching := 1), true, Pick(s, true).value);
    }
  }

  lemma ServeMove(t: Tunables, s: Data, s1: Data, write: bool, id: nat)
    requires Inv(t, s) && InTree(Of(s, write).tree, id)
    requires s1 == s.(starved := s1.starved, batching := s1.batching) && s1.starved <= t.writesStarved
    ensures Inv(t, Move(s1, write, id)) && Moved(s1, Move(s1, write, id), write, id) && InFifo(Of(s, write).fifo, id)
  {
    hide InTree, InFifo, SortedTree, TreeIds, FifoIds, SortedFifo, Move, Drop;
    Flip(t, s1, write);
    MoveOk(t, s1, write, id, None);
    Flip(t, Move(s1, write, id), write);
  }

  /** Every operation keeps the two views of each direction in agreement. */
  lemma StepKeepsInv(t: Tunables, s: Data, l: Step)
    requires Inv(t, s) && Enabled(s, l)
    ensures Inv(t, Next(t, s, l))
  {
    hide InTree, InFifo, SideBut, Add, FrontMerged, BackMerged, Merged, Dispatch;
    match l
    case Arrive(write, n) => ArriveOk(t, s, write, n);
    case Tick(now) => TickOk(t, s, now);
    case Front(write, id, sector, nsect) => FrontOk(t, s, write, id, sector, nsect);
    case Back(write, id, nsect) => BackOk(t, s, write, id, nsect);
    case Absorb(write, req, next) => AbsorbOk(t, s, write, req, next);
    case Serve => ServeOk(t, s);
  }
}
