/** In which order the deadline scheduler serves requests, and when they expire, in terms
    of what has arrived, has been merged and has been dispatched. */
module DeadlineOrder {
  import opened Optional
  import opened SortList
  import opened Deadline
  import opened DeadlineInvariant
  import opened Expiry

  /** What is known of the sweep in progress: its direction, the sector of the request last
      dispatched, and the requests of the direction that were queued then. */
  datatype View = View(dir: Option<bool>, last: nat, seen: seq<Node>)

  const NO_VIEW: View := View(None, 0, [])

  predicate On(h: View, d: bool) { h.dir == Some(d) }

  /** x was seen beyond the request last dispatched and is still queued. */
  ghost predicate Ahead(h: View, tree: seq<Node>, x: Node) { x in h.seen && h.last < x.sector && InTree(tree, x.id) }

  ghost predicate NoneAhead(h: View, tree: seq<Node>) { forall x: Node :: !Ahead(h, tree, x) }

  /** id is the lowest of these. */
  ghost predicate LowestAhead(h: View, tree: seq<Node>, id: nat) {
    exists x: Node :: Ahead(h, tree, x) && x.id == id && forall y: Node :: Ahead(h, tree, y) ==> x.sector <= y.sector
  }

  ghost predicate NamedIn(h: View, d: bool, side: Side) {
    && (side.next == None ==> On(h, d) ==> NoneAhead(h, side.tree))
    && (side.next.Some? ==> On(h, d) && LowestAhead(h, side.tree, side.next.value))
  }

  /** The scheduler's next request is the lowest one ahead in the sweep. */
  ghost predicate Named(s: Data, h: View) {
    SortedTree(h.seen) && TreeIds(h.seen) && NamedIn(h, false, s.read) && NamedIn(h, true, s.write)
  }

  function SectorOf(tree: seq<Node>, id: nat): nat {
    var i := TreeIndex(tree, id);
    if i < |tree| then tree[i].sector else 0
  }

  /** Request id of direction d has left, and the others are looked at again. */
  function LookAgain(s: Data, s': Data, d: bool, id: nat): View { View(Some(d), SectorOf(Of(s, d).tree, id), Of(s', d).tree) }

  /** How the view changes with a step: by a dispatch, by the absorption of the next request,
      and not by a request that comes later. */
  ghost function NextView(t: Tunables, s: Data, l: Step, h: View): View {
    var s' := Next(t, s, l);
    if |s.out| < |s'.out| then
      var m := s'.out[|s.out|];
      LookAgain(s, s', InFifo(s.write.fifo, m), m)
    else
      match l
      case Arrive(write, n) => h.(seen := Drop(h.seen, TreeIndex(h.seen, n.id)))
      case Absorb(write, req, next) =>
        if On(h, write) && LowestAhead(h, Of(s, write).tree, next) then LookAgain(s, s', write, next) else h
      case _ => h
  }

  // ----- after a dispatch -----

  ghost predicate SameAbove(tree: seq<Node>, tree': seq<Node>, last: nat) {
    forall x: Node :: last < x.sector ==> (x in tree <==> x in tree')
  }

  lemma HigherIsBehind(tree: seq<Node>, i: nat, y: Node)
    requires SortedTree(tree) && i < |tree| && y in tree && tree[i].sector < y.sector
    ensures i + 1 < |tree| && tree[i + 1].sector <= y.sector
  {
    var k :| 0 <= k < |tree| && tree[k] == y;
  }

  lemma LatterIsLowest(tree: seq<Node>, id: nat, tree': seq<Node>, d: bool)
    requires SortedTree(tree) && InTree(tree, id) && SameAbove(tree, tree', SectorOf(tree, id))
    ensures var h := View(Some(d), SectorOf(tree, id), tree');
      (Latter(tree, id) == None ==> NoneAhead(h, tree'))
      && (Latter(tree, id).Some? ==> LowestAhead(h, tree', Latter(tree, id).value))
  {
    var i := TreeIndex(tree, id);
    var h := View(Some(d), SectorOf(tree, id), tree');
    if i + 1 < |tree| { assert tree[i].sector < tree[i + 1].sector; }
    hide SortedTree, InTree;
    forall y: Node | Ahead(h, tree', y) ensures i + 1 < |tree| && tree[i + 1].sector <= y.sector {
      HigherIsBehind(tree, i, y);
    }
    if i + 1 < |tree| {
      var x := tree[i + 1];
      assert x in tree;
      IdInTree(tree', x);
      assert Ahead(h, tree', x);
    }
  }

  lemma IdInTree(tree: seq<Node>, x: Node)
    requires x in tree
    ensures InTree(tree, x.id)
  {}

  lemma MoveNames(s: Data, s': Data, d: bool, id: nat)
    requires SortedTree(Of(s, d).tree) && InTree(Of(s, d).tree, id)
    requires SortedTree(Of(s', d).tree) && TreeIds(Of(s', d).tree)
    requires SameAbove(Of(s, d).tree, Of(s', d).tree, SectorOf(Of(s, d).tree, id))
    requires Of(s', d).next == Latter(Of(s, d).tree, id) && Of(s', !d).next == None
    ensures Named(s', LookAgain(s, s', d, id))
  {
    hide SortedTree, TreeIds, SameAbove, InTree, Latter, SectorOf, LowestAhead, NoneAhead;
    LatterIsLowest(Of(s, d).tree, id, Of(s', d).tree, d);
  }

  lemma DropKeepsAbove(tree: seq<Node>, id: nat)
    requires SortedTree(tree) && TreeIds(tree) && InTree(tree, id)
    ensures SameAbove(tree, Drop(tree, TreeIndex(tree, id)), SectorOf(tree, id))
  {
    var i := TreeIndex(tree, id);
    assert tree == tree[..i] + [tree[i]] + tree[i + 1..];
  }

  lemma InsertKeepsAbove(tree: seq<Node>, i: nat, n: Node, last: nat)
    requires i <= |tree| && n.sector <= last
    ensures SameAbove(tree, InsertAt(tree, i, n), last)
  {
    assert tree == tree[..i] + tree[i..];
  }

  lemma AboveChains(a: seq<Node>, b: seq<Node>, c: seq<Node>, last: nat)
    requires SameAbove(a, b, last) && SameAbove(b, c, last)
    ensures SameAbove(a, c, last)
  {}

  lemma MoveNext(s: Data, d: bool, id: nat)
    requires SortedTree(Of(s, d).tree) && TreeIds(Of(s, d).tree) && InTree(Of(s, d).tree, id)
    ensures var s' := Move(s, d, id);
      Of(s', d).next == Latter(Of(s, d).tree, id) && Of(s', !d).next == None && s'.out == s.out + [id]
      && Of(s', d).tree == Drop(Of(s, d).tree, TreeIndex(Of(s, d).tree, id)) && Of(s', !d).tree == Of(s, !d).tree
  {
    hide SortedTree, TreeIds, InTree, Drop, Latter;
    if Latter(Of(s, d).tree, id).Some? { LatterOther(Of(s, d).tree, id); }
  }

  lemma LatterOther(tree: seq<Node>, id: nat)
    requires TreeIds(tree) && InTree(tree, id) && Latter(tree, id).Some?
    ensures Latter(tree, id).value != id
  {}

  lemma ServedNamed(t: Tunables, s: Data, s1: Data, d: bool, id: nat)
    requires Inv(t, s) && InTree(Of(s, d).tree, id) && s1 == s.(batching := s1.batching, starved := s1.starved)
    ensures Named(Move(s1, d, id), LookAgain(s, Move(s1, d, id), d, id))
  {
    hide InTree, SectorOf, Latter, Drop, SameAbove, FifoIds, SortedFifo;
    Trees(t, s, d);
    MoveNext(s1, d, id);
    TreeDrop(Of(s, d).tree, id);
    DropKeepsAbove(Of(s, d).tree, id);
    hide Move, SortedTree, TreeIds, Named;
    MoveNames(s, Move(s1, d, id), d, id);
  }

  lemma Trees(t: Tunables, s: Data, d: bool)
    requires Inv(t, s)
    ensures SortedTree(Of(s, d).tree) && TreeIds(Of(s, d).tree) && FifoIds(Of(s, d).fifo)
    ensures forall id: nat :: InTree(Of(s, d).tree, id) <==> InFifo(Of(s, d).fifo, id)
    ensures forall id: nat :: InFifo(Of(s, d).fifo, id) ==> !InFifo(Of(s, !d).fifo, id)
  {
    hide InTree, InFifo, SortedTree, TreeIds, FifoIds, SortedFifo;
  }

  // ----- what a dispatch call takes -----

  /** Which request a call takes when the scheduler goes by what is ahead in the sweep. */
  ghost predicate Takes(t: Tunables, s: Data, h: View, s': Data, d: bool, m: nat) {
    && s'.out == s.out + [m] && InFifo(Of(s, d).fifo, m)
    && if h.dir.Some? && !NoneAhead(h, Of(s, h.dir.value).tree) && s.batching < t.fifoBatch then
         // a batch goes on
         d == h.dir.value && LowestAhead(h, Of(s, d).tree, m) && s'.batching == s.batching + 1 && s'.starved == s.starved
       else
         // a batch starts
         && (d <==> s.read.fifo == [] || (s.write.fifo != [] && t.writesStarved <= s.starved))
         && (if Of(s, d).fifo[0].expiry < s.now || !On(h, d) || NoneAhead(h, Of(s, d).tree) then m == Of(s, d).fifo[0].id
             else LowestAhead(h, Of(s, d).tree, m))
         && s'.batching == 1
         && s'.starved == if d then 0 else if s.write.fifo != [] then s.starved + 1 else s.starved
  }

  lemma NextIsAhead(s: Data, h: View, d: bool)
    requires Named(s, h)
    ensures Of(s, d).next.Some? <==> On(h, d) && !NoneAhead(h, Of(s, d).tree)
    ensures Of(s, d).next.Some? ==> LowestAhead(h, Of(s, d).tree, Of(s, d).next.value)
  {
    hide Ahead, SortedTree, TreeIds;
  }

  lemma HeadInFifo(fifo: seq<Entry>)
    requires fifo != []
    ensures InFifo(fifo, fifo[0].id)
  {}

  lemma TakenInFifo(t: Tunables, s: Data, d: bool)
    requires Inv(t, s) && Of(s, d).next.Some?
    ensures InFifo(Of(s, d).fifo, Of(s, d).next.value)
  {
    hide InTree, InFifo, SortedTree, TreeIds, FifoIds, SortedFifo;
  }

  /** Every dispatch call takes a request by that rule, unless nothing is queued. */
  lemma ServeTakes(t: Tunables, s: Data, h: View)
    requires Inv(t, s) && Named(s, h)
    ensures var (s', ok) := Dispatch(t, s);
      (ok <==> s.read.fifo != [] || s.write.fifo != [])
      && (!ok ==> s' == s)
      && (ok ==> exists d: bool, m: nat :: Takes(t, s, h, s', d, m) && Named(s', LookAgain(s, s', d, m)))
  {
    hide InTree, InFifo, SideBut, Named, NoneAhead, LowestAhead, Move, LookAgain;
    ServeOk(t, s);
    var (s', ok) := Dispatch(t, s);
    if ok {
      var d, m := TakenBy(t, s);
      NextIsAhead(s, h, false);
      NextIsAhead(s, h, true);
      OneNext(t, s);
      assert Takes(t, s, h, s', d, m);
    }
  }

  lemma OneNext(t: Tunables, s: Data)
    requires Inv(t, s)
    ensures s.read.next == None || s.write.next == None
  {
    hide SideBut, InFifo;
  }

  /** The request in terms of the scheduler's own next requests. */
  lemma TakenBy(t: Tunables, s: Data) returns (d: bool, m: nat)
    requires Inv(t, s) && (s.read.fifo != [] || s.write.fifo != [])
    ensures var s' := Dispatch(t, s).0;
      && s'.out == s.out + [m] && InFifo(Of(s, d).fifo, m) && Named(s', LookAgain(s, s', d, m))
      && if (s.write.next.Some? || s.read.next.Some?) && s.batching < t.fifoBatch then
           Of(s, d).next == Some(m) && s'.batching == s.batching + 1 && s'.starved == s.starved
         else
           && (d <==> s.read.fifo == [] || (s.write.fifo != [] && t.writesStarved <= s.starved))
           && (if Of(s, d).fifo[0].expiry < s.now || Of(s, d).next == None then m == Of(s, d).fifo[0].id
               else Of(s, d).next == Some(m))
           && s'.batching == 1
           && s'.starved == if d then 0 else if s.write.fifo != [] then s.starved + 1 else s.starved
  {
    hide InTree, InFifo, SideBut, Named, Move, LookAgain;
    var s1 := s;
    if (s.write.next.Some? || s.read.next.Some?) && s.batching < t.fifoBatch {
      d := s.write.next.Some?;
      m := Of(s, d).next.value;
      s1 := s.(batching := s.batching + 1);
      TakenInFifo(t, s, d);
    } else {
      d := s.read.fifo == [] || (s.write.fifo != [] && s.starved >= t.writesStarved);
      m := Pick(s, d).value;
      s1 := s.(batching := 1, starved := if d then 0 else if s.write.fifo != [] then s.starved + 1 else s.starved);
      HeadInFifo(Of(s, d).fifo);
      if Of(s, d).next.Some? { TakenInFifo(t, s, d); }
    }
    Trees(t, s, d);
    assert Dispatch(t, s).0 == Move(s1, d, m);
    ServedNamed(t, s, s1, d, m);
    MoveFrame(s1, d, m);
  }

  lemma MoveFrame(s: Data, d: bool, id: nat)
    ensures var s' := Move(s, d, id); s'.batching == s.batching && s'.starved == s.starved && s'.out == s.out + [id]
  {}

  // ----- every other step -----

  ghost predicate SameIn(h: View, tree: seq<Node>, h': View, tree': seq<Node>) {
    forall x: Node :: x in h'.seen && InTree(tree', x.id) <==> x in h.seen && InTree(tree, x.id)
  }

  /** Nothing changes for what was seen: the same of it is queued, with the same next request. */
  lemma SameView(s: Data, h: View, s': Data, h': View)
    requires Named(s, h) && h'.dir == h.dir && h'.last == h.last && SortedTree(h'.seen) && TreeIds(h'.seen)
    requires s'.read.next == s.read.next && s'.write.next == s.write.next
    requires SameIn(h, s.read.tree, h', s'.read.tree) && SameIn(h, s.write.tree, h', s'.write.tree)
    ensures Named(s', h')
  {
    hide SortedTree, TreeIds, Ahead, SameIn;
    SameSide(h, false, s.read, h', s'.read);
    SameSide(h, true, s.write, h', s'.write);
  }

  lemma SameSide(h: View, d: bool, side: Side, h': View, side': Side)
    requires NamedIn(h, d, side) && h'.dir == h.dir && side'.next == side.next
    requires SameIn(h, side.tree, h', side'.tree) && h'.last == h.last
    ensures NamedIn(h', d, side')
  {
    hide InTree;
    assert forall x: Node :: Ahead(h', side'.tree, x) <==> Ahead(h, side.tree, x);
    if side.next.Some? {
      var x: Node :| Ahead(h, side.tree, x) && x.id == side.next.value
                     && forall y: Node :: Ahead(h, side.tree, y) ==> x.sector <= y.sector;
      assert Ahead(h', side'.tree, x);
    }
  }

  lemma SeenWithout(h: View, id: nat)
    requires SortedTree(h.seen) && TreeIds(h.seen)
    ensures var seen := Drop(h.seen, TreeIndex(h.seen, id));
      SortedTree(seen) && TreeIds(seen) && forall x: Node :: x in seen <==> x in h.seen && x.id != id
  {
    var i := TreeIndex(h.seen, id);
    NodesWithout(h.seen, id);
    if i < |h.seen| {
      IdInTree(h.seen, h.seen[i]);
      TreeDrop(h.seen, id);
    }
  }

  lemma NodesWithout(tree: seq<Node>, id: nat)
    requires TreeIds(tree)
    ensures forall x: Node :: x in Drop(tree, TreeIndex(tree, id)) <==> x in tree && x.id != id
  {
    var i := TreeIndex(tree, id);
    if i < |tree| {
      forall x: Node ensures x in Drop(tree, i) <==> x in tree && x.id != id { NodeWithout(tree, i, x); }
    }
  }

  lemma NodeWithout(tree: seq<Node>, i: nat, x: Node)
    requires TreeIds(tree) && i < |tree|
    ensures x in Drop(tree, i) <==> x in tree && x.id != tree[i].id
  {
    hide Drop;
    var u := Drop(tree, i);
    DropAt(tree, i);
    if x in tree && x.id != tree[i].id {
      var k :| 0 <= k < |tree| && tree[k] == x;
      assert u[if k < i then k else k - 1] == x;
    }
    if x in u {
      var k :| 0 <= k < |u| && u[k] == x;
    }
  }

  /** A request enters the tree; an alias is dispatched first. */
  lemma EnterNamed(t: Tunables, s: Data, s0: Data, d: bool, n: Node, h: View, a: nat)
    requires Inv(t, s) && Alias(Of(s0, d).tree, n.sector) == Some(a)
    requires s0 == s || (InTree(Of(s, d).tree, n.id)
                         && s0 == With(s, d, Of(s, d).(tree := Drop(Of(s, d).tree, TreeIndex(Of(s, d).tree, n.id)))))
    requires s0 == s ==> !InTree(Of(s, d).tree, n.id)
    ensures InFifo(Of(s, d).fifo, a) && AddRb(s0, d, n).out == s.out + [a]
    ensures forall s': Data :: SameQueues(AddRb(s0, d, n), s') ==> Named(s', LookAgain(s, s', d, a))
  {
    hide InTree, InFifo, SortedTree, TreeIds, FifoIds, SortedFifo, SideBut, Named, LookAgain, SameAbove, SectorOf, Place, InsertAt, Drop;
    Trees(t, s, d);
    var tree, tree0 := Of(s, d).tree, Of(s0, d).tree;
    if s0 != s { TreeDrop(tree, n.id); }
    AliasIs(tree0, n.sector);
    MoveNext(s0, d, a);
    TreeDrop(tree0, a);
    NoAliasAfterMove(tree0, n.sector);
    var tree1 := Of(Move(s0, d, a), d).tree;
    PlaceSorted(tree1, n);
    InsertIds(tree1, Place(tree1, n.sector), n);
    DropKeepsAbove(tree0, a);
    if s0 != s { DropKeepsSector(tree, n.id, a); }
    hide Move, Alias, Latter;
    InsertKeepsAbove(tree1, Place(tree1, n.sector), n, n.sector);
    AboveChains(tree0, tree1, InsertAt(tree1, Place(tree1, n.sector), n), n.sector);
    forall s': Data | SameQueues(AddRb(s0, d, n), s') ensures Named(s', LookAgain(s, s', d, a)) {
      MoveNames(s0, s', d, a);
      LookSame(s, s0, s', d, a);
    }
  }

  lemma LookSame(s: Data, s0: Data, s': Data, d: bool, a: nat)
    requires SectorOf(Of(s0, d).tree, a) == SectorOf(Of(s, d).tree, a)
    ensures LookAgain(s0, s', d, a) == LookAgain(s, s', d, a)
  {}

  ghost predicate SameQueues(s: Data, s': Data) {
    s'.read.tree == s.read.tree && s'.write.tree == s.write.tree && s'.read.next == s.read.next && s'.write.next == s.write.next
  }

  lemma AliasIs(tree: seq<Node>, sector: nat)
    requires TreeIds(tree) && Alias(tree, sector).Some?
    ensures InTree(tree, Alias(tree, sector).value) && SectorOf(tree, Alias(tree, sector).value) == sector
  {
    var i := Place(tree, sector);
    assert TreeIndex(tree, tree[i].id) == i;
  }

  lemma DropKeepsSector(tree: seq<Node>, id: nat, a: nat)
    requires TreeIds(tree) && InTree(tree, id) && InTree(Drop(tree, TreeIndex(tree, id)), a)
    ensures SectorOf(Drop(tree, TreeIndex(tree, id)), a) == SectorOf(tree, a)
  {
    var i := TreeIndex(tree, id);
    DropAt(tree, i);
    InTreeIndex(Drop(tree, i), a);
    hide Drop, InTree, TreeIndex;
    var u := Drop(tree, i);
    var k := TreeIndex(u, a);
    assert tree[if k < i then k else k + 1].id == a;
    TreeIndexIs(tree, a, if k < i then k else k + 1);
  }

  lemma InTreeIndex(tree: seq<Node>, id: nat)
    requires InTree(tree, id)
    ensures TreeIndex(tree, id) < |tree|
  {}

  lemma TreeIndexIs(tree: seq<Node>, id: nat, i: nat)
    requires TreeIds(tree) && i < |tree| && tree[i].id == id
    ensures TreeIndex(tree, id) == i
  {}

  lemma ArriveNamed(t: Tunables, s: Data, h: View, d: bool, n: Node)
    requires Inv(t, s) && Named(s, h) && !Queued(s, n.id)
    ensures Named(Add(t, s, d, n), NextView(t, s, Arrive(d, n), h))
  {
    hide InTree, SortedTree, TreeIds, FifoIds, SortedFifo, Named, LookAgain, Place, InsertAt, Drop, Ahead;
    Trees(t, s, d);
    Trees(t, s, !d);
    var s' := Add(t, s, d, n);
    match Alias(Of(s, d).tree, n.sector)
    case Some(a) =>
      EnterNamed(t, s, s, d, n, h, a);
    case None =>
      var h' := NextView(t, s, Arrive(d, n), h);
      NamedSorted(s, h);
      SeenWithout(h, n.id);
      InsertIds(Of(s, d).tree, Place(Of(s, d).tree, n.sector), n);
      SameView(s, h, s', h');
  }

  lemma NamedSorted(s: Data, h: View)
    requires Named(s, h)
    ensures SortedTree(h.seen) && TreeIds(h.seen)
  {}

  lemma FrontNamed(t: Tunables, s: Data, h: View, d: bool, id: nat, sector: nat, nsect: nat)
    requires Inv(t, s) && Named(s, h) && InFifo(Of(s, d).fifo, id)
    ensures Named(FrontMerged(s, d, id, sector, nsect), NextView(t, s, Front(d, id, sector, nsect), h))
  {
    hide InTree, SortedTree, TreeIds, FifoIds, SortedFifo, Named, LookAgain, Place, InsertAt, Drop, Ahead;
    Trees(t, s, d);
    var tree := Of(s, d).tree;
    var s0 := With(s, d, Of(s, d).(tree := Drop(tree, TreeIndex(tree, id))));
    var n := Node(id, sector, nsect);
    var s' := AddRb(s0, d, n);
    TreeDrop(tree, id);
    match Alias(Of(s0, d).tree, sector)
    case Some(a) =>
      EnterNamed(t, s, s0, d, n, h, a);
    case None =>
      NamedSorted(s, h);
      InsertIds(Of(s0, d).tree, Place(Of(s0, d).tree, sector), n);
      SameView(s, h, s', h);
  }

  lemma BackNamed(t: Tunables, s: Data, h: View, d: bool, id: nat, nsect: nat)
    requires Inv(t, s) && Named(s, h)
    ensures Named(BackMerged(s, d, id, nsect), h)
  {
    hide InTree, SortedTree, TreeIds, FifoIds, SortedFifo, Named, Ahead;
    Trees(t, s, d);
    NamedSorted(s, h);
    var s' := BackMerged(s, d, id, nsect);
    var i := TreeIndex(Of(s, d).tree, id);
    if i < |Of(s, d).tree| { SetLength(Of(s, d).tree, i, nsect); }
    SameView(s, h, s', h);
  }

  lemma FewerAhead(h: View, d: bool, side: Side, side': Side)
    requires NamedIn(h, d, side) && side'.next == side.next
    requires forall id: nat :: InTree(side'.tree, id) ==> InTree(side.tree, id)
    requires side.next.Some? ==> InTree(side'.tree, side.next.value)
    ensures NamedIn(h, d, side')
  {
    hide InTree;
    assert forall y: Node :: Ahead(h, side'.tree, y) ==> Ahead(h, side.tree, y);
    if side.next.Some? {
      var x: Node :| Ahead(h, side.tree, x) && x.id == side.next.value
                     && forall y: Node :: Ahead(h, side.tree, y) ==> x.sector <= y.sector;
      assert Ahead(h, side'.tree, x);
    }
  }

  lemma LowestUnique(h: View, tree: seq<Node>, a: nat, b: nat)
    requires SortedTree(h.seen) && LowestAhead(h, tree, a) && LowestAhead(h, tree, b)
    ensures a == b
  {
    var x: Node :| Ahead(h, tree, x) && x.id == a && forall y: Node :: Ahead(h, tree, y) ==> x.sector <= y.sector;
    var z: Node :| Ahead(h, tree, z) && z.id == b && forall y: Node :: Ahead(h, tree, y) ==> z.sector <= y.sector;
    var i :| 0 <= i < |h.seen| && h.seen[i] == x;
    var j :| 0 <= j < |h.seen| && h.seen[j] == z;
  }

  lemma NextExactly(s: Data, h: View, d: bool, id: nat)
    requires Named(s, h)
    ensures Of(s, d).next == Some(id) <==> On(h, d) && LowestAhead(h, Of(s, d).tree, id)
  {
    NextIsAhead(s, h, d);
    NamedSorted(s, h);
    hide SortedTree, TreeIds, Ahead, Named;
    if On(h, d) && LowestAhead(h, Of(s, d).tree, id) {
      SomeAhead(h, Of(s, d).tree, id);
      LowestUnique(h, Of(s, d).tree, id, Of(s, d).next.value);
    }
  }

  lemma SomeAhead(h: View, tree: seq<Node>, id: nat)
    requires LowestAhead(h, tree, id)
    ensures !NoneAhead(h, tree)
  {}

  lemma AbsorbNamed(t: Tunables, s: Data, h: View, d: bool, req: nat, next: nat)
    requires Inv(t, s) && Named(s, h) && Enabled(s, Absorb(d, req, next))
    ensures Named(Merged(s, d, req, next), NextView(t, s, Absorb(d, req, next), h))
  {
    hide InTree, InFifo, SortedTree, TreeIds, FifoIds, SortedFifo, LowestAhead, NoneAhead, Drop, Overtaken, SectorOf, Latter, SameAbove;
    Trees(t, s, d);
    OneNext(t, s);
    NextExactly(s, h, d, next);
    var tree := Of(s, d).tree;
    var s' := Merged(s, d, req, next);
    TreeDrop(tree, next);
    if Of(s, d).next == Some(next) {
      DropKeepsAbove(tree, next);
      MoveNames(s, s', d, next);
    } else {
      NextQueued(t, s, d);
      FewerAhead(h, d, Of(s, d), Of(s', d));
    }
  }

  lemma NextQueued(t: Tunables, s: Data, d: bool)
    requires Inv(t, s)
    ensures Of(s, d).next.Some? ==> InTree(Of(s, d).tree, Of(s, d).next.value)
  {
    hide InTree, InFifo, SortedTree, TreeIds, FifoIds, SortedFifo;
  }

  lemma ServeNamed(t: Tunables, s: Data, h: View)
    requires Inv(t, s) && Named(s, h)
    ensures Named(Dispatch(t, s).0, NextView(t, s, Serve, h))
  {
    hide InTree, InFifo, SideBut, Named, NoneAhead, LowestAhead, LookAgain, Dispatch;
    ServeTakes(t, s, h);
    var (s', ok) := Dispatch(t, s);
    if ok {
      var d: bool, m: nat :| Takes(t, s, h, s', d, m) && Named(s', LookAgain(s, s', d, m));
      Trees(t, s, d);
    }
  }

  /** The next request is the lowest one ahead: kept by every step. */
  lemma StepNamed(t: Tunables, s: Data, l: Step, h: View)
    requires Inv(t, s) && Enabled(s, l) && Named(s, h)
    ensures Named(Next(t, s, l), NextView(t, s, l, h))
  {
    hide Inv, Named, Add, FrontMerged, Merged, Dispatch, LookAgain, LowestAhead, InFifo;
    match l
    case Arrive(write, n) => ArriveNamed(t, s, h, write, n);
    case Tick(now) => TickNamed(s, h, now);
    case Front(write, id, sector, nsect) => FrontNamed(t, s, h, write, id, sector, nsect);
    case Back(write, id, nsect) => BackNamed(t, s, h, write, id, nsect);
    case Absorb(write, req, next) => AbsorbNamed(t, s, h, write, req, next);
    case Serve => ServeNamed(t, s, h);
  }

  lemma TickNamed(s: Data, h: View, now: nat)
    requires Named(s, h)
    ensures Named(s.(now := now), h)
  {
    hide NoneAhead, LowestAhead, SortedTree, TreeIds;
  }

  // ----- expiry -----

  /** An arrival sets the time, and an absorbed request leaves its own to the other. */
  function NextDues(t: Tunables, s: Data, l: Step, dues: Dues): Dues {
    match l
    case Arrive(write, n) => dues[n.id := {s.now + if write then t.writeExpire else t.readExpire}]
    case Absorb(write, req, next) => if req in dues && next in dues then dues[req := dues[req] + dues[next]] else dues
    case _ => dues
  }

  ghost predicate DuesOk(s: Data, dues: Dues) { AllEarliest(s.read.fifo, dues) && AllEarliest(s.write.fifo, dues) }

  lemma FewerEarliest(fifo: seq<Entry>, fifo': seq<Entry>, dues: Dues)
    requires AllEarliest(fifo, dues) && forall e: Entry :: e in fifo' ==> e in fifo
    ensures AllEarliest(fifo', dues)
  {}

  lemma DropFewer(fifo: seq<Entry>, i: nat)
    ensures forall e: Entry :: e in Drop(fifo, i) ==> e in fifo
  {}

  lemma EnterFifo(s: Data, d: bool, n: Node)
    ensures Of(AddRb(s, d, n), !d).fifo == Of(s, !d).fifo
    ensures forall e: Entry :: e in Of(AddRb(s, d, n), d).fifo ==> e in Of(s, d).fifo
  {
    hide Drop, InsertAt, Place, Latter, Alias;
    var a := Alias(Of(s, d).tree, n.sector);
    if a.Some? { DropFewer(Of(s, d).fifo, FifoIndex(Of(s, d).fifo, a.value)); }
  }

  lemma ArriveDues(t: Tunables, s: Data, d: bool, n: Node, dues: Dues)
    requires DuesOk(s, dues) && !Queued(s, n.id)
    ensures DuesOk(Add(t, s, d, n), NextDues(t, s, Arrive(d, n), dues))
  {
    hide AllEarliest, InFifo, AddRb;
    EnterFifo(s, d, n);
    var s1 := AddRb(s, d, n);
    var due := s.now + if d then t.writeExpire else t.readExpire;
    FewerEarliest(Of(s, d).fifo, Of(s1, d).fifo, dues);
    StillAbsent(Of(s, d).fifo, Of(s1, d).fifo, n.id);
    AddedNow(s, d, n);
    AppendEarliest(Of(s1, d).fifo, n.id, due, dues);
    OthersEarliest(Of(s, !d).fifo, n.id, {due}, dues);
  }

  lemma AddedNow(s: Data, d: bool, n: Node)
    ensures AddRb(s, d, n).now == s.now
  {}

  lemma StillAbsent(fifo: seq<Entry>, fifo': seq<Entry>, id: nat)
    requires !InFifo(fifo, id) && forall e: Entry :: e in fifo' ==> e in fifo
    ensures !InFifo(fifo', id)
  {
    forall i | 0 <= i < |fifo'| ensures fifo'[i].id != id {
      assert fifo'[i] in fifo';
      var k :| 0 <= k < |fifo| && fifo[k] == fifo'[i];
    }
  }

  lemma FrontDues(s: Data, d: bool, id: nat, sector: nat, nsect: nat, dues: Dues)
    requires DuesOk(s, dues)
    ensures DuesOk(FrontMerged(s, d, id, sector, nsect), dues)
  {
    hide AllEarliest, AddRb, Drop;
    var s0 := With(s, d, Of(s, d).(tree := Drop(Of(s, d).tree, TreeIndex(Of(s, d).tree, id))));
    EnterFifo(s0, d, Node(id, sector, nsect));
    FewerEarliest(Of(s, d).fifo, Of(FrontMerged(s, d, id, sector, nsect), d).fifo, dues);
  }

  lemma AbsorbDues(t: Tunables, s: Data, d: bool, req: nat, next: nat, dues: Dues)
    requires Inv(t, s) && DuesOk(s, dues) && Enabled(s, Absorb(d, req, next))
    ensures DuesOk(Merged(s, d, req, next), NextDues(t, s, Absorb(d, req, next), dues))
  {
    hide AllEarliest, InFifo, FifoIds, SortedFifo, SortedTree, TreeIds, InTree, Drop, Overtaken;
    Trees(t, s, d);
    var fifo := Of(s, d).fifo;
    MergeEarliest(fifo, req, next, dues);
    var g := Overtaken(fifo, req, next);
    DropEarliest(g, FifoIndex(g, next), dues[req := dues[req] + dues[next]]);
    OthersEarliest(Of(s, !d).fifo, req, dues[req] + dues[next], dues);
  }

  lemma ServeDues(t: Tunables, s: Data, dues: Dues)
    requires Inv(t, s) && DuesOk(s, dues)
    ensures DuesOk(Dispatch(t, s).0, dues)
  {
    hide AllEarliest, InFifo, SideBut, Dispatch, Drop;
    ServeOk(t, s);
    var (s', ok) := Dispatch(t, s);
    if ok {
      var d: bool, m: nat :| InFifo(Of(s, d).fifo, m) && s'.out == s.out + [m]
        && Of(s', d).fifo == Drop(Of(s, d).fifo, FifoIndex(Of(s, d).fifo, m)) && Of(s', !d).fifo == Of(s, !d).fifo;
      DropEarliest(Of(s, d).fifo, FifoIndex(Of(s, d).fifo, m), dues);
    }
  }

  lemma StepDues(t: Tunables, s: Data, l: Step, dues: Dues)
    requires Inv(t, s) && Enabled(s, l) && DuesOk(s, dues)
    ensures DuesOk(Next(t, s, l), NextDues(t, s, l, dues))
  {
    hide Inv, AllEarliest, Add, FrontMerged, Merged, Dispatch, InFifo;
    match l
    case Arrive(write, n) => ArriveDues(t, s, write, n, dues);
    case Tick(now) =>
    case Front(write, id, sector, nsect) => FrontDues(s, write, id, sector, nsect, dues);
    case Back(write, id, nsect) =>
    case Absorb(write, req, next) => AbsorbDues(t, s, write, req, next, dues);
    case Serve => ServeDues(t, s, dues);
  }

  // ----- over every run -----

  /** What a run has shown so far. */
  datatype Past = Past(view: View, dues: Dues)

  ghost function Remember(t: Tunables, s: Data, l: Step, p: Past): Past {
    Past(NextView(t, s, l, p.view), NextDues(t, s, l, p.dues))
  }

  /** ls leads from s to s', and what is known from p to p'. */
  ghost predicate Watched(t: Tunables, s: Data, p: Past, ls: seq<Step>, s': Data, p': Past)
    decreases |ls|
  {
    if ls == [] then s == s' && p == p'
    else Enabled(s, ls[0]) && Watched(t, Next(t, s, ls[0]), Remember(t, s, ls[0], p), ls[1..], s', p')
  }

  const NOTHING: Past := Past(NO_VIEW, map[])

  ghost predicate PastOk(t: Tunables, s: Data, p: Past) { Inv(t, s) && Named(s, p.view) && DuesOk(s, p.dues) }

  lemma {:induction false} WatchedOk(t: Tunables, s: Data, p: Past, ls: seq<Step>, s': Data, p': Past)
    requires PastOk(t, s, p) && Watched(t, s, p, ls, s', p')
    ensures PastOk(t, s', p')
    decreases |ls|
  {
    hide Inv, Named, DuesOk, Enabled, Next, NextView, NextDues;
    if ls != [] {
      StepKeepsInv(t, s, ls[0]);
      StepNamed(t, s, ls[0], p.view);
      StepDues(t, s, ls[0], p.dues);
      WatchedOk(t, Next(t, s, ls[0]), Remember(t, s, ls[0], p), ls[1..], s', p');
    }
  }

  lemma NothingOk(t: Tunables)
    ensures PastOk(t, INITIAL, NOTHING)
  {}

  /** Over every run from an empty scheduler: a batch goes on with the lowest request ahead in
      the sweep; a new batch is one of reads unless there are none or writes have waited for
      writes_starved batches; it starts with the head of its list if that has expired or
      nothing is ahead in its direction, and with the lowest request ahead otherwise. */
  lemma ServedInOrder(t: Tunables, ls: seq<Step>, s: Data, p: Past)
    requires Watched(t, INITIAL, NOTHING, ls, s, p)
    ensures var (s', ok) := Dispatch(t, s);
      (ok <==> s.read.fifo != [] || s.write.fifo != [])
      && (ok ==> exists d: bool, m: nat :: Takes(t, s, p.view, s', d, m))
  {
    hide Inv, Named, DuesOk, Watched, Dispatch, Takes, LookAgain;
    NothingOk(t);
    WatchedOk(t, INITIAL, NOTHING, ls, s, p);
    ServeTakes(t, s, p.view);
  }

  /** And every queued request expires at the earliest of the times set by its own arrival,
      read_expire or write_expire later, and by those of the requests it has absorbed. */
  lemma ExpiresInTime(t: Tunables, ls: seq<Step>, s: Data, p: Past)
    requires Watched(t, INITIAL, NOTHING, ls, s, p)
    ensures forall e: Entry :: e in s.read.fifo || e in s.write.fifo ==> Earliest(e, p.dues)
  {
    hide Inv, Named, Watched, Earliest;
    NothingOk(t);
    WatchedOk(t, INITIAL, NOTHING, ls, s, p);
  }
}
