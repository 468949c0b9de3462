/** When the sweep of the deadline scheduler really goes on with the lowest request queued
    beyond the one last dispatched, and when it does not. */
module DeadlineSweep {
  import opened Optional
  import opened SortList
  import opened Deadline
  import opened DeadlineInvariant
  import opened DeadlineOrder
  import opened Expiry

  ghost predicate NoneBeyond(tree: seq<Node>, last: nat) { forall x: Node :: x in tree ==> x.sector <= last }

  ghost predicate LowestBeyond(tree: seq<Node>, last: nat, m: nat) {
    exists x: Node :: x in tree && x.id == m && last < x.sector
                      && forall y: Node :: y in tree && last < y.sector ==> x.sector <= y.sector
  }

  /** A sweep over everything that is queued takes m. */
  ghost predicate FullSweep(tree: seq<Node>, last: nat, head: nat, m: nat) {
    if NoneBeyond(tree, last) then m == head else LowestBeyond(tree, last, m)
  }

  /** x has arrived, or its start has moved, since the last dispatch. */
  ghost predicate CameSince(h: View, x: Node) { forall y: Node :: y in h.seen ==> y.id != x.id || y.sector != x.sector }

  /** A front merge moves the start of a request down. */
  ghost predicate NoneMovedUp(h: View, tree: seq<Node>) {
    forall x: Node, y: Node :: x in tree && y in h.seen && x.id == y.id ==> x.sector <= y.sector
  }

  /** Nothing that came since the last dispatch starts between the request last dispatched
      and m, and m itself has not moved back over that request. */
  ghost predicate NothingOverlooked(h: View, tree: seq<Node>, head: nat, m: nat) {
    && (forall x: Node :: x in tree && CameSince(h, x) && h.last < x.sector ==> h.last < SectorOf(tree, m) <= x.sector)
    && (LowestAhead(h, tree, m) ==> h.last < SectorOf(tree, m) || (NoneBeyond(tree, h.last) && m == head))
  }

  lemma SectorIs(tree: seq<Node>, x: Node)
    requires TreeIds(tree) && x in tree
    ensures SectorOf(tree, x.id) == x.sector && InTree(tree, x.id)
  {
    var i :| 0 <= i < |tree| && tree[i] == x;
    TreeIndexIs(tree, x.id, i);
  }

  lemma NodeOf(tree: seq<Node>, id: nat) returns (x: Node)
    requires InTree(tree, id)
    ensures x in tree && x.id == id && x.sector == SectorOf(tree, id)
  {
    InTreeIndex(tree, id);
    x := tree[TreeIndex(tree, id)];
  }

  /** What the scheduler takes is what a sweep over everything queued takes, exactly if
      nothing that came since is overlooked. */
  lemma SweepExactly(h: View, tree: seq<Node>, head: nat, m: nat)
    requires TreeIds(tree) && NoneMovedUp(h, tree) && InTree(tree, m)
    requires if NoneAhead(h, tree) then m == head else LowestAhead(h, tree, m)
    ensures FullSweep(tree, h.last, head, m) <==> NothingOverlooked(h, tree, head, m)
  {
    hide InTree, TreeIds, SectorOf;
    var z := NodeOf(tree, m);
    if FullSweep(tree, h.last, head, m) && !NoneBeyond(tree, h.last) { LowestIs(tree, h.last, m); }
    if NothingOverlooked(h, tree, head, m) && !NoneBeyond(tree, h.last) {
      forall x: Node | x in tree && h.last < x.sector ensures h.last < z.sector <= x.sector {
        if !CameSince(h, x) { SeenIsAhead(h, tree, m, x); }
      }
      assert LowestBeyond(tree, h.last, m);
    }
  }

  lemma LowestIs(tree: seq<Node>, last: nat, m: nat)
    requires TreeIds(tree) && LowestBeyond(tree, last, m)
    ensures last < SectorOf(tree, m) && forall y: Node :: y in tree && last < y.sector ==> SectorOf(tree, m) <= y.sector
  {
    hide TreeIds, SectorOf;
    var x: Node :| x in tree && x.id == m && last < x.sector
                   && forall y: Node :: y in tree && last < y.sector ==> x.sector <= y.sector;
    SectorIs(tree, x);
  }

  lemma SeenIsAhead(h: View, tree: seq<Node>, m: nat, x: Node)
    requires TreeIds(tree) && NoneMovedUp(h, tree) && InTree(tree, m) && x in tree && h.last < x.sector && !CameSince(h, x)
    ensures !NoneAhead(h, tree)
    ensures LowestAhead(h, tree, m) ==> SectorOf(tree, m) <= x.sector
  {
    var y: Node :| y in h.seen && y.id == x.id && y.sector == x.sector;
    SectorIs(tree, x);
    assert Ahead(h, tree, y);
    var z := NodeOf(tree, m);
    if LowestAhead(h, tree, m) {
      var w: Node :| Ahead(h, tree, w) && w.id == m && forall v: Node :: Ahead(h, tree, v) ==> w.sector <= v.sector;
      assert z.sector <= w.sector;
    }
  }

  // ----- in every run with front merges as the block layer makes them -----

  predicate MovesDown(s: Data, l: Step) { l.Front? ==> l.sector <= SectorOf(Of(s, l.write).tree, l.id) }

  ghost predicate AllDown(s: Data, h: View) { h.dir.Some? ==> NoneMovedUp(h, Of(s, h.dir.value).tree) }

  lemma LookedDown(s: Data, s': Data, d: bool, id: nat)
    requires TreeIds(Of(s', d).tree)
    ensures AllDown(s', LookAgain(s, s', d, id))
  {
    var tree := Of(s', d).tree;
    forall x: Node, y: Node | x in tree && y in tree && x.id == y.id ensures x.sector <= y.sector {
      SectorIs(tree, x);
      SectorIs(tree, y);
    }
  }

  /** Every request of the tree is one of before, or has moved down, or is new. */
  lemma StillDown(s: Data, h: View, s': Data, h': View)
    requires AllDown(s, h) && h'.dir == h.dir
    requires h.dir.Some? ==>
      forall x: Node, y: Node :: x in Of(s', h.dir.value).tree && y in h'.seen && x.id == y.id ==>
        y in h.seen && exists z: Node :: z in Of(s, h.dir.value).tree && z.id == x.id && x.sector <= z.sector
    ensures AllDown(s', h')
  {
    if h.dir.Some? {
      var tree, tree' := Of(s, h.dir.value).tree, Of(s', h.dir.value).tree;
      forall x: Node, y: Node | x in tree' && y in h'.seen && x.id == y.id ensures x.sector <= y.sector {
        var z: Node :| z in tree && z.id == x.id && x.sector <= z.sector;
      }
    }
  }

  lemma OneOfInsert(tree: seq<Node>, i: nat, n: Node)
    requires i <= |tree|
    ensures forall x: Node :: x in InsertAt(tree, i, n) ==> x in tree || x == n
  {}

  lemma OneOfDrop(tree: seq<Node>, i: nat)
    ensures forall x: Node :: x in Drop(tree, i) ==> x in tree
  {}

  lemma StepDown(t: Tunables, s: Data, l: Step, h: View)
    requires Inv(t, s) && Enabled(s, l) && Named(s, h) && AllDown(s, h) && MovesDown(s, l)
    ensures AllDown(Next(t, s, l), NextView(t, s, l, h))
  {
    hide Inv, Named, AllDown, Add, FrontMerged, BackMerged, Merged, Dispatch, LookAgain, InFifo, LowestAhead;
    var s' := Next(t, s, l);
    StepKeepsInv(t, s, l);
    Trees(t, s', false);
    Trees(t, s', true);
    hide SortedTree, TreeIds, FifoIds;
    if |s.out| < |s'.out| {
      var m := s'.out[|s.out|];
      LookedDown(s, s', InFifo(s.write.fifo, m), m);
    } else {
      NamedSorted(s, h);
      match l
      case Arrive(write, n) => ArriveDown(t, s, h, write, n);
      case Tick(now) => TickDown(s, h, now);
      case Front(write, id, sector, nsect) => FrontDown(t, s, h, write, id, sector, nsect);
      case Back(write, id, nsect) => BackDown(s, h, write, id, nsect);
      case Absorb(write, req, next) =>
        LookedDown(s, s', write, next);
        AbsorbDown(s, h, write, req, next);
      case Serve => ServeDown(t, s, h);
    }
  }

  lemma TickDown(s: Data, h: View, now: nat)
    requires AllDown(s, h)
    ensures AllDown(s.(now := now), h)
  {
    hide NoneMovedUp;
  }

  lemma ServeDown(t: Tunables, s: Data, h: View)
    requires Inv(t, s) && Named(s, h) && AllDown(s, h) && |Dispatch(t, s).0.out| <= |s.out|
    ensures AllDown(Dispatch(t, s).0, h)
  {
    hide Inv, Named, AllDown, Dispatch, LookAgain;
    ServeTakes(t, s, h);
  }

  lemma NodeIsThere(tree: seq<Node>)
    ensures forall x: Node :: x in tree ==> exists z: Node :: z in tree && z.id == x.id && x.sector <= z.sector
  {}

  lemma ArriveDown(t: Tunables, s: Data, h: View, d: bool, n: Node)
    requires AllDown(s, h) && SortedTree(h.seen) && TreeIds(h.seen) && |Add(t, s, d, n).out| <= |s.out|
    ensures AllDown(Add(t, s, d, n), h.(seen := Drop(h.seen, TreeIndex(h.seen, n.id))))
  {
    hide AllDown, SortedTree, TreeIds, Drop, Place, InsertAt, Latter;
    SeenWithout(h, n.id);
    var tree := Of(s, d).tree;
    OneOfInsert(tree, Place(tree, n.sector), n);
    NodeIsThere(s.read.tree);
    NodeIsThere(s.write.tree);
    StillDown(s, h, Add(t, s, d, n), h.(seen := Drop(h.seen, TreeIndex(h.seen, n.id))));
  }

  lemma MovedThere(tree: seq<Node>, i: nat, p: nat, was: Node, n: Node)
    requires p <= |Drop(tree, i)| && was in tree && was.id == n.id && n.sector <= was.sector
    ensures forall x: Node :: x in InsertAt(Drop(tree, i), p, n) ==>
      exists z: Node :: z in tree && z.id == x.id && x.sector <= z.sector
  {
    hide Drop, InsertAt;
    OneOfDrop(tree, i);
    OneOfInsert(Drop(tree, i), p, n);
    NodeIsThere(tree);
  }

  lemma FrontTree(s: Data, d: bool, id: nat, sector: nat, nsect: nat)
    requires |FrontMerged(s, d, id, sector, nsect).out| <= |s.out|
    ensures var tree0 := Drop(Of(s, d).tree, TreeIndex(Of(s, d).tree, id)); var s' := FrontMerged(s, d, id, sector, nsect);
      Of(s', d).tree == InsertAt(tree0, Place(tree0, sector), Node(id, sector, nsect)) && Of(s', !d).tree == Of(s, !d).tree
  {
    hide Drop, InsertAt, Place, Latter, Alias;
  }

  lemma FrontDown(t: Tunables, s: Data, h: View, d: bool, id: nat, sector: nat, nsect: nat)
    requires Inv(t, s) && InFifo(Of(s, d).fifo, id)
    requires AllDown(s, h) && sector <= SectorOf(Of(s, d).tree, id) && |FrontMerged(s, d, id, sector, nsect).out| <= |s.out|
    ensures AllDown(FrontMerged(s, d, id, sector, nsect), h)
  {
    Trees(t, s, d);
    hide Inv, InFifo, AllDown, SortedTree, TreeIds, FifoIds, Drop, Place, InsertAt, InTree, SectorOf, FrontMerged;
    var tree := Of(s, d).tree;
    var was := NodeOf(tree, id);
    FrontTree(s, d, id, sector, nsect);
    MovedThere(tree, TreeIndex(tree, id), Place(Drop(tree, TreeIndex(tree, id)), sector), was, Node(id, sector, nsect));
    NodeIsThere(Of(s, !d).tree);
    StillDown(s, h, FrontMerged(s, d, id, sector, nsect), h);
  }

  lemma BackDown(s: Data, h: View, d: bool, id: nat, nsect: nat)
    requires AllDown(s, h)
    ensures AllDown(BackMerged(s, d, id, nsect), h)
  {
    hide AllDown;
    var s' := BackMerged(s, d, id, nsect);
    forall e: bool, x: Node | x in Of(s', e).tree
      ensures exists z: Node :: z in Of(s, e).tree && z.id == x.id && x.sector <= z.sector
    {
      var k :| 0 <= k < |Of(s', e).tree| && Of(s', e).tree[k] == x;
      assert Of(s, e).tree[k].id == x.id;
    }
    StillDown(s, h, s', h);
  }

  lemma AbsorbDown(s: Data, h: View, d: bool, req: nat, next: nat)
    requires AllDown(s, h)
    ensures AllDown(Merged(s, d, req, next), h)
  {
    hide AllDown, Drop, Latter, Overtaken;
    OneOfDrop(Of(s, d).tree, TreeIndex(Of(s, d).tree, next));
    NodeIsThere(s.read.tree);
    NodeIsThere(s.write.tree);
    StillDown(s, h, Merged(s, d, req, next), h);
  }

  /** A run in which front merges move starts down, as ll_front_merge does. */
  ghost predicate Real(t: Tunables, s: Data, ls: seq<Step>)
    decreases |ls|
  {
    ls != [] ==> MovesDown(s, ls[0]) && Real(t, Next(t, s, ls[0]), ls[1..])
  }

  lemma {:induction false} RealDown(t: Tunables, s: Data, p: Past, ls: seq<Step>, s': Data, p': Past)
    requires PastOk(t, s, p) && Watched(t, s, p, ls, s', p') && AllDown(s, p.view) && Real(t, s, ls)
    ensures AllDown(s', p'.view)
    decreases |ls|
  {
    hide Inv, Named, DuesOk, Enabled, Next, NextView, NextDues, AllDown, MovesDown;
    if ls != [] {
      StepKeepsInv(t, s, ls[0]);
      StepNamed(t, s, ls[0], p.view);
      StepDues(t, s, ls[0], p.dues);
      StepDown(t, s, ls[0], p.view);
      RealDown(t, Next(t, s, ls[0]), Remember(t, s, ls[0], p), ls[1..], s', p');
    }
  }

  /** Over every such run: a call that takes a request in the direction of the sweep, without
      an expired head, takes what a sweep over everything queued would take, exactly if
      nothing that came since is overlooked. */
  lemma SweptExactly(t: Tunables, ls: seq<Step>, s: Data, p: Past, d: bool, m: nat)
    requires Watched(t, INITIAL, NOTHING, ls, s, p) && Real(t, INITIAL, ls)
    requires Takes(t, s, p.view, Dispatch(t, s).0, d, m) && On(p.view, d)
    requires Of(s, d).fifo != [] && s.now <= Of(s, d).fifo[0].expiry
    ensures var tree, head := Of(s, d).tree, Of(s, d).fifo[0].id;
      FullSweep(tree, p.view.last, head, m) <==> NothingOverlooked(p.view, tree, head, m)
  {
    hide Inv, Named, DuesOk, Watched, Dispatch, FullSweep, NothingOverlooked, Real, LowestAhead, InFifo;
    NothingOk(t);
    WatchedOk(t, INITIAL, NOTHING, ls, s, p);
    RealDown(t, INITIAL, NOTHING, ls, s, p);
    Trees(t, s, d);
    var tree := Of(s, d).tree;
    if !NoneAhead(p.view, tree) { assert LowestAhead(p.view, tree, m); }
    SweepExactly(p.view, tree, Of(s, d).fifo[0].id, m);
  }

  // ----- a late arrival that is passed over -----

  const N1: Node := Node(1, 100, 8)
  const N2: Node := Node(2, 200, 8)
  const N3: Node := Node(3, 300, 8)
  const N4: Node := Node(4, 50, 8)

  function Reads(t: Tunables, tree: seq<Node>, ids: seq<nat>): Data {
    INITIAL.(read := Side(tree, seq(|ids|, i requires 0 <= i < |ids| => Entry(ids[i], t.readExpire)), None))
  }

  function Begun(t: Tunables, tree: seq<Node>, ids: seq<nat>): Data {
    var s := Reads(t, tree, ids);
    s.(read := s.read.(next := Some(3)), batching := 1, last := 108, out := [1])
  }

  lemma AddLast(t: Tunables, s: Data, n: Node, p: nat)
    requires Place(s.read.tree, n.sector) == p && (p < |s.read.tree| ==> s.read.tree[p].sector != n.sector)
    ensures Next(t, s, Arrive(false, n)) ==
      s.(read := Side(InsertAt(s.read.tree, p, n), s.read.fifo + [Entry(n.id, s.now + t.readExpire)], s.read.next))
  {
    hide Place, InsertAt;
  }

  lemma FirstArrives(t: Tunables)
    ensures Next(t, INITIAL, Arrive(false, N1)) == Reads(t, [N1], [1]) && Enabled(INITIAL, Arrive(false, N1))
  {
    AddLast(t, INITIAL, N1, 0);
  }

  lemma SecondArrives(t: Tunables)
    ensures Next(t, Reads(t, [N1], [1]), Arrive(false, N4)) == Reads(t, [N4, N1], [1, 4])
    ensures Enabled(Reads(t, [N1], [1]), Arrive(false, N4))
  {
    AddLast(t, Reads(t, [N1], [1]), N4, 0);
  }

  lemma ThirdArrives(t: Tunables)
    ensures Next(t, Reads(t, [N4, N1], [1, 4]), Arrive(false, N3)) == Reads(t, [N4, N1, N3], [1, 4, 3])
    ensures Enabled(Reads(t, [N4, N1], [1, 4]), Arrive(false, N3))
  {
    assert [N4, N1][1..] == [N1] && [N1][1..] == [];
    assert Place([N1], 300) == 1;
    AddLast(t, Reads(t, [N4, N1], [1, 4]), N3, 2);
    assert InsertAt([N4, N1], 2, N3) == [N4, N1, N3];
  }

  lemma FirstServed(t: Tunables)
    ensures Next(t, Reads(t, [N4, N1, N3], [1, 4, 3]), Serve) == Begun(t, [N4, N3], [4, 3])
    ensures SectorOf([N4, N1, N3], 1) == 100
  {
    var tree := [N4, N1, N3];
    assert tree[1..] == [N1, N3];
    assert TreeIndex(tree, 1) == 1;
    assert Drop(tree, 1) == [N4, N3];
    var f := Reads(t, tree, [1, 4, 3]).read.fifo;
    assert FifoIndex(f, 1) == 0 && Drop(f, 0) == Begun(t, [N4, N3], [4, 3]).read.fifo;
  }

  lemma LateArrives(t: Tunables)
    ensures Next(t, Begun(t, [N4, N3], [4, 3]), Arrive(false, N2)) == Begun(t, [N4, N2, N3], [4, 3, 2])
    ensures Enabled(Begun(t, [N4, N3], [4, 3]), Arrive(false, N2))
  {
    assert [N4, N3][1..] == [N3];
    AddLast(t, Begun(t, [N4, N3], [4, 3]), N2, 1);
    assert InsertAt([N4, N3], 1, N2) == [N4, N2, N3];
  }

  lemma {:induction false} ThenWatched(t: Tunables, s: Data, p: Past, ls: seq<Step>, s': Data, p': Past, l: Step)
    requires Watched(t, s, p, ls, s', p') && Real(t, s, ls) && Enabled(s', l) && MovesDown(s', l)
    ensures Watched(t, s, p, ls + [l], Next(t, s', l), Remember(t, s', l, p')) && Real(t, s, ls + [l])
    decreases |ls|
  {
    hide Enabled, Next, MovesDown, Remember;
    if ls == [] {
      assert [l][1..] == [] && [] + [l] == [l];
    } else {
      ThenWatched(t, Next(t, s, ls[0]), Remember(t, s, ls[0], p), ls[1..], s', p', l);
      assert (ls + [l])[1..] == ls[1..] + [l];
    }
  }

  /** With any tunables a call may pass over a request: read 2 arrives in front of read 3,
      which is next already, and read 3 is taken. */
  lemma LateArrivalPassedOver(t: Tunables)
    ensures exists ls: seq<Step>, s: Data, p: Past ::
      Watched(t, INITIAL, NOTHING, ls, s, p) && Real(t, INITIAL, ls) && On(p.view, false)
      && Dispatch(t, s).0.out == s.out + [3] && LowestBeyond(s.read.tree, p.view.last, 2)
  {
    LateServed(t);
    hide Watched, Real, Dispatch, Begun, LowestBeyond;
    var ls, p := RunToLate(t);
  }

  lemma LateServed(t: Tunables)
    ensures var s := Begun(t, [N4, N2, N3], [4, 3, 2]);
      Dispatch(t, s).0.out == s.out + [3] && LowestBeyond(s.read.tree, 100, 2)
  {
    hide Drop, TreeIndex, FifoIndex, Latter;
    var s := Begun(t, [N4, N2, N3], [4, 3, 2]);
    assert s.read.tree[1] == N2;
  }

  lemma RunToLate(t: Tunables) returns (ls: seq<Step>, p: Past)
    ensures Watched(t, INITIAL, NOTHING, ls, Begun(t, [N4, N2, N3], [4, 3, 2]), p) && Real(t, INITIAL, ls)
    ensures p.view.last == 100 && On(p.view, false)
  {
    FirstArrives(t);
    SecondArrives(t);
    ThirdArrives(t);
    FirstServed(t);
    LateArrives(t);
    var a, b, c := Arrive(false, N1), Arrive(false, N4), Arrive(false, N3);
    assert Watched(t, INITIAL, NOTHING, [], INITIAL, NOTHING) && Real(t, INITIAL, []);
    var s3, s4 := Reads(t, [N4, N1, N3], [1, 4, 3]), Begun(t, [N4, N3], [4, 3]);
    var p1 := Remember(t, INITIAL, a, NOTHING);
    var p2 := Remember(t, Reads(t, [N1], [1]), b, p1);
    var p3 := Remember(t, Reads(t, [N4, N1], [1, 4]), c, p2);
    var p4 := Remember(t, s3, Serve, p3);
    assert p4.view.last == 100 && On(p4.view, false) by { assert s4.out[0] == 1; NotWritten(s3); }
    p := Remember(t, s4, Arrive(false, N2), p4);
    assert p.view.last == 100 && On(p.view, false) by { LateView(t, p4.view); }
    hide Next, Remember, Enabled, Watched, Real, Reads, Begun;
    ThenWatched(t, INITIAL, NOTHING, [], INITIAL, NOTHING, a);
    ls := [] + [a];
    ThenWatched(t, INITIAL, NOTHING, ls, Reads(t, [N1], [1]), p1, b);
    ls := ls + [b];
    ThenWatched(t, INITIAL, NOTHING, ls, Reads(t, [N4, N1], [1, 4]), p2, c);
    ls := ls + [c];
    ServeEnabled(s3);
    ThenWatched(t, INITIAL, NOTHING, ls, s3, p3, Serve);
    ls := ls + [Serve];
    ThenWatched(t, INITIAL, NOTHING, ls, s4, p4, Arrive(false, N2));
    ls := ls + [Arrive(false, N2)];
  }

  lemma NotWritten(s: Data)
    requires s.write.fifo == []
    ensures !InFifo(s.write.fifo, 1)
  {}

  lemma ServeEnabled(s: Data)
    ensures Enabled(s, Serve)
  {}

  lemma LateView(t: Tunables, h: View)
    ensures var h' := NextView(t, Begun(t, [N4, N3], [4, 3]), Arrive(false, N2), h); h'.last == h.last && h'.dir == h.dir
  {
    LateArrives(t);
  }
}
