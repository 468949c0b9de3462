/** What every operation of the anticipatory scheduler keeps. */
module AsInvariant {
  import opened Optional
  import opened SortList
  import opened AsChoice
  import opened AsIosched

  /** Both views of a direction hold the same requests, except that `out`, if any, is
      not in the tree. */
  ghost predicate SideOk(side: Side, bound: nat, out: Option<nat>) {
    Agree(side.tree, side.fifo, side.next, bound, out)
  }

  ghost predicate Apart(f: seq<Entry>, g: seq<Entry>, inDriver: map<nat, bool>) {
    && (forall id: nat :: InFifo(f, id) ==> !InFifo(g, id))
    && (forall id: nat :: InFifo(f, id) || InFifo(g, id) ==> id !in inDriver)
  }

  /** The wait is for a request in flight, or for the next one of its process. */
  ghost predicate AnticOk(status: Status, ioc: Option<nat>, finished: bool) {
    (status == WaitReq ==> ioc.Some? && !finished) && (status == WaitNext ==> ioc.Some? && finished)
  }

  /** A changed batch waits for something in flight; a new one waits for a read. */
  ghost predicate BatchOk(b: Batch, dispatched: int) {
    (b.changed ==> dispatched > 0) && (b.isNew ==> b.sync && !b.changed) && b.writeMax > 0
  }

  ghost predicate CountOk(b: Batch, dispatched: int, inDriver: map<nat, bool>) {
    BatchOk(b, dispatched) && dispatched == |inDriver|
  }

  ghost predicate InvBut(t: Tunables, s: Data, d: bool, out: Option<nat>) {
    && SideOk(Of(s, d), s.now + FifoExpire(t, d), out) && SideOk(Of(s, !d), s.now + FifoExpire(t, !d), None)
    && Apart(Of(s, d).fifo, Of(s, !d).fifo, s.inDriver)
    && AnticOk(s.status, s.ioc, s.iocFinished) && CountOk(s.batch, s.nrDispatched, s.inDriver)
  }

  ghost predicate Inv(t: Tunables, s: Data) { InvBut(t, s, true, None) }

  lemma Flip(t: Tunables, s: Data, d: bool)
    ensures InvBut(t, s, d, None) <==> Inv(t, s)
  {
    hide SideOk;
  }

  lemma FoundInTree(tree: seq<Node>, id: nat)
    ensures InTree(tree, id) <==> TreeIndex(tree, id) < |tree|
  {}

  lemma NodeInTree(tree: seq<Node>, i: nat)
    requires i < |tree|
    ensures InTree(tree, tree[i].id)
  {}

  /** The successor as_find_next_rq names is another request of the tree. */
  lemma FindNextOk(side: Side, id: nat)
    requires TreeIds(side.tree) && InTree(side.tree, id)
    ensures FindNext(side, id).Some? ==> FindNext(side, id).value != id && InTree(side.tree, FindNext(side, id).value)
    ensures FindNext(side, id) == None <==> |side.tree| == 1
  {
    hide InTree, Wraps, TakesFirst;
    FoundInTree(side.tree, id);
    var i := TreeIndex(side.tree, id);
    if i > 0 { NodeInTree(side.tree, i - 1); NodeInTree(side.tree, 0); }
    if i + 1 < |side.tree| { NodeInTree(side.tree, i + 1); }
  }

  lemma RemoveOk(side: Side, id: nat, bound: nat, u: Option<nat>)
    requires SideOk(side, bound, u) && InTree(side.tree, id)
    ensures SideOk(Remove(side, id), bound, u)
    ensures forall x: nat :: InTree(Remove(side, id).tree, x) <==> InTree(side.tree, x) && x != id
    ensures forall x: nat :: InFifo(Remove(side, id).fifo, x) <==> InFifo(side.fifo, x) && x != id
    ensures side.next != Some(id) ==> Remove(side, id).next == side.next
    ensures |Remove(side, id).tree| == |side.tree| - 1
  {
    hide InTree, InFifo, SortedTree, TreeIds, FifoIds, SortedFifo, FindNext, Drop;
    TreeDrop(side.tree, id);
    FifoDrop(side.fifo, id, bound);
    FindNextOk(side, id);
    DropAt(side.tree, TreeIndex(side.tree, id));
  }

  /** What as_move_to_dispatch does to the direction it takes a request from. */
  function MovedSide(side: Side, id: nat): Side {
    var i := TreeIndex(side.tree, id);
    var side1 := side.(last := if i < |side.tree| then side.tree[i].sector + side.tree[i].nsect else side.last);
    Remove(side1.(next := FindNext(side1, id)), id)
  }

  lemma MoveSideOk(side: Side, id: nat, bound: nat, u: Option<nat>)
    requires SideOk(side, bound, u) && InTree(side.tree, id)
    ensures var m := MovedSide(side, id);
      && SideOk(m, bound, u) && |m.tree| == |side.tree| - 1 && (m.next == None <==> |side.tree| == 1)
      && (forall x: nat :: InFifo(m.fifo, x) <==> InFifo(side.fifo, x) && x != id)
      && (forall x: nat :: InTree(m.tree, x) <==> InTree(side.tree, x) && x != id)
  {
    hide InTree, InFifo, SortedTree, TreeIds, FifoIds, SortedFifo, FindNext, Remove;
    FoundInTree(side.tree, id);
    var i := TreeIndex(side.tree, id);
    var side1 := side.(last := side.tree[i].sector + side.tree[i].nsect);
    FindNextOk(side1, id);
    RemoveOk(side1.(next := FindNext(side1, id)), id, bound, u);
  }

  ghost predicate SameBatch(b: Batch, c: Batch) {
    b.sync == c.sync && b.changed == c.changed && b.isNew == c.isNew && b.writeMax == c.writeMax
  }

  /** Request id of direction d leaves, and anticipation is off. */
  lemma MoveShape(s: Data, d: bool, id: nat)
    ensures var m := Move(s, d, id);
      && Of(m, d) == MovedSide(Of(s, d), id) && Of(m, !d) == Of(s, !d)
      && m.status == Off && m.ioc == Context(s, d, id) && !m.iocFinished && SameBatch(m.batch, s.batch)
      && m.iocOf == s.iocOf && m.inDriver == s.inDriver[id := d] && m.nrDispatched == s.nrDispatched + 1
      && m.now == s.now && m.out == s.out + [id]
  {
    hide TreeIndex, FindNext, Remove;
  }

  lemma MoveOk(t: Tunables, s: Data, d: bool, id: nat, u: Option<nat>)
    requires InvBut(t, s, d, u) && InTree(Of(s, d).tree, id)
    ensures InvBut(t, Move(s, d, id), d, u) && Of(Move(s, d, id), d) == MovedSide(Of(s, d), id)
    ensures forall x: nat :: InFifo(Of(Move(s, d, id), d).fifo, x) <==> InFifo(Of(s, d).fifo, x) && x != id
  {
    hide SideOk, InTree, InFifo, Move, MovedSide, CountOk, Apart;
    InDirection(t, s, d, id, u);
    MoveShape(s, d, id);
    MoveSideOk(Of(s, d), id, s.now + FifoExpire(t, d), u);
    MoveCount(s.batch, Move(s, d, id).batch, s.nrDispatched, s.inDriver, id, d);
    ApartMoved(Of(s, d).fifo, Of(Move(s, d, id), d).fifo, Of(s, !d).fifo, s.inDriver, id, d);
  }

  lemma ApartMoved(f: seq<Entry>, f': seq<Entry>, g: seq<Entry>, inDriver: map<nat, bool>, id: nat, d: bool)
    requires Apart(f, g, inDriver) && InFifo(f, id) && forall x: nat :: InFifo(f', x) <==> InFifo(f, x) && x != id
    ensures Apart(f', g, inDriver[id := d])
  {
    hide InFifo;
  }

  lemma MoveCount(b: Batch, c: Batch, n: int, inDriver: map<nat, bool>, id: nat, d: bool)
    requires CountOk(b, n, inDriver) && SameBatch(b, c) && id !in inDriver
    ensures CountOk(c, n + 1, inDriver[id := d])
  {
    assert inDriver[id := d].Keys == inDriver.Keys + {id};
  }

  lemma InDirection(t: Tunables, s: Data, d: bool, id: nat, u: Option<nat>)
    requires InvBut(t, s, d, u) && InTree(Of(s, d).tree, id)
    ensures InFifo(Of(s, d).fifo, id) && id !in s.inDriver
  {
    hide InTree, InFifo, SortedTree, TreeIds, FifoIds, SortedFifo;
  }

  /** id has been put into the tree. */
  ghost predicate Placed(side: Side, bound: nat, id: nat) {
    && SortedTree(side.tree) && TreeIds(side.tree) && FifoIds(side.fifo) && SortedFifo(side.fifo, bound)
    && (forall x: nat :: InTree(side.tree, x) <==> InFifo(side.fifo, x) || x == id)
    && (side.next.Some? ==> InTree(side.tree, side.next.value))
  }

  lemma InsertOk(side: Side, n: Node, bound: nat)
    requires SideOk(side, bound, Some(n.id)) && Alias(side.tree, n.sector) == None
    ensures Placed(side.(tree := InsertAt(side.tree, Place(side.tree, n.sector), n)), bound, n.id)
  {
    hide InTree, InFifo, SortedTree, TreeIds, FifoIds, SortedFifo, InsertAt, Place, Alias;
    PlaceSorted(side.tree, n);
    InsertIds(side.tree, Place(side.tree, n.sector), n);
  }

  /** Everything outside direction d, for a state that has n in the tree of d. */
  ghost predicate RestOk(t: Tunables, s: Data, d: bool) {
    SideOk(Of(s, !d), s.now + FifoExpire(t, !d), None) && Apart(Of(s, d).fifo, Of(s, !d).fifo, s.inDriver)
    && AnticOk(s.status, s.ioc, s.iocFinished) && CountOk(s.batch, s.nrDispatched, s.inDriver)
  }

  lemma MovedAlias(side: Side, n: Node, a: nat)
    requires SortedTree(side.tree) && TreeIds(side.tree) && Alias(side.tree, n.sector) == Some(a)
    ensures InTree(side.tree, a) && Alias(MovedSide(side, a).tree, n.sector) == None
  {
    hide FindNext;
    AliasOk(side.tree, n.sector);
    NoAliasAfterMove(side.tree, n.sector);
  }

  lemma AddRbOk(t: Tunables, s: Data, d: bool, n: Node)
    requires InvBut(t, s, d, Some(n.id)) && n.id !in s.inDriver
    ensures var s' := AddRb(s, d, n);
      && RestOk(t, s', d) && Placed(Of(s', d), s.now + FifoExpire(t, d), n.id)
      && (forall x: nat :: InFifo(Of(s', d).fifo, x) ==> InFifo(Of(s, d).fifo, x))
      && (InFifo(Of(s, d).fifo, n.id) ==> InFifo(Of(s', d).fifo, n.id))
      && Of(s', !d) == Of(s, !d) && s'.now == s.now && n.id !in s'.inDriver && s'.iocOf == s.iocOf
  {
    hide InTree, InFifo, SortedTree, TreeIds, FifoIds, SortedFifo, Move, MovedSide, Alias, Place, InsertAt, Placed, CountOk, AnticOk;
    var side := Of(s, d);
    var a := Alias(side.tree, n.sector);
    if a.Some? {
      MovedAlias(side, n, a.value);
      MoveOk(t, s, d, a.value, Some(n.id));
      MoveShape(s, d, a.value);
      InsertOk(Of(Move(s, d, a.value), d), n, s.now + FifoExpire(t, d));
    } else {
      InsertOk(side, n, s.now + FifoExpire(t, d));
    }
  }

  /** Back in the tree and in the list. */
  lemma PlacedBack(t: Tunables, s: Data, d: bool, id: nat)
    requires RestOk(t, s, d) && Placed(Of(s, d), s.now + FifoExpire(t, d), id) && InFifo(Of(s, d).fifo, id)
    ensures Inv(t, s)
  {
    hide InTree, InFifo, SortedTree, TreeIds, FifoIds, SortedFifo, Apart, AnticOk, BatchOk;
    Flip(t, s, d);
  }

  lemma NodeOfOk(tree: seq<Node>, id: Option<nat>)
    requires id.Some? && InTree(tree, id.value)
    ensures NodeOf(tree, id).Some? && NodeOf(tree, id).value.id == id.value
  {
    FoundInTree(tree, id.value);
  }

  lemma UpdateOk(t: Tunables, s: Data, d: bool, id: nat, guess: bool)
    requires Inv(t, s) && InTree(Of(s, d).tree, id)
    ensures Inv(t, UpdateRq(t, s, d, id, guess)) && Of(UpdateRq(t, s, d, id, guess), d).fifo == Of(s, d).fifo
  {
    hide InTree, InFifo, SortedTree, TreeIds, FifoIds, SortedFifo, TreeIndex, TakesFirst, Apart, CountOk;
    var side := Of(s, d);
    NodeOfOk(side.tree, Some(id));
    if side.next.Some? { NodeOfOk(side.tree, side.next); }
  }

  lemma ArriveOk(t: Tunables, s: Data, d: bool, n: Node, ioc: Option<nat>, guess: bool)
    requires Inv(t, s) && Enabled(s, Arrive(d, n, ioc, guess))
    ensures Inv(t, Add(t, s, d, n, ioc, guess))
  {
    hide InTree, InFifo, SortedTree, TreeIds, FifoIds, SortedFifo, AddRb, UpdateRq, CountOk, AnticOk;
    var s0 := if ioc.Some? then s.(iocOf := s.iocOf[n.id := ioc.value]) else s.(iocOf := s.iocOf - {n.id});
    Flip(t, s, d);
    AddRbOk(t, s0, d, n);
    var s1 := AddRb(s0, d, n);
    var e := Entry(n.id, s.now + FifoExpire(t, d));
    FifoAppend(Of(s1, d).fifo, e, s.now + FifoExpire(t, d));
    var s2 := With(s1, d, Of(s1, d).(fifo := Of(s1, d).fifo + [e]));
    PlacedBack(t, s2, d, n.id);
    UpdateOk(t, s2, d, n.id, guess);
  }

  lemma FrontOk(t: Tunables, s: Data, d: bool, id: nat, sector: nat, nsect: nat)
    requires Inv(t, s) && InFifo(Of(s, d).fifo, id)
    ensures Inv(t, FrontMerged(s, d, id, sector, nsect))
  {
    hide InTree, InFifo, SortedTree, TreeIds, FifoIds, SortedFifo, AddRb, Drop, CountOk, AnticOk;
    Flip(t, s, d);
    var side := Of(s, d);
    TreeDrop(side.tree, id);
    var s1 := With(s, d, side.(tree := Drop(side.tree, TreeIndex(side.tree, id))));
    AddRbOk(t, s1, d, Node(id, sector, nsect));
    PlacedBack(t, AddRb(s1, d, Node(id, sector, nsect)), d, id);
  }

  lemma BackOk(t: Tunables, s: Data, d: bool, id: nat, nsect: nat)
    requires Inv(t, s)
    ensures Inv(t, BackMerged(s, d, id, nsect))
  {
    hide InTree, InFifo, FifoIds, SortedFifo, SortedTree, TreeIds, CountOk, AnticOk;
    Flip(t, s, d);
    var tree := Of(s, d).tree;
    var i := TreeIndex(tree, id);
    if i < |tree| { SetLength(tree, i, nsect); }
    Flip(t, BackMerged(s, d, id, nsect), d);
  }

  lemma AbsorbOk(t: Tunables, s: Data, d: bool, req: nat, next: nat)
    requires Inv(t, s) && InFifo(Of(s, d).fifo, req) && InFifo(Of(s, d).fifo, next) && req != next
    ensures Inv(t, Merged(s, d, req, next))
  {
    hide InTree, InFifo, SortedTree, TreeIds, FifoIds, SortedFifo, Remove, Overtaken, CountOk, AnticOk;
    Flip(t, s, d);
    var side := Of(s, d);
    var bound := s.now + FifoExpire(t, d);
    OvertakenOk(side.fifo, req, next, bound);
    RemoveOk(side.(fifo := Overtaken(side.fifo, req, next)), next, bound, None);
    Flip(t, Merged(s, d, req, next), d);
  }

  lemma TickOk(t: Tunables, s: Data, now: nat)
    requires Inv(t, s) && s.now <= now
    ensures Inv(t, s.(now := now))
  {
    hide InTree, InFifo, SortedTree, TreeIds, FifoIds, CountOk, AnticOk;
  }

  lemma SizeWithout(m: map<nat, bool>, id: nat)
    requires id in m
    ensures |m - {id}| == |m| - 1
  {
    assert (m - {id}).Keys == m.Keys - {id};
  }

  lemma DoneOk(t: Tunables, s: Data, id: nat)
    requires Inv(t, s) && id in s.inDriver
    ensures Inv(t, Complete(t, s, id))
  {
    hide SideOk, CountOk, BatchDone, Apart;
    BatchDoneOk(t, s, id);
    ApartDone(s.sync.fifo, s.async.fifo, s.inDriver, id);
  }

  lemma BatchDoneOk(t: Tunables, s: Data, id: nat)
    requires CountOk(s.batch, s.nrDispatched, s.inDriver) && id in s.inDriver
    ensures CountOk(BatchDone(t, s, s.inDriver[id]), s.nrDispatched - 1, s.inDriver - {id})
  {
    hide WriteMax;
    SizeWithout(s.inDriver, id);
  }

  lemma ApartDone(f: seq<Entry>, g: seq<Entry>, inDriver: map<nat, bool>, id: nat)
    requires Apart(f, g, inDriver)
    ensures Apart(f, g, inDriver - {id})
  {
    hide InFifo;
  }

  lemma CheckedOk(t: Tunables, s: Data, d: bool)
    requires Inv(t, s)
    ensures Inv(t, Checked(t, s, d))
    ensures Checked(t, s, d) == With(s, d, Of(s, d).(lastCheck := Of(Checked(t, s, d), d).lastCheck))
  {
    hide Agree, Apart;
  }

  /** A state in which the direction of the batch has just been changed. */
  ghost predicate Choosing(t: Tunables, s: Data) {
    && Inv(t, s.(batch := s.batch.(changed := false, isNew := false))) && s.status != WaitReq && s.status != WaitNext
    && (s.batch.isNew ==> s.batch.sync && !s.batch.changed)
  }

  lemma RunOk(t: Tunables, s: Data, rq: nat)
    requires Choosing(t, s) && InTree(Of(s, s.batch.sync).tree, rq)
    ensures var (s', moved) := Run(t, s, rq);
      && Inv(t, s')
      && (if moved then Served(s, s', s.batch.sync, rq) else s' == s && s.batch.changed && s.nrDispatched > 0)
  {
    hide InTree, Agree, Apart, Move;
    var b := s.batch;
    if b.changed && s.nrDispatched != 0 {
      Flip(t, s, true);
    } else {
      var b1 := if !b.changed then b
                else if b.sync then b.(isNew := true, changed := false)
                else b.(expires := s.now + t.asyncBatch, changed := false);
      var s1 := s.(batch := b1);
      Flip(t, s1, b.sync);
      MoveOk(t, s1, b.sync, rq, None);
      MoveShape(s1, b.sync, rq);
      Flip(t, Move(s1, b.sync, rq), b.sync);
      MovedFifo(Of(s1, b.sync), rq);
    }
  }

  lemma MovedFifo(side: Side, id: nat)
    ensures MovedSide(side, id).fifo == Drop(side.fifo, FifoIndex(side.fifo, id))
    ensures MovedSide(side, id).tree == Drop(side.tree, TreeIndex(side.tree, id))
  {}

  /** Request id of direction d went to the dispatch queue and nothing else did. */
  ghost predicate Served(s: Data, s': Data, d: bool, id: nat) {
    && InTree(Of(s, d).tree, id) && s'.out == s.out + [id]
    && Of(s', d).tree == Drop(Of(s, d).tree, TreeIndex(Of(s, d).tree, id))
    && Of(s', d).fifo == Drop(Of(s, d).fifo, FifoIndex(Of(s, d).fifo, id))
    && Of(s', !d).tree == Of(s, !d).tree && Of(s', !d).fifo == Of(s, !d).fifo
    && s'.ioc == Context(s, d, id) && !s'.iocFinished && s'.iocOf == s.iocOf && s'.inDriver == s.inDriver[id := d]
  }

  ghost predicate SameQueue(s: Data, s': Data) {
    && s'.sync.fifo == s.sync.fifo && s'.async.fifo == s.async.fifo && s'.sync.tree == s.sync.tree && s'.async.tree == s.async.tree
    && s'.out == s.out && s'.inDriver == s.inDriver && s'.iocOf == s.iocOf && s'.ioc == s.ioc && s'.iocFinished == s.iocFinished
  }

  /** What a dispatch call does: it serves one request, or it has a reason not to. */
  ghost predicate Outcome(s: Data, r: (Data, bool)) {
    if r.1 then exists d: bool, id: nat :: Served(s, r.0, d, id)
    else SameQueue(s, r.0) && ((s.sync.fifo == [] && s.async.fifo == []) || Waiting(r.0) || (r.0.batch.changed && r.0.nrDispatched > 0))
  }

  lemma HeadInTree(t: Tunables, s: Data, d: bool)
    requires Inv(t, s) && Of(s, d).fifo != []
    ensures InTree(Of(s, d).tree, Head(s, d))
  {
    hide SortedTree, TreeIds, FifoIds, SortedFifo, Apart;
    assert InFifo(Of(s, d).fifo, Of(s, d).fifo[0].id);
  }

  lemma ServiceOk(t: Tunables, s: Data, rq: nat)
    requires Choosing(t, s) && InTree(Of(s, s.batch.sync).tree, rq)
    ensures Inv(t, Service(t, s, rq).0)
    ensures Service(t, s, rq).1 ==> exists id: nat :: Served(s, Service(t, s, rq).0, s.batch.sync, id)
    ensures !Service(t, s, rq).1 ==> SameQueue(s, Service(t, s, rq).0)
    ensures !Service(t, s, rq).1 ==> Service(t, s, rq).0.batch.changed && Service(t, s, rq).0.nrDispatched > 0
  {
    hide InTree, Agree, Apart, Run;
    var d := s.batch.sync;
    var s0 := s.(batch := s.batch.(changed := false, isNew := false));
    CheckedOk(t, s0, d);
    var s1 := Checked(t, s, d);
    if FifoExpired(t, s, d) { HeadInTree(t, s0, d); }
    var id := if FifoExpired(t, s, d) then Head(s, d) else rq;
    assert s1.(batch := s1.batch.(changed := false, isNew := false)) == Checked(t, s0, d);
    RunOk(t, s1, id);
    if Run(t, s1, id).1 { assert Served(s, Service(t, s, rq).0, d, id); }
  }

  lemma SelectOk(t: Tunables, s: Data)
    requires Inv(t, s) && !Waiting(s)
    ensures Inv(t, Select(t, s).0) && Outcome(s, Select(t, s))
  {
    hide InTree, Agree, Apart, Service, Served;
    var d := s.sync.fifo != [] && !(s.async.fifo != [] && s.batch.sync);
    if Of(s, d).fifo != [] {
      HeadInTree(t, s, d);
      var s1 := Switch(s, d);
      ServiceOk(t, s1, Head(s, d));
      var r := Service(t, s1, Head(s, d));
      if r.1 {
        var id: nat :| Served(s1, r.0, d, id);
        SameServed(s, s1, r.0, d, id);
      }
    }
  }

  lemma SameServed(s: Data, s1: Data, s': Data, d: bool, id: nat)
    requires SameQueue(s, s1) && Served(s1, s', d, id)
    ensures Served(s, s', d, id)
  {
    hide InTree, Drop;
  }

  lemma GoOnOk(t: Tunables, s: Data)
    requires Inv(t, s) && !Waiting(s)
    ensures Inv(t, GoOn(t, s).0) && Outcome(s, GoOn(t, s))
  {
    hide InTree, Apart, Service, Served, Select, SortedTree, TreeIds, FifoIds, SortedFifo;
    SelectOk(t, s);
    var d := s.batch.sync;
    var rq := Of(s, d).next;
    if rq.Some? {
      var s1 := if s.sync.fifo != [] && s.async.fifo == [] then s.(batch := s.batch.(expires := s.now + t.syncBatch)) else s;
      ServiceOk(t, s1, rq.value);
      var r := Service(t, s1, rq.value);
      if r.1 {
        var id: nat :| Served(s1, r.0, d, id);
        SameServed(s, s1, r.0, d, id);
      }
    }
  }

  lemma OutcomeOf(s: Data, s1: Data, r: (Data, bool))
    requires SameQueue(s, s1) && Outcome(s1, r)
    ensures Outcome(s, r)
  {
    hide Served;
    if r.1 {
      var d: bool, id: nat :| Served(s1, r.0, d, id);
      SameServed(s, s1, r.0, d, id);
    }
  }

  /** A dispatch call keeps the invariant; when requests are queued and none is served,
      it waits for a process, or for what is in flight before the direction changes. */
  lemma ServeOk(t: Tunables, s: Data, guess: bool)
    requires Inv(t, s)
    ensures Inv(t, Dispatch(t, s, guess).0) && Outcome(s, Dispatch(t, s, guess))
  {
    hide InTree, Agree, Apart, Run, Select, GoOn, Served, Outcome;
    var hasSync, hasAsync := s.sync.fifo != [], s.async.fifo != [];
    var s0 := if !s.batch.sync && !hasSync && (s.batch.writeCount == 0 || !hasAsync) then s.(batch := s.batch.(idled := true)) else s;
    if !(hasSync || hasAsync) || Waiting(s0) || s0.batch.changed {
      NotServed(s, s0);
    } else {
      SelectOk(t, s0);
      GoOnOk(t, s0);
      OutcomeOf(s, s0, if hasSync && hasAsync && BatchExpired(s0) then Select(t, s0) else GoOn(t, s0));
      if !(hasSync && hasAsync && BatchExpired(s0)) && s0.batch.sync && t.anticExpire != 0 {
        ReadBatchOk(t, s0, guess);
        OutcomeOf(s, s0, ReadBatch(t, s0, guess));
      }
    }
  }

  lemma NotServed(s: Data, s0: Data)
    requires s0 == s.(batch := s0.batch) && s0.batch.changed == s.batch.changed && (s.batch.changed ==> s.nrDispatched > 0)
    requires (s.sync.fifo == [] && s.async.fifo == []) || Waiting(s0) || s0.batch.changed
    ensures Outcome(s, (s0, false))
  {}

  lemma ReadBatchOk(t: Tunables, s: Data, guess: bool)
    requires Inv(t, s) && !Waiting(s) && s.batch.sync && !s.batch.changed
    ensures Inv(t, ReadBatch(t, s, guess).0) && Outcome(s, ReadBatch(t, s, guess))
  {
    hide InTree, Agree, Apart, Run, GoOn, Served;
    var s1 := Checked(t, s, true);
    CheckedOk(t, s, true);
    if FifoExpired(t, s, true) {
      HeadInTree(t, s1, true);
      RunOk(t, s1, Head(s1, true));
      if Run(t, s1, Head(s1, true)).1 { SameServed(s, s1, Run(t, s1, Head(s1, true)).0, true, Head(s1, true)); }
    } else if !CanAnticipate(t, s1, s1.sync.next, guess) {
      GoOnOk(t, s1);
      OutcomeOf(s, s1, GoOn(t, s1));
    }
  }

  // ----- forced dispatch -----

  /** The loop empties its direction exactly when it has a next request to start with. */
  lemma {:induction false} FlushOk(t: Tunables, s: Data, d: bool)
    requires Inv(t, s)
    ensures Inv(t, Flush(s, d)) && Of(Flush(s, d), !d) == Of(s, !d) && Flush(s, d).now == s.now
    ensures if Of(s, d).next.Some? then Of(Flush(s, d), d).fifo == [] && |Flush(s, d).out| == |s.out| + |Of(s, d).tree|
            else Flush(s, d) == s
    ensures Of(s, d).next == None && Of(s, d).fifo == [] ==> Of(Flush(s, d), d).fifo == []
    decreases |Of(s, d).tree|
  {
    hide InTree, SortedTree, TreeIds, FifoIds, SortedFifo, InFifo, Apart, Move, MovedSide, CountOk, AnticOk;
    Flip(t, s, d);
    var side := Of(s, d);
    if side.next.Some? {
      var id := side.next.value;
      FoundInTree(side.tree, id);
      MoveOk(t, s, d, id, None);
      MoveShape(s, d, id);
      MoveSideOk(side, id, s.now + FifoExpire(t, d), None);
      Flip(t, Move(s, d, id), d);
      FlushOk(t, Move(s, d, id), d);
      if |side.tree| == 1 { NoneLeft(Of(Move(s, d, id), d), s.now + FifoExpire(t, d)); }
    }
  }

  lemma NoneLeft(side: Side, bound: nat)
    requires SideOk(side, bound, None)
    ensures side.tree == [] ==> side.fifo == []
  {
    hide SortedTree, TreeIds, FifoIds, SortedFifo;
    if side.fifo != [] { assert InFifo(side.fifo, side.fifo[0].id); }
  }

  lemma ForceOk(t: Tunables, s: Data)
    requires Inv(t, s)
    ensures Inv(t, Force(s))
    ensures Force(s).sync.fifo == [] <==> s.sync.fifo == [] || s.sync.next.Some?
    ensures Force(s).async.fifo == [] <==> s.async.fifo == [] || s.async.next.Some?
  {
    hide InTree, SortedTree, TreeIds, FifoIds, SortedFifo, InFifo, Apart, Flush;
    var s0 := s.(batch := s.batch.(sync := true, changed := false, isNew := false));
    FlushOk(t, s0, true);
    var s1 := Flush(s0, true);
    var s2 := s1.(sync := s1.sync.(lastCheck := s.now));
    FlushOk(t, s2, false);
  }

  lemma TimeoutOk(t: Tunables, s: Data)
    requires Inv(t, s)
    ensures Inv(t, AnticStop(s))
  {
    hide SideOk, Apart, CountOk;
  }

  /** Every operation keeps the two views of each direction in agreement, the status of
      the anticipation in line with its process, and the counts of what is in flight. */
  lemma StepKeepsInv(t: Tunables, s: Data, l: Step)
    requires Inv(t, s) && Enabled(s, l)
    ensures Inv(t, Next(t, s, l))
  {
    hide SideOk, Apart, AnticOk, CountOk, Add, FrontMerged, BackMerged, Merged, Complete, Dispatch, Force, AnticStop;
    match l
    case Arrive(d, n, ioc, guess) => ArriveOk(t, s, d, n, ioc, guess);
    case Tick(now) => TickOk(t, s, now);
    case Front(d, id, sector, nsect) => FrontOk(t, s, d, id, sector, nsect);
    case Back(d, id, nsect) => BackOk(t, s, d, id, nsect);
    case Absorb(d, req, next) => AbsorbOk(t, s, d, req, next);
    case Serve(guess) => ServeOk(t, s, guess);
    case Drain => ForceOk(t, s);
    case Done(id) => DoneOk(t, s, id);
    case Timeout => TimeoutOk(t, s);
  }
}
