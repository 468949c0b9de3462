/** An expired write is served after a bounded number of dispatches, whatever else
    happens: the promise behind writes_starved and fifo_batch. */
module DeadlineService {
  import opened Optional
  import opened SortList
  import opened Deadline
  import opened DeadlineInvariant

  /** Entries that expire no later than e. */
  function Due(fifo: seq<Entry>, e: nat): nat {
    if fifo == [] then 0 else (if fifo[0].expiry <= e then 1 else 0) + Due(fifo[1..], e)
  }

  function One(b: bool): nat { if b then 1 else 0 }

  lemma {:induction false} DueAppend(a: seq<Entry>, b: seq<Entry>, e: nat)
    ensures Due(a + b, e) == Due(a, e) + Due(b, e)
    decreases |a|
  {
    if a == [] {
      assert a + b == b;
    } else {
      DueAppend(a[1..], b, e);
      assert (a + b)[1..] == a[1..] + b;
    }
  }

  lemma DueOne(x: Entry, e: nat)
    ensures Due([x], e) == One(x.expiry <= e)
  {
    assert [x][1..] == [];
  }

  lemma DueSplit(fifo: seq<Entry>, i: nat, e: nat)
    requires i < |fifo|
    ensures Due(fifo, e) == Due(fifo[..i], e) + One(fifo[i].expiry <= e) + Due(fifo[i + 1..], e)
  {
    hide Due;
    assert fifo == fifo[..i] + ([fifo[i]] + fifo[i + 1..]);
    DueAppend(fifo[..i], [fifo[i]] + fifo[i + 1..], e);
    DueAppend([fifo[i]], fifo[i + 1..], e);
    DueOne(fifo[i], e);
  }

  lemma DueDrop(fifo: seq<Entry>, i: nat, e: nat)
    requires i < |fifo|
    ensures Due(Drop(fifo, i), e) + One(fifo[i].expiry <= e) == Due(fifo, e)
  {
    hide Due;
    DueSplit(fifo, i, e);
    DueAppend(fifo[..i], fifo[i + 1..], e);
  }

  lemma DueInsert(fifo: seq<Entry>, i: nat, x: Entry, e: nat)
    requires i <= |fifo|
    ensures Due(InsertAt(fifo, i, x), e) == Due(fifo, e) + One(x.expiry <= e)
  {
    hide Due;
    assert fifo == fifo[..i] + fifo[i..];
    DueAppend(fifo[..i], fifo[i..], e);
    DueAppend(fifo[..i] + [x], fifo[i..], e);
    DueAppend(fifo[..i], [x], e);
    DueOne(x, e);
  }

  lemma {:induction false} DueMonotone(fifo: seq<Entry>, d: nat, e: nat)
    requires d <= e
    ensures Due(fifo, d) <= Due(fifo, e)
    decreases |fifo|
  {
    if fifo != [] { DueMonotone(fifo[1..], d, e); }
  }

  function ExpiryOf(fifo: seq<Entry>, w: nat): nat
    requires InFifo(fifo, w)
  {
    fifo[FifoIndex(fifo, w)].expiry
  }

  lemma ExpiryIs(fifo: seq<Entry>, w: nat, i: nat)
    requires FifoIds(fifo) && i < |fifo| && fifo[i].id == w
    ensures InFifo(fifo, w) && FifoIndex(fifo, w) == i && ExpiryOf(fifo, w) == fifo[i].expiry
  {}

  lemma DueItself(fifo: seq<Entry>, w: nat)
    requires InFifo(fifo, w)
    ensures Due(fifo, ExpiryOf(fifo, w)) >= 1
  {
    DueSplit(fifo, FifoIndex(fifo, w), ExpiryOf(fifo, w));
  }

  // ----- the potential -----

  function Batch(t: Tunables): nat { if t.fifoBatch == 0 then 1 else t.fifoBatch }

  function BatchLeft(t: Tunables, s: Data): nat { if s.batching < Batch(t) then Batch(t) - s.batching else 0 }

  /** What comes before w: the writes ahead of it in the list, or the writes other than
      w that expire no later. */
  function Before(byPlace: bool, f: seq<Entry>, w: nat): nat
    requires InFifo(f, w)
  {
    DueItself(f, w);
    if byPlace then FifoIndex(f, w) else Due(f, ExpiryOf(f, w)) - 1
  }

  function Times(a: nat, b: nat): (r: nat)
    ensures r == a * b
  {
    a * b
  }

  /** Dispatches between two moments at which the scheduler must turn to writes. */
  function Turn(t: Tunables): nat { Times(t.writesStarved + 1, Batch(t)) }

  /** Dispatches that can still happen while w waits. */
  function Potential(byPlace: bool, t: Tunables, s: Data, w: nat): nat
    requires InFifo(s.write.fifo, w) && s.starved <= t.writesStarved
  {
    BatchLeft(t, s) + Times(Before(byPlace, s.write.fifo, w), Turn(t)) + Times(t.writesStarved - s.starved, Batch(t)) + 1
  }

  ghost predicate Overdue(s: Data, w: nat) { InFifo(s.write.fifo, w) && ExpiryOf(s.write.fifo, w) < s.now }

  /** Who carries the data of w after a step: the request it was absorbed by. */
  function Carrier(l: Step, w: nat): nat {
    if l.Absorb? && l.write && l.next == w then l.req else w
  }

  /** The absorption of w by a write of the same expiry that is not right behind it. */
  ghost predicate Back(f: seq<Entry>, req: nat, next: nat, w: nat) {
    && InFifo(f, req) && InFifo(f, w)
    && next == w && ExpiryOf(f, req) == ExpiryOf(f, w) && FifoIndex(f, w) + 1 < FifoIndex(f, req)
  }

  ghost predicate MovesBack(s: Data, l: Step, w: nat) { l.Absorb? && l.write && Back(s.write.fifo, l.req, l.next, w) }

  /** w does not have to wait longer: it is not later, and no more writes come first. */
  ghost predicate NoLater(byPlace: bool, f: seq<Entry>, w: nat, f': seq<Entry>, w': nat) {
    InFifo(f, w) && InFifo(f', w') && ExpiryOf(f', w') <= ExpiryOf(f, w) && Before(byPlace, f', w') <= Before(byPlace, f, w)
  }

  lemma DropIds(f: seq<Entry>, i: nat)
    requires FifoIds(f) && i < |f|
    ensures FifoIds(Drop(f, i))
  {
    hide Drop;
    DropAt(f, i);
  }

  lemma DropExpiry(f: seq<Entry>, i: nat, w: nat)
    requires FifoIds(f) && InFifo(f, w) && i < |f| && f[i].id != w
    ensures InFifo(Drop(f, i), w) && ExpiryOf(Drop(f, i), w) == ExpiryOf(f, w)
  {
    hide Drop, FifoIds;
    DropAt(f, i);
    DropIds(f, i);
    var k := FifoIndex(f, w);
    ExpiryIs(Drop(f, i), w, if k < i then k else k - 1);
  }

  lemma DropNoLater(p: bool, f: seq<Entry>, i: nat, w: nat)
    requires FifoIds(f) && InFifo(f, w) && i < |f| && f[i].id != w
    ensures NoLater(p, f, w, Drop(f, i), w) && ExpiryOf(Drop(f, i), w) == ExpiryOf(f, w)
    ensures i == 0 && f[0].expiry <= ExpiryOf(f, w) ==> Before(p, Drop(f, i), w) + 1 == Before(p, f, w)
  {
    hide Due, Drop, ExpiryOf, FifoIds;
    DropExpiry(f, i, w);
    DropPlace(f, i, w);
    DueDrop(f, i, ExpiryOf(f, w));
    DueItself(f, w);
    DueItself(Drop(f, i), w);
  }

  lemma DropPlace(f: seq<Entry>, i: nat, w: nat)
    requires FifoIds(f) && InFifo(f, w) && i < |f| && f[i].id != w
    ensures FifoIndex(Drop(f, i), w) == if FifoIndex(f, w) < i then FifoIndex(f, w) else FifoIndex(f, w) - 1
  {
    hide Drop, FifoIds;
    DropAt(f, i);
    DropIds(f, i);
    var k := FifoIndex(f, w);
    ExpiryIs(Drop(f, i), w, if k < i then k else k - 1);
  }

  lemma AppendNoLater(p: bool, f: seq<Entry>, x: Entry, w: nat)
    requires FifoIds(f) && InFifo(f, w) && x.id != w && ExpiryOf(f, w) < x.expiry
    ensures NoLater(p, f, w, f + [x], w)
  {
    hide Due;
    var k := FifoIndex(f, w);
    assert (f + [x])[k] == f[k];
    IndexIs(f + [x], w, k);
    DueAppend(f, [x], ExpiryOf(f, w));
    DueOne(x, ExpiryOf(f, w));
  }

  lemma NoLaterTrans(p: bool, f: seq<Entry>, w: nat, g: seq<Entry>, v: nat, h: seq<Entry>, u: nat)
    requires NoLater(p, f, w, g, v) && NoLater(p, g, v, h, u)
    ensures NoLater(p, f, w, h, u)
  {}

  lemma NoLaterSelf(p: bool, f: seq<Entry>, w: nat)
    requires InFifo(f, w)
    ensures NoLater(p, f, w, f, w)
  {}

  /** The list after a possible alias was moved out. */
  lemma AddRbFifo(p: bool, t: Tunables, s: Data, write: bool, n: Node, w: nat)
    requires InvBut(t, s, write, Some(n.id)) && InFifo(s.write.fifo, w) && InFifo(AddRb(s, write, n).write.fifo, w)
    ensures NoLater(p, s.write.fifo, w, AddRb(s, write, n).write.fifo, w)
    ensures FifoIds(AddRb(s, write, n).write.fifo) && AddRb(s, write, n).batching == s.batching
    ensures AddRb(s, write, n).starved == s.starved
  {
    hide InFifo, FifoIndex, Due, SortedTree, TreeIds, Drop, Latter, Place, ExpiryOf, SortedFifo;
    NoLaterSelf(p, s.write.fifo, w);
    var a := Alias(Of(s, write).tree, n.sector);
    if a.Some? {
      AliasOk(Of(s, write).tree, n.sector);
      MoveOk(t, s, write, a.value, Some(n.id));
      if write {
        var i := FifoIndex(s.write.fifo, a.value);
        FifoHas(s.write.fifo, a.value);
        DropNoLater(p, s.write.fifo, i, w);
      }
    }
  }

  lemma FifoHas(f: seq<Entry>, id: nat)
    requires InFifo(f, id)
    ensures FifoIndex(f, id) < |f| && f[FifoIndex(f, id)].id == id
  {}

  // ----- merging -----

  lemma OvertakenDue(f: seq<Entry>, req: nat, next: nat, bound: nat, e: nat)
    requires FifoIds(f) && SortedFifo(f, bound) && InFifo(f, req) && InFifo(f, next) && req != next
    ensures var i, j := FifoIndex(f, req), FifoIndex(f, next);
      && i < |f| && j < |f|
      && Due(Overtaken(f, req, next), e)
         == Due(f, e) - (if f[j].expiry < f[i].expiry then One(f[i].expiry <= e) - One(f[j].expiry <= e) else 0)
  {
    hide Due, Drop, InsertAt, FifoIds, SortedFifo;
    FifoHas(f, req);
    FifoHas(f, next);
    var i, j := FifoIndex(f, req), FifoIndex(f, next);
    if f[j].expiry < f[i].expiry {
      EarlierIsBefore(f, bound, i, j);
      IndexBehind(f, next, i);
      DropAt(f, i);
      DueDrop(f, i, e);
      DueInsert(Drop(f, i), j + 1, Entry(req, f[j].expiry), e);
    }
  }

  lemma OvertakenExpiry(f: seq<Entry>, req: nat, next: nat, bound: nat, x: nat)
    requires FifoIds(f) && SortedFifo(f, bound) && InFifo(f, req) && InFifo(f, next) && req != next && InFifo(f, x)
    ensures var g := Overtaken(f, req, next);
      && InFifo(g, x)
      && ExpiryOf(g, x) == if x == req && ExpiryOf(f, next) < ExpiryOf(f, req) then ExpiryOf(f, next) else ExpiryOf(f, x)
  {
    hide Overtaken, FifoIds, SortedFifo, Rearranged;
    OvertakenIs(f, req, next, bound);
    OvertakenOk(f, req, next, bound);
    var i, j, k, g := FifoIndex(f, req), FifoIndex(f, next), FifoIndex(f, x), Overtaken(f, req, next);
    FifoHas(f, x);
    if f[j].expiry < f[i].expiry {
      var m := if k == i then j + 1 else if j < k < i then k + 1 else k;
      RearrangedAt(f, g, i, j, k);
      ExpiryIs(g, x, m);
    }
  }

  lemma RearrangedAt(f: seq<Entry>, g: seq<Entry>, i: nat, j: nat, k: nat)
    requires Rearranged(f, g, i, j) && k < |f|
    ensures var m := if k == i then j + 1 else if j < k < i then k + 1 else k;
      m < |g| && g[m] == if k == i then Entry(f[i].id, f[j].expiry) else f[k]
  {}

  /** Where the request that carries w stands after a merge: further back in the list
      exactly if a write of the same expiry absorbed it that was not right behind it. */
  lemma AbsorptionMovesBack(f: seq<Entry>, req: nat, next: nat, bound: nat, w: nat)
    requires FifoIds(f) && SortedFifo(f, bound) && InFifo(f, req) && InFifo(f, next) && req != next && InFifo(f, w)
    ensures var g := Overtaken(f, req, next); var v := if w == next then req else w;
      FifoIndex(Drop(g, FifoIndex(g, next)), v) > FifoIndex(f, w) <==> Back(f, req, next, w)
  {
    hide Drop, FifoIds, SortedFifo, Overtaken, InFifo, Rearranged;
    var g := Overtaken(f, req, next);
    var v := if w == next then req else w;
    OvertakenIs(f, req, next, bound);
    OvertakenOk(f, req, next, bound);
    var i, j, k := FifoIndex(f, req), FifoIndex(f, next), FifoIndex(f, v);
    FifoHas(f, req);
    FifoHas(f, next);
    FifoHas(f, v);
    SortedPlaces(f, bound, j, i);
    if f[j].expiry < f[i].expiry {
      RearrangedAt(f, g, i, j, j);
      RearrangedAt(f, g, i, j, k);
      ExpiryIs(g, next, j);
      ExpiryIs(g, v, if k == i then j + 1 else if j < k < i then k + 1 else k);
    }
    DropPlace(g, FifoIndex(g, next), v);
    SamePlace(f, v, w);
  }

  lemma SortedPlaces(f: seq<Entry>, bound: nat, j: nat, i: nat)
    requires SortedFifo(f, bound) && i < |f| && j < |f|
    ensures f[j].expiry < f[i].expiry ==> j < i
    ensures j < i ==> f[j].expiry <= f[i].expiry
  {}

  lemma SamePlace(f: seq<Entry>, v: nat, w: nat)
    requires InFifo(f, v) && InFifo(f, w)
    ensures FifoIndex(f, v) == FifoIndex(f, w) <==> v == w
  {
    FifoHas(f, v);
    FifoHas(f, w);
  }

  /** The request that carries w after a merge is due no later than w was, and no more
      writes come before it. */
  lemma AbsorbNoLater(p: bool, f: seq<Entry>, req: nat, next: nat, bound: nat, w: nat)
    requires FifoIds(f) && SortedFifo(f, bound) && InFifo(f, req) && InFifo(f, next) && req != next && InFifo(f, w)
    requires p ==> !Back(f, req, next, w)
    ensures var g := Overtaken(f, req, next);
      NoLater(p, f, w, Drop(g, FifoIndex(g, next)), if w == next then req else w)
  {
    hide Due, Drop, FifoIds, SortedFifo, Overtaken, InFifo, Back, FifoIndex;
    var g, e := Overtaken(f, req, next), ExpiryOf(f, w);
    var v := if w == next then req else w;
    var n := FifoIndex(g, next);
    OvertakenOk(f, req, next, bound);
    OvertakenExpiry(f, req, next, bound, v);
    OvertakenExpiry(f, req, next, bound, next);
    OvertakenDue(f, req, next, bound, e);
    FifoHas(g, next);
    FifoHas(f, next);
    FifoHas(f, req);
    DropExpiry(g, n, v);
    DueDrop(g, n, e);
    DueMonotone(Drop(g, n), ExpiryOf(g, v), e);
    DueItself(f, w);
    DueItself(Drop(g, n), v);
    AbsorptionMovesBack(f, req, next, bound, w);
  }

  // ----- steps -----

  /** A step that is no dispatch does not make an overdue write wait longer. */
  lemma StepNoLater(p: bool, t: Tunables, s: Data, l: Step, w: nat)
    requires p ==> !MovesBack(s, l, w)
    requires Inv(t, s) && Enabled(s, l) && !l.Serve? && Overdue(s, w) && InFifo(Next(t, s, l).write.fifo, Carrier(l, w))
    ensures var s' := Next(t, s, l);
      && NoLater(p, s.write.fifo, w, s'.write.fifo, Carrier(l, w)) && s.now <= s'.now
      && s'.batching == s.batching && s'.starved == s.starved
  {
    hide InFifo, FifoIndex, Due, SortedTree, TreeIds, Drop, AddRb, ExpiryOf, SortedFifo, FifoIds, InTree, NoLater;
    NoLaterSelf(p, s.write.fifo, w);
    match l
    case Arrive(write, n) =>
      Flip(t, s, write);
      AddRbOk(t, s, write, n);
      if write { ArriveNoLater(p, t, s, n, w); } else { AddRbFifo(p, t, s, false, n, w); }
    case Tick(now) =>
    case Front(write, id, sector, nsect) => FrontNoLater(p, t, s, write, id, sector, nsect, w);
    case Back(write, id, nsect) => BackOk(t, s, write, id, nsect);
    case Absorb(write, req, next) =>
      if write {
        AbsorbOk(t, s, true, req, next);
        AbsorbNoLater(p, s.write.fifo, req, next, s.now + t.writeExpire, w);
      }
    case Serve =>
  }

  lemma ArriveNoLater(p: bool, t: Tunables, s: Data, n: Node, w: nat)
    requires Inv(t, s) && !Queued(s, n.id) && Overdue(s, w) && InFifo(Add(t, s, true, n).write.fifo, w)
    ensures NoLater(p, s.write.fifo, w, Add(t, s, true, n).write.fifo, w)
    ensures Add(t, s, true, n).batching == s.batching && Add(t, s, true, n).starved == s.starved
  {
    hide FifoIndex, Due, SortedTree, TreeIds, Drop, AddRb, ExpiryOf, SortedFifo, FifoIds, InTree, NoLater;
    AddRbOk(t, s, true, n);
    var s1 := AddRb(s, true, n);
    var f, x := s1.write.fifo, Entry(n.id, s.now + t.writeExpire);
    var k :| 0 <= k < |f + [x]| && (f + [x])[k].id == w;
    assert w != n.id;
    assert f[k].id == w;
    AddRbFifo(p, t, s, true, n, w);
    NoLaterFacts(p, s.write.fifo, w, f, w);
    AppendNoLater(p, f, x, w);
    NoLaterTrans(p, s.write.fifo, w, f, w, f + [x], w);
  }

  lemma NoLaterFacts(p: bool, f: seq<Entry>, w: nat, f': seq<Entry>, w': nat)
    requires NoLater(p, f, w, f', w')
    ensures InFifo(f, w) && InFifo(f', w') && ExpiryOf(f', w') <= ExpiryOf(f, w) && Before(p, f', w') <= Before(p, f, w)
  {}

  lemma FrontNoLater(p: bool, t: Tunables, s: Data, write: bool, id: nat, sector: nat, nsect: nat, w: nat)
    requires Inv(t, s) && InFifo(Of(s, write).fifo, id) && InFifo(s.write.fifo, w)
    requires InFifo(FrontMerged(s, write, id, sector, nsect).write.fifo, w)
    ensures var s' := FrontMerged(s, write, id, sector, nsect);
      && NoLater(p, s.write.fifo, w, s'.write.fifo, w) && s.now <= s'.now && s'.batching == s.batching && s'.starved == s.starved
  {
    hide InFifo, FifoIndex, Due, SortedTree, TreeIds, Drop, AddRb, ExpiryOf, SortedFifo, FifoIds, InTree, NoLater;
    Flip(t, s, write);
    var side := Of(s, write);
    TreeDrop(side.tree, id);
    var s1 := With(s, write, side.(tree := Drop(side.tree, TreeIndex(side.tree, id))));
    AddRbOk(t, s1, write, Node(id, sector, nsect));
    AddRbFifo(p, t, s1, write, Node(id, sector, nsect), w);
  }

  lemma TimesMonotone(a: nat, b: nat, c: nat)
    requires a <= b
    ensures Times(a, c) <= Times(b, c)
  {}

  lemma TimesPlus(a: nat, c: nat)
    ensures Times(a + 1, c) == Times(a, c) + c
  {}

  lemma NoLaterPotential(p: bool, t: Tunables, s: Data, w: nat, s': Data, w': nat)
    requires NoLater(p, s.write.fifo, w, s'.write.fifo, w') && s.starved <= t.writesStarved
    requires s'.batching == s.batching && s'.starved == s.starved
    ensures Potential(p, t, s', w') <= Potential(p, t, s, w)
  {
    hide Times, Before, ExpiryOf;
    TimesMonotone(Before(p, s'.write.fifo, w'), Before(p, s.write.fifo, w), Turn(t));
  }

  /** A request is moved out and w stays: w waits no longer than before, and less if
      the request was due before it. */
  lemma MovedNoLater(p: bool, t: Tunables, s: Data, s1: Data, write: bool, id: nat, w: nat)
    requires Inv(t, s) && InTree(Of(s, write).tree, id) && InFifo(s.write.fifo, w)
    requires s1 == s.(starved := s1.starved, batching := s1.batching) && s1.starved <= t.writesStarved
    requires InFifo(Move(s1, write, id).write.fifo, w)
    ensures var s' := Move(s1, write, id);
      && NoLater(p, s.write.fifo, w, s'.write.fifo, w) && s'.batching == s1.batching && s'.starved == s1.starved
      && s'.now == s.now
      && (write && s.write.fifo != [] && s.write.fifo[0].id == id && s.write.fifo[0].expiry <= ExpiryOf(s.write.fifo, w) ==>
            Before(p, s'.write.fifo, w) + 1 == Before(p, s.write.fifo, w))
  {
    hide Due, SortedTree, TreeIds, Drop, ExpiryOf, SortedFifo, InTree, Move;
    NoLaterSelf(p, s.write.fifo, w);
    ServeMove(t, s, s1, write, id);
    if write {
      var f := s.write.fifo;
      FifoHas(f, id);
      var i := FifoIndex(f, id);
      DropIds(f, i);
      NotDropped(f, i, w);
      DropNoLater(p, f, i, w);
    }
  }

  lemma NotDropped(f: seq<Entry>, i: nat, w: nat)
    requires FifoIds(f) && i < |f| && InFifo(Drop(f, i), w)
    ensures f[i].id != w
  {
    hide Drop;
    DropAt(f, i);
  }

  /** Every dispatch that leaves an overdue write queued lowers its potential. */
  lemma ServeLowers(p: bool, t: Tunables, s: Data, w: nat)
    requires Inv(t, s) && Overdue(s, w) && InFifo(Dispatch(t, s).0.write.fifo, w)
    ensures var s' := Dispatch(t, s).0;
      && s'.starved <= t.writesStarved && Potential(p, t, s', w) < Potential(p, t, s, w)
      && NoLater(p, s.write.fifo, w, s'.write.fifo, w) && s'.now == s.now
  {
    hide InFifo, Due, SortedTree, TreeIds, ExpiryOf, FifoIds, InTree, Move, Pick, Times, NoLater, FifoIndex;
    var f := s.write.fifo;
    FifoHas(f, w);
    FirstIsDue(f, s.now + t.writeExpire, w);
    var write := s.write.next.Some?;
    var rq := if write then s.write.next else s.read.next;
    if rq.Some? && s.batching < t.fifoBatch {
      var s1 := s.(batching := s.batching + 1);
      MovedNoLater(p, t, s, s1, write, rq.value, w);
      NoLaterPotential(p, t, s1, w, Move(s1, write, rq.value), w);
    } else if s.read.fifo != [] && s.starved < t.writesStarved {
      PickOk(t, s, false);
      var s1 := s.(starved := s.starved + 1, batching := 1);
      MovedNoLater(p, t, s, s1, false, Pick(s, false).value, w);
      NoLaterPotential(p, t, s1, w, Move(s1, false, Pick(s, false).value), w);
      TimesPlus(t.writesStarved - s.starved - 1, Batch(t));
    } else {
      PickOk(t, s, true);
      TurnToWrites(p, t, s, w);
    }
  }

  lemma FirstIsDue(f: seq<Entry>, bound: nat, w: nat)
    requires SortedFifo(f, bound) && InFifo(f, w)
    ensures f != [] && f[0].expiry <= ExpiryOf(f, w)
  {}

  /** The scheduler turns to the writes: it takes the one that expires first. */
  lemma TurnToWrites(p: bool, t: Tunables, s: Data, w: nat)
    requires Inv(t, s) && Overdue(s, w) && s.write.fifo != []
    requires var s1 := s.(starved := 0, batching := 1); Pick(s, true).Some? && InFifo(Move(s1, true, Pick(s, true).value).write.fifo, w)
    ensures var s' := Move(s.(starved := 0, batching := 1), true, Pick(s, true).value);
      && s'.starved == 0 && Potential(p, t, s', w) < Potential(p, t, s, w)
      && NoLater(p, s.write.fifo, w, s'.write.fifo, w) && s'.now == s.now
  {
    hide InFifo, Due, SortedTree, TreeIds, ExpiryOf, FifoIds, InTree, Move, Times, NoLater, Before, FifoIndex;
    FirstIsDue(s.write.fifo, s.now + t.writeExpire, w);
    assert Pick(s, true) == Some(s.write.fifo[0].id);
    PickOk(t, s, true);
    var s1 := s.(starved := 0, batching := 1);
    var s' := Move(s1, true, s.write.fifo[0].id);
    MovedNoLater(p, t, s, s1, true, s.write.fifo[0].id, w);
    TimesPlus(Before(p, s'.write.fifo, w), Turn(t));
    TimesPlus(t.writesStarved, Batch(t));
    TimesMonotone(0, t.writesStarved - s.starved, Batch(t));
  }

  // ----- runs -----

  /** ls leads from s to s'. */
  ghost predicate Run(t: Tunables, s: Data, ls: seq<Step>, s': Data)
    decreases |ls|
  {
    if ls == [] then s == s' else Enabled(s, ls[0]) && Run(t, Next(t, s, ls[0]), ls[1..], s')
  }

  function Serves(ls: seq<Step>): nat {
    if ls == [] then 0 else One(ls[0].Serve?) + Serves(ls[1..])
  }

  /** The data of w is queued throughout the run. */
  ghost predicate Waits(t: Tunables, s: Data, ls: seq<Step>, w: nat)
    decreases |ls|
  {
    InFifo(s.write.fifo, w) && (ls != [] ==> Waits(t, Next(t, s, ls[0]), ls[1..], Carrier(ls[0], w)))
  }

  /** No absorption of the run moves the data of w back in the list; in particular, none
      does while w itself stays queued. */
  ghost predicate NeverBack(t: Tunables, s: Data, ls: seq<Step>, w: nat)
    decreases |ls|
  {
    ls != [] ==> !MovesBack(s, ls[0], w) && NeverBack(t, Next(t, s, ls[0]), ls[1..], Carrier(ls[0], w))
  }

  /** w itself is queued throughout the run. */
  ghost predicate Stays(t: Tunables, s: Data, ls: seq<Step>, w: nat)
    decreases |ls|
  {
    InFifo(s.write.fifo, w) && (ls != [] ==> Stays(t, Next(t, s, ls[0]), ls[1..], w))
  }

  lemma {:induction false} StayingIsNeverBack(t: Tunables, s: Data, ls: seq<Step>, s': Data, w: nat)
    requires Inv(t, s) && Run(t, s, ls, s') && Stays(t, s, ls, w)
    ensures Waits(t, s, ls, w) && NeverBack(t, s, ls, w)
    decreases |ls|
  {
    hide Inv, Next, InFifo, Overtaken;
    if ls != [] {
      var l := ls[0];
      StepKeepsInv(t, s, l);
      if l.Absorb? && l.write && l.next == w { AbsorbedIsGone(t, s, l.req, w); }
      StayingIsNeverBack(t, Next(t, s, l), ls[1..], s', w);
    }
  }

  lemma AbsorbedIsGone(t: Tunables, s: Data, req: nat, next: nat)
    requires Inv(t, s) && Enabled(s, Absorb(true, req, next))
    ensures !InFifo(Next(t, s, Absorb(true, req, next)).write.fifo, next)
  {
    hide InFifo, Drop, FifoIds, SortedFifo, SortedTree, TreeIds, Overtaken;
    var f := s.write.fifo;
    OvertakenOk(f, req, next, s.now + t.writeExpire);
    FifoDrop(Overtaken(f, req, next), next, s.now + t.writeExpire);
  }

  lemma {:induction false} RunKeepsInv(t: Tunables, s: Data, ls: seq<Step>, s': Data)
    requires Inv(t, s) && Run(t, s, ls, s')
    ensures Inv(t, s')
    decreases |ls|
  {
    hide Inv, Enabled, Next;
    if ls != [] {
      StepKeepsInv(t, s, ls[0]);
      RunKeepsInv(t, Next(t, s, ls[0]), ls[1..], s');
    }
  }

  lemma {:induction false} ServesBelowPotential(p: bool, t: Tunables, s: Data, ls: seq<Step>, s': Data, w: nat)
    requires Inv(t, s) && Run(t, s, ls, s') && Overdue(s, w) && Waits(t, s, ls, w) && (p ==> NeverBack(t, s, ls, w))
    ensures Serves(ls) < Potential(p, t, s, w)
    decreases |ls|
  {
    hide SideBut, Enabled, Next, Potential, InFifo, ExpiryOf, NoLater, FifoIndex, Due, MovesBack, Before;
    if ls == [] {
      PotentialPositive(p, t, s, w);
    } else {
      var l := ls[0];
      var s1, w1 := Next(t, s, l), Carrier(l, w);
      StepKeepsInv(t, s, l);
      if l.Serve? { ServeStep(p, t, s, l, w); } else { OtherStep(p, t, s, l, w); }
      ServesBelowPotential(p, t, s1, ls[1..], s', w1);
    }
  }

  lemma PotentialPositive(p: bool, t: Tunables, s: Data, w: nat)
    requires InFifo(s.write.fifo, w) && s.starved <= t.writesStarved
    ensures Potential(p, t, s, w) >= 1
  {}

  lemma ServeStep(p: bool, t: Tunables, s: Data, l: Step, w: nat)
    requires Inv(t, s) && l.Serve? && Overdue(s, w) && InFifo(Next(t, s, l).write.fifo, w)
    ensures var s1 := Next(t, s, l);
      s1.starved <= t.writesStarved && Overdue(s1, w) && Potential(p, t, s1, w) < Potential(p, t, s, w)
  {
    hide InFifo, Due, SideBut, ExpiryOf, Dispatch, FifoIndex, Potential, Before;
    ServeLowers(p, t, s, w);
    NoLaterFacts(p, s.write.fifo, w, Next(t, s, l).write.fifo, w);
  }

  lemma OtherStep(p: bool, t: Tunables, s: Data, l: Step, w: nat)
    requires Inv(t, s) && Enabled(s, l) && !l.Serve? && Overdue(s, w) && InFifo(Next(t, s, l).write.fifo, Carrier(l, w))
    requires p ==> !MovesBack(s, l, w)
    ensures var s1, w1 := Next(t, s, l), Carrier(l, w);
      s1.starved <= t.writesStarved && Overdue(s1, w1) && Potential(p, t, s1, w1) <= Potential(p, t, s, w)
  {
    hide InFifo, Due, SideBut, ExpiryOf, Next, FifoIndex, Potential, Enabled, Carrier, Before, MovesBack;
    StepNoLater(p, t, s, l, w);
    NoLaterFacts(p, s.write.fifo, w, Next(t, s, l).write.fifo, Carrier(l, w));
    NoLaterPotential(p, t, s, w, Next(t, s, l), Carrier(l, w));
  }

  lemma ServesBounded(p: bool, t: Tunables, s: Data, ls: seq<Step>, s': Data, w: nat)
    requires Inv(t, s) && Run(t, s, ls, s') && Overdue(s, w) && Waits(t, s, ls, w) && (p ==> NeverBack(t, s, ls, w))
    ensures Serves(ls) < (Before(p, s.write.fifo, w) + 1) * ((t.writesStarved + 1) * Batch(t)) + 1
  {
    hide Times, Before, InFifo;
    var k := Before(p, s.write.fifo, w);
    ServesBelowPotential(p, t, s, ls, s', w);
    TimesPlus(k, Turn(t));
    TimesPlus(t.writesStarved, Batch(t));
    TimesMonotone(t.writesStarved - s.starved, t.writesStarved, Batch(t));
    assert Turn(t) == (t.writesStarved + 1) * Batch(t);
    assert Times(k + 1, Turn(t)) == (k + 1) * Turn(t);
  }

  lemma BeforeIs(f: seq<Entry>, w: nat)
    requires InFifo(f, w)
    ensures Before(true, f, w) == FifoIndex(f, w) && Before(false, f, w) + 1 == Due(f, ExpiryOf(f, w))
  {
    DueItself(f, w);
  }

  /** While the data of an overdue write with k writes ahead of it in the list waits, fewer
      dispatches can happen than (k + 1) * (writes_starved + 1) * fifo_batch + 1, whatever
      arrives, is merged, or is moved out meanwhile; unless the write is absorbed by one of
      the same expiry from further behind. */
  lemma BoundedService(t: Tunables, s: Data, ls: seq<Step>, s': Data, w: nat)
    requires Inv(t, s) && Run(t, s, ls, s') && Overdue(s, w) && Waits(t, s, ls, w) && NeverBack(t, s, ls, w)
    ensures Serves(ls) < (FifoIndex(s.write.fifo, w) + 1) * ((t.writesStarved + 1) * Batch(t)) + 1
  {
    hide Inv, Run, Stays, Waits, NeverBack, Before, FifoIndex, ExpiryOf, InFifo, Serves, Batch;
    BeforeIs(s.write.fifo, w);
    ServesBounded(true, t, s, ls, s', w);
  }

  /** In particular as long as w itself is queued. */
  lemma BoundedWait(t: Tunables, s: Data, ls: seq<Step>, s': Data, w: nat)
    requires Inv(t, s) && Run(t, s, ls, s') && Overdue(s, w) && Stays(t, s, ls, w)
    ensures Serves(ls) < (FifoIndex(s.write.fifo, w) + 1) * ((t.writesStarved + 1) * Batch(t)) + 1
  {
    hide Inv, Run, Stays, Waits, NeverBack, Before, FifoIndex, ExpiryOf, InFifo, Serves, Batch;
    StayingIsNeverBack(t, s, ls, s', w);
    BeforeIs(s.write.fifo, w);
    ServesBounded(true, t, s, ls, s', w);
  }

  /** In every run the bound holds with the writes that expire no later, instead of those
      ahead in the list. */
  lemma BoundedServiceByExpiry(t: Tunables, s: Data, ls: seq<Step>, s': Data, w: nat)
    requires Inv(t, s) && Run(t, s, ls, s') && Overdue(s, w) && Waits(t, s, ls, w)
    ensures Serves(ls) < Due(s.write.fifo, ExpiryOf(s.write.fifo, w)) * ((t.writesStarved + 1) * Batch(t)) + 1
  {
    hide Inv, Run, Waits, Before, FifoIndex, ExpiryOf, InFifo, Due, Serves, Batch;
    BeforeIs(s.write.fifo, w);
    ServesBounded(false, t, s, ls, s', w);
  }
}
