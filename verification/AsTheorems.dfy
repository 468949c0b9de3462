/** What holds of the anticipatory scheduler over every run. */
module AsTheorems {
  import opened Optional
  import opened SortList
  import opened AsChoice
  import opened AsIosched
  import opened AsInvariant

  /** The state after the operations ls, in order. */
  function After(t: Tunables, s: Data, ls: seq<Step>): Data
    decreases |ls|
  {
    if ls == [] then s else After(t, Next(t, s, ls[0]), ls[1..])
  }

  ghost predicate Runs(t: Tunables, s: Data, ls: seq<Step>)
    decreases |ls|
  {
    ls == [] || (Enabled(s, ls[0]) && Runs(t, Next(t, s, ls[0]), ls[1..]))
  }

  lemma InitOk(t: Tunables, now: nat)
    ensures Inv(t, Init(t, now))
  {}

  lemma {:induction false} RunKeepsInv(t: Tunables, s: Data, ls: seq<Step>)
    requires Inv(t, s) && Runs(t, s, ls)
    ensures Inv(t, After(t, s, ls))
    decreases |ls|
  {
    hide Inv, Enabled, Next;
    if ls != [] {
      StepKeepsInv(t, s, ls[0]);
      RunKeepsInv(t, Next(t, s, ls[0]), ls[1..]);
    }
  }

  /** In every state that can be reached the wait for a request in flight has a process
      with a request that has not ended, the wait for its next one a process whose request
      has; so no BUG_ON of the anticipation fires. A new batch is one of reads, and a
      changed one waits for something in flight. */
  lemma AnticipationSound(t: Tunables, now: nat, ls: seq<Step>)
    requires Runs(t, Init(t, now), ls)
    ensures var s := After(t, Init(t, now), ls);
      && (s.status == WaitReq ==> s.ioc.Some? && !s.iocFinished)
      && (s.status == WaitNext ==> s.ioc.Some? && s.iocFinished)
      && (s.batch.isNew ==> s.batch.sync && !s.batch.changed)
      && (s.batch.changed ==> s.nrDispatched > 0) && s.nrDispatched == |s.inDriver|
  {
    hide SideOk, Apart, Next, Enabled, Init;
    InitOk(t, now);
    RunKeepsInv(t, Init(t, now), ls);
  }

  /** When a request is dispatched, the next request of its direction is the best of all
      the others exactly when looking at its neighbours is enough. */
  lemma DispatchChoosesBest(side: Side, id: nat)
    requires SortedTree(side.tree) && TreeIds(side.tree) && InTree(side.tree, id) && |side.tree| > 1
    ensures var i, m := TreeIndex(side.tree, id), MovedSide(side, id);
      && i < |side.tree| && m.last == side.tree[i].sector + side.tree[i].nsect
      && m.next == IdOf(FindNextRq(side.tree, m.last, i))
      && (PicksBest(side.tree, m.last, i, FindNextRq(side.tree, m.last, i)) <==> NeighboursSuffice(side.tree, m.last, i))
  {
    hide InTree, SortedTree, TreeIds, FindNextRq, NeighboursSuffice, PicksBest, MovedSide, TreeIndex;
    MovedNext(side, id);
    LocalChoiceExact(side.tree, TreeIndex(side.tree, id));
  }

  lemma MovedNext(side: Side, id: nat)
    requires TreeIds(side.tree) && InTree(side.tree, id)
    ensures var i, m := TreeIndex(side.tree, id), MovedSide(side, id);
      i < |side.tree| && m.last == side.tree[i].sector + side.tree[i].nsect && m.next == IdOf(FindNextRq(side.tree, m.last, i))
  {
    hide InTree, TreeIds, FindNextRq;
    FoundInTree(side.tree, id);
    FindNextOk(side.(last := MovedSide(side, id).last), id);
  }

  // ----- a wait ends -----

  /** A request in flight belongs to the process whose request has not ended. */
  ghost predicate Awaited(ioc: Option<nat>, finished: bool, inDriver: map<nat, bool>, iocOf: map<nat, nat>) {
    ioc.Some? && !finished ==> exists id: nat :: id in inDriver && SameContext(ioc, iocOf, Some(id))
  }

  ghost predicate Known(fifo: seq<Entry>, iocOf: map<nat, nat>) { forall id: nat :: InFifo(fifo, id) ==> id in iocOf }

  ghost predicate Causes(s: Data) { Awaited(s.ioc, s.iocFinished, s.inDriver, s.iocOf) && Known(s.sync.fifo, s.iocOf) }

  /** Every read that arrives has an io context. */
  ghost predicate WithContext(l: Step) { l.Arrive? && l.d ==> l.ioc.Some? }

  lemma MoveAwaited(s: Data, d: bool, id: nat)
    requires Known(s.sync.fifo, s.iocOf) && (d ==> InFifo(s.sync.fifo, id))
    ensures var m := Move(s, d, id); Awaited(m.ioc, m.iocFinished, m.inDriver, m.iocOf) && m.iocOf == s.iocOf
  {
    hide InFifo, Move, MovedSide;
    MoveShape(s, d, id);
    if d { assert SameContext(Move(s, d, id).ioc, s.iocOf, Some(id)); }
  }

  lemma TreeInFifo(t: Tunables, s: Data, d: bool, id: nat)
    requires Inv(t, s) && InTree(Of(s, d).tree, id)
    ensures InFifo(Of(s, d).fifo, id)
  {
    hide InTree, InFifo, SortedTree, TreeIds, FifoIds, SortedFifo, Apart;
  }

  lemma AddRbCauses(t: Tunables, s: Data, d: bool, n: Node)
    requires InvBut(t, s, d, Some(n.id)) && Causes(s)
    ensures Causes(AddRb(s, d, n)) && AddRb(s, d, n).iocOf == s.iocOf
    ensures forall x: nat :: InFifo(Of(AddRb(s, d, n), d).fifo, x) ==> InFifo(Of(s, d).fifo, x)
    ensures Of(AddRb(s, d, n), !d) == Of(s, !d)
  {
    hide InFifo, InTree, Move, MovedSide, SortedTree, TreeIds, FifoIds, SortedFifo, Alias, Apart, InsertAt, Place, Awaited;
    var side := Of(s, d);
    var a := Alias(side.tree, n.sector);
    if a.Some? {
      MovedAlias(side, n, a.value);
      MoveOk(t, s, d, a.value, Some(n.id));
      MoveShape(s, d, a.value);
      MoveAwaited(s, d, a.value);
    }
  }

  lemma ArriveCauses(t: Tunables, s: Data, d: bool, n: Node, ioc: Option<nat>, guess: bool)
    requires Inv(t, s) && Causes(s) && Enabled(s, Arrive(d, n, ioc, guess)) && (d ==> ioc.Some?)
    ensures Causes(Add(t, s, d, n, ioc, guess))
  {
    var s0 := if ioc.Some? then s.(iocOf := s.iocOf[n.id := ioc.value]) else s.(iocOf := s.iocOf - {n.id});
    ContextGiven(s, n.id, ioc);
    hide InFifo, AddRb, Causes, UpdateRq, Inv, InvBut, With, Of, Add, FifoExpire;
    InvOut(t, s, s0, d, n.id);
    AddRbCauses(t, s0, d, n);
    ListedCauses(t, AddRb(s0, d, n), d, Entry(n.id, s.now + FifoExpire(t, d)), guess);
    AddIs(t, s, d, n, ioc, guess);
  }

  lemma AddIs(t: Tunables, s: Data, d: bool, n: Node, ioc: Option<nat>, guess: bool)
    ensures var s0 := if ioc.Some? then s.(iocOf := s.iocOf[n.id := ioc.value]) else s.(iocOf := s.iocOf - {n.id});
      var s1 := AddRb(s0, d, n);
      Add(t, s, d, n, ioc, guess) == UpdateRq(t, With(s1, d, Of(s1, d).(fifo := Of(s1, d).fifo + [Entry(n.id, s.now + FifoExpire(t, d))])), d, n.id, guess)
  {
    hide AddRb, UpdateRq, With, Of, FifoExpire;
  }

  lemma ListedCauses(t: Tunables, s: Data, d: bool, e: Entry, guess: bool)
    requires Causes(s) && (d ==> e.id in s.iocOf)
    ensures Causes(UpdateRq(t, With(s, d, Of(s, d).(fifo := Of(s, d).fifo + [e])), d, e.id, guess))
  {
    hide InFifo, UpdateRq, Awaited;
    Appended(Of(s, d).fifo, e);
    UpdateShape(t, With(s, d, Of(s, d).(fifo := Of(s, d).fifo + [e])), d, e.id, guess);
  }

  lemma UpdateShape(t: Tunables, s: Data, d: bool, id: nat, guess: bool)
    ensures var u := UpdateRq(t, s, d, id, guess);
      && u.sync.fifo == s.sync.fifo && u.ioc == s.ioc && u.iocFinished == s.iocFinished && u.inDriver == s.inDriver && u.iocOf == s.iocOf
  {
    hide NodeOf, ChooseReq;
  }

  lemma InvOut(t: Tunables, s: Data, s0: Data, d: bool, id: nat)
    requires Inv(t, s) && !Queued(s, id) && s0 == s.(iocOf := s0.iocOf)
    ensures InvBut(t, s0, d, Some(id))
  {
    hide InTree, InFifo, SortedTree, TreeIds, FifoIds, SortedFifo, Apart, AnticOk, CountOk;
    Flip(t, s, d);
  }

  lemma ContextGiven(s: Data, id: nat, ioc: Option<nat>)
    requires Causes(s) && id !in s.inDriver && !Queued(s, id)
    ensures var c := if ioc.Some? then s.iocOf[id := ioc.value] else s.iocOf - {id};
      Awaited(s.ioc, s.iocFinished, s.inDriver, c) && Known(s.sync.fifo, c)
  {
    hide InFifo;
    var c := if ioc.Some? then s.iocOf[id := ioc.value] else s.iocOf - {id};
    if s.ioc.Some? && !s.iocFinished {
      var x: nat :| x in s.inDriver && SameContext(s.ioc, s.iocOf, Some(x));
      assert SameContext(s.ioc, c, Some(x));
    }
  }

  lemma Appended(f: seq<Entry>, e: Entry)
    ensures forall x: nat :: InFifo(f + [e], x) ==> InFifo(f, x) || x == e.id
  {}

  lemma FrontCauses(t: Tunables, s: Data, d: bool, id: nat, sector: nat, nsect: nat)
    requires Inv(t, s) && Causes(s) && InFifo(Of(s, d).fifo, id)
    ensures Causes(FrontMerged(s, d, id, sector, nsect))
  {
    hide InFifo, InTree, SortedTree, TreeIds, FifoIds, SortedFifo, AddRb, Apart, Drop;
    Flip(t, s, d);
    var side := Of(s, d);
    TreeDrop(side.tree, id);
    AddRbCauses(t, With(s, d, side.(tree := Drop(side.tree, TreeIndex(side.tree, id)))), d, Node(id, sector, nsect));
  }

  lemma AbsorbCauses(t: Tunables, s: Data, d: bool, req: nat, next: nat)
    requires Inv(t, s) && Causes(s) && Enabled(s, Absorb(d, req, next))
    ensures Causes(Merged(s, d, req, next))
  {
    hide InFifo, InTree, SortedTree, TreeIds, FifoIds, SortedFifo, Remove, Overtaken;
    var side := Of(s, d);
    var bound := s.now + FifoExpire(t, d);
    OvertakenOk(side.fifo, req, next, bound);
    RemoveOk(side.(fifo := Overtaken(side.fifo, req, next)), next, bound, None);
  }

  lemma ServeCauses(t: Tunables, s: Data, guess: bool)
    requires Inv(t, s) && Causes(s)
    ensures Causes(Dispatch(t, s, guess).0)
  {
    hide InTree, SideOk, Dispatch, Served, Awaited;
    ServeOk(t, s, guess);
    var r := Dispatch(t, s, guess);
    if r.1 {
      var d: bool, id: nat :| Served(s, r.0, d, id);
      ServedCauses(t, s, r.0, d, id);
    } else {
      SameCauses(s, r.0);
    }
  }

  lemma SameCauses(s: Data, s': Data)
    requires SameQueue(s, s') && Awaited(s.ioc, s.iocFinished, s.inDriver, s.iocOf)
    ensures Awaited(s'.ioc, s'.iocFinished, s'.inDriver, s'.iocOf)
  {
    if s.ioc.Some? && !s.iocFinished {
      var id: nat :| id in s.inDriver && SameContext(s.ioc, s.iocOf, Some(id));
      assert SameContext(s'.ioc, s'.iocOf, Some(id));
    }
  }

  lemma ServedCauses(t: Tunables, s: Data, s': Data, d: bool, id: nat)
    requires Inv(t, s) && Known(s.sync.fifo, s.iocOf) && Served(s, s', d, id)
    ensures Causes(s')
  {
    hide InTree, InFifo, Drop, SortedFifo, SortedTree, TreeIds, Apart;
    TreeInFifo(t, s, d, id);
    FifoDrop(Of(s, d).fifo, id, s.now + FifoExpire(t, d));
    if d { assert SameContext(s'.ioc, s'.iocOf, Some(id)); }
  }

  lemma {:induction false} FlushCauses(t: Tunables, s: Data, d: bool)
    requires Inv(t, s) && Causes(s)
    ensures Causes(Flush(s, d))
    decreases |Of(s, d).tree|
  {
    hide InTree, SideOk, InFifo, Apart, Move, MovedSide, AnticOk, CountOk, Awaited;
    var next := Of(s, d).next;
    if next.Some? && TreeIndex(Of(s, d).tree, next.value) < |Of(s, d).tree| {
      FoundInTree(Of(s, d).tree, next.value);
      TreeInFifo(t, s, d, next.value);
      Flip(t, s, d);
      MoveOk(t, s, d, next.value, None);
      MoveShape(s, d, next.value);
      MoveAwaited(s, d, next.value);
      Flip(t, Move(s, d, next.value), d);
      MoveSideOk(Of(s, d), next.value, s.now + FifoExpire(t, d), None);
      FlushCauses(t, Move(s, d, next.value), d);
    }
  }

  lemma ForceCauses(t: Tunables, s: Data)
    requires Inv(t, s) && Causes(s)
    ensures Causes(Force(s))
  {
    hide InFifo, Agree, Apart, Flush, Awaited;
    var s0 := s.(batch := s.batch.(sync := true, changed := false, isNew := false));
    FlushCauses(t, s0, true);
    FlushOk(t, s0, true);
    FlushCauses(t, Flush(s0, true).(sync := Flush(s0, true).sync.(lastCheck := s.now)), false);
  }

  lemma DoneCauses(t: Tunables, s: Data, id: nat)
    requires Inv(t, s) && Causes(s) && id in s.inDriver
    ensures Causes(Complete(t, s, id))
  {
    hide InFifo, SideOk, BatchDone, CountOk;
    var s' := Complete(t, s, id);
    if !SameContext(s.ioc, s.iocOf, Some(id)) && s.ioc.Some? && !s.iocFinished {
      var x: nat :| x in s.inDriver && SameContext(s.ioc, s.iocOf, Some(x));
      assert SameContext(s'.ioc, s'.iocOf, Some(x));
    }
  }

  lemma StepCauses(t: Tunables, s: Data, l: Step)
    requires Inv(t, s) && Causes(s) && Enabled(s, l) && WithContext(l)
    ensures Causes(Next(t, s, l))
  {
    hide Inv, InFifo, Add, FrontMerged, Merged, Dispatch, Force, Complete;
    match l
    case Arrive(d, n, ioc, guess) => ArriveCauses(t, s, d, n, ioc, guess);
    case Tick(now) =>
    case Front(d, id, sector, nsect) => FrontCauses(t, s, d, id, sector, nsect);
    case Back(d, id, nsect) =>
    case Absorb(d, req, next) => AbsorbCauses(t, s, d, req, next);
    case Serve(guess) => ServeCauses(t, s, guess);
    case Drain => ForceCauses(t, s);
    case Done(id) => DoneCauses(t, s, id);
    case Timeout =>
  }

  lemma {:induction false} RunCauses(t: Tunables, s: Data, ls: seq<Step>)
    requires Inv(t, s) && Causes(s) && Runs(t, s, ls) && forall l :: l in ls ==> WithContext(l)
    ensures Inv(t, After(t, s, ls)) && Causes(After(t, s, ls))
    decreases |ls|
  {
    hide Inv, Causes, Enabled, Next, WithContext;
    if ls != [] {
      StepKeepsInv(t, s, ls[0]);
      StepCauses(t, s, ls[0]);
      RunCauses(t, Next(t, s, ls[0]), ls[1..]);
    }
  }

  /** When every read carries an io context, the scheduler never waits for nothing: if
      requests are queued and a dispatch call serves none, then the timer runs, or a
      request of the awaited process is in flight and its end starts the timer, or the
      change of direction waits for something in flight. */
  lemma NeverWaitsForNothing(t: Tunables, now: nat, ls: seq<Step>, guess: bool)
    requires Runs(t, Init(t, now), ls) && forall l :: l in ls ==> WithContext(l)
    ensures var s := After(t, Init(t, now), ls); var r := Dispatch(t, s, guess);
      (s.sync.fifo != [] || s.async.fifo != []) && !r.1 ==>
        || r.0.status == WaitNext
        || (r.0.status == WaitReq && exists id: nat :: id in r.0.inDriver && SameContext(r.0.ioc, r.0.iocOf, Some(id)))
        || (r.0.batch.changed && |r.0.inDriver| > 0)
  {
    hide SideOk, Apart, Enabled, Next, Dispatch, InFifo, Init, Served, WithContext, SameContext;
    InitOk(t, now);
    InitCauses(t, now);
    RunCauses(t, Init(t, now), ls);
    var s := After(t, Init(t, now), ls);
    ServeOk(t, s, guess);
    ServeCauses(t, s, guess);
  }

  lemma InitCauses(t: Tunables, now: nat)
    ensures Causes(Init(t, now))
  {}

  // ----- what the code does not promise -----

  /** Waiting for a request in flight, with a read queued and nothing in flight. */
  ghost predicate Stalled(s: Data) { s.status == WaitReq && s.inDriver == map[] && s.sync.fifo != [] }

  /** Nothing is queued or in flight and no wait is on. */
  ghost predicate Idle(s: Data) {
    && s.sync.tree == [] && s.sync.fifo == [] && s.sync.next == None
    && s.async.tree == [] && s.async.fifo == [] && s.async.next == None
    && s.status == Off && !s.batch.changed && s.iocOf == map[] && s.inDriver == map[] && s.nrDispatched == 0
  }

  lemma ReadArrives(t: Tunables, s: Data, n: Node, ioc: Option<nat>, guess: bool)
    requires Idle(s)
    ensures Add(t, s, true, n, ioc, guess)
      == s.(sync := s.sync.(tree := [n], fifo := [Entry(n.id, s.now + t.syncFifo)], next := Some(n.id)),
            iocOf := if ioc.Some? then map[n.id := ioc.value] else map[])
  {
    assert InsertAt([], 0, n) == [n];
    assert TreeIndex([n], n.id) == 0;
  }

  lemma OnlyReadMoves(s: Data, n: Node)
    requires s.sync.tree == [n] && |s.sync.fifo| == 1 && s.sync.fifo[0].id == n.id
    ensures var m := Move(s, true, n.id);
      m == s.(sync := Side([], [], None, n.sector + n.nsect, s.sync.lastCheck), status := Off, ioc := Context(s, true, n.id),
              iocFinished := false, inDriver := s.inDriver[n.id := true], nrDispatched := s.nrDispatched + 1, out := s.out + [n.id])
  {
    assert TreeIndex([n], n.id) == 0 && FifoIndex(s.sync.fifo, n.id) == 0;
  }

  /** A single read of which nothing holds the scheduler back. */
  ghost predicate OneRead(t: Tunables, s: Data, n: Node) {
    && s.sync.tree == [n] && |s.sync.fifo| == 1 && s.sync.fifo[0].id == n.id && s.now <= s.sync.fifo[0].expiry
    && s.sync.next == Some(n.id) && s.async.fifo == [] && s.async.next == None
    && s.status == Off && !s.batch.changed && s.inDriver == map[] && s.nrDispatched == 0
    && (s.ioc == None || (s.iocFinished && AnticExpired(t, s)))
  }

  /** s after the only read went to the driver. */
  ghost predicate ReadGone(s: Data, s': Data, n: Node) {
    && s'.sync.tree == [] && s'.sync.fifo == [] && s'.sync.next == None && s'.sync.last == n.sector + n.nsect
    && s'.async.tree == s.async.tree && s'.async.fifo == [] && s'.async.next == None
    && s'.status == Off && s'.batch.sync && !s'.batch.changed && s'.inDriver == map[n.id := true] && s'.nrDispatched == 1
    && s'.iocOf == s.iocOf && s'.ioc == Context(s, true, n.id) && !s'.iocFinished && s'.now == s.now
  }

  lemma ReadRuns(t: Tunables, s: Data, s1: Data, n: Node)
    requires OneRead(t, s, n) && s1.batch.sync
    requires s1 == s.(batch := s1.batch, sync := s.sync.(lastCheck := s1.sync.lastCheck))
    ensures ReadGone(s, Run(t, s1, n.id).0, n)
  {
    hide Move;
    var b := s1.batch;
    OnlyReadMoves(s1.(batch := if b.changed then b.(isNew := true, changed := false) else b), n);
  }

  lemma ReadServiced(t: Tunables, s: Data, s1: Data, n: Node)
    requires OneRead(t, s, n) && s1.batch.sync
    requires s1 == s.(batch := s1.batch, sync := s.sync.(lastCheck := s1.sync.lastCheck))
    ensures ReadGone(s, Service(t, s1, n.id).0, n)
  {
    hide Run, ReadGone, AnticExpired;
    ReadRuns(t, s, Checked(t, s1, true), n);
  }

  lemma ReadServed(t: Tunables, s: Data, n: Node, guess: bool)
    requires OneRead(t, s, n)
    ensures ReadGone(s, Dispatch(t, s, guess).0, n)
  {
    hide Service, Run, ReadGone, CloseCandidate, SameContext;
    ReadServiced(t, s, Switch(s, true), n);
    if s.batch.sync {
      var s1 := Checked(t, s, true);
      ReadServiced(t, s, s.(batch := s.batch.(expires := s.now + t.syncBatch)), n);
      ReadServiced(t, s, s1.(batch := s1.batch.(expires := s1.now + t.syncBatch)), n);
    }
  }

  lemma ReadDone(t: Tunables, s: Data, s': Data, n: Node)
    requires ReadGone(s, s', n) && s.async.tree == []
    requires forall x :: x in s.iocOf ==> x == n.id
    ensures var e := Complete(t, s', n.id);
      && Idle(e) && e.batch.sync && e.sync.last == n.sector + n.nsect && e.now == s.now && e.ioc == s'.ioc
      && e.iocFinished == SameContext(s'.ioc, s'.iocOf, Some(n.id)) && (e.iocFinished ==> e.anticStart == s.now)
  {
    hide WriteMax;
    assert s'.iocOf - {n.id} == map[];
    assert s'.inDriver - {n.id} == map[];
  }

  ghost predicate Leads(t: Tunables, s: Data, ls: seq<Step>, s': Data) { Runs(t, s, ls) && After(t, s, ls) == s' }

  lemma LeadsNone(t: Tunables, s: Data)
    ensures Leads(t, s, [], s)
  {}

  lemma LeadsCons(t: Tunables, s: Data, l: Step, ls: seq<Step>, s': Data)
    requires Enabled(s, l) && Leads(t, Next(t, s, l), ls, s')
    ensures Leads(t, s, [l] + ls, s')
  {
    hide Enabled, Next;
    assert ([l] + ls)[1..] == ls;
  }

  /** A read arrives at an idle scheduler, is served at once and ends. */
  lemma ReadRound(t: Tunables, s: Data, n: Node, ioc: Option<nat>) returns (ls: seq<Step>, e: Data)
    requires Idle(s) && (s.ioc == None || (s.iocFinished && AnticExpired(t, s)))
    ensures Leads(t, s, ls, e)
    ensures Idle(e) && e.batch.sync && e.sync.last == n.sector + n.nsect && e.now == s.now
    ensures if ioc.Some? then e.ioc == ioc && e.iocFinished && e.anticStart == s.now else e.ioc == s.ioc && (s.ioc.Some? ==> !e.iocFinished)
  {
    hide Add, Dispatch, Complete, Leads;
    var l := Arrive(true, n, ioc, false);
    ReadArrives(t, s, n, ioc, false);
    var s1 := Next(t, s, l);
    ReadServed(t, s1, n, false);
    var s2 := Next(t, s1, Serve(false));
    ReadDone(t, s1, s2, n);
    e := Next(t, s2, Done(n.id));
    LeadsNone(t, e);
    LeadsCons(t, s2, Done(n.id), [], e);
    LeadsCons(t, s1, Serve(false), [Done(n.id)] + [], e);
    LeadsCons(t, s, l, [Serve(false)] + ([Done(n.id)] + []), e);
    ls := [l] + ([Serve(false)] + ([Done(n.id)] + []));
  }

  lemma {:induction false} LeadsConcat(t: Tunables, s: Data, ls: seq<Step>, s': Data, ms: seq<Step>, s'': Data)
    requires Leads(t, s, ls, s') && Leads(t, s', ms, s'')
    ensures Leads(t, s, ls + ms, s'')
    decreases |ls|
  {
    hide Enabled, Next;
    if ls == [] {
      assert ls + ms == ms;
    } else {
      LeadsConcat(t, Next(t, s, ls[0]), ls[1..], s', ms, s'');
      assert (ls + ms)[1..] == ls[1..] + ms;
    }
  }

  /** The read that arrives when the awaited process has its request marked as not
      finished, and nothing in flight. */
  lemma ReadStalls(t: Tunables, s: Data, n: Node, ioc: Option<nat>) returns (ls: seq<Step>, e: Data)
    requires Idle(s) && s.batch.sync && s.ioc.Some? && !s.iocFinished && ioc.Some? && ioc != s.ioc && t.anticExpire > 0
    requires n.sector > s.sync.last + 8192
    ensures Leads(t, s, ls, e) && Stalled(e)
  {
    hide Add, Leads, AnticExpired;
    ReadArrives(t, s, n, ioc, false);
    var s1 := Next(t, s, Arrive(true, n, ioc, false));
    e := Next(t, s1, Serve(false));
    assert TreeIndex([n], n.id) == 0;
    LeadsNone(t, e);
    LeadsCons(t, s1, Serve(false), [], e);
    LeadsCons(t, s, Arrive(true, n, ioc, false), [Serve(false)] + [], e);
    ls := [Arrive(true, n, ioc, false)] + ([Serve(false)] + []);
  }

  /** A read without an io context leaves the awaited process in place and marks its
      request as not finished: then a wait can start that nothing in flight will end.
      Process 7 reads and is not back in time, a read without a context is served, and a
      read of process 8 far away is made to wait for process 7. No guess matters before
      the last, which is the answer for a process with nothing queued and no history. */
  lemma StallWithoutContext(t: Tunables, now: nat)
    requires t.anticExpire > 0
    ensures exists ls: seq<Step> :: Runs(t, Init(t, now), ls) && Stalled(After(t, Init(t, now), ls))
  {
    hide Init, Idle, Leads, Stalled;
    var s0 := Init(t, now);
    InitIdle(t, now);
    var ls1, s1 := ReadRound(t, s0, Node(0, 8, 8), Some(7));
    var s2 := s1.(now := now + t.anticExpire);
    Later(t, s1, s2);
    var ls2, s3 := ReadRound(t, s2, Node(1, 16, 8), None);
    var ls3, s4 := ReadStalls(t, s3, Node(2, 1000000, 8), Some(8));
    LeadsConcat(t, s0, ls1, s1, [Tick(s2.now)], s2);
    LeadsConcat(t, s0, ls1 + [Tick(s2.now)], s2, ls2, s3);
    LeadsConcat(t, s0, (ls1 + [Tick(s2.now)]) + ls2, s3, ls3, s4);
    var ls := ((ls1 + [Tick(s2.now)]) + ls2) + ls3;
    assert Runs(t, s0, ls) && After(t, s0, ls) == s4 by { LeadsMeans(t, s0, ls, s4); }
  }

  lemma LeadsMeans(t: Tunables, s: Data, ls: seq<Step>, s': Data)
    requires Leads(t, s, ls, s')
    ensures Runs(t, s, ls) && After(t, s, ls) == s'
  {}

  lemma InitIdle(t: Tunables, now: nat)
    ensures Idle(Init(t, now)) && Init(t, now).ioc == None && Init(t, now).now == now
  {}

  lemma Later(t: Tunables, s: Data, s': Data)
    requires Idle(s) && s.iocFinished && s.anticStart == s.now && s' == s.(now := s.now + t.anticExpire)
    ensures Idle(s') && AnticExpired(t, s') && Leads(t, s, [Tick(s'.now)], s')
  {
    LeadsNone(t, s');
    LeadsCons(t, s, Tick(s'.now), [], s');
    assert [Tick(s'.now)] + [] == [Tick(s'.now)];
  }

  // ----- and exactly when -----

  /** Without an anticipation time nothing is ever awaited. */
  lemma MoveCalm(s: Data, d: bool, id: nat)
    ensures !Waiting(Move(s, d, id))
  {}

  lemma {:induction false} FlushCalm(s: Data, d: bool)
    requires !Waiting(s)
    ensures !Waiting(Flush(s, d))
    decreases |Of(s, d).tree|
  {
    hide Move;
    var side := Of(s, d);
    if side.next.Some? && TreeIndex(side.tree, side.next.value) < |side.tree| {
      MoveCalm(s, d, side.next.value);
      assert |Of(Move(s, d, side.next.value), d).tree| < |side.tree| by { MoveShape(s, d, side.next.value); }
      FlushCalm(Move(s, d, side.next.value), d);
    }
  }

  lemma ServiceCalm(t: Tunables, s: Data, rq: nat)
    requires !Waiting(s)
    ensures !Waiting(Service(t, s, rq).0)
  {
    hide Move;
    var id := if FifoExpired(t, s, s.batch.sync) then Head(s, s.batch.sync) else rq;
    var s1 := Checked(t, s, s.batch.sync);
    var b := s1.batch;
    var b1 := if !b.changed then b
              else if b.sync then b.(isNew := true, changed := false)
              else b.(expires := s1.now + t.asyncBatch, changed := false);
    MoveCalm(s1.(batch := b1), b.sync, id);
  }

  lemma SelectCalm(t: Tunables, s: Data)
    requires !Waiting(s)
    ensures !Waiting(Select(t, s).0)
  {
    hide Service;
    var d := s.sync.fifo != [] && !(s.async.fifo != [] && s.batch.sync);
    if Of(s, d).fifo != [] { ServiceCalm(t, Switch(s, d), Head(s, d)); }
  }

  lemma GoOnCalm(t: Tunables, s: Data)
    requires !Waiting(s)
    ensures !Waiting(GoOn(t, s).0)
  {
    hide Service, Select;
    SelectCalm(t, s);
    var rq := Of(s, s.batch.sync).next;
    if rq.Some? {
      ServiceCalm(t, s, rq.value);
      ServiceCalm(t, s.(batch := s.batch.(expires := s.now + t.syncBatch)), rq.value);
    }
  }

  lemma ServeCalm(t: Tunables, s: Data, guess: bool)
    requires !Waiting(s) && t.anticExpire == 0
    ensures !Waiting(Dispatch(t, s, guess).0)
  {
    hide Select, GoOn, ReadBatch;
    var s0 := if !s.batch.sync && s.sync.fifo == [] && (s.batch.writeCount == 0 || s.async.fifo == [])
              then s.(batch := s.batch.(idled := true)) else s;
    SelectCalm(t, s0);
    GoOnCalm(t, s0);
  }

  lemma AddRbCalm(s: Data, d: bool, n: Node)
    requires !Waiting(s)
    ensures !Waiting(AddRb(s, d, n))
  {
    hide Move, Alias, Place, InsertAt;
    var a := Alias(Of(s, d).tree, n.sector);
    if a.Some? { MoveCalm(s, d, a.value); }
  }

  lemma AddCalm(t: Tunables, s: Data, d: bool, n: Node, ioc: Option<nat>, guess: bool)
    requires !Waiting(s)
    ensures !Waiting(Add(t, s, d, n, ioc, guess))
  {
    hide AddRb, ChooseReq, NodeOf, CanBreak;
    AddRbCalm(if ioc.Some? then s.(iocOf := s.iocOf[n.id := ioc.value]) else s.(iocOf := s.iocOf - {n.id}), d, n);
  }

  lemma ForceCalm(s: Data)
    requires !Waiting(s)
    ensures !Waiting(Force(s))
  {
    hide Flush;
    var s0 := s.(batch := s.batch.(sync := true, changed := false, isNew := false));
    FlushCalm(s0, true);
    FlushCalm(Flush(s0, true).(sync := Flush(s0, true).sync.(lastCheck := s0.now)), false);
  }

  lemma DoneCalm(t: Tunables, s: Data, id: nat)
    requires !Waiting(s) && id in s.inDriver
    ensures !Waiting(Complete(t, s, id))
  {
    hide BatchDone;
  }

  lemma StepCalm(t: Tunables, s: Data, l: Step)
    requires !Waiting(s) && t.anticExpire == 0
    ensures !Waiting(Next(t, s, l))
  {
    hide Add, AddRb, Dispatch, Force, Complete, Drop, TreeIndex;
    match l
    case Arrive(d, n, ioc, guess) => AddCalm(t, s, d, n, ioc, guess);
    case Tick(now) =>
    case Front(d, id, sector, nsect) =>
      AddRbCalm(With(s, d, Of(s, d).(tree := Drop(Of(s, d).tree, TreeIndex(Of(s, d).tree, id)))), d, Node(id, sector, nsect));
    case Back(d, id, nsect) =>
    case Absorb(d, req, next) =>
    case Serve(guess) => ServeCalm(t, s, guess);
    case Drain => ForceCalm(s);
    case Done(id) => if id in s.inDriver { DoneCalm(t, s, id); }
    case Timeout =>
  }

  lemma {:induction false} RunCalm(t: Tunables, s: Data, ls: seq<Step>)
    requires !Waiting(s) && t.anticExpire == 0
    ensures !Waiting(After(t, s, ls))
    decreases |ls|
  {
    hide Next;
    if ls != [] {
      StepCalm(t, s, ls[0]);
      RunCalm(t, Next(t, s, ls[0]), ls[1..]);
    }
  }

  /** No run stalls; if `always`, of those in which every read has an io context. */
  ghost predicate NoStall(t: Tunables, now: nat, always: bool) {
    forall ls: seq<Step> :: Runs(t, Init(t, now), ls) && (always ==> forall l :: l in ls ==> WithContext(l)) ==>
      !Stalled(After(t, Init(t, now), ls))
  }

  /** Whatever the tunables are, stalls are excluded exactly if reads always have an io
      context or nothing is ever anticipated. */
  lemma NoStallExactly(t: Tunables, now: nat, always: bool)
    ensures NoStall(t, now, always) <==> always || t.anticExpire == 0
  {
    hide Init, Next, Enabled, Inv, Stalled, Waiting, Causes, WithContext, Runs, After;
    InitOk(t, now);
    InitIdle(t, now);
    InitCauses(t, now);
    var s := Init(t, now);
    if always || t.anticExpire == 0 {
      forall ls: seq<Step> | Runs(t, s, ls) && (always ==> forall l :: l in ls ==> WithContext(l))
        ensures !Stalled(After(t, s, ls))
      {
        if always {
          RunCauses(t, s, ls);
          AwaitedDoesNotStall(t, After(t, s, ls));
        } else {
          IdleIsCalm(s);
          RunCalm(t, s, ls);
          CalmDoesNotStall(After(t, s, ls));
        }
      }
    } else {
      StallWithoutContext(t, now);
    }
  }

  lemma AwaitedDoesNotStall(t: Tunables, s: Data)
    requires Inv(t, s) && Causes(s)
    ensures !Stalled(s)
  {
    hide SideOk, Apart, CountOk, SameContext;
  }

  lemma CalmDoesNotStall(s: Data)
    requires !Waiting(s)
    ensures !Stalled(s)
  {}

  lemma IdleIsCalm(s: Data)
    requires Idle(s)
    ensures !Waiting(s)
  {}

  /** From there neither time nor calls of the driver bring a request out. */
  lemma {:induction false} StallLasts(t: Tunables, s: Data, ls: seq<Step>)
    requires Stalled(s) && forall l :: l in ls ==> l.Tick? || l.Serve?
    ensures Stalled(After(t, s, ls)) && After(t, s, ls).out == s.out
    decreases |ls|
  {
    hide Stalled, Next;
    if ls != [] {
      StallStep(t, s, ls[0]);
      StallLasts(t, Next(t, s, ls[0]), ls[1..]);
    }
  }

  lemma StallStep(t: Tunables, s: Data, l: Step)
    requires Stalled(s) && (l.Tick? || l.Serve?)
    ensures Stalled(Next(t, s, l)) && Next(t, s, l).out == s.out
  {
    hide Select, GoOn, ReadBatch;
  }

  /** After a front merge there is no next request exactly when there was none before, or
      when the request that starts at the same sector was dispatched and was the only other one. */
  lemma FrontNextExact(t: Tunables, s: Data, d: bool, id: nat, sector: nat, nsect: nat)
    requires Inv(t, s) && InFifo(Of(s, d).fifo, id)
    ensures var rest := Drop(Of(s, d).tree, TreeIndex(Of(s, d).tree, id));
      (Of(FrontMerged(s, d, id, sector, nsect), d).next == None) == (if Alias(rest, sector).Some? then |rest| == 1 else Of(s, d).next == None)
  {
    hide InFifo, InTree, Move, MovedSide, SortedTree, TreeIds, FifoIds, SortedFifo, Alias, Apart, Place, Drop, InsertAt, AnticOk, CountOk;
    Flip(t, s, d);
    var side := Of(s, d);
    TreeDrop(side.tree, id);
    var side1 := side.(tree := Drop(side.tree, TreeIndex(side.tree, id)));
    var a := Alias(side1.tree, sector);
    if a.Some? {
      AliasOk(side1.tree, sector);
      MoveShape(With(s, d, side1), d, a.value);
      MoveSideOk(side1, a.value, s.now + FifoExpire(t, d), Some(id));
    }
  }

  lemma SecondArrives(t: Tunables, s: Data, m: Node, n: Node, ioc: Option<nat>, guess: bool)
    requires s.sync.tree == [m] && m.id != n.id && m.sector < n.sector && s.status == Off
    ensures var s' := Add(t, s, true, n, ioc, guess);
      s'.sync.tree == [m, n] && s'.sync.fifo == s.sync.fifo + [Entry(n.id, s.now + t.syncFifo)] && s'.inDriver == s.inDriver && s'.async == s.async
  {
    hide NodeOf, ChooseReq;
    assert InsertAt([m], 1, n) == [m, n];
    assert Place([m], n.sector) == 1;
  }

  /** A synchronous request is queued, none is next, and a forced dispatch leaves it
      queued. */
  ghost predicate NextLost(s: Data) { s.sync.next == None && s.sync.fifo != [] && Force(s).sync.fifo != [] }

  lemma AliasOfOne(m: Node)
    ensures Alias([m], m.sector) == Some(m.id)
  {}

  lemma FrontKeepsListed(t: Tunables, s: Data, d: bool, id: nat, sector: nat, nsect: nat)
    requires Inv(t, s) && InFifo(Of(s, d).fifo, id)
    ensures InFifo(Of(FrontMerged(s, d, id, sector, nsect), d).fifo, id)
  {
    hide InTree, InFifo, SortedTree, TreeIds, FifoIds, SortedFifo, AddRb, Drop, CountOk, AnticOk;
    Flip(t, s, d);
    var side := Of(s, d);
    TreeDrop(side.tree, id);
    AddRbOk(t, With(s, d, side.(tree := Drop(side.tree, TreeIndex(side.tree, id)))), d, Node(id, sector, nsect));
  }

  /** Such a run, for any tunables: request 1, a synchronous write, grows to the front and
      meets a queued request; the forced dispatch that follows leaves it where it is. */
  lemma ForcedDispatchMayStop(t: Tunables, now: nat)
    ensures exists ls: seq<Step> :: Runs(t, Init(t, now), ls) && NextLost(After(t, Init(t, now), ls))
  {
    hide Add, FrontMerged, Force, Init, Leads, Idle, Inv, NextLost;
    var s0 := Init(t, now);
    var l0, l1, l2 := Arrive(true, M0, Some(7), true), Arrive(true, N1, Some(7), true), Front(true, 1, 8, 16);
    InitOk(t, now);
    InitIdle(t, now);
    TwoArrive(t, s0);
    var s1 := Next(t, s0, l0);
    var s2 := Next(t, s1, l1);
    var s3 := Next(t, s2, l2);
    GrowthLosesNext(t, s2);
    LeadsNone(t, s3);
    LeadsCons(t, s2, l2, [], s3);
    LeadsCons(t, s1, l1, [l2] + [], s3);
    LeadsCons(t, s0, l0, [l1] + ([l2] + []), s3);
    LeadsMeans(t, s0, [l0] + ([l1] + ([l2] + [])), s3);
  }

  const M0: Node := Node(0, 8, 8)
  const N1: Node := Node(1, 16, 8)

  lemma TwoArrive(t: Tunables, s: Data)
    requires Inv(t, s) && Idle(s)
    ensures var l0, l1 := Arrive(true, M0, Some(7), true), Arrive(true, N1, Some(7), true);
      var s1 := Next(t, s, l0); var s2 := Next(t, s1, l1);
      && Enabled(s, l0) && Enabled(s1, l1) && Inv(t, s2)
      && s2.sync.tree == [M0, N1] && |s2.sync.fifo| == 2 && s2.sync.fifo[1].id == 1
  {
    hide Add, Idle, Inv;
    var l0, l1 := Arrive(true, M0, Some(7), true), Arrive(true, N1, Some(7), true);
    ReadArrives(t, s, M0, Some(7), true);
    IdleHasNone(s, 0);
    IdleHasNone(s, 1);
    StepKeepsInv(t, s, l0);
    var s1 := Next(t, s, l0);
    SecondArrives(t, s1, M0, N1, Some(7), true);
    StepKeepsInv(t, s1, l1);
  }

  lemma GrowthLosesNext(t: Tunables, s: Data)
    requires Inv(t, s) && s.sync.tree == [M0, N1] && |s.sync.fifo| == 2 && s.sync.fifo[1].id == 1
    ensures Enabled(s, Front(true, 1, 8, 16)) && NextLost(FrontMerged(s, true, 1, 8, 16))
  {
    hide FrontMerged, Alias, Force, Inv;
    SecondIs(s.sync.fifo);
    StepKeepsInv(t, s, Front(true, 1, 8, 16));
    FrontNextExact(t, s, true, 1, 8, 16);
    assert Drop([M0, N1], 1) == [M0] && TreeIndex([M0, N1], 1) == 1;
    assert Alias([M0], 8) == Some(0) by { AliasOfOne(M0); }
    FrontKeepsListed(t, s, true, 1, 8, 16);
    ForceOk(t, FrontMerged(s, true, 1, 8, 16));
  }

  lemma SecondIs(f: seq<Entry>)
    requires |f| == 2
    ensures InFifo(f, f[1].id)
  {}

  lemma IdleHasNone(s: Data, id: nat)
    requires Idle(s)
    ensures !Queued(s, id) && id !in s.inDriver && s.status == Off && s.async.fifo == []
  {}
}
