/** When the anticipatory scheduler waits for a process: what begins a wait, what ends it,
    and how the wait for a request in flight becomes the wait for the next one. */
module AsWait {
  import opened Optional
  import opened SortList
  import opened AsChoice
  import opened AsIosched
  import opened AsInvariant
  import opened AsTheorems
  import AsOrder

  // ----- conditions, in sectors and jiffies -----

  predicate Timely(s: Data) { s.anticStart <= s.now }

  /** At most 8192 sectors ahead of the end of the last request or half as many behind it,
      twice as far for every jiffy since the awaited process was answered, and anywhere
      after 20 milliseconds or the longest wait. */
  predicate CloseBy(t: Tunables, s: Data, sector: nat)
    requires Timely(s)
  {
    var gap := sector - Of(s, s.batch.sync).last;
    var waited := if s.status == Off || !s.iocFinished then 0 else s.now - s.anticStart;
    20 * t.hz / 1000 < waited || t.anticExpire < waited || -4096 * Pow2(waited) <= gap <= 8192 * Pow2(waited)
  }

  predicate TimedOut(t: Tunables, s: Data) { s.iocFinished && t.anticExpire <= s.now - s.anticStart }

  /** A request that arrives ends a wait: it is of the awaited process, the time is up, or it
      is synchronous and close; `guess` is what the statistics say. */
  predicate EndsWait(t: Tunables, s: Data, d: bool, sector: nat, ioc: Option<nat>, guess: bool)
    requires Timely(s)
  {
    (ioc.Some? && ioc == s.ioc) || TimedOut(t, s) || (d && CloseBy(t, s, sector)) || guess
  }

  /** A call finds the batch one of reads, with none overdue, after a read of a known process,
      and no next read that would end a wait. */
  ghost predicate BeginsWait(t: Tunables, s: Data, guess: bool)
    requires Timely(s)
  {
    && s.batch.sync && !s.batch.changed && t.anticExpire != 0 && (s.sync.fifo != [] || s.async.fifo != [])
    && !(s.sync.fifo != [] && s.async.fifo != [] && AsOrder.BatchOver(s)) && !AsOrder.Overdue(t, s, true)
    && s.ioc.Some? && !TimedOut(t, s) && !guess
    && forall x: Node :: x in s.sync.tree && s.sync.next == Some(x.id) ==>
         !(x.id in s.iocOf && s.ioc == Some(s.iocOf[x.id])) && !CloseBy(t, s, x.sector)
  }

  /** id is the read the scheduler waits for, or one more of the same process. */
  predicate OfAwaited(s: Data, id: nat) { s.ioc.Some? && id in s.iocOf && s.ioc == Some(s.iocOf[id]) }

  // ----- what the conditions of the code come to -----

  lemma CloseIs(t: Tunables, s: Data, sector: nat)
    requires Timely(s)
    ensures CloseReq(t, s, sector) <==> CloseBy(t, s, sector)
  {}

  lemma NodeIs(tree: seq<Node>, i: nat)
    requires TreeIds(tree) && i < |tree|
    ensures NodeOf(tree, Some(tree[i].id)) == Some(tree[i])
  {
    assert InTree(tree, tree[i].id);
    FoundInTree(tree, tree[i].id);
  }

  lemma BreakIs(t: Tunables, s: Data, d: bool, n: Node, guess: bool)
    requires Timely(s) && s.ioc.Some? && (d ==> TreeIds(s.sync.tree) && n in s.sync.tree)
    ensures CanBreak(t, s, d, Some(n.id), guess) <==>
              OfAwaited(s, n.id) || TimedOut(t, s) || (d && CloseBy(t, s, n.sector)) || guess
  {
    hide CloseReq, CloseBy, NodeOf, TreeIds;
    CloseIs(t, s, n.sector);
    if d {
      var i :| 0 <= i < |s.sync.tree| && s.sync.tree[i] == n;
      NodeIs(s.sync.tree, i);
    }
  }

  // ----- steps -----

  /** A call that serves a request ends any wait; one that does not leaves it as it is. */
  predicate Served(s: Data, r: (Data, bool)) {
    && SameTime(s, r.0)
    && if r.1 then r.0.status == Off && |r.0.out| > |s.out| else r.0.out == s.out && r.0.status == s.status
  }

  predicate SameTime(s: Data, s': Data) { s'.now == s.now && s'.anticStart == s.anticStart }

  lemma RunServes(t: Tunables, s: Data, rq: nat)
    ensures Served(s, Run(t, s, rq))
  {
    hide FindNext, Drop, TreeIndex, FifoIndex, Context, Remove;
  }

  lemma ServiceServes(t: Tunables, s: Data, rq: nat)
    ensures Served(s, Service(t, s, rq))
  {
    hide Run, CheckDue;
    RunServes(t, Checked(t, s, s.batch.sync), if FifoExpired(t, s, s.batch.sync) then Head(s, s.batch.sync) else rq);
  }

  lemma SelectServes(t: Tunables, s: Data)
    ensures Served(s, Select(t, s))
  {
    hide Service;
    var d := s.sync.fifo != [] && !(s.async.fifo != [] && s.batch.sync);
    if Of(s, d).fifo != [] { ServiceServes(t, Switch(s, d), Head(s, d)); }
  }

  lemma GoOnServes(t: Tunables, s: Data)
    ensures Served(s, GoOn(t, s))
  {
    hide Service, Select;
    SelectServes(t, s);
    var rq := Of(s, s.batch.sync).next;
    if rq.Some? {
      ServiceServes(t, s, rq.value);
      ServiceServes(t, s.(batch := s.batch.(expires := s.now + t.syncBatch)), rq.value);
    }
  }

  /** What follows a call in a state in which nothing is awaited. */
  ghost predicate Chosen(t: Tunables, s: Data, begins: bool, r: (Data, bool)) {
    && SameTime(s, r.0)
    && if r.1 then r.0.status == Off && |r.0.out| > |s.out|
       else r.0.out == s.out && r.0.status == if begins then (if s.iocFinished then WaitNext else WaitReq) else s.status
  }

  lemma AnticipateIs(t: Tunables, s: Data, guess: bool)
    requires Timely(s) && TreeIds(s.sync.tree) && (s.sync.next.Some? ==> InTree(s.sync.tree, s.sync.next.value))
    requires s.batch.sync && !s.batch.changed && t.anticExpire != 0 && (s.sync.fifo != [] || s.async.fifo != [])
    requires !(s.sync.fifo != [] && s.async.fifo != [] && AsOrder.BatchOver(s)) && !AsOrder.Overdue(t, s, true) && s.status == Off
    ensures CanAnticipate(t, s, s.sync.next, guess) <==> BeginsWait(t, s, guess)
  {
    hide CloseReq, CloseBy, AsOrder.BatchOver, AsOrder.Overdue, NodeOf, TreeIds, InTree, CanBreak;
    if s.ioc.Some? {
      if s.sync.next.Some? {
        NextNode(s.sync.tree, s.sync.next.value);
        var x: Node :| x in s.sync.tree && x.id == s.sync.next.value;
        OnlyOne(s.sync.tree, x);
        BreakIs(t, s, true, x, guess);
      } else {
        BreakNone(t, s, guess);
      }
    }
  }

  lemma BreakNone(t: Tunables, s: Data, guess: bool)
    requires s.ioc.Some? && Timely(s)
    ensures CanBreak(t, s, true, None, guess) <==> TimedOut(t, s) || guess
  {}

  lemma NextNode(tree: seq<Node>, id: nat)
    requires InTree(tree, id)
    ensures exists x: Node :: x in tree && x.id == id
  {}

  lemma OnlyOne(tree: seq<Node>, x: Node)
    requires TreeIds(tree) && x in tree
    ensures forall y: Node :: y in tree && y.id == x.id ==> y == x
  {}

  lemma CheckedTime(t: Tunables, s: Data)
    requires Timely(s)
    ensures var s1 := Checked(t, s, true);
      s1 == s.(sync := s.sync.(lastCheck := s1.sync.lastCheck)) && Timely(s1)
      && (forall sector: nat :: CloseBy(t, s1, sector) == CloseBy(t, s, sector)) && AsOrder.BatchOver(s1) == AsOrder.BatchOver(s)
      && (!AsOrder.Overdue(t, s, true) ==> !AsOrder.Overdue(t, s1, true))
  {
    AsOrder.CheckedSame(t, s, true);
    hide CheckDue;
  }

  lemma ReadServes(t: Tunables, s: Data, guess: bool)
    requires Inv(t, s) && Timely(s) && s.status == Off && s.batch.sync && !s.batch.changed && t.anticExpire != 0
    requires (s.sync.fifo != [] || s.async.fifo != []) && !(s.sync.fifo != [] && s.async.fifo != [] && AsOrder.BatchOver(s))
    ensures Chosen(t, s, BeginsWait(t, s, guess), ReadBatch(t, s, guess))
  {
    hide GoOn, Run, AsOrder.Overdue, AsOrder.BatchOver, Checked, FifoExpired, CanAnticipate, CloseBy, InTree, TreeIds, SortedTree;
    var s1 := Checked(t, s, true);
    CheckedTime(t, s);
    AsOrder.Expires(t, s, true);
    if FifoExpired(t, s, true) {
      RunServes(t, s1, Head(s1, true));
    } else {
      AnticipateIs(t, s1, guess);
      GoOnServes(t, s1);
    }
  }

  lemma ServeMoves(t: Tunables, s: Data, guess: bool)
    requires Inv(t, s) && Timely(s)
    ensures if Waiting(s) then Served(s, Dispatch(t, s, guess)) && !Dispatch(t, s, guess).1
            else Chosen(t, s, s.status == Off && BeginsWait(t, s, guess), Dispatch(t, s, guess))
  {
    AsOrder.MarkedSame(t, s);
    AsOrder.BatchIs(s);
    hide Inv, GoOn, ReadBatch, Select, AsOrder.BatchOver, AsOrder.Overdue, CloseBy;
    var s0 := AsOrder.Marked(s);
    AsOrder.BatchIs(s0);
    SelectServes(t, s0);
    GoOnServes(t, s0);
    if s.batch.sync && t.anticExpire != 0 && !s.batch.changed && !Waiting(s) {
      if s.status == Off {
        if (s.sync.fifo != [] || s.async.fifo != []) && !(s.sync.fifo != [] && s.async.fifo != [] && AsOrder.BatchOver(s)) {
          ReadServes(t, s, guess);
        }
      } else {
        ReadFinished(t, s, guess);
      }
    }
  }

  lemma ReadFinished(t: Tunables, s: Data, guess: bool)
    requires s.status == Finished
    ensures Served(s, ReadBatch(t, s, guess))
  {
    hide GoOn, Run, CheckDue;
    var s1 := Checked(t, s, true);
    if FifoExpired(t, s, true) { RunServes(t, s1, Head(s1, true)); }
    GoOnServes(t, s1);
  }

  lemma {:induction false} FlushServes(s: Data, d: bool)
    ensures SameTime(s, Flush(s, d)) && (Flush(s, d) == s || (Flush(s, d).status == Off && |Flush(s, d).out| > |s.out|))
    decreases |Of(s, d).tree|
  {
    var side := Of(s, d);
    if side.next.Some? && TreeIndex(side.tree, side.next.value) < |side.tree| {
      MoveShape(s, d, side.next.value);
      hide Move, FindNext;
      FlushServes(Move(s, d, side.next.value), d);
    }
  }

  lemma ForceMoves(s: Data)
    ensures Force(s).status == if |s.out| < |Force(s).out| then Off else s.status
    ensures |Force(s).out| >= |s.out| && SameTime(s, Force(s))
  {
    hide Flush;
    var s0 := s.(batch := s.batch.(sync := true, changed := false, isNew := false));
    FlushServes(s0, true);
    FlushServes(Flush(s0, true).(sync := Flush(s0, true).sync.(lastCheck := s.now)), false);
  }

  lemma AddRbMoves(s: Data, d: bool, n: Node)
    ensures var s' := AddRb(s, d, n);
      if Alias(Of(s, d).tree, n.sector).Some? then s'.status == Off && |s'.out| > |s.out|
      else s'.out == s.out && s'.status == s.status && s'.ioc == s.ioc && s'.iocFinished == s.iocFinished && s'.batch == s.batch
           && Of(s', d).last == Of(s, d).last && Of(s', !d) == Of(s, !d) && n in Of(s', d).tree
    ensures AddRb(s, d, n).now == s.now && AddRb(s, d, n).anticStart == s.anticStart && AddRb(s, d, n).iocOf == s.iocOf
  {
    hide FindNext, Drop, TreeIndex, FifoIndex, Context, Remove, Alias, Place;
    var tree := Of(s, d).tree;
    if Alias(tree, n.sector) == None {
      InsertedIn(tree, Place(tree, n.sector), n);
    }
  }

  lemma InsertedIn(tree: seq<Node>, i: nat, n: Node)
    requires i <= |tree|
    ensures n in InsertAt(tree, i, n)
  {
    assert InsertAt(tree, i, n)[i] == n;
  }

  /** The state in which as_add_request calls as_update_rq. */
  ghost function Entered(t: Tunables, s: Data, d: bool, n: Node, ioc: Option<nat>): Data {
    var s0 := if ioc.Some? then s.(iocOf := s.iocOf[n.id := ioc.value]) else s.(iocOf := s.iocOf - {n.id});
    var s1 := AddRb(s0, d, n);
    With(s1, d, Of(s1, d).(fifo := Of(s1, d).fifo + [Entry(n.id, s.now + FifoExpire(t, d))]))
  }

  lemma AddIs(t: Tunables, s: Data, d: bool, n: Node, ioc: Option<nat>, guess: bool)
    ensures Add(t, s, d, n, ioc, guess) == UpdateRq(t, Entered(t, s, d, n, ioc), d, n.id, guess)
  {
    var s0 := if ioc.Some? then s.(iocOf := s.iocOf[n.id := ioc.value]) else s.(iocOf := s.iocOf - {n.id});
    AddRbMoves(s0, d, n);
    hide AddRb, UpdateRq, FifoExpire;
  }

  lemma EnteredMoves(t: Tunables, s: Data, d: bool, n: Node, ioc: Option<nat>)
    ensures var s' := Entered(t, s, d, n, ioc);
      && SameTime(s, s') && (OfAwaited(s', n.id) <==> ioc.Some? && ioc == s'.ioc)
      && if Alias(Of(s, d).tree, n.sector).Some? then s'.status == Off && |s'.out| > |s.out|
         else s'.out == s.out && s'.status == s.status && s'.ioc == s.ioc && s'.iocFinished == s.iocFinished && s'.batch == s.batch
              && Of(s', d).last == Of(s, d).last && Of(s', !d).last == Of(s, !d).last && n in Of(s', d).tree
  {
    var s0 := if ioc.Some? then s.(iocOf := s.iocOf[n.id := ioc.value]) else s.(iocOf := s.iocOf - {n.id});
    AddRbMoves(s0, d, n);
    hide AddRb, Alias, FifoExpire;
  }

  lemma ArriveMoves(t: Tunables, s: Data, d: bool, n: Node, ioc: Option<nat>, guess: bool)
    requires Inv(t, s) && Timely(s) && Enabled(s, Arrive(d, n, ioc, guess))
    ensures var s' := Add(t, s, d, n, ioc, guess);
      if |s'.out| > |s.out| then s'.status == Off
      else s'.status == if Waiting(s) && EndsWait(t, s, d, n.sector, ioc, guess) then Finished else s.status
    ensures |Add(t, s, d, n, ioc, guess).out| >= |s.out| && Timely(Add(t, s, d, n, ioc, guess))
  {
    hide Add, UpdateRq, Entered, CloseBy, Alias;
    ArriveOk(t, s, d, n, ioc, guess);
    var s2 := Entered(t, s, d, n, ioc);
    AddIs(t, s, d, n, ioc, guess);
    EnteredMoves(t, s, d, n, ioc);
    WaitFacts(t, s);
    UpdateSame(t, s2, d, n.id, guess);
    SyncIds(t, Add(t, s, d, n, ioc, guess));
    hide Inv, OfAwaited, TreeIds;
    if Waiting(s2) {
      UpdateMoves(t, s2, d, n, guess);
      CloseSame(t, s, s2, n.sector);
    }
  }

  lemma UpdateSame(t: Tunables, s: Data, d: bool, id: nat, guess: bool)
    ensures var s' := UpdateRq(t, s, d, id, guess);
      && s'.sync.tree == s.sync.tree && s'.out == s.out && s'.now == s.now && s'.anticStart == s.anticStart
      && (!Waiting(s) ==> s'.status == s.status)
  {
    hide ChooseReq, CanBreak, NodeOf;
  }

  lemma SyncIds(t: Tunables, s: Data)
    requires Inv(t, s)
    ensures TreeIds(s.sync.tree)
  {
    hide TreeIds, SortedTree, InTree, InFifo;
  }

  lemma UpdateMoves(t: Tunables, s: Data, d: bool, n: Node, guess: bool)
    requires Timely(s) && Waiting(s) && s.ioc.Some? && TreeIds(s.sync.tree) && n in Of(s, d).tree
    ensures UpdateRq(t, s, d, n.id, guess).status
         == if OfAwaited(s, n.id) || TimedOut(t, s) || (d && CloseBy(t, s, n.sector)) || guess then Finished else s.status
  {
    var side := Of(s, d);
    var s1 := With(s, d, side.(next := IdOf(ChooseReq(side.last, NodeOf(side.tree, Some(n.id)), NodeOf(side.tree, side.next)))));
    CloseSame(t, s, s1, n.sector);
    hide ChooseReq, CanBreak, NodeOf, CloseBy, TreeIds;
    BreakIs(t, s1, d, n, guess);
  }

  lemma WaitFacts(t: Tunables, s: Data)
    requires Inv(t, s)
    ensures Waiting(s) ==> s.ioc.Some?
  {
    hide SideOk, Apart, CountOk;
  }

  lemma CloseSame(t: Tunables, s: Data, s1: Data, sector: nat)
    requires Timely(s) && s1.now == s.now && s1.anticStart == s.anticStart && s1.iocFinished == s.iocFinished && s1.status == s.status
    requires s1.batch.sync == s.batch.sync && Of(s1, s.batch.sync).last == Of(s, s.batch.sync).last
    ensures CloseBy(t, s1, sector) == CloseBy(t, s, sector)
  {}

  lemma FrontMoves(s: Data, d: bool, id: nat, sector: nat, nsect: nat)
    ensures var s' := FrontMerged(s, d, id, sector, nsect);
      (if |s'.out| > |s.out| then s'.status == Off else s'.status == s.status)
      && |s'.out| >= |s.out| && s'.now == s.now && s'.anticStart == s.anticStart
  {
    hide AddRb, Drop, TreeIndex;
    var side := Of(s, d);
    AddRbMoves(With(s, d, side.(tree := Drop(side.tree, TreeIndex(side.tree, id)))), d, Node(id, sector, nsect));
  }

  lemma DoneMoves(t: Tunables, s: Data, id: nat)
    requires Timely(s) && id in s.inDriver
    ensures var s' := Complete(t, s, id);
      && s'.out == s.out && Timely(s') && (OfAwaited(s, id) ==> s'.iocFinished && s'.anticStart == s.now)
      && s'.status == if OfAwaited(s, id) && s.status == WaitReq then WaitNext else s.status
  {
    hide BatchDone;
  }

  // ----- every step -----

  /** What a step that dispatches nothing makes of the status. */
  ghost function StatusAfter(t: Tunables, s: Data, l: Step): Status
    requires Timely(s)
  {
    match s.status
    case Finished => Finished
    case Off => if l.Serve? && BeginsWait(t, s, l.guess) then (if s.iocFinished then WaitNext else WaitReq) else Off
    case _ =>
      match l
      case Timeout => Finished
      case Arrive(d, n, ioc, guess) => if EndsWait(t, s, d, n.sector, ioc, guess) then Finished else s.status
      case Done(id) => if OfAwaited(s, id) then WaitNext else s.status
      case _ => s.status
  }

  ghost predicate Moves(t: Tunables, s: Data, l: Step, s': Data)
    requires Timely(s)
  {
    && |s.out| <= |s'.out| && s'.status == (if |s.out| < |s'.out| then Off else StatusAfter(t, s, l))
    && (l.Done? && OfAwaited(s, l.id) ==> s'.iocFinished && s'.anticStart == s.now)
  }

  lemma ServeStep(t: Tunables, s: Data, guess: bool)
    requires Inv(t, s) && Timely(s)
    ensures Moves(t, s, Serve(guess), Dispatch(t, s, guess).0) && SameTime(s, Dispatch(t, s, guess).0)
  {
    hide Inv, Dispatch, BeginsWait, EndsWait, CloseBy;
    ServeMoves(t, s, guess);
  }

  lemma MergedSame(s: Data, d: bool, id: nat, next: nat, nsect: nat)
    ensures Served(s, (Merged(s, d, id, next), false)) && Served(s, (BackMerged(s, d, id, nsect), false))
  {
    hide Remove, Overtaken, TreeIndex;
  }

  lemma StepMoves(t: Tunables, s: Data, l: Step)
    requires Inv(t, s) && Timely(s) && Enabled(s, l)
    ensures Moves(t, s, l, Next(t, s, l)) && Timely(Next(t, s, l))
  {
    hide Inv, CloseBy, EndsWait, BeginsWait, Add, FrontMerged, BackMerged, Merged, Dispatch, Force, Complete, OfAwaited;
    match l
    case Arrive(d, n, ioc, guess) => ArriveMoves(t, s, d, n, ioc, guess);
    case Tick(now) =>
    case Front(d, id, sector, nsect) => FrontMoves(s, d, id, sector, nsect);
    case Back(d, id, nsect) => MergedSame(s, d, id, id, nsect);
    case Absorb(d, req, next) => MergedSame(s, d, req, next, 0);
    case Serve(guess) => ServeStep(t, s, guess);
    case Drain => ForceMoves(s);
    case Done(id) => DoneMoves(t, s, id);
    case Timeout =>
  }

  lemma {:induction false} RunTimely(t: Tunables, s: Data, ls: seq<Step>)
    requires Inv(t, s) && Timely(s) && Runs(t, s, ls)
    ensures Inv(t, After(t, s, ls)) && Timely(After(t, s, ls))
    decreases |ls|
  {
    hide Inv, Enabled, Next, Moves;
    if ls != [] {
      StepKeepsInv(t, s, ls[0]);
      StepMoves(t, s, ls[0]);
      RunTimely(t, Next(t, s, ls[0]), ls[1..]);
    }
  }

  lemma TimelyAt(t: Tunables, now: nat, ls: seq<Step>)
    requires Runs(t, Init(t, now), ls)
    ensures Inv(t, After(t, Init(t, now), ls)) && Timely(After(t, Init(t, now), ls))
  {
    InitOk(t, now);
    RunTimely(t, Init(t, now), ls);
  }

  /** Over every run and for every operation. A request that is dispatched ends a wait.
      Without one, a wait begins exactly at a call that has nothing better to do; the wait
      for a request in flight becomes the wait for the next one when a read of the awaited
      process has ended; a wait is given up exactly at the time limit or when a request comes
      that may break it; and then none begins. */
  lemma WaitMoves(t: Tunables, now: nat, ls: seq<Step>, l: Step)
    requires Runs(t, Init(t, now), ls) && Enabled(After(t, Init(t, now), ls), l)
    ensures var s := After(t, Init(t, now), ls); Timely(s) && Moves(t, s, l, Next(t, s, l))
  {
    TimelyAt(t, now, ls);
    StepMoves(t, After(t, Init(t, now), ls), l);
  }

  lemma {:induction false} StaysFinished(t: Tunables, s: Data, ls: seq<Step>)
    requires Inv(t, s) && Timely(s) && Runs(t, s, ls)
    ensures |After(t, s, ls).out| >= |s.out|
    ensures s.status == Finished && |After(t, s, ls).out| == |s.out| ==> After(t, s, ls).status == Finished
    decreases |ls|
  {
    hide Inv, Enabled, Next, BeginsWait, EndsWait;
    if ls != [] {
      StepKeepsInv(t, s, ls[0]);
      StepMoves(t, s, ls[0]);
      StaysFinished(t, Next(t, s, ls[0]), ls[1..]);
    }
  }

  /** After a wait was given up a request is dispatched before the next wait. */
  lemma OneWaitPerDispatch(t: Tunables, now: nat, ls: seq<Step>, more: seq<Step>)
    requires Runs(t, Init(t, now), ls) && After(t, Init(t, now), ls).status == Finished
    requires Runs(t, After(t, Init(t, now), ls), more)
    ensures var s := After(t, Init(t, now), ls); var s' := After(t, s, more);
      Waiting(s') ==> |s.out| < |s'.out|
  {
    hide Inv, Enabled, Next, Init;
    TimelyAt(t, now, ls);
    StaysFinished(t, After(t, Init(t, now), ls), more);
  }
}
