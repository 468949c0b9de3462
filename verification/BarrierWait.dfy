/** What a sequence with a drain phase waits for, in every mode and for every submitter. */
module BarrierWait {
  import opened Blkdev
  import opened Barrier
  import opened BarrierOnce
  import opened BarrierPhases

  /** The driver has no request that the block layer counts as in flight. */
  ghost predicate NoneInFlight(driver: map<nat, Rq>) { forall id: nat :: id in driver ==> !driver[id].fs && !driver[id].discard }

  lemma CountIsZero(q: Queue)
    requires Sound(q) && q.inFlight == 0
    ensures NoneInFlight(q.driver)
  {
    hide Places;
    forall id: nat | id in q.driver ensures !q.driver[id].fs && !q.driver[id].discard {
      assert id !in Accounted(q.driver);
    }
  }

  /** The drain phase of a sequence is over, or the whole sequence. */
  predicate Past(q: Queue) { !Active(q) || q.ordseq.drain }

  ghost predicate EndsIn(log: seq<Event>, log': seq<Event>, orig: nat) {
    exists i :: |log| <= i < |log'| && log'[i].Ended? && log'[i].orig == orig
  }

  // ----- what ends a drain phase -----

  lemma ElvWaits(q: Queue, r: Rq, gap: nat)
    requires Core(AccountDone(q, r), gap) && Active(q) && !q.ordseq.drain && Past(ElvCompleted(q, r))
    ensures NoneInFlight(q.driver)
  {
    var q1 := AccountDone(q, r);
    hide CompleteSeq, Phases, Window, History, ProperLog, ReqSeq;
    assert q1.inFlight == 0;
    CountIsZero(q1);
  }

  lemma CompleteSeqDriver(q: Queue, bits: OrdSeq, error: int)
    ensures CompleteSeq(q, bits, error).0.driver == q.driver && CompleteSeq(q, bits, error).0.mode == q.mode
    ensures !Active(CompleteSeq(q, bits, error).0) ==> q.ordseq.Or(bits).drain || !Active(q)
    ensures Active(CompleteSeq(q, bits, error).0) ==> CompleteSeq(q, bits, error).0.ordseq == q.ordseq.Or(bits)
  {}

  lemma ElvDriver(q: Queue, r: Rq)
    ensures ElvCompleted(q, r).driver == q.driver
  {
    hide CompleteSeq, ReqSeq;
    CompleteSeqDriver(AccountDone(q, r), DRAIN_BIT, 0);
  }

  lemma ReportDriver(q: Queue, id: nat, error: int)
    requires Active(q)
    ensures Report(q, id, error).driver == q.driver
    ensures Past(Report(q, id, error)) ==> q.ordseq.drain
  {
    hide CompleteSeq;
    CompleteSeqDriver(q.(log := q.log + [PhaseDone(id, error)]), ProxyBit(id), error);
  }

  lemma ProxyEndWaits(q: Queue, id: nat, error: int)
    requires Core(q, NO_GAP) && id in q.driver && id < FIRST_ID && !q.ordseq.drain
    requires Past(Report(ElvCompleted(q.(driver := q.driver - {id}), q.driver[id]), id, error))
    ensures NoneInFlight(Report(ElvCompleted(q.(driver := q.driver - {id}), q.driver[id]), id, error).driver)
  {
    var r := q.driver[id];
    var q1 := q.(driver := q.driver - {id});
    LeaveDriver(q, AccountDone(q1, r), id);
    ProxyLeaves(q, id);
    hide Core, ElvCompleted, Report, NoneInFlight;
    ElvDriver(q1, r);
    ReportDriver(ElvCompleted(q1, r), id, error);
    ElvWaits(q1, r, id);
  }

  lemma ProxyWaits(q: Queue, id: nat, error: int)
    requires Core(q, NO_GAP) && id in q.driver && id < FIRST_ID && !q.ordseq.drain && Past(Complete(q, id, error))
    ensures NoneInFlight(Complete(q, id, error).driver)
  {
    DriverSelf(q);
    BarErrorKeeps(q, error);
    hide Core, ElvCompleted, Report, NoneInFlight, Past;
    ProxyEndWaits(if id == BAR then BarError(q, error) else q, id, error);
  }

  lemma InnerCore(q: Queue, id: nat)
    requires Core(q, NO_GAP)
    ensures Core(q.(log := q.log + [Completed(id)]), NO_GAP)
  {
    InnerEvent(q, q.(log := q.log + [Completed(id)]), Completed(id));
    hide Places, Kinds, Accounted, WindowAt, ProperLog, Live, Fresh, Open, Has;
  }

  lemma PlainWaits(q: Queue, id: nat, error: int)
    requires Core(q, NO_GAP) && id in q.driver && id >= FIRST_ID && Active(q) && !q.ordseq.drain && Past(Complete(q, id, error))
    ensures NoneInFlight(Complete(q, id, error).driver)
  {
    DriverSelf(q);
    InnerCore(q, id);
    hide Core, ElvCompleted, NoneInFlight;
    var r := q.driver[id];
    var q0 := q.(log := q.log + [Completed(id)]);
    var q1 := q0.(driver := q.driver - {id});
    LeaveDriver(q0, AccountDone(q1, r), id);
    ElvDriver(q1, r);
    ElvWaits(q1, r, NO_GAP);
  }

  lemma CompleteWaits(q: Queue, id: nat, error: int)
    requires Core(q, NO_GAP) && id in q.driver && Active(q) && !q.ordseq.drain && Past(Complete(q, id, error))
    ensures NoneInFlight(Complete(q, id, error).driver)
  {
    hide Core, NoneInFlight, Past, Complete;
    if id < FIRST_ID { ProxyWaits(q, id, error); } else { PlainWaits(q, id, error); }
  }

  lemma StartWaits(q: Queue)
    requires Core(q, NO_GAP) && !Active(q) && q.head != [] && IsBarrier(q.head[0])
    requires Starting(q).mode.drain && Past(StartOrdered(q).0)
    ensures NoneInFlight(StartOrdered(q).0.driver)
  {
    IdleNotActive(q);
    StartOrderedIs(q);
    StartingIs(q);
    StartingKeeps(q);
    StartingBits(q);
    hide Core, Starting, StartOrdered, CompleteSeq, WithProxies, EffectiveMode, History, ProperLog;
    CompleteSeqDriver(Starting(q), Skipped(Starting(q)), 0);
    CountIsZero(Starting(q));
  }

  lemma StartingBits(q: Queue)
    requires q.head != []
    ensures !Starting(q).ordseq.drain
  {
    hide WithProxies, EffectiveMode;
  }

  // ----- a barrier without data -----

  /** A sequence without proxies is never past its drain phase while it runs. */
  lemma OnlyDrains(q: Queue)
    requires Core(q, NO_GAP) && Active(q) && !q.mode.preflush && !q.mode.bar && !q.mode.postflush
    ensures !q.ordseq.drain
  {
    hide Sound, History, ProperLog, Open, OneSequence, ErrorOf, Done;
    assert Bit(q.ordseq, PRE_FLUSH) && Bit(q.ordseq, BAR) && Bit(q.ordseq, POST_FLUSH);
  }

  lemma EmptyMode(next: Mode, m: Mode)
    requires ValidMode(next) && next.bar && !next.preflush && ModeFits(next, 0, m)
    ensures m.drain && !m.preflush && !m.bar && !m.postflush
  {}

  /** New events add no request and end no barrier but this one, and that only if the
      sequence is over. */
  ghost predicate Grows(log: seq<Event>, log': seq<Event>, orig: nat, over: bool) {
    && |log| <= |log'| && (forall i :: 0 <= i < |log| ==> log'[i] == log[i])
    && forall i :: |log| <= i < |log'| ==> !log'[i].Added? && (log'[i].Ended? ==> over && log'[i].orig == orig)
  }

  lemma GrowsBy(log: seq<Event>, e: Event, orig: nat, over: bool)
    requires !e.Added? && (e.Ended? ==> over && e.orig == orig)
    ensures Grows(log, log + [e], orig, over) && Grows(log, log, orig, over)
  {}

  lemma GrowsOn(a: seq<Event>, b: seq<Event>, c: seq<Event>, orig: nat, over: bool, over': bool)
    requires Grows(a, b, orig, over) && Grows(b, c, orig, over')
    ensures Grows(a, c, orig, over || over')
  {}

  lemma GrowsAdded(log: seq<Event>, log': seq<Event>, orig: nat, over: bool, b: nat)
    requires Grows(log, log', orig, over)
    ensures forall r: Rq :: Added(r) in log' ==> Added(r) in log
    ensures EndsIn(log, log', b) ==> over && b == orig
  {
    forall r: Rq | Added(r) in log' ensures Added(r) in log {
      var i :| 0 <= i < |log'| && log'[i] == Added(r);
      assert i < |log|;
      assert log[i] == Added(r);
    }
  }

  lemma CompleteSeqGrows(q: Queue, bits: OrdSeq, error: int)
    requires Active(q)
    ensures var q' := CompleteSeq(q, bits, error).0; Grows(q.log, q'.log, q.orig.id, !Active(q')) && q'.orig == q.orig
  {
    var q' := CompleteSeq(q, bits, error).0;
    if !Active(q') { GrowsBy(q.log, q'.log[|q.log|], q.orig.id, true); } else { GrowsBy(q.log, Completed(0), q.orig.id, false); }
  }

  lemma ElvGrows(q: Queue, r: Rq)
    requires q.ordseq == IDLE || Active(q)
    ensures var q' := ElvCompleted(q, r);
      Grows(q.log, q'.log, q.orig.id, Active(q) && !Active(q')) && q'.orig == q.orig && (Active(q') ==> Active(q))
  {
    var q1 := AccountDone(q, r);
    hide CompleteSeq, ReqSeq;
    if ElvCompleted(q, r) != q1 { CompleteSeqGrows(q1, DRAIN_BIT, 0); } else { GrowsBy(q.log, Completed(0), q.orig.id, false); }
  }

  lemma ProxyGrows(q: Queue, id: nat, error: int)
    requires Core(q, NO_GAP) && id in q.driver && id < FIRST_ID
    ensures var q' := Report(ElvCompleted(q.(driver := q.driver - {id}), q.driver[id]), id, error);
      Active(q) && Grows(q.log, q'.log, q.orig.id, !Active(q'))
  {
    var r := q.driver[id];
    var q1 := q.(driver := q.driver - {id});
    var q2 := ElvCompleted(q1, r);
    ProxyLeaves(q, id);
    hide Core, ElvCompleted, CompleteSeq, Grows;
    ElvGrows(q1, r);
    var q3 := q2.(log := q2.log + [PhaseDone(id, error)]);
    GrowsBy(q2.log, PhaseDone(id, error), q.orig.id, false);
    CompleteSeqGrows(q3, ProxyBit(id), error);
    GrowsOn(q.log, q2.log, q3.log, q.orig.id, false, false);
    GrowsOn(q.log, q3.log, Report(q2, id, error).log, q.orig.id, false, !Active(Report(q2, id, error)));
  }

  lemma CompleteGrows(q: Queue, id: nat, error: int)
    requires Core(q, NO_GAP) && id in q.driver
    ensures var q' := Complete(q, id, error); Grows(q.log, q'.log, q.orig.id, Active(q) && !Active(q'))
  {
    DriverSelf(q);
    CoreIdle(q);
    BarErrorKeeps(q, error);
    hide Core, ElvCompleted, Report, Grows;
    if id < FIRST_ID {
      var q0 := if id == BAR then BarError(q, error) else q;
      ProxyGrows(q0, id, error);
      GrowsBy(q.log, PartError(error), q.orig.id, false);
      GrowsOn(q.log, q0.log, Complete(q, id, error).log, q.orig.id, false, !Active(Complete(q, id, error)));
    } else {
      var q1 := q.(driver := q.driver - {id}, log := q.log + [Completed(id)]);
      ElvGrows(q1, q.driver[id]);
      GrowsBy(q.log, Completed(id), q.orig.id, false);
      GrowsOn(q.log, q1.log, Complete(q, id, error).log, q.orig.id, false, Active(q) && !Active(Complete(q, id, error)));
    }
  }

  /** A completion ends a barrier without data: then nothing is in flight. */
  lemma EmptyCompleteWaits(next: Mode, q: Queue, id: nat, error: int, r: Rq)
    requires Core(q, NO_GAP) && Phased(next, q) && ValidMode(next) && id in q.driver && !next.preflush
    requires EndsIn(q.log, Complete(q, id, error).log, r.id) && Added(r) in Complete(q, id, error).log && r.nsect == 0
    ensures NoneInFlight(Complete(q, id, error).driver)
  {
    var q' := Complete(q, id, error);
    CompleteGrows(q, id, error);
    GrowsAdded(q.log, q'.log, q.orig.id, Active(q) && !Active(q'), r.id);
    RunningSize(next, q, r);
    EmptyMode(next, q.mode);
    OnlyDrains(q);
    hide Core, Complete, Phased, NoneInFlight;
    CompleteWaits(q, id, error);
  }

  lemma RunningSize(next: Mode, q: Queue, r: Rq)
    requires Phased(next, q) && Active(q) && Added(r) in q.log && r.id == q.orig.id
    ensures r.nsect == q.orig.nsect && ModeFits(next, r.nsect, q.mode) && next.bar
  {
    hide PhaseLog, Closed, Known, Ordered, Stacked, Carried, Begun, ModeFits;
  }

  // ----- the same when a fetch starts the sequence -----

  lemma StartGrows(q: Queue, r: Rq)
    requires q.ordseq == IDLE && q.head != [] && EndsIn(q.log, StartOrdered(q).0.log, r.id)
    ensures r.id == q.head[0].id && !Active(StartOrdered(q).0)
    ensures Added(r) in StartOrdered(q).0.log ==> Added(r) in q.log
  {
    StartOrderedIs(q);
    StartingIs(q);
    var s, q' := Starting(q), StartOrdered(q).0;
    hide CompleteSeq, Starting, StartOrdered;
    CompleteSeqGrows(s, Skipped(s), 0);
    StartsThenEnds(q.log, s.log, q'.log, q.head[0].id, !Active(q'), r);
  }

  lemma StartsThenEnds(log: seq<Event>, log1: seq<Event>, log': seq<Event>, orig: nat, over: bool, r: Rq)
    requires Grows(log1, log', orig, over) && EndsIn(log, log', r.id)
    requires |log1| == |log| + 1 && log1[..|log|] == log && log1[|log|].SeqStart?
    ensures over && r.id == orig && (Added(r) in log' ==> Added(r) in log)
  {
    var i :| |log| <= i < |log'| && log'[i].Ended? && log'[i].orig == r.id;
    assert log'[|log|] == log1[|log|];
    if Added(r) in log' {
      var k :| 0 <= k < |log'| && log'[k] == Added(r);
      assert k < |log1| && log1[k] == Added(r);
      assert log[k] == Added(r);
    }
  }

  lemma HeadSize(next: Mode, q: Queue, r: Rq)
    requires Phased(next, q) && q.head != [] && !IsProxy(q.head[0]) && Added(r) in q.log && r.id == q.head[0].id
    ensures r.nsect == q.head[0].nsect
  {
    HeadFacts(next, q, 0);
  }

  lemma EmptyStartWaits(next: Mode, q: Queue, r: Rq)
    requires Core(q, NO_GAP) && Phased(next, q) && ValidMode(next) && !Active(q) && next != ORDERED_NONE && !next.preflush
    requires q.head != [] && IsBarrier(q.head[0]) && !IsProxy(q.head[0]) && EndsIn(q.log, StartOrdered(q).0.log, r.id)
    requires Added(r) in StartOrdered(q).0.log && r.nsect == 0
    ensures NoneInFlight(StartOrdered(q).0.driver)
  {
    IdleNotActive(q);
    StartGrows(q, r);
    HeadSize(next, q, r);
    PhasedNext(next, q);
    ModeFitting(next, 0);
    StartingIs(q);
    EmptyMode(next, Starting(q).mode);
    hide Core, Phased, Starting, StartOrdered, NoneInFlight;
    StartWaits(q);
  }

  lemma MarkEnds(q: Queue, e: Event, log: seq<Event>, b: nat)
    requires q.head != [] && !e.Ended? && !e.Added? && |log| <= |q.log| && EndsIn(log, MarkHead(q, e).log, b)
    ensures EndsIn(log, q.log, b) && forall r: Rq :: Added(r) in MarkHead(q, e).log ==> Added(r) in q.log
  {
    var log' := MarkHead(q, e).log;
    InLog(q.log, e);
    var i :| |log| <= i < |log'| && log'[i].Ended? && log'[i].orig == b;
    assert q.log[i] == log'[i];
  }

  lemma LogGrew(q: Queue)
    requires q.head != [] && (q.ordseq == IDLE || Active(q))
    ensures |q.log| <= |DoOrdered(q).0.log| && DoOrdered(q).0.driver == (if q.ordseq == IDLE && IsBarrier(q.head[0]) && q.next != ORDERED_NONE then StartOrdered(q).0.driver else q.driver)
  {
    hide WithProxies, EffectiveMode;
  }

  lemma FetchEnds(q: Queue, b: nat)
    requires q.head != [] && |q.log| <= |DoOrdered(q).0.log| && EndsIn(q.log, Fetch(q).log, b)
    ensures EndsIn(q.log, DoOrdered(q).0.log, b) && Fetch(q).driver == DoOrdered(q).0.driver
    ensures forall r: Rq :: Added(r) in Fetch(q).log ==> Added(r) in DoOrdered(q).0.log
  {
    hide DoOrdered, EndsIn;
    var (q1, more, given) := DoOrdered(q);
    if more && given && q1.head != [] { MarkEnds(q1, HandedEvent(q1, q1.head[0]), q.log, b); }
  }

  lemma EmptyFetchWaits(next: Mode, q: Queue, r: Rq)
    requires Core(q, NO_GAP) && Phased(next, q) && ValidMode(next) && q.head != [] && next != ORDERED_NONE && !next.preflush
    requires EndsIn(q.log, Fetch(q).log, r.id) && Added(r) in Fetch(q).log && r.nsect == 0
    ensures NoneInFlight(Fetch(q).driver)
  {
    CoreIdle(q);
    PhasedNext(next, q);
    if !Active(q) {
      NoProxiesIdle(q);
      assert q.head[0] in q.head;
    }
    LogGrew(q);
    hide Core, Phased, StartOrdered, EndsIn, NoneInFlight, Fetch;
    FetchEnds(q, r.id);
    if Active(q) || !IsBarrier(q.head[0]) {
      NothingEnds(q.log, r.id);
    } else {
      EmptyStartWaits(next, q, r);
    }
  }

  lemma NothingEnds(log: seq<Event>, b: nat)
    ensures !EndsIn(log, log, b)
  {}

  // ----- over every run -----

  lemma OneEvent(log: seq<Event>, e: Event, b: nat)
    ensures EndsIn(log, log + [e], b) ==> e.Ended?
  {}

  lemma EmptyStepWaits(c: Callers, next: Mode, q: Queue, l: Label, r: Rq)
    requires Core(q, NO_GAP) && Phased(next, q) && ValidMode(next) && Enabled(c, q, l)
    requires next != ORDERED_NONE && !next.preflush && r.nsect == 0
    requires EndsIn(q.log, Next(c, q, l).log, r.id) && Added(r) in Next(c, q, l).log
    ensures NoneInFlight(Next(c, q, l).driver)
  {
    hide Core, Phased, EndsIn, NoneInFlight, Fetch, Complete, RequeuePoint, ReqSeq, Fresh;
    NothingEnds(q.log, r.id);
    match l
    case LAdd(x, where) => OneEvent(q.log, Added(x.(color := q.ordcolor, epoch := q.barriers)), r.id);
    case LFetch => EmptyFetchWaits(next, q, r);
    case LComplete(id, error) => EmptyCompleteWaits(next, q, id, error, r);
    case LBarError(error) => OneEvent(q.log, PartError(error), r.id);
    case _ =>
  }

  /** On a queue whose mode has no flush before the barrier, a barrier without data ends only
      when the driver has no file system request and no discard, tags or not. */
  lemma EmptyBarrierWaits(c: Callers, q0: Queue, ls: seq<Label>, q: Queue, l: Label, r: Rq)
    requires Initial(q0) && Run(c, q0, ls, q) && Enabled(c, q, l) && q0.next != ORDERED_NONE && !q0.next.preflush
    requires EndsIn(q.log, Next(c, q, l).log, r.id) && Added(r) in Next(c, q, l).log && r.nsect == 0
    ensures NoneInFlight(Next(c, q, l).driver)
  {
    hide Run, EndsIn, NoneInFlight, Core, Phased, Next, Enabled, Initial;
    InitialPhased(q0);
    RunPhased(c, q0.next, q0, ls, q);
    EmptyStepWaits(c, q0.next, q, l, r);
  }

  lemma FetchDrains(q: Queue)
    requires Core(q, NO_GAP) && q.head != [] && Active(Fetch(q)) && Fetch(q).mode.drain && Fetch(q).ordseq.drain
    requires !(Active(q) && q.ordseq.drain)
    ensures NoneInFlight(Fetch(q).driver)
  {
    CoreIdle(q);
    if !Active(q) && IsBarrier(q.head[0]) && q.next != ORDERED_NONE { StartedMode(q); }
    LogGrew(q);
    hide Core, StartOrdered, NoneInFlight;
    if !Active(q) && IsBarrier(q.head[0]) && q.next != ORDERED_NONE { StartWaits(q); }
  }

  lemma StartedMode(q: Queue)
    requires q.ordseq == IDLE && q.head != []
    ensures StartOrdered(q).0.mode == Starting(q).mode
  {
    StartOrderedIs(q);
    hide Starting, StartOrdered, CompleteSeq;
    CompleteSeqDriver(Starting(q), Skipped(Starting(q)), 0);
  }

  lemma CompleteActive(q: Queue, id: nat, error: int)
    requires Core(q, NO_GAP) && id in q.driver && Active(Complete(q, id, error))
    ensures Active(q)
  {
    DriverSelf(q);
    CoreIdle(q);
    if id < FIRST_ID {
      DriverOpen(q, id);
    } else {
      hide Core, ElvCompleted;
      ElvGrows(q.(driver := q.driver - {id}, log := q.log + [Completed(id)]), q.driver[id]);
    }
  }

  /** Whenever the drain phase of a sequence is over, the driver has no such request either. */
  lemma DrainPhaseWaits(c: Callers, q0: Queue, ls: seq<Label>, q: Queue, l: Label)
    requires Initial(q0) && Run(c, q0, ls, q) && Enabled(c, q, l)
    requires var q' := Next(c, q, l); Active(q') && q'.mode.drain && q'.ordseq.drain && !(Active(q) && q.ordseq.drain)
    ensures NoneInFlight(Next(c, q, l).driver)
  {
    hide Run, NoneInFlight, Core, Next, Enabled, Initial, Phased;
    InitialPhased(q0);
    RunCore(c, q0, ls, q);
    DrainStepWaits(c, q, l);
  }

  lemma SamePhases(c: Callers, q: Queue, l: Label)
    requires Enabled(c, q, l) && !l.LFetch? && !l.LComplete?
    ensures Next(c, q, l).ordseq == q.ordseq
  {
    hide RequeuePoint, ReqSeq, Fresh, InsertAt;
  }

  lemma DrainStepWaits(c: Callers, q: Queue, l: Label)
    requires Core(q, NO_GAP) && Enabled(c, q, l)
    requires var q' := Next(c, q, l); Active(q') && q'.mode.drain && q'.ordseq.drain && !(Active(q) && q.ordseq.drain)
    ensures NoneInFlight(Next(c, q, l).driver)
  {
    if !l.LFetch? && !l.LComplete? { SamePhases(c, q, l); }
    hide NoneInFlight, Core, Fetch, Complete, Add, Dispatch, Start, Requeue, BarError, Fresh;
    match l
    case LFetch => FetchDrains(q);
    case LComplete(id, error) =>
      CompleteActive(q, id, error);
      CompleteWaits(q, id, error);
    case _ =>
  }
}
