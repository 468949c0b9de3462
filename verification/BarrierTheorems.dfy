/** The main results about barriers. */
module BarrierTheorems {
  import opened Blkdev
  import opened Barrier
  import opened BarrierOnce
  import opened BarrierOrder
  import opened BarrierDrain
  import opened BarrierSafety
  import BarrierEnds
  import opened BarrierProgress

  lemma InitialSafe(q: Queue)
    requires Initial(q) && DrainMode(q.next)
    ensures Safe(q) && Flow(q)
  {
    InitialBase(q);
  }

  /** In every mode and every run, whatever submitters do: each sequence reports
      every phase it asked for exactly once and ends its barrier once, with the
      first error any phase reported; and no phase bit is set twice. */
  lemma EachSequenceEndsOnce(c: Callers, q0: Queue, ls: seq<Label>, q: Queue)
    requires Initial(q0) && Run(c, q0, ls, q)
    ensures ProperLog(q.log) && !q.bug
  {
    InitialCore(q0);
    RunCore(c, q0, ls, q);
  }

  /** The error a barrier ends with is that of the earliest failure of its sequence. */
  lemma EndedWithFirstError(c: Callers, q0: Queue, ls: seq<Label>, q: Queue, h: nat) returns (s: nat)
    requires Initial(q0) && Run(c, q0, ls, q) && h < |q.log| && q.log[h].Ended?
    ensures s < h && q.log[s].SeqStart? && q.log[s].orig == q.log[h].orig
    ensures (forall k :: s < k < h ==> !Boundary(q.log[k])) && FirstFailure(q.log[s..h], q.log[h].err)
  {
    EachSequenceEndsOnce(c, q0, ls, q);
    hide Run, Initial, ErrorOf, FirstFailure, Done;
    s :| 0 <= s < h && WholeSequence(q.log[s..h], q.log[h].orig, q.log[h].err);
    var w := q.log[s..h];
    ErrorIsFirst(w);
    assert w[0] == q.log[s];
    forall k | s < k < h ensures !Boundary(q.log[k]) { assert w[k - s] == q.log[k]; }
  }

  /** In drain mode, in every run: before a proxy of a barrier is handed to
      the driver, every request added before the barrier has completed and every
      barrier added before it has ended; nothing added after a barrier, another
      barrier included, is handed over before it has ended; a barrier is handed
      over by its proxies only; and the WARN_ON never fires. */
  lemma BarrierOrderKept(q0: Queue, ls: seq<Label>, q: Queue)
    requires Initial(q0) && DrainMode(q0.next) && Run(GOOD, q0, ls, q)
    ensures SafeLog(q.log) && !q.warn
  {
    InitialSafe(q0);
    RunSafe(q0, ls, q);
  }

  /** And a barrier ends, with data or without, only when every file system request added
      before it has completed. */
  lemma BarrierEndsLast(q0: Queue, ls: seq<Label>, q: Queue)
    requires Initial(q0) && DrainMode(q0.next) && Run(GOOD, q0, ls, q)
    ensures BarrierEnds.EndLog(q.log)
  {
    InitialSafe(q0);
    BarrierEnds.RunEnds(q0, ls, q);
  }

  /** In drain mode a running sequence cannot block an idle driver: its next look
      at the queue is answered with the request at the head. */
  lemma NoDeadlock(q0: Queue, ls: seq<Label>, q: Queue)
    requires Initial(q0) && DrainMode(q0.next) && Run(GOOD, q0, ls, q)
    requires Active(q) && q.driver == map[]
    ensures q.head != [] && DoOrdered(q) == (q, true, true)
  {
    InitialSafe(q0);
    RunFlow(q0, ls, q);
    HeadHasItsTurn(q);
  }

  // ----- what submitters must not do -----

  ghost predicate AlwaysSafe(c: Callers) {
    forall q0, ls, q :: Initial(q0) && DrainMode(q0.next) && Run(c, q0, ls, q) ==> SafeLog(q.log)
  }

  const NO_RQ := Rq(FIRST_ID, false, false, false, false, false, false, false, false, 0, 0, 0)

  function EmptyQueue(): Queue {
    Queue([], [], map[], 0, false, IDLE, 0, ORDERED_DRAIN, ORDERED_DRAIN, NO_RQ, false, false, 0, 0, [], 0)
  }

  function NewRq(id: nat, fs: bool, hard: bool): Rq {
    Rq(id, fs, hard, false, false, false, false, false, true, 0, 8, 0)
  }

  /** Submitters that behave as c allows can take this step. */
  ghost predicate Step(c: Callers, q: Queue, l: Label, q': Queue) { Enabled(c, q, l) && q' == Next(c, q, l) }

  lemma NoStepRun(c: Callers, q: Queue)
    ensures Run(c, q, [], q)
  {}

  lemma StepRun(c: Callers, q0: Queue, ls: seq<Label>, q: Queue, l: Label, q': Queue)
    requires Run(c, q0, ls, q) && Step(c, q, l, q')
    ensures Run(c, q0, ls + [l], q')
  {
    hide Enabled, Next;
    assert [l][1..] == [];
    assert Run(c, q', [], q');
    RunConcat(c, q0, ls, q, [l], q');
  }

  /** A run that breaks the guarantee. */
  lemma UnsafeRun(c: Callers, q0: Queue, ls: seq<Label>, q: Queue)
    requires Initial(q0) && DrainMode(q0.next) && Run(c, q0, ls, q) && !SafeLog(q.log)
    ensures !AlwaysSafe(c)
  {
    hide Initial, Run, SafeLog;
  }

  // The first counterexample: barrier 3 waits when file system request 4 arrives
  // at the front.
  const B3 := NewRq(3, true, true)
  const R4 := NewRq(4, true, false)
  const R4_ADDED := R4.(color := true, epoch := 1)

  function OneBarrier(): Queue {
    EmptyQueue().(head := [B3.(soft := true)], ordcolor := true, barriers := 1, log := [Added(B3)])
  }

  function BehindFront(): Queue {
    OneBarrier().(head := [R4_ADDED.(soft := true), B3.(soft := true)], log := [Added(B3), Added(R4_ADDED)])
  }

  function Overtaken(): Queue {
    BehindFront().(head := [R4_ADDED.(soft := true, started := true), B3.(soft := true)],
                   log := [Added(B3), Added(R4_ADDED), Handed(4)])
  }

  lemma AddFrontSteps(c: Callers)
    requires c.fsFront
    ensures Step(c, EmptyQueue(), LAdd(B3, Back), OneBarrier()) && Step(c, OneBarrier(), LAdd(R4, Front), BehindFront())
  {
    assert Add(EmptyQueue(), B3, Back).head == OneBarrier().head;
    assert Add(OneBarrier(), R4, Front).head == BehindFront().head;
  }

  lemma FetchFrontStep(c: Callers)
    ensures Step(c, BehindFront(), LFetch, Overtaken())
  {
    hide StartOrdered;
    assert Fetch(BehindFront()).head == Overtaken().head;
    assert Fetch(BehindFront()).log == Overtaken().log;
  }

  lemma OvertakenIsUnsafe()
    ensures !SafeLog(Overtaken().log)
  {
    var log := Overtaken().log;
    assert log[..2] == [Added(B3), Added(R4_ADDED)];
    assert AddedAt(log[..2], 0, true, true) && AddedAt(log[..2], 1, true, false);
    assert !SafeEvent(log[..2], log[2]);
  }

  /** A file system request inserted at the front overtakes a waiting barrier. */
  lemma FrontInsertionOvertakes(c: Callers)
    requires c.fsFront
    ensures !AlwaysSafe(c)
  {
    assert Initial(EmptyQueue());
    NoStepRun(c, EmptyQueue());
    hide Step, Run, SafeLog, AlwaysSafe, Initial, EmptyQueue, OneBarrier, BehindFront, Overtaken;
    AddFrontSteps(c);
    FetchFrontStep(c);
    StepRun(c, EmptyQueue(), [], EmptyQueue(), LAdd(B3, Back), OneBarrier());
    StepRun(c, EmptyQueue(), [] + [LAdd(B3, Back)], OneBarrier(), LAdd(R4, Front), BehindFront());
    StepRun(c, EmptyQueue(), [] + [LAdd(B3, Back)] + [LAdd(R4, Front)], BehindFront(), LFetch, Overtaken());
    OvertakenIsUnsafe();
    UnsafeRun(c, EmptyQueue(), [] + [LAdd(B3, Back)] + [LAdd(R4, Front)] + [LFetch], Overtaken());
  }

  // The second counterexample: request 3 is in the driver when request 4, which is
  // no file system request but carries REQ_HARDBARRIER, and barrier 5 arrive.
  const R3 := NewRq(3, true, false)
  const X4 := NewRq(4, false, true)
  const B5 := NewRq(5, true, true)
  const B5_ADDED := B5.(color := true)
  const R3_STARTED := R3.(soft := true, started := true)
  const X4_STARTED := X4.(soft := true, started := true)

  function OneAdded(): Queue { EmptyQueue().(head := [R3.(soft := true)], log := [Added(R3)]) }

  function OneHanded(): Queue { EmptyQueue().(head := [R3_STARTED], log := [Added(R3), Handed(3)]) }

  function OneInDriver(): Queue {
    EmptyQueue().(driver := map[3 := R3_STARTED], inFlight := 1, log := [Added(R3), Handed(3)])
  }

  function FlaggedAdded(): Queue {
    OneInDriver().(head := [X4.(soft := true)], ordcolor := true, log := [Added(R3), Handed(3), Added(X4)])
  }

  function BarrierAdded(): Queue {
    OneInDriver().(head := [X4.(soft := true), B5_ADDED.(soft := true)], barriers := 1,
                   log := [Added(R3), Handed(3), Added(X4), Added(B5_ADDED)])
  }

  function FlaggedHanded(): Queue {
    BarrierAdded().(head := [X4_STARTED, B5_ADDED.(soft := true)],
                    log := [Added(R3), Handed(3), Added(X4), Added(B5_ADDED), Handed(4)])
  }

  function TwoInDriver(): Queue {
    FlaggedHanded().(head := [B5_ADDED.(soft := true)], driver := map[3 := R3_STARTED, 4 := X4_STARTED])
  }

  function Waiting(): Queue {
    var q := TwoInDriver().(orig := B5_ADDED.(soft := true));
    q.(head := [BarRq(q)], ordseq := OrdSeq(true, false, true, false, true),
       log := q.log + [SeqStart(5, ORDERED_DRAIN)], seqAt := 5)
  }

  function Requeued(): Queue {
    var q := Waiting();
    q.(head := [BarRq(q), R3.(soft := true)], driver := map[4 := X4_STARTED], inFlight := 0)
  }

  function Drained(): Queue {
    Requeued().(driver := map[], ordseq := OrdSeq(true, true, true, false, true), log := Waiting().log + [Completed(4)])
  }

  function Violated(): Queue {
    var q := Drained();
    q.(head := [BarRq(q).(started := true), R3.(soft := true)], log := q.log + [HandedProxy(BAR, 5)])
  }

  lemma OneSteps(c: Callers)
    ensures Step(c, EmptyQueue(), LAdd(R3, Back), OneAdded()) && Step(c, OneAdded(), LFetch, OneHanded())
  {
    hide StartOrdered;
    assert Add(EmptyQueue(), R3, Back).head == OneAdded().head;
    assert Fetch(OneAdded()).head == OneHanded().head;
  }

  lemma OneStarts(c: Callers)
    ensures Step(c, OneHanded(), LStart(0), OneInDriver())
  {
    assert Start(OneHanded(), 0).head == OneInDriver().head;
  }

  lemma FlaggedSteps(c: Callers)
    requires c.hardNonFs
    ensures Step(c, OneInDriver(), LAdd(X4, Back), FlaggedAdded()) && Step(c, FlaggedAdded(), LAdd(B5, Back), BarrierAdded())
  {
    assert Add(OneInDriver(), X4, Back).head == FlaggedAdded().head;
    assert Add(FlaggedAdded(), B5, Back).head == BarrierAdded().head;
  }

  lemma FlaggedFetched(c: Callers)
    ensures Step(c, BarrierAdded(), LFetch, FlaggedHanded())
  {
    hide StartOrdered;
    assert Fetch(BarrierAdded()).head == FlaggedHanded().head;
  }

  lemma FlaggedStarts(c: Callers)
    ensures Step(c, FlaggedHanded(), LStart(0), TwoInDriver())
  {
    assert Start(FlaggedHanded(), 0).head == TwoInDriver().head;
    assert Start(FlaggedHanded(), 0).driver == TwoInDriver().driver;
  }

  lemma BarrierStarts(c: Callers)
    ensures Step(c, TwoInDriver(), LFetch, Waiting())
  {
    var q := TwoInDriver();
    assert StartOrdered(q).0.head == Waiting().head;
    assert Fetch(q) == Waiting();
  }

  /** The requeued request goes behind the proxy of the later barrier. */
  lemma RequeuedBehind(c: Callers)
    ensures Step(c, Waiting(), LRequeue(3), Requeued())
  {
    var q := Waiting();
    assert RequeuePoint(AccountDone(q.(driver := q.driver - {3}), R3_STARTED), SEQ_DONE, 0) == 1;
    assert Requeue(q, 3).head == Requeued().head;
    assert Requeue(q, 3).driver == Requeued().driver;
  }

  /** The end of request 4 completes the drain without the requeued request. */
  lemma DrainedEarly(c: Callers)
    ensures Step(c, Requeued(), LComplete(4, 0), Drained())
  {
    assert Requeued().driver - {4} == map[];
  }

  lemma BarrierGoes(c: Callers)
    ensures Step(c, Drained(), LFetch, Violated())
  {
    hide StartOrdered;
    assert Fetch(Drained()).head == Violated().head;
  }

  /** With request 3 in the driver, the flagged request and the barrier are added
      and the flagged request is handed over. */
  lemma ReachTwo(c: Callers) returns (ls: seq<Label>)
    requires c.hardNonFs
    ensures Run(c, EmptyQueue(), ls, TwoInDriver())
  {
    hide Step, Run, EmptyQueue, OneAdded, OneHanded, OneInDriver, FlaggedAdded, BarrierAdded, FlaggedHanded, TwoInDriver;
    NoStepRun(c, EmptyQueue());
    OneSteps(c);
    StepRun(c, EmptyQueue(), [], EmptyQueue(), LAdd(R3, Back), OneAdded());
    ls := [] + [LAdd(R3, Back)];
    StepRun(c, EmptyQueue(), ls, OneAdded(), LFetch, OneHanded());
    ls := ls + [LFetch];
    OneStarts(c);
    StepRun(c, EmptyQueue(), ls, OneHanded(), LStart(0), OneInDriver());
    ls := ls + [LStart(0)];
    FlaggedSteps(c);
    StepRun(c, EmptyQueue(), ls, OneInDriver(), LAdd(X4, Back), FlaggedAdded());
    ls := ls + [LAdd(X4, Back)];
    StepRun(c, EmptyQueue(), ls, FlaggedAdded(), LAdd(B5, Back), BarrierAdded());
    ls := ls + [LAdd(B5, Back)];
    FlaggedFetched(c);
    StepRun(c, EmptyQueue(), ls, BarrierAdded(), LFetch, FlaggedHanded());
    ls := ls + [LFetch];
    FlaggedStarts(c);
    StepRun(c, EmptyQueue(), ls, FlaggedHanded(), LStart(0), TwoInDriver());
    ls := ls + [LStart(0)];
  }

  lemma ReachViolation(c: Callers) returns (ls: seq<Label>)
    ensures Run(c, TwoInDriver(), ls, Violated())
  {
    hide Step, Run, TwoInDriver, Waiting, Requeued, Drained, Violated;
    NoStepRun(c, TwoInDriver());
    BarrierStarts(c);
    StepRun(c, TwoInDriver(), [], TwoInDriver(), LFetch, Waiting());
    ls := [] + [LFetch];
    RequeuedBehind(c);
    StepRun(c, TwoInDriver(), ls, Waiting(), LRequeue(3), Requeued());
    ls := ls + [LRequeue(3)];
    DrainedEarly(c);
    StepRun(c, TwoInDriver(), ls, Requeued(), LComplete(4, 0), Drained());
    ls := ls + [LComplete(4, 0)];
    BarrierGoes(c);
    StepRun(c, TwoInDriver(), ls, Drained(), LFetch, Violated());
    ls := ls + [LFetch];
  }

  lemma ViolatedIsUnsafe()
    ensures !SafeLog(Violated().log)
  {
    var log := Violated().log;
    var before := log[..7];
    assert before == [Added(R3), Handed(3), Added(X4), Added(B5_ADDED), Handed(4), SeqStart(5, ORDERED_DRAIN),
                      Completed(4)];
    assert AddedAt(before, 0, true, false) && AddedAt(before, 3, true, true);
    assert !SafeEvent(before, log[7]);
  }

  /** A request that is no file system request but carries REQ_HARDBARRIER flips
      the queue colour without being a barrier: a requeued request then counts as
      later than the barrier that was added after it. */
  lemma FlaggedRequestMisleads(c: Callers)
    requires c.hardNonFs
    ensures !AlwaysSafe(c)
  {
    assert Initial(EmptyQueue());
    hide Run, SafeLog, AlwaysSafe, Initial, EmptyQueue, TwoInDriver, Violated;
    var ls1 := ReachTwo(c);
    var ls2 := ReachViolation(c);
    RunConcat(c, EmptyQueue(), ls1, TwoInDriver(), ls2, Violated());
    ViolatedIsUnsafe();
    UnsafeRun(c, EmptyQueue(), ls1 + ls2, Violated());
  }

  /** The ordering guarantee holds in every run exactly when submitters neither
      flag other requests as barriers nor insert file system requests at the
      front. */
  lemma SafeExactlyForGoodCallers(c: Callers)
    ensures AlwaysSafe(c) <==> c == GOOD
  {
    if c.fsFront { FrontInsertionOvertakes(c); }
    if c.hardNonFs { FlaggedRequestMisleads(c); }
    if c == GOOD {
      forall q0, ls, q | Initial(q0) && DrainMode(q0.next) && Run(c, q0, ls, q) ensures SafeLog(q.log) {
        BarrierOrderKept(q0, ls, q);
      }
    }
  }
}
