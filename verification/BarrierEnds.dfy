/** The end of a barrier on a draining queue, with or without data. */
module BarrierEnds {
  import opened Blkdev
  import opened Barrier
  import opened BarrierOnce
  import opened BarrierOrder
  import opened BarrierDrain
  import opened BarrierSafety
  import BarrierPhases

  /** Every file system request added before barrier orig has completed. */
  ghost predicate AllBefore(log: seq<Event>, orig: nat) {
    forall i, j :: i < j && AddedAt(log, i, true, false) && AddedAt(log, j, true, true) && log[j].r.id == orig ==>
      Completed(log[i].r.id) in log
  }

  ghost predicate EndLog(log: seq<Event>) { forall h :: 0 <= h < |log| && log[h].Ended? ==> AllBefore(log[..h], log[h].orig) }

  ghost predicate NoEnd(log: seq<Event>, log': seq<Event>) {
    |log| <= |log'| && log'[..|log|] == log && forall i :: |log| <= i < |log'| ==> !log'[i].Ended?
  }

  lemma NoEndKeeps(log: seq<Event>, log': seq<Event>)
    requires EndLog(log) && NoEnd(log, log')
    ensures EndLog(log')
  {
    hide AllBefore;
    forall h | 0 <= h < |log'| && log'[h].Ended? ensures AllBefore(log'[..h], log'[h].orig) {
      assert log[h] == log'[h] && log[..h] == log'[..h];
    }
  }

  lemma OneMore(log: seq<Event>, e: Event)
    ensures NoEnd(log, log) && (!e.Ended? ==> NoEnd(log, log + [e]))
  {}

  lemma NoEndChain(a: seq<Event>, b: seq<Event>, c: seq<Event>)
    requires NoEnd(a, b) && NoEnd(b, c)
    ensures NoEnd(a, c)
  {
    assert c[..|a|] == b[..|a|];
  }

  lemma LastKeeps(log: seq<Event>, orig: nat, err: int)
    requires EndLog(log) && AllBefore(log, orig)
    ensures EndLog(log + [Ended(orig, err)])
  {
    hide AllBefore;
    var log' := log + [Ended(orig, err)];
    forall h | 0 <= h < |log'| && log'[h].Ended? ensures AllBefore(log'[..h], log'[h].orig) {
      if h < |log| { assert log[..h] == log'[..h]; } else { assert log'[..h] == log; }
    }
  }

  /** When a sequence is over, nothing from before its barrier is left. */
  lemma OverIsEmpty(q: Queue, r: Rq)
    requires Drain(q) && !Active(q) && r.fs && !IsProxy(r) && r.epoch < q.ended
    ensures !Alive(q.head, q.held, q.driver, r)
  {
    hide Core, Bars, Sorted;
    forall i | 0 <= i < |q.head| ensures !Same(q.head[i], r) { assert HeadOk(q.head[i], StageOf(q)); }
    forall i | 0 <= i < |q.held| ensures !Same(q.held[i], r) { assert HeldOk(q.held[i], StageOf(q)); }
    if r.id in q.driver { assert DriverOk(q.driver[r.id], StageOf(q)); }
  }

  lemma EndIsLate(q: Queue, log: seq<Event>, orig: nat, err: int)
    requires Safe(q) && !Active(q) && q.log == log + [Ended(orig, err)]
    requires forall j :: AddedAt(log, j, true, true) && log[j].r.id == orig ==> log[j].r.epoch < q.ended
    ensures AllBefore(log, orig)
  {
    hide Drain, SafeLog, Tagged, Alive;
    forall i, j | i < j && AddedAt(log, i, true, false) && AddedAt(log, j, true, true) && log[j].r.id == orig
      ensures Completed(log[i].r.id) in log
    {
      assert q.log[i] == log[i] && q.log[j] == log[j];
      CountMonotone(q.log, i, j);
      NotProxy(q, i);
      OverIsEmpty(q, log[i].r);
      assert PlainKept(q, log[i].r);
      BarrierPhases.InLog(log, Ended(orig, err));
    }
  }

  lemma NotProxy(q: Queue, i: nat)
    requires Tagged(q) && i < |q.log| && q.log[i].Added?
    ensures !IsProxy(q.log[i].r)
  {}

  // ----- a completion -----

  lemma SeqLog(q: Queue, bits: OrdSeq, error: int)
    requires Active(q)
    ensures var q' := CompleteSeq(q, bits, error).0;
      && q'.log == (if Active(q') then q.log else q.log + [Ended(q.orig.id, q'.orderr)])
      && q'.ended == (if Active(q') then q.ended else q.ended + 1)
  {}

  /** A completion adds events that are no end, and then the end if the sequence is over. */
  lemma EndsLast(q: Queue, id: nat, error: int) returns (mid: seq<Event>)
    requires Core(q, NO_GAP) && id in q.driver
    ensures var q' := Complete(q, id, error);
      && NoEnd(q.log, mid) && (forall r: Rq :: Added(r) in mid ==> Added(r) in q.log)
      && if Active(q) && !Active(q') then q'.log == mid + [Ended(q.orig.id, q'.orderr)] && q'.ended == q.ended + 1
         else q'.log == mid
  {
    BarrierPhases.DriverSelf(q);
    BarrierPhases.CoreIdle(q);
    hide Core;
    if id < FIRST_ID { mid := ProxyEndsLast(q, id, error); } else { mid := PlainEndsLast(q, id, error); }
  }

  lemma AddsNothing(log: seq<Event>, e: Event)
    requires !e.Added? && !e.Ended?
    ensures NoEnd(log, log + [e]) && NoEnd(log, log)
    ensures forall r: Rq :: Added(r) in log + [e] ==> Added(r) in log
  {}

  lemma PlainEndsLast(q: Queue, id: nat, error: int) returns (mid: seq<Event>)
    requires id in q.driver && q.driver[id].id == id && id >= FIRST_ID && (q.ordseq == IDLE || Active(q))
    ensures var q' := Complete(q, id, error);
      && NoEnd(q.log, mid) && (forall r: Rq :: Added(r) in mid ==> Added(r) in q.log)
      && if Active(q) && !Active(q') then q'.log == mid + [Ended(q.orig.id, q'.orderr)] && q'.ended == q.ended + 1
         else q'.log == mid
  {
    hide ReqSeq, CompleteSeq, NoEnd;
    mid := q.log + [Completed(id)];
    AddsNothing(q.log, Completed(id));
    var q1 := AccountDone(q.(driver := q.driver - {id}, log := mid), q.driver[id]);
    if Complete(q, id, error) != q1 { SeqLog(q1, DRAIN_BIT, 0); }
  }

  lemma ReportEndsLast(q: Queue, id: nat, error: int) returns (mid: seq<Event>)
    requires Core(q, NO_GAP) && id in q.driver && id < FIRST_ID
    ensures var q' := Report(ElvCompleted(q.(driver := q.driver - {id}), q.driver[id]), id, error);
      && Active(q) && mid == q.log + [PhaseDone(id, error)]
      && if !Active(q') then q'.log == mid + [Ended(q.orig.id, q'.orderr)] && q'.ended == q.ended + 1 else q'.log == mid
  {
    BarrierPhases.ProxyLeaves(q, id);
    hide Core, CompleteSeq, ElvCompleted;
    var q1 := q.(driver := q.driver - {id});
    var q2 := ElvCompleted(q1, q.driver[id]);
    BarrierPhases.ElvSameWindow(q1, q.driver[id]);
    ElvEnded(q1, q.driver[id]);
    var q3 := q2.(log := q2.log + [PhaseDone(id, error)]);
    SeqLog(q3, ProxyBit(id), error);
    mid := q3.log;
  }

  lemma ProxyEndsLast(q: Queue, id: nat, error: int) returns (mid: seq<Event>)
    requires Core(q, NO_GAP) && id in q.driver && q.driver[id].id == id && id < FIRST_ID
    ensures var q' := Complete(q, id, error);
      && NoEnd(q.log, mid) && (forall r: Rq :: Added(r) in mid ==> Added(r) in q.log)
      && if Active(q) && !Active(q') then q'.log == mid + [Ended(q.orig.id, q'.orderr)] && q'.ended == q.ended + 1
         else q'.log == mid
  {
    BarErrorKeeps(q, error);
    hide Core, Report, ElvCompleted, NoEnd;
    var q0 := if id == BAR then BarError(q, error) else q;
    mid := ReportEndsLast(q0, id, error);
    AddsNothing(q.log, PartError(error));
    AddsNothing(q0.log, PhaseDone(id, error));
    NoEndChain(q.log, q0.log, mid);
  }

  lemma ElvEnded(q: Queue, r: Rq)
    requires Active(q) && Active(ElvCompleted(q, r))
    ensures ElvCompleted(q, r).ended == q.ended
  {}

  lemma OrigEpoch(q: Queue)
    requires Safe(q) && Active(q)
    ensures forall r: Rq :: Added(r) in q.log && r.id == q.orig.id ==> r.epoch == q.ended
  {
    hide SafeLog, Counted, Kept, Core, Bars, Queued;
    forall r: Rq | Added(r) in q.log && r.id == q.orig.id ensures r.epoch == q.ended {
      var h :| 0 <= h < |q.log| && q.log[h] == Added(r);
      assert Same(q.orig, q.log[h].r);
    }
  }

  lemma CompleteEnds(q: Queue, id: nat, error: int)
    requires Safe(q) && EndLog(q.log) && id in q.driver && Safe(Complete(q, id, error))
    ensures EndLog(Complete(q, id, error).log)
  {
    SafeIsBase(q);
    BaseIsCore(q);
    hide Safe, Base, Core, Complete, NoEnd, EndLog;
    var q' := Complete(q, id, error);
    var mid := EndsLast(q, id, error);
    NoEndKeeps(q.log, mid);
    if Active(q) && !Active(q') {
      OrigEpoch(q);
      AllOfOrig(mid, q.log, q.orig.id, q.ended);
      EndIsLate(q', mid, q.orig.id, q'.orderr);
      LastKeeps(mid, q.orig.id, q'.orderr);
    }
  }

  lemma BaseIsCore(q: Queue)
    requires Base(q)
    ensures Core(q, NO_GAP)
  {
    hide Core;
  }

  lemma AllOfOrig(mid: seq<Event>, log: seq<Event>, orig: nat, epoch: nat)
    requires forall r: Rq :: Added(r) in mid ==> Added(r) in log
    requires forall r: Rq :: Added(r) in log && r.id == orig ==> r.epoch == epoch
    ensures forall j :: AddedAt(mid, j, true, true) && mid[j].r.id == orig ==> mid[j].r.epoch == epoch
  {
    forall j | AddedAt(mid, j, true, true) && mid[j].r.id == orig ensures mid[j].r.epoch == epoch {
      assert mid[j] == Added(mid[j].r);
    }
  }

  // ----- a fetch -----

  lemma HeadEpoch(q: Queue)
    requires Safe(q) && q.head != [] && IsBar(q.head[0]) && !Active(q)
    ensures forall r: Rq :: Added(r) in q.log && r.id == q.head[0].id ==> r.epoch == q.ended
  {
    BarsPop(q.head, q.ended, q.barriers);
    hide SafeLog, Counted, Kept, Core, Bars, Queued;
    forall r: Rq | Added(r) in q.log && r.id == q.head[0].id ensures r.epoch == q.ended {
      var h :| 0 <= h < |q.log| && q.log[h] == Added(r);
      assert Same(q.head[0], q.log[h].r);
    }
  }

  lemma StartLog(q: Queue)
    requires q.ordseq == IDLE && q.head != []
    ensures var q', mid := StartOrdered(q).0, q.log + [SeqStart(q.head[0].id, Starting(q).mode)];
      && q'.log == (if Active(q') then mid else mid + [Ended(q.head[0].id, q'.orderr)])
      && (!Active(q') ==> q'.ended == q.ended + 1) && StartOrdered(q).1 == Active(q')
  {
    StartOrderedIs(q);
    BarrierPhases.StartingIs(q);
    StartMore(q);
    StartingEnded(q);
    hide CompleteSeq, Starting, StartOrdered;
    SeqLog(Starting(q), Skipped(Starting(q)), 0);
  }

  lemma StartingEnded(q: Queue)
    requires q.head != []
    ensures Starting(q).ended == q.ended
  {
    hide WithProxies, EffectiveMode;
  }

  lemma StartMore(q: Queue)
    requires q.ordseq == IDLE && q.head != []
    ensures StartOrdered(q).1 == Active(StartOrdered(q).0)
  {
    hide WithProxies, EffectiveMode;
  }

  lemma StartEnds(q: Queue)
    requires Safe(q) && EndLog(q.log) && !Active(q) && q.head != [] && IsBar(q.head[0]) && Safe(StartOrdered(q).0)
    ensures EndLog(StartOrdered(q).0.log) && (StartOrdered(q).1 == Active(StartOrdered(q).0))
  {
    SafeIsBase(q);
    BaseIsCore(q);
    BarrierPhases.IdleNotActive(q);
    StartLog(q);
    hide Safe, Base, Core, StartOrdered, EndLog, NoEnd, EffectiveMode, WithProxies;
    var q', e := StartOrdered(q).0, SeqStart(q.head[0].id, Starting(q).mode);
    var mid := q.log + [e];
    AddsNothing(q.log, e);
    NoEndKeeps(q.log, mid);
    if !Active(q') {
      HeadEpoch(q);
      AllOfOrig(mid, q.log, q.head[0].id, q.ended);
      EndIsLate(q', mid, q.head[0].id, q'.orderr);
      LastKeeps(mid, q.head[0].id, q'.orderr);
    }
  }

  lemma DoOrderedEnds(q: Queue)
    requires Safe(q) && EndLog(q.log) && q.head != []
    ensures EndLog(DoOrdered(q).0.log)
  {
    SafeIsBase(q);
    BaseIsCore(q);
    BarrierPhases.CoreIdle(q);
    SafeDrains(q);
    if !Active(q) { HeadNoProxy(q); }
    if !Active(q) && IsBarrier(q.head[0]) { StartedSafe(q); }
    hide Safe, Base, Core, StartOrdered, EndLog, Drain;
    if !Active(q) && IsBarrier(q.head[0]) { StartEnds(q); }
  }

  lemma StartedSafe(q: Queue)
    requires Safe(q) && !Active(q) && q.head != [] && IsBar(q.head[0])
    ensures Safe(StartOrdered(q).0)
  {
    SafeDrains(q);
    SafeIsBase(q);
    BaseIsCore(q);
    BarrierPhases.IdleNotActive(q);
    DoOrderedDrain(q);
    hide Safe, Base, Core, StartOrdered, Drain;
    StartOrderedSafe(q);
  }

  lemma FetchEnds(q: Queue)
    requires Safe(q) && EndLog(q.log) && q.head != []
    ensures EndLog(Fetch(q).log)
  {
    hide Safe, DoOrdered, EndLog, NoEnd;
    DoOrderedEnds(q);
    var (q1, more, given) := DoOrdered(q);
    if more && given && q1.head != [] {
      OneMore(q1.log, HandedEvent(q1, q1.head[0]));
      NoEndKeeps(q1.log, Fetch(q).log);
    }
  }

  lemma SafeDrains(q: Queue)
    requires Safe(q)
    ensures Drain(q) && q.next != ORDERED_NONE
  {
    hide Base, Queued, Counted, Tagged, Kept, SafeLog;
  }

  lemma QuietSteps(q: Queue, l: Label)
    requires Enabled(GOOD, q, l) && !l.LFetch? && !l.LComplete?
    ensures NoEnd(q.log, Next(GOOD, q, l).log)
  {
    hide Fresh, RequeuePoint, ReqSeq, InsertAt, NoEnd, Point;
    OneMore(q.log, PartError(0));
    match l
    case LAdd(r, where) => OneMore(q.log, Added(r.(color := q.ordcolor, epoch := q.barriers)));
    case LBarError(error) => OneMore(q.log, PartError(error));
    case _ =>
  }

  lemma EndStep(q: Queue, l: Label)
    requires Safe(q) && EndLog(q.log) && Enabled(GOOD, q, l)
    ensures EndLog(Next(GOOD, q, l).log)
  {
    hide Safe, EndLog, NoEnd, Fetch, Complete, Add, Dispatch, Start, Requeue, BarError, Fresh;
    SafeStep(q, l);
    match l
    case LFetch => FetchEnds(q);
    case LComplete(id, error) => CompleteEnds(q, id, error);
    case _ =>
      QuietSteps(q, l);
      NoEndKeeps(q.log, Next(GOOD, q, l).log);
  }

  lemma {:induction false} RunEnds(q: Queue, ls: seq<Label>, q': Queue)
    requires Safe(q) && EndLog(q.log) && Run(GOOD, q, ls, q')
    ensures EndLog(q'.log)
    decreases |ls|
  {
    hide Safe, EndLog, Enabled, Next;
    if ls != [] {
      SafeStep(q, ls[0]);
      EndStep(q, ls[0]);
      RunEnds(Next(GOOD, q, ls[0]), ls[1..], q');
    }
  }
}
