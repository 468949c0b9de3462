/** A draining queue never gets stuck: while a sequence runs and the driver has
    nothing to do, the elevator has a request for it. */
module BarrierProgress {
  import opened Blkdev
  import opened Barrier
  import opened BarrierOnce
  import opened BarrierOrder
  import opened BarrierDrain

  /** Someone will notice that the queue has drained. */
  ghost predicate Watched(q: Queue) {
    Active(q) && !q.ordseq.drain ==> q.driver != map[] || (q.head != [] && ReqSeq(q, q.head[0]) == SEQ_DRAIN)
  }

  ghost predicate Plain(q: Queue) {
    (forall i :: 0 <= i < |q.held| ==> q.held[i].fs)
    && (forall i :: 0 <= i < |q.head| && !q.head[i].fs ==> q.head[i].soft)
  }

  ghost predicate Flow(q: Queue) { Drain(q) && Watched(q) && Plain(q) }

  lemma StartOrderedFlow(q: Queue)
    requires Drain(q) && Plain(q) && !Active(q) && q.head != [] && IsBar(q.head[0])
    ensures Watched(StartOrdered(q).0) && Plain(StartOrdered(q).0)
  {
    var s, q' := Starting(q), StartOrdered(q).0;
    assert KindOk(q.head[0]);
    StartOrderedIs(q);
    CompleteSeqShape(s, Skipped(s), 0);
    forall i | 0 <= i < |s.head| && !s.head[i].fs ensures s.head[i].soft {
      SoftOrRest(s, q.head[1..], i);
    }
    if q.inFlight != 0 {
      assert q.driver != map[];
    }
  }

  lemma SoftOrRest(q: Queue, rest: seq<Rq>, i: nat)
    requires i < |WithProxies(q, rest)|
    ensures WithProxies(q, rest)[i].soft || WithProxies(q, rest)[i] in rest
  {}

  /** Handing over the head leaves every request of the queue in its place. */
  lemma MarkFlow(q: Queue, q': Queue, e: Event)
    requires Watched(q) && Plain(q) && q.head != [] && q' == MarkHead(q, e)
    ensures Watched(q') && Plain(q')
  {
    forall i | 0 <= i < |q'.head| ensures q'.head[i] == if i == 0 then q.head[0].(started := true) else q.head[i] {}
  }

  lemma DoOrderedFlow(q: Queue)
    requires Flow(q) && q.head != []
    ensures Watched(DoOrdered(q).0) && Plain(DoOrdered(q).0)
  {
    hide Watched, Plain, Queued, Core, Bars, StartOrdered;
    if Active(q) {
      RunningHead(q);
    } else if IsBarrier(q.head[0]) {
      HeadNoProxy(q);
      IdleOrActive(q);
      StartOrderedFlow(q);
    } else {
      IdleOrActive(q);
    }
  }

  lemma FetchFlow(q: Queue)
    requires Flow(q) && q.head != []
    ensures Watched(Fetch(q)) && Plain(Fetch(q))
  {
    hide Flow, Watched, Plain, DoOrdered;
    var (q1, more, given) := DoOrdered(q);
    DoOrderedFlow(q);
    if more && given && q1.head != [] {
      MarkFlow(q1, Fetch(q), HandedEvent(q1, q1.head[0]));
    }
  }

  lemma CompleteFlow(q: Queue, id: nat, error: int)
    requires Flow(q) && id in q.driver
    ensures Watched(Complete(q, id, error)) && Plain(Complete(q, id, error))
  {
    if id < FIRST_ID {
      ProxyFlow(q, id, error);
    } else {
      PlainFlow(q, id, error);
    }
  }

  /** With nothing left in the driver, the count is zero. */
  lemma LastOut(q: Queue, id: nat)
    requires Base(q) && id in q.driver && q.driver - {id} == map[]
    ensures AccountDone(q, q.driver[id]).inFlight == 0
  {
    hide Base;
    LeftInFlight(q, id);
  }

  lemma PlainFlow(q: Queue, id: nat, error: int)
    requires Flow(q) && id in q.driver && id >= FIRST_ID
    ensures Watched(Complete(q, id, error)) && Plain(Complete(q, id, error))
  {
    hide Base, Queued;
    DriverIds(q);
    IdleOrActive(q);
    var r, q' := q.driver[id], Complete(q, id, error);
    var q1 := q.(driver := q.driver - {id}, log := q.log + [Completed(id)]);
    ElvCompletedShape(q1, r);
    if Active(q') && !q'.ordseq.drain && q1.driver == map[] {
      LastOut(q, id);
      assert q'.head != [] && ReqSeq(q', q'.head[0]) <= SEQ_DRAIN;
    }
  }

  lemma ProxyFlow(q: Queue, id: nat, error: int)
    requires Flow(q) && id in q.driver && id < FIRST_ID
    ensures Watched(Complete(q, id, error)) && Plain(Complete(q, id, error))
  {
    assert DriverOk(q.driver[id], StageOf(q));
    var q1 := (if id == BAR then BarError(q, error) else q).(driver := q.driver - {id});
    var q2 := ElvCompleted(q1, q.driver[id]);
    ElvCompletedShape(q1, q.driver[id]);
    CompleteSeqShape(q2.(log := q2.log + [PhaseDone(id, error)]), ProxyBit(id), error);
  }

  lemma PlainInsert(q: Queue, q': Queue, p: nat, r: Rq)
    requires Plain(q) && p <= |q.head| && q'.head == InsertAt(q.head, p, r) && (!r.fs ==> r.soft)
    requires forall i :: 0 <= i < |q'.held| ==> q'.held[i].fs
    ensures Plain(q')
  {
    forall i | 0 <= i < |q'.head| ensures q'.head[i] == if i == p then r else q.head[if i < p then i else i - 1] {}
  }

  /** While the queue drains, a requeued request goes to the front. */
  lemma RequeueFront(q: Queue, id: nat)
    requires Drain(q) && Watched(q) && id in q.driver && Active(q) && !q.ordseq.drain
    ensures var q' := Requeue(q, id); q'.head != [] && ReqSeq(q', q'.head[0]) == SEQ_DRAIN && q'.ordseq == q.ordseq
  {
    var r := q.driver[id];
    var r1 := r.(started := false, soft := true);
    var q1 := AccountDone(q.(driver := q.driver - {id}), r);
    assert DriverOk(r, StageOf(q));
    assert ReqSeq(q1, r1) == SEQ_DRAIN;
    assert RequeuePoint(q1, SEQ_DRAIN, 0) == 0;
  }

  lemma RequeueFlow(q: Queue, id: nat)
    requires Flow(q) && id in q.driver
    ensures Watched(Requeue(q, id)) && Plain(Requeue(q, id))
  {
    var r := q.driver[id];
    var r1 := r.(started := false, soft := true);
    var q1 := AccountDone(q.(driver := q.driver - {id}), r);
    var p := if q.ordseq == IDLE then 0 else RequeuePoint(q1, ReqSeq(q1, r1), 0);
    PlainInsert(q, Requeue(q, id), p, r1);
    if Active(q) && !q.ordseq.drain { RequeueFront(q, id); }
  }

  lemma DispatchFlow(q: Queue, i: nat, p: nat)
    requires Flow(q) && Enabled(GOOD, q, LDispatch(i, p))
    ensures Watched(Dispatch(q, i, p)) && Plain(Dispatch(q, i, p))
  {
    var q' := Dispatch(q, i, p);
    forall k | 0 <= k < |q'.head| ensures q'.head[k] == if k == p then q.held[i] else q.head[if k < p then k else k - 1] {}
    if Active(q) && q.head != [] && ReqSeq(q, q.head[0]) == SEQ_DRAIN {
      assert HeadOk(q.head[0], StageOf(q)) && KindOk(q.head[0]);
      if q.head[0].fs { HeadBeforeBarrier(q); }
      assert Stops(q.head[0]);
    }
  }

  lemma StartFlow(q: Queue, i: nat)
    requires Flow(q) && i < |q.head| && q.head[i].started
    ensures Watched(Start(q, i)) && Plain(Start(q, i))
  {
    var q' := Start(q, i);
    assert q.head[i].id in q'.driver;
    forall k | 0 <= k < |q'.head| ensures q'.head[k] == q.head[if k < i then k else k + 1] {}
  }

  lemma FlowStep(q: Queue, l: Label)
    requires Flow(q) && Enabled(GOOD, q, l)
    ensures Flow(Next(GOOD, q, l))
  {
    DrainStep(q, l);
    match l
    case LAdd(r, where) => AddFlow(q, r, where);
    case LDispatch(i, p) => DispatchFlow(q, i, p);
    case LFetch => FetchFlow(q);
    case LStart(i) => StartFlow(q, i);
    case LComplete(id, error) => CompleteFlow(q, id, error);
    case LBarError(error) =>
    case LRequeue(id) => RequeueFlow(q, id);
  }

  lemma AddFlow(q: Queue, r: Rq, where: Where)
    requires Flow(q) && Enabled(GOOD, q, LAdd(r, where))
    ensures Watched(Add(q, r, where)) && Plain(Add(q, r, where))
  {}

  lemma {:induction false} RunFlow(q: Queue, ls: seq<Label>, q': Queue)
    requires Flow(q) && Run(GOOD, q, ls, q')
    ensures Flow(q')
    decreases |ls|
  {
    if ls != [] {
      FlowStep(q, ls[0]);
      RunFlow(Next(GOOD, q, ls[0]), ls[1..], q');
    }
  }

  /** With an idle driver, the request at the head is the one whose turn it is. */
  lemma HeadHasItsTurn(q: Queue)
    requires Flow(q) && Active(q) && q.driver == map[]
    ensures q.head != [] && DoOrdered(q) == (q, true, true)
  {
    if q.ordseq.drain {
      var p := if !q.ordseq.preflush then PRE_FLUSH else if !q.ordseq.bar then BAR else POST_FLUSH;
      assert !Bit(q.ordseq, p) && Has(q.head, p);
      var k :| 0 <= k < |q.head| && q.head[k].id == p;
      var h := q.head[0];
      assert HeadOk(h, StageOf(q)) && HeadOk(q.head[k], StageOf(q));
      if Ordered(h) {
        assert Rank(h) <= Rank(q.head[k]);
        assert Has(q.head, h.id);
        assert IsProxy(h) && !Bit(q.ordseq, h.id);
      }
    }
    RunningHead(q);
  }
}
