/** The invariant of a queue that drains before each barrier: how colours, queue
    positions, in-flight counts and the phase of the ordered sequence agree. */
module BarrierDrain {
  import opened Blkdev
  import opened Barrier
  import opened BarrierOnce
  import opened BarrierOrder

  /** Requests that take part in barrier ordering. */
  predicate Ordered(r: Rq) { r.fs || IsProxy(r) }

  /** The place of a request in the order of service: its barrier epoch, the
      barrier that closes the epoch, and then the proxies of that barrier. */
  function Rank(r: Rq): nat {
    if IsProxy(r) then 8 * r.epoch + 5 + r.id else 8 * r.epoch + (if r.hard then 4 else 0)
  }

  ghost predicate Sorted(head: seq<Rq>) {
    forall i, j :: 0 <= i < j < |head| && Ordered(head[i]) && Ordered(head[j]) ==> Rank(head[i]) <= Rank(head[j])
  }

  /** How far the queue is: barriers ended, barriers added, whether the sequence
      of barrier `done` runs, and whether everything before it has drained. */
  datatype Stage = Stage(done: nat, hi: nat, active: bool, drained: bool)
  {
    function Lo(): nat { if drained then done + 1 else done }
  }

  function StageOf(q: Queue): Stage { Stage(q.ended, q.barriers, Active(q), Active(q) && q.ordseq.drain) }

  predicate HeadOk(r: Rq, st: Stage) {
    && (IsProxy(r) ==> st.active && r.epoch == st.done && (r.started ==> st.drained))
    && (!IsProxy(r) && r.fs ==>
          && st.Lo() <= r.epoch <= st.hi && r.color == Odd(r.epoch)
          && (r.started ==> r.epoch == st.done)
          && (st.active && r.epoch == st.done ==> r.soft))
  }

  predicate DriverOk(r: Rq, st: Stage) {
    && (IsProxy(r) ==> st.active && r.epoch == st.done && st.drained)
    && (!IsProxy(r) && r.fs ==> r.epoch == st.done && !st.drained && r.color == Odd(r.epoch))
  }

  predicate HeldOk(r: Rq, st: Stage) { r.epoch == st.hi && r.color == Odd(st.hi) }

  ghost predicate Queued(head: seq<Rq>, held: seq<Rq>, driver: map<nat, Rq>, st: Stage) {
    && Sorted(head)
    && (forall i :: 0 <= i < |head| ==> HeadOk(head[i], st))
    && (forall i :: 0 <= i < |held| ==> HeldOk(held[i], st))
    && (forall id :: id in driver ==> DriverOk(driver[id], st))
  }

  ghost predicate Drain(q: Queue) {
    && Base(q) && DrainMode(q.next) && !q.warn
    && (Active(q) ==> q.mode.drain && !q.mode.tag)
    && Queued(q.head, q.held, q.driver, StageOf(q))
  }

  // ----- how the stage moves on -----

  /** Nothing that must precede the barrier is left in the driver or in front. */
  ghost predicate Ready(head: seq<Rq>, driver: map<nat, Rq>, done: nat) {
    && (forall id :: id in driver ==> !driver[id].fs)
    && (forall i :: 0 <= i < |head| && !IsProxy(head[i]) && head[i].fs ==> head[i].epoch != done)
  }

  ghost predicate NoProxies(head: seq<Rq>, driver: map<nat, Rq>) {
    (forall i :: 0 <= i < |head| ==> !IsProxy(head[i])) && (forall id :: id in driver ==> !IsProxy(driver[id]))
  }

  ghost predicate StageMove(head: seq<Rq>, driver: map<nat, Rq>, st: Stage, st': Stage) {
    || st' == st
    || (st.active && Ready(head, driver, st.done) && st' == st.(drained := true))
    || (st.active && (st.drained || Ready(head, driver, st.done)) && NoProxies(head, driver)
        && st.done < st.hi && st' == Stage(st.done + 1, st.hi, false, false))
  }

  lemma StageMoveKeeps(head: seq<Rq>, held: seq<Rq>, driver: map<nat, Rq>, st: Stage, st': Stage)
    requires Queued(head, held, driver, st) && StageMove(head, driver, st, st')
    requires forall id :: id in driver ==> driver[id].id == id
    ensures Queued(head, held, driver, st')
  {}

  /** When the in-flight count is zero and the head does not belong before the
      barrier, nothing before the barrier is left. */
  lemma DrainIsReady(q: Queue, driver: map<nat, Rq>)
    requires Drain(q) && Active(q) && !q.ordseq.drain
    requires forall id :: id in driver ==> id in q.driver && driver[id] == q.driver[id]
    requires |Accounted(driver)| == 0 && (q.head == [] || ReqSeq(q, q.head[0]) > SEQ_DRAIN)
    ensures Ready(q.head, driver, q.ended)
  {
    forall id | id in driver ensures !driver[id].fs {
      assert KindOk(driver[id]);
      assert id !in Accounted(driver);
    }
    if q.head != [] {
      assert HeadOk(q.head[0], StageOf(q)) && Ordered(q.head[0]);
      assert Rank(q.head[0]) > 8 * q.ended;
    }
    forall i | 0 <= i < |q.head| && !IsProxy(q.head[i]) && q.head[i].fs ensures q.head[i].epoch != q.ended {
      assert IsBar(q.head[i]) ==> q.head[i].epoch >= q.ended + 1;
    }
  }

  /** q' differs from q in how far the sequence is, but not in its requests. */
  ghost predicate SameRequests(q: Queue, q': Queue) {
    q'.head == q.head && q'.held == q.held && q'.driver == q.driver && q'.barriers == q.barriers && q'.warn == q.warn
    && q'.mode == q.mode && q'.next == q.next
  }

  lemma CompleteSeqShape(q: Queue, bits: OrdSeq, error: int)
    requires Active(q)
    ensures var q' := CompleteSeq(q, bits, error).0;
            SameRequests(q, q')
            && (Active(q') ==> q'.ended == q.ended && q'.ordseq == q.ordseq.Or(bits))
            && (!Active(q') ==> q'.ended == q.ended + 1 && q.ordseq.Or(bits).drain)
  {}

  /** elv_completed_request moves the sequence on only when the queue has drained. */
  lemma ElvCompletedShape(q: Queue, r: Rq)
    requires q.ordseq == IDLE || Active(q)
    ensures var q', q1 := ElvCompleted(q, r), AccountDone(q, r);
            SameRequests(q, q')
            && (q' == q1
                || (Active(q) && !q.ordseq.drain && q1.inFlight == 0
                    && (q.head == [] || ReqSeq(q, q.head[0]) > SEQ_DRAIN)
                    && if Active(q') then q'.ended == q.ended && q'.ordseq.drain else q'.ended == q.ended + 1))
  {
    var q1 := AccountDone(q, r);
    if ElvCompleted(q, r) != q1 {
      CompleteSeqShape(q1, DRAIN_BIT, 0);
      assert q.head != [] ==> ReqSeq(q1, q.head[0]) == ReqSeq(q, q.head[0]);
    }
  }

  lemma BaseNoProxies(q: Queue)
    requires Base(q) && !Active(q)
    ensures NoProxies(q.head, q.driver)
  {
    forall i | 0 <= i < |q.head| ensures !IsProxy(q.head[i]) { assert Has(q.head, q.head[i].id); }
    forall id | id in q.driver ensures !IsProxy(q.driver[id]) {}
  }

  lemma QueuedWithout(head: seq<Rq>, held: seq<Rq>, driver: map<nat, Rq>, id: nat, st: Stage)
    requires Queued(head, held, driver, st)
    ensures Queued(head, held, driver - {id}, st)
  {}

  lemma IdleOrActive(q: Queue)
    requires Base(q)
    ensures q.ordseq == IDLE || Active(q)
  {
    hide Sound, Window, History, ProperLog, Line, Open;
  }

  /** With a request gone from the driver, the count is that of the others. */
  lemma LeftInFlight(q: Queue, id: nat)
    requires Base(q) && id in q.driver
    ensures AccountDone(q, q.driver[id]).inFlight == |Accounted(q.driver - {id})|
  {
    hide Places, Kinds, Accounted, Open, Live, WindowAt, ProperLog, Bars;
    AccountedRemove(q.driver, id);
  }

  lemma DrainedReady(q: Queue, id: nat)
    requires Drain(q) && Active(q) && !q.ordseq.drain && id in q.driver
    requires AccountDone(q, q.driver[id]).inFlight == 0 && (q.head == [] || ReqSeq(q, q.head[0]) > SEQ_DRAIN)
    ensures Ready(q.head, q.driver - {id}, q.ended)
  {
    hide Base, Queued, Ready, Accounted, ReqSeq;
    LeftInFlight(q, id);
    DrainIsReady(q, q.driver - {id});
  }

  /** When the sequence moves on and no request moves, the order is kept. */
  lemma StageMoveDrain(q: Queue, q': Queue)
    requires Drain(q) && Base(q') && q'.head == q.head && q'.held == q.held && q'.driver.Keys <= q.driver.Keys
    requires forall id :: id in q'.driver ==> q'.driver[id] == q.driver[id]
    requires q'.next == q.next && q'.mode == q.mode && q'.warn == q.warn && (Active(q') ==> Active(q))
    requires StageMove(q.head, q'.driver, StageOf(q), StageOf(q'))
    ensures Drain(q')
  {
    hide Base, Sorted, StageMove;
    DriverIds(q');
    assert Queued(q.head, q.held, q'.driver, StageOf(q));
    StageMoveKeeps(q.head, q.held, q'.driver, StageOf(q), StageOf(q'));
  }

  /** A sequence that ended leaves no proxies and is one of those added. */
  lemma OverIsNext(q: Queue)
    requires Base(q) && !Active(q)
    ensures NoProxies(q.head, q.driver) && q.ended <= q.barriers
  {
    hide NoProxies, Core, Bars;
    BaseNoProxies(q);
  }

  lemma PlainCompleteDrain(q: Queue, id: nat, error: int)
    requires Drain(q) && id in q.driver && id >= FIRST_ID && Base(Complete(q, id, error))
    ensures Drain(Complete(q, id, error))
  {
    hide Base, Queued, Ready, NoProxies, ElvCompleted;
    var r := q.driver[id];
    var q1 := q.(driver := q.driver - {id}, log := q.log + [Completed(id)]);
    var q' := Complete(q, id, error);
    IdleOrActive(q);
    DriverIds(q);
    ElvCompletedShape(q1, r);
    if q' != AccountDone(q1, r) { DrainedReady(q, id); }
    if !Active(q') { OverIsNext(q'); }
    StageMoveDrain(q, q');
  }

  lemma ProxyCompleteDrain(q: Queue, id: nat, error: int)
    requires Drain(q) && id in q.driver && id < FIRST_ID && Base(Complete(q, id, error))
    ensures Drain(Complete(q, id, error))
  {
    hide Base, Sorted, Ready, NoProxies, ReqSeq, ElvCompleted, CompleteSeq;
    var r := q.driver[id];
    DriverIds(q);
    assert Active(q) && q.ordseq.drain;
    var q0 := if id == BAR then BarError(q, error) else q;
    var q1 := q0.(driver := q.driver - {id});
    var q2 := ElvCompleted(q1, r);
    var q' := Complete(q, id, error);
    ElvCompletedShape(q1, r);
    CompleteSeqShape(q2.(log := q2.log + [PhaseDone(id, error)]), ProxyBit(id), error);
    if !Active(q') { OverIsNext(q'); }
    StageMoveDrain(q, q');
  }

  // ----- requests entering the dispatch queue -----

  lemma SortedInsert(head: seq<Rq>, p: nat, r: Rq)
    requires Sorted(head) && p <= |head|
    requires Ordered(r) ==> (forall i :: 0 <= i < p && Ordered(head[i]) ==> Rank(head[i]) <= Rank(r))
                            && (forall i :: p <= i < |head| && Ordered(head[i]) ==> Rank(r) <= Rank(head[i]))
    ensures Sorted(InsertAt(head, p, r))
  {
    var t := InsertAt(head, p, r);
    forall i | 0 <= i < |t| ensures t[i] == if i == p then r else head[if i < p then i else i - 1] {}
  }

  lemma QueuedInsert(head: seq<Rq>, held: seq<Rq>, driver: map<nat, Rq>, st: Stage, p: nat, r: Rq)
    requires Queued(head, held, driver, st) && p <= |head| && HeadOk(r, st)
    requires Ordered(r) ==> (forall i :: 0 <= i < p && Ordered(head[i]) ==> Rank(head[i]) <= Rank(r))
                            && (forall i :: p <= i < |head| && Ordered(head[i]) ==> Rank(r) <= Rank(head[i]))
    ensures Queued(InsertAt(head, p, r), held, driver, st)
  {
    var t := InsertAt(head, p, r);
    SortedInsert(head, p, r);
    forall i | 0 <= i < |t| ensures t[i] == if i == p then r else head[if i < p then i else i - 1] {}
  }

  /** A request of an epoch that a waiting barrier closes has that barrier behind it. */
  lemma StopBehind(q: Queue, j: nat)
    requires Drain(q) && j < |q.head| && Ordered(q.head[j])
    ensures NextBarrier(q) <= q.head[j].epoch < q.barriers ==> exists k :: j <= k < |q.head| && Stops(q.head[k])
  {
    var x := q.head[j];
    if NextBarrier(q) <= x.epoch < q.barriers {
      assert HasBar(q.head, x.epoch);
      var k :| 0 <= k < |q.head| && IsBar(q.head[k]) && q.head[k].epoch == x.epoch;
      assert Stops(q.head[k]);
      assert k < j ==> Rank(q.head[k]) <= Rank(x);
      assert k < j ==> IsProxy(x);
    }
  }

  /** elv_dispatch_sort's stop flags keep requests of an earlier epoch in front. */
  lemma DispatchDrain(q: Queue, i: nat, p: nat)
    requires Drain(q) && Enabled(GOOD, q, LDispatch(i, p)) && Base(Dispatch(q, i, p))
    ensures Drain(Dispatch(q, i, p))
  {
    hide Places, Open, WindowAt, History, ProperLog, Accounted;
    var st, r := StageOf(q), q.held[i];
    assert HeldOk(r, st) && !IsProxy(r) && !Stops(r);
    forall j | 0 <= j < p && Ordered(q.head[j]) ensures Rank(q.head[j]) <= Rank(r) || !r.fs {
      assert HeadOk(q.head[j], st);
      assert IsBar(q.head[j]) ==> q.head[j].epoch < q.barriers;
    }
    forall j | p <= j < |q.head| && Ordered(q.head[j]) ensures Rank(r) <= Rank(q.head[j]) || !r.fs {
      var x := q.head[j];
      assert HeadOk(x, st) && KindOk(x) && !Stops(x);
      StopBehind(q, j);
    }
    QueuedInsert(q.head, q.held, q.driver, st, p, r);
    assert forall k :: 0 <= k < |RemoveAt(q.held, i)| ==> RemoveAt(q.held, i)[k] in q.held;
  }

  lemma QueuedAppend(q: Queue, r: Rq)
    requires Queued(q.head, q.held, q.driver, StageOf(q)) && Line(q) && !IsProxy(r) && HeadOk(r, StageOf(q))
    requires r.epoch == q.barriers
    ensures Queued(q.head + [r], q.held, q.driver, StageOf(q))
  {
    forall j | 0 <= j < |q.head| && Ordered(q.head[j]) ensures Rank(q.head[j]) <= Rank(r) {
      assert HeadOk(q.head[j], StageOf(q));
      assert IsBar(q.head[j]) ==> q.head[j].epoch < q.barriers;
    }
    QueuedInsert(q.head, q.held, q.driver, StageOf(q), |q.head|, r);
    assert q.head + [r] == InsertAt(q.head, |q.head|, r);
  }

  lemma AddedOk(q: Queue, r: Rq)
    requires Line(q) && !IsProxy(r) && !r.started
    ensures var x := r.(color := q.ordcolor, epoch := q.barriers);
            HeadOk(x.(soft := true), StageOf(q)) && HeldOk(x, StageOf(q))
  {
    hide Bars, Odd;
  }

  lemma QueuedFront(head: seq<Rq>, held: seq<Rq>, driver: map<nat, Rq>, st: Stage, r: Rq)
    requires Queued(head, held, driver, st) && HeadOk(r, st) && !Ordered(r)
    ensures Queued([r] + head, held, driver, st)
  {
    QueuedInsert(head, held, driver, st, 0, r);
    assert [r] + head == InsertAt(head, 0, r);
  }

  lemma QueuedHeld(head: seq<Rq>, held: seq<Rq>, driver: map<nat, Rq>, st: Stage, r: Rq)
    requires Queued(head, held, driver, st) && HeldOk(r, st)
    ensures Queued(head, held + [r], driver, st)
  {}

  lemma AddQueued(q: Queue, r: Rq, where: Where)
    requires Queued(q.head, q.held, q.driver, StageOf(q)) && Line(q) && Enabled(GOOD, q, LAdd(r, where))
    ensures var q' := Add(q, r, where); Queued(q'.head, q'.held, q'.driver, StageOf(q))
  {
    hide Line, Queued, HeadOk, HeldOk;
    var x := r.(color := q.ordcolor, epoch := q.barriers);
    AddedOk(q, r);
    match Point(r, where)
    case Front => QueuedFront(q.head, q.held, q.driver, StageOf(q), x.(soft := true));
    case Back => QueuedAppend(q, x.(soft := true));
    case Sort => QueuedHeld(q.head, q.held, q.driver, StageOf(q), x);
  }

  lemma AddDrain(q: Queue, r: Rq, where: Where)
    requires Drain(q) && Enabled(GOOD, q, LAdd(r, where)) && Base(Add(q, r, where))
    ensures Drain(Add(q, r, where))
  {
    hide Core, Bars, Queued, Add;
    var q' := Add(q, r, where);
    AddQueued(q, r, where);
    AddFields(q, r, where);
    AddRest(q, r, where);
    if IsBarrier(r) { NextEpoch(q'.head, q'.driver, StageOf(q)); }
  }

  lemma AddRest(q: Queue, r: Rq, where: Where)
    requires Enabled(GOOD, q, LAdd(r, where))
    ensures var q' := Add(q, r, where);
            q'.next == q.next && q'.mode == q.mode && q'.warn == q.warn && (IsBarrier(r) ==> q'.held == [])
  {}

  lemma NextEpoch(head: seq<Rq>, driver: map<nat, Rq>, st: Stage)
    requires Queued(head, [], driver, st)
    ensures Queued(head, [], driver, st.(hi := st.hi + 1))
  {}

  /** While a sequence runs, file system requests of a later epoch with the
      barrier's own colour stay behind the next barrier. */
  lemma BehindNextBarrier(q: Queue, j: nat)
    requires Drain(q) && Active(q) && j < |q.head| && !IsProxy(q.head[j]) && q.head[j].fs && q.head[j].epoch > q.ended
    requires q.head[j].color == q.orig.color
    ensures exists k :: 0 <= k < j && IsBar(q.head[k]) && q.head[k].color != q.orig.color
  {
    hide Core;
    assert HeadOk(q.head[j], StageOf(q));
    assert q.ended + 2 <= q.head[j].epoch;
    assert HasBar(q.head, q.ended + 1);
    var k :| 0 <= k < |q.head| && IsBar(q.head[k]) && q.head[k].epoch == q.ended + 1;
    assert k != j;
  }

  /** Where the scan of elv_insert stops for a proxy is its place in the order. */
  lemma ProxyPlace(q: Queue, r: Rq, p: nat)
    requires Drain(q) && DriverOk(r, StageOf(q)) && IsProxy(r) && p <= |q.head|
    requires forall j :: 0 <= j < p ==> ReqSeq(q, q.head[j]) < ReqSeq(q, r)
    requires p < |q.head| ==> ReqSeq(q, r) <= ReqSeq(q, q.head[p])
    ensures forall i :: 0 <= i < p && Ordered(q.head[i]) ==> Rank(q.head[i]) <= Rank(r)
    ensures forall i :: p <= i < |q.head| && Ordered(q.head[i]) ==> Rank(r) <= Rank(q.head[i])
  {
    hide Core, Bars, Ready;
    forall i | 0 <= i < p && Ordered(q.head[i]) ensures Rank(q.head[i]) <= Rank(r) {
      var x := q.head[i];
      assert HeadOk(x, StageOf(q)) && ReqSeq(q, x) < ReqSeq(q, r);
      if !IsProxy(x) {
        BehindNextBarrier(q, i);
      }
    }
    if p < |q.head| {
      var x := q.head[p];
      assert HeadOk(x, StageOf(q)) && Ordered(x) && Rank(r) <= Rank(x);
    }
  }

  /** A requeued request goes back to its place in the order of service. */
  lemma RequeueRank(q: Queue, q1: Queue, r: Rq, p: nat)
    requires Drain(q) && DriverOk(r, StageOf(q)) && Ordered(r) && !IsBar(r) && p <= |q.head|
    requires q1.head == q.head && q1.orig == q.orig
    requires p == if q.ordseq == IDLE then 0 else RequeuePoint(q1, ReqSeq(q1, r), 0)
    ensures forall i :: 0 <= i < p && Ordered(q.head[i]) ==> Rank(q.head[i]) <= Rank(r)
    ensures forall i :: p <= i < |q.head| && Ordered(q.head[i]) ==> Rank(r) <= Rank(q.head[i])
  {
    hide Drain, DriverOk, Rank;
    if IsProxy(r) {
      SameReqSeq(q, q1);
      ProxyIsActive(q, r);
      ProxyPlace(q, r, p);
    } else {
      FrontPlace(q, q1, r, p);
    }
  }

  lemma SameReqSeq(q: Queue, q1: Queue)
    requires q1.orig == q.orig
    ensures forall x: Rq :: ReqSeq(q1, x) == ReqSeq(q, x)
  {}

  lemma ProxyIsActive(q: Queue, r: Rq)
    requires DriverOk(r, StageOf(q)) && IsProxy(r)
    ensures q.ordseq != IDLE
  {}

  /** The scan does not pass anything with a request that precedes the barrier. */
  lemma FrontPlace(q: Queue, q1: Queue, r: Rq, p: nat)
    requires Drain(q) && DriverOk(r, StageOf(q)) && r.fs && !IsProxy(r) && !IsBar(r)
    requires q1.head == q.head && q1.orig == q.orig
    requires p == if q.ordseq == IDLE then 0 else RequeuePoint(q1, ReqSeq(q1, r), 0)
    ensures p == 0 && forall i :: 0 <= i < |q.head| && Ordered(q.head[i]) ==> Rank(r) <= Rank(q.head[i])
  {
    hide Core, Bars, Sorted;
    IdleOrActive(q);
    if q.ordseq != IDLE {
      assert ReqSeq(q1, r) == SEQ_DRAIN;
    }
    forall i | 0 <= i < |q.head| && Ordered(q.head[i]) ensures Rank(r) <= Rank(q.head[i]) {
      assert HeadOk(q.head[i], StageOf(q));
    }
  }

  lemma RequeueDrain(q: Queue, id: nat)
    requires Drain(q) && id in q.driver && Base(Requeue(q, id))
    ensures Drain(Requeue(q, id))
  {
    var r := q.driver[id];
    var r1 := r.(started := false, soft := true);
    var q1 := AccountDone(q.(driver := q.driver - {id}), r);
    var p := if q.ordseq == IDLE then 0 else RequeuePoint(q1, ReqSeq(q1, r1), 0);
    assert DriverOk(r, StageOf(q)) && KindOk(r);
    assert NextBarrier(q) <= q.barriers;
    assert HeadOk(r1, StageOf(q));
    if Ordered(r) { RequeueRank(q, q1, r1, p); }
    QueuedWithout(q.head, q.held, q.driver, id, StageOf(q));
    QueuedInsert(q.head, q.held, q1.driver, StageOf(q), p, r1);
  }

  lemma StartedQueued(head: seq<Rq>, held: seq<Rq>, driver: map<nat, Rq>, st: Stage, i: nat)
    requires Queued(head, held, driver, st) && i < |head| && DriverOk(head[i], st)
    ensures Queued(RemoveAt(head, i), held, driver[head[i].id := head[i]], st)
  {
    hide HeadOk, HeldOk, DriverOk;
    var t := RemoveAt(head, i);
    forall k | 0 <= k < |t| ensures t[k] == head[if k < i then k else k + 1] {}
  }

  lemma StartDrain(q: Queue, i: nat)
    requires Drain(q) && i < |q.head| && q.head[i].started && Base(Start(q, i))
    ensures Drain(Start(q, i))
  {
    hide Base, Sorted;
    RemoveAtIs(q.head, i);
    assert HeadOk(q.head[i], StageOf(q));
    StartedQueued(q.head, q.held, q.driver, StageOf(q), i);
  }

  // ----- looking at the head -----

  /** A file system request of the barrier's colour at the head belongs before
      the barrier, and then the queue has not drained. */
  lemma HeadBeforeBarrier(q: Queue)
    requires Drain(q) && q.head != [] && !IsProxy(q.head[0]) && q.head[0].fs
    requires if Active(q) then q.head[0].color == q.orig.color else !IsBarrier(q.head[0])
    ensures q.head[0].epoch == q.ended && !StageOf(q).drained && !IsBar(q.head[0])
  {
    var r := q.head[0];
    assert HeadOk(r, StageOf(q));
    if Active(q) {
      if r.epoch > q.ended { BehindNextBarrier(q, 0); }
    } else if q.ended < q.barriers {
      assert HasBar(q.head, q.ended);
      var k :| 0 <= k < |q.head| && IsBar(q.head[k]) && q.head[k].epoch == q.ended;
      assert Rank(r) <= Rank(q.head[k]);
    }
  }

  /** What blk_do_ordered lets through may be handed over now, and its WARN_ON
      does not fire. */
  lemma RunningHead(q: Queue)
    requires Drain(q) && Active(q) && q.head != []
    ensures DoOrdered(q).0 == q
    ensures DoOrdered(q).2 ==> HeadOk(q.head[0].(started := true), StageOf(q))
  {
    var r := q.head[0];
    assert HeadOk(r, StageOf(q));
    if IsProxy(r) {
      assert Has(q.head, r.id);
      assert !Bit(q.ordseq, r.id);
    } else if r.fs && r.color == q.orig.color {
      HeadBeforeBarrier(q);
    }
  }

  lemma PushDrain(c: bool, r: Rq, head: seq<Rq>, held: seq<Rq>, driver: map<nat, Rq>, st: Stage)
    requires Queued(head, held, driver, st) && HeadOk(r, st) && IsProxy(r)
    requires forall i :: 0 <= i < |head| && Ordered(head[i]) ==> Rank(r) <= Rank(head[i])
    ensures Queued(Push(c, r, head), held, driver, st)
  {
    if c {
      QueuedInsert(head, held, driver, st, 0, r);
      assert Push(c, r, head) == InsertAt(head, 0, r);
    }
  }

  lemma PushAllDrain(q: Queue, rest: seq<Rq>, st: Stage)
    requires Queued(rest, q.held, q.driver, st) && st.active && !st.drained && q.orig.epoch == st.done
    requires forall i :: 0 <= i < |rest| && Ordered(rest[i]) ==> 8 * st.done + 8 <= Rank(rest[i])
    ensures Queued(WithProxies(q, rest), q.held, q.driver, st)
  {
    var h1 := Push(q.mode.postflush, FlushRq(q, POST_FLUSH), rest);
    PushDrain(q.mode.postflush, FlushRq(q, POST_FLUSH), rest, q.held, q.driver, st);
    PushDrain(q.mode.bar, BarRq(q), h1, q.held, q.driver, st);
    PushDrain(q.mode.preflush, FlushRq(q, PRE_FLUSH), Push(q.mode.bar, BarRq(q), h1), q.held, q.driver, st);
  }

  /** Taking the barrier off and stacking its proxies keeps the order. */
  lemma StartingDrain(q: Queue)
    requires Drain(q) && !Active(q) && q.head != [] && IsBar(q.head[0])
    ensures Queued(Starting(q).head, q.held, q.driver, Stage(q.ended, q.barriers, true, false))
  {
    var rest := q.head[1..];
    var st := Stage(q.ended, q.barriers, true, false);
    BarsPop(q.head, q.ended, q.barriers);
    BaseNoProxies(q);
    forall i | 0 <= i < |rest| ensures HeadOk(rest[i], st) && (Ordered(rest[i]) ==> 8 * q.ended + 8 <= Rank(rest[i])) {
      assert rest[i] == q.head[i + 1] && HeadOk(q.head[i + 1], StageOf(q));
      assert Ordered(rest[i]) ==> Rank(q.head[0]) <= Rank(rest[i]);
    }
    assert Sorted(rest);
    PushAllDrain(Starting(q), rest, st);
  }

  lemma ProxiesOrRest(q: Queue, rest: seq<Rq>, i: nat)
    requires i < |WithProxies(q, rest)|
    ensures IsProxy(WithProxies(q, rest)[i]) || WithProxies(q, rest)[i] in rest
  {}

  /** An in-flight count of zero means that no file system request is with the driver. */
  lemma NoneInFlight(q: Queue)
    requires Core(q, NO_GAP) && q.inFlight == 0
    ensures forall id :: id in q.driver ==> !q.driver[id].fs
  {
    hide Places, Phases, WindowAt, History, ProperLog;
    forall id | id in q.driver ensures !q.driver[id].fs {
      assert KindOk(q.driver[id]) && id !in Accounted(q.driver);
    }
  }

  lemma BehindIsLater(q: Queue)
    requires Drain(q) && !Active(q) && q.head != [] && IsBar(q.head[0])
    ensures forall r :: r in q.head[1..] && Ordered(r) ==> r.epoch != q.ended
  {
    hide Core;
    BarsPop(q.head, q.ended, q.barriers);
    BaseNoProxies(q);
    forall r | r in q.head[1..] && Ordered(r) ensures r.epoch != q.ended {
      var k :| 0 < k < |q.head| && q.head[k] == r;
      assert Rank(q.head[0]) <= Rank(r);
      assert q.head[1..][k - 1] == r;
    }
  }

  lemma StartingReady(q: Queue)
    requires Drain(q) && !Active(q) && q.head != [] && IsBar(q.head[0]) && q.inFlight == 0
    ensures Ready(Starting(q).head, q.driver, q.ended)
  {
    NoneInFlight(q);
    BehindIsLater(q);
    StartingKeepsRest(q);
    hide Drain, Starting;
  }

  lemma StartingStacks(q: Queue)
    requires q.head != []
    ensures Starting(q).head == WithProxies(Starting(q), q.head[1..])
  {}

  lemma StartingKeepsRest(q: Queue)
    requires q.head != []
    ensures forall i :: 0 <= i < |Starting(q).head| ==> IsProxy(Starting(q).head[i]) || Starting(q).head[i] in q.head[1..]
  {
    hide Starting, WithProxies, IsProxy;
    StartingStacks(q);
    forall i | 0 <= i < |Starting(q).head| ensures IsProxy(Starting(q).head[i]) || Starting(q).head[i] in q.head[1..] {
      ProxiesOrRest(Starting(q), q.head[1..], i);
    }
  }

  lemma StartOrderedDrain(q: Queue)
    requires Drain(q) && !Active(q) && q.head != [] && IsBar(q.head[0]) && Base(StartOrdered(q).0)
    ensures Drain(StartOrdered(q).0)
    ensures StartOrdered(q).1 && StartOrdered(q).2 ==> StageOf(StartOrdered(q).0).drained
  {
    hide Core, Bars, Queued, StageMove, Ready, NoProxies, Starting, StartOrdered;
    var s, q' := Starting(q), StartOrdered(q).0;
    var st := Stage(q.ended, q.barriers, true, false);
    StartingDrain(q);
    BarIsStill(q);
    if q.inFlight == 0 { StartingReady(q); }
    if !Active(q') { OverIsNext(q'); }
    StartOrderedShape(q);
    StartOrderedMove(q, q', s.head, st);
    DriverIds(q);
    StageMoveKeeps(s.head, q.held, q.driver, st, StageOf(q'));
  }

  lemma BarIsStill(q: Queue)
    requires Base(q) && q.head != [] && IsBar(q.head[0])
    ensures !Account(q.head[0]) && (!Active(q) ==> q.ordseq == IDLE)
  {
    hide Core;
    IdleOrActive(q);
    BarsPop(q.head, NextBarrier(q), q.barriers);
  }

  /** What start_ordered leaves behind. */
  lemma StartOrderedShape(q: Queue)
    requires q.ordseq == IDLE && q.head != [] && !Account(q.head[0]) && DrainMode(q.next)
    ensures var (s, q') := (Starting(q), StartOrdered(q).0);
            q'.head == s.head && q'.held == q.held && q'.driver == q.driver && q'.barriers == q.barriers
            && q'.next == q.next && q'.warn == q.warn && q'.mode.drain && !q'.mode.tag
            && (Active(q') ==> q'.ended == q.ended && (q'.ordseq.drain <==> q.inFlight == 0))
            && (!Active(q') ==> q'.ended == q.ended + 1 && q.inFlight == 0)
            && (StartOrdered(q).1 && StartOrdered(q).2 ==> Active(q') && q'.ordseq.drain)
  {
    hide WithProxies;
    StartOrderedIs(q);
    CompleteSeqShape(Starting(q), Skipped(Starting(q)), 0);
  }

  lemma StartOrderedMove(q: Queue, q': Queue, head: seq<Rq>, st: Stage)
    requires st == Stage(q.ended, q.barriers, true, false) && q'.barriers == q.barriers
    requires q.inFlight == 0 ==> Ready(head, q.driver, q.ended)
    requires Active(q') ==> q'.ended == q.ended && (q'.ordseq.drain <==> q.inFlight == 0)
    requires !Active(q') ==>
               q'.ended == q.ended + 1 && q'.ended <= q'.barriers && q.inFlight == 0 && NoProxies(head, q.driver)
    ensures StageMove(head, q.driver, st, StageOf(q'))
  {
    hide Ready, NoProxies;
  }

  lemma MarkQueued(head: seq<Rq>, h: seq<Rq>, held: seq<Rq>, driver: map<nat, Rq>, st: Stage)
    requires Queued(head, held, driver, st) && head != [] && HeadOk(head[0].(started := true), st)
    requires h == [head[0].(started := true)] + head[1..]
    ensures Queued(h, held, driver, st)
  {
    hide HeadOk, HeldOk, DriverOk;
    forall i | 0 <= i < |h| ensures h[i] == if i == 0 then head[0].(started := true) else head[i] {}
    assert Rank(h[0]) == Rank(head[0]);
  }

  lemma MarkDrain(q: Queue, e: Event)
    requires Drain(q) && q.head != [] && HeadOk(q.head[0].(started := true), StageOf(q)) && Base(MarkHead(q, e))
    ensures Drain(MarkHead(q, e))
  {
    hide Base, Queued, HeadOk;
    MarkQueued(q.head, MarkHead(q, e).head, q.held, q.driver, StageOf(q));
  }

  /** What blk_do_ordered lets the elevator return can be marked started. */
  lemma DoOrderedDrain(q: Queue)
    requires Drain(q) && q.head != []
    ensures var (q1, more, given) := DoOrdered(q);
            Drain(q1)
            && (more && given ==> q1.head != [] && HeadOk(q1.head[0].(started := true), StageOf(q1)))
  {
    DoOrderedKeeps(q);
    assert HeadOk(q.head[0], StageOf(q));
    if Active(q) {
      RunningHead(q);
    } else if IsBarrier(q.head[0]) {
      BaseNoProxies(q);
      StartOrderedDrain(q);
      StartedHead(q);
    } else if q.head[0].fs {
      BaseNoProxies(q);
      HeadBeforeBarrier(q);
    } else {
      BaseNoProxies(q);
    }
  }

  lemma StartedHead(q: Queue)
    requires Drain(q) && !Active(q) && q.head != [] && IsBar(q.head[0]) && Drain(StartOrdered(q).0)
    requires StartOrdered(q).1 && StartOrdered(q).2 ==> StageOf(StartOrdered(q).0).drained
    ensures var (q1, more, given) := StartOrdered(q);
            more && given ==> q1.head != [] && HeadOk(q1.head[0].(started := true), StageOf(q1))
  {
    var (q1, more, given) := StartOrdered(q);
    if more && given {
      assert KindOk(q.head[0]);
      StartOrderedIs(q);
      StartingHead(q);
      assert HeadOk(q1.head[0], StageOf(q1));
    }
  }

  lemma FetchDrain(q: Queue)
    requires Drain(q) && q.head != []
    ensures Drain(Fetch(q))
  {
    var (q1, more, given) := DoOrdered(q);
    DoOrderedDrain(q);
    FetchKeeps(q);
    if more && given {
      MarkDrain(q1, HandedEvent(q1, q1.head[0]));
    }
  }

  /** Every step keeps the order. */
  lemma DrainStep(q: Queue, l: Label)
    requires Drain(q) && Enabled(GOOD, q, l)
    ensures Drain(Next(GOOD, q, l))
  {
    BaseStep(q, l);
    match l
    case LAdd(r, where) => AddDrain(q, r, where);
    case LDispatch(i, p) => DispatchDrain(q, i, p);
    case LFetch => FetchDrain(q);
    case LStart(i) => StartDrain(q, i);
    case LComplete(id, error) =>
      if id < FIRST_ID { ProxyCompleteDrain(q, id, error); } else { PlainCompleteDrain(q, id, error); }
    case LBarError(error) =>
    case LRequeue(id) => RequeueDrain(q, id);
  }
}
