/** struct request_queue as the block layer updates it in place, with the no-op
    elevator. Every method is tied to the state functions of Barrier, and what a
    caller sees is always a run of the transition system proved safe there. */
module RequestQueue {
  import opened Blkdev
  import opened Barrier
  import opened BarrierOnce
  import opened BarrierOrder
  import opened BarrierSafety
  import opened BarrierTheorems

  function EndSector(r: Rq): nat { r.sector + r.nsect }

  /** Order of the one-way elevator that starts at `boundary` and wraps around. */
  predicate Before(boundary: nat, a: nat, b: nat) {
    if a >= boundary then b < boundary || a < b else b < boundary && a < b
  }

  /** Requests elv_dispatch_sort may put a request in front of. */
  predicate Passable(r: Rq, x: Rq) { r.discard == x.discard && r.write == x.write && !Stops(x) }

  /** Where elv_dispatch_sort puts r: it passes backwards over requests that may
      be passed and come later in the one-way order. */
  ghost predicate SortPoint(head: seq<Rq>, boundary: nat, r: Rq, p: nat) {
    && p <= |head|
    && (forall j :: p <= j < |head| ==> Passable(r, head[j]) && Before(boundary, r.sector, head[j].sector))
    && (p > 0 ==> !(Passable(r, head[p - 1]) && Before(boundary, r.sector, head[p - 1].sector)))
  }

  ghost predicate OneWay(s: seq<Rq>, boundary: nat) {
    forall i, j :: 0 <= i < j < |s| ==> !Before(boundary, s[j].sector, s[i].sector)
  }

  /** Upwards from the boundary up to position k, and then upwards to the boundary. */
  ghost predicate TwoSweeps(s: seq<Rq>, boundary: nat, k: nat) {
    k <= |s| && (forall i :: 0 <= i < |s| ==> (boundary <= s[i].sector <==> i < k)) && Ascending(s, 0, k) && Ascending(s, k, |s|)
  }

  /** One-way order is two sweeps. */
  lemma OneWayIsTwoSweeps(s: seq<Rq>, boundary: nat)
    ensures OneWay(s, boundary) <==> exists k: nat :: TwoSweeps(s, boundary, k)
  {
    if OneWay(s, boundary) {
      var k := FirstBelow(s, boundary, 0);
      forall i | k < i < |s| ensures s[i].sector < boundary { assert !Before(boundary, s[i].sector, s[k].sector); }
      assert TwoSweeps(s, boundary, k);
    }
  }

  ghost predicate Ascending(s: seq<Rq>, from: int, to: int)
    requires 0 <= from <= to <= |s|
  {
    forall i, j :: from <= i < j < to ==> s[i].sector <= s[j].sector
  }

  function FirstBelow(s: seq<Rq>, boundary: nat, i: nat): (k: nat)
    requires i <= |s|
    ensures i <= k <= |s| && (forall j :: i <= j < k ==> boundary <= s[j].sector) && (k < |s| ==> s[k].sector < boundary)
    decreases |s| - i
  {
    if i == |s| || s[i].sector < boundary then i else FirstBelow(s, boundary, i + 1)
  }

  /** If the requests behind the last one that may not be passed are in one-way
      order, they still are after a request was sorted in. */
  lemma SortPointKeepsOrder(head: seq<Rq>, boundary: nat, r: Rq, p: nat, k: nat)
    requires SortPoint(head, boundary, r, p) && k <= |head|
    requires (forall j :: k <= j < |head| ==> Passable(r, head[j])) && (k > 0 ==> !Passable(r, head[k - 1]))
    requires OneWay(head[k..], boundary)
    ensures k <= p && OneWay(InsertAt(head, p, r)[k..], boundary)
  {
    if k > 0 { assert k <= p; }
    var t, u := InsertAt(head, p, r)[k..], head[k..];
    forall i | 0 <= i < |t| ensures t[i] == if i == p - k then r else u[if i < p - k then i else i - 1] {}
    forall i, j | 0 <= i < j < |t| ensures !Before(boundary, t[j].sector, t[i].sector) {
      if j == p - k {
        assert !Before(boundary, r.sector, head[p - 1].sector);
        assert i < p - k - 1 ==> !Before(boundary, u[p - k - 1].sector, u[i].sector);
      }
    }
  }

  ghost predicate Reaches(c: Callers, q: Queue, q': Queue) { exists ls :: Run(c, q, ls, q') }

  lemma ReachesSelf(c: Callers, q: Queue)
    ensures Reaches(c, q, q)
  {
    assert Run(c, q, [], q);
  }

  lemma ReachesStep(c: Callers, q: Queue, q1: Queue, l: Label)
    requires Reaches(c, q, q1) && Enabled(c, q1, l)
    ensures Reaches(c, q, Next(c, q1, l))
  {
    var ls :| Run(c, q, ls, q1);
    var q2 := Next(c, q1, l);
    assert [l][1..] == [];
    assert Run(c, q2, [], q2);
    RunConcat(c, q, ls, q1, [l], q2);
  }

  lemma ReachesTransitive(c: Callers, q: Queue, q1: Queue, q2: Queue)
    requires Reaches(c, q, q1) && Reaches(c, q1, q2)
    ensures Reaches(c, q, q2)
  {
    var ks :| Run(c, q, ks, q1);
    var ls :| Run(c, q1, ls, q2);
    RunConcat(c, q, ks, q1, ls, q2);
  }

  lemma ReachesNext(c: Callers, q: Queue, l: Label, q': Queue)
    requires Enabled(c, q, l) && q' == Next(c, q, l)
    ensures Reaches(c, q, q')
  {
    ReachesSelf(c, q);
    ReachesStep(c, q, q, l);
  }

  lemma ReachesComplete(c: Callers, q: Queue, id: nat, error: int)
    requires id in q.driver
    ensures Reaches(c, q, Complete(q, id, error))
  {
    ReachesNext(c, q, LComplete(id, error), Complete(q, id, error));
  }

  lemma ReachesRequeue(c: Callers, q: Queue, id: nat)
    requires id in q.driver
    ensures Reaches(c, q, Requeue(q, id))
  {
    ReachesNext(c, q, LRequeue(id), Requeue(q, id));
  }

  lemma ReachesFetch(c: Callers, q0: Queue, q: Queue)
    requires Reaches(c, q0, q) && q.head != []
    ensures Reaches(c, q0, Fetch(q))
  {
    ReachesStep(c, q0, q, LFetch);
  }

  ghost predicate AllDispatch(ls: seq<Label>) { forall l :: l in ls ==> l.LDispatch? }

  /** q' is q after the elevator moved requests it held to the dispatch queue. */
  ghost predicate Drains(c: Callers, q: Queue, q': Queue) { exists ls :: AllDispatch(ls) && Run(c, q, ls, q') }

  lemma DrainsOne(c: Callers, q: Queue, q1: Queue, i: nat, p: nat)
    requires Drains(c, q, q1) && Enabled(c, q1, LDispatch(i, p))
    ensures Drains(c, q, Dispatch(q1, i, p))
  {
    var ls :| AllDispatch(ls) && Run(c, q, ls, q1);
    var q2, l := Dispatch(q1, i, p), LDispatch(i, p);
    assert [l][1..] == [];
    assert Run(c, q2, [], q2);
    RunConcat(c, q, ls, q1, [l], q2);
    assert AllDispatch(ls + [l]);
  }

  /** Dispatching does not look at the colour of the queue. */
  lemma {:induction false} DispatchIgnoresColor(c: Callers, q: Queue, ls: seq<Label>, q': Queue, b: bool)
    requires AllDispatch(ls) && Run(c, q, ls, q')
    ensures Run(c, q.(ordcolor := b), ls, q'.(ordcolor := b))
    decreases |ls|
  {
    if ls != [] {
      assert ls[0] in ls;
      DispatchIgnoresColor(c, Next(c, q, ls[0]), ls[1..], q', b);
      assert Next(c, q.(ordcolor := b), ls[0]) == Next(c, q, ls[0]).(ordcolor := b);
    }
  }

  lemma DrainsRecolored(c: Callers, q: Queue, q': Queue, b: bool)
    requires Drains(c, q.(ordcolor := b), q')
    ensures Drains(c, q, q'.(ordcolor := q.ordcolor))
  {
    var ls :| AllDispatch(ls) && Run(c, q.(ordcolor := b), ls, q');
    DispatchIgnoresColor(c, q.(ordcolor := b), ls, q', q.ordcolor);
    assert q.(ordcolor := b).(ordcolor := q.ordcolor) == q;
  }

  lemma {:induction false} OnlyMovedRun(c: Callers, q: Queue, ls: seq<Label>, q': Queue)
    requires AllDispatch(ls) && Run(c, q, ls, q')
    ensures q' == q.(head := q'.head, held := q'.held)
    decreases |ls|
  {
    if ls != [] {
      assert ls[0] in ls;
      OnlyMovedRun(c, Next(c, q, ls[0]), ls[1..], q');
    }
  }

  lemma OnlyMoved(c: Callers, q: Queue, q': Queue)
    requires Drains(c, q, q')
    ensures q' == q.(head := q'.head, held := q'.held)
  {
    var ls :| AllDispatch(ls) && Run(c, q, ls, q');
    OnlyMovedRun(c, q, ls, q');
  }

  /** The queue after the first half of start_ordered. */
  function Opened(q: Queue): Queue
    requires q.head != []
  {
    var r := q.head[0];
    var m := EffectiveMode(q.next, r.nsect);
    q.(orderr := 0, mode := m, ordseq := q.ordseq.Or(OrdSeq(true, false, false, false, false)), orig := r,
       inFlight := q.inFlight + (if Account(r) then 1 else 0), log := q.log + [SeqStart(r.id, m)], seqAt := |q.log|,
       head := q.head[1..])
  }

  lemma StartOrderedParts(q: Queue)
    requires q.head != [] && q.ordseq == IDLE
    ensures
      var q1 := Opened(q);
      var m := q1.mode;
      var wait := m.drain && q1.inFlight != 0;
      var skip := OrdSeq(false, !wait, !m.preflush, !m.bar, !m.postflush);
      var (q2, over) := CompleteSeq(q1.(head := WithProxies(q1, q1.head)), skip, 0);
      StartOrdered(q) == (q2, !over, !wait && (m.preflush || m.bar || m.postflush))
      && (over ==> |q2.head| < |q.head|) && q2.held == q.held
  {}

  lemma WithFirst(s: seq<Rq>, r: Rq)
    requires s != []
    ensures s[0 := r] == [r] + s[1..] && s[0 := s[0]] == s
  {}

  /** The request at the head is returned to the driver. */
  function Given(q: Queue): Queue
    requires q.head != []
  {
    q.(head := [q.head[0].(started := true)] + q.head[1..], log := q.log + [HandedEvent(q, q.head[0])])
  }

  lemma FetchParts(q: Queue, q1: Queue, given: bool)
    requires q.head != [] && DoOrdered(q) == (q1, true, given)
    ensures !given ==> Fetch(q) == q1
    ensures given ==> q1.head != [] && Fetch(q) == Given(q1)
  {}

  function Placed(q: Queue, r: Rq, point: Where): Queue {
    match point
    case Sort => q.(held := q.held + [r])
    case Back => q.(head := q.head + [r.(soft := true)])
    case Front => q.(head := [r.(soft := true)] + q.head)
  }

  lemma AddIsPlaced(q: Queue, b: bool, r: Rq, r1: Rq, where: Where, q': Queue)
    requires r1 == r.(color := q.ordcolor, epoch := q.barriers) && b == if r.hard then !q.ordcolor else q.ordcolor
    requires q' == Placed(q.(ordcolor := b), r1, Point(r, where)).(barriers := q'.barriers, log := q.log + [Added(r1)])
    requires q'.barriers == if IsBarrier(r) then q.barriers + 1 else q.barriers
    ensures q' == Add(q, r, where)
  {
    var q1 := q.(ordcolor := b, barriers := q'.barriers, log := q.log + [Added(r1)]);
    match Point(r, where)
    case Sort => assert q' == q1.(held := q.held + [r1]);
    case Back => assert q' == q1.(head := q.head + [r1.(soft := true)]);
    case Front => assert q' == q1.(head := [r1.(soft := true)] + q.head);
  }

  /** What AddRequest does amounts to dispatches followed by an LAdd step, although
      the colour is toggled before the elevator is drained. */
  lemma AddAfterDrain(c: Callers, q0: Queue, b: bool, q: Queue, r: Rq, where: Where)
    requires Drains(c, q0.(ordcolor := b), q) && (Point(r, where) == Back ==> q.held == [])
    requires r.id >= FIRST_ID && Fresh(q0.log, r.id) && !r.started
    requires (r.hard ==> r.fs || c.hardNonFs) && (where == Front ==> !r.fs || c.fsFront) && (where == Sort ==> r.fs)
    ensures q == q0.(ordcolor := b, head := q.head, held := q.held)
    ensures var q1 := q0.(head := q.head, held := q.held);
      Drains(c, q0, q1) && Reaches(c, q0, Add(q1, r, where))
  {
    var q1 := q0.(head := q.head, held := q.held);
    OnlyMoved(c, q0.(ordcolor := b), q);
    DrainsRecolored(c, q0, q, b);
    assert q1 == q.(ordcolor := q0.ordcolor);
    var ls :| AllDispatch(ls) && Run(c, q0, ls, q1);
    assert Reaches(c, q0, q1);
    ReachesStep(c, q0, q1, LAdd(r, where));
  }

  lemma AddedState(c: Callers, q0: Queue, b: bool, q: Queue, r: Rq, r1: Rq, where: Where, q': Queue)
    requires Drains(c, q0.(ordcolor := b), q) && (Point(r, where) == Back ==> q.held == [])
    requires r.id >= FIRST_ID && Fresh(q0.log, r.id) && !r.started
    requires (r.hard ==> r.fs || c.hardNonFs) && (where == Front ==> !r.fs || c.fsFront) && (where == Sort ==> r.fs)
    requires r1 == r.(color := q0.ordcolor, epoch := q0.barriers) && b == if r.hard then !q0.ordcolor else q0.ordcolor
    requires q' == Placed(q, r1, Point(r, where)).(barriers := q'.barriers, log := q0.log + [Added(r1)])
    requires q'.barriers == if IsBarrier(r) then q0.barriers + 1 else q0.barriers
    ensures var q1 := q0.(head := q.head, held := q.held);
      Drains(c, q0, q1) && q' == Add(q1, r, where) && Reaches(c, q0, q')
  {
    AddAfterDrain(c, q0, b, q, r, where);
    AddIsPlaced(q0.(head := q.head, held := q.held), b, r, r1, where, q');
  }

  class BlockQueue {
    var head: seq<Rq>            // queue_head
    var held: seq<Rq>            // noop_data.queue
    var driver: map<nat, Rq>     // requests the driver works on
    var inFlight: int            // in_flight[0] + in_flight[1]
    var ordcolor: bool
    var ordseq: OrdSeq
    var orderr: int
    var mode: Mode               // ordered
    var nextMode: Mode           // next_ordered
    var orig: Rq                 // orig_bar_rq
    var endSector: nat           // end_sector
    var boundary: nat            // identity of boundary_rq, or 0 for NULL
    ghost var bug: bool
    ghost var warn: bool
    var barriers: nat            // barriers added so far
    ghost var ended: nat
    ghost var log: seq<Event>
    ghost var seqAt: nat

    ghost function State(): Queue
      reads this
    {
      Queue(head, held, driver, inFlight, ordcolor, ordseq, orderr, mode, nextMode, orig, bug, warn, barriers, ended, log,
            seqAt)
    }

    /** What every public method promises, Reaches(c, old(State()), State()), carries
        over from call to call: after any number of calls on this object its log is
        proper, and safe in drain mode if the callers are well-behaved. */
    lemma SafeAfterCall(c: Callers, q0: Queue, before: Queue)
      requires Initial(q0) && Reaches(c, q0, before) && Reaches(c, before, State())
      ensures Reaches(c, q0, State()) && ProperLog(log) && !bug
      ensures DrainMode(q0.next) && c == GOOD ==> SafeLog(log) && !warn
    {
      ReachesTransitive(c, q0, before, State());
      var ls :| Run(c, q0, ls, State());
      EachSequenceEndsOnce(c, q0, ls, State());
      if DrainMode(q0.next) && c == GOOD { BarrierOrderKept(q0, ls, State()); }
    }

    /** A new queue with the given ordering mode. */
    constructor (m: Mode)
      requires ValidMode(m)
      ensures Initial(State()) && nextMode == m
    {
      head, held, driver, inFlight := [], [], map[], 0;
      ordcolor, ordseq, orderr, mode, nextMode := false, IDLE, 0, m, m;
      orig := Rq(FIRST_ID, false, false, false, false, false, false, false, false, 0, 0, 0);
      endSector, boundary := 0, 0;
      bug, warn, barriers, ended, log, seqAt := false, false, 0, 0, [], 0;
    }

    /** The barrier request is ended. */
    method EndOrig()
      modifies this`log, this`ended, this`inFlight
      ensures log == old(log) + [Ended(orig.id, orderr)] && ended == old(ended) + 1
      ensures inFlight == if Account(orig) then old(inFlight) - 1 else old(inFlight)
    {
      log, ended := log + [Ended(orig.id, orderr)], ended + 1;
      if Account(orig) {
        inFlight := inFlight - 1;
      }
    }

    /** The phase bits are set and the first error is kept. */
    method SetPhases(bits: OrdSeq, error: int)
      modifies this`orderr, this`bug, this`ordseq
      ensures orderr == FirstError(old(orderr), error) && bug == (old(bug) || old(ordseq).Overlaps(bits))
      ensures ordseq == old(ordseq).Or(bits)
    {
      if error != 0 && orderr == 0 {
        orderr := error;
      }
      bug := bug || ordseq.Overlaps(bits);
      ordseq := ordseq.Or(bits);
    }

    /** blk_ordered_complete_seq */
    method CompletePhases(bits: OrdSeq, error: int) returns (over: bool)
      modifies this`orderr, this`bug, this`ordseq, this`log, this`ended, this`inFlight
      ensures (State(), over) == CompleteSeq(old(State()), bits, error)
    {
      hide OrdSeq.Or, OrdSeq.Overlaps, OrdSeq.Cur, FirstError, Account;
      SetPhases(bits, error);
      over := ordseq.Cur() == SEQ_DONE;
      if over {
        ordseq := IDLE;
        EndOrig();
      }
    }

    function SeqOf(r: Rq): (s: nat)
      reads this
      ensures s == ReqSeq(State(), r)
    {
      if r.id == PRE_FLUSH then SEQ_PREFLUSH
      else if r.id == BAR then SEQ_BAR
      else if r.id == POST_FLUSH then SEQ_POSTFLUSH
      else if !r.fs || r.color == orig.color then SEQ_DRAIN
      else SEQ_DONE
    }

    /** elv_completed_request */
    method CompletedRequest(r: Rq)
      modifies this`orderr, this`bug, this`ordseq, this`log, this`ended, this`inFlight
      ensures State() == ElvCompleted(old(State()), r)
    {
      if Account(r) {
        inFlight := inFlight - 1;
      }
      if ordseq != IDLE {
        if inFlight == 0 && ordseq.Cur() == SEQ_DRAIN && (head == [] || SeqOf(head[0]) > SEQ_DRAIN) {
          var _ := CompletePhases(DRAIN_BIT, 0);
        }
      }
    }

    /** A proxy ends: blk_finish_request and its end_io callback. */
    method FinishProxy(id: nat, error: int)
      requires id in driver && IsProxy(driver[id])
      modifies this`orderr, this`bug, this`ordseq, this`log, this`ended, this`inFlight, this`driver
      ensures State() == Complete(old(State()), id, error)
    {
      hide CompleteSeq, ElvCompleted;
      var r := driver[id];
      if id == BAR { EndPart(error); }
      driver := driver - {id};
      CompletedRequest(r);
      log := log + [PhaseDone(id, error)];
      var _ := CompletePhases(ProxyBit(id), error);
    }

    /** The driver ends a request. */
    method FinishRequest(id: nat, error: int, ghost c: Callers)
      requires id in driver
      modifies this
      ensures State() == Complete(old(State()), id, error)
      ensures Reaches(c, old(State()), State())
    {
      hide CompleteSeq, ElvCompleted, Reaches;
      ReachesComplete(c, State(), id, error);
      var r := driver[id];
      if IsProxy(r) {
        FinishProxy(id, error);
      } else {
        driver, log := driver - {id}, log + [Completed(id)];
        CompletedRequest(r);
      }
    }

    /** queue_flush and elv_insert at the front. */
    method PushFront(r: Rq)
      modifies this`head
      ensures head == [r] + old(head)
    {
      head := [r] + head;
    }

    /** The proxies of start_ordered, pushed in reverse order. */
    method PushProxies() returns (given: bool)
      modifies this`head
      ensures head == WithProxies(old(State()), old(head))
      ensures given == (mode.preflush || mode.bar || mode.postflush)
    {
      given := false;
      if mode.postflush {
        PushFront(Rq(POST_FLUSH, false, true, true, false, false, false, false, false, 0, 0, orig.epoch));
        given := true;
      }
      if mode.bar {
        PushFront(Rq(BAR, true, true, true, false, false, false, false, orig.write, orig.sector, orig.nsect, orig.epoch));
        given := true;
      }
      if mode.preflush {
        PushFront(Rq(PRE_FLUSH, false, true, true, false, false, false, false, false, 0, 0, orig.epoch));
        given := true;
      }
    }

    /** The mode of a sequence for a barrier of nsect sectors. */
    method ChooseMode(nsect: nat) returns (m: Mode)
      ensures m == EffectiveMode(nextMode, nsect)
    {
      m := nextMode;
      if nsect == 0 {
        m := m.(bar := false, postflush := false);
        if m.tag && !m.preflush {
          m := m.(tag := false, drain := true);
        }
      }
    }

    /** The first half of start_ordered: the barrier leaves the queue. */
    method OpenSequence()
      requires head != []
      modifies this`orderr, this`mode, this`ordseq, this`orig, this`head, this`inFlight, this`seqAt, this`log
      ensures orderr == 0 && mode == Opened(old(State())).mode && ordseq == Opened(old(State())).ordseq
      ensures orig == old(head)[0] && head == old(head)[1..] && inFlight == Opened(old(State())).inFlight
      ensures seqAt == |old(log)| && log == Opened(old(State())).log
    {
      var r := head[0];
      var m := ChooseMode(r.nsect);
      seqAt, log := |log|, log + [SeqStart(r.id, m)];
      orderr, mode, ordseq, orig := 0, m, ordseq.Or(OrdSeq(true, false, false, false, false)), r;
      head, inFlight := head[1..], inFlight + (if Account(r) then 1 else 0);
    }

    method OpenWithProxies() returns (proxies: bool)
      requires head != []
      modifies this
      ensures var q := Opened(old(State()));
        State() == q.(head := WithProxies(q, q.head)) && proxies == (q.mode.preflush || q.mode.bar || q.mode.postflush)
    {
      ghost var q := Opened(State());
      OpenSequence();
      assert State() == q;
      proxies := PushProxies();
    }

    /** The second half of start_ordered: the phases that need no request are done. */
    method SkipPhases(proxies: bool) returns (more: bool, given: bool)
      modifies this
      ensures
        var q := old(State());
        var wait := q.mode.drain && q.inFlight != 0;
        var skip := OrdSeq(false, !wait, !q.mode.preflush, !q.mode.bar, !q.mode.postflush);
        (State(), !more) == CompleteSeq(q, skip, 0) && given == (!wait && proxies)
    {
      given := proxies;
      var skip := OrdSeq(false, false, !mode.preflush, !mode.bar, !mode.postflush);
      if mode.drain && inFlight != 0 {
        given := false;
      } else {
        skip := skip.(drain := true);
      }
      var over := CompletePhases(skip, 0);
      more := !over;
    }

    /** start_ordered on the barrier at the head. */
    method BeginSequence() returns (more: bool, given: bool)
      requires head != [] && ordseq == IDLE
      modifies this
      ensures (State(), more, given) == StartOrdered(old(State()))
      ensures held == old(held) && (!more ==> |head| < |old(head)|)
    {
      StartOrderedParts(State());
      var proxies := OpenWithProxies();
      more, given := SkipPhases(proxies);
    }

    /** blk_do_ordered on the request at the head: whether the elevator may return,
        and whether it returns the request at the head. */
    method OrderHead() returns (more: bool, given: bool)
      requires head != []
      modifies this
      ensures (State(), more, given) == DoOrdered(old(State()))
      ensures !more ==> |head| < |old(head)|
      ensures held == old(held)
    {
      var r := head[0];
      if ordseq == IDLE {
        if !IsBarrier(r) { return true, true; }
        if nextMode != ORDERED_NONE {
          more, given := BeginSequence();
          return;
        }
        head, ended, log := head[1..], ended + 1, log + [Rejected(r.id)];
        return false, false;
      }
      if !r.fs && r.id != PRE_FLUSH && r.id != POST_FLUSH { return true, true; }
      if mode.tag {
        return true, !(IsBarrier(r) && r.id != BAR);
      }
      warn := warn || SeqOf(r) < ordseq.Cur();
      return true, SeqOf(r) <= ordseq.Cur();
    }

    /** elv_dispatch_sort: the request is sorted in from the back of the queue. */
    method DispatchSort(r: Rq) returns (ghost p: nat)
      modifies this`head
      ensures SortPoint(old(head), endSector, r, p) && head == InsertAt(old(head), p, r)
      ensures forall j :: p <= j < |old(head)| ==>
        var x := old(head)[j]; x.write == r.write && x.discard == r.discard && !x.soft && !x.hard && !x.started
    {
      var i := |head|;
      while i > 0
        invariant 0 <= i <= |head|
        invariant forall j :: i <= j < |head| ==> Passable(r, head[j]) && Before(endSector, r.sector, head[j].sector)
      {
        var pos := head[i - 1];
        if r.discard != pos.discard { break; }
        if r.write != pos.write { break; }
        if Stops(pos) { break; }
        if r.sector >= endSector {
          if pos.sector < endSector {
            i := i - 1;
            continue;
          }
        } else if pos.sector >= endSector {
          break;
        }
        if r.sector >= pos.sector { break; }
        i := i - 1;
      }
      p := i;
      head := head[..i] + [r] + head[i..];
    }

    /** noop_dispatch */
    method NoopDispatch(ghost c: Callers) returns (dispatched: bool)
      modifies this`head, this`held
      ensures dispatched == (old(held) != [])
      ensures !dispatched ==> head == old(head) && held == old(held)
      ensures dispatched ==>
        exists p :: SortPoint(old(head), endSector, old(held)[0], p) && State() == Dispatch(old(State()), 0, p)
    {
      if held == [] { return false; }
      ghost var q0 := State();
      var r := held[0];
      held := held[1..];
      ghost var p := DispatchSort(r);
      assert q0.held[..0] + q0.held[1..] == held;
      assert State() == Dispatch(q0, 0, p);
      dispatched := true;
    }

    /** elv_drain_elevator */
    method DrainElevator(ghost c: Callers)
      modifies this`head, this`held
      ensures held == [] && Drains(c, old(State()), State())
    {
      ghost var q0 := State();
      assert AllDispatch([]) && Run(c, q0, [], q0);
      var more := true;
      while more
        invariant Drains(c, q0, State())
        invariant !more ==> held == []
        decreases |held|, more
      {
        ghost var q1, b := State(), endSector;
        more := NoopDispatch(c);
        if more {
          ghost var p :| SortPoint(q1.head, b, q1.held[0], p) && State() == Dispatch(q1, 0, p);
          DrainsOne(c, q0, q1, 0, p);
        }
      }
    }

    /** The colour and the boundary that __elv_add_request updates for requests
        that may not be passed, and the insertion point it settles on. */
    method ChoosePoint(r: Rq, where: Where) returns (point: Where)
      modifies this`ordcolor, this`endSector, this`boundary
      ensures ordcolor == (if r.hard then !old(ordcolor) else old(ordcolor)) && point == Point(r, where)
      ensures (endSector, boundary) == if (r.hard || r.soft) && (r.fs || r.discard) then (EndSector(r), r.id)
        else (old(endSector), old(boundary))
    {
      point := where;
      if r.hard || r.soft {
        if r.hard { ordcolor := !ordcolor; }
        if point == Sort { point := Back; }
        if r.fs || r.discard {
          endSector, boundary := EndSector(r), r.id;
        }
      } else if !r.elvpriv && point == Sort {
        point := Back;
      }
    }

    /** elv_insert */
    method Insert(r: Rq, point: Where, ghost c: Callers) returns (ghost q: Queue)
      modifies this`head, this`held
      ensures Drains(c, old(State()), q) && (point == Back ==> q.held == []) && State() == Placed(q, r, point)
    {
      assert AllDispatch([]) && Run(c, State(), [], State());
      if point == Back { DrainElevator(c); }
      q := State();
      match point {
        case Sort => held := held + [r];
        case Back => head := head + [r.(soft := true)];
        case Front => head := [r.(soft := true)] + head;
      }
    }

    /** Bookkeeping: r was added. */
    method RecordAdd(r: Rq)
      modifies this`barriers, this`log
      ensures barriers == (if IsBarrier(r) then old(barriers) + 1 else old(barriers)) && log == old(log) + [Added(r)]
    {
      barriers, log := if IsBarrier(r) then barriers + 1 else barriers, log + [Added(r)];
    }

    /** __elv_add_request */
    method AddRequest(r: Rq, where: Where, ghost c: Callers) returns (ghost drained: Queue)
      requires r.id >= FIRST_ID && Fresh(log, r.id) && !r.started && !r.color
      requires (r.hard ==> r.fs || c.hardNonFs) && (where == Front ==> !r.fs || c.fsFront) && (where == Sort ==> r.fs)
      modifies this`head, this`held, this`ordcolor, this`endSector, this`boundary, this`barriers, this`log
      ensures Drains(c, old(State()), drained) && State() == Add(drained, r, where)
      ensures Reaches(c, old(State()), State())
    {
      hide Reaches, Drains, Add, Point, Placed, Fresh;
      ghost var q0 := State();
      var r1 := r.(color := r.color || ordcolor, epoch := barriers);
      var point := ChoosePoint(r, where);
      ghost var b := ordcolor;
      ghost var q := Insert(r1, point, c);
      RecordAdd(r1);
      drained := q0.(head := q.head, held := q.held);
      AddedState(c, q0, b, q, r, r1, where, State());
    }

    /** __elv_next_request: the queue in which the last look at its head was taken
        is `before`; nothing was found either because all is empty or because the
        request at the head has to wait. */
    method NextRequest(ghost c: Callers) returns (found: bool, ghost before: Queue)
      modifies this
      ensures Reaches(c, old(State()), before)
      ensures found ==> before.head != [] && DoOrdered(before) == (State(), true, true)
      ensures !found ==>
        (before == State() && head == [] && held == []) || (before.head != [] && DoOrdered(before) == (State(), true, false))
    {
      before := State();
      ghost var q0 := before;
      ReachesSelf(c, q0);
      while true
        invariant before == State() && Reaches(c, q0, before)
        decreases 2 * |held| + |head|
      {
        ghost var budget := 2 * |held| + |head|;
        while head != []
          invariant before == State() && Reaches(c, q0, before)
          invariant 2 * |held| + |head| <= budget
          decreases |head|
        {
          var more;
          more, found := OrderHead();
          if more { return; }
          ReachesFetch(c, q0, before);
          before := State();
        }
        ghost var b := endSector;
        var dispatched := NoopDispatch(c);
        if !dispatched { return false, before; }
        ghost var p :| SortPoint(before.head, b, before.held[0], p) && State() == Dispatch(before, 0, p);
        ReachesStep(c, q0, before, LDispatch(0, p));
        before := State();
      }
    }

    /** The driver sees the request at the head. */
    method MarkHead()
      requires head != []
      modifies this`head, this`endSector, this`boundary, this`log
      ensures head == [old(head)[0].(started := true)] + old(head)[1..]
      ensures log == old(log) + [HandedEvent(old(State()), old(head)[0])]
    {
      hide HandedEvent;
      var r := head[0];
      WithFirst(head, r.(started := true));
      log := log + [HandedEvent(State(), r)];
      if !r.started {
        head := head[0 := r.(started := true)];
      }
      if boundary == 0 || boundary == r.id {
        endSector, boundary := EndSector(r), 0;
      }
    }

    /** blk_peek_request without a prep function. */
    method PeekRequest(ghost c: Callers) returns (found: bool, ghost before: Queue)
      modifies this
      ensures Reaches(c, old(State()), State())
      ensures found ==> head != [] && head[0].started && log != [] && log[|log| - 1] == HandedEvent(State(), head[0])
      ensures !found ==>
        (head == [] && held == []) || (before.head != [] && DoOrdered(before) == (State(), true, false))
    {
      found, before := NextRequest(c);
      if before.head != [] {
        ReachesFetch(c, old(State()), before);
      }
      if found {
        FetchParts(before, State(), true);
        MarkHead();
      } else if before.head != [] {
        FetchParts(before, State(), false);
      }
    }

    /** blk_start_request on the request at position i of the queue. */
    method StartRequest(i: nat, ghost c: Callers)
      requires i < |head| && head[i].started
      modifies this
      ensures State() == Start(old(State()), i) && Reaches(c, old(State()), State())
    {
      ghost var q0 := State();
      var r := head[i];
      head, driver := head[..i] + head[i + 1..], driver[r.id := r];
      if Account(r) { inFlight := inFlight + 1; }
      ReachesSelf(c, q0);
      ReachesStep(c, q0, q0, LStart(i));
    }

    /** A part of the barrier proxy ends with an error. */
    method EndPart(error: int)
      modifies this`orderr, this`log
      ensures State() == BarError(old(State()), error)
    {
      if error != 0 && orderr == 0 { orderr := error; }
      log := log + [PartError(error)];
    }

    /** The scan of elv_insert: in front of the first request that is not ordered
        before r. */
    method ScanFor(r: Rq) returns (p: nat)
      ensures p == RequeuePoint(State(), ReqSeq(State(), r), 0)
      ensures p <= |head|
    {
      var seqNo := SeqOf(r);
      p := 0;
      while p < |head|
        invariant p <= |head| && RequeuePoint(State(), seqNo, 0) == RequeuePoint(State(), seqNo, p)
      {
        if seqNo <= SeqOf(head[p]) { return; }
        p := p + 1;
      }
    }

    /** elv_requeue_request */
    method RequeueRequest(id: nat, ghost c: Callers)
      requires id in driver
      modifies this
      ensures State() == Requeue(old(State()), id) && Reaches(c, old(State()), State())
    {
      hide Reaches, ReqSeq;
      ReachesRequeue(c, State(), id);
      var r := driver[id];
      driver := driver - {id};
      if Account(r) { inFlight := inFlight - 1; }
      r := r.(started := false, soft := true);
      var p := 0;
      if ordseq != IDLE {
        p := ScanFor(r);
      }
      head := head[..p] + [r] + head[p..];
    }
  }
}
