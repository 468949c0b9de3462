/** The ordered sequence of block/blk-barrier.c and the elevator operations of
    block/elevator.c and block/blk.h that it depends on, as functions from queue
    state to queue state, and the transition system they make together with a
    driver and a submitter that act in any order. */
module Barrier {
  import opened Blkdev

  /** blk_ordered_req_seq */
  function ReqSeq(q: Queue, r: Rq): nat {
    if r.id == PRE_FLUSH then SEQ_PREFLUSH
    else if r.id == BAR then SEQ_BAR
    else if r.id == POST_FLUSH then SEQ_POSTFLUSH
    else if !r.fs then SEQ_DRAIN
    else if r.color == q.orig.color then SEQ_DRAIN
    else SEQ_DONE
  }

  function FirstError(orderr: int, error: int): int {
    if error != 0 && orderr == 0 then error else orderr
  }

  function AccountDone(q: Queue, r: Rq): Queue {
    if Account(r) then q.(inFlight := q.inFlight - 1) else q
  }

  /** blk_ordered_complete_seq; the second result is true when the sequence is over. */
  function CompleteSeq(q: Queue, bits: OrdSeq, error: int): (Queue, bool) {
    var o := q.ordseq.Or(bits);
    var q1 := q.(orderr := FirstError(q.orderr, error), bug := q.bug || q.ordseq.Overlaps(bits), ordseq := o);
    if o.Cur() != SEQ_DONE then (q1, false)
    else
      var q2 := q1.(ordseq := IDLE, ended := q.ended + 1, log := q1.log + [Ended(q.orig.id, q1.orderr)]);
      (AccountDone(q2, q.orig), true)
  }

  /** elv_completed_request */
  function ElvCompleted(q: Queue, r: Rq): Queue {
    var q1 := AccountDone(q, r);
    if q1.ordseq != IDLE && q1.inFlight == 0 && q1.ordseq.Cur() == SEQ_DRAIN
       && (q1.head == [] || ReqSeq(q1, q1.head[0]) > SEQ_DRAIN)
    then CompleteSeq(q1, DRAIN_BIT, 0).0
    else q1
  }

  /** queue_flush: the flush request pushed at the front of the queue. */
  function FlushRq(q: Queue, id: nat): Rq {
    Rq(id, false, true, true, false, false, false, false, false, 0, 0, q.orig.epoch)
  }

  /** The proxy of the barrier request itself, made from its bio. */
  function BarRq(q: Queue): Rq {
    Rq(BAR, true, true, true, false, false, false, false, q.orig.write, q.orig.sector, q.orig.nsect, q.orig.epoch)
  }

  /** The mode a barrier without data is carried out in. */
  function EffectiveMode(m: Mode, nsect: nat): Mode {
    if nsect != 0 then m
    else if m.tag && !m.preflush then m.(bar := false, postflush := false, tag := false, drain := true)
    else m.(bar := false, postflush := false)
  }

  function Push(c: bool, r: Rq, s: seq<Rq>): seq<Rq> {
    if c then [r] + s else s
  }

  /** The proxies the mode asks for, stacked at the front in reverse order. */
  function WithProxies(q: Queue, rest: seq<Rq>): seq<Rq> {
    Push(q.mode.preflush, FlushRq(q, PRE_FLUSH),
         Push(q.mode.bar, BarRq(q), Push(q.mode.postflush, FlushRq(q, POST_FLUSH), rest)))
  }

  /** start_ordered on the barrier at the head: the new queue, whether the
      elevator may go on with a request, and whether it is non-NULL. */
  function StartOrdered(q: Queue): (Queue, bool, bool)
    requires q.head != []
  {
    var r := q.head[0];
    var m := EffectiveMode(q.next, r.nsect);
    var q1 := q.(orderr := 0, mode := m, ordseq := q.ordseq.Or(OrdSeq(true, false, false, false, false)), orig := r,
                 inFlight := q.inFlight + (if Account(r) then 1 else 0), log := q.log + [SeqStart(r.id, m)],
                 seqAt := |q.log|);
    var wait := m.drain && q1.inFlight != 0;
    var skip := OrdSeq(false, !wait, !m.preflush, !m.bar, !m.postflush);
    var (q2, over) := CompleteSeq(q1.(head := WithProxies(q1, q.head[1..])), skip, 0);
    (q2, !over, !wait && (m.preflush || m.bar || m.postflush))
  }

  /** blk_do_ordered on the request at the head of the queue. */
  function DoOrdered(q: Queue): (Queue, bool, bool)
    requires q.head != []
  {
    var r := q.head[0];
    if q.ordseq == IDLE then
      if !IsBarrier(r) then (q, true, true)
      else if q.next != ORDERED_NONE then StartOrdered(q)
      else (q.(head := q.head[1..], ended := q.ended + 1, log := q.log + [Rejected(r.id)]), false, false)
    else if !r.fs && r.id != PRE_FLUSH && r.id != POST_FLUSH then (q, true, true)
    else if q.mode.tag then (q, true, !(IsBarrier(r) && r.id != BAR))
    else (q.(warn := q.warn || ReqSeq(q, r) < q.ordseq.Cur()), true, ReqSeq(q, r) <= q.ordseq.Cur())
  }

  function HandedEvent(q: Queue, r: Rq): Event {
    if IsProxy(r) then HandedProxy(r.id, q.orig.id) else Handed(r.id)
  }

  /** One look at the head of the queue by __elv_next_request; a request that is
      returned to the driver is marked REQ_STARTED, as blk_peek_request does. */
  function Fetch(q: Queue): Queue
    requires q.head != []
  {
    var (q1, more, given) := DoOrdered(q);
    if more && given && q1.head != [] then
      q1.(head := [q1.head[0].(started := true)] + q1.head[1..], log := q1.log + [HandedEvent(q1, q1.head[0])])
    else q1
  }

  /** Where a request is put: ELEVATOR_INSERT_*. */
  datatype Where = Sort | Back | Front

  /** The insertion point __elv_add_request settles on. */
  function Point(r: Rq, where: Where): Where {
    if where == Sort && (r.hard || r.soft || !r.elvpriv) then Back else where
  }

  /** __elv_add_request. Draining the elevator before a back insertion is left
      to Dispatch steps, so here the elevator is already empty. */
  function Add(q: Queue, r: Rq, where: Where): Queue {
    var r1 := r.(color := q.ordcolor, epoch := q.barriers);
    var barrier := IsBarrier(r);
    var q1 := q.(ordcolor := if r.hard then !q.ordcolor else q.ordcolor,
                 barriers := if barrier then q.barriers + 1 else q.barriers, log := q.log + [Added(r1)]);
    match Point(r, where)
    case Sort => q1.(held := q.held + [r1])
    case Back => q1.(head := q.head + [r1.(soft := true)])
    case Front => q1.(head := [r1.(soft := true)] + q.head)
  }

  /** Requests the elevator may not pass: the stop_flags of elv_dispatch_sort. */
  predicate Stops(r: Rq) { r.soft || r.hard || r.started }

  function InsertAt(s: seq<Rq>, p: nat, r: Rq): seq<Rq>
    requires p <= |s|
  {
    s[..p] + [r] + s[p..]
  }

  /** The elevator moves a request it holds to the dispatch queue. */
  function Dispatch(q: Queue, i: nat, p: nat): Queue
    requires i < |q.held| && p <= |q.head|
  {
    q.(held := q.held[..i] + q.held[i + 1..], head := InsertAt(q.head, p, q.held[i]))
  }

  /** blk_start_request: the driver takes a request off the queue. */
  function Start(q: Queue, i: nat): Queue
    requires i < |q.head|
  {
    var r := q.head[i];
    q.(head := q.head[..i] + q.head[i + 1..], driver := q.driver[r.id := r],
       inFlight := q.inFlight + (if Account(r) then 1 else 0))
  }

  /** A part of the barrier proxy is ended with an error: req_bio_endio. */
  function BarError(q: Queue, error: int): Queue {
    q.(orderr := FirstError(q.orderr, error), log := q.log + [PartError(error)])
  }

  /** A proxy's end_io callback reports its phase. */
  function Report(q: Queue, id: nat, error: int): Queue {
    CompleteSeq(q.(log := q.log + [PhaseDone(id, error)]), ProxyBit(id), error).0
  }

  /** The driver ends a request completely: blk_finish_request with the end_io
      callbacks of the proxies, or __blk_put_request. */
  function Complete(q: Queue, id: nat, error: int): Queue
    requires id in q.driver
  {
    var r := q.driver[id];
    if IsProxy(r) then
      var q1 := if id == BAR then BarError(q, error) else q;
      Report(ElvCompleted(q1.(driver := q.driver - {id}), r), id, error)
    else ElvCompleted(q.(driver := q.driver - {id}, log := q.log + [Completed(id)]), r)
  }

  /** First position from p on whose request is not ordered before seqNo. */
  function RequeuePoint(q: Queue, seqNo: nat, p: nat): (r: nat)
    requires p <= |q.head|
    ensures p <= r <= |q.head|
    ensures forall j :: p <= j < r ==> ReqSeq(q, q.head[j]) < seqNo
    ensures r < |q.head| ==> seqNo <= ReqSeq(q, q.head[r])
    decreases |q.head| - p
  {
    if p == |q.head| || seqNo <= ReqSeq(q, q.head[p]) then p else RequeuePoint(q, seqNo, p + 1)
  }

  /** elv_requeue_request */
  function Requeue(q: Queue, id: nat): Queue
    requires id in q.driver
  {
    var r := q.driver[id];
    var r1 := r.(started := false, soft := true);
    var q1 := AccountDone(q.(driver := q.driver - {id}), r);
    var p := if q.ordseq == IDLE then 0 else RequeuePoint(q1, ReqSeq(q1, r1), 0);
    q1.(head := InsertAt(q.head, p, r1))
  }

  /** What submitters may do beyond the calls of the block layer itself: put
      REQ_HARDBARRIER on a request that is not a file system request, or insert
      a file system request at the front. */
  datatype Callers = Callers(hardNonFs: bool, fsFront: bool)

  datatype Label =
    | LAdd(r: Rq, where: Where)
    | LDispatch(i: nat, p: nat)
    | LFetch
    | LStart(i: nat)
    | LComplete(id: nat, error: int)
    | LBarError(error: int)
    | LRequeue(id: nat)

  ghost predicate Fresh(log: seq<Event>, id: nat) {
    forall e :: e in log && e.Added? ==> e.r.id != id
  }

  ghost predicate Enabled(c: Callers, q: Queue, l: Label) {
    match l
    case LAdd(r, where) =>
      && r.id >= FIRST_ID && Fresh(q.log, r.id) && !r.started
      && (r.hard ==> (r.fs || c.hardNonFs))
      && (where == Front ==> (!r.fs || c.fsFront))
      && (where == Sort ==> r.fs)
      && (Point(r, where) == Back ==> q.held == [])
    case LDispatch(i, p) => i < |q.held| && p <= |q.head| && forall j :: p <= j < |q.head| ==> !Stops(q.head[j])
    case LFetch => q.head != []
    case LStart(i) => i < |q.head| && q.head[i].started
    case LComplete(id, error) => id in q.driver
    case LBarError(error) => BAR in q.driver
    case LRequeue(id) => id in q.driver
  }

  ghost function Next(c: Callers, q: Queue, l: Label): Queue
    requires Enabled(c, q, l)
  {
    match l
    case LAdd(r, where) => Add(q, r, where)
    case LDispatch(i, p) => Dispatch(q, i, p)
    case LFetch => Fetch(q)
    case LStart(i) => Start(q, i)
    case LComplete(id, error) => Complete(q, id, error)
    case LBarError(error) => BarError(q, error)
    case LRequeue(id) => Requeue(q, id)
  }

  /** ls leads from q to q' when submitters behave as c allows. */
  ghost predicate Run(c: Callers, q: Queue, ls: seq<Label>, q': Queue)
    decreases |ls|
  {
    if ls == [] then q == q' else Enabled(c, q, ls[0]) && Run(c, Next(c, q, ls[0]), ls[1..], q')
  }

  lemma {:induction false} RunConcat(c: Callers, q: Queue, ls: seq<Label>, q': Queue, ms: seq<Label>, q'': Queue)
    requires Run(c, q, ls, q') && Run(c, q', ms, q'')
    ensures Run(c, q, ls + ms, q'')
    decreases |ls|
  {
    hide Enabled, Next;
    if ls == [] {
      assert ls + ms == ms;
    } else {
      RunConcat(c, Next(c, q, ls[0]), ls[1..], q', ms, q'');
      assert (ls + ms)[1..] == ls[1..] + ms;
    }
  }
}
