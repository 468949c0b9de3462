/** The anticipatory scheduler (block/as-iosched.c): two directions, batches of one
    direction, and the wait for the next request of a process whose read has ended. */
module AsIosched {
  import opened Optional
  import opened SortList
  import opened AsChoice

  /** sort_list, fifo_list, next_rq, last_sector and last_check_fifo of a direction. */
  datatype Side = Side(tree: seq<Node>, fifo: seq<Entry>, next: Option<nat>, last: nat, lastCheck: nat)

  /** enum anticipation_status */
  datatype Status = Off | WaitReq | WaitNext | Finished

  /** The batch that is running. */
  datatype Batch = Batch(sync: bool, changed: bool, isNew: bool, expires: nat, writeCount: nat, writeMax: nat, idled: bool)

  /** struct as_data. `iocOf` is the io context of each request, `inDriver` what was
      dispatched and has not completed, `out` the order of dispatch, `now` jiffies. */
  datatype Data = Data(
    sync: Side, async: Side, batch: Batch,
    status: Status, ioc: Option<nat>, iocFinished: bool, anticStart: nat,
    iocOf: map<nat, nat>, inDriver: map<nat, bool>, nrDispatched: int, now: nat, out: seq<nat>)

  /** The tunables, and the number of jiffies in a second. */
  datatype Tunables = Tunables(syncFifo: nat, asyncFifo: nat, syncBatch: nat, asyncBatch: nat, anticExpire: nat, hz: nat)

  function Of(s: Data, d: bool): Side { if d then s.sync else s.async }

  function With(s: Data, d: bool, side: Side): Data { if d then s.(sync := side) else s.(async := side) }

  function FifoExpire(t: Tunables, d: bool): nat { if d then t.syncFifo else t.asyncFifo }

  function Init(t: Tunables, now: nat): Data {
    Data(Side([], [], None, 0, 0), Side([], [], None, 0, 0),
         Batch(false, false, false, now + t.syncBatch, 0, if t.asyncBatch / 10 < 2 then 2 else t.asyncBatch / 10, false),
         Off, None, false, 0, map[], map[], 0, now, [])
  }

  predicate Waiting(s: Data) { s.status == WaitReq || s.status == WaitNext }

  function IdOf(n: Option<Node>): Option<nat> { if n.Some? then Some(n.value.id) else None }

  function NodeOf(tree: seq<Node>, id: Option<nat>): Option<Node> {
    if id.Some? && TreeIndex(tree, id.value) < |tree| then Some(tree[TreeIndex(tree, id.value)]) else None
  }

  // ----- anticipation -----

  /** as_antic_stop */
  function AnticStop(s: Data): Data { if Waiting(s) then s.(status := Finished) else s }

  /** as_antic_waitnext, behind its BUG_ON */
  function AnticWaitnext(s: Data): Data
    requires s.status == Off || s.status == WaitReq
  {
    s.(status := WaitNext)
  }

  /** as_antic_waitreq, behind its BUG_ON */
  function AnticWaitreq(s: Data): Data
    requires s.status != Finished
  {
    if s.status != Off then s
    else if s.ioc == None || s.iocFinished then AnticWaitnext(s)
    else s.(status := WaitReq)
  }

  /** as_antic_expired */
  predicate AnticExpired(t: Tunables, s: Data) {
    (if s.now < s.anticStart then s.anticStart - s.now else s.now - s.anticStart) >= t.anticExpire
  }

  predicate SameContext(ioc: Option<nat>, iocOf: map<nat, nat>, rq: Option<nat>) {
    rq.Some? && rq.value in iocOf && ioc == Some(iocOf[rq.value])
  }

  function Pow2(n: nat): nat { if n == 0 then 1 else 2 * Pow2(n - 1) }

  predicate Near(last: nat, sector: nat, delta: nat) { last <= sector + delta / 2 && sector <= last + delta }

  /** as_close_req by distance: how far is close grows while the process is awaited. */
  predicate CloseReq(t: Tunables, s: Data, sector: nat) {
    var last := Of(s, s.batch.sync).last;
    if s.status == Off || !s.iocFinished || s.now == s.anticStart then Near(last, sector, 8192)
    else if s.anticStart < s.now && s.now - s.anticStart <= 20 * t.hz / 1000 && s.now - s.anticStart <= t.anticExpire
    then Near(last, sector, 8192 * Pow2(s.now - s.anticStart))
    else true
  }

  predicate CloseCandidate(t: Tunables, s: Data, d: bool, rq: Option<nat>) {
    d && NodeOf(s.sync.tree, rq).Some? && CloseReq(t, s, NodeOf(s.sync.tree, rq).value.sector)
  }

  /** as_can_break_anticipation, behind its BUG_ON, for a request of direction d; `guess`
      is what the counts and statistics of the process say. */
  predicate CanBreak(t: Tunables, s: Data, d: bool, rq: Option<nat>, guess: bool)
    requires s.ioc.Some?
  {
    SameContext(s.ioc, s.iocOf, rq) || (s.iocFinished && AnticExpired(t, s)) || CloseCandidate(t, s, d, rq) || guess
  }

  /** as_can_anticipate, for the next request of the reads */
  predicate CanAnticipate(t: Tunables, s: Data, rq: Option<nat>, guess: bool) {
    s.ioc.Some? && s.status != Finished && !CanBreak(t, s, true, rq, guess)
  }

  // ----- queueing -----

  function FindNext(side: Side, id: nat): Option<nat> {
    var i := TreeIndex(side.tree, id);
    if i < |side.tree| then IdOf(FindNextRq(side.tree, side.last, i)) else None
  }

  /** as_remove_queued_request */
  function Remove(side: Side, id: nat): Side {
    side.(tree := Drop(side.tree, TreeIndex(side.tree, id)), fifo := Drop(side.fifo, FifoIndex(side.fifo, id)),
          next := if side.next == Some(id) then FindNext(side, id) else side.next)
  }

  /** What as_move_to_dispatch remembers of the process it may wait for. */
  function Context(s: Data, d: bool, id: nat): Option<nat> {
    if !d then None else if id in s.iocOf then Some(s.iocOf[id]) else s.ioc
  }

  /** as_move_to_dispatch */
  function Move(s: Data, d: bool, id: nat): Data {
    var side := Of(s, d);
    var i := TreeIndex(side.tree, id);
    var side1 := side.(last := if i < |side.tree| then side.tree[i].sector + side.tree[i].nsect else side.last);
    var side2 := side1.(next := FindNext(side1, id));
    With(s, d, Remove(side2, id)).(
      status := Off, ioc := Context(s, d, id), iocFinished := false,
      batch := if !d && s.batch.writeCount != 0 then s.batch.(writeCount := s.batch.writeCount - 1) else s.batch,
      inDriver := s.inDriver[id := d], nrDispatched := s.nrDispatched + 1, out := s.out + [id])
  }

  function Insert(s: Data, d: bool, n: Node): Data {
    var side := Of(s, d);
    With(s, d, side.(tree := InsertAt(side.tree, Place(side.tree, n.sector), n)))
  }

  /** as_add_rq_rb: a request that starts at the same sector is dispatched first. */
  function AddRb(s: Data, d: bool, n: Node): Data {
    match Alias(Of(s, d).tree, n.sector)
    case Some(a) => Insert(Move(s, d, a), d, n)
    case None => Insert(s, d, n)
  }

  /** as_update_rq */
  function UpdateRq(t: Tunables, s: Data, d: bool, id: nat, guess: bool): Data {
    var side := Of(s, d);
    var s1 := With(s, d, side.(next := IdOf(ChooseReq(side.last, NodeOf(side.tree, Some(id)), NodeOf(side.tree, side.next)))));
    if Waiting(s1) && s1.ioc.Some? && CanBreak(t, s1, d, Some(id), guess) then AnticStop(s1) else s1
  }

  /** as_add_request */
  function Add(t: Tunables, s: Data, d: bool, n: Node, ioc: Option<nat>, guess: bool): Data {
    var s0 := if ioc.Some? then s.(iocOf := s.iocOf[n.id := ioc.value]) else s.(iocOf := s.iocOf - {n.id});
    var s1 := AddRb(s0, d, n);
    var side := Of(s1, d);
    UpdateRq(t, With(s1, d, side.(fifo := side.fifo + [Entry(n.id, s.now + FifoExpire(t, d))])), d, n.id, guess)
  }

  /** as_merged_request after a front merge */
  function FrontMerged(s: Data, d: bool, id: nat, sector: nat, nsect: nat): Data {
    var side := Of(s, d);
    AddRb(With(s, d, side.(tree := Drop(side.tree, TreeIndex(side.tree, id)))), d, Node(id, sector, nsect))
  }

  function BackMerged(s: Data, d: bool, id: nat, nsect: nat): Data {
    var side := Of(s, d);
    var i := TreeIndex(side.tree, id);
    if i < |side.tree| then With(s, d, side.(tree := side.tree[i := side.tree[i].(nsect := nsect)])) else s
  }

  /** as_merged_requests */
  function Merged(s: Data, d: bool, req: nat, next: nat): Data {
    var side := Of(s, d);
    With(s, d, Remove(side.(fifo := Overtaken(side.fifo, req, next)), next)).(iocOf := s.iocOf - {next})
  }

  // ----- completion -----

  /** update_write_batch */
  function WriteMax(t: Tunables, s: Data): (n: nat)
    ensures n > 0
  {
    var time := if s.now + t.asyncBatch < s.batch.expires then 0 else s.now - s.batch.expires + t.asyncBatch;
    var m := s.batch.writeMax;
    var n :=
      if time > t.asyncBatch && !s.batch.idled then (if time > t.asyncBatch * 3 then m / 2 else m - 1)
      else if time < t.asyncBatch && s.batch.writeCount == 0 then (if t.asyncBatch > time * 3 then m * 2 else m + 1)
      else m;
    if n < 1 then 1 else n
  }

  /** The part of as_completed_request that deals with batches. */
  function BatchDone(t: Tunables, s: Data, sync: bool): Batch {
    var b := s.batch;
    var b1 := if b.changed && s.nrDispatched == 1
              then b.(expires := s.now + (if b.sync then t.syncBatch else t.asyncBatch), changed := false, isNew := b.sync || b.isNew)
              else b;
    if b1.isNew && b1.sync == sync then
      b1.(writeMax := WriteMax(t, s.(batch := b1)), expires := s.now + t.syncBatch, isNew := false)
    else b1
  }

  /** as_completed_request */
  function Complete(t: Tunables, s: Data, id: nat): Data
    requires id in s.inDriver
  {
    var s1 := s.(batch := BatchDone(t, s, s.inDriver[id]), nrDispatched := s.nrDispatched - 1,
                 inDriver := s.inDriver - {id}, iocOf := s.iocOf - {id});
    if SameContext(s.ioc, s.iocOf, Some(id)) then
      s1.(anticStart := s.now, iocFinished := true, status := if s.status == WaitReq then WaitNext else s.status)
    else s1
  }

  // ----- dispatch -----

  /** as_fifo_expired: whether the oldest request has expired, checked once in a while. */
  predicate CheckDue(t: Tunables, s: Data, d: bool) {
    var c := Of(s, d).lastCheck;
    (if s.now < c then c - s.now else s.now - c) >= FifoExpire(t, d)
  }

  predicate FifoExpired(t: Tunables, s: Data, d: bool) {
    var f := Of(s, d).fifo;
    CheckDue(t, s, d) && f != [] && s.now > f[0].expiry
  }

  function Checked(t: Tunables, s: Data, d: bool): Data {
    if CheckDue(t, s, d) then With(s, d, Of(s, d).(lastCheck := s.now)) else s
  }

  /** as_batch_expired */
  predicate BatchExpired(s: Data) {
    !s.batch.changed && !s.batch.isNew && (s.now > s.batch.expires || (!s.batch.sync && s.batch.writeCount == 0))
  }

  function Head(s: Data, d: bool): nat
    requires Of(s, d).fifo != []
  {
    Of(s, d).fifo[0].id
  }

  /** From fifo_expired on: a changed batch waits until nothing is in flight. */
  function Run(t: Tunables, s: Data, rq: nat): (Data, bool) {
    var b := s.batch;
    if b.changed && s.nrDispatched != 0 then (s, false)
    else
      var b1 := if !b.changed then b
                else if b.sync then b.(isNew := true, changed := false)
                else b.(expires := s.now + t.asyncBatch, changed := false);
      (Move(s.(batch := b1), b.sync, rq), true)
  }

  /** From dispatch_request on: an expired request goes first. */
  function Service(t: Tunables, s: Data, rq: nat): (Data, bool) {
    Run(t, Checked(t, s, s.batch.sync), if FifoExpired(t, s, s.batch.sync) then Head(s, s.batch.sync) else rq)
  }

  /** A new batch in direction d starts with its oldest request. */
  function Switch(s: Data, d: bool): Data {
    var b := s.batch;
    var b1 := if b.sync == d then b else b.(changed := true, isNew := d && b.isNew, sync := d);
    With(s, d, Of(s, d).(lastCheck := s.now)).(batch := if d then b1 else b1.(writeCount := b.writeMax, idled := false))
  }

  function Select(t: Tunables, s: Data): (Data, bool) {
    var d := s.sync.fifo != [] && !(s.async.fifo != [] && s.batch.sync);
    if Of(s, d).fifo == [] then (s, false) else Service(t, Switch(s, d), Head(s, d))
  }

  /** The batch that runs goes on with its next request, if it has one. */
  function GoOn(t: Tunables, s: Data): (Data, bool) {
    var rq := Of(s, s.batch.sync).next;
    if rq == None then Select(t, s)
    else if s.sync.fifo != [] && s.async.fifo == [] then Service(t, s.(batch := s.batch.(expires := s.now + t.syncBatch)), rq.value)
    else Service(t, s, rq.value)
  }

  /** In a batch of reads an expired one goes first, and a better one may be awaited. */
  function ReadBatch(t: Tunables, s: Data, guess: bool): (Data, bool) {
    var s1 := Checked(t, s, true);
    if FifoExpired(t, s, true) then Run(t, s1, Head(s1, true))
    else if CanAnticipate(t, s1, s1.sync.next, guess) then (AnticWaitreq(s1), false)
    else GoOn(t, s1)
  }

  /** as_dispatch_request without force */
  function Dispatch(t: Tunables, s: Data, guess: bool): (Data, bool) {
    var hasSync, hasAsync := s.sync.fifo != [], s.async.fifo != [];
    var s0 := if !s.batch.sync && !hasSync && (s.batch.writeCount == 0 || !hasAsync) then s.(batch := s.batch.(idled := true)) else s;
    if !(hasSync || hasAsync) || Waiting(s0) || s0.batch.changed then (s0, false)
    else if hasSync && hasAsync && BatchExpired(s0) then Select(t, s0)
    else if s0.batch.sync && t.anticExpire != 0 then ReadBatch(t, s0, guess)
    else GoOn(t, s0)
  }

  /** The loop of a forced dispatch over one direction. */
  function Flush(s: Data, d: bool): Data
    decreases |Of(s, d).tree|
  {
    var side := Of(s, d);
    if side.next.Some? && TreeIndex(side.tree, side.next.value) < |side.tree| then Flush(Move(s, d, side.next.value), d) else s
  }

  /** as_dispatch_request with force */
  function Force(s: Data): Data {
    var s1 := Flush(s.(batch := s.batch.(sync := true, changed := false, isNew := false)), true);
    var s2 := Flush(s1.(sync := s1.sync.(lastCheck := s.now)), false);
    s2.(async := s2.async.(lastCheck := s.now))
  }

  // ----- runs -----

  datatype Step =
    | Arrive(d: bool, n: Node, ioc: Option<nat>, guess: bool)
    | Tick(now: nat)
    | Front(d: bool, id: nat, sector: nat, nsect: nat)
    | Back(d: bool, id: nat, nsect: nat)
    | Absorb(d: bool, req: nat, next: nat)
    | Serve(guess: bool)
    | Drain
    | Done(id: nat)
    | Timeout

  ghost predicate Queued(s: Data, id: nat) { InFifo(s.sync.fifo, id) || InFifo(s.async.fifo, id) }

  ghost predicate Enabled(s: Data, l: Step) {
    match l
    case Arrive(d, n, ioc, guess) => !Queued(s, n.id) && n.id !in s.inDriver
    case Tick(now) => s.now <= now
    case Front(d, id, sector, nsect) => InFifo(Of(s, d).fifo, id)
    case Back(d, id, nsect) => InFifo(Of(s, d).fifo, id)
    case Absorb(d, req, next) => InFifo(Of(s, d).fifo, req) && InFifo(Of(s, d).fifo, next) && req != next
    case Serve(guess) => true
    case Drain => true
    case Done(id) => id in s.inDriver
    case Timeout => true
  }

  function Next(t: Tunables, s: Data, l: Step): Data {
    match l
    case Arrive(d, n, ioc, guess) => Add(t, s, d, n, ioc, guess)
    case Tick(now) => s.(now := now)
    case Front(d, id, sector, nsect) => FrontMerged(s, d, id, sector, nsect)
    case Back(d, id, nsect) => BackMerged(s, d, id, nsect)
    case Absorb(d, req, next) => Merged(s, d, req, next)
    case Serve(guess) => Dispatch(t, s, guess).0
    case Drain => Force(s)
    case Done(id) => if id in s.inDriver then Complete(t, s, id) else s
    case Timeout => AnticStop(s)
  }
}
