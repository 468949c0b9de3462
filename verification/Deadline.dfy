/** The deadline scheduler (block/deadline-iosched.c): per direction a tree of
    requests in sector order and a list of the same requests in order of expiry. */
module Deadline {
  import opened Optional
  import opened SortList

  /** sort_list, fifo_list and next_rq of one direction. */
  datatype Side = Side(tree: seq<Node>, fifo: seq<Entry>, next: Option<nat>)

  /** struct deadline_data; `now` is jiffies, `out` what was moved to the dispatch queue. */
  datatype Data = Data(read: Side, write: Side, batching: nat, starved: nat, last: nat, now: nat, out: seq<nat>)

  const NO_REQUESTS: Side := Side([], [], None)

  /** deadline_init_queue */
  const INITIAL: Data := Data(NO_REQUESTS, NO_REQUESTS, 0, 0, 0, 0, [])

  datatype Tunables = Tunables(readExpire: nat, writeExpire: nat, fifoBatch: nat, writesStarved: nat)

  function Of(s: Data, write: bool): Side { if write then s.write else s.read }

  function With(s: Data, write: bool, side: Side): Data { if write then s.(write := side) else s.(read := side) }

  function Expire(t: Tunables, write: bool): nat { if write then t.writeExpire else t.readExpire }

  // ----- operations -----

  /** deadline_remove_request */
  function Remove(side: Side, id: nat): Side {
    Side(Drop(side.tree, TreeIndex(side.tree, id)), Drop(side.fifo, FifoIndex(side.fifo, id)),
         if side.next == Some(id) then Latter(side.tree, id) else side.next)
  }

  /** deadline_move_request */
  function Move(s: Data, write: bool, id: nat): Data {
    var side := Of(s, write);
    var i := TreeIndex(side.tree, id);
    var end := if i < |side.tree| then side.tree[i].sector + side.tree[i].nsect else s.last;
    var s1 := s.(read := s.read.(next := None), write := s.write.(next := None), last := end, out := s.out + [id]);
    With(s1, write, Remove(side.(next := Latter(side.tree, id)), id))
  }

  /** deadline_add_rq_rb: a request that starts at the same sector is dispatched first. */
  function AddRb(s: Data, write: bool, n: Node): Data
  {
    match Alias(Of(s, write).tree, n.sector)
    case Some(a) => Place1(Move(s, write, a), write, n)
    case None => Place1(s, write, n)
  }

  function Place1(s: Data, write: bool, n: Node): Data {
    var side := Of(s, write);
    With(s, write, side.(tree := InsertAt(side.tree, Place(side.tree, n.sector), n)))
  }

  /** deadline_add_request */
  function Add(t: Tunables, s: Data, write: bool, n: Node): Data {
    var s1 := AddRb(s, write, n);
    var side := Of(s1, write);
    With(s1, write, side.(fifo := side.fifo + [Entry(n.id, s.now + Expire(t, write))]))
  }

  /** deadline_merged_request: the start of a request has moved. */
  function FrontMerged(s: Data, write: bool, id: nat, sector: nat, nsect: nat): Data {
    var side := Of(s, write);
    AddRb(With(s, write, side.(tree := Drop(side.tree, TreeIndex(side.tree, id)))), write, Node(id, sector, nsect))
  }

  /** A back merge changes the length only. */
  function BackMerged(s: Data, write: bool, id: nat, nsect: nat): Data {
    var side := Of(s, write);
    var i := TreeIndex(side.tree, id);
    if i < |side.tree| then With(s, write, side.(tree := side.tree[i := side.tree[i].(nsect := nsect)])) else s
  }

  /** deadline_merged_requests: `next` is absorbed by `req`, which takes over an
      earlier expiry together with its place in the list. */
  function Merged(s: Data, write: bool, req: nat, next: nat): Data {
    var side := Of(s, write);
    With(s, write, Remove(side.(fifo := Overtaken(side.fifo, req, next)), next))
  }

  /** deadline_check_fifo */
  predicate Expired(s: Data, write: bool) {
    var f := Of(s, write).fifo;
    f != [] && f[0].expiry < s.now
  }

  /** The request deadline_dispatch_requests takes when it starts on a direction. */
  function Pick(s: Data, write: bool): Option<nat> {
    var side := Of(s, write);
    if Expired(s, write) || side.next == None then (if side.fifo == [] then None else Some(side.fifo[0].id))
    else side.next
  }

  function Take(s: Data, write: bool, id: Option<nat>): Data {
    if id.Some? then Move(s.(batching := s.batching + 1), write, id.value) else s
  }

  /** deadline_dispatch_requests */
  function Dispatch(t: Tunables, s: Data): (Data, bool) {
    var write := s.write.next.Some?;
    var rq := if write then s.write.next else s.read.next;
    if rq.Some? && s.batching < t.fifoBatch then (Take(s, write, rq), true)
    else if s.read.fifo != [] then
      if s.write.fifo != [] && s.starved >= t.writesStarved then
        (Take(s.(starved := 0, batching := 0), true, Pick(s, true)), true)
      else
        (Take(s.(starved := if s.write.fifo != [] then s.starved + 1 else s.starved, batching := 0), false, Pick(s, false)), true)
    else if s.write.fifo != [] then (Take(s.(starved := 0, batching := 0), true, Pick(s, true)), true)
    else (s, false)
  }

  // ----- the invariant -----

  /** Both views hold the same requests, except that `out`, if any, is not in the tree. */
  ghost predicate SideBut(side: Side, bound: nat, out: Option<nat>) {
    Agree(side.tree, side.fifo, side.next, bound, out)
  }

  /** Each direction is in order, at most one has a next request, `starved` is bounded. */
  ghost predicate InvBut(t: Tunables, s: Data, write: bool, out: Option<nat>) {
    && SideBut(Of(s, write), s.now + Expire(t, write), out) && SideBut(Of(s, !write), s.now + Expire(t, !write), None)
    && (forall id: nat :: InFifo(Of(s, write).fifo, id) ==> !InFifo(Of(s, !write).fifo, id))
    && (s.read.next == None || s.write.next == None) && s.starved <= t.writesStarved
  }

  ghost predicate Inv(t: Tunables, s: Data) { InvBut(t, s, true, None) }

  // ----- runs -----

  /** What the elevator core and the driver can ask of the scheduler. */
  datatype Step =
    | Arrive(write: bool, n: Node)                              // deadline_add_request
    | Tick(now: nat)                                            // jiffies moves on
    | Front(write: bool, id: nat, sector: nat, nsect: nat)      // deadline_merged_request, front merge
    | Back(write: bool, id: nat, nsect: nat)                    // a back merge
    | Absorb(write: bool, req: nat, next: nat)                  // deadline_merged_requests
    | Serve                                                     // deadline_dispatch_requests

  ghost predicate Queued(s: Data, id: nat) { InFifo(s.read.fifo, id) || InFifo(s.write.fifo, id) }

  ghost predicate Enabled(s: Data, l: Step) {
    match l
    case Arrive(write, n) => !Queued(s, n.id)
    case Tick(now) => s.now <= now
    case Front(write, id, sector, nsect) => InFifo(Of(s, write).fifo, id)
    case Back(write, id, nsect) => InFifo(Of(s, write).fifo, id)
    case Absorb(write, req, next) => InFifo(Of(s, write).fifo, req) && InFifo(Of(s, write).fifo, next) && req != next
    case Serve => true
  }

  function Next(t: Tunables, s: Data, l: Step): Data {
    match l
    case Arrive(write, n) => Add(t, s, write, n)
    case Tick(now) => s.(now := now)
    case Front(write, id, sector, nsect) => FrontMerged(s, write, id, sector, nsect)
    case Back(write, id, nsect) => BackMerged(s, write, id, nsect)
    case Absorb(write, req, next) => Merged(s, write, req, next)
    case Serve => Dispatch(t, s).0
  }
}
