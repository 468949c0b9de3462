/** The fair queueing scheduler (block/cfq-iosched.c): a queue of requests for each
    process, and a tree of the queues in the order in which they are served. */
module Cfq {
  import opened IdList
  import opened Optional
  import opened SortList

  const HZ: int := 100
  const CFQ_IDLE_DELAY: int := HZ / 5

  datatype Class = RealTime | BestEffort | Idle

  /** struct cfq_queue. `key` places it in the service tree, `onRr` is its flag, `queued`
      counts its requests that are asynchronous and synchronous, `meta` those for metadata. */
  datatype Queue = Queue(
    tree: seq<Node>, fifo: seq<Entry>, next: Option<nat>,
    onRr: bool, key: int, cls: Class, queuedAsync: int, queuedSync: int, meta: int, dispatched: nat)

  /** struct cfq_data: the service tree in order with its cached first node `left`. `syncs`
      and `metas` are the flags of the requests, `last` is last_position, `now` jiffies. */
  datatype Data = Data(
    queues: map<nat, Queue>, service: seq<nat>, left: Option<nat>, busy: int, active: Option<nat>,
    syncs: set<nat>, metas: set<nat>, last: nat, now: nat, out: seq<nat>)

  datatype Tunables = Tunables(backMax: nat, backPenalty: nat, expireAsync: nat, expireSync: nat)

  function NewQueue(cls: Class): Queue { Queue([], [], None, false, 0, cls, 0, 0, 0, 0) }

  function With(s: Data, q: nat, c: Queue): Data { s.(queues := s.queues[q := c]) }

  // ----- the choice of a request -----

  predicate Wraps(t: Tunables, last: nat, s: nat) { s + t.backMax * 2 < last }

  function Distance(t: Tunables, last: nat, s: nat): nat {
    if s >= last then s - last else (last - s) * t.backPenalty
  }

  /** The part of cfq_choose_req that compares sectors: the first is taken. */
  predicate Nearer(t: Tunables, last: nat, s1: nat, s2: nat) {
    if !Wraps(t, last, s1) && !Wraps(t, last, s2) then
      Distance(t, last, s1) < Distance(t, last, s2) || (Distance(t, last, s1) == Distance(t, last, s2) && s1 >= s2)
    else if !Wraps(t, last, s1) then true
    else if !Wraps(t, last, s2) then false
    else s1 <= s2
  }

  /** cfq_choose_req */
  function ChooseReq(t: Tunables, s: Data, rq1: Option<Node>, rq2: Option<Node>): Option<Node> {
    if rq1 == None || rq1 == rq2 then rq2
    else if rq2 == None then rq1
    else if (rq1.value.id in s.syncs) != (rq2.value.id in s.syncs) then (if rq1.value.id in s.syncs then rq1 else rq2)
    else if (rq1.value.id in s.metas) != (rq2.value.id in s.metas) then (if rq1.value.id in s.metas then rq1 else rq2)
    else if Nearer(t, s.last, rq1.value.sector, rq2.value.sector) then rq1
    else rq2
  }

  function IdOf(n: Option<Node>): Option<nat> { if n.Some? then Some(n.value.id) else None }

  function NodeOf(tree: seq<Node>, id: Option<nat>): Option<Node> {
    if id.Some? && TreeIndex(tree, id.value) < |tree| then Some(tree[TreeIndex(tree, id.value)]) else None
  }

  /** cfq_find_next_rq: the better of the neighbours, the first request standing for a
      missing successor. */
  function FindNext(t: Tunables, s: Data, tree: seq<Node>, id: nat): Option<nat> {
    var i := TreeIndex(tree, id);
    if i == |tree| then None
    else
      var prev := if i > 0 then Some(tree[i - 1]) else None;
      var next := if i + 1 < |tree| then Some(tree[i + 1]) else if i > 0 then Some(tree[0]) else None;
      IdOf(ChooseReq(t, s, next, prev))
  }

  // ----- the service tree -----

  function Rank(c: Class): nat { match c case RealTime => 0 case BestEffort => 1 case Idle => 2 }

  /** A queue of class c and key k is served before queue p. */
  predicate Precedes(c: Class, k: int, p: Queue) { Rank(c) < Rank(p.cls) || (c == p.cls && k < p.key) }

  /** Where the descent of cfq_service_tree_add ends: behind all that do not come later. */
  function ServicePlace(queues: map<nat, Queue>, service: seq<nat>, c: Class, k: int): (i: nat)
    ensures i <= |service|
  {
    if service == [] || service[0] !in queues || Precedes(c, k, queues[service[0]]) then 0
    else 1 + ServicePlace(queues, service[1..], c, k)
  }

  /** cfq_rb_first: the cached first node is looked up again when it is missing. */
  function First(s: Data): (Data, Option<nat>) {
    if s.left.Some? then (s, s.left)
    else if s.service == [] then (s, None)
    else (s.(left := Some(s.service[0])), Some(s.service[0]))
  }

  /** cfq_rb_erase */
  function Erase(s: Data, q: nat): Data {
    s.(left := if s.left == Some(q) then None else s.left, service := Without(s.service, q))
  }

  function KeyOf(s: Data, q: nat): int { if q in s.queues then s.queues[q].key else 0 }

  /** The key a queue gets: `offset` is cfq_slice_offset less the residue of its slice. */
  function ServiceKey(s: Data, q: nat, front: bool, offset: int): int
    requires q in s.queues
  {
    var n := |s.service|;
    if s.queues[q].cls == Idle then
      (if n > 0 && s.service[n - 1] != q then KeyOf(s, s.service[n - 1]) else s.now) + CFQ_IDLE_DELAY
    else if !front then offset + s.now
    else (if n > 0 then KeyOf(s, s.service[0]) else s.now) - HZ
  }

  function Enter(s: Data, q: nat, key: int): Data
    requires q in s.queues
  {
    var i := ServicePlace(s.queues, s.service, s.queues[q].cls, key);
    s.(left := if i == 0 then Some(q) else s.left,
       service := InsertAt(s.service, i, q),
       queues := s.queues[q := s.queues[q].(key := key)])
  }

  /** cfq_service_tree_add */
  function ServiceAdd(s: Data, q: nat, front: bool, offset: int): Data
    requires q in s.queues
  {
    var key := ServiceKey(s, q, front, offset);
    var s1 := if front && s.queues[q].cls != Idle then First(s).0 else s;
    if q in s1.service then
      (if key == s1.queues[q].key then s1 else Enter(Erase(s1, q), q, key))
    else Enter(s1, q, key)
  }

  /** cfq_resort_rr_list */
  function Resort(s: Data, q: nat, offset: int): Data
    requires q in s.queues
  {
    if s.queues[q].onRr then ServiceAdd(s, q, false, offset) else s
  }

  /** cfq_add_cfqq_rr */
  function AddRr(s: Data, q: nat, offset: int): Data
    requires q in s.queues
  {
    Resort(With(s, q, s.queues[q].(onRr := true)).(busy := s.busy + 1), q, offset)
  }

  /** cfq_del_cfqq_rr */
  function DelRr(s: Data, q: nat): Data
    requires q in s.queues
  {
    var s1 := With(s, q, s.queues[q].(onRr := false));
    (if q in s1.service then Erase(s1, q) else s1).(busy := s.busy - 1)
  }

  // ----- requests -----

  /** A request is counted, or no longer counted, in its queue. */
  function Counted(s: Data, c: Queue, id: nat, change: int): Queue {
    if id in s.syncs then c.(queuedSync := c.queuedSync + change) else c.(queuedAsync := c.queuedAsync + change)
  }

  /** cfq_del_rq_rb */
  function DelRb(s: Data, q: nat, id: nat): Data
    requires q in s.queues
  {
    var c := Counted(s, s.queues[q], id, -1);
    var c1 := c.(tree := Drop(c.tree, TreeIndex(c.tree, id)));
    var s1 := With(s, q, c1);
    if c1.onRr && c1.tree == [] then DelRr(s1, q) else s1
  }

  /** cfq_remove_request */
  function Remove(t: Tunables, s: Data, q: nat, id: nat): Data
    requires q in s.queues
  {
    var c := s.queues[q];
    var c1 := c.(next := if c.next == Some(id) then FindNext(t, s, c.tree, id) else c.next,
                 fifo := Drop(c.fifo, FifoIndex(c.fifo, id)),
                 meta := if id in s.metas then c.meta - 1 else c.meta);
    DelRb(With(s, q, c1), q, id)
  }

  /** cfq_dispatch_insert */
  function Move(t: Tunables, s: Data, q: nat, id: nat): Data
    requires q in s.queues
  {
    var c := s.queues[q];
    Remove(t, With(s, q, c.(next := FindNext(t, s, c.tree, id), dispatched := c.dispatched + 1)), q, id).(out := s.out + [id])
  }

  /** The request enters the tree and is counted. */
  function Insert(s: Data, q: nat, n: Node): Data
    requires q in s.queues
  {
    var c := Counted(s, s.queues[q], n.id, 1);
    With(s, q, c.(tree := InsertAt(c.tree, Place(c.tree, n.sector), n)))
  }

  /** The part of cfq_add_rq_rb after the request is in the tree. */
  function Offer(t: Tunables, s: Data, q: nat, n: Node, offset: int): Data
    requires q in s.queues
  {
    var s1 := if s.queues[q].onRr then s else AddRr(s, q, offset);
    if q in s1.queues then
      var c := s1.queues[q];
      With(s1, q, c.(next := IdOf(ChooseReq(t, s1, NodeOf(c.tree, c.next), Some(n)))))
    else s1
  }

  /** A request that starts at the sector is dispatched. */
  function Cleared(t: Tunables, s: Data, q: nat, sector: nat): Data
    requires q in s.queues
  {
    var a := Alias(s.queues[q].tree, sector);
    if a.Some? then Move(t, s, q, a.value) else s
  }

  /** cfq_add_rq_rb: a request that starts at the same sector is dispatched first. */
  function AddRb(t: Tunables, s: Data, q: nat, n: Node, offset: int): Data
    requires q in s.queues
  {
    var s1 := Cleared(t, s, q, n.sector);
    if q in s1.queues then Offer(t, Insert(s1, q, n), q, n, offset) else s1
  }

  /** cfq_insert_request up to cfq_rq_enqueued's choice whether to preempt */
  function Add(t: Tunables, s: Data, q: nat, n: Node, sync: bool, meta: bool, offset: int): Data
    requires q in s.queues
  {
    var s0 := s.(syncs := if sync then s.syncs + {n.id} else s.syncs - {n.id},
                 metas := if meta then s.metas + {n.id} else s.metas - {n.id});
    var s1 := AddRb(t, s0, q, n, offset);
    if q in s1.queues then
      var c := s1.queues[q];
      With(s1, q, c.(fifo := c.fifo + [Entry(n.id, s.now + if sync then t.expireSync else t.expireAsync)],
                     meta := if meta then c.meta + 1 else c.meta))
    else s1
  }

  /** cfq_reposition_rq_rb, after a front merge */
  function FrontMerged(t: Tunables, s: Data, q: nat, id: nat, sector: nat, nsect: nat, offset: int): Data
    requires q in s.queues
  {
    var c := Counted(s, s.queues[q], id, -1);
    AddRb(t, With(s, q, c.(tree := Drop(c.tree, TreeIndex(c.tree, id)))), q, Node(id, sector, nsect), offset)
  }

  function BackMerged(s: Data, q: nat, id: nat, nsect: nat): Data
    requires q in s.queues
  {
    var c := s.queues[q];
    var i := TreeIndex(c.tree, id);
    if i < |c.tree| then With(s, q, c.(tree := c.tree[i := c.tree[i].(nsect := nsect)])) else s
  }

  /** cfq_merged_requests */
  function Merged(t: Tunables, s: Data, q: nat, req: nat, next: nat): Data
    requires q in s.queues
  {
    var c := s.queues[q];
    Remove(t, With(s, q, c.(fifo := Overtaken(c.fifo, req, next))), q, next)
  }

  // ----- slices -----

  /** cfq_slice_expired */
  function Expired(s: Data, offset: int): Data {
    if s.active == None then s
    else if s.active.value in s.queues then Resort(s, s.active.value, offset).(active := None)
    else s.(active := None)
  }

  /** cfq_set_active_queue, for a given queue or for the first of the service tree */
  function SetActive(s: Data, q: Option<nat>): Data {
    if q.Some? then s.(active := q)
    else if s.service == [] then s.(active := None)
    else First(s).0.(active := First(s).1)
  }

  /** cfq_preempt_queue, behind its BUG_ON */
  function Preempt(s: Data, q: nat, offset: int): Data
    requires q in s.queues
  {
    var s1 := Expired(s, offset);
    if q in s1.queues then ServiceAdd(s1, q, true, 0) else s1
  }

  /** What the slices, the timer, the statistics and the depth limits say during one call:
      the slice of the active queue is used up; a queue close by; idling goes on; a dispatch
      is allowed; the oldest request has expired; the slice is over after the dispatch. */
  datatype Choice = Choice(used: bool, close: Option<nat>, idle: bool, may: bool, oldest: bool, over: bool, offset: int)

  /** cfq_select_queue */
  function Select(s: Data, c: Choice): (Data, Option<nat>) {
    if s.active.Some? && !c.used && s.active.value in s.queues && s.queues[s.active.value].tree != [] then (s, s.active)
    else if s.active.Some? && !c.used && c.close == None && c.idle then (s, None)
    else
      var close := if s.active.Some? && !c.used then c.close else None;
      var s1 := SetActive(Expired(s, c.offset), close);
      (s1, s1.active)
  }

  /** cfq_dispatch_request */
  function Serve(t: Tunables, s: Data, q: nat, c: Choice): (Data, bool)
    requires q in s.queues
  {
    var u := s.queues[q];
    var rq := if c.oldest && u.fifo != [] then Some(u.fifo[0].id) else u.next;
    if !c.may || rq == None then (s, false) else (Move(t, s, q, rq.value), true)
  }

  /** cfq_dispatch_requests without force */
  function Dispatch(t: Tunables, s: Data, c: Choice): (Data, bool) {
    if s.busy == 0 then (s, false)
    else
      var (s1, q) := Select(s, c);
      if q == None || q.value !in s1.queues then (s1, false)
      else
        var (s2, moved) := Serve(t, s1, q.value, c);
        if !moved then (s2, false)
        else if s2.busy > 1 && c.over then (Expired(s2, c.offset), true)
        else (s2, true)
  }

  /** __cfq_forced_dispatch_cfqq */
  function FlushQueue(t: Tunables, s: Data, q: nat): Data
    requires q in s.queues
    decreases |s.queues[q].tree|
  {
    var c := s.queues[q];
    if c.next == None then s
    else
      var s1 := Move(t, s, q, c.next.value);
      if q in s1.queues && |s1.queues[q].tree| < |c.tree| then FlushQueue(t, s1, q) else s1
  }

  /** The loop of cfq_forced_dispatch */
  function FlushAll(t: Tunables, s: Data): Data
    decreases |s.service|
  {
    var (s1, q) := First(s);
    if q == None || q.value !in s1.queues then s1
    else
      var s2 := FlushQueue(t, s1, q.value);
      if |s2.service| < |s.service| then FlushAll(t, s2) else s2
  }

  /** cfq_dispatch_requests with force */
  function Force(t: Tunables, s: Data): Data {
    if s.busy == 0 then s else Expired(FlushAll(t, s), 0)
  }
}
