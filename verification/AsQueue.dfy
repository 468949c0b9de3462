/** struct as_data as the anticipatory scheduler updates it in place. */
module AsQueue {
  import opened Optional
  import opened SortList
  import opened AsChoice
  import opened AsIosched
  import opened AsInvariant

  class Scheduler {
    const t: Tunables
    var dir: map<bool, Side>           // sort_list, fifo_list, next_rq, last_sector, last_check_fifo (true for BLK_RW_SYNC)
    var batch: Batch                   // batch_data_dir, changed_batch, new_batch and the counts of a batch
    var status: Status                 // antic_status
    var ioc: Option<nat>               // io_context
    var iocFinished: bool
    var anticStart: nat
    var iocOf: map<nat, nat>           // elevator_private of each request
    var inDriver: map<nat, bool>
    var nrDispatched: int
    var jiffies: nat
    var dispatched: seq<nat>

    predicate Shape()
      reads this
    {
      true in dir && false in dir
    }

    ghost function State(): Data
      requires Shape()
      reads this
    {
      Data(dir[true], dir[false], batch, status, ioc, iocFinished, anticStart, iocOf, inDriver, nrDispatched, jiffies, dispatched)
    }

    ghost predicate Valid()
      reads this
    {
      Shape() && Inv(t, State())
    }

    /** as_init_queue */
    constructor (t: Tunables, now: nat)
      ensures Shape() && this.t == t && State() == Init(t, now)
    {
      this.t := t;
      dir := map[false := Side([], [], None, 0, 0), true := Side([], [], None, 0, 0)];
      batch := Batch(false, false, false, now + t.syncBatch, 0, if t.asyncBatch / 10 < 2 then 2 else t.asyncBatch / 10, false);
      status, ioc, iocFinished, anticStart, iocOf, inDriver, nrDispatched := Off, None, false, 0, map[], map[], 0;
      jiffies, dispatched := now, [];
    }

    /** as_antic_waitnext: the precondition is its BUG_ON. */
    method AnticWaitNext()
      requires Shape() && (status == Off || status == WaitReq)
      modifies this`status
      ensures Shape() && State() == AnticWaitnext(old(State())) && status == WaitNext
    {
      status := WaitNext;
    }

    /** as_antic_waitreq: the precondition is its BUG_ON. */
    method AnticWaitReq()
      requires Shape() && status != Finished
      modifies this`status
      ensures Shape() && State() == AnticWaitreq(old(State()))
    {
      if status == Off {
        if ioc == None || iocFinished {
          AnticWaitNext();
        } else {
          status := WaitReq;
        }
      }
    }

    /** as_antic_stop, and as_antic_timeout as far as the status goes */
    method Stop()
      modifies this`status
      ensures status == if old(status) == WaitReq || old(status) == WaitNext then Finished else old(status)
    {
      if status == WaitReq || status == WaitNext {
        status := Finished;
      }
    }

    /** as_remove_queued_request */
    method RemoveQueued(d: bool, id: nat)
      requires Shape()
      modifies this`dir
      ensures Shape() && dir[d] == Remove(old(dir)[d], id) && dir[!d] == old(dir)[!d]
    {
      hide FindNext, Drop, TreeIndex, FifoIndex;
      var side := dir[d];
      if side.next == Some(id) {
        side := side.(next := FindNext(side, id));
      }
      side := side.(fifo := Drop(side.fifo, FifoIndex(side.fifo, id)));
      side := side.(tree := Drop(side.tree, TreeIndex(side.tree, id)));
      dir := dir[d := side];
    }

    /** The part of as_move_to_dispatch that remembers the process of a read and counts a write. */
    method KeepContext(d: bool, id: nat)
      modifies this`ioc, this`iocFinished, this`batch
      ensures !iocFinished && ioc == if !d then None else if id in iocOf then Some(iocOf[id]) else old(ioc)
      ensures batch == if !d && old(batch.writeCount) != 0 then old(batch).(writeCount := old(batch.writeCount) - 1) else old(batch)
    {
      if d {
        if id in iocOf { ioc := Some(iocOf[id]); }
      } else {
        ioc := None;
        if batch.writeCount != 0 { batch := batch.(writeCount := batch.writeCount - 1); }
      }
      iocFinished := false;
    }

    /** as_move_to_dispatch behind the end of a wait, field by field, for a request that is
        in its tree. */
    method LeaveQueue(d: bool, id: nat)
      requires Shape() && TreeIndex(dir[d].tree, id) < |dir[d].tree|
      modifies this`dir, this`ioc, this`iocFinished, this`batch, this`dispatched, this`inDriver, this`nrDispatched
      ensures Shape() && dir[d] == MovedSide(old(dir)[d], id) && dir[!d] == old(dir)[!d]
      ensures !iocFinished && ioc == if !d then None else if id in iocOf then Some(iocOf[id]) else old(ioc)
      ensures batch == if !d && old(batch.writeCount) != 0 then old(batch).(writeCount := old(batch.writeCount) - 1) else old(batch)
      ensures dispatched == old(dispatched) + [id] && inDriver == old(inDriver)[id := d] && nrDispatched == old(nrDispatched) + 1
    {
      hide FindNext, TreeIndex, Remove, MovedSide;
      var side := dir[d];
      MovedSideIs(side, id);
      var rq := side.tree[TreeIndex(side.tree, id)];
      side := side.(last := rq.sector + rq.nsect);
      KeepContext(d, id);
      side := side.(next := FindNext(side, id));
      dir := dir[d := side];
      RemoveQueued(d, id);
      dispatched := dispatched + [id];
      inDriver := inDriver[id := d];
      nrDispatched := nrDispatched + 1;
    }

    /** as_move_to_dispatch */
    method MoveToDispatch(d: bool, id: nat)
      requires Shape() && InTree(dir[d].tree, id)
      modifies this
      ensures Shape() && State() == Move(old(State()), d, id)
    {
      hide TreeIndex, InTree, MovedSide, Move;
      ghost var s := State();
      FoundInTree(dir[d].tree, id);
      Stop();
      status := Off;
      LeaveQueue(d, id);
      MoveIs(s, State(), d, id);
    }

    /** A state is the one after as_move_to_dispatch if its fields are. */
    lemma MoveIs(s: Data, s': Data, d: bool, id: nat)
      requires Of(s', d) == MovedSide(Of(s, d), id) && Of(s', !d) == Of(s, !d)
      requires s'.status == Off && !s'.iocFinished
      requires s'.ioc == if !d then None else if id in s.iocOf then Some(s.iocOf[id]) else s.ioc
      requires s'.batch == if !d && s.batch.writeCount != 0 then s.batch.(writeCount := s.batch.writeCount - 1) else s.batch
      requires s'.anticStart == s.anticStart && s'.iocOf == s.iocOf && s'.now == s.now && s'.inDriver == s.inDriver[id := d]
      requires s'.nrDispatched == s.nrDispatched + 1 && s'.out == s.out + [id]
      ensures s' == Move(s, d, id)
    {
      hide FindNext, TreeIndex, Remove;
    }

    /** as_add_rq_rb: while another request starts at the same sector, it is dispatched. */
    method AddRqRb(d: bool, n: Node)
      requires Shape() && SortedTree(dir[d].tree) && TreeIds(dir[d].tree)
      modifies this
      ensures Shape() && State() == AddRb(old(State()), d, n)
    {
      hide Place, FindNext, TreeIndex, InTree, Move, MovedSide;
      ghost var s0 := State();
      var alias := Alias(dir[d].tree, n.sector);
      while alias.Some?
        invariant Shape() && alias == Alias(dir[d].tree, n.sector)
        invariant State() == s0 || (Alias(Of(s0, d).tree, n.sector).Some? && alias == None
          && State() == Move(s0, d, Alias(Of(s0, d).tree, n.sector).value))
        decreases alias.Some?
      {
        MovedAlias(dir[d], n, alias.value);
        MoveShape(s0, d, alias.value);
        MoveToDispatch(d, alias.value);
        Stop();
        alias := Alias(dir[d].tree, n.sector);
      }
      dir := dir[d := dir[d].(tree := InsertAt(dir[d].tree, Place(dir[d].tree, n.sector), n))];
    }

    /** as_close_req, by distance */
    method CloseRequest(sector: nat) returns (close: bool)
      requires Shape()
      ensures close == CloseReq(t, State(), sector)
    {
      var last := dir[batch.sync].last;
      var delay: int := if status == Off || !iocFinished then 0 else jiffies - anticStart;
      var delta: nat;
      if delay == 0 {
        delta := 8192;
      } else if 0 < delay <= 20 * t.hz / 1000 && delay <= t.anticExpire {
        delta := 8192 * Pow2(delay);
      } else {
        return true;
      }
      close := last <= sector + delta / 2 && sector <= last + delta;
    }

    /** as_can_break_anticipation: the precondition is its BUG_ON. */
    method CanBreakAnticipation(d: bool, rq: Option<nat>, guess: bool) returns (yes: bool)
      requires Shape() && ioc.Some?
      ensures yes == CanBreak(t, State(), d, rq, guess)
    {
      if rq.Some? && rq.value in iocOf && ioc == Some(iocOf[rq.value]) { return true; }
      if iocFinished {
        var delta: int := jiffies - anticStart;
        if delta < 0 { delta := -delta; }
        if delta >= t.anticExpire { return true; }
      }
      var node := NodeOf(dir[true].tree, rq);
      if d && node.Some? {
        var close := CloseRequest(node.value.sector);
        if close { return true; }
      }
      yes := guess;
    }

    /** as_update_rq */
    method UpdateReq(d: bool, id: nat, guess: bool)
      requires Valid()
      modifies this`dir, this`status
      ensures Shape() && State() == UpdateRq(t, old(State()), d, id, guess)
    {
      hide SideOk, Apart, ChooseReq, NodeOf;
      var side := dir[d];
      dir := dir[d := side.(next := IdOf(ChooseReq(side.last, NodeOf(side.tree, Some(id)), NodeOf(side.tree, side.next))))];
      if status == WaitReq || status == WaitNext {
        var yes := CanBreakAnticipation(d, Some(id), guess);
        if yes { Stop(); }
      }
    }

    /** as_add_request */
    method AddRequest(d: bool, n: Node, ctx: Option<nat>, guess: bool)
      requires Valid() && Enabled(State(), Arrive(d, n, ctx, guess))
      modifies this
      ensures Valid() && State() == Next(t, old(State()), Arrive(d, n, ctx, guess))
    {
      hide AddRb, Inv, UpdateRq;
      ghost var s0 := State();
      ArriveOk(t, s0, d, n, ctx, guess);
      ArriveMiddle(t, s0, d, n, ctx);
      iocOf := if ctx.Some? then iocOf[n.id := ctx.value] else iocOf - {n.id};
      SidesSorted(t, s0, d);
      AddRqRb(d, n);
      dir := dir[d := dir[d].(fifo := dir[d].fifo + [Entry(n.id, jiffies + FifoExpire(t, d))])];
      UpdateReq(d, n.id, guess);
    }

    /** as_merged_request after a front merge */
    method MergedRequest(d: bool, id: nat, sector: nat, nsect: nat)
      requires Valid() && InFifo(dir[d].fifo, id)
      modifies this
      ensures Valid() && State() == Next(t, old(State()), Front(d, id, sector, nsect))
    {
      hide AddRb, SideOk, Apart, Drop;
      FrontOk(t, State(), d, id, sector, nsect);
      SidesSorted(t, State(), d);
      ListedInTree(t, State(), d, id);
      TreeDrop(dir[d].tree, id);
      dir := dir[d := dir[d].(tree := Drop(dir[d].tree, TreeIndex(dir[d].tree, id)))];
      AddRqRb(d, Node(id, sector, nsect));
    }

    /** as_merged_requests */
    method MergedRequests(d: bool, req: nat, nxt: nat)
      requires Valid() && Enabled(State(), Absorb(d, req, nxt))
      modifies this`dir, this`iocOf
      ensures Valid() && State() == Next(t, old(State()), Absorb(d, req, nxt))
    {
      hide Inv, InFifo, Remove, Overtaken;
      AbsorbOk(t, State(), d, req, nxt);
      TakeOver(d, req, nxt);
      RemoveQueued(d, nxt);
      iocOf := iocOf - {nxt};
    }

    /** The earlier expiry of the request that is absorbed, and its place in the list. */
    method TakeOver(d: bool, req: nat, nxt: nat)
      requires Shape()
      modifies this`dir
      ensures Shape() && dir[d] == old(dir)[d].(fifo := Overtaken(old(dir)[d].fifo, req, nxt)) && dir[!d] == old(dir)[!d]
    {
      hide Drop, InsertAt, FifoIndex;
      var f := dir[d].fifo;
      var i, j := FifoIndex(f, req), FifoIndex(f, nxt);
      if i < |f| && j < |f| {
        var e := f[j].expiry;
        if e < f[i].expiry {
          var g := Drop(f, i);
          var k := FifoIndex(g, nxt);
          if k < |g| { f := InsertAt(g, k + 1, Entry(req, e)); }
        }
      }
      dir := dir[d := dir[d].(fifo := f)];
    }

    /** update_write_batch */
    method UpdateWriteBatch()
      requires Shape()
      modifies this`batch
      ensures Shape() && batch == old(batch).(writeMax := WriteMax(t, old(State())))
    {
      var time: int := jiffies - batch.expires + t.asyncBatch;
      if time < 0 { time := 0; }
      var n: int := batch.writeMax;
      if time > t.asyncBatch && !batch.idled {
        if time > t.asyncBatch * 3 {
          n := n / 2;
        } else {
          n := n - 1;
        }
      } else if time < t.asyncBatch && batch.writeCount == 0 {
        if t.asyncBatch > time * 3 {
          n := n * 2;
        } else {
          n := n + 1;
        }
      }
      if n < 1 { n := 1; }
      batch := batch.(writeMax := n);
    }

    /** as_completed_request */
    method CompletedRequest(id: nat)
      requires Valid() && id in inDriver
      modifies this`batch, this`nrDispatched, this`anticStart, this`iocFinished, this`status, this`inDriver, this`iocOf
      ensures Valid() && State() == Next(t, old(State()), Done(id))
    {
      hide Inv, BatchDone;
      DoneOk(t, State(), id);
      CompleteBatch(inDriver[id]);
      nrDispatched := nrDispatched - 1;
      EndContext(id);
      inDriver := inDriver - {id};
      iocOf := iocOf - {id};
    }

    /** The part of as_completed_request that deals with the process. */
    method EndContext(id: nat)
      requires Shape()
      modifies this`anticStart, this`iocFinished, this`status
      ensures var same := id in iocOf && ioc == Some(iocOf[id]);
        && anticStart == (if same then jiffies else old(anticStart)) && iocFinished == (same || old(iocFinished))
        && status == if same && old(status) == WaitReq then WaitNext else old(status)
    {
      if id in iocOf && ioc == Some(iocOf[id]) {
        anticStart := jiffies;
        iocFinished := true;
        if status == WaitReq { AnticWaitNext(); }
      }
    }

    /** The part of as_completed_request that deals with batches. */
    method CompleteBatch(sync: bool)
      requires Shape()
      modifies this`batch
      ensures Shape() && batch == BatchDone(t, old(State()), sync)
    {
      if batch.changed && nrDispatched == 1 {
        batch := batch.(expires := jiffies + (if batch.sync then t.syncBatch else t.asyncBatch), changed := false);
        if batch.sync { batch := batch.(isNew := true); }
      }
      if batch.isNew && batch.sync == sync {
        UpdateWriteBatch();
        batch := batch.(expires := jiffies + t.syncBatch, isNew := false);
      }
    }

    /** as_fifo_expired */
    method CheckFifo(d: bool) returns (expired: bool)
      requires Shape()
      modifies this`dir
      ensures Shape() && State() == Checked(t, old(State()), d) && expired == FifoExpired(t, old(State()), d)
    {
      var delta: int := jiffies - dir[d].lastCheck;
      if delta < 0 { delta := -delta; }
      if delta < FifoExpire(t, d) { return false; }
      dir := dir[d := dir[d].(lastCheck := jiffies)];
      if dir[d].fifo == [] { return false; }
      expired := jiffies > dir[d].fifo[0].expiry;
    }

    /** as_dispatch_request from fifo_expired on */
    method RunRequest(rq: nat) returns (moved: bool)
      requires Shape() && InTree(dir[batch.sync].tree, rq)
      modifies this
      ensures Shape() && (State(), moved) == Run(t, old(State()), rq)
    {
      hide Move, InTree;
      if batch.changed {
        if nrDispatched != 0 { return false; }
        if !batch.sync {
          batch := batch.(expires := jiffies + t.asyncBatch);
        } else {
          batch := batch.(isNew := true);
        }
        batch := batch.(changed := false);
      }
      MoveToDispatch(batch.sync, rq);
      moved := true;
    }

    /** as_dispatch_request from dispatch_request on */
    method ServiceRequest(rq: nat) returns (moved: bool)
      requires Shape() && Choosing(t, State()) && InTree(dir[batch.sync].tree, rq)
      modifies this
      ensures Shape() && (State(), moved) == Service(t, old(State()), rq)
    {
      hide Run, InTree, SideOk, Apart, FifoExpired, Checked;
      ghost var s := State();
      ServiceChoice(t, s, rq);
      var expired := CheckFifo(batch.sync);
      var id := rq;
      if expired { id := dir[batch.sync].fifo[0].id; }
      moved := RunRequest(id);
    }

    /** as_dispatch_request where no batch runs: the direction is chosen. */
    method SelectRequest() returns (moved: bool)
      requires Valid() && !Waiting(State()) && (dir[true].fifo != [] || dir[false].fifo != [])
      modifies this
      ensures Shape() && (State(), moved) == Select(t, old(State()))
    {
      hide Service, InTree, SideOk, Apart;
      ghost var s := State();
      var d := dir[true].fifo != [];
      if d && dir[false].fifo != [] && batch.sync { d := false; }
      SwitchChoice(t, s, d);
      if d {
        if !batch.sync { batch := batch.(changed := true); }
        batch := batch.(sync := true);
      } else {
        if batch.sync { batch := batch.(changed := true, isNew := false); }
        batch := batch.(sync := false, writeCount := batch.writeMax, idled := false);
      }
      dir := dir[d := dir[d].(lastCheck := jiffies)];
      moved := ServiceRequest(dir[d].fifo[0].id);
    }

    /** as_can_anticipate */
    method CanWait(rq: Option<nat>, guess: bool) returns (yes: bool)
      requires Shape()
      ensures yes == CanAnticipate(t, State(), rq, guess)
    {
      if ioc == None || status == Finished { return false; }
      var no := CanBreakAnticipation(true, rq, guess);
      yes := !no;
    }

    /** as_dispatch_request where a batch runs: it goes on if its direction has a next request. */
    method GoOnRequest() returns (moved: bool)
      requires Valid() && !Waiting(State()) && (dir[true].fifo != [] || dir[false].fifo != [])
      modifies this
      ensures Shape() && (State(), moved) == GoOn(t, old(State()))
    {
      hide Inv, Select, Service, Choosing, InTree;
      var rq := dir[batch.sync].next;
      if rq.Some? {
        NextChoice(t, State());
        if dir[true].fifo != [] && dir[false].fifo == [] { batch := batch.(expires := jiffies + t.syncBatch); }
        moved := ServiceRequest(rq.value);
        return;
      }
      moved := SelectRequest();
    }

    /** as_dispatch_request in a batch of reads */
    method ReadRequest(guess: bool) returns (moved: bool)
      requires Valid() && !Waiting(State()) && (dir[true].fifo != [] || dir[false].fifo != [])
      requires batch.sync && !batch.changed
      modifies this
      ensures Shape() && (State(), moved) == ReadBatch(t, old(State()), guess)
    {
      hide Inv, Run, GoOn, InTree, Checked, FifoExpired, CanBreak;
      ReadChoice(t, State());
      var expired := CheckFifo(true);
      if expired {
        moved := RunRequest(dir[true].fifo[0].id);
        return;
      }
      var wait := CanWait(dir[true].next, guess);
      if wait {
        AnticWaitReq();
        return false;
      }
      moved := GoOnRequest();
    }

    /** as_dispatch_request without force */
    method DispatchRequest(guess: bool) returns (moved: bool)
      requires Valid()
      modifies this
      ensures Valid() && (State(), moved) == Dispatch(t, old(State()), guess) && Outcome(old(State()), (State(), moved))
    {
      hide Inv, Outcome, Select, GoOn, ReadBatch;
      ghost var s := State();
      ServeOk(t, s, guess);
      var hasSync, hasAsync := dir[true].fifo != [], dir[false].fifo != [];
      if !batch.sync && !hasSync && (batch.writeCount == 0 || !hasAsync) {
        batch := batch.(idled := true);
      }
      IdledOk(t, s, batch);
      if !(hasSync || hasAsync) || status == WaitReq || status == WaitNext || batch.changed { return false; }
      // as_batch_expired
      var over := !batch.changed && !batch.isNew && (jiffies > batch.expires || (!batch.sync && batch.writeCount == 0));
      if hasSync && hasAsync && over {
        moved := SelectRequest();
      } else if batch.sync && t.anticExpire != 0 {
        moved := ReadRequest(guess);
      } else {
        moved := GoOnRequest();
      }
    }

    /** The loop of a forced dispatch. */
    method FlushSide(d: bool)
      requires Valid()
      modifies this
      ensures Valid() && State() == Flush(old(State()), d)
    {
      hide Inv, Move, InTree;
      ghost var s := State();
      FlushOk(t, s, d);
      while dir[d].next.Some?
        invariant Valid() && Flush(State(), d) == Flush(s, d)
        decreases |dir[d].tree|
      {
        FlushStep(t, State(), d);
        MoveToDispatch(d, dir[d].next.value);
      }
    }

    /** as_dispatch_request with force: each direction is emptied exactly when it has a
        next request to start with; the number moved is returned. */
    method ForceDispatch() returns (n: nat)
      requires Valid()
      modifies this
      ensures Valid() && State() == Next(t, old(State()), Drain) && |dispatched| == |old(dispatched)| + n
      ensures dir[true].fifo == [] <==> old(dir[true]).fifo == [] || old(dir[true]).next.Some?
      ensures dir[false].fifo == [] <==> old(dir[false]).fifo == [] || old(dir[false]).next.Some?
    {
      hide Inv, Flush, InFifo;
      ghost var s := State();
      ForceOk(t, s);
      ForceCount(t, s);
      ForceParts(t, s);
      n := (if dir[true].next.Some? then |dir[true].tree| else 0) + (if dir[false].next.Some? then |dir[false].tree| else 0);
      batch := batch.(sync := true, changed := false, isNew := false);
      FlushSide(true);
      dir := dir[true := dir[true].(lastCheck := jiffies)];
      FlushSide(false);
      dir := dir[false := dir[false].(lastCheck := jiffies)];
    }
  }

  lemma MovedSideIs(side: Side, id: nat)
    requires TreeIndex(side.tree, id) < |side.tree|
    ensures var rq := side.tree[TreeIndex(side.tree, id)];
      var side1 := side.(last := rq.sector + rq.nsect);
      MovedSide(side, id) == Remove(side1.(next := FindNext(side1, id)), id)
  {
    hide FindNext, TreeIndex, Remove;
  }

  lemma FlushStep(t: Tunables, s: Data, d: bool)
    requires Inv(t, s) && Of(s, d).next.Some?
    ensures var id := Of(s, d).next.value; var m := Move(s, d, id);
      InTree(Of(s, d).tree, id) && Inv(t, m) && |Of(m, d).tree| < |Of(s, d).tree| && Flush(s, d) == Flush(m, d)
  {
    hide InTree, SortedTree, TreeIds, FifoIds, SortedFifo, InFifo, Apart, Move, MovedSide, CountOk, AnticOk;
    Flip(t, s, d);
    var side := Of(s, d);
    var id := side.next.value;
    FoundInTree(side.tree, id);
    MoveOk(t, s, d, id, None);
    MoveSideOk(side, id, s.now + FifoExpire(t, d), None);
    Flip(t, Move(s, d, id), d);
  }

  /** The states between the two loops of a forced dispatch. */
  lemma ForceParts(t: Tunables, s: Data)
    requires Inv(t, s)
    ensures var s0 := s.(batch := s.batch.(sync := true, changed := false, isNew := false));
      var s1 := Flush(s0, true);
      Inv(t, s0) && s1.now == s.now && Inv(t, s1.(sync := s1.sync.(lastCheck := s.now)))
      && Flush(s1.(sync := s1.sync.(lastCheck := s.now)), false).now == s.now
  {
    hide Agree, Apart, Flush, InFifo, AnticOk;
    var s0 := s.(batch := s.batch.(sync := true, changed := false, isNew := false));
    FlushOk(t, s0, true);
    var s1 := Flush(s0, true);
    FlushOk(t, s1.(sync := s1.sync.(lastCheck := s.now)), false);
  }

  lemma ForceCount(t: Tunables, s: Data)
    requires Inv(t, s)
    ensures |Force(s).out| == |s.out| + (if s.sync.next.Some? then |s.sync.tree| else 0) + (if s.async.next.Some? then |s.async.tree| else 0)
  {
    hide Agree, InFifo, Apart, Flush, AnticOk;
    var s0 := s.(batch := s.batch.(sync := true, changed := false, isNew := false));
    FlushOk(t, s0, true);
    var s1 := Flush(s0, true);
    FlushOk(t, s1.(sync := s1.sync.(lastCheck := s.now)), false);
  }

  lemma SwitchChoice(t: Tunables, s: Data, d: bool)
    requires Inv(t, s) && !Waiting(s) && Of(s, d).fifo != []
    ensures Choosing(t, Switch(s, d)) && InTree(Of(s, d).tree, Head(s, d))
  {
    hide InTree, Agree, Apart;
    HeadInTree(t, s, d);
  }

  lemma IdledOk(t: Tunables, s: Data, b: Batch)
    requires Inv(t, s) && b == s.batch.(idled := b.idled)
    ensures Inv(t, s.(batch := b))
  {
    hide SideOk, Apart;
  }

  lemma ReadChoice(t: Tunables, s: Data)
    requires Inv(t, s)
    ensures var c := Checked(t, s, true);
      Inv(t, c) && (FifoExpired(t, s, true) ==> Of(c, true).fifo != [] && InTree(Of(c, true).tree, Head(c, true)))
      && c.batch == s.batch && c.status == s.status && c.sync.fifo == s.sync.fifo && c.async.fifo == s.async.fifo
  {
    hide SideOk, Apart, InTree, Inv;
    CheckedOk(t, s, true);
    if FifoExpired(t, s, true) { HeadInTree(t, Checked(t, s, true), true); }
  }

  lemma NextChoice(t: Tunables, s: Data)
    requires Inv(t, s) && !Waiting(s) && Of(s, s.batch.sync).next.Some?
    ensures InTree(Of(s, s.batch.sync).tree, Of(s, s.batch.sync).next.value)
    ensures forall e: nat :: Choosing(t, s.(batch := s.batch.(expires := e)))
    ensures Choosing(t, s)
  {
    hide SortedTree, TreeIds, FifoIds, SortedFifo, Apart, InTree, InFifo;
    Flip(t, s, s.batch.sync);
  }

  lemma SidesSorted(t: Tunables, s: Data, d: bool)
    requires Inv(t, s)
    ensures SortedTree(Of(s, d).tree) && TreeIds(Of(s, d).tree)
  {
    hide InTree, InFifo, Apart;
    Flip(t, s, d);
  }

  lemma ListedInTree(t: Tunables, s: Data, d: bool, id: nat)
    requires Inv(t, s) && InFifo(Of(s, d).fifo, id)
    ensures InTree(Of(s, d).tree, id)
  {
    hide InTree, InFifo, Apart, SortedTree, TreeIds, SortedFifo, FifoIds;
    Flip(t, s, d);
  }

  /** Before as_update_rq runs, the request is in both views. */
  lemma ArriveMiddle(t: Tunables, s: Data, d: bool, n: Node, ctx: Option<nat>)
    requires Inv(t, s) && Enabled(s, Arrive(d, n, ctx, false))
    ensures var s0 := if ctx.Some? then s.(iocOf := s.iocOf[n.id := ctx.value]) else s.(iocOf := s.iocOf - {n.id});
      var s1 := AddRb(s0, d, n);
      s1.now == s.now && Inv(t, With(s1, d, Of(s1, d).(fifo := Of(s1, d).fifo + [Entry(n.id, s.now + FifoExpire(t, d))])))
  {
    hide InTree, InFifo, SortedTree, TreeIds, FifoIds, SortedFifo, AddRb, CountOk, AnticOk;
    var s0 := if ctx.Some? then s.(iocOf := s.iocOf[n.id := ctx.value]) else s.(iocOf := s.iocOf - {n.id});
    Flip(t, s, d);
    AddRbOk(t, s0, d, n);
    var s1 := AddRb(s0, d, n);
    var e := Entry(n.id, s.now + FifoExpire(t, d));
    FifoAppend(Of(s1, d).fifo, e, s.now + FifoExpire(t, d));
    PlacedBack(t, With(s1, d, Of(s1, d).(fifo := Of(s1, d).fifo + [e])), d, n.id);
  }

  /** What is serviced is queued in the direction of the batch. */
  lemma ServiceChoice(t: Tunables, s: Data, rq: nat)
    requires Choosing(t, s) && InTree(Of(s, s.batch.sync).tree, rq)
    ensures var c := Checked(t, s, s.batch.sync);
      c.batch == s.batch && Of(c, s.batch.sync).tree == Of(s, s.batch.sync).tree && Of(c, s.batch.sync).fifo == Of(s, s.batch.sync).fifo
    ensures FifoExpired(t, s, s.batch.sync) ==> Of(s, s.batch.sync).fifo != [] && InTree(Of(s, s.batch.sync).tree, Head(s, s.batch.sync))
  {
    hide InTree, Agree, Apart;
    if FifoExpired(t, s, s.batch.sync) { HeadInTree(t, s.(batch := s.batch.(changed := false, isNew := false)), s.batch.sync); }
  }
}
