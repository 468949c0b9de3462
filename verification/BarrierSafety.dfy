/** The promises of barriers, stated on what an observer of the queue sees, for
    every interleaving of submissions, dispatches, fetches, completions and
    requeues; and the exact conditions on submitters under which they hold. */
module BarrierSafety {
  import opened Blkdev
  import opened Barrier
  import opened BarrierOnce
  import opened BarrierOrder
  import opened BarrierDrain

  ghost predicate AddedAt(log: seq<Event>, i: int, fs: bool, hard: bool) {
    0 <= i < |log| && log[i].Added? && log[i].r.fs == fs && log[i].r.hard == hard
  }

  ghost predicate EndedIn(log: seq<Event>, id: nat) { exists k :: 0 <= k < |log| && log[k].Ended? && log[k].orig == id }

  /** e may follow log: a proxy of a barrier is handed over only when every file
      system request added before the barrier has completed and every barrier added
      before it has ended; a barrier itself is never handed over; and a request added
      after a barrier only when that barrier has ended. */
  ghost predicate SafeEvent(log: seq<Event>, e: Event) {
    && (e.HandedProxy? ==>
          forall i, j :: i < j && AddedAt(log, i, true, false) && AddedAt(log, j, true, true) && log[j].r.id == e.orig ==>
            Completed(log[i].r.id) in log)
    && (e.HandedProxy? ==>
          forall i, j :: i < j && AddedAt(log, i, true, true) && AddedAt(log, j, true, true) && log[j].r.id == e.orig ==>
            EndedIn(log, log[i].r.id))
    && (e.Handed? ==> forall i :: AddedAt(log, i, true, true) ==> log[i].r.id != e.id)
    && (e.Handed? ==>
          forall j, i :: j < i && AddedAt(log, j, true, true) && AddedAt(log, i, true, false) && log[i].r.id == e.id ==>
            EndedIn(log, log[j].r.id))
  }

  ghost predicate SafeLog(log: seq<Event>) { forall h :: 0 <= h < |log| ==> SafeEvent(log[..h], log[h]) }

  // ----- nothing gets lost -----

  predicate Same(x: Rq, r: Rq) { x.id == r.id && x.epoch == r.epoch && x.fs == r.fs && x.hard == r.hard }

  ghost predicate AliveIn(s: seq<Rq>, r: Rq) { exists i :: 0 <= i < |s| && Same(s[i], r) }

  ghost predicate Alive(head: seq<Rq>, held: seq<Rq>, driver: map<nat, Rq>, r: Rq) {
    AliveIn(head, r) || AliveIn(held, r) || (r.id in driver && Same(driver[r.id], r))
  }

  /** How many barriers have been added. */
  function Count(log: seq<Event>): nat {
    if log == [] then 0
    else
      var e := log[|log| - 1];
      Count(log[..|log| - 1]) + (if e.Added? && IsBarrier(e.r) then 1 else 0)
  }

  ghost predicate Counted(log: seq<Event>, barriers: nat) {
    barriers == Count(log) && forall h :: 0 <= h < |log| && log[h].Added? ==> log[h].r.epoch == Count(log[..h])
  }

  /** A request in the queue or the driver is the one that was added under its identity. */
  ghost predicate Tagged(q: Queue) {
    forall h :: 0 <= h < |q.log| && q.log[h].Added? ==>
      var r := q.log[h].r;
      && !IsProxy(r)
      && (forall i :: 0 <= i < |q.head| && q.head[i].id == r.id ==> Same(q.head[i], r))
      && (forall i :: 0 <= i < |q.held| && q.held[i].id == r.id ==> Same(q.held[i], r))
      && (r.id in q.driver ==> Same(q.driver[r.id], r))
      && (Active(q) && q.orig.id == r.id ==> Same(q.orig, r))
  }

  ghost predicate BarKept(q: Queue, r: Rq) {
    && (r.epoch < q.ended ==> EndedIn(q.log, r.id))
    && (Active(q) && r.epoch == q.ended ==> q.orig.id == r.id)
    && (r.epoch >= NextBarrier(q) ==> AliveIn(q.head, r))
  }

  ghost predicate PlainKept(q: Queue, r: Rq) { Completed(r.id) in q.log || Alive(q.head, q.held, q.driver, r) }

  ghost predicate Kept(q: Queue) {
    forall h :: 0 <= h < |q.log| && q.log[h].Added? && q.log[h].r.fs ==>
      if q.log[h].r.hard then BarKept(q, q.log[h].r) else PlainKept(q, q.log[h].r)
  }

  ghost predicate Safe(q: Queue) { Drain(q) && Counted(q.log, q.barriers) && Tagged(q) && Kept(q) && SafeLog(q.log) }

  lemma {:induction false} CountMonotone(log: seq<Event>, i: nat, j: nat)
    requires i <= j <= |log|
    ensures Count(log[..i]) <= Count(log[..j])
    ensures i < j && log[i].Added? && IsBarrier(log[i].r) ==> Count(log[..i]) < Count(log[..j])
    decreases j - i
  {
    if i < j {
      assert log[..j][..j - 1] == log[..j - 1];
      CountMonotone(log, i, j - 1);
    }
  }

  lemma CountAppend(log: seq<Event>, e: Event, barriers: nat)
    requires Counted(log, barriers) && (e.Added? ==> e.r.epoch == barriers)
    ensures Counted(log + [e], if e.Added? && IsBarrier(e.r) then barriers + 1 else barriers)
  {
    var t := log + [e];
    assert t[..|log|] == log;
    forall h | 0 <= h < |t| && t[h].Added? ensures t[h].r.epoch == Count(t[..h]) {
      if h < |log| { assert t[..h] == log[..h]; }
    }
  }

  lemma SafeAppend(log: seq<Event>, e: Event)
    requires SafeLog(log) && SafeEvent(log, e)
    ensures SafeLog(log + [e])
  {
    var t := log + [e];
    forall h | 0 <= h < |t| ensures SafeEvent(t[..h], t[h]) {
      if h < |log| { assert t[..h] == log[..h]; } else { assert t[..h] == log; }
    }
  }

  lemma EndedAppend(log: seq<Event>, e: Event, id: nat)
    ensures EndedIn(log + [e], id) <==> EndedIn(log, id) || (e.Ended? && e.orig == id)
  {
    var t := log + [e];
    assert t[|log|] == e;
    if EndedIn(log, id) {
      var k :| 0 <= k < |log| && log[k].Ended? && log[k].orig == id;
      assert t[k] == log[k];
    }
  }

  /** What is handed over next respects both promises. */
  lemma HandedIsSafe(q: Queue)
    requires Safe(q) && q.head != [] && HeadOk(q.head[0].(started := true), StageOf(q)) && !IsBar(q.head[0])
    ensures SafeEvent(q.log, HandedEvent(q, q.head[0]))
  {
    var log, x, e := q.log, q.head[0], HandedEvent(q, q.head[0]);
    if IsProxy(x) {
      forall i, j | i < j && AddedAt(log, i, true, false) && AddedAt(log, j, true, true) && log[j].r.id == e.orig
        ensures Completed(log[i].r.id) in log
      {
        CountMonotone(log, i, j);
        assert Same(q.orig, log[j].r);
        assert PlainKept(q, log[i].r);
        NotAlive(q, log[i].r);
      }
      forall i, j | i < j && AddedAt(log, i, true, true) && AddedAt(log, j, true, true) && log[j].r.id == e.orig
        ensures EndedIn(log, log[i].r.id)
      {
        CountMonotone(log, i, j);
        assert Same(q.orig, log[j].r);
        assert BarKept(q, log[i].r);
      }
    } else {
      forall i | AddedAt(log, i, true, true) ensures log[i].r.id != e.id {
        assert x.id == log[i].r.id ==> Same(x, log[i].r);
      }
      forall j, i | j < i && AddedAt(log, j, true, true) && AddedAt(log, i, true, false) && log[i].r.id == e.id
        ensures EndedIn(log, log[j].r.id)
      {
        CountMonotone(log, j, i);
        assert Same(x, log[i].r);
        assert BarKept(q, log[j].r);
      }
    }
  }

  /** Once drained, no request from before the barrier is left. */
  lemma NotAlive(q: Queue, r: Rq)
    requires Drain(q) && StageOf(q).drained && r.fs && !IsProxy(r) && r.epoch <= q.ended
    ensures !Alive(q.head, q.held, q.driver, r)
  {
    assert NextBarrier(q) <= q.barriers;
    forall i | 0 <= i < |q.head| ensures !Same(q.head[i], r) { assert HeadOk(q.head[i], StageOf(q)); }
    forall i | 0 <= i < |q.held| ensures !Same(q.held[i], r) { assert HeldOk(q.held[i], StageOf(q)); }
    if r.id in q.driver { assert DriverOk(q.driver[r.id], StageOf(q)); }
  }

  // ----- steps that add no request -----

  predicate Quiet(e: Event) { !e.Added? && !e.Handed? && !e.HandedProxy? }

  lemma AliveInsert(s: seq<Rq>, p: nat, x: Rq, r: Rq)
    requires p <= |s|
    ensures AliveIn(InsertAt(s, p, x), r) <==> AliveIn(s, r) || Same(x, r)
  {
    var t := InsertAt(s, p, x);
    assert t[p] == x;
    if AliveIn(s, r) {
      var i :| 0 <= i < |s| && Same(s[i], r);
      assert t[if i < p then i else i + 1] == s[i];
    }
  }

  lemma AliveRemove(s: seq<Rq>, i: nat, r: Rq)
    requires i < |s| && AliveIn(s, r)
    ensures AliveIn(RemoveAt(s, i), r) || Same(s[i], r)
  {
    var t := RemoveAt(s, i);
    var j :| 0 <= j < |s| && Same(s[j], r);
    if j != i { assert t[if j < i then j else j - 1] == s[j]; }
  }

  /** Requests of q' other than proxies were there before. */
  ghost predicate NoNewRequests(q: Queue, q': Queue) {
    && (forall i :: 0 <= i < |q'.head| ==> IsProxy(q'.head[i]) || Alive(q.head, q.held, q.driver, q'.head[i]))
    && (forall i :: 0 <= i < |q'.held| ==> Alive(q.head, q.held, q.driver, q'.held[i]))
    && (forall id :: id in q'.driver && id >= FIRST_ID ==>
          q'.driver[id].id == id && Alive(q.head, q.held, q.driver, q'.driver[id]))
    && (Active(q') ==> (Active(q) && q'.orig == q.orig) || Alive(q.head, q.held, q.driver, q'.orig))
  }

  ghost predicate NoLoss(q: Queue, q': Queue) {
    forall r: Rq :: r.fs && !r.hard && !IsProxy(r) && Alive(q.head, q.held, q.driver, r) ==>
      Completed(r.id) in q'.log || Alive(q'.head, q'.held, q'.driver, r)
  }

  /** The sequence stays where it is, or it ends and its barrier is ended. */
  ghost predicate BarMove(q: Queue, q': Queue) {
    && (forall r: Rq :: IsBarrier(r) && !IsProxy(r) && AliveIn(q.head, r) ==> AliveIn(q'.head, r))
    && (|| (q'.ended == q.ended && Active(q') == Active(q) && (Active(q) ==> q'.orig == q.orig))
        || (q'.ended == q.ended + 1 && Active(q) && !Active(q') && EndedIn(q'.log, q.orig.id)))
  }

  ghost predicate Grows(log: seq<Event>, log': seq<Event>) {
    && (forall id :: EndedIn(log, id) ==> EndedIn(log', id))
    && (forall e :: e in log ==> e in log')
    && (forall h :: 0 <= h < |log'| && log'[h].Added? ==> log'[h] in log)
  }

  lemma TaggedKeeps(q: Queue, q': Queue)
    requires Tagged(q) && NoNewRequests(q, q') && Grows(q.log, q'.log)
    ensures Tagged(q')
  {
    hide EndedIn;
    forall h | 0 <= h < |q'.log| && q'.log[h].Added?
      ensures var r := q'.log[h].r;
              && !IsProxy(r)
              && (forall i :: 0 <= i < |q'.head| && q'.head[i].id == r.id ==> Same(q'.head[i], r))
              && (forall i :: 0 <= i < |q'.held| && q'.held[i].id == r.id ==> Same(q'.held[i], r))
              && (r.id in q'.driver ==> Same(q'.driver[r.id], r))
              && (Active(q') && q'.orig.id == r.id ==> Same(q'.orig, r))
    {
      var g :| 0 <= g < |q.log| && q.log[g] == q'.log[h];
    }
  }

  lemma KeptKeeps(q: Queue, q': Queue)
    requires Kept(q) && Tagged(q) && Grows(q.log, q'.log) && NoLoss(q, q')
    requires forall r: Rq :: BarKept(q, r) && IsBarrier(r) && !IsProxy(r) ==> BarKept(q', r)
    ensures Kept(q')
  {
    forall h | 0 <= h < |q'.log| && q'.log[h].Added? && q'.log[h].r.fs
      ensures if q'.log[h].r.hard then BarKept(q', q'.log[h].r) else PlainKept(q', q'.log[h].r)
    {
      var g :| 0 <= g < |q.log| && q.log[g] == q'.log[h];
    }
  }

  lemma GrowsBy(log: seq<Event>, e: Event)
    requires !e.Added?
    ensures Grows(log, log + [e])
  {
    forall id ensures EndedIn(log, id) ==> EndedIn(log + [e], id) { EndedAppend(log, e, id); }
    assert forall h :: 0 <= h < |log + [e]| && h < |log| ==> (log + [e])[h] == log[h];
  }

  lemma BarMoveKeeps(q: Queue, q': Queue, r: Rq)
    requires BarMove(q, q') && Grows(q.log, q'.log) && BarKept(q, r) && IsBarrier(r) && !IsProxy(r)
    ensures BarKept(q', r)
  {}

  /** A step that loses no request, brings in none, and moves no barrier out of its turn. */
  lemma MoveKeeps(q: Queue, q': Queue)
    requires Tagged(q) && Kept(q) && Grows(q.log, q'.log) && NoNewRequests(q, q') && NoLoss(q, q') && BarMove(q, q')
    ensures Tagged(q') && Kept(q')
  {
    hide Tagged, Kept, Grows, NoNewRequests, NoLoss, BarMove, BarKept;
    TaggedKeeps(q, q');
    forall r: Rq | BarKept(q, r) && IsBarrier(r) && !IsProxy(r) ensures BarKept(q', r) { BarMoveKeeps(q, q', r); }
    KeptKeeps(q, q');
  }

  /** One quiet event more in the log. */
  lemma QuietLog(log: seq<Event>, e: Event, barriers: nat)
    requires Counted(log, barriers) && SafeLog(log) && Quiet(e)
    ensures Counted(log + [e], barriers) && SafeLog(log + [e]) && Grows(log, log + [e])
  {
    CountAppend(log, e, barriers);
    SafeAppend(log, e);
    GrowsBy(log, e);
  }

  lemma GrowsSelf(log: seq<Event>)
    ensures Grows(log, log)
  {
    hide EndedIn;
  }

  lemma GrowsTransitive(a: seq<Event>, b: seq<Event>, c: seq<Event>)
    requires Grows(a, b) && Grows(b, c)
    ensures Grows(a, c)
  {}

  ghost predicate LogOk(q: Queue) { Counted(q.log, q.barriers) && SafeLog(q.log) }

  /** What completing phases does to the log and the sequence. */
  lemma CompleteSeqLog(q: Queue, bits: OrdSeq, error: int)
    requires LogOk(q) && Active(q)
    ensures var q' := CompleteSeq(q, bits, error).0;
            LogOk(q') && Grows(q.log, q'.log) && BarMove(q, q') && q'.head == q.head && q'.held == q.held
            && q'.driver == q.driver && q'.orig == q.orig
  {
    hide SafeLog, SafeEvent, Counted;
    var q' := CompleteSeq(q, bits, error).0;
    if !Active(q') {
      QuietLog(q.log, q'.log[|q.log|], q.barriers);
      EndedAppend(q.log, q'.log[|q.log|], q.orig.id);
    }
  }

  lemma ElvCompletedLog(q: Queue, r: Rq)
    requires LogOk(q) && (q.ordseq == IDLE || Active(q))
    ensures var q' := ElvCompleted(q, r);
            LogOk(q') && Grows(q.log, q'.log) && BarMove(q, q') && q'.head == q.head && q'.held == q.held
            && q'.driver == q.driver && q'.orig == q.orig
  {
    hide SafeLog, SafeEvent, Counted;
    var q1 := AccountDone(q, r);
    if ElvCompleted(q, r) != q1 { CompleteSeqLog(q1, DRAIN_BIT, 0); }
  }

  lemma ReportLog(q: Queue, r: Rq, id: nat, error: int)
    requires LogOk(q) && Active(q) && id < FIRST_ID && !Bit(q.ordseq, id)
    ensures var q' := Report(ElvCompleted(q, r), id, error);
            LogOk(q') && Grows(q.log, q'.log) && BarMove(q, q') && q'.head == q.head && q'.held == q.held
            && q'.driver == q.driver && q'.orig == q.orig
  {
    hide SafeLog, SafeEvent, Counted;
    var q2 := ElvCompleted(q, r);
    ElvCompletedLog(q, r);
    assert Active(q2) && q2.ended == q.ended;
    var q3 := q2.(log := q2.log + [PhaseDone(id, error)]);
    QuietLog(q2.log, PhaseDone(id, error), q2.barriers);
    GrowsTransitive(q.log, q2.log, q3.log);
    CompleteSeqLog(q3, ProxyBit(id), error);
    GrowsTransitive(q.log, q3.log, Report(q2, id, error).log);
  }

  /** A step that only lets requests leave, or moves the sequence on. */
  ghost predicate Settles(q: Queue, q': Queue) {
    && LogOk(q') && Grows(q.log, q'.log) && BarMove(q, q')
    && q'.head == q.head && q'.held == q.held && q'.orig == q.orig
    && (forall id :: id in q'.driver ==> id in q.driver && q'.driver[id] == q.driver[id])
    && (forall id :: id in q.driver && id >= FIRST_ID && id !in q'.driver ==> Completed(id) in q'.log)
  }

  lemma ProxyEndSettles(q: Queue, q0: Queue, id: nat, error: int)
    requires id in q.driver && id < FIRST_ID && Active(q) && !Bit(q.ordseq, id)
    requires q0 == q.(log := q0.log, orderr := q0.orderr) && LogOk(q0) && Grows(q.log, q0.log)
    ensures Settles(q, Report(ElvCompleted(q0.(driver := q.driver - {id}), q.driver[id]), id, error))
  {
    hide SafeLog, Counted, CompleteSeq, ElvCompleted, Report, Grows;
    var q1 := q0.(driver := q.driver - {id});
    ReportLog(q1, q.driver[id], id, error);
    GrowsTransitive(q.log, q1.log, Report(ElvCompleted(q1, q.driver[id]), id, error).log);
  }

  lemma CompleteSettles(q: Queue, id: nat, error: int)
    requires LogOk(q) && id in q.driver && q.driver[id].id == id && (q.ordseq == IDLE || Active(q))
    requires id < FIRST_ID ==> Active(q) && !Bit(q.ordseq, id)
    ensures Settles(q, Complete(q, id, error))
  {
    hide SafeLog, Counted, CompleteSeq, ElvCompleted, Report, EndedIn, AliveIn;
    if id < FIRST_ID {
      QuietLog(q.log, PartError(error), q.barriers);
      GrowsSelf(q.log);
      ProxyEndSettles(q, if id == BAR then BarError(q, error) else q, id, error);
    } else {
      var q1 := q.(driver := q.driver - {id}, log := q.log + [Completed(id)]);
      QuietLog(q.log, Completed(id), q.barriers);
      ElvCompletedLog(q1, q.driver[id]);
      GrowsTransitive(q.log, q1.log, Complete(q, id, error).log);
      assert Completed(id) in q1.log;
    }
  }

  lemma SettleSafe(q: Queue, q': Queue)
    requires Safe(q) && Drain(q') && Settles(q, q')
    ensures Safe(q')
  {
    hide SafeLog, Counted, Tagged, Kept, Grows, Queued, Phases, WindowAt, ProperLog, Line;
    forall i | 0 <= i < |q.head| ensures AliveIn(q.head, q.head[i]) { assert Same(q.head[i], q.head[i]); }
    forall i | 0 <= i < |q.held| ensures AliveIn(q.held, q.held[i]) { assert Same(q.held[i], q.held[i]); }
    assert NoLoss(q, q');
    MoveKeeps(q, q');
  }

  /** A step that moves requests around and leaves the log and the sequence alone. */
  lemma ShuffleSafe(q: Queue, q': Queue)
    requires Safe(q) && Drain(q') && q'.log == q.log && q'.barriers == q.barriers
    requires q'.ended == q.ended && q'.ordseq == q.ordseq && q'.orig == q.orig
    requires NoNewRequests(q, q') && NoLoss(q, q')
    requires forall r: Rq :: IsBarrier(r) && !IsProxy(r) && AliveIn(q.head, r) ==> AliveIn(q'.head, r)
    ensures Safe(q')
  {
    hide SafeLog, Counted, Tagged, Kept, Queued, Phases, WindowAt, ProperLog, Line, Grows, NoNewRequests, NoLoss;
    GrowsSelf(q.log);
    MoveKeeps(q, q');
  }

  lemma SelfAlive(q: Queue)
    requires Base(q)
    ensures NoNewRequests(q, q)
  {
    forall i | 0 <= i < |q.head| ensures AliveIn(q.head, q.head[i]) { assert Same(q.head[i], q.head[i]); }
    forall i | 0 <= i < |q.held| ensures AliveIn(q.held, q.held[i]) { assert Same(q.held[i], q.held[i]); }
  }

  /** r moves to the dispatch queue from where it was. */
  ghost predicate Moves(q: Queue, q': Queue, p: nat, r: Rq) {
    && p <= |q.head| && q'.head == InsertAt(q.head, p, r)
    && q'.log == q.log && q'.barriers == q.barriers
    && q'.ended == q.ended && q'.ordseq == q.ordseq && q'.orig == q.orig
    && (IsProxy(r) || Alive(q.head, q.held, q.driver, r))
    && (forall i :: 0 <= i < |q'.held| ==> AliveIn(q.held, q'.held[i]))
    && (forall x: Rq :: AliveIn(q.held, x) ==> AliveIn(q'.held, x) || Same(r, x))
    && (forall id :: id in q'.driver ==> id in q.driver && q'.driver[id] == q.driver[id])
    && (forall id :: id in q.driver && id !in q'.driver ==> Same(r, q.driver[id]))
  }

  lemma MovesRequests(q: Queue, q': Queue, p: nat, r: Rq)
    requires NoNewRequests(q, q) && Moves(q, q', p, r)
    ensures NoNewRequests(q, q') && NoLoss(q, q')
    ensures forall x: Rq :: AliveIn(q.head, x) ==> AliveIn(q'.head, x)
  {
    hide SafeLog, SafeEvent, Counted;
    forall x: Rq ensures AliveIn(q'.head, x) <==> AliveIn(q.head, x) || Same(r, x) { AliveInsert(q.head, p, r, x); }
    forall i | 0 <= i < |q'.head| ensures IsProxy(q'.head[i]) || Alive(q.head, q.held, q.driver, q'.head[i]) {
      assert q'.head[i] == if i == p then r else q.head[if i < p then i else i - 1];
    }
  }

  lemma InsertSafe(q: Queue, q': Queue, p: nat, r: Rq)
    requires Safe(q) && Drain(q') && Moves(q, q', p, r)
    ensures Safe(q')
  {
    SafeIsBase(q);
    MovesFields(q, q', p, r);
    hide Safe, Drain, Base, Moves, NoNewRequests, NoLoss, AliveIn;
    SelfAlive(q);
    MovesRequests(q, q', p, r);
    ShuffleSafe(q, q');
  }

  lemma MovesFields(q: Queue, q': Queue, p: nat, r: Rq)
    requires Moves(q, q', p, r)
    ensures q'.log == q.log && q'.barriers == q.barriers && q'.ended == q.ended && q'.ordseq == q.ordseq && q'.orig == q.orig
  {
    hide AliveIn, Same;
  }

  lemma SafeIsBase(q: Queue)
    requires Safe(q)
    ensures Base(q)
  {
    hide Base, Tagged, Kept, SafeLog, Counted, Queued;
  }

  lemma SelfIn(s: seq<Rq>)
    ensures forall i :: 0 <= i < |s| ==> AliveIn(s, s[i])
  {
    forall i | 0 <= i < |s| ensures AliveIn(s, s[i]) { assert Same(s[i], s[i]); }
  }

  lemma RequeueIs(q: Queue, id: nat) returns (p: nat)
    requires id in q.driver
    ensures var q' := Requeue(q, id);
      && p <= |q.head| && q'.head == InsertAt(q.head, p, q.driver[id].(started := false, soft := true))
      && q'.held == q.held && q'.driver == q.driver - {id} && q'.log == q.log && q'.barriers == q.barriers
      && q'.ended == q.ended && q'.ordseq == q.ordseq && q'.orig == q.orig
  {
    hide ReqSeq, InsertAt;
    var r := q.driver[id];
    var q1 := AccountDone(q.(driver := q.driver - {id}), r);
    p := if q.ordseq == IDLE then 0 else RequeuePoint(q1, ReqSeq(q1, r.(started := false, soft := true)), 0);
  }

  lemma RequeueMoves(q: Queue, q': Queue, id: nat, p: nat, r: Rq)
    requires id in q.driver && q.driver[id].id == id && r == q.driver[id].(started := false, soft := true)
    requires p <= |q.head| && q'.head == InsertAt(q.head, p, r) && q'.held == q.held && q'.driver == q.driver - {id}
    requires q'.log == q.log && q'.barriers == q.barriers && q'.ended == q.ended && q'.ordseq == q.ordseq && q'.orig == q.orig
    ensures Moves(q, q', p, r)
  {
    hide AliveIn, InsertAt;
    SelfIn(q.held);
  }

  lemma RequeueSafe(q: Queue, id: nat)
    requires Safe(q) && id in q.driver && Drain(Requeue(q, id))
    ensures Safe(Requeue(q, id))
  {
    hide Safe, Drain, Base, Requeue, Moves, InsertAt;
    SafeIsBase(q);
    DriverIds(q);
    var p := RequeueIs(q, id);
    var r := q.driver[id].(started := false, soft := true);
    RequeueMoves(q, Requeue(q, id), id, p, r);
    InsertSafe(q, Requeue(q, id), p, r);
  }

  lemma RemovedAlive(s: seq<Rq>, i: nat)
    requires i < |s|
    ensures forall x: Rq :: AliveIn(s, x) ==> AliveIn(RemoveAt(s, i), x) || Same(s[i], x)
    ensures forall k :: 0 <= k < |RemoveAt(s, i)| ==> AliveIn(s, RemoveAt(s, i)[k])
  {
    forall x: Rq | AliveIn(s, x) ensures AliveIn(RemoveAt(s, i), x) || Same(s[i], x) { AliveRemove(s, i, x); }
    var t := RemoveAt(s, i);
    forall k | 0 <= k < |t| ensures AliveIn(s, t[k]) {
      assert t[k] == s[if k < i then k else k + 1];
      SelfIn(s);
    }
  }

  lemma StartMoves(q: Queue, i: nat)
    requires Base(q) && i < |q.head| && q.head[i].started
    ensures var q' := Start(q, i);
      && NoNewRequests(q, q') && NoLoss(q, q')
      && forall r: Rq :: IsBarrier(r) && !IsProxy(r) && AliveIn(q.head, r) ==> AliveIn(q'.head, r)
  {
    SelfAlive(q);
    DriverIds(q);
    StartedIsNoBar(q, i);
    RemovedAlive(q.head, i);
    SelfIn(q.head);
    hide Base, AliveIn;
    assert Start(q, i).head == RemoveAt(q.head, i);
  }

  lemma StartSafe(q: Queue, i: nat)
    requires Safe(q) && i < |q.head| && q.head[i].started && Drain(Start(q, i))
    ensures Safe(Start(q, i))
  {
    hide Safe, Drain, Base, NoNewRequests, NoLoss, AliveIn;
    SafeIsBase(q);
    StartMoves(q, i);
    ShuffleSafe(q, Start(q, i));
  }

  lemma DispatchMoves(q: Queue, i: nat, p: nat)
    requires i < |q.held| && p <= |q.head|
    ensures Moves(q, Dispatch(q, i, p), p, q.held[i])
  {
    hide AliveIn, InsertAt;
    RemovedAlive(q.held, i);
    SelfIn(q.held);
    assert Dispatch(q, i, p).held == RemoveAt(q.held, i);
  }

  lemma DispatchSafe(q: Queue, i: nat, p: nat)
    requires Safe(q) && i < |q.held| && p <= |q.head| && Drain(Dispatch(q, i, p))
    ensures Safe(Dispatch(q, i, p))
  {
    hide Safe, Drain, Moves, Dispatch;
    DispatchMoves(q, i, p);
    InsertSafe(q, Dispatch(q, i, p), p, q.held[i]);
  }

  // ----- submission and fetching -----

  lemma AddLog(log: seq<Event>, r: Rq, barriers: nat)
    requires Counted(log, barriers) && SafeLog(log) && r.epoch == barriers
    ensures Counted(log + [Added(r)], if IsBarrier(r) then barriers + 1 else barriers) && SafeLog(log + [Added(r)])
    ensures forall id :: EndedIn(log, id) ==> EndedIn(log + [Added(r)], id)
  {
    CountAppend(log, Added(r), barriers);
    SafeAppend(log, Added(r));
    forall id ensures EndedIn(log, id) ==> EndedIn(log + [Added(r)], id) { EndedAppend(log, Added(r), id); }
  }

  lemma AddIs(q: Queue, r: Rq, where: Where, q': Queue)
    requires q' == Add(q, r, where) && Enabled(GOOD, q, LAdd(r, where)) && NextBarrier(q) <= q.barriers
    requires !Live(q.head, q.held, q.driver, r.id) && (Active(q) ==> q.orig.id != r.id)
    ensures AddedTo(q, q', r.(color := q.ordcolor, epoch := q.barriers))
    ensures q'.barriers == if IsBarrier(r) then q.barriers + 1 else q.barriers
  {}

  lemma AddSafe(q: Queue, r: Rq, where: Where)
    requires Safe(q) && Enabled(GOOD, q, LAdd(r, where)) && Drain(Add(q, r, where))
    ensures Safe(Add(q, r, where))
  {
    var q' := Add(q, r, where);
    var r1 := r.(color := q.ordcolor, epoch := q.barriers);
    FreshNotLive(q, r.id);
    AddIs(q, r, where, q');
    AddedSafe(q, q', r1);
  }

  /** q' is q with r added somewhere. */
  ghost predicate AddedTo(q: Queue, q': Queue, r: Rq) {
    && q'.log == q.log + [Added(r)] && !IsProxy(r) && Fresh(q.log, r.id)
    && !Live(q.head, q.held, q.driver, r.id) && (Active(q) ==> q.orig.id != r.id)
    && q'.driver == q.driver && q'.ordseq == q.ordseq && q'.orig == q.orig && q'.ended == q.ended
    && r.epoch == q.barriers && NextBarrier(q) <= q.barriers
    && (|| (q'.head == q.head && q'.held == q.held + [r] && !r.hard)
        || (q'.held == q.held && (q'.head == [r.(soft := true)] + q.head || q'.head == q.head + [r.(soft := true)])))
  }

  lemma AddedElements(q: Queue, q': Queue, r: Rq)
    requires AddedTo(q, q', r)
    ensures forall i :: 0 <= i < |q'.head| ==> q'.head[i] in q.head || Same(q'.head[i], r)
    ensures forall i :: 0 <= i < |q'.held| ==> q'.held[i] in q.held || Same(q'.held[i], r)
    ensures forall x: Rq :: AliveIn(q.head, x) ==> AliveIn(q'.head, x)
    ensures forall x: Rq :: AliveIn(q.held, x) ==> AliveIn(q'.held, x)
    ensures if q'.held == q.held then AliveIn(q'.head, r) else AliveIn(q'.held, r)
  {
    var t := r.(soft := true);
    if q'.held != q.held {
      assert q'.held == InsertAt(q.held, |q.held|, r);
      AliveInsert(q.held, |q.held|, r, r);
      forall x: Rq | AliveIn(q.held, x) ensures AliveIn(q'.held, x) { AliveInsert(q.held, |q.held|, r, x); }
    } else {
      var p := if q'.head == [t] + q.head then 0 else |q.head|;
      assert q'.head == InsertAt(q.head, p, t);
      AliveInsert(q.head, p, t, r);
      forall x: Rq | AliveIn(q.head, x) ensures AliveIn(q'.head, x) { AliveInsert(q.head, p, t, x); }
    }
  }

  lemma AddedTagged(q: Queue, q': Queue, r: Rq)
    requires Tagged(q) && AddedTo(q, q', r)
    ensures Tagged(q')
  {
    AddedElements(q, q', r);
    forall h | 0 <= h < |q'.log| && q'.log[h].Added?
      ensures var z := q'.log[h].r;
              && !IsProxy(z)
              && (forall i :: 0 <= i < |q'.head| && q'.head[i].id == z.id ==> Same(q'.head[i], z))
              && (forall i :: 0 <= i < |q'.held| && q'.held[i].id == z.id ==> Same(q'.held[i], z))
              && (z.id in q'.driver ==> Same(q'.driver[z.id], z))
              && (Active(q') && q'.orig.id == z.id ==> Same(q'.orig, z))
    {
      if h < |q.log| {
        assert q'.log[h] == q.log[h] && q.log[h] in q.log;
      }
    }
  }

  lemma AddedKept(q: Queue, q': Queue, r: Rq)
    requires Kept(q) && AddedTo(q, q', r)
    requires forall id :: EndedIn(q.log, id) ==> EndedIn(q'.log, id)
    ensures Kept(q')
  {
    AddedElements(q, q', r);
    forall h | 0 <= h < |q'.log| && q'.log[h].Added? && q'.log[h].r.fs
      ensures if q'.log[h].r.hard then BarKept(q', q'.log[h].r) else PlainKept(q', q'.log[h].r)
    {
      if h < |q.log| {
        assert q'.log[h] == q.log[h];
        assert if q.log[h].r.hard then BarKept(q, q.log[h].r) else PlainKept(q, q.log[h].r);
      }
    }
  }

  lemma AddedSafe(q: Queue, q': Queue, r: Rq)
    requires Counted(q.log, q.barriers) && Tagged(q) && Kept(q) && SafeLog(q.log) && AddedTo(q, q', r)
    requires q'.barriers == if IsBarrier(r) then q.barriers + 1 else q.barriers
    ensures Counted(q'.log, q'.barriers) && Tagged(q') && Kept(q') && SafeLog(q'.log)
  {
    AddLog(q.log, r, q.barriers);
    AddedTagged(q, q', r);
    AddedKept(q, q', r);
  }

  lemma PushAlive(c: bool, x: Rq, s: seq<Rq>, r: Rq)
    requires AliveIn(s, r)
    ensures AliveIn(Push(c, x, s), r)
  {
    if c {
      AliveInsert(s, 0, x, r);
      assert Push(c, x, s) == InsertAt(s, 0, x);
    }
  }

  /** After the barrier is taken off the head, all other requests are still there. */
  lemma StartingAlive(q: Queue, r: Rq)
    requires q.head != [] && AliveIn(q.head, r) && !Same(q.head[0], r)
    ensures AliveIn(Starting(q).head, r)
  {
    var q', rest := Starting(q), q.head[1..];
    AliveRemove(q.head, 0, r);
    assert RemoveAt(q.head, 0) == rest;
    var h1 := Push(q'.mode.postflush, FlushRq(q', POST_FLUSH), rest);
    PushAlive(q'.mode.postflush, FlushRq(q', POST_FLUSH), rest, r);
    PushAlive(q'.mode.bar, BarRq(q'), h1, r);
    PushAlive(q'.mode.preflush, FlushRq(q', PRE_FLUSH), Push(q'.mode.bar, BarRq(q'), h1), r);
  }

  lemma StartingBarKept(q: Queue, r: Rq)
    requires Line(q) && !Active(q) && q.head != [] && IsBar(q.head[0]) && BarKept(q, r) && IsBarrier(r) && !IsProxy(r)
    requires Grows(q.log, Starting(q).log)
    ensures BarKept(Starting(q), r)
  {
    BarsPop(q.head, q.ended, q.barriers);
    if r.epoch >= q.ended {
      if r.epoch > q.ended { StartingAlive(q, r); }
      var i :| 0 <= i < |q.head| && Same(q.head[i], r);
      assert IsBar(q.head[i]);
    }
  }

  lemma StartingSafe(q: Queue)
    requires Safe(q) && !Active(q) && q.head != [] && IsBar(q.head[0])
    ensures LogOk(Starting(q)) && Grows(q.log, Starting(q).log) && Tagged(Starting(q)) && Kept(Starting(q))
  {
    hide SafeLog, SafeEvent, Counted, Queued, Window, ProperLog;
    var q' := Starting(q);
    var rest := q.head[1..];
    SelfAlive(q);
    QuietLog(q.log, SeqStart(q.head[0].id, q'.mode), q.barriers);
    forall i | 0 <= i < |q'.head|
      ensures IsProxy(q'.head[i]) || Alive(q.head, q.held, q.driver, q'.head[i])
    {
      ProxiesOrRest(q', rest, i);
      if !IsProxy(q'.head[i]) {
        var k :| 0 <= k < |rest| && rest[k] == q'.head[i];
        assert Same(q.head[k + 1], q'.head[i]);
      }
    }
    TaggedKeeps(q, q');
    forall r: Rq | r.fs && !r.hard && !IsProxy(r) && Alive(q.head, q.held, q.driver, r)
      ensures Alive(q'.head, q'.held, q'.driver, r)
    {
      if AliveIn(q.head, r) { StartingAlive(q, r); }
    }
    forall r: Rq | BarKept(q, r) && IsBarrier(r) && !IsProxy(r) ensures BarKept(q', r) { StartingBarKept(q, r); }
    KeptKeeps(q, q');
  }

  lemma StartOrderedSafe(q: Queue)
    requires Safe(q) && !Active(q) && q.head != [] && IsBar(q.head[0]) && Drain(StartOrdered(q).0)
    ensures Safe(StartOrdered(q).0)
  {
    var s, q' := Starting(q), StartOrdered(q).0;
    assert KindOk(q.head[0]);
    StartingSafe(q);
    StartOrderedIs(q);
    CompleteSeqLog(s, Skipped(s), 0);
    ResumeSafe(s, q');
  }

  lemma ResumeSafe(s: Queue, q': Queue)
    requires LogOk(s) && Tagged(s) && Kept(s) && Drain(q') && LogOk(q') && Grows(s.log, q'.log) && BarMove(s, q')
    requires Active(s) && q'.head == s.head && q'.held == s.held && q'.driver == s.driver && q'.orig == s.orig
    ensures Safe(q')
  {
    hide SafeLog, Counted, Tagged, Kept, Grows, Queued, Phases, WindowAt, ProperLog, Line;
    forall i | 0 <= i < |s.head| ensures AliveIn(s.head, s.head[i]) { assert Same(s.head[i], s.head[i]); }
    forall i | 0 <= i < |s.held| ensures AliveIn(s.held, s.held[i]) { assert Same(s.held[i], s.held[i]); }
    MoveKeeps(s, q');
  }

  lemma MarkSafe(q: Queue)
    requires Safe(q) && q.head != [] && HeadOk(q.head[0].(started := true), StageOf(q)) && !IsBar(q.head[0])
    requires Drain(MarkHead(q, HandedEvent(q, q.head[0])))
    ensures Safe(MarkHead(q, HandedEvent(q, q.head[0])))
  {
    hide SafeLog, SafeEvent, Counted, Tagged, Kept, Queued, WindowAt, ProperLog, Line, Grows, NoNewRequests, NoLoss, BarMove;
    var e := HandedEvent(q, q.head[0]);
    HandedIsSafe(q);
    MarkedLog(q, e);
    MarkedRequests(q, e);
    MoveKeeps(q, MarkHead(q, e));
  }

  lemma MarkedLog(q: Queue, e: Event)
    requires LogOk(q) && q.head != [] && SafeEvent(q.log, e) && (e.Handed? || e.HandedProxy?)
    ensures LogOk(MarkHead(q, e)) && Grows(q.log, MarkHead(q, e).log)
  {
    hide SafeLog, SafeEvent, Counted, Grows;
    SafeAppend(q.log, e);
    CountAppend(q.log, e, q.barriers);
    GrowsBy(q.log, e);
  }

  lemma MarkedAlive(s: seq<Rq>)
    requires s != []
    ensures var t := [s[0].(started := true)] + s[1..];
      (forall x: Rq :: AliveIn(s, x) ==> AliveIn(t, x)) && forall i :: 0 <= i < |t| ==> AliveIn(s, t[i])
  {
    var t := [s[0].(started := true)] + s[1..];
    forall i | 0 <= i < |s| ensures Same(t[i], s[i]) && Same(s[i], t[i]) {}
    forall x: Rq | AliveIn(s, x) ensures AliveIn(t, x) {
      var i :| 0 <= i < |s| && Same(s[i], x);
      assert Same(t[i], x);
    }
    forall i | 0 <= i < |t| ensures AliveIn(s, t[i]) { assert Same(s[i], t[i]); }
  }

  lemma MarkedRequests(q: Queue, e: Event)
    requires Base(q) && q.head != []
    ensures NoNewRequests(q, MarkHead(q, e)) && NoLoss(q, MarkHead(q, e)) && BarMove(q, MarkHead(q, e))
  {
    hide Base, AliveIn;
    SelfAlive(q);
    MarkedAlive(q.head);
  }

  lemma FetchSafe(q: Queue)
    requires Safe(q) && q.head != []
    ensures Safe(Fetch(q))
  {
    var (q1, more, given) := DoOrdered(q);
    DoOrderedDrain(q);
    assert KindOk(q.head[0]) && Has(q.head, q.head[0].id);
    if Active(q) {
      RunningHead(q);
    } else if IsBarrier(q.head[0]) {
      StartOrderedSafe(q);
    }
    FetchDrain(q);
    if more && given {
      GivenIsNoBarrier(q);
      MarkSafe(q1);
    }
  }

  lemma SafeStep(q: Queue, l: Label)
    requires Safe(q) && Enabled(GOOD, q, l)
    ensures Safe(Next(GOOD, q, l))
  {
    hide SafeLog, Counted, Tagged, Kept, Queued, Window, History, ProperLog, Line;
    DrainStep(q, l);
    match l
    case LAdd(r, where) => AddSafe(q, r, where);
    case LDispatch(i, p) => DispatchSafe(q, i, p);
    case LFetch => FetchSafe(q);
    case LStart(i) => StartSafe(q, i);
    case LComplete(id, error) =>
      CompleteSettles(q, id, error);
      SettleSafe(q, Complete(q, id, error));
    case LBarError(error) =>
      QuietLog(q.log, PartError(error), q.barriers);
      SettleSafe(q, BarError(q, error));
    case LRequeue(id) => RequeueSafe(q, id);
  }

  lemma {:induction false} RunSafe(q: Queue, ls: seq<Label>, q': Queue)
    requires Safe(q) && Run(GOOD, q, ls, q')
    ensures Safe(q')
    decreases |ls|
  {
    if ls != [] {
      SafeStep(q, ls[0]);
      RunSafe(Next(GOOD, q, ls[0]), ls[1..], q');
    }
  }
}
