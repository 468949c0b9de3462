/** The order of requests around barriers when the queue drains before each
    barrier: the invariant that ties colours, queue positions and in-flight
    counts together, and the two ordering guarantees over every run. */
module BarrierOrder {
  import opened Blkdev
  import opened Barrier
  import opened BarrierOnce

  predicate Odd(n: nat) { n % 2 == 1 }

  predicate IsBar(r: Rq) { IsBarrier(r) && !IsProxy(r) }

  // ----- barriers wait in the queue in the order they were added -----

  ghost predicate HasBar(head: seq<Rq>, e: nat) { exists i :: 0 <= i < |head| && IsBar(head[i]) && head[i].epoch == e }

  ghost predicate Bars(head: seq<Rq>, lo: nat, hi: nat) {
    && (forall i :: 0 <= i < |head| && IsBar(head[i]) ==>
          lo <= head[i].epoch < hi && head[i].color == Odd(head[i].epoch) && !head[i].started)
    && (forall i, j :: 0 <= i < j < |head| && IsBar(head[i]) && IsBar(head[j]) ==> head[i].epoch < head[j].epoch)
    && (forall e: nat :: lo <= e < hi ==> HasBar(head, e))
  }

  function NextBarrier(q: Queue): nat { if Active(q) then q.ended + 1 else q.ended }

  ghost predicate Line(q: Queue) {
    && q.ordcolor == Odd(q.barriers)
    && NextBarrier(q) <= q.barriers
    && (Active(q) ==> q.orig.epoch == q.ended && q.orig.color == Odd(q.ended) && !q.orig.started)
    && (forall id :: id in q.driver ==> !IsBar(q.driver[id]))
    && Bars(q.head, NextBarrier(q), q.barriers)
  }

  /** The invariant of every mode. */
  ghost predicate Base(q: Queue) { Core(q, NO_GAP) && Line(q) && ValidMode(q.next) }

  const GOOD := Callers(false, false)

  lemma DriverIds(q: Queue)
    requires Base(q)
    ensures forall id :: id in q.driver ==> q.driver[id].id == id
  {
    hide Phases, WindowAt, History, ProperLog, Line, Kinds;
  }

  lemma StartedIsNoBar(q: Queue, i: nat)
    requires Line(q) && i < |q.head| && q.head[i].started
    ensures !IsBar(q.head[i])
  {}

  lemma BarsInsert(head: seq<Rq>, lo: nat, hi: nat, p: nat, r: Rq)
    requires Bars(head, lo, hi) && p <= |head| && !IsBar(r)
    ensures Bars(InsertAt(head, p, r), lo, hi)
  {
    var t := InsertAt(head, p, r);
    forall i | 0 <= i < |t| ensures t[i] == if i == p then r else head[if i < p then i else i - 1] {}
    forall e: nat | lo <= e < hi ensures HasBar(t, e) {
      assert HasBar(head, e);
      var i :| 0 <= i < |head| && IsBar(head[i]) && head[i].epoch == e;
      assert t[if i < p then i else i + 1] == head[i];
    }
  }

  lemma BarsRemove(head: seq<Rq>, lo: nat, hi: nat, i: nat)
    requires Bars(head, lo, hi) && i < |head| && !IsBar(head[i])
    ensures Bars(RemoveAt(head, i), lo, hi)
  {
    var t := RemoveAt(head, i);
    forall k | 0 <= k < |t| ensures t[k] == head[if k < i then k else k + 1] {}
    forall e: nat | lo <= e < hi ensures HasBar(t, e) {
      assert HasBar(head, e);
      var j :| 0 <= j < |head| && IsBar(head[j]) && head[j].epoch == e;
      assert t[if j < i then j else j - 1] == head[j];
    }
  }

  lemma BarsAppend(head: seq<Rq>, lo: nat, hi: nat, r: Rq)
    requires Bars(head, lo, hi) && lo <= hi && IsBar(r) && r.epoch == hi && r.color == Odd(hi) && !r.started
    ensures Bars(head + [r], lo, hi + 1)
  {
    var t := head + [r];
    assert t[|head|] == r;
    forall e: nat | lo <= e < hi + 1 ensures HasBar(t, e) {
      if e < hi {
        assert HasBar(head, e);
        var i :| 0 <= i < |head| && IsBar(head[i]) && head[i].epoch == e;
        assert t[i] == head[i];
      }
    }
  }

  lemma BarsPop(head: seq<Rq>, lo: nat, hi: nat)
    requires Bars(head, lo, hi) && head != [] && IsBar(head[0])
    ensures head[0].epoch == lo && Bars(head[1..], lo + 1, hi)
  {
    assert HasBar(head, lo);
    forall e: nat | lo + 1 <= e < hi ensures HasBar(head[1..], e) {
      assert HasBar(head, e);
      var i :| 0 <= i < |head| && IsBar(head[i]) && head[i].epoch == e;
      assert head[1..][i - 1] == head[i];
    }
  }

  lemma CompleteSeqLine(q: Queue, bits: OrdSeq, error: int)
    requires Line(q) && Active(q)
    ensures Line(CompleteSeq(q, bits, error).0) && CompleteSeq(q, bits, error).0.next == q.next
  {}

  lemma ElvCompletedLine(q: Queue, r: Rq)
    requires Line(q) && (q.ordseq == IDLE || Active(q))
    ensures Line(ElvCompleted(q, r)) && ElvCompleted(q, r).next == q.next
    ensures forall id :: 0 <= id < FIRST_ID && Active(q) && !Bit(q.ordseq, id) ==> Active(ElvCompleted(q, r))
  {
    var q1 := AccountDone(q, r);
    if ElvCompleted(q, r) != q1 {
      CompleteSeqLine(q1, DRAIN_BIT, 0);
    }
  }

  lemma CompleteLine(q: Queue, id: nat, error: int)
    requires Core(q, NO_GAP) && Line(q) && id in q.driver
    ensures Line(Complete(q, id, error)) && Complete(q, id, error).next == q.next
  {
    var r := q.driver[id];
    assert r.id == id;
    if IsProxy(r) {
      assert Active(q) && !Bit(q.ordseq, id);
      ProxyCompleteLine(q, id, error);
    } else {
      ElvCompletedLine(q.(driver := q.driver - {id}, log := q.log + [Completed(id)]), r);
    }
  }

  lemma ProxyCompleteLine(q: Queue, id: nat, error: int)
    requires id < FIRST_ID && id in q.driver && q.driver[id].id == id && Active(q) && !Bit(q.ordseq, id) && Line(q)
    ensures Line(Complete(q, id, error)) && Complete(q, id, error).next == q.next
  {
    var q1 := if id == BAR then BarError(q, error) else q;
    var q2 := q1.(driver := q.driver - {id});
    ElvCompletedLine(q2, q.driver[id]);
    assert Active(q2) && !Bit(q2.ordseq, id);
    var q3 := ElvCompleted(q2, q.driver[id]);
    CompleteSeqLine(q3.(log := q3.log + [PhaseDone(id, error)]), ProxyBit(id), error);
  }

  lemma AddBars(q: Queue, r: Rq, where: Where)
    requires Line(q) && !IsProxy(r) && !r.started && (where == Front ==> !r.fs) && (r.hard ==> r.fs)
    ensures Bars(Add(q, r, where).head, NextBarrier(q), if IsBarrier(r) then q.barriers + 1 else q.barriers)
  {
    var q' := Add(q, r, where);
    var r2 := r.(color := q.ordcolor, epoch := q.barriers, soft := true);
    if Point(r, where) == Sort {
    } else if IsBarrier(r) {
      BarsAppend(q.head, NextBarrier(q), q.barriers, r2);
    } else {
      AddedBars(q.head, q'.head, NextBarrier(q), q.barriers, r2);
    }
  }

  lemma AddFields(q: Queue, r: Rq, where: Where)
    ensures var q' := Add(q, r, where);
            q'.ordseq == q.ordseq && q'.orig == q.orig && q'.ended == q.ended && q'.driver == q.driver
            && q'.ordcolor == (if r.hard then !q.ordcolor else q.ordcolor)
            && q'.barriers == if IsBarrier(r) then q.barriers + 1 else q.barriers
  {}

  lemma AddLine(q: Queue, q': Queue, r: Rq, where: Where)
    requires Line(q) && !IsProxy(r) && !r.started && (r.hard ==> r.fs) && (where == Front ==> !r.fs) && q' == Add(q, r, where)
    ensures Line(q')
  {
    hide Bars, Add;
    AddBars(q, r, where);
    AddFields(q, r, where);
    assert Odd(q.barriers + 1) == !Odd(q.barriers);
  }

  lemma AddedBars(head: seq<Rq>, t: seq<Rq>, lo: nat, hi: nat, r: Rq)
    requires Bars(head, lo, hi) && !IsBar(r) && (t == [r] + head || t == head + [r])
    ensures Bars(t, lo, hi)
  {
    if t == [r] + head {
      BarsInsert(head, lo, hi, 0, r);
      assert t == InsertAt(head, 0, r);
    } else {
      BarsInsert(head, lo, hi, |head|, r);
      assert t == InsertAt(head, |head|, r);
    }
  }

  lemma PushLine(c: bool, r: Rq, head: seq<Rq>, lo: nat, hi: nat)
    requires Bars(head, lo, hi) && !IsBar(r)
    ensures Bars(Push(c, r, head), lo, hi)
  {
    if c {
      BarsInsert(head, lo, hi, 0, r);
      assert InsertAt(head, 0, r) == [r] + head;
    }
  }

  lemma StartingLine(q: Queue)
    requires Line(q) && q.head != [] && IsBar(q.head[0]) && !Active(q)
    ensures Line(Starting(q))
  {
    var q' := Starting(q);
    BarsPop(q.head, q.ended, q.barriers);
    var m, rest, lo, hi := q'.mode, q.head[1..], q.ended + 1, q.barriers;
    PushLine(m.postflush, FlushRq(q', POST_FLUSH), rest, lo, hi);
    var h1 := Push(m.postflush, FlushRq(q', POST_FLUSH), rest);
    PushLine(m.bar, BarRq(q'), h1, lo, hi);
    PushLine(m.preflush, FlushRq(q', PRE_FLUSH), Push(m.bar, BarRq(q'), h1), lo, hi);
  }

  lemma StartOrderedLine(q: Queue)
    requires Line(q) && q.head != [] && IsBar(q.head[0]) && q.ordseq == IDLE
    ensures Line(StartOrdered(q).0)
  {
    StartingLine(q);
    StartOrderedIs(q);
    CompleteSeqLine(Starting(q), Skipped(Starting(q)), 0);
  }

  // ----- fetching keeps the invariant of every mode -----

  lemma MarkBars(head: seq<Rq>, lo: nat, hi: nat)
    requires Bars(head, lo, hi) && head != [] && !IsBar(head[0])
    ensures Bars([head[0].(started := true)] + head[1..], lo, hi)
  {
    var t := RemoveAt(head, 0);
    BarsRemove(head, lo, hi, 0);
    AddedBars(t, [head[0].(started := true)] + t, lo, hi, head[0].(started := true));
    assert t == head[1..];
  }

  lemma MarkHeadKeeps(q: Queue, e: Event)
    requires Base(q) && q.head != [] && !IsBar(q.head[0]) && (e.Handed? || e.HandedProxy?)
    ensures Base(MarkHead(q, e))
  {
    MarkHeadCore(q, e);
    MarkBars(q.head, NextBarrier(q), q.barriers);
  }

  lemma RejectKeeps(q: Queue, q': Queue)
    requires Base(q) && q.head != [] && IsBar(q.head[0]) && !Active(q)
    requires q' == q.(head := q.head[1..], ended := q.ended + 1, log := q.log + [Rejected(q.head[0].id)])
    ensures Base(q')
  {
    RejectCore(q, q');
    BarsPop(q.head, q.ended, q.barriers);
  }

  lemma StartOrderedBase(q: Queue)
    requires Base(q) && q.head != [] && IsBar(q.head[0]) && !Active(q) && q.next != ORDERED_NONE
    ensures Base(StartOrdered(q).0)
  {
    StartOrderedKeeps(q);
    StartOrderedLine(q);
  }

  /** While no sequence runs, there are no proxies. */
  lemma HeadNoProxy(q: Queue)
    requires Core(q, NO_GAP) && !Active(q) && q.head != []
    ensures !IsProxy(q.head[0])
  {
    hide Sound, Window, History, ProperLog;
    HasAt(q.head, 0);
  }

  lemma WarnKeeps(q: Queue, w: bool)
    requires Base(q)
    ensures Base(q.(warn := w))
  {
    hide Places, Kinds, Accounted, Open, WindowAt, Live, ProperLog, Bars;
  }

  lemma DoOrderedKeeps(q: Queue)
    requires Base(q) && q.head != []
    ensures Base(DoOrdered(q).0)
  {
    hide Sound, Window, History, ProperLog, Open, Bars, StartOrdered;
    WarnKeeps(q, DoOrdered(q).0.warn);
    if !Active(q) { HeadNoProxy(q); }
    if !Active(q) && IsBarrier(q.head[0]) {
      if q.next != ORDERED_NONE {
        StartOrderedBase(q);
      } else {
        RejectKeeps(q, DoOrdered(q).0);
      }
    }
  }

  /** In a running sequence, a waiting barrier at the head has the other colour. */
  lemma HeadBarColor(q: Queue)
    requires Line(q) && Active(q) && q.head != [] && IsBar(q.head[0])
    ensures q.head[0].epoch == q.ended + 1 && q.head[0].color != q.orig.color
  {
    BarsPop(q.head, q.ended + 1, q.barriers);
  }

  lemma StartingHead(q: Queue)
    requires q.head != [] && (Starting(q).mode.preflush || Starting(q).mode.bar || Starting(q).mode.postflush)
    ensures Starting(q).head != [] && IsProxy(Starting(q).head[0]) && !Starting(q).head[0].started
  {}

  /** A waiting barrier is never handed to the driver as it is. */
  lemma GivenIsNoBarrier(q: Queue)
    requires Base(q) && q.head != [] && DoOrdered(q).1 && DoOrdered(q).2
    ensures var q1 := DoOrdered(q).0;
            q1.head != [] && !IsBar(q1.head[0])
            && if !Active(q) && IsBarrier(q.head[0]) then IsProxy(q1.head[0]) else q1.head == q.head
  {
    hide Sound, Window, History, ProperLog, Open, Line;
    if !Active(q) && IsBarrier(q.head[0]) {
      HeadNoProxy(q);
      StartOrderedIs(q);
      StartingHead(q);
    } else if Active(q) && IsBar(q.head[0]) {
      HeadBarColor(q);
    }
  }

  lemma FetchKeeps(q: Queue)
    requires Base(q) && q.head != []
    ensures Base(Fetch(q))
  {
    var (q1, more, given) := DoOrdered(q);
    DoOrderedKeeps(q);
    if more && given {
      GivenIsNoBarrier(q);
      MarkHeadKeeps(q1, HandedEvent(q1, q1.head[0]));
    }
  }

  lemma DispatchBase(q: Queue, i: nat, p: nat)
    requires Base(q) && i < |q.held| && p <= |q.head|
    ensures Base(Dispatch(q, i, p))
  {
    DispatchKeeps(q, i, p);
    BarsInsert(q.head, NextBarrier(q), q.barriers, p, q.held[i]);
  }

  lemma StartBase(q: Queue, i: nat)
    requires Base(q) && i < |q.head| && q.head[i].started
    ensures Base(Start(q, i))
  {
    StartKeeps(q, i);
    BarsRemove(q.head, NextBarrier(q), q.barriers, i);
  }

  lemma RequeueBase(q: Queue, id: nat)
    requires Base(q) && id in q.driver
    ensures Base(Requeue(q, id))
  {
    hide Core, Bars, ReqSeq, InsertAt;
    RequeueKeeps(q, id);
    var r := q.driver[id];
    var r1 := r.(started := false, soft := true);
    var q1 := AccountDone(q.(driver := q.driver - {id}), r);
    var p := if q.ordseq == IDLE then 0 else RequeuePoint(q1, ReqSeq(q1, r1), 0);
    BarsInsert(q.head, NextBarrier(q), q.barriers, p, r1);
  }

  lemma CompleteBase(q: Queue, id: nat, error: int)
    requires Base(q) && id in q.driver
    ensures Base(Complete(q, id, error))
  {
    CompleteKeeps(q, id, error);
    CompleteLine(q, id, error);
  }

  lemma AddBase(q: Queue, r: Rq, where: Where)
    requires Base(q) && Enabled(GOOD, q, LAdd(r, where))
    ensures Base(Add(q, r, where))
  {
    AddKeeps(q, r, where);
    AddLine(q, Add(q, r, where), r, where);
  }

  lemma BarErrorBase(q: Queue, error: int)
    requires Base(q)
    ensures Base(BarError(q, error))
  {
    BarErrorKeeps(q, error);
  }

  /** Every step keeps the invariant, in every mode. */
  lemma BaseStep(q: Queue, l: Label)
    requires Base(q) && Enabled(GOOD, q, l)
    ensures Base(Next(GOOD, q, l))
  {
    match l
    case LAdd(r, where) => AddBase(q, r, where);
    case LDispatch(i, p) => DispatchBase(q, i, p);
    case LFetch => FetchKeeps(q);
    case LStart(i) => StartBase(q, i);
    case LComplete(id, error) => CompleteBase(q, id, error);
    case LBarError(error) => BarErrorBase(q, error);
    case LRequeue(id) => RequeueBase(q, id);
  }

  lemma InitialBase(q: Queue)
    requires Initial(q)
    ensures Base(q)
  {
    InitialCore(q);
  }

  lemma {:induction false} RunBase(q: Queue, ls: seq<Label>, q': Queue)
    requires Base(q) && Run(GOOD, q, ls, q')
    ensures Base(q')
    decreases |ls|
  {
    if ls != [] {
      BaseStep(q, ls[0]);
      RunBase(Next(GOOD, q, ls[0]), ls[1..], q');
    }
  }
}
