/** What a barrier does on the device: which of its requests are handed out, and in which
    order, by the ordering mode the queue was given and the size of the barrier. */
module BarrierPhases {
  import opened Blkdev
  import opened Barrier
  import opened BarrierOnce

  // ----- what may stand in the log -----

  predicate HandedOut(log: seq<Event>, id: nat, orig: nat) { HandedProxy(id, orig) in log }

  /** The end of this proxy was reported in the sequence of barrier orig. */
  ghost predicate Reported(log: seq<Event>, id: nat, orig: nat) {
    exists s, k :: 0 <= s < k < |log| && log[s].SeqStart? && log[s].orig == orig && log[k].PhaseDone? && log[k].id == id
                   && forall j :: s < j <= k ==> !Boundary(log[j])
  }

  /** The proxy went out first; with a queue that drains it has ended, too. */
  ghost predicate WentBefore(next: Mode, log: seq<Event>, id: nat, orig: nat) {
    HandedOut(log, id, orig) && (next.drain ==> Reported(log, id, orig))
  }

  /** The mode of a sequence for a barrier of nsect sectors on a queue of mode `next`. */
  predicate ModeFits(next: Mode, nsect: nat, m: Mode) {
    && m.preflush == next.preflush && m.fua == next.fua
    && m.bar == (next.bar && nsect != 0) && m.postflush == (next.postflush && nsect != 0)
    && m.drain == (next.drain || (nsect == 0 && next.tag && !next.preflush))
    && m.tag == (next.tag && (nsect != 0 || next.preflush))
  }

  /** orig is a barrier that was added. */
  ghost predicate WasAdded(log: seq<Event>, orig: nat) { exists r: Rq :: Added(r) in log && r.id == orig && IsBarrier(r) }

  /** e may follow log on a queue of mode `next`. */
  ghost predicate PhaseEvent(next: Mode, log: seq<Event>, e: Event) {
    match e
    case SeqStart(orig, mode) =>
      next != ORDERED_NONE && WasAdded(log, orig)
      && forall r: Rq :: Added(r) in log && r.id == orig ==> ModeFits(next, r.nsect, mode)
    case HandedProxy(id, orig) =>
      WasAdded(log, orig)
      && forall r: Rq :: Added(r) in log && r.id == orig ==>
        && (id == PRE_FLUSH ==> next.preflush)
        && (id == BAR ==> r.nsect != 0 && (next.preflush ==> WentBefore(next, log, PRE_FLUSH, orig)))
        && (id == POST_FLUSH ==> r.nsect != 0 && next.postflush && WentBefore(next, log, BAR, orig))
    case Ended(orig, err) =>
      WasAdded(log, orig)
      && forall r: Rq :: Added(r) in log && r.id == orig ==>
        && (HandedOut(log, PRE_FLUSH, orig) <==> next.preflush)
        && (HandedOut(log, BAR, orig) <==> r.nsect != 0)
        && (HandedOut(log, POST_FLUSH, orig) <==> next.postflush && r.nsect != 0)
        && forall id: nat :: id < FIRST_ID && HandedOut(log, id, orig) ==> Reported(log, id, orig)
    case Rejected(orig) => next == ORDERED_NONE
    case _ => true
  }

  ghost predicate PhaseLog(next: Mode, log: seq<Event>) { forall h :: 0 <= h < |log| ==> PhaseEvent(next, log[..h], log[h]) }

  lemma PhaseLogAppend(next: Mode, log: seq<Event>, e: Event)
    requires PhaseLog(next, log) && PhaseEvent(next, log, e)
    ensures PhaseLog(next, log + [e])
  {
    hide PhaseEvent;
    var l := log + [e];
    forall h | 0 <= h < |l| ensures PhaseEvent(next, l[..h], l[h]) {
      assert l[..h] == log[..h];
      if h == |log| { assert log[..h] == log; }
    }
  }

  // ----- the invariant -----

  predicate SameRq(x: Rq, r: Rq) {
    x.id == r.id && x.fs == r.fs && x.hard == r.hard && x.write == r.write && x.sector == r.sector && x.nsect == r.nsect
  }

  /** x is the request that was added under its number. */
  ghost predicate KnownAs(log: seq<Event>, x: Rq) { forall r: Rq :: Added(r) in log && r.id == x.id ==> SameRq(x, r) }

  ghost predicate Known(log: seq<Event>, head: seq<Rq>, held: seq<Rq>, driver: map<nat, Rq>) {
    && (forall x: Rq :: x in head && !IsProxy(x) ==> KnownAs(log, x))
    && (forall x: Rq :: x in held ==> KnownAs(log, x) && x.elvpriv)
    && (forall id: nat :: id in driver && id >= FIRST_ID ==> KnownAs(log, driver[id]))
  }

  /** What the log of a running sequence says: only proxies the mode asks for are handed out,
      none before those of earlier phases, and what was reported was handed out. */
  ghost predicate Ordered(w: seq<Event>, orig: nat, m: Mode) {
    && (forall id: nat, o: nat :: HandedProxy(id, o) in w ==> o == orig && id < FIRST_ID && HasPhase(m, id))
    && (forall a: nat, b: nat :: b < a < FIRST_ID && HandedOut(w, a, orig) && HasPhase(m, b) ==> HandedOut(w, b, orig))
    && (forall id: nat :: id < FIRST_ID && Done(w, id) ==> HandedOut(w, id, orig))
  }

  /** Proxies that the driver has seen were handed out; the others are in order. */
  ghost predicate Stacked(head: seq<Rq>, driver: map<nat, Rq>, w: seq<Event>, orig: nat) {
    && (forall x: Rq :: x in head && IsProxy(x) && x.started ==> HandedOut(w, x.id, orig))
    && (forall id: nat :: id in driver && id < FIRST_ID ==> HandedOut(w, id, orig))
    && (forall i, j :: 0 <= i < j < |head| && IsProxy(head[i]) && IsProxy(head[j]) && head[j].id < head[i].id ==>
          HandedOut(w, head[j].id, orig))
  }

  predicate Carries(x: Rq, orig: Rq) {
    x.id == BAR ==> x.write == orig.write && x.sector == orig.sector && x.nsect == orig.nsect
  }

  /** The proxy of the barrier carries its data. */
  ghost predicate Carried(head: seq<Rq>, driver: map<nat, Rq>, orig: Rq) {
    (forall x: Rq :: x in head ==> Carries(x, orig)) && (forall id: nat :: id in driver ==> Carries(driver[id], orig))
  }

  /** The sequence of barrier orig started here and has not ended. */
  ghost predicate Begun(log: seq<Event>, at: nat, orig: nat, m: Mode) {
    at < |log| && log[at] == SeqStart(orig, m) && forall k :: at < k < |log| ==> !Boundary(log[k])
  }

  ghost predicate InSequence(next: Mode, q: Queue) {
    && next.bar && q.seqAt < |q.log| && Begun(q.log, q.seqAt, q.orig.id, q.mode)
    && WasAdded(q.log, q.orig.id) && KnownAs(q.log, q.orig) && ModeFits(next, q.orig.nsect, q.mode)
    && Ordered(q.log[q.seqAt..], q.orig.id, q.mode)
    && Stacked(q.head, q.driver, q.log[q.seqAt..], q.orig.id)
    && Carried(q.head, q.driver, q.orig)
  }

  ghost predicate FinishedIn(log: seq<Event>, orig: nat) {
    exists h :: 0 <= h < |log| && Finish(log[h]) && log[h].orig == orig
  }

  /** Proxies of barriers other than the running one belong to sequences that are over. */
  ghost predicate Closed(q: Queue) {
    forall h :: 0 <= h < |q.log| && q.log[h].HandedProxy? ==> FinishedIn(q.log, q.log[h].orig) || (Active(q) && q.seqAt <= h)
  }

  ghost predicate Phased(next: Mode, q: Queue) {
    && q.next == next && PhaseLog(next, q.log) && Closed(q) && Known(q.log, q.head, q.held, q.driver)
    && (Active(q) ==> InSequence(next, q))
  }

  // ----- events -----

  lemma InLog(log: seq<Event>, e: Event)
    ensures forall x: Event :: x in log + [e] <==> x in log || x == e
  {}

  lemma StillAdded(log: seq<Event>, e: Event, orig: nat)
    ensures WasAdded(log, orig) ==> WasAdded(log + [e], orig)
  {
    InLog(log, e);
  }

  /** What is queued was added, as the barrier it is. */
  lemma QueuedWasAdded(q: Queue, r: Rq)
    requires Core(q, NO_GAP) && KnownAs(q.log, r) && r in q.head && IsBarrier(r) && !IsProxy(r)
    ensures WasAdded(q.log, r.id)
  {
    InHas(q.head, r);
    NotFresh(q, r.id);
    hide Core;
    var e :| e in q.log && e.Added? && e.r.id == r.id;
    assert e == Added(e.r) && SameRq(r, e.r);
  }

  lemma NotFresh(q: Queue, id: nat)
    requires Core(q, NO_GAP) && Has(q.head, id) && id >= FIRST_ID
    ensures !Fresh(q.log, id)
  {
    hide Sound, Phases, Window, ProperLog, Fresh;
  }

  lemma StillFinished(log: seq<Event>, e: Event, orig: nat)
    ensures FinishedIn(log, orig) ==> FinishedIn(log + [e], orig)
  {
    if FinishedIn(log, orig) {
      var h :| 0 <= h < |log| && Finish(log[h]) && log[h].orig == orig;
      assert (log + [e])[h] == log[h];
    }
  }

  lemma ClosedAppend(q: Queue, q': Queue, e: Event)
    requires Closed(q) && q'.log == q.log + [e] && q'.seqAt == q.seqAt && Active(q') == Active(q)
    requires e.HandedProxy? ==> Active(q) && q.seqAt <= |q.log|
    ensures Closed(q')
  {
    hide FinishedIn;
    forall h | 0 <= h < |q'.log| && q'.log[h].HandedProxy?
      ensures FinishedIn(q'.log, q'.log[h].orig) || (Active(q') && q'.seqAt <= h)
    {
      if h < |q.log| { StillFinished(q.log, e, q.log[h].orig); }
    }
  }

  lemma KnownAppend(log: seq<Event>, e: Event, x: Rq)
    requires KnownAs(log, x) && (e.Added? ==> e.r.id != x.id)
    ensures KnownAs(log + [e], x)
  {}

  lemma DoneAppend(w: seq<Event>, e: Event, id: nat)
    ensures Done(w + [e], id) <==> Done(w, id) || (e.PhaseDone? && e.id == id)
  {
    var v := w + [e];
    if Done(w, id) {
      var k :| 0 <= k < |w| && w[k].PhaseDone? && w[k].id == id;
      assert v[k] == w[k];
    }
    assert v[|w|] == e;
  }

  /** An event inside the sequence: a proxy is handed out only after those of earlier
      phases, and reports only when it was handed out. */
  lemma OrderedAppend(w: seq<Event>, e: Event, orig: nat, m: Mode)
    requires Ordered(w, orig, m)
    requires e.HandedProxy? ==> e.orig == orig && e.id < FIRST_ID && HasPhase(m, e.id)
                                && forall b: nat :: b < e.id && HasPhase(m, b) ==> HandedOut(w, b, orig)
    requires e.PhaseDone? && e.id < FIRST_ID ==> HandedOut(w, e.id, orig)
    ensures Ordered(w + [e], orig, m)
  {
    hide Done;
    InLog(w, e);
    forall id: nat ensures Done(w + [e], id) <==> Done(w, id) || (e.PhaseDone? && e.id == id) { DoneAppend(w, e, id); }
    var v := w + [e];
    forall a: nat, b: nat | b < a < FIRST_ID && HandedOut(v, a, orig) && HasPhase(m, b) ensures HandedOut(v, b, orig) {
      if HandedOut(w, a, orig) { assert HandedOut(w, b, orig); } else { assert e == HandedProxy(a, orig); }
    }
  }

  lemma StackedAppend(head: seq<Rq>, driver: map<nat, Rq>, w: seq<Event>, e: Event, orig: nat)
    requires Stacked(head, driver, w, orig)
    ensures Stacked(head, driver, w + [e], orig)
  {
    InLog(w, e);
  }

  lemma WindowAppend(log: seq<Event>, at: nat, e: Event)
    requires at <= |log|
    ensures (log + [e])[at..] == log[at..] + [e]
  {}

  lemma BegunAppend(log: seq<Event>, at: nat, orig: nat, m: Mode, e: Event)
    requires Begun(log, at, orig, m)
    ensures at < |log| && (!Boundary(e) ==> Begun(log + [e], at, orig, m))
  {}

  /** An event that neither adds a request nor opens or closes a sequence. */
  lemma InnerPhased(next: Mode, q: Queue, q': Queue, e: Event)
    requires Phased(next, q) && q'.log == q.log + [e] && !Boundary(e) && !e.Added? && PhaseEvent(next, q.log, e)
    requires q'.next == q.next && q'.head == q.head && q'.held == q.held && q'.driver == q.driver && q'.seqAt == q.seqAt
    requires Active(q') == Active(q) && q'.mode == q.mode && q'.orig == q.orig
    requires e.HandedProxy? ==>
      Active(q) && e.orig == q.orig.id && e.id < FIRST_ID && HasPhase(q.mode, e.id)
      && forall b: nat :: b < e.id && HasPhase(q.mode, b) ==> HandedOut(q.log[q.seqAt..], b, q.orig.id)
    requires e.PhaseDone? && e.id < FIRST_ID ==> Active(q) && HandedOut(q.log[q.seqAt..], e.id, q.orig.id)
    ensures Phased(next, q')
  {
    hide PhaseEvent, PhaseLog, Ordered, Stacked, Carried, KnownAs, HandedOut, FinishedIn, Begun, WasAdded;
    PhaseLogAppend(next, q.log, e);
    ClosedAppend(q, q', e);
    KnownAll(q.log, q'.log, q.head, q.held, q.driver, e);
    if Active(q) {
      var w := q.log[q.seqAt..];
      WindowAppend(q.log, q.seqAt, e);
      BegunAppend(q.log, q.seqAt, q.orig.id, q.mode, e);
      StillAdded(q.log, e, q.orig.id);
      KnownAppend(q.log, e, q.orig);
      OrderedAppend(w, e, q.orig.id, q.mode);
      StackedAppend(q.head, q.driver, w, e, q.orig.id);
    }
  }

  lemma KnownAll(log: seq<Event>, log': seq<Event>, head: seq<Rq>, held: seq<Rq>, driver: map<nat, Rq>, e: Event)
    requires Known(log, head, held, driver) && log' == log + [e] && !e.Added?
    ensures Known(log', head, held, driver)
  {
    hide KnownAs, WasAdded;
    forall x: Rq | KnownAs(log, x) ensures KnownAs(log', x) { KnownAppend(log, e, x); }
  }

  // ----- requests that move -----

  lemma KnownFewer(log: seq<Event>, head: seq<Rq>, held: seq<Rq>, driver: map<nat, Rq>,
                   head': seq<Rq>, held': seq<Rq>, driver': map<nat, Rq>)
    requires Known(log, head, held, driver)
    requires forall x: Rq :: x in head' && !IsProxy(x) ==> KnownAs(log, x)
    requires forall x: Rq :: x in held' ==> x in held
    requires forall id: nat :: id in driver' && id >= FIRST_ID ==> KnownAs(log, driver'[id])
    ensures Known(log, head', held', driver')
  {
    hide KnownAs, WasAdded;
  }

  lemma InRemoved(s: seq<Rq>, i: nat)
    requires i < |s|
    ensures forall x: Rq :: x in RemoveAt(s, i) ==> x in s
  {}

  lemma InInserted(s: seq<Rq>, p: nat, r: Rq)
    requires p <= |s|
    ensures forall x: Rq :: x in InsertAt(s, p, r) ==> x in s || x == r
  {}

  lemma StackedRemove(head: seq<Rq>, driver: map<nat, Rq>, w: seq<Event>, orig: nat, i: nat)
    requires Stacked(head, driver, w, orig) && i < |head|
    ensures Stacked(RemoveAt(head, i), driver, w, orig)
  {
    hide HandedOut;
    InRemoved(head, i);
    var t := RemoveAt(head, i);
    forall k | 0 <= k < |t| ensures t[k] == head[if k < i then k else k + 1] {}
  }

  /** A request enters the queue: a proxy only when it was handed out, and with it those of
      earlier phases. */
  lemma StackedInsert(head: seq<Rq>, driver: map<nat, Rq>, w: seq<Event>, orig: nat, p: nat, r: Rq)
    requires Stacked(head, driver, w, orig) && p <= |head|
    requires IsProxy(r) ==> HandedOut(w, r.id, orig)
    requires IsProxy(r) ==> forall x: Rq :: x in head && IsProxy(x) && x.id < r.id ==> HandedOut(w, x.id, orig)
    ensures Stacked(InsertAt(head, p, r), driver, w, orig)
  {
    hide HandedOut;
    InInserted(head, p, r);
    var t := InsertAt(head, p, r);
    forall k | 0 <= k < |t| ensures t[k] == if k == p then r else head[if k < p then k else k - 1] {}
    forall i, j | 0 <= i < j < |t| && IsProxy(t[i]) && IsProxy(t[j]) && t[j].id < t[i].id ensures HandedOut(w, t[j].id, orig) {
      if i == p { assert t[j] in head; }
    }
  }

  lemma StackedDriver(head: seq<Rq>, driver: map<nat, Rq>, driver': map<nat, Rq>, w: seq<Event>, orig: nat)
    requires Stacked(head, driver, w, orig)
    requires forall id: nat :: id in driver' && id < FIRST_ID ==> id in driver || HandedOut(w, id, orig)
    ensures Stacked(head, driver', w, orig)
  {
    hide HandedOut;
  }

  /** Requests that have moved, while the log and the sequence are the same. */
  lemma MovedPhased(next: Mode, q: Queue, q': Queue)
    requires Phased(next, q) && q'.log == q.log && q'.seqAt == q.seqAt && q'.orig == q.orig && q'.mode == q.mode
    requires q'.next == q.next && Active(q') == Active(q) && Known(q'.log, q'.head, q'.held, q'.driver)
    requires Active(q) ==> Stacked(q'.head, q'.driver, q.log[q.seqAt..], q.orig.id) && Carried(q'.head, q'.driver, q.orig)
    ensures Phased(next, q')
  {
    hide PhaseLog, Ordered, Stacked, Carried, KnownAs, WasAdded, Known, Begun, FinishedIn;
  }

  lemma CarriedFewer(head: seq<Rq>, driver: map<nat, Rq>, head': seq<Rq>, driver': map<nat, Rq>, orig: Rq)
    requires Carried(head, driver, orig)
    requires forall x: Rq :: x in head' ==> Carries(x, orig)
    requires forall id: nat :: id in driver' ==> Carries(driver'[id], orig)
    ensures Carried(head', driver', orig)
  {}

  lemma HeadInserted(next: Mode, q: Queue, q': Queue, p: nat, r: Rq)
    requires Phased(next, q) && p <= |q.head| && q' == q.(head := InsertAt(q.head, p, r)) && !IsProxy(r) && KnownAs(q.log, r)
    ensures Phased(next, q')
  {
    hide Stacked, KnownAs, WasAdded, PhaseLog, Closed, Ordered, Begun, InsertAt;
    InInserted(q.head, p, r);
    KnownFewer(q.log, q.head, q.held, q.driver, q'.head, q.held, q.driver);
    if Active(q) {
      StackedInsert(q.head, q.driver, q.log[q.seqAt..], q.orig.id, p, r);
      CarriedFewer(q.head, q.driver, q'.head, q.driver, q.orig);
    }
    MovedPhased(next, q, q');
  }

  lemma HeldKnown(q: Queue, i: nat)
    requires Known(q.log, q.head, q.held, q.driver) && i < |q.held|
    ensures KnownAs(q.log, q.held[i])
  {
    hide KnownAs, WasAdded;
    assert q.held[i] in q.held;
  }

  lemma DispatchPhased(next: Mode, q: Queue, i: nat, p: nat)
    requires Core(q, NO_GAP) && Phased(next, q) && i < |q.held| && p <= |q.head|
    ensures Phased(next, Dispatch(q, i, p))
  {
    LeaveHeld(q, q.(held := RemoveAt(q.held, i)), i);
    hide Core, Stacked, KnownAs, WasAdded, PhaseLog, Closed, Ordered, Begun, InsertAt, RemoveAt, Carried;
    var q1 := q.(held := RemoveAt(q.held, i));
    InRemoved(q.held, i);
    RemoveAtIs(q.held, i);
    HeldKnown(q, i);
    KnownFewer(q.log, q.head, q.held, q.driver, q.head, q1.held, q.driver);
    MovedPhased(next, q, q1);
    HeadInserted(next, q1, Dispatch(q, i, p), p, q.held[i]);
  }

  lemma HeadFacts(next: Mode, q: Queue, i: nat)
    requires Phased(next, q) && i < |q.head|
    ensures !IsProxy(q.head[i]) ==> KnownAs(q.log, q.head[i])
    ensures Active(q) ==> Carries(q.head[i], q.orig)
    ensures Active(q) && IsProxy(q.head[i]) && q.head[i].started ==> HandedOut(q.log[q.seqAt..], q.head[i].id, q.orig.id)
  {
    hide KnownAs, WasAdded, PhaseLog, Closed, Ordered, Begun, HandedOut, Carries;
    assert q.head[i] in q.head;
  }

  lemma HeadProxyActive(q: Queue, i: nat)
    requires Core(q, NO_GAP) && i < |q.head| && IsProxy(q.head[i])
    ensures Active(q)
  {
    hide Sound, Window, History, ProperLog;
    HasAt(q.head, i);
  }

  lemma StartPhased(next: Mode, q: Queue, i: nat)
    requires Core(q, NO_GAP) && Phased(next, q) && i < |q.head| && q.head[i].started
    ensures Phased(next, Start(q, i))
  {
    if IsProxy(q.head[i]) { HeadProxyActive(q, i); }
    RemoveAtIs(q.head, i);
    hide Core, KnownAs, WasAdded, PhaseLog, Closed, Ordered, Begun, RemoveAt, HandedOut, Carries;
    var q', r := Start(q, i), q.head[i];
    HeadFacts(next, q, i);
    InRemoved(q.head, i);
    KnownFewer(q.log, q.head, q.held, q.driver, q'.head, q.held, q'.driver);
    if Active(q) { StartStacked(next, q, i); }
    hide Phased, Known, Stacked, Carried;
    MovedPhased(next, q, q');
  }

  lemma StartStacked(next: Mode, q: Queue, i: nat)
    requires Active(q) && InSequence(next, q) && i < |q.head|
    requires IsProxy(q.head[i]) ==> HandedOut(q.log[q.seqAt..], q.head[i].id, q.orig.id)
    ensures var driver := q.driver[q.head[i].id := q.head[i]];
      Stacked(RemoveAt(q.head, i), driver, q.log[q.seqAt..], q.orig.id) && Carried(RemoveAt(q.head, i), driver, q.orig)
  {
    InRemoved(q.head, i);
    StackedRemove(q.head, q.driver, q.log[q.seqAt..], q.orig.id, i);
    hide RemoveAt, HandedOut, Carries, KnownAs, WasAdded, Ordered, Begun;
    assert q.head[i] in q.head;
    var driver := q.driver[q.head[i].id := q.head[i]];
    StackedDriver(RemoveAt(q.head, i), q.driver, driver, q.log[q.seqAt..], q.orig.id);
    CarriedFewer(q.head, q.driver, RemoveAt(q.head, i), driver, q.orig);
  }

  lemma DriverFacts(next: Mode, q: Queue, id: nat)
    requires Core(q, NO_GAP) && Phased(next, q) && id in q.driver
    ensures q.driver[id].id == id && (id >= FIRST_ID ==> KnownAs(q.log, q.driver[id]))
    ensures id < FIRST_ID ==>
      Active(q) && q.seqAt <= |q.log| && HandedOut(q.log[q.seqAt..], id, q.orig.id) && HasPhase(q.mode, id)
    ensures Active(q) ==> Carries(q.driver[id], q.orig)
  {
    hide KnownAs, WasAdded, PhaseLog, Closed, Ordered, Begun, HandedOut, Carries;
    hide Kinds, Accounted, OneSequence, ErrorOf, Done, History, ProperLog, Has;
  }

  lemma LeavePhased(next: Mode, q: Queue, q': Queue, id: nat)
    requires Phased(next, q) && id in q.driver && q' == q.(driver := q.driver - {id}, inFlight := q'.inFlight)
    ensures Phased(next, q')
  {
    hide KnownAs, WasAdded, PhaseLog, Closed, Ordered, Begun, HandedOut, Carries;
    KnownFewer(q.log, q.head, q.held, q.driver, q.head, q.held, q'.driver);
    if Active(q) { StackedDriver(q.head, q.driver, q'.driver, q.log[q.seqAt..], q.orig.id); }
    MovedPhased(next, q, q');
  }

  /** A proxy that is queued has its phase. */
  lemma QueuedHasPhase(q: Queue, i: nat)
    requires Core(q, NO_GAP) && i < |q.head| && IsProxy(q.head[i])
    ensures Active(q) && HasPhase(q.mode, q.head[i].id) && !Bit(q.ordseq, q.head[i].id)
  {
    hide Sound, History, ProperLog, OneSequence, ErrorOf, Done;
    HasAt(q.head, i);
  }

  lemma RequeuePhased(next: Mode, q: Queue, id: nat)
    requires Core(q, NO_GAP) && Phased(next, q) && id in q.driver
    ensures Phased(next, Requeue(q, id))
  {
    DriverFacts(next, q, id);
    var r := q.driver[id];
    var r1 := r.(started := false, soft := true);
    var q1 := AccountDone(q.(driver := q.driver - {id}), r);
    var p := if q.ordseq == IDLE then 0 else RequeuePoint(q1, ReqSeq(q1, r1), 0);
    LeavePhased(next, q, q1, id);
    if Active(q) { RequeueStacked(next, q, id, p); }
    hide Core, KnownAs, WasAdded, InsertAt, RequeuePoint, HasPhase, HandedOut, ReqSeq, InSequence, Closed, PhaseLog;
    var q' := Requeue(q, id);
    InInserted(q.head, p, r1);
    if id >= FIRST_ID { SameKnown(q.log, r, r1); }
    KnownFewer(q.log, q1.head, q1.held, q1.driver, q'.head, q'.held, q'.driver);
    hide Phased, Known, Stacked, Carried;
    MovedPhased(next, q1, q');
  }

  lemma QueuedPhases(q: Queue)
    requires Core(q, NO_GAP)
    ensures forall x: Rq :: x in q.head && IsProxy(x) ==> HasPhase(q.mode, x.id)
  {
    hide Core, HasPhase, Bit;
    forall x: Rq | x in q.head && IsProxy(x) ensures HasPhase(q.mode, x.id) {
      var i :| 0 <= i < |q.head| && q.head[i] == x;
      QueuedHasPhase(q, i);
    }
  }

  lemma RequeueStacked(next: Mode, q: Queue, id: nat, p: nat)
    requires Core(q, NO_GAP) && Phased(next, q) && id in q.driver && Active(q) && p <= |q.head|
    ensures q.seqAt <= |q.log|
    ensures var head := InsertAt(q.head, p, q.driver[id].(started := false, soft := true));
      Stacked(head, q.driver - {id}, q.log[q.seqAt..], q.orig.id) && Carried(head, q.driver - {id}, q.orig)
  {
    hide Core, KnownAs, WasAdded, PhaseLog, Closed, Begun, InsertAt, HasPhase, HandedOut, Known, Ordered, ModeFits;
    DriverFacts(next, q, id);
    QueuedPhases(q);
    var r1 := q.driver[id].(started := false, soft := true);
    var w := q.log[q.seqAt..];
    InInserted(q.head, p, r1);
    if id < FIRST_ID { LowerOut(q.head, w, q.orig.id, q.mode, id); }
    StackedDriver(q.head, q.driver, q.driver - {id}, w, q.orig.id);
    StackedInsert(q.head, q.driver - {id}, w, q.orig.id, p, r1);
    CarriedFewer(q.head, q.driver, InsertAt(q.head, p, r1), q.driver - {id}, q.orig);
  }

  lemma SameKnown(log: seq<Event>, r: Rq, r1: Rq)
    requires KnownAs(log, r) && r1 == r.(started := r1.started, soft := r1.soft)
    ensures KnownAs(log, r1)
  {}

  lemma LowerOut(head: seq<Rq>, w: seq<Event>, orig: nat, m: Mode, id: nat)
    requires Ordered(w, orig, m) && id < FIRST_ID && HandedOut(w, id, orig)
    requires forall x: Rq :: x in head && IsProxy(x) ==> HasPhase(m, x.id)
    ensures forall x: Rq :: x in head && IsProxy(x) && x.id < id ==> HandedOut(w, x.id, orig)
  {
    hide HandedOut, HasPhase;
  }

  // ----- a request is added -----

  lemma KnownAdd(q: Queue, r: Rq)
    requires Core(q, NO_GAP) && Known(q.log, q.head, q.held, q.driver) && r.id >= FIRST_ID && Fresh(q.log, r.id)
    ensures Known(q.log + [Added(r)], q.head, q.held, q.driver)
    ensures KnownAs(q.log + [Added(r)], r) && KnownAs(q.log + [Added(r)], r.(soft := true))
  {
    FreshNotLive(q, r.id);
    DriverSelf(q);
    hide Core;
    var log := q.log + [Added(r)];
    InLog(q.log, Added(r));
    forall x: Rq | x in q.head || x in q.held ensures x.id != r.id { InHas(q.head, x); InHas(q.held, x); }
    forall x: Rq | KnownAs(q.log, x) && x.id != r.id ensures KnownAs(log, x) { KnownAppend(q.log, Added(r), x); }
  }

  lemma DriverSelf(q: Queue)
    requires Core(q, NO_GAP)
    ensures forall id :: id in q.driver ==> q.driver[id].id == id
  {
    hide Phases, Window, History, ProperLog, Kinds;
  }

  lemma InHas(s: seq<Rq>, x: Rq)
    ensures x in s ==> Has(s, x.id)
  {
    if x in s {
      var i :| 0 <= i < |s| && s[i] == x;
      HasAt(s, i);
    }
  }

  lemma RecordPhased(next: Mode, q: Queue, q': Queue, r: Rq)
    requires Core(q, NO_GAP) && Phased(next, q) && r.id >= FIRST_ID && Fresh(q.log, r.id)
    requires q' == q.(log := q.log + [Added(r)], ordcolor := q'.ordcolor, barriers := q'.barriers)
    ensures Phased(next, q')
  {
    FreshNotLive(q, r.id);
    KnownAdd(q, r);
    hide Core, Fresh, PhaseLog, Known, Ordered, Stacked, Carried, Begun, KnownAs, FinishedIn, WasAdded;
    var e := Added(r);
    PhaseLogAppend(next, q.log, e);
    ClosedAppend(q, q', e);
    if Active(q) {
      WindowAppend(q.log, q.seqAt, e);
      BegunAppend(q.log, q.seqAt, q.orig.id, q.mode, e);
      StillAdded(q.log, e, q.orig.id);
      KnownAppend(q.log, e, q.orig);
      OrderedAppend(q.log[q.seqAt..], e, q.orig.id, q.mode);
      StackedAppend(q.head, q.driver, q.log[q.seqAt..], e, q.orig.id);
    }
  }

  lemma AddPhased(c: Callers, next: Mode, q: Queue, r: Rq, where: Where)
    requires Core(q, NO_GAP) && Phased(next, q) && Enabled(c, q, LAdd(r, where))
    ensures Phased(next, Add(q, r, where))
  {
    var r1 := r.(color := q.ordcolor, epoch := q.barriers);
    var q1 := q.(ordcolor := if r.hard then !q.ordcolor else q.ordcolor,
                 barriers := if IsBarrier(r) then q.barriers + 1 else q.barriers, log := q.log + [Added(r1)]);
    RecordPhased(next, q, q1, r1);
    KnownAdd(q, r1);
    hide Core, Phased, KnownAs, WasAdded, Known, Fresh, SameRq;
    PlacedPhased(next, q1, Add(q, r, where), r1, Point(r, where));
  }

  lemma PlacedPhased(next: Mode, q: Queue, q': Queue, r: Rq, point: Where)
    requires Phased(next, q) && KnownAs(q.log, r) && KnownAs(q.log, r.(soft := true)) && !IsProxy(r)
    requires point == Sort ==> r.elvpriv && q' == q.(held := q.held + [r])
    requires point == Back ==> q' == q.(head := q.head + [r.(soft := true)])
    requires point == Front ==> q' == q.(head := [r.(soft := true)] + q.head)
    ensures Phased(next, q')
  {
    hide Phased, KnownAs, WasAdded, InsertAt;
    InsertEnds(q.head, r.(soft := true));
    match point
    case Sort => HeldAppended(next, q, q', r);
    case Back => HeadInserted(next, q, q', |q.head|, r.(soft := true));
    case Front => HeadInserted(next, q, q', 0, r.(soft := true));
  }

  lemma InsertEnds(s: seq<Rq>, r: Rq)
    ensures s + [r] == InsertAt(s, |s|, r) && [r] + s == InsertAt(s, 0, r)
  {}

  lemma HeldAppended(next: Mode, q: Queue, q': Queue, r: Rq)
    requires Phased(next, q) && q' == q.(held := q.held + [r]) && KnownAs(q.log, r) && r.elvpriv
    ensures Phased(next, q')
  {
    hide PhaseLog, Ordered, Stacked, Carried, Begun, KnownAs, WasAdded, FinishedIn, Closed;
    MovedPhased(next, q, q');
  }

  // ----- the end of a sequence -----

  /** The log says that the sequence which is over is the one that was running. */
  lemma WholeWindow(log: seq<Event>, at: nat, orig: nat, m: Mode, err: int)
    requires Begun(log, at, orig, m) && ProperLog(log + [Ended(orig, err)])
    ensures !FinishedIn(log, orig)
    ensures forall id: nat :: id < FIRST_ID ==> (Done(log[at..], id) <==> HasPhase(m, id))
  {
    hide Done, ErrorOf;
    var log', h := log + [Ended(orig, err)], |log|;
    assert log'[h] == Ended(orig, err);
    var s :| 0 <= s < h && WholeSequence(log'[s..h], orig, err);
    assert log'[s..h] == log[s..];
    SameStart(log, at, s, orig, m);
    forall k | 0 <= k < |log| && Finish(log[k]) ensures log[k].orig != orig { assert log'[k] == log[k]; }
  }

  lemma SameStart(log: seq<Event>, at: nat, s: nat, orig: nat, m: Mode)
    requires Begun(log, at, orig, m) && s < |log| && OneSequence(log[s..], orig)
    ensures s == at && log[s..][0].mode == m
  {
    assert log[s..][0] == log[s];
    NoneBehind(log, s, orig);
  }

  lemma NoneBehind(log: seq<Event>, s: nat, orig: nat)
    requires s < |log| && OneSequence(log[s..], orig)
    ensures forall k :: s < k < |log| ==> !Boundary(log[k])
  {
    forall k | s < k < |log| ensures !Boundary(log[k]) { assert log[s..][k - s] == log[k]; }
  }

  lemma HandedIsHere(q: Queue, id: nat)
    requires Closed(q) && Active(q) && q.seqAt <= |q.log| && !FinishedIn(q.log, q.orig.id)
    ensures HandedOut(q.log, id, q.orig.id) <==> HandedOut(q.log[q.seqAt..], id, q.orig.id)
  {
    hide FinishedIn;
    var w := q.log[q.seqAt..];
    if HandedOut(q.log, id, q.orig.id) {
      var h :| 0 <= h < |q.log| && q.log[h] == HandedProxy(id, q.orig.id);
      assert w[h - q.seqAt] == q.log[h];
    }
  }

  lemma DoneIsReported(log: seq<Event>, at: nat, orig: nat, m: Mode, id: nat)
    requires Begun(log, at, orig, m) && Done(log[at..], id)
    ensures Reported(log, id, orig)
  {
    var w := log[at..];
    var k :| 0 <= k < |w| && w[k].PhaseDone? && w[k].id == id;
    assert log[at + k] == w[k] && log[at] == w[0];
    assert at < at + k;
  }

  lemma EndEvent(next: Mode, q: Queue, err: int)
    requires Phased(next, q) && Active(q) && ProperLog(q.log + [Ended(q.orig.id, err)])
    ensures PhaseEvent(next, q.log, Ended(q.orig.id, err)) && !FinishedIn(q.log, q.orig.id)
  {
    WholeWindow(q.log, q.seqAt, q.orig.id, q.mode, err);
    hide FinishedIn, Done, Reported, HandedOut, ProperLog, PhaseLog, Begun, Stacked, Carried, Known, Closed;
    forall id: nat | id < FIRST_ID
      ensures HandedOut(q.log, id, q.orig.id) <==> HasPhase(q.mode, id)
      ensures HasPhase(q.mode, id) ==> Reported(q.log, id, q.orig.id)
    {
      HandedIsHere(q, id);
      OnlyPhases(q.log[q.seqAt..], q.orig.id, q.mode, id);
      if HasPhase(q.mode, id) { DoneIsReported(q.log, q.seqAt, q.orig.id, q.mode, id); }
    }
    hide HasPhase;
    PhasesOfMode(next, q.orig.nsect, q.mode);
    forall r: Rq | Added(r) in q.log && r.id == q.orig.id ensures r.nsect == q.orig.nsect {}
  }

  lemma OnlyPhases(w: seq<Event>, orig: nat, m: Mode, id: nat)
    requires Ordered(w, orig, m) && id < FIRST_ID
    ensures HandedOut(w, id, orig) ==> HasPhase(m, id)
    ensures Done(w, id) ==> HandedOut(w, id, orig)
  {
    hide Done, HasPhase;
  }

  lemma PhasesOfMode(next: Mode, nsect: nat, m: Mode)
    requires ModeFits(next, nsect, m) && next.bar
    ensures HasPhase(m, PRE_FLUSH) <==> next.preflush
    ensures HasPhase(m, BAR) <==> nsect != 0
    ensures HasPhase(m, POST_FLUSH) <==> next.postflush && nsect != 0
  {}

  lemma EndPhased(next: Mode, q: Queue, q': Queue, err: int)
    requires Phased(next, q) && Active(q) && q'.log == q.log + [Ended(q.orig.id, err)] && ProperLog(q'.log) && !Active(q')
    requires q'.next == q.next && q'.head == q.head && q'.held == q.held && q'.driver == q.driver
    ensures Phased(next, q')
  {
    EndEvent(next, q, err);
    hide ProperLog, PhaseEvent, PhaseLog, Stacked, Carried, KnownAs, WasAdded, Begun, Done, HandedOut;
    var e := Ended(q.orig.id, err);
    PhaseLogAppend(next, q.log, e);
    KnownAll(q.log, q'.log, q.head, q.held, q.driver, e);
    AllClosed(q, q', err);
  }

  lemma AllClosed(q: Queue, q': Queue, err: int)
    requires Closed(q) && Active(q) && q.seqAt <= |q.log| && Ordered(q.log[q.seqAt..], q.orig.id, q.mode)
    requires q'.log == q.log + [Ended(q.orig.id, err)] && !Active(q')
    ensures Closed(q')
  {
    hide FinishedIn;
    var e, w := Ended(q.orig.id, err), q.log[q.seqAt..];
    assert FinishedIn(q'.log, q.orig.id) by { JustFinished(q.log, e); }
    forall h | 0 <= h < |q'.log| && q'.log[h].HandedProxy? ensures FinishedIn(q'.log, q'.log[h].orig) {
      StillFinished(q.log, e, q'.log[h].orig);
      if h < |q.log| && q.seqAt <= h {
        assert w[h - q.seqAt] == q.log[h];
        assert HandedProxy(q.log[h].id, q.log[h].orig) in w;
      }
    }
  }

  lemma JustFinished(log: seq<Event>, e: Event)
    requires Finish(e)
    ensures FinishedIn(log + [e], e.orig)
  {
    assert (log + [e])[|log|] == e;
  }

  lemma CompleteSeqPhased(next: Mode, q: Queue, bits: OrdSeq, error: int)
    requires Phased(next, q) && Active(q) && ProperLog(CompleteSeq(q, bits, error).0.log)
    ensures Phased(next, CompleteSeq(q, bits, error).0)
    ensures CompleteSeq(q, bits, error).0.mode == q.mode
  {
    hide ProperLog, PhaseLog, Stacked, Carried, KnownAs, WasAdded, Begun, Closed, Known, Ordered;
    var q' := CompleteSeq(q, bits, error).0;
    if Active(q') {
      MovedPhased(next, q, q');
    } else {
      EndPhased(next, q, q', q'.log[|q.log|].err);
    }
  }

  lemma ElvPhased(next: Mode, q: Queue, r: Rq)
    requires Phased(next, q) && (q.ordseq == IDLE || Active(q)) && ProperLog(ElvCompleted(q, r).log)
    ensures Phased(next, ElvCompleted(q, r)) && ElvCompleted(q, r).mode == q.mode
  {
    hide Phased, ProperLog, CompleteSeq, ReqSeq;
    var q1 := AccountDone(q, r);
    FramePhased(next, q, q1);
    if ElvCompleted(q, r) != q1 { CompleteSeqPhased(next, q1, DRAIN_BIT, 0); }
  }

  /** Counts, errors and flags have no part in it. */
  lemma FramePhased(next: Mode, q: Queue, q': Queue)
    requires Phased(next, q) && q' == q.(inFlight := q'.inFlight, orderr := q'.orderr, warn := q'.warn, bug := q'.bug)
    ensures Phased(next, q')
  {
    hide PhaseLog, Stacked, Carried, KnownAs, WasAdded, Begun, Closed, Known, Ordered;
    MovedPhased(next, q, q');
  }

  lemma PlainPhased(next: Mode, q: Queue, id: nat, error: int)
    requires Core(q, NO_GAP) && Phased(next, q) && id in q.driver && id >= FIRST_ID
    ensures Phased(next, Complete(q, id, error)) && Complete(q, id, error).mode == q.mode
  {
    CompleteKeeps(q, id, error);
    DriverSelf(q);
    CoreIdle(q);
    CoreLog(Complete(q, id, error));
    hide Core, Phased, ElvCompleted, ProperLog;
    var r := q.driver[id];
    var q0 := q.(driver := q.driver - {id});
    LeavePhased(next, q, q0, id);
    var q1 := q0.(log := q.log + [Completed(id)]);
    InnerPhased(next, q0, q1, Completed(id));
    ElvPhased(next, q1, r);
  }

  lemma CoreIdle(q: Queue)
    requires Core(q, NO_GAP)
    ensures q.ordseq == IDLE || Active(q)
  {
    hide Sound, Window, History, ProperLog;
  }

  lemma CoreLog(q: Queue)
    requires Core(q, NO_GAP)
    ensures ProperLog(q.log)
  {
    hide Sound, Phases, Window, History, ProperLog;
  }

  lemma BarErrorPhased(next: Mode, q: Queue, error: int)
    requires Phased(next, q)
    ensures Phased(next, BarError(q, error))
  {
    var q1 := q.(log := q.log + [PartError(error)]);
    hide Phased, FirstError;
    InnerPhased(next, q, q1, PartError(error));
    FramePhased(next, q1, BarError(q, error));
  }

  lemma ProxyPhased(next: Mode, q: Queue, id: nat, error: int)
    requires Core(q, NO_GAP) && Phased(next, q) && id in q.driver && id < FIRST_ID
    ensures Phased(next, Complete(q, id, error)) && Complete(q, id, error).mode == q.mode
  {
    var q0 := if id == BAR then BarError(q, error) else q;
    BarErrorPhased(next, q, error);
    BarErrorKeeps(q, error);
    CompleteKeeps(q, id, error);
    CoreLog(Complete(q, id, error));
    DriverSelf(q);
    hide Core, Phased, ProperLog, CompleteSeq, ElvCompleted;
    ProxyEndPhased(next, q0, id, error);
  }

  lemma ProxyEndPhased(next: Mode, q: Queue, id: nat, error: int)
    requires Core(q, NO_GAP) && Phased(next, q) && id in q.driver && id < FIRST_ID
    requires ProperLog(Report(ElvCompleted(q.(driver := q.driver - {id}), q.driver[id]), id, error).log)
    ensures var q' := Report(ElvCompleted(q.(driver := q.driver - {id}), q.driver[id]), id, error);
      Phased(next, q') && q'.mode == q.mode
  {
    hide Core, Phased, Report, HandedOut, ElvCompleted, ProperLog;
    DriverFacts(next, q, id);
    ProxyLeaves(q, id);
    LeavePhased(next, q, q.(driver := q.driver - {id}), id);
    ReportPhased(next, q.(driver := q.driver - {id}), q.driver[id], id, error);
  }

  lemma ReportPhased(next: Mode, q: Queue, r: Rq, id: nat, error: int)
    requires Phased(next, q) && Active(q) && Active(ElvCompleted(q, r)) && ProperLog(ElvCompleted(q, r).log)
    requires id < FIRST_ID && q.seqAt <= |q.log| && HandedOut(q.log[q.seqAt..], id, q.orig.id)
    requires ProperLog(Report(ElvCompleted(q, r), id, error).log)
    ensures var q' := Report(ElvCompleted(q, r), id, error); Phased(next, q') && q'.mode == q.mode
  {
    hide Phased, CompleteSeq, HandedOut, ElvCompleted, ProperLog;
    var q2 := ElvCompleted(q, r);
    var q3 := q2.(log := q2.log + [PhaseDone(id, error)]);
    ElvPhased(next, q, r);
    ElvSameWindow(q, r);
    InnerPhased(next, q2, q3, PhaseDone(id, error));
    CompleteSeqPhased(next, q3, ProxyBit(id), error);
  }

  lemma ElvSameWindow(q: Queue, r: Rq)
    requires Active(q) && Active(ElvCompleted(q, r))
    ensures var q' := ElvCompleted(q, r); q'.log == q.log && q'.seqAt == q.seqAt && q'.orig == q.orig && q'.mode == q.mode
  {}

  /** While its phase is open, what the end of a proxy sets off does not end the sequence. */
  lemma ProxyLeaves(q: Queue, id: nat)
    requires Core(q, NO_GAP) && id in q.driver && id < FIRST_ID
    ensures var q1 := q.(driver := q.driver - {id}); var q2 := ElvCompleted(q1, q.driver[id]);
      Active(q) && Active(q2) && ProperLog(q2.log)
  {
    var q1 := q.(driver := q.driver - {id});
    var r := q.driver[id];
    LeaveDriver(q, AccountDone(q1, r), id);
    DriverOpen(q, id);
    hide Core, ElvCompleted;
    ElvCompletedKeeps(q1, r, id);
    GapLog(ElvCompleted(q1, r), id);
  }

  lemma DriverOpen(q: Queue, id: nat)
    requires Core(q, NO_GAP) && id in q.driver && id < FIRST_ID
    ensures Active(q) && !Bit(q.ordseq, id)
  {
    hide Sound, Window, History, ProperLog, Has;
  }

  lemma GapLog(q: Queue, gap: nat)
    requires Core(q, gap)
    ensures ProperLog(q.log)
  {
    hide Sound, Phases, Window, History, ProperLog;
  }

  lemma CompletePhased(next: Mode, q: Queue, id: nat, error: int)
    requires Core(q, NO_GAP) && Phased(next, q) && id in q.driver
    ensures Phased(next, Complete(q, id, error)) && Complete(q, id, error).mode == q.mode
  {
    if id < FIRST_ID { ProxyPhased(next, q, id, error); } else { PlainPhased(next, q, id, error); }
  }

  // ----- the start of a sequence -----

  lemma ModeFitting(next: Mode, nsect: nat)
    requires ValidMode(next) && next != ORDERED_NONE
    ensures ModeFits(next, nsect, EffectiveMode(next, nsect)) && next.bar
  {}

  lemma NoProxiesIdle(q: Queue)
    requires Core(q, NO_GAP) && !Active(q)
    ensures forall x: Rq :: x in q.head ==> !IsProxy(x)
    ensures forall id: nat :: id in q.driver ==> id >= FIRST_ID
  {
    hide Sound, Window, History, ProperLog;
    forall x: Rq | x in q.head ensures !IsProxy(x) { InHas(q.head, x); }
  }

  ghost predicate From(head: seq<Rq>, id: nat) { forall x: Rq :: x in head && IsProxy(x) ==> id <= x.id }

  ghost predicate SamePlain(head: seq<Rq>, rest: seq<Rq>) { forall x: Rq :: x in head && !IsProxy(x) ==> x in rest }

  /** A proxy of an earlier phase is pushed in front of the others. */
  lemma PushStacked(c: bool, r: Rq, head: seq<Rq>, driver: map<nat, Rq>, w: seq<Event>, orig: Rq, rest: seq<Rq>)
    requires Stacked(head, driver, w, orig.id) && Carried(head, driver, orig) && IsProxy(r) && !r.started && Carries(r, orig)
    requires From(head, r.id + 1) && SamePlain(head, rest)
    ensures Stacked(Push(c, r, head), driver, w, orig.id) && Carried(Push(c, r, head), driver, orig)
    ensures From(Push(c, r, head), r.id) && SamePlain(Push(c, r, head), rest)
  {
    hide HandedOut;
    var t := Push(c, r, head);
    if c {
      forall i | 0 <= i < |t| ensures t[i] == if i == 0 then r else head[i - 1] {}
    }
  }

  lemma PushedStack(q: Queue, rest: seq<Rq>, driver: map<nat, Rq>, w: seq<Event>)
    requires (forall x: Rq :: x in rest ==> !IsProxy(x)) && forall id: nat :: id in driver ==> id >= FIRST_ID
    requires forall id: nat :: id in driver ==> driver[id].id == id
    ensures var head := WithProxies(q, rest); Stacked(head, driver, w, q.orig.id) && Carried(head, driver, q.orig)
    ensures SamePlain(WithProxies(q, rest), rest)
  {
    var m, post, bar, pre := q.mode, FlushRq(q, POST_FLUSH), BarRq(q), FlushRq(q, PRE_FLUSH);
    assert Stacked(rest, driver, w, q.orig.id) && Carried(rest, driver, q.orig) && From(rest, 3) && SamePlain(rest, rest);
    assert WithProxies(q, rest) == Push(m.preflush, pre, Push(m.bar, bar, Push(m.postflush, post, rest)));
    hide Stacked, Carried, Push, WithProxies, From, SamePlain;
    PushStacked(m.postflush, post, rest, driver, w, q.orig, rest);
    var h1 := Push(m.postflush, post, rest);
    PushStacked(m.bar, bar, h1, driver, w, q.orig, rest);
    PushStacked(m.preflush, pre, Push(m.bar, bar, h1), driver, w, q.orig, rest);
  }

  /** What start_ordered has done when the proxies are queued. */
  lemma StartingIs(q: Queue)
    requires q.head != []
    ensures var q' := Starting(q);
      q'.log == q.log + [SeqStart(q.head[0].id, q'.mode)] && q'.seqAt == |q.log| && q'.orig == q.head[0] && Active(q')
      && q'.mode == EffectiveMode(q.next, q.head[0].nsect) && q'.next == q.next && q'.held == q.held && q'.driver == q.driver
      && q'.head == WithProxies(q', q.head[1..])
  {}

  lemma StartingSequence(next: Mode, q: Queue)
    requires Core(q, NO_GAP) && Phased(next, q) && !Active(q) && ValidMode(next) && next != ORDERED_NONE
    requires q.head != [] && !IsProxy(q.head[0]) && IsBarrier(q.head[0])
    ensures InSequence(next, Starting(q)) && forall x: Rq :: x in Starting(q).head && !IsProxy(x) ==> x in q.head
  {
    NoProxiesIdle(q);
    DriverSelf(q);
    StartingIs(q);
    HeadFacts(next, q, 0);
    QueuedWasAdded(q, q.head[0]);
    PhasedNext(next, q);
    hide Core, Phased, Stacked, Carried, WithProxies, EffectiveMode, ModeFits, KnownAs, WasAdded, Starting, Ordered;
    var q', r, rest := Starting(q), q.head[0], q.head[1..];
    ModeFitting(next, r.nsect);
    KnownAppend(q.log, SeqStart(r.id, q'.mode), r);
    StillAdded(q.log, SeqStart(r.id, q'.mode), r.id);
    PushedStack(q', rest, q.driver, q'.log[q'.seqAt..]);
    assert q'.log[q'.seqAt..] == [SeqStart(r.id, q'.mode)];
    NothingYet(SeqStart(r.id, q'.mode), r.id, q'.mode);
  }

  lemma StartingLog(next: Mode, q: Queue)
    requires PhaseLog(next, q.log) && Closed(q) && q.next == next && !Active(q) && ValidMode(next) && next != ORDERED_NONE
    requires q.head != [] && KnownAs(q.log, q.head[0]) && WasAdded(q.log, q.head[0].id)
    ensures PhaseLog(next, Starting(q).log) && Closed(Starting(q))
  {
    StartingIs(q);
    hide PhaseLog, EffectiveMode, ModeFits, FinishedIn, KnownAs, WasAdded, Starting, Closed, PhaseEvent;
    var q', r := Starting(q), q.head[0];
    ModeFitting(next, r.nsect);
    StartEvent(next, q.log, r);
    PhaseLogAppend(next, q.log, SeqStart(r.id, q'.mode));
    AllFinished(q, q', SeqStart(r.id, q'.mode));
  }

  lemma HeadBarrier(next: Mode, q: Queue)
    requires Core(q, NO_GAP) && Phased(next, q) && q.head != [] && !IsProxy(q.head[0]) && IsBarrier(q.head[0])
    ensures KnownAs(q.log, q.head[0]) && WasAdded(q.log, q.head[0].id)
  {
    hide Core, Phased, KnownAs, WasAdded;
    HeadFacts(next, q, 0);
    QueuedWasAdded(q, q.head[0]);
  }

  lemma StartingPhased(next: Mode, q: Queue)
    requires Core(q, NO_GAP) && Phased(next, q) && !Active(q) && ValidMode(next) && next != ORDERED_NONE
    requires q.head != [] && !IsProxy(q.head[0]) && IsBarrier(q.head[0])
    ensures Phased(next, Starting(q))
  {
    hide Core, PhaseLog, KnownAs, Starting, InSequence, Closed, WasAdded, Known;
    HeadBarrier(next, q);
    StartingSequence(next, q);
    StartingIs(q);
    StartingLog(next, q);
    StartingKnown(q);
  }

  lemma StartingKnown(q: Queue)
    requires Known(q.log, q.head, q.held, q.driver) && q.head != []
    requires forall x: Rq :: x in Starting(q).head && !IsProxy(x) ==> x in q.head
    ensures var q' := Starting(q); Known(q'.log, q'.head, q'.held, q'.driver)
  {
    hide KnownAs, Starting;
    StartingIs(q);
    var q' := Starting(q);
    KnownAll(q.log, q'.log, q.head, q.held, q.driver, SeqStart(q.head[0].id, q'.mode));
  }

  lemma StartEvent(next: Mode, log: seq<Event>, r: Rq)
    requires KnownAs(log, r) && ModeFits(next, r.nsect, EffectiveMode(next, r.nsect)) && next != ORDERED_NONE
    requires WasAdded(log, r.id)
    ensures PhaseEvent(next, log, SeqStart(r.id, EffectiveMode(next, r.nsect)))
  {
    hide EffectiveMode, ModeFits;
  }

  lemma NothingYet(e: Event, orig: nat, m: Mode)
    requires e.SeqStart?
    ensures Ordered([e], orig, m)
  {}

  lemma AllFinished(q: Queue, q': Queue, e: Event)
    requires Closed(q) && !Active(q) && q'.log == q.log + [e] && !e.HandedProxy?
    ensures Closed(q')
  {
    hide FinishedIn;
    forall h | 0 <= h < |q'.log| && q'.log[h].HandedProxy? ensures FinishedIn(q'.log, q'.log[h].orig) {
      StillFinished(q.log, e, q.log[h].orig);
    }
  }

  lemma StartOrderedPhased(next: Mode, q: Queue)
    requires Core(q, NO_GAP) && Phased(next, q) && !Active(q) && ValidMode(next) && next != ORDERED_NONE
    requires q.head != [] && IsBarrier(q.head[0]) && !IsProxy(q.head[0])
    ensures Phased(next, StartOrdered(q).0) && StartOrdered(q).0.mode == Starting(q).mode
  {
    IdleNotActive(q);
    PhasedNext(next, q);
    StartOrderedKeeps(q);
    CoreLog(StartOrdered(q).0);
    StartingPhased(next, q);
    StartOrderedIs(q);
    StartingActive(q);
    hide Core, Phased, Starting, StartOrdered, ProperLog, CompleteSeq;
    CompleteSeqPhased(next, Starting(q), Skipped(Starting(q)), 0);
  }

  lemma IdleNotActive(q: Queue)
    requires Core(q, NO_GAP) && !Active(q)
    ensures q.ordseq == IDLE
  {
    CoreIdle(q);
  }

  lemma PhasedNext(next: Mode, q: Queue)
    requires Phased(next, q)
    ensures q.next == next
  {
    hide PhaseLog, Closed, Known, InSequence;
  }

  lemma StartingActive(q: Queue)
    requires q.head != []
    ensures Active(Starting(q))
  {
    hide WithProxies, EffectiveMode;
  }

  lemma RejectPhased(next: Mode, q: Queue, q': Queue)
    requires Phased(next, q) && q.head != [] && !Active(q) && next == ORDERED_NONE
    requires q' == q.(head := q.head[1..], ended := q.ended + 1, log := q.log + [Rejected(q.head[0].id)])
    ensures Phased(next, q')
  {
    hide PhaseLog, KnownAs, WasAdded, FinishedIn, InSequence;
    var e := Rejected(q.head[0].id);
    PhaseLogAppend(next, q.log, e);
    KnownAll(q.log, q'.log, q.head, q.held, q.driver, e);
    AllFinished(q, q', e);
  }

  // ----- handing out the head -----

  /** When a proxy is at the head, those of earlier phases went out. */
  lemma LowerWentOut(next: Mode, q: Queue, b: nat)
    requires Core(q, NO_GAP) && Phased(next, q) && Active(q) && q.head != [] && IsProxy(q.head[0])
    requires b < q.head[0].id && HasPhase(q.mode, b)
    ensures HandedOut(q.log[q.seqAt..], b, q.orig.id)
  {
    var w := q.log[q.seqAt..];
    if Bit(q.ordseq, b) {
      BitIsDone(q, b);
    } else {
      OpenIsSomewhere(q, b);
      if Has(q.head, b) {
        var j :| 0 <= j < |q.head| && q.head[j].id == b;
        assert 0 < j;
      }
    }
    hide Core, PhaseLog, Closed, Known, Done, HasPhase, Begun, Carried;
  }

  lemma BitIsDone(q: Queue, b: nat)
    requires Core(q, NO_GAP) && Active(q) && b < FIRST_ID && HasPhase(q.mode, b) && Bit(q.ordseq, b)
    ensures Done(q.log[q.seqAt..], b)
  {
    hide Sound, Phases, History, ProperLog, Done, OneSequence, ErrorOf;
  }

  lemma OpenIsSomewhere(q: Queue, b: nat)
    requires Core(q, NO_GAP) && Active(q) && b < FIRST_ID && !Bit(q.ordseq, b)
    ensures Has(q.head, b) || b in q.driver
  {
    hide Sound, Window, History, ProperLog, Has;
  }

  ghost predicate Ready(q: Queue) {
    && Active(q) && q.head != [] && IsProxy(q.head[0]) && HasPhase(q.mode, q.head[0].id)
    && (!q.mode.tag ==> forall b: nat :: b < q.head[0].id && HasPhase(q.mode, b) ==> Bit(q.ordseq, b))
  }

  lemma LowerReported(next: Mode, q: Queue, b: nat)
    requires Core(q, NO_GAP) && Phased(next, q) && Ready(q) && b < q.head[0].id && HasPhase(q.mode, b)
    ensures q.seqAt <= |q.log| && HandedOut(q.log[q.seqAt..], b, q.orig.id) && HandedOut(q.log, b, q.orig.id)
    ensures !q.mode.tag ==> Reported(q.log, b, q.orig.id)
  {
    hide Core, PhaseLog, Closed, Known, Done, Begun, Stacked, Carried, Ordered, Reported, KnownAs, WasAdded, ModeFits, HasPhase;
    LowerWentOut(next, q, b);
    if !q.mode.tag {
      BitIsDone(q, b);
      DoneIsReported(q.log, q.seqAt, q.orig.id, q.mode, b);
    }
  }

  lemma HandEvent(next: Mode, q: Queue)
    requires Core(q, NO_GAP) && Phased(next, q) && ValidMode(next) && Ready(q)
    ensures PhaseEvent(next, q.log, HandedProxy(q.head[0].id, q.orig.id)) && q.seqAt <= |q.log|
    ensures forall b: nat :: b < q.head[0].id && HasPhase(q.mode, b) ==> HandedOut(q.log[q.seqAt..], b, q.orig.id)
  {
    hide Core, PhaseLog, Closed, Known, Begun, Stacked, Carried, Ordered, Reported, HandedOut, HasPhase, ModeFits, WasAdded;
    forall b: nat | b < q.head[0].id && HasPhase(q.mode, b)
      ensures HandedOut(q.log[q.seqAt..], b, q.orig.id) && HandedOut(q.log, b, q.orig.id)
      ensures !q.mode.tag ==> Reported(q.log, b, q.orig.id)
    {
      LowerReported(next, q, b);
    }
    PhasesOfMode(next, q.orig.nsect, q.mode);
    TagOfMode(next, q.orig.nsect, q.mode);
    SizeOfOrig(next, q);
  }

  lemma SizeOfOrig(next: Mode, q: Queue)
    requires InSequence(next, q)
    ensures forall r: Rq :: Added(r) in q.log && r.id == q.orig.id ==> r.nsect == q.orig.nsect
  {
    hide Begun, Stacked, Carried, Ordered, ModeFits, WasAdded;
  }

  lemma TagOfMode(next: Mode, nsect: nat, m: Mode)
    requires ModeFits(next, nsect, m) && ValidMode(next)
    ensures next.drain ==> !m.tag
  {}

  lemma MarkPhased(next: Mode, q: Queue)
    requires Core(q, NO_GAP) && Phased(next, q) && ValidMode(next) && q.head != [] && (IsProxy(q.head[0]) ==> Ready(q))
    ensures Phased(next, MarkHead(q, HandedEvent(q, q.head[0])))
  {
    hide Core, PhaseLog, Closed, Known, Begun, Stacked, Carried, Ordered, HandedOut, HasPhase, ModeFits, WasAdded, KnownAs;
    var r, e := q.head[0], HandedEvent(q, q.head[0]);
    var q1 := q.(log := q.log + [e]);
    if IsProxy(r) { HandEvent(next, q); }
    InnerPhased(next, q, q1, e);
    if Active(q) {
      WindowAppend(q.log, q.seqAt, e);
      if IsProxy(r) { LastOut(q.log[q.seqAt..], r.id, q.orig.id); }
    }
    MarkedPhased(next, q1, MarkHead(q, e));
  }

  lemma LastOut(w: seq<Event>, id: nat, orig: nat)
    ensures HandedOut(w + [HandedProxy(id, orig)], id, orig)
  {}

  lemma MarkedPhased(next: Mode, q: Queue, q': Queue)
    requires Phased(next, q) && q.head != [] && q' == q.(head := [q.head[0].(started := true)] + q.head[1..])
    requires Active(q) && IsProxy(q.head[0]) ==> HandedOut(q.log[q.seqAt..], q.head[0].id, q.orig.id)
    ensures Phased(next, q')
  {
    hide PhaseLog, Closed, Begun, HandedOut, Ordered;
    var r1 := q.head[0].(started := true);
    forall i | 0 <= i < |q'.head| ensures q'.head[i] == if i == 0 then r1 else q.head[i] {}
    assert q.head[0] in q.head;
    assert forall x: Rq :: x in q'.head ==> x in q.head || x == r1;
    if !IsProxy(r1) { SameKnown(q.log, q.head[0], r1); }
    hide KnownAs, WasAdded;
    MovedPhased(next, q, q');
  }

  /** A proxy that blk_do_ordered lets through. */
  lemma GivenReady(next: Mode, q: Queue)
    requires Core(q, NO_GAP) && Phased(next, q) && ValidMode(next) && q.head != [] && DoOrdered(q).1 && DoOrdered(q).2
    ensures var q1 := DoOrdered(q).0; q1.head != [] ==> IsProxy(q1.head[0]) ==> Ready(q1)
  {
    if Active(q) {
      if IsProxy(q.head[0]) {
        QueuedHasPhase(q, 0);
        RunningGiven(q);
      }
    } else {
      IdleNotActive(q);
      NoProxiesIdle(q);
      PhasedNext(next, q);
      if IsBarrier(q.head[0]) { StartedReady(q); }
    }
  }

  lemma RunningGiven(q: Queue)
    requires Active(q) && q.head != [] && IsProxy(q.head[0]) && DoOrdered(q).2 && HasPhase(q.mode, q.head[0].id)
    requires q.head[0].fs <==> q.head[0].id == BAR
    ensures DoOrdered(q).0.head == q.head && Ready(DoOrdered(q).0)
  {
    hide StartOrdered;
  }

  lemma StartedReady(q: Queue)
    requires q.ordseq == IDLE && q.head != [] && StartOrdered(q).1 && StartOrdered(q).2
    ensures var q1 := StartOrdered(q).0; q1.head != [] && Ready(q1)
  {
    StartOrderedIs(q);
    StartingIs(q);
    FirstProxy(Starting(q), q.head[1..]);
    StillGoing(q);
    hide WithProxies, Starting, CompleteSeq, EffectiveMode;
  }

  lemma StillGoing(q: Queue)
    requires q.ordseq == IDLE && q.head != [] && StartOrdered(q).1 && StartOrdered(q).2
    ensures var s, q1 := Starting(q), StartOrdered(q).0;
      Active(q1) && q1.head == s.head && q1.mode == s.mode && (s.mode.preflush || s.mode.bar || s.mode.postflush)
  {
    StartOrderedIs(q);
    hide WithProxies, EffectiveMode;
  }

  lemma FirstProxy(q: Queue, rest: seq<Rq>)
    requires q.mode.preflush || q.mode.bar || q.mode.postflush
    ensures var h := WithProxies(q, rest);
      h != [] && IsProxy(h[0]) && HasPhase(q.mode, h[0].id) && forall b: nat :: b < h[0].id ==> !HasPhase(q.mode, b)
  {}

  lemma DoOrderedPhased(next: Mode, q: Queue)
    requires Core(q, NO_GAP) && Phased(next, q) && ValidMode(next) && q.head != []
    ensures Phased(next, DoOrdered(q).0)
  {
    PhasedNext(next, q);
    var q1 := DoOrdered(q).0;
    if Active(q) {
      hide Core, Phased, StartOrdered;
      FramePhased(next, q, q1);
    } else {
      IdleNotActive(q);
      NoProxiesIdle(q);
      assert q.head[0] in q.head;
      hide Core, Phased, StartOrdered;
      if IsBarrier(q.head[0]) {
        if next != ORDERED_NONE { StartOrderedPhased(next, q); } else { RejectPhased(next, q, q1); }
      }
    }
  }

  lemma FetchPhased(next: Mode, q: Queue)
    requires Core(q, NO_GAP) && Phased(next, q) && ValidMode(next) && q.head != []
    ensures Phased(next, Fetch(q))
  {
    var (q1, more, given) := DoOrdered(q);
    PhasedNext(next, q);
    DoOrderedCore(q);
    DoOrderedPhased(next, q);
    if more && given && q1.head != [] {
      GivenReady(next, q);
      hide Core, Phased, DoOrdered, Ready;
      MarkPhased(next, q1);
    }
  }

  lemma PhasedStep(c: Callers, next: Mode, q: Queue, l: Label)
    requires Core(q, NO_GAP) && Phased(next, q) && ValidMode(next) && Enabled(c, q, l)
    ensures Phased(next, Next(c, q, l))
  {
    hide Core, Phased;
    match l
    case LAdd(r, where) => AddPhased(c, next, q, r, where);
    case LDispatch(i, p) => DispatchPhased(next, q, i, p);
    case LFetch => FetchPhased(next, q);
    case LStart(i) => StartPhased(next, q, i);
    case LComplete(id, error) => CompletePhased(next, q, id, error);
    case LBarError(error) => BarErrorPhased(next, q, error);
    case LRequeue(id) => RequeuePhased(next, q, id);
  }

  lemma InitialPhased(q: Queue)
    requires Initial(q)
    ensures Phased(q.next, q) && Core(q, NO_GAP) && ValidMode(q.next)
  {
    InitialCore(q);
  }

  lemma {:induction false} RunPhased(c: Callers, next: Mode, q: Queue, ls: seq<Label>, q': Queue)
    requires Core(q, NO_GAP) && Phased(next, q) && ValidMode(next) && Run(c, q, ls, q')
    ensures Core(q', NO_GAP) && Phased(next, q')
    decreases |ls|
  {
    PhasedNext(next, q);
    hide Core, Phased, Enabled, Next;
    if ls != [] {
      CoreStep(c, q, ls[0]);
      PhasedStep(c, next, q, ls[0]);
      RunPhased(c, next, Next(c, q, ls[0]), ls[1..], q');
    }
  }

  /** Over every run, in every mode and whatever submitters do. For a barrier with data: the
      cache is flushed before exactly if the mode asks for it, the data goes out by the proxy,
      and the cache is flushed behind it exactly if the mode asks for it. For one without,
      nothing goes out but the first flush, exactly if the mode asks for it. */
  lemma PhasesByMode(c: Callers, q0: Queue, ls: seq<Label>, q: Queue)
    requires Initial(q0) && Run(c, q0, ls, q)
    ensures PhaseLog(q0.next, q.log)
  {
    InitialPhased(q0);
    RunPhased(c, q0.next, q0, ls, q);
    hide Core, Known, InSequence, Closed, PhaseLog;
  }

  /** The proxy of a barrier carries the data of the barrier as it was added. */
  lemma ProxyCarriesData(c: Callers, q0: Queue, ls: seq<Label>, q: Queue, x: Rq)
    requires Initial(q0) && Run(c, q0, ls, q) && x.id == BAR && (x in q.head || (BAR in q.driver && q.driver[BAR] == x))
    ensures exists r: Rq :: Added(r) in q.log && IsBarrier(r) && r.id == q.orig.id
                            && x.write == r.write && x.sector == r.sector && x.nsect == r.nsect
  {
    InitialPhased(q0);
    RunPhased(c, q0.next, q0, ls, q);
    if x in q.head {
      var i :| 0 <= i < |q.head| && q.head[i] == x;
      HeadProxyActive(q, i);
    } else {
      DriverFacts(q0.next, q, BAR);
    }
    OrigAdded(q);
    hide Core, PhaseLog, Closed, Known, Stacked, Ordered, Begun;
    assert Carries(x, q.orig);
    var e :| e in q.log && e.Added? && e.r.id == q.orig.id;
    assert e == Added(e.r) && SameRq(q.orig, e.r);
  }

  lemma OrigAdded(q: Queue)
    requires Core(q, NO_GAP) && Active(q)
    ensures !Fresh(q.log, q.orig.id) && IsBarrier(q.orig)
  {
    hide Sound, Window, ProperLog, Live, Open, Fresh;
  }
}
