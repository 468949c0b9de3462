/** In every ordering mode, an ordered sequence reports each of its phases once
    and ends the barrier request once, with the first error that any phase
    reported. */
module BarrierOnce {
  import opened Blkdev
  import opened Barrier

  ghost predicate Has(s: seq<Rq>, id: nat) { exists i :: 0 <= i < |s| && s[i].id == id }

  ghost predicate Live(head: seq<Rq>, held: seq<Rq>, driver: map<nat, Rq>, id: nat) {
    Has(head, id) || Has(held, id) || id in driver
  }

  predicate Active(q: Queue) { q.ordseq.started }

  predicate Bit(o: OrdSeq, id: nat) {
    if id == PRE_FLUSH then o.preflush else if id == BAR then o.bar else o.postflush
  }

  predicate HasPhase(m: Mode, id: nat) {
    if id == PRE_FLUSH then m.preflush else if id == BAR then m.bar else m.postflush
  }

  /** Every request is in one place only. */
  ghost predicate Places(head: seq<Rq>, held: seq<Rq>, driver: map<nat, Rq>) {
    && (forall i, j :: 0 <= i < j < |head| ==> head[i].id != head[j].id)
    && (forall i, j :: 0 <= i < j < |held| ==> held[i].id != held[j].id)
    && (forall i, j :: 0 <= i < |head| && 0 <= j < |held| ==> head[i].id != held[j].id)
    && (forall i :: 0 <= i < |head| ==> head[i].id !in driver)
    && (forall i :: 0 <= i < |held| ==> held[i].id !in driver)
    && (forall id :: id in driver ==> driver[id].id == id)
  }

  predicate KindOk(r: Rq) {
    && (r.id == PRE_FLUSH || r.id == POST_FLUSH ==> !r.fs && !r.discard && r.soft)
    && (r.id == BAR ==> r.fs && !r.discard && r.soft)
  }

  ghost predicate Kinds(head: seq<Rq>, held: seq<Rq>, driver: map<nat, Rq>) {
    && (forall i :: 0 <= i < |head| ==> KindOk(head[i]))
    && (forall i :: 0 <= i < |held| ==> !IsProxy(held[i]) && !Stops(held[i]))
    && (forall id :: id in driver ==> KindOk(driver[id]) && driver[id].started)
  }

  ghost function Accounted(driver: map<nat, Rq>): set<nat> { set id | id in driver && Account(driver[id]) }

  /** A barrier that is being carried out still counts if it was started before. */
  function Pending(q: Queue): nat { if Active(q) && Account(q.orig) then 1 else 0 }

  ghost predicate Sound(q: Queue) {
    && Places(q.head, q.held, q.driver) && Kinds(q.head, q.held, q.driver)
    && q.inFlight == |Accounted(q.driver)| + Pending(q) && !q.bug
  }

  /** A phase whose proxy has left the driver but not reported yet. */
  const NO_GAP: nat := 3

  /** Proxies are around exactly while their phase is open. */
  ghost predicate Open(head: seq<Rq>, driver: map<nat, Rq>, o: OrdSeq, gap: nat) {
    forall id :: 0 <= id < FIRST_ID ==> ((Has(head, id) || id in driver) <==> o.started && !Bit(o, id) && id != gap)
  }

  ghost predicate OrigOk(q: Queue) {
    IsBarrier(q.orig) && !IsProxy(q.orig) && !Live(q.head, q.held, q.driver, q.orig.id)
  }

  ghost predicate Phases(q: Queue, gap: nat) {
    && (q.ordseq == IDLE || Active(q))
    && q.ordseq.Cur() != SEQ_DONE
    && Open(q.head, q.driver, q.ordseq, gap)
    && (Active(q) && q.mode.tag ==> q.ordseq.drain)
    && (Active(q) ==> OrigOk(q))
  }

  predicate Boundary(e: Event) { e.SeqStart? || e.Ended? || e.Rejected? }

  predicate Finish(e: Event) { e.Ended? || e.Rejected? }

  /** The error the events of one sequence add up to. */
  function ErrorOf(w: seq<Event>): int {
    if w == [] then 0
    else
      var e := w[|w| - 1];
      var before := ErrorOf(w[..|w| - 1]);
      if e.PhaseDone? || e.PartError? then FirstError(before, e.err) else before
  }

  predicate Failing(e: Event) { (e.PhaseDone? || e.PartError?) && e.err != 0 }

  /** err is that of the earliest failure, and 0 if there is none. */
  ghost predicate FirstFailure(w: seq<Event>, err: int) {
    if forall k :: 0 <= k < |w| ==> !Failing(w[k]) then err == 0
    else exists k :: 0 <= k < |w| && Failing(w[k]) && err == w[k].err && forall j :: 0 <= j < k ==> !Failing(w[j])
  }

  lemma {:induction false} ErrorIsFirst(w: seq<Event>)
    ensures FirstFailure(w, ErrorOf(w))
    decreases |w|
  {
    if w != [] {
      var v, n := w[..|w| - 1], |w| - 1;
      ErrorIsFirst(v);
      if forall k :: 0 <= k < |v| ==> !Failing(v[k]) {
        if Failing(w[n]) { assert forall j :: 0 <= j < n ==> !Failing(v[j]); }
      } else {
        var k :| 0 <= k < |v| && Failing(v[k]) && ErrorOf(v) == v[k].err && forall j :: 0 <= j < k ==> !Failing(v[j]);
        assert w[k] == v[k] && forall j :: 0 <= j < k ==> w[j] == v[j];
      }
    }
  }

  ghost predicate Done(w: seq<Event>, id: nat) { exists k :: 0 <= k < |w| && w[k].PhaseDone? && w[k].id == id }

  /** w is the log of one sequence of barrier id so far: it starts the sequence,
      no other sequence interferes, and each phase is reported at most once. */
  ghost predicate OneSequence(w: seq<Event>, id: nat) {
    && w != [] && w[0].SeqStart? && w[0].orig == id
    && (forall k :: 0 < k < |w| ==> !Boundary(w[k]))
    && (forall k, l :: 0 <= k < l < |w| && w[k].PhaseDone? && w[l].PhaseDone? ==> w[k].id != w[l].id)
  }

  ghost predicate PhasesDone(w: seq<Event>, m: Mode, o: OrdSeq) {
    forall id :: 0 <= id < FIRST_ID ==>
      (Done(w, id) <==> HasPhase(m, id) && Bit(o, id)) && (!HasPhase(m, id) ==> Bit(o, id))
  }

  /** The log of the running sequence, from its start on, matches the state. */
  ghost predicate Window(q: Queue) {
    Active(q) ==> WindowAt(q.log, q.seqAt, q.orig.id, q.mode, q.orderr, q.ordseq)
  }

  ghost predicate WindowAt(log: seq<Event>, at: nat, orig: nat, m: Mode, orderr: int, o: OrdSeq) {
    && at < |log|
    && OneSequence(log[at..], orig)
    && log[at].mode == m
    && orderr == ErrorOf(log[at..])
    && PhasesDone(log[at..], m, o)
  }

  /** w is a whole sequence of barrier id: every phase its mode asks for was
      reported, and err is the first error reported. */
  ghost predicate WholeSequence(w: seq<Event>, id: nat, err: int) {
    && OneSequence(w, id) && err == ErrorOf(w)
    && forall p :: 0 <= p < FIRST_ID ==> (Done(w, p) <==> HasPhase(w[0].mode, p))
  }

  ghost predicate ProperLog(log: seq<Event>) {
    && (forall h :: 0 <= h < |log| && log[h].Ended? ==>
          exists s :: 0 <= s < h && WholeSequence(log[s..h], log[h].orig, log[h].err))
    && (forall h, k :: 0 <= h < k < |log| && Finish(log[h]) && Finish(log[k]) ==> log[h].orig != log[k].orig)
  }

  /** Live requests were added, and ended barriers are gone for good. */
  ghost predicate History(q: Queue) {
    && (forall id :: id >= FIRST_ID && Live(q.head, q.held, q.driver, id) ==> !Fresh(q.log, id))
    && (Active(q) ==> !Fresh(q.log, q.orig.id))
    && (forall h :: 0 <= h < |q.log| && Finish(q.log[h]) ==> Gone(q, q.log[h].orig))
  }

  ghost predicate Gone(q: Queue, id: nat) {
    !Live(q.head, q.held, q.driver, id) && !Fresh(q.log, id) && id >= FIRST_ID && (Active(q) ==> q.orig.id != id)
  }

  ghost predicate Core(q: Queue, gap: nat) {
    Sound(q) && Phases(q, gap) && Window(q) && History(q) && ProperLog(q.log)
  }

  // ----- the log -----

  lemma ExtendSequence(w: seq<Event>, e: Event, id: nat)
    requires OneSequence(w, id) && !Boundary(e) && (e.PhaseDone? ==> !Done(w, e.id))
    ensures OneSequence(w + [e], id)
    ensures ErrorOf(w + [e]) == if e.PhaseDone? || e.PartError? then FirstError(ErrorOf(w), e.err) else ErrorOf(w)
    ensures forall p :: Done(w + [e], p) <==> Done(w, p) || (e.PhaseDone? && e.id == p)
  {
    var v := w + [e];
    assert v[..|w|] == w;
    assert v[0] == w[0];
    forall p ensures Done(v, p) <==> Done(w, p) || (e.PhaseDone? && e.id == p) {
      if Done(w, p) {
        var k :| 0 <= k < |w| && w[k].PhaseDone? && w[k].id == p;
        assert v[k] == w[k];
      }
      assert v[|w|] == e;
    }
  }

  lemma ExtendLog(log: seq<Event>, e: Event, s: nat)
    requires ProperLog(log)
    requires e.Ended? ==> s < |log| && WholeSequence(log[s..], e.orig, e.err)
    requires Finish(e) ==> forall h :: 0 <= h < |log| && Finish(log[h]) ==> log[h].orig != e.orig
    ensures ProperLog(log + [e])
  {
    var log' := log + [e];
    forall h | 0 <= h < |log'| && log'[h].Ended?
      ensures exists s :: 0 <= s < h && WholeSequence(log'[s..h], log'[h].orig, log'[h].err)
    {
      if h < |log| {
        var t :| 0 <= t < h && WholeSequence(log[t..h], log[h].orig, log[h].err);
        assert log'[t..h] == log[t..h];
      } else {
        assert log'[s..h] == log[s..];
      }
    }
  }

  lemma FreshAppend(log: seq<Event>, e: Event, id: nat)
    ensures Fresh(log + [e], id) <==> Fresh(log, id) && (e.Added? ==> e.r.id != id)
  {
    assert e in log + [e];
    assert forall x :: x in log + [e] <==> x in log || x == e;
  }

  /** An event that opens and closes no sequence. */
  lemma InnerEvent(q: Queue, q': Queue, e: Event)
    requires Window(q) && ProperLog(q.log) && History(q)
    requires q' == q.(log := q.log + [e], orderr := q'.orderr, ordseq := q'.ordseq)
    requires !Boundary(e)
    requires if e.PhaseDone? || e.PartError? then q'.orderr == FirstError(q.orderr, e.err) else q'.orderr == q.orderr
    requires if e.PhaseDone? then e.id < FIRST_ID && Active(q) && HasPhase(q.mode, e.id) && !Bit(q.ordseq, e.id)
                                  && q'.ordseq == q.ordseq.Or(ProxyBit(e.id))
             else q'.ordseq == q.ordseq
    ensures Window(q') && ProperLog(q'.log) && History(q')
  {
    ExtendLog(q.log, e, 0);
    forall id ensures Fresh(q'.log, id) ==> Fresh(q.log, id) { FreshAppend(q.log, e, id); }
    if Active(q) {
      ExtendSequence(q.log[q.seqAt..], e, q.orig.id);
      assert q'.log[q.seqAt..] == q.log[q.seqAt..] + [e];
    }
  }

  // ----- completing phases -----

  /** All phases are over: the barrier request is ended. */
  lemma EndSequence(q: Queue, q': Queue)
    requires Sound(q) && History(q) && ProperLog(q.log) && Active(q) && q.ordseq.Cur() == SEQ_DONE && Window(q)
    requires OrigOk(q) && Open(q.head, q.driver, q.ordseq, NO_GAP)
    requires q' == AccountDone(q.(ordseq := IDLE, ended := q.ended + 1, log := q.log + [Ended(q.orig.id, q.orderr)]), q.orig)
    ensures Core(q', NO_GAP)
  {
    var e := Ended(q.orig.id, q.orderr);
    ExtendLog(q.log, e, q.seqAt);
    forall id ensures Fresh(q'.log, id) <==> Fresh(q.log, id) { FreshAppend(q.log, e, id); }
  }

  /** Once the bits of finished phases are set, the invariant holds again. */
  lemma SetBits(q: Queue, bits: OrdSeq, error: int, gap: nat)
    requires gap < FIRST_ID ==> !Bit(q.ordseq.Or(bits), gap)
    requires var q1 := q.(ordseq := q.ordseq.Or(bits), orderr := FirstError(q.orderr, error));
             Sound(q) && History(q) && ProperLog(q.log) && Active(q) && OrigOk(q) && !q.ordseq.Overlaps(bits)
             && Open(q.head, q.driver, q1.ordseq, gap) && (q.mode.tag ==> q1.ordseq.drain) && Window(q1)
    ensures Core(CompleteSeq(q, bits, error).0, gap)
  {
    hide Places, Kinds, ProperLog, WindowAt;
    var q1 := q.(ordseq := q.ordseq.Or(bits), orderr := FirstError(q.orderr, error));
    assert History(q1);
    if q1.ordseq.Cur() == SEQ_DONE {
      EndSequence(q1, CompleteSeq(q, bits, error).0);
    }
  }

  lemma ElvCompletedKeeps(q: Queue, r: Rq, gap: nat)
    requires Core(AccountDone(q, r), gap) && (gap < FIRST_ID ==> !Bit(q.ordseq, gap))
    ensures Core(ElvCompleted(q, r), gap)
    ensures gap < FIRST_ID && Active(q) ==>
              var q' := ElvCompleted(q, r); Active(q') && !Bit(q'.ordseq, gap) && q'.mode == q.mode
  {
    hide ProperLog, OneSequence, ErrorOf, Done, Places, Kinds, ReqSeq, Has, Accounted;
    var q1 := AccountDone(q, r);
    if ElvCompleted(q, r) != q1 {
      SetBits(q1, DRAIN_BIT, 0, gap);
    }
  }

  lemma ReportKeeps(q: Queue, id: nat, error: int)
    requires id < FIRST_ID && Core(q, id) && Active(q) && !Bit(q.ordseq, id) && HasPhase(q.mode, id)
    ensures Core(Report(q, id, error), NO_GAP)
  {
    var e := PhaseDone(id, error);
    var q1 := q.(log := q.log + [e]);
    var q2 := q1.(ordseq := q.ordseq.Or(ProxyBit(id)), orderr := FirstError(q.orderr, error));
    InnerEvent(q, q2, e);
    SetBits(q1, ProxyBit(id), error, NO_GAP);
  }

  // ----- moving requests between the queue and the driver -----

  lemma AccountedRemove(driver: map<nat, Rq>, id: nat)
    requires id in driver
    ensures |Accounted(driver)| == |Accounted(driver - {id})| + (if Account(driver[id]) then 1 else 0)
  {
    if Account(driver[id]) {
      assert Accounted(driver) == Accounted(driver - {id}) + {id};
    } else {
      assert Accounted(driver) == Accounted(driver - {id});
    }
  }

  lemma AccountedAdd(driver: map<nat, Rq>, r: Rq)
    requires r.id !in driver
    ensures |Accounted(driver[r.id := r])| == |Accounted(driver)| + (if Account(r) then 1 else 0)
  {
    var d := driver[r.id := r];
    AccountedRemove(d, r.id);
    assert Accounted(d - {r.id}) == Accounted(driver);
  }

  function RemoveAt(s: seq<Rq>, i: nat): seq<Rq>
    requires i < |s|
  {
    s[..i] + s[i + 1..]
  }

  lemma HasInsert(s: seq<Rq>, p: nat, r: Rq, id: nat)
    requires p <= |s|
    ensures Has(InsertAt(s, p, r), id) <==> Has(s, id) || r.id == id
  {
    var t := InsertAt(s, p, r);
    assert t[p] == r;
    if Has(s, id) {
      var i :| 0 <= i < |s| && s[i].id == id;
      assert t[if i < p then i else i + 1] == s[i];
    }
  }

  lemma HasRemove(s: seq<Rq>, i: nat, id: nat)
    requires i < |s| && forall j, k :: 0 <= j < k < |s| ==> s[j].id != s[k].id
    ensures Has(RemoveAt(s, i), id) <==> Has(s, id) && id != s[i].id
  {
    var t := RemoveAt(s, i);
    forall k | 0 <= k < |t| ensures t[k] == s[if k < i then k else k + 1] {}
    if Has(s, id) && id != s[i].id {
      var j :| 0 <= j < |s| && s[j].id == id;
      assert t[if j < i then j else j - 1] == s[j];
    }
  }

  lemma PlacesInsert(head: seq<Rq>, held: seq<Rq>, driver: map<nat, Rq>, p: nat, r: Rq)
    requires Places(head, held, driver) && Kinds(head, held, driver)
    requires p <= |head| && !Live(head, held, driver, r.id) && KindOk(r)
    ensures Places(InsertAt(head, p, r), held, driver) && Kinds(InsertAt(head, p, r), held, driver)
  {
    var t := InsertAt(head, p, r);
    forall i | 0 <= i < |t| ensures t[i] == if i == p then r else head[if i < p then i else i - 1] {}
  }

  /** A request enters the dispatch queue. */
  lemma EnterHead(q: Queue, q': Queue, p: nat, r: Rq, gap: nat)
    requires Core(q, gap) && gap == (if IsProxy(r) then r.id else NO_GAP)
    requires IsProxy(r) ==> Active(q) && !Bit(q.ordseq, r.id)
    requires !IsProxy(r) ==> !Fresh(q.log, r.id) && (Active(q) ==> q.orig.id != r.id)
    requires p <= |q.head| && !Live(q.head, q.held, q.driver, r.id) && KindOk(r)
    requires forall h :: 0 <= h < |q.log| && Finish(q.log[h]) ==> q.log[h].orig != r.id
    requires q' == q.(head := InsertAt(q.head, p, r))
    ensures Core(q', NO_GAP)
  {
    forall x ensures Has(q'.head, x) <==> Has(q.head, x) || r.id == x {
      HasInsert(q.head, p, r, x);
    }
    forall x ensures Live(q'.head, q'.held, q'.driver, x) <==> Live(q.head, q.held, q.driver, x) || r.id == x {}
    PlacesInsert(q.head, q.held, q.driver, p, r);
    assert Phases(q', NO_GAP);
    assert Window(q');
    assert History(q');
  }

  lemma DriverRemove(head: seq<Rq>, held: seq<Rq>, driver: map<nat, Rq>, id: nat)
    requires Places(head, held, driver) && Kinds(head, held, driver) && id in driver
    ensures Places(head, held, driver - {id}) && Kinds(head, held, driver - {id})
    ensures forall x: nat :: Live(head, held, driver - {id}, x) <==> Live(head, held, driver, x) && x != id
    ensures driver[id].id == id && KindOk(driver[id]) && driver[id].started
  {}

  /** Of the proxies only the one that leaves is no longer around. */
  lemma LeaveOpen(head: seq<Rq>, held: seq<Rq>, driver: map<nat, Rq>, o: OrdSeq, id: nat)
    requires Open(head, driver, o, NO_GAP) && id in driver && !Live(head, held, driver - {id}, id)
    ensures Open(head, driver - {id}, o, if id < FIRST_ID then id else NO_GAP)
    ensures id < FIRST_ID ==> o.started && !Bit(o, id)
  {
    hide Has, Bit;
  }

  lemma LeaveDriver(q: Queue, q': Queue, id: nat)
    requires Core(q, NO_GAP) && id in q.driver
    requires q' == q.(driver := q.driver - {id}, inFlight := q'.inFlight)
    requires q'.inFlight == q.inFlight - (if Account(q.driver[id]) then 1 else 0)
    ensures Core(q', if id < FIRST_ID then id else NO_GAP)
    ensures !Live(q'.head, q'.held, q'.driver, id)
  {
    hide WindowAt, ProperLog, Places, Kinds, Has, Accounted, Open;
    AccountedRemove(q.driver, id);
    DriverRemove(q.head, q.held, q.driver, id);
    LeaveOpen(q.head, q.held, q.driver, q.ordseq, id);
  }

  lemma BarErrorKeeps(q: Queue, error: int)
    requires Core(q, NO_GAP)
    ensures Core(BarError(q, error), NO_GAP)
  {
    InnerEvent(q, BarError(q, error), PartError(error));
  }

  lemma ProxyCompleteKeeps(q: Queue, id: nat, error: int)
    requires Core(q, NO_GAP) && id in q.driver && id < FIRST_ID
    ensures Core(Complete(q, id, error), NO_GAP)
  {
    BarErrorKeeps(q, error);
    var q1 := if id == BAR then BarError(q, error) else q;
    assert Active(q1) && !Bit(q1.ordseq, id) && HasPhase(q1.mode, id);
    ProxyEndKeeps(q1, id, error);
  }

  lemma ProxyEndKeeps(q: Queue, id: nat, error: int)
    requires Core(q, NO_GAP) && id in q.driver && id < FIRST_ID
    requires Active(q) && !Bit(q.ordseq, id) && HasPhase(q.mode, id)
    ensures Core(Report(ElvCompleted(q.(driver := q.driver - {id}), q.driver[id]), id, error), NO_GAP)
  {
    var r := q.driver[id];
    var q1 := q.(driver := q.driver - {id});
    LeaveDriver(q, AccountDone(q1, r), id);
    ElvCompletedKeeps(q1, r, id);
    ReportKeeps(ElvCompleted(q1, r), id, error);
  }

  lemma CompleteKeeps(q: Queue, id: nat, error: int)
    requires Core(q, NO_GAP) && id in q.driver
    ensures Core(Complete(q, id, error), NO_GAP)
  {
    var r := q.driver[id];
    if IsProxy(r) {
      ProxyCompleteKeeps(q, id, error);
    } else {
      var q1 := q.(log := q.log + [Completed(id)]);
      InnerEvent(q, q1, Completed(id));
      var q2 := q1.(driver := q.driver - {id});
      LeaveDriver(q1, AccountDone(q2, r), id);
      ElvCompletedKeeps(q2, r, NO_GAP);
    }
  }

  lemma RequeueKeeps(q: Queue, id: nat)
    requires Core(q, NO_GAP) && id in q.driver
    ensures Core(Requeue(q, id), NO_GAP)
  {
    hide WindowAt, ProperLog, Places, Kinds, ReqSeq, InsertAt, Has, Accounted;
    var r := q.driver[id];
    var r1 := r.(started := false, soft := true);
    var q1 := AccountDone(q.(driver := q.driver - {id}), r);
    DriverRemove(q.head, q.held, q.driver, id);
    LeaveDriver(q, q1, id);
    var p := if q.ordseq == IDLE then 0 else RequeuePoint(q1, ReqSeq(q1, r1), 0);
    EnterHead(q1, Requeue(q, id), p, r1, if IsProxy(r1) then id else NO_GAP);
  }

  lemma StartKeeps(q: Queue, i: nat)
    requires Core(q, NO_GAP) && i < |q.head| && q.head[i].started
    ensures Core(Start(q, i), NO_GAP)
  {
    hide WindowAt, ProperLog;
    var q' := Start(q, i);
    assert q'.head == RemoveAt(q.head, i);
    assert q.head[i].id !in q.driver;
    AccountedAdd(q.driver, q.head[i]);
    forall x ensures Has(q'.head, x) <==> Has(q.head, x) && x != q.head[i].id {
      HasRemove(q.head, i, x);
    }
    assert Sound(q');
  }

  lemma DispatchKeeps(q: Queue, i: nat, p: nat)
    requires Core(q, NO_GAP) && i < |q.held| && p <= |q.head|
    ensures Core(Dispatch(q, i, p), NO_GAP)
  {
    hide Core, RemoveAt, InsertAt;
    var q1 := q.(held := RemoveAt(q.held, i));
    LeaveHeld(q, q1, i);
    RemoveAtIs(q.held, i);
    EnterHead(q1, Dispatch(q, i, p), p, q.held[i], NO_GAP);
  }

  lemma RemoveAtIs(s: seq<Rq>, i: nat)
    requires i < |s|
    ensures RemoveAt(s, i) == s[..i] + s[i + 1..]
  {}

  lemma HeldRemove(head: seq<Rq>, held: seq<Rq>, driver: map<nat, Rq>, i: nat)
    requires Places(head, held, driver) && Kinds(head, held, driver) && i < |held|
    ensures Places(head, RemoveAt(held, i), driver) && Kinds(head, RemoveAt(held, i), driver)
    ensures forall x: nat :: Has(RemoveAt(held, i), x) <==> Has(held, x) && x != held[i].id
    ensures !Live(head, RemoveAt(held, i), driver, held[i].id) && KindOk(held[i]) && !IsProxy(held[i])
  {
    var t := RemoveAt(held, i);
    forall k | 0 <= k < |t| ensures t[k] == held[if k < i then k else k + 1] {}
    forall x: nat ensures Has(t, x) <==> Has(held, x) && x != held[i].id { HasRemove(held, i, x); }
  }

  lemma HeadRemove(head: seq<Rq>, held: seq<Rq>, driver: map<nat, Rq>, i: nat)
    requires Places(head, held, driver) && Kinds(head, held, driver) && i < |head|
    ensures Places(RemoveAt(head, i), held, driver) && Kinds(RemoveAt(head, i), held, driver)
    ensures forall x: nat :: Has(RemoveAt(head, i), x) <==> Has(head, x) && x != head[i].id
    ensures !Live(RemoveAt(head, i), held, driver, head[i].id) && KindOk(head[i])
  {
    var t := RemoveAt(head, i);
    forall k | 0 <= k < |t| ensures t[k] == head[if k < i then k else k + 1] {}
    forall x: nat ensures Has(t, x) <==> Has(head, x) && x != head[i].id { HasRemove(head, i, x); }
  }

  /** A request leaves the scheduler. */
  lemma LeaveHeld(q: Queue, q1: Queue, i: nat)
    requires Core(q, NO_GAP) && i < |q.held| && q1 == q.(held := RemoveAt(q.held, i))
    ensures Core(q1, NO_GAP)
    ensures var r := q.held[i];
      && !Live(q1.head, q1.held, q1.driver, r.id) && KindOk(r) && !IsProxy(r) && !Fresh(q.log, r.id)
      && (Active(q) ==> q.orig.id != r.id)
      && forall h :: 0 <= h < |q.log| && Finish(q.log[h]) ==> q.log[h].orig != r.id
  {
    hide WindowAt, ProperLog, Places, Kinds, RemoveAt, Has;
    HeldRemove(q.head, q.held, q.driver, i);
    HasAt(q.held, i);
  }

  lemma HasAt(s: seq<Rq>, i: nat)
    requires i < |s|
    ensures Has(s, s[i].id)
  {}

  lemma AddedEvent(q: Queue, q': Queue, r: Rq)
    requires Core(q, NO_GAP) && Fresh(q.log, r.id)
    requires q' == q.(log := q.log + [Added(r)], ordcolor := q'.ordcolor, barriers := q'.barriers)
    ensures Core(q', NO_GAP) && !Fresh(q'.log, r.id)
    ensures forall h :: 0 <= h < |q'.log| && Finish(q'.log[h]) ==> q'.log[h].orig != r.id
  {
    var q1 := q.(log := q'.log);
    InnerEvent(q, q1, Added(r));
    FreshAppend(q.log, Added(r), r.id);
  }

  lemma EnterHeld(q: Queue, q': Queue, r: Rq)
    requires Core(q, NO_GAP) && r.id >= FIRST_ID && !Fresh(q.log, r.id) && (Active(q) ==> q.orig.id != r.id)
    requires !Live(q.head, q.held, q.driver, r.id) && !Stops(r)
    requires forall h :: 0 <= h < |q.log| && Finish(q.log[h]) ==> q.log[h].orig != r.id
    requires q' == q.(held := q.held + [r])
    ensures Core(q', NO_GAP)
  {
    assert q'.held == InsertAt(q.held, |q.held|, r);
    forall x ensures Has(q'.held, x) <==> Has(q.held, x) || r.id == x {
      HasInsert(q.held, |q.held|, r, x);
    }
    assert Places(q'.head, q'.held, q'.driver);
  }

  lemma FreshNotLive(q: Queue, id: nat)
    requires Core(q, NO_GAP) && Fresh(q.log, id) && id >= FIRST_ID
    ensures !Live(q.head, q.held, q.driver, id) && (Active(q) ==> q.orig.id != id)
  {}

  lemma AddToHeadKeeps(q: Queue, q': Queue, r: Rq, p: nat)
    requires Core(q, NO_GAP) && !IsProxy(r) && Fresh(q.log, r.id) && !r.started && p <= |q.head|
    requires q' == q.(log := q.log + [Added(r)], ordcolor := q'.ordcolor, barriers := q'.barriers,
                      head := InsertAt(q.head, p, r.(soft := true)))
    ensures Core(q', NO_GAP)
  {
    FreshNotLive(q, r.id);
    AddedEvent(q, q'.(head := q.head), r);
    EnterHead(q'.(head := q.head), q', p, r.(soft := true), NO_GAP);
  }

  lemma AddToHeldKeeps(q: Queue, q': Queue, r: Rq)
    requires Core(q, NO_GAP) && !IsProxy(r) && Fresh(q.log, r.id) && !Stops(r)
    requires q' == q.(log := q.log + [Added(r)], ordcolor := q'.ordcolor, barriers := q'.barriers, held := q.held + [r])
    ensures Core(q', NO_GAP)
  {
    FreshNotLive(q, r.id);
    AddedEvent(q, q'.(held := q.held), r);
    EnterHeld(q'.(held := q.held), q', r);
  }

  lemma AddKeeps(q: Queue, r: Rq, where: Where)
    requires Core(q, NO_GAP) && !IsProxy(r) && Fresh(q.log, r.id) && !r.started
    ensures Core(Add(q, r, where), NO_GAP)
  {
    var r1 := r.(color := q.ordcolor, epoch := q.barriers);
    match Point(r, where)
    case Sort => AddToHeldKeeps(q, Add(q, r, where), r1);
    case Back =>
      assert q.head + [r1.(soft := true)] == InsertAt(q.head, |q.head|, r1.(soft := true));
      AddToHeadKeeps(q, Add(q, r, where), r1, |q.head|);
    case Front =>
      assert [r1.(soft := true)] + q.head == InsertAt(q.head, 0, r1.(soft := true));
      AddToHeadKeeps(q, Add(q, r, where), r1, 0);
  }

  // ----- looking at the head of the queue -----

  lemma PushKeeps(c: bool, r: Rq, head: seq<Rq>, held: seq<Rq>, driver: map<nat, Rq>)
    requires Places(head, held, driver) && Kinds(head, held, driver) && !Live(head, held, driver, r.id) && KindOk(r)
    ensures Places(Push(c, r, head), held, driver) && Kinds(Push(c, r, head), held, driver)
    ensures forall id: nat :: Has(Push(c, r, head), id) <==> Has(head, id) || (c && id == r.id)
  {
    if c {
      assert Push(c, r, head) == InsertAt(head, 0, r);
      PlacesInsert(head, held, driver, 0, r);
      forall id: nat ensures Has(Push(c, r, head), id) <==> Has(head, id) || id == r.id { HasInsert(head, 0, r, id); }
    }
  }

  lemma WithProxiesKeeps(q: Queue, rest: seq<Rq>)
    requires Places(rest, q.held, q.driver) && Kinds(rest, q.held, q.driver)
    requires forall id :: 0 <= id < FIRST_ID ==> !Has(rest, id) && id !in q.driver
    ensures Places(WithProxies(q, rest), q.held, q.driver) && Kinds(WithProxies(q, rest), q.held, q.driver)
    ensures forall id: nat :: Has(WithProxies(q, rest), id) <==> Has(rest, id) || (id < FIRST_ID && HasPhase(q.mode, id))
  {
    forall id: nat | id < FIRST_ID ensures !Has(q.held, id) {}
    var h1 := Push(q.mode.postflush, FlushRq(q, POST_FLUSH), rest);
    PushKeeps(q.mode.postflush, FlushRq(q, POST_FLUSH), rest, q.held, q.driver);
    PushKeeps(q.mode.bar, BarRq(q), h1, q.held, q.driver);
    PushKeeps(q.mode.preflush, FlushRq(q, PRE_FLUSH), Push(q.mode.bar, BarRq(q), h1), q.held, q.driver);
  }

  /** The queue when start_ordered has dequeued the barrier and queued the proxies. */
  function Starting(q: Queue): Queue
    requires q.head != []
  {
    var r := q.head[0];
    var m := EffectiveMode(q.next, r.nsect);
    var q1 := q.(orderr := 0, mode := m, ordseq := OrdSeq(true, false, false, false, false), orig := r,
                 inFlight := q.inFlight + (if Account(r) then 1 else 0), log := q.log + [SeqStart(r.id, m)], seqAt := |q.log|);
    q1.(head := WithProxies(q1, q.head[1..]))
  }

  /** The barrier has left the queue, and the proxies its mode asks for have come. */
  lemma StartingPlaces(q: Queue)
    requires Core(q, NO_GAP) && q.head != [] && IsBarrier(q.head[0]) && !Active(q)
    ensures var q' := Starting(q);
            Sound(q')
            && (forall x: nat :: FIRST_ID <= x ==>
                  (Live(q'.head, q'.held, q'.driver, x) <==> Live(q.head, q.held, q.driver, x) && x != q.head[0].id))
            && forall id :: 0 <= id < FIRST_ID ==> ((Has(q'.head, id) || id in q'.driver) <==> HasPhase(q'.mode, id))
  {
    hide Window, History, ProperLog, Places, Kinds, Has, Accounted, EffectiveMode;
    var r, rest := q.head[0], q.head[1..];
    HeadRemove(q.head, q.held, q.driver, 0);
    RemoveAtIs(q.head, 0);
    assert q.head[..0] + rest == rest;
    HasAt(q.head, 0);
    WithProxiesKeeps(Starting(q), rest);
  }

  lemma StartingKeeps(q: Queue)
    requires Core(q, NO_GAP) && q.head != [] && IsBarrier(q.head[0]) && !Active(q)
    ensures var q' := Starting(q);
            Sound(q') && History(q') && ProperLog(q'.log) && OrigOk(q')
            && forall id :: 0 <= id < FIRST_ID ==> ((Has(q'.head, id) || id in q'.driver) <==> HasPhase(q'.mode, id))
  {
    hide Window, ProperLog, WithProxies, EffectiveMode;
    var r := q.head[0];
    var q' := Starting(q);
    StartingPlaces(q);
    assert Has(q.head, r.id);
    ExtendLog(q.log, SeqStart(r.id, q'.mode), 0);
    forall id ensures Fresh(q'.log, id) <==> Fresh(q.log, id) { FreshAppend(q.log, SeqStart(r.id, q'.mode), id); }
  }

  /** The phases start_ordered completes at once. */
  function Skipped(q: Queue): OrdSeq {
    OrdSeq(false, !(q.mode.drain && q.inFlight != 0), !q.mode.preflush, !q.mode.bar, !q.mode.postflush)
  }

  lemma StartOrderedIs(q: Queue)
    requires q.head != [] && q.ordseq == IDLE
    ensures StartOrdered(q).0 == CompleteSeq(Starting(q), Skipped(Starting(q)), 0).0
  {}

  lemma StartWindow(q: Queue, m: Mode, o: OrdSeq)
    requires q.seqAt < |q.log| && q.log[q.seqAt..] == [SeqStart(q.orig.id, m)] && m == q.mode && q.orderr == 0
    requires q.ordseq == o && forall id :: 0 <= id < FIRST_ID ==> (Bit(o, id) <==> !HasPhase(m, id))
    ensures Window(q)
  {
    var w := q.log[q.seqAt..];
    assert w[..|w| - 1] == [];
    assert q.log[q.seqAt] == w[0];
  }

  lemma StartOrderedKeeps(q: Queue)
    requires Core(q, NO_GAP) && ValidMode(q.next) && q.next != ORDERED_NONE
    requires q.head != [] && IsBarrier(q.head[0]) && !Active(q)
    ensures Core(StartOrdered(q).0, NO_GAP)
  {
    hide Sound, History, ProperLog, WithProxies, WindowAt, OrigOk;
    var q' := Starting(q);
    var bits := Skipped(q');
    var o := q'.ordseq.Or(bits);
    StartingKeeps(q);
    StartOrderedIs(q);
    StartWindow(q'.(ordseq := o), q'.mode, o);
    assert Open(q'.head, q'.driver, o, NO_GAP);
    assert q'.mode.tag ==> o.drain;
    SetBits(q', bits, 0, NO_GAP);
  }

  // ----- every step -----

  /** The head of the queue is marked started when it is handed over. */
  function MarkHead(q: Queue, e: Event): Queue
    requires q.head != []
  {
    q.(head := [q.head[0].(started := true)] + q.head[1..], log := q.log + [e])
  }

  lemma MarkHeadCore(q: Queue, e: Event)
    requires Core(q, NO_GAP) && q.head != [] && (e.Handed? || e.HandedProxy?)
    ensures Core(MarkHead(q, e), NO_GAP)
  {
    hide WindowAt, ProperLog;
    var q1 := q.(log := q.log + [e]);
    var q' := MarkHead(q, e);
    InnerEvent(q, q1, e);
    forall i | 0 <= i < |q'.head| ensures q'.head[i] == if i == 0 then q.head[0].(started := true) else q.head[i] {}
    forall x: nat ensures Has(q'.head, x) <==> Has(q.head, x) {
      if Has(q.head, x) {
        var i :| 0 <= i < |q.head| && q.head[i].id == x;
        assert q'.head[i].id == x;
      }
    }
    assert Sound(q');
  }

  /** On a queue without ordering support the barrier is failed at once. */
  lemma RejectCore(q: Queue, q': Queue)
    requires Core(q, NO_GAP) && q.head != [] && IsBarrier(q.head[0]) && !IsProxy(q.head[0]) && !Active(q)
    requires q' == q.(head := q.head[1..], ended := q.ended + 1, log := q.log + [Rejected(q.head[0].id)])
    ensures Core(q', NO_GAP)
  {
    hide WindowAt, ProperLog, Places, Kinds, Has, RemoveAt;
    var r := q.head[0];
    HeadRemove(q.head, q.held, q.driver, 0);
    RemoveAtIs(q.head, 0);
    assert q.head[..0] + q.head[1..] == q.head[1..];
    HasAt(q.head, 0);
    ExtendLog(q.log, Rejected(r.id), 0);
    forall id ensures Fresh(q'.log, id) <==> Fresh(q.log, id) { FreshAppend(q.log, Rejected(r.id), id); }
  }

  lemma DoOrderedCore(q: Queue)
    requires Core(q, NO_GAP) && ValidMode(q.next) && q.head != []
    ensures Core(DoOrdered(q).0, NO_GAP)
  {
    hide StartOrdered, ProperLog, WindowAt, Accounted;
    HasAt(q.head, 0);
    if !Active(q) && IsBarrier(q.head[0]) {
      if q.next != ORDERED_NONE {
        StartOrderedKeeps(q);
      } else {
        RejectCore(q, DoOrdered(q).0);
      }
    }
  }

  lemma FetchCore(q: Queue)
    requires Core(q, NO_GAP) && ValidMode(q.next) && q.head != []
    ensures Core(Fetch(q), NO_GAP)
  {
    hide Core, DoOrdered;
    var (q1, more, given) := DoOrdered(q);
    DoOrderedCore(q);
    if more && given && q1.head != [] {
      MarkHeadCore(q1, HandedEvent(q1, q1.head[0]));
    }
  }

  lemma CompleteSeqNext(q: Queue, bits: OrdSeq, error: int)
    ensures CompleteSeq(q, bits, error).0.next == q.next
  {}

  lemma ElvCompletedNext(q: Queue, r: Rq)
    ensures ElvCompleted(q, r).next == q.next
  {
    hide CompleteSeq;
    CompleteSeqNext(AccountDone(q, r), DRAIN_BIT, 0);
  }

  lemma CompleteNext(q: Queue, id: nat, error: int)
    requires id in q.driver
    ensures Complete(q, id, error).next == q.next
  {
    hide CompleteSeq, ElvCompleted;
    var r := q.driver[id];
    if IsProxy(r) {
      var q1 := (if id == BAR then BarError(q, error) else q).(driver := q.driver - {id});
      var q2 := ElvCompleted(q1, r);
      ElvCompletedNext(q1, r);
      CompleteSeqNext(q2.(log := q2.log + [PhaseDone(id, error)]), ProxyBit(id), error);
    } else {
      ElvCompletedNext(q.(driver := q.driver - {id}, log := q.log + [Completed(id)]), r);
    }
  }

  lemma FetchNext(q: Queue)
    requires q.head != []
    ensures Fetch(q).next == q.next
  {
    hide CompleteSeq;
    if q.ordseq == IDLE && IsBarrier(q.head[0]) && q.next != ORDERED_NONE {
      StartOrderedIs(q);
      CompleteSeqNext(Starting(q), Skipped(Starting(q)), 0);
    }
  }

  /** The ordering mode is set once, before the queue is used. */
  lemma NextKept(c: Callers, q: Queue, l: Label)
    requires Enabled(c, q, l)
    ensures Next(c, q, l).next == q.next
  {
    hide Fetch, Complete;
    match l
    case LFetch => FetchNext(q);
    case LComplete(id, error) => CompleteNext(q, id, error);
    case _ =>
  }

  /** Every step keeps the invariant, in every mode, whatever submitters do. */
  lemma CoreStep(c: Callers, q: Queue, l: Label)
    requires Core(q, NO_GAP) && ValidMode(q.next) && Enabled(c, q, l)
    ensures Core(Next(c, q, l), NO_GAP)
  {
    hide Core;
    match l
    case LAdd(r, where) => AddKeeps(q, r, where);
    case LDispatch(i, p) => DispatchKeeps(q, i, p);
    case LFetch => FetchCore(q);
    case LStart(i) => StartKeeps(q, i);
    case LComplete(id, error) => CompleteKeeps(q, id, error);
    case LBarError(error) => BarErrorKeeps(q, error);
    case LRequeue(id) => RequeueKeeps(q, id);
  }

  lemma InitialCore(q: Queue)
    requires Initial(q)
    ensures Core(q, NO_GAP)
  {
    assert Accounted(q.driver) == {};
  }

  lemma {:induction false} RunCore(c: Callers, q: Queue, ls: seq<Label>, q': Queue)
    requires Core(q, NO_GAP) && ValidMode(q.next) && Run(c, q, ls, q')
    ensures Core(q', NO_GAP)
    decreases |ls|
  {
    hide Core;
    if ls != [] {
      CoreStep(c, q, ls[0]);
      NextKept(c, q, ls[0]);
      RunCore(c, Next(c, q, ls[0]), ls[1..], q');
    }
  }
}
