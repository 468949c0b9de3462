/** Which request a dispatch call of the anticipatory scheduler takes, in which direction the
    batches go, and when requests expire. */
module AsOrder {
  import opened Optional
  import opened SortList
  import opened AsChoice
  import opened AsIosched
  import opened AsInvariant
  import opened Expiry

  // ----- batches and requests -----

  /** The batch has used its time, or has no writes left to issue. */
  predicate BatchOver(s: Data) {
    !s.batch.changed && !s.batch.isNew && (s.batch.expires < s.now || (!s.batch.sync && s.batch.writeCount == 0))
  }

  /** The head of the list has expired, and it is time to look. */
  predicate Overdue(t: Tunables, s: Data, d: bool) {
    var side := Of(s, d);
    && side.fifo != [] && side.fifo[0].expiry < s.now
    && (if d then t.syncFifo else t.asyncFifo) <= (if side.lastCheck <= s.now then s.now - side.lastCheck else side.lastCheck - s.now)
  }

  /** A new batch starts: the running one is over and both directions wait, or it has nothing
      to go on with. An expired read is not left behind for that. */
  predicate Starts(t: Tunables, s: Data) {
    || (s.sync.fifo != [] && s.async.fifo != [] && BatchOver(s))
    || (Of(s, s.batch.sync).next == None && !(s.batch.sync && t.anticExpire != 0 && Overdue(t, s, true)))
  }

  /** The direction of a new batch: that of the requests there are, and the other one if
      there are both. */
  predicate NewDirection(s: Data) { s.sync.fifo != [] && (s.async.fifo == [] || !s.batch.sync) }

  /** m of direction d was taken. */
  ghost predicate Takes(t: Tunables, s: Data, s': Data, d: bool, m: nat) {
    && s'.out == s.out + [m] && s'.batch.sync == d
    && if Starts(t, s) then d == NewDirection(s) && Of(s, d).fifo != [] && m == Of(s, d).fifo[0].id
       else d == s.batch.sync && (if Overdue(t, s, d) then m == Of(s, d).fifo[0].id else Of(s, d).next == Some(m))
  }

  lemma RunTakes(t: Tunables, s: Data, m: nat)
    ensures var (s', ok) := Run(t, s, m);
      && s'.batch.sync == s.batch.sync && (ok ==> s'.out == s.out + [m])
      && (!ok ==> s' == s && s.batch.changed) && (ok <==> !s.batch.changed || s.nrDispatched == 0)
  {
    hide FindNext, Drop, TreeIndex, FifoIndex;
  }

  lemma CheckedSame(t: Tunables, s: Data, d: bool)
    ensures var s1 := Checked(t, s, d);
      && s1.batch == s.batch && s1.out == s.out && s1.nrDispatched == s.nrDispatched && s1.now == s.now
      && (forall e: bool :: Of(s1, e).fifo == Of(s, e).fifo && Of(s1, e).next == Of(s, e).next)
      && (!Overdue(t, s, d) ==> !Overdue(t, s1, d)) && (FifoExpired(t, s, d) <==> Overdue(t, s, d))
  {}

  lemma ServiceTakes(t: Tunables, s: Data, rq: nat)
    ensures var (s', ok) := Service(t, s, rq); var d := s.batch.sync;
      && s'.batch.sync == d && (ok <==> !s.batch.changed || s.nrDispatched == 0) && (!ok ==> s'.batch.changed)
      && (ok ==> s'.out == s.out + [if Overdue(t, s, d) then Of(s, d).fifo[0].id else rq])
  {
    hide Run, Checked, Overdue, FifoExpired;
    CheckedSame(t, s, s.batch.sync);
    Expires(t, s, s.batch.sync);
    RunTakes(t, Checked(t, s, s.batch.sync), if FifoExpired(t, s, s.batch.sync) then Head(s, s.batch.sync) else rq);
  }

  lemma Expires(t: Tunables, s: Data, d: bool)
    ensures (FifoExpired(t, s, d) <==> Overdue(t, s, d)) && (FifoExpired(t, s, d) ==> Of(s, d).fifo != [])
  {}

  lemma SelectTakes(t: Tunables, s: Data)
    ensures var (s', ok) := Select(t, s); var d := NewDirection(s);
      if Of(s, d).fifo == [] then !ok && s' == s
      else
        && s'.batch.sync == d && (ok ==> s'.out == s.out + [Of(s, d).fifo[0].id])
        && (d != s.batch.sync ==> (ok <==> s.nrDispatched == 0) && (!ok ==> s'.batch.changed))
  {
    hide Service, Overdue;
    var d := NewDirection(s);
    if Of(s, d).fifo != [] { ServiceTakes(t, Switch(s, d), Head(s, d)); }
  }

  lemma GoOnTakes(t: Tunables, s: Data, s0: Data)
    requires s.batch.sync == s0.batch.sync && s.out == s0.out && (forall e: bool :: Of(s, e).fifo == Of(s0, e).fifo)
    requires Of(s, s.batch.sync).next == Of(s0, s.batch.sync).next
    requires Overdue(t, s, s.batch.sync) == Overdue(t, s0, s.batch.sync)
    requires !(s0.sync.fifo != [] && s0.async.fifo != [] && BatchOver(s0))
    requires s.batch.sync && t.anticExpire != 0 ==> !Overdue(t, s0, true)
    ensures var (s', ok) := GoOn(t, s); ok ==> exists d: bool, m: nat :: Takes(t, s0, s', d, m)
  {
    hide Service, Select, Overdue, BatchOver;
    var b := s.batch.sync;
    var rq := Of(s, b).next;
    var (s', ok) := GoOn(t, s);
    assert Of(s, true).fifo == Of(s0, true).fifo && Of(s, false).fifo == Of(s0, false).fifo;
    if rq == None {
      SelectTakes(t, s);
      if ok { assert Takes(t, s0, s', NewDirection(s), Of(s, NewDirection(s)).fifo[0].id); }
    } else {
      var s1 := if s.sync.fifo != [] && s.async.fifo == [] then s.(batch := s.batch.(expires := s.now + t.syncBatch)) else s;
      OverdueSame(t, s, s1, b);
      ServiceTakes(t, s1, rq.value);
      if ok {
        OverdueHead(t, s0, b);
        assert Takes(t, s0, s', b, if Overdue(t, s, b) then Of(s, b).fifo[0].id else rq.value);
      }
    }
  }

  lemma OverdueSame(t: Tunables, s: Data, s1: Data, d: bool)
    requires s1 == s.(batch := s1.batch)
    ensures Overdue(t, s1, d) == Overdue(t, s, d) && (Overdue(t, s, d) ==> Of(s, d).fifo != [])
  {}

  lemma OverdueHead(t: Tunables, s: Data, d: bool)
    ensures Overdue(t, s, d) ==> Of(s, d).fifo != []
  {}

  /** The state in which the choice is made: only the mark of an idle write batch is new. */
  function Marked(s: Data): Data {
    if !s.batch.sync && s.sync.fifo == [] && (s.batch.writeCount == 0 || s.async.fifo == [])
    then s.(batch := s.batch.(idled := true)) else s
  }

  lemma MarkedSame(t: Tunables, s: Data)
    ensures var s0 := Marked(s);
      && s0 == s.(batch := s.batch.(idled := s0.batch.idled)) && BatchOver(s0) == BatchOver(s)
      && (forall d: bool :: Of(s0, d) == Of(s, d) && Overdue(t, s0, d) == Overdue(t, s, d))
  {}

  lemma TakesMarked(t: Tunables, s: Data, s0: Data, s': Data, d: bool, m: nat)
    requires s0 == Marked(s) && Takes(t, s0, s', d, m)
    ensures Takes(t, s, s', d, m)
  {
    MarkedSame(t, s);
    hide Overdue, BatchOver, Marked;
    assert Of(s0, true) == Of(s, true) && Of(s0, false) == Of(s, false);
  }

  lemma ReadTakes(t: Tunables, s: Data, guess: bool)
    requires s.batch.sync && t.anticExpire != 0 && !(s.sync.fifo != [] && s.async.fifo != [] && BatchOver(s))
    ensures var (s', ok) := ReadBatch(t, s, guess); ok ==> exists d: bool, m: nat :: Takes(t, s, s', d, m)
  {
    hide GoOn, Run, Overdue, BatchOver, Checked, FifoExpired, CanAnticipate;
    var s1 := Checked(t, s, true);
    var (s', ok) := ReadBatch(t, s, guess);
    CheckedSame(t, s, true);
    if FifoExpired(t, s, true) {
      OverdueHead(t, s, true);
      RunTakes(t, s1, Head(s1, true));
      if ok { assert Takes(t, s, s', true, Of(s, true).fifo[0].id); }
    } else if ok {
      GoOnTakes(t, s1, s);
    }
  }

  /** Every call that serves a request: a new batch starts with the head of its list; a
      running one goes on with its head if that has expired and it is time to look, and with
      the next request of its direction otherwise. */
  lemma DispatchTakes(t: Tunables, s: Data, guess: bool)
    ensures var (s', ok) := Dispatch(t, s, guess); ok ==> exists d: bool, m: nat :: Takes(t, s, s', d, m)
  {
    MarkedSame(t, s);
    hide GoOn, ReadBatch, Select, Overdue, BatchOver, Takes;
    var s0 := Marked(s);
    var (s', ok) := Dispatch(t, s, guess);
    if ok {
      BatchIs(s0);
      if s0.sync.fifo != [] && s0.async.fifo != [] && BatchExpired(s0) {
        SwitchTakes(t, s0);
      } else if s0.batch.sync && t.anticExpire != 0 {
        ReadTakes(t, s0, guess);
      } else {
        GoOnTakes(t, s0, s0);
      }
      var d: bool, m: nat :| Takes(t, s0, s', d, m);
      TakesMarked(t, s, s0, s', d, m);
    }
  }

  lemma BatchIs(s: Data)
    ensures BatchExpired(s) == BatchOver(s)
  {}

  lemma SwitchTakes(t: Tunables, s: Data)
    requires s.sync.fifo != [] && s.async.fifo != [] && BatchOver(s)
    ensures var (s', ok) := Select(t, s); ok ==> exists d: bool, m: nat :: Takes(t, s, s', d, m)
  {
    hide Select, Overdue, BatchOver;
    SelectTakes(t, s);
    var (s', ok) := Select(t, s);
    var d := NewDirection(s);
    if ok { assert Takes(t, s, s', d, Of(s, d).fifo[0].id); }
  }

  /** When both directions wait and the batch is over, the next one is of the other
      direction: at once if nothing is in flight, and when it has completed otherwise. A
      batch of writes has its full number and its time; one of reads is timed later. */
  lemma BatchesAlternate(t: Tunables, s: Data, guess: bool)
    requires s.sync.fifo != [] && s.async.fifo != [] && BatchOver(s) && s.status != WaitReq && s.status != WaitNext
    ensures var (s', ok) := Dispatch(t, s, guess);
      && s'.batch.sync == !s.batch.sync && (ok <==> s.nrDispatched == 0)
      && (if ok then s'.out == s.out + [Of(s, s'.batch.sync).fifo[0].id] else s'.batch.changed)
      && StartsBatch(t, s, s', ok)
  {
    MarkedSame(t, s);
    BatchIs(s);
    hide Select, GoOn, ReadBatch, Overdue;
    SelectTakes(t, s);
    hide BatchOver;
    SelectStarts(t, s);
  }

  predicate StartsBatch(t: Tunables, s: Data, s': Data, ok: bool) {
    && (!s'.batch.sync ==> !s'.batch.idled && s'.batch.writeCount == if ok && s.batch.writeMax > 0 then s.batch.writeMax - 1 else s.batch.writeMax)
    && (ok ==> !s'.batch.changed && if s'.batch.sync then s'.batch.isNew else s'.batch.expires == s.now + t.asyncBatch)
  }

  lemma RunStarts(t: Tunables, s: Data, m: nat)
    requires s.batch.changed
    ensures var (s', ok) := Run(t, s, m); var b, b' := s.batch, s'.batch;
      && b'.sync == b.sync && b'.idled == b.idled && b'.writeMax == b.writeMax && ok == (s.nrDispatched == 0)
      && b'.writeCount == (if ok && !b.sync && b.writeCount > 0 then b.writeCount - 1 else b.writeCount)
      && (ok ==> !b'.changed && if b.sync then b'.isNew else b'.expires == s.now + t.asyncBatch)
  {
    hide FindNext, Drop, TreeIndex, FifoIndex, Remove, Context;
  }

  lemma SelectStarts(t: Tunables, s: Data)
    requires s.sync.fifo != [] && s.async.fifo != []
    ensures var (s', ok) := Select(t, s); StartsBatch(t, s, s', ok)
  {
    hide Run, Checked, Overdue, FifoExpired;
    var d := NewDirection(s);
    var s1 := Switch(s, d);
    CheckedSame(t, s1, d);
    Expires(t, s1, d);
    RunStarts(t, Checked(t, s1, d), if FifoExpired(t, s1, d) then Head(s1, d) else Head(s, d));
  }

  /** A batch runs from when the last request of the other direction has completed, and one
      of reads again from when its first read has, which also sizes the next batch of writes. */
  lemma BatchTimed(t: Tunables, s: Data, id: nat)
    requires Inv(t, s) && id in s.inDriver
    ensures var b, b', read := s.batch, Complete(t, s, id).batch, s.inDriver[id];
      && (b.changed && s.nrDispatched == 1 ==>
            !b'.changed && b'.sync == b.sync && b'.expires == s.now + (if b.sync then t.syncBatch else t.asyncBatch)
            && (b'.isNew <==> b.sync && !read))
      && (b.isNew && read ==> b' == b.(isNew := false, expires := s.now + t.syncBatch, writeMax := WriteMax(t, s)))
      && (!(b.changed && s.nrDispatched == 1) && !(b.isNew && read) ==> b' == b)
  {
    hide SideOk, Apart, WriteMax;
  }

  /** The number of writes in a batch shrinks only after a batch that took longer than its
      time without idling, and grows only after one that had none left before it was up; by
      half or double if it was far off, and by one otherwise. */
  lemma WriteMaxRule(t: Tunables, s: Data)
    requires s.batch.writeMax > 0
    ensures var n, m, b := WriteMax(t, s), s.batch.writeMax, s.batch;
      var left := if s.now < b.expires then b.expires - s.now else 0;
      var over := if b.expires < s.now then s.now - b.expires else 0;
      && (over > 0 && !b.idled ==> n == if over > 2 * t.asyncBatch then Max(m / 2, 1) else Max(m - 1, 1))
      && (0 < left <= t.asyncBatch && b.writeCount == 0 ==>
            n == if t.asyncBatch > 3 * (t.asyncBatch - left) then 2 * m else m + 1)
      && (over == left == 0 || (over > 0 && b.idled) || (left > 0 && b.writeCount != 0) ==> n == m)
  {}

  function Max(a: int, b: int): int { if a < b then b else a }

  // ----- expiry -----

  function NextDues(t: Tunables, s: Data, l: Step, dues: Dues): Dues {
    match l
    case Arrive(d, n, ioc, guess) => dues[n.id := {s.now + if d then t.syncFifo else t.asyncFifo}]
    case Absorb(d, req, next) => if req in dues && next in dues then dues[req := dues[req] + dues[next]] else dues
    case _ => dues
  }

  ghost predicate DuesOk(s: Data, dues: Dues) { AllEarliest(s.sync.fifo, dues) && AllEarliest(s.async.fifo, dues) }

  /** The lists of s' hold nothing that those of s do not. */
  ghost predicate Fewer(s: Data, s': Data) {
    (forall e: Entry :: e in s'.sync.fifo ==> e in s.sync.fifo) && forall e: Entry :: e in s'.async.fifo ==> e in s.async.fifo
  }

  lemma FewerDues(s: Data, s': Data, dues: Dues)
    requires DuesOk(s, dues) && Fewer(s, s')
    ensures DuesOk(s', dues)
  {}

  lemma DropFewer(fifo: seq<Entry>, i: nat)
    ensures forall e: Entry :: e in Drop(fifo, i) ==> e in fifo
  {}

  lemma MoveFewer(s: Data, d: bool, id: nat)
    ensures Fewer(s, Move(s, d, id)) && Move(s, d, id).now == s.now
  {
    hide Drop, FindNext;
    DropFewer(Of(s, d).fifo, FifoIndex(Of(s, d).fifo, id));
  }

  lemma AddRbFewer(s: Data, d: bool, n: Node)
    ensures Fewer(s, AddRb(s, d, n)) && AddRb(s, d, n).now == s.now
  {
    hide Move, Alias, Place, InsertAt;
    var a := Alias(Of(s, d).tree, n.sector);
    if a.Some? { MoveFewer(s, d, a.value); }
  }

  lemma ArriveDues(t: Tunables, s: Data, d: bool, n: Node, ioc: Option<nat>, guess: bool, dues: Dues)
    requires DuesOk(s, dues) && !Queued(s, n.id)
    ensures DuesOk(Add(t, s, d, n, ioc, guess), NextDues(t, s, Arrive(d, n, ioc, guess), dues))
  {
    hide AllEarliest, InFifo, AddRb, CanBreak, ChooseReq;
    var s0 := if ioc.Some? then s.(iocOf := s.iocOf[n.id := ioc.value]) else s.(iocOf := s.iocOf - {n.id});
    AddRbFewer(s0, d, n);
    var s1 := AddRb(s0, d, n);
    FewerDues(s0, s1, dues);
    StillAbsent(s.sync.fifo, s1.sync.fifo, n.id);
    StillAbsent(s.async.fifo, s1.async.fifo, n.id);
    var due := s.now + if d then t.syncFifo else t.asyncFifo;
    AppendEarliest(Of(s1, d).fifo, n.id, due, dues);
    OthersEarliest(Of(s1, !d).fifo, n.id, {due}, dues);
  }

  lemma StillAbsent(fifo: seq<Entry>, fifo': seq<Entry>, id: nat)
    requires !InFifo(fifo, id) && forall e: Entry :: e in fifo' ==> e in fifo
    ensures !InFifo(fifo', id)
  {
    forall i | 0 <= i < |fifo'| ensures fifo'[i].id != id {
      assert fifo'[i] in fifo';
      var k :| 0 <= k < |fifo| && fifo[k] == fifo'[i];
    }
  }

  lemma Lists(t: Tunables, s: Data, d: bool)
    requires Inv(t, s)
    ensures FifoIds(Of(s, d).fifo) && forall id: nat :: InFifo(Of(s, d).fifo, id) ==> !InFifo(Of(s, !d).fifo, id)
  {
    hide InTree, InFifo, SortedTree, TreeIds, FifoIds, SortedFifo, AnticOk, CountOk;
  }

  lemma AbsorbDues(t: Tunables, s: Data, d: bool, req: nat, next: nat, dues: Dues)
    requires Inv(t, s) && DuesOk(s, dues) && Enabled(s, Absorb(d, req, next))
    ensures DuesOk(Merged(s, d, req, next), NextDues(t, s, Absorb(d, req, next), dues))
  {
    Lists(t, s, d);
    hide AllEarliest, InFifo, FifoIds, SideOk, Drop, Overtaken, FindNext;
    var fifo := Of(s, d).fifo;
    MergeEarliest(fifo, req, next, dues);
    var g := Overtaken(fifo, req, next);
    DropEarliest(g, FifoIndex(g, next), dues[req := dues[req] + dues[next]]);
    OthersEarliest(Of(s, !d).fifo, req, dues[req] + dues[next], dues);
  }

  lemma FewerChain(a: Data, b: Data, c: Data)
    requires Fewer(a, b) && Fewer(b, c)
    ensures Fewer(a, c)
  {}

  lemma SameFewer(s: Data, s': Data)
    requires s'.sync.fifo == s.sync.fifo && s'.async.fifo == s.async.fifo
    ensures Fewer(s, s')
  {}

  lemma RunFewer(t: Tunables, s: Data, m: nat)
    ensures Fewer(s, Run(t, s, m).0)
  {
    hide Move, Fewer;
    SameFewer(s, s);
    var b := s.batch;
    var b1 := if !b.changed then b
              else if b.sync then b.(isNew := true, changed := false)
              else b.(expires := s.now + t.asyncBatch, changed := false);
    SameFewer(s, s.(batch := b1));
    MoveFewer(s.(batch := b1), b.sync, m);
    FewerChain(s, s.(batch := b1), Move(s.(batch := b1), b.sync, m));
  }

  lemma ServiceFewer(t: Tunables, s: Data, rq: nat)
    ensures Fewer(s, Service(t, s, rq).0)
  {
    hide Run, Fewer, CheckDue;
    var s1 := Checked(t, s, s.batch.sync);
    SameFewer(s, s1);
    RunFewer(t, s1, if FifoExpired(t, s, s.batch.sync) then Head(s, s.batch.sync) else rq);
    FewerChain(s, s1, Service(t, s, rq).0);
  }

  lemma SelectFewer(t: Tunables, s: Data)
    ensures Fewer(s, Select(t, s).0)
  {
    hide Service, Fewer;
    SameFewer(s, s);
    var d := s.sync.fifo != [] && !(s.async.fifo != [] && s.batch.sync);
    if Of(s, d).fifo != [] {
      SameFewer(s, Switch(s, d));
      ServiceFewer(t, Switch(s, d), Head(s, d));
      FewerChain(s, Switch(s, d), Select(t, s).0);
    }
  }

  lemma GoOnFewer(t: Tunables, s: Data)
    ensures Fewer(s, GoOn(t, s).0)
  {
    hide Service, Select, Fewer;
    var rq := Of(s, s.batch.sync).next;
    var s1 := s.(batch := s.batch.(expires := s.now + t.syncBatch));
    SelectFewer(t, s);
    SameFewer(s, s1);
    if rq.Some? {
      ServiceFewer(t, s, rq.value);
      ServiceFewer(t, s1, rq.value);
      FewerChain(s, s1, Service(t, s1, rq.value).0);
    }
  }

  lemma ReadFewer(t: Tunables, s: Data, guess: bool)
    ensures Fewer(s, ReadBatch(t, s, guess).0)
  {
    hide Run, GoOn, Fewer, CheckDue, CanAnticipate;
    var s1 := Checked(t, s, true);
    SameFewer(s, s1);
    if FifoExpired(t, s, true) {
      RunFewer(t, s1, Head(s1, true));
      FewerChain(s, s1, Run(t, s1, Head(s1, true)).0);
    } else if CanAnticipate(t, s1, s1.sync.next, guess) {
      SameFewer(s, ReadBatch(t, s, guess).0);
    } else {
      GoOnFewer(t, s1);
      FewerChain(s, s1, GoOn(t, s1).0);
    }
  }

  lemma DispatchFewer(t: Tunables, s: Data, guess: bool)
    ensures Fewer(s, Dispatch(t, s, guess).0)
  {
    hide GoOn, ReadBatch, Select, Fewer;
    var s0 := Marked(s);
    SameFewer(s, s0);
    SelectFewer(t, s0);
    ReadFewer(t, s0, guess);
    GoOnFewer(t, s0);
    FewerChain(s, s0, Select(t, s0).0);
    FewerChain(s, s0, ReadBatch(t, s0, guess).0);
    FewerChain(s, s0, GoOn(t, s0).0);
  }

  lemma {:induction false} FlushFewer(s: Data, d: bool)
    ensures Fewer(s, Flush(s, d))
    decreases |Of(s, d).tree|
  {
    hide Fewer, Move;
    SameFewer(s, s);
    var side := Of(s, d);
    if side.next.Some? && TreeIndex(side.tree, side.next.value) < |side.tree| {
      var s1 := Move(s, d, side.next.value);
      MoveFewer(s, d, side.next.value);
      MoveShrinks(s, d, side.next.value);
      FlushFewer(s1, d);
      FewerChain(s, s1, Flush(s1, d));
    }
  }

  lemma MoveShrinks(s: Data, d: bool, id: nat)
    requires TreeIndex(Of(s, d).tree, id) < |Of(s, d).tree|
    ensures |Of(Move(s, d, id), d).tree| < |Of(s, d).tree|
  {
    hide FindNext, FifoIndex;
  }

  lemma ForceFewer(s: Data)
    ensures Fewer(s, Force(s))
  {
    hide Fewer, Flush;
    var s0 := s.(batch := s.batch.(sync := true, changed := false, isNew := false));
    SameFewer(s, s0);
    FlushFewer(s0, true);
    var s1 := Flush(s0, true);
    FewerChain(s, s0, s1);
    var s2 := s1.(sync := s1.sync.(lastCheck := s.now));
    SameFewer(s1, s2);
    FlushFewer(s2, false);
    FewerChain(s, s1, s2);
    FewerChain(s, s2, Flush(s2, false));
    SameFewer(Flush(s2, false), Force(s));
    FewerChain(s, Flush(s2, false), Force(s));
  }

  lemma FrontFewer(s: Data, d: bool, id: nat, sector: nat, nsect: nat)
    ensures Fewer(s, FrontMerged(s, d, id, sector, nsect))
  {
    hide Fewer, AddRb, Drop;
    var s0 := With(s, d, Of(s, d).(tree := Drop(Of(s, d).tree, TreeIndex(Of(s, d).tree, id))));
    SameFewer(s, s0);
    AddRbFewer(s0, d, Node(id, sector, nsect));
    FewerChain(s, s0, FrontMerged(s, d, id, sector, nsect));
  }

  lemma StepDues(t: Tunables, s: Data, l: Step, dues: Dues)
    requires Inv(t, s) && Enabled(s, l) && DuesOk(s, dues)
    ensures DuesOk(Next(t, s, l), NextDues(t, s, l, dues))
  {
    hide Inv, DuesOk, Add, FrontMerged, Merged, Dispatch, Force, Complete, InFifo, Fewer;
    match l
    case Arrive(d, n, ioc, guess) => ArriveDues(t, s, d, n, ioc, guess, dues);
    case Front(d, id, sector, nsect) =>
      FrontFewer(s, d, id, sector, nsect);
      FewerDues(s, Next(t, s, l), dues);
    case Absorb(d, req, next) => AbsorbDues(t, s, d, req, next, dues);
    case Serve(guess) =>
      DispatchFewer(t, s, guess);
      FewerDues(s, Next(t, s, l), dues);
    case Drain =>
      ForceFewer(s);
      FewerDues(s, Next(t, s, l), dues);
    case Done(id) =>
      CompleteFewer(t, s, id);
      FewerDues(s, Next(t, s, l), dues);
    case _ =>
      SameFewer(s, Next(t, s, l));
      FewerDues(s, Next(t, s, l), dues);
  }

  lemma CompleteFewer(t: Tunables, s: Data, id: nat)
    requires id in s.inDriver
    ensures Fewer(s, Complete(t, s, id))
  {
    hide BatchDone;
  }

  /** ls leads from s to s', and the expiry times that were set from dues to dues'. */
  ghost predicate Timed(t: Tunables, s: Data, dues: Dues, ls: seq<Step>, s': Data, dues': Dues)
    decreases |ls|
  {
    if ls == [] then s == s' && dues == dues'
    else Enabled(s, ls[0]) && Timed(t, Next(t, s, ls[0]), NextDues(t, s, ls[0], dues), ls[1..], s', dues')
  }

  /** Over every run: a queued request expires at the earliest of the times set by its own
      arrival and by those of the requests it has absorbed. */
  lemma {:induction false} ExpiresInTime(t: Tunables, s: Data, dues: Dues, ls: seq<Step>, s': Data, dues': Dues)
    requires Inv(t, s) && DuesOk(s, dues) && Timed(t, s, dues, ls, s', dues')
    ensures DuesOk(s', dues')
    decreases |ls|
  {
    hide Inv, DuesOk, Enabled, Next, NextDues;
    if ls != [] {
      StepKeepsInv(t, s, ls[0]);
      StepDues(t, s, ls[0], dues);
      ExpiresInTime(t, Next(t, s, ls[0]), NextDues(t, s, ls[0], dues), ls[1..], s', dues');
    }
  }
}
