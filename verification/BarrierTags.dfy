/** With ordered tags the flush before a barrier is handed out first, but need not have ended
    when the barrier goes out: the device keeps the order. */
module BarrierTags {
  import opened Blkdev
  import opened Barrier
  import opened BarrierOnce
  import opened BarrierPhases
  import BarrierTheorems

  /** Before the proxy of a barrier goes out, the flush has ended, in every run. */
  ghost predicate FlushEndsFirst(next: Mode) {
    forall c: Callers, q0: Queue, ls: seq<Label>, q: Queue, h: nat, b: nat ::
      Initial(q0) && q0.next == next && Run(c, q0, ls, q) && h < |q.log| && q.log[h] == HandedProxy(BAR, b) ==>
        Reported(q.log[..h], PRE_FLUSH, b)
  }

  lemma DrainEndsFirst(next: Mode, log: seq<Event>, h: nat, b: nat)
    requires PhaseLog(next, log) && h < |log| && log[h] == HandedProxy(BAR, b) && next.preflush && next.drain
    ensures Reported(log[..h], PRE_FLUSH, b)
  {
    hide Reported, HandedOut;
    assert PhaseEvent(next, log[..h], log[h]);
    var r: Rq :| Added(r) in log[..h] && r.id == b && IsBarrier(r);
    assert WentBefore(next, log[..h], PRE_FLUSH, b);
  }

  // ----- a run with ordered tags -----

  const B3 := Rq(3, true, true, false, false, false, false, false, true, 0, 8, 0)
  const B3_SOFT := B3.(soft := true)
  const PRE3 := Rq(PRE_FLUSH, false, true, true, false, false, false, false, false, 0, 0, 0)
  const BAR3 := Rq(BAR, true, true, true, false, false, false, false, true, 0, 8, 0)

  function Tagged(m: Mode): Queue { BarrierTheorems.EmptyQueue().(mode := m, next := m) }

  function BarrierQueued(m: Mode): Queue {
    Tagged(m).(head := [B3_SOFT], ordcolor := true, barriers := 1, log := [Added(B3)])
  }

  function Rest(m: Mode): seq<Rq> {
    if m.postflush then [Rq(POST_FLUSH, false, true, true, false, false, false, false, false, 0, 0, 0)] else []
  }

  function FlushOut(m: Mode): Queue {
    BarrierQueued(m).(head := [PRE3.(started := true), BAR3] + Rest(m), orig := B3_SOFT, seqAt := 1,
                      ordseq := OrdSeq(true, true, false, false, !m.postflush),
                      log := [Added(B3), SeqStart(3, m), HandedProxy(PRE_FLUSH, 3)])
  }

  function FlushAway(m: Mode): Queue {
    FlushOut(m).(head := [BAR3] + Rest(m), driver := map[PRE_FLUSH := PRE3.(started := true)])
  }

  function BarrierOut(m: Mode): Queue {
    FlushAway(m).(head := [BAR3.(started := true)] + Rest(m),
                  log := [Added(B3), SeqStart(3, m), HandedProxy(PRE_FLUSH, 3), HandedProxy(BAR, 3)])
  }

  predicate Flushing(m: Mode) { TagMode(m) && m.preflush }

  lemma BarrierComes(c: Callers, m: Mode)
    ensures BarrierTheorems.Step(c, Tagged(m), LAdd(B3, Back), BarrierQueued(m))
  {
    assert Add(Tagged(m), B3, Back).head == BarrierQueued(m).head;
  }

  lemma SequenceStarts(m: Mode)
    requires Flushing(m)
    ensures var (q, more, given) := StartOrdered(BarrierQueued(m));
      more && given && q == FlushOut(m).(head := [PRE3, BAR3] + Rest(m), log := [Added(B3), SeqStart(3, m)])
  {
    var q := BarrierQueued(m);
    assert q.head[1..] == [];
    assert StartOrdered(q).0.head == [PRE3, BAR3] + Rest(m);
  }

  lemma FlushGoes(c: Callers, m: Mode)
    requires Flushing(m)
    ensures BarrierTheorems.Step(c, BarrierQueued(m), LFetch, FlushOut(m))
  {
    SequenceStarts(m);
    hide StartOrdered;
    assert ([PRE3, BAR3] + Rest(m))[1..] == [BAR3] + Rest(m);
    assert Fetch(BarrierQueued(m)).head == FlushOut(m).head;
  }

  lemma FlushStarts(c: Callers, m: Mode)
    requires Flushing(m)
    ensures BarrierTheorems.Step(c, FlushOut(m), LStart(0), FlushAway(m))
  {
    assert Start(FlushOut(m), 0).head == FlushAway(m).head;
  }

  lemma BarrierGoes(c: Callers, m: Mode)
    requires Flushing(m)
    ensures BarrierTheorems.Step(c, FlushAway(m), LFetch, BarrierOut(m))
  {
    hide StartOrdered;
    assert Fetch(FlushAway(m)).head == BarrierOut(m).head;
  }

  lemma RunsAhead(c: Callers, m: Mode) returns (ls: seq<Label>)
    requires Flushing(m)
    ensures Run(c, Tagged(m), ls, BarrierOut(m))
  {
    hide BarrierTheorems.Step, Run, Tagged, BarrierQueued, FlushOut, FlushAway, BarrierOut;
    BarrierTheorems.NoStepRun(c, Tagged(m));
    BarrierComes(c, m);
    BarrierTheorems.StepRun(c, Tagged(m), [], Tagged(m), LAdd(B3, Back), BarrierQueued(m));
    ls := [] + [LAdd(B3, Back)];
    FlushGoes(c, m);
    BarrierTheorems.StepRun(c, Tagged(m), ls, BarrierQueued(m), LFetch, FlushOut(m));
    ls := ls + [LFetch];
    FlushStarts(c, m);
    BarrierTheorems.StepRun(c, Tagged(m), ls, FlushOut(m), LStart(0), FlushAway(m));
    ls := ls + [LStart(0)];
    BarrierGoes(c, m);
    BarrierTheorems.StepRun(c, Tagged(m), ls, FlushAway(m), LFetch, BarrierOut(m));
    ls := ls + [LFetch];
  }

  lemma NotReported(m: Mode)
    ensures BarrierOut(m).log[3] == HandedProxy(BAR, 3) && !Reported(BarrierOut(m).log[..3], PRE_FLUSH, 3)
  {
    assert BarrierOut(m).log[..3] == [Added(B3), SeqStart(3, m), HandedProxy(PRE_FLUSH, 3)];
  }

  /** On a queue that flushes before barriers the flush always ends before the data goes
      out exactly if the queue drains. */
  lemma FlushEndsFirstExactly(next: Mode)
    requires ValidMode(next) && next.preflush
    ensures FlushEndsFirst(next) <==> next.drain
  {
    if next.drain {
      forall c: Callers, q0: Queue, ls: seq<Label>, q: Queue, h: nat, b: nat
        | Initial(q0) && q0.next == next && Run(c, q0, ls, q) && h < |q.log| && q.log[h] == HandedProxy(BAR, b)
        ensures Reported(q.log[..h], PRE_FLUSH, b)
      {
        PhasesByMode(c, q0, ls, q);
        DrainEndsFirst(next, q.log, h, b);
      }
    } else {
      var c := Callers(false, false);
      assert Initial(Tagged(next));
      hide Run, Reported, BarrierOut, Tagged;
      var ls := RunsAhead(c, next);
      NotReported(next);
      NextOfTagged(next);
    }
  }

  lemma NextOfTagged(m: Mode)
    ensures Tagged(m).next == m && |BarrierOut(m).log| == 4
  {}
}
