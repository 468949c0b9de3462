/** Whose turn it is in fair queueing: the keys queues get, the queue that is selected, and
    the end of a slice. */
module CfqTurn {
  import opened Cfq
  import opened CfqInvariant
  import opened CfqService
  import opened CfqTheorems
  import opened IdList
  import opened Optional
  import opened SortList

  /** A queue that is no idle one gets the time and its offset for its key, wherever it was
      in the tree. */
  lemma KeyGiven(s: Data, q: nat, offset: int)
    requires q in s.queues && s.queues[q].cls != Idle
    ensures q in ServiceAdd(s, q, false, offset).queues && ServiceAdd(s, q, false, offset).queues[q].key == s.now + offset
  {
    hide ServicePlace, InsertAt, Without;
  }

  /** The active queue keeps its turn. */
  predicate GoesOn(s: Data, c: Choice) {
    s.active.Some? && !c.used && s.active.value in s.queues && s.queues[s.active.value].tree != []
  }

  /** The active queue is empty, but more is expected of it. */
  predicate Idles(s: Data, c: Choice) { s.active.Some? && !c.used && c.close == None && c.idle && !GoesOn(s, c) }

  /** A queue whose turn is over gets a new key and loses its turn; nothing else changes. */
  lemma TurnOver(s: Data, offset: int)
    requires Inv(s)
    ensures var s' := Expired(s, offset); Inv(s') && SameRequests(s, s') && s'.active == None
    ensures var s' := Expired(s, offset); forall q: nat :: q in s.queues && q in s'.queues ==>
      if s.active != Some(q) then s'.queues[q].key == s.queues[q].key
      else s.queues[q].onRr && s.queues[q].cls != Idle ==> s'.queues[q].key == s.now + offset
  {
    hide Inv, ServiceAdd, ServiceBut, QueueBut;
    ExpiredOk(s, offset);
    ActiveKnown(s);
    if s.active.Some? {
      var a := s.active.value;
      ServiceOf(s);
      ResortOk(s, a, offset);
      if s.queues[a].cls != Idle { KeyGiven(s, a, offset); }
    }
  }

  /** Unless the active queue goes on or idles, its turn is over; then the queue close by is
      selected if there is one, and otherwise one that comes after no other busy queue, by
      class and by the keys as they are then. */
  lemma TurnIsFirst(s: Data, c: Choice)
    requires Inv(s) && s.busy != 0 && ChoiceOk(s, c)
    ensures var (s', q) := Select(s, c); var close := s.active.Some? && !c.used && c.close.Some?;
      if GoesOn(s, c) then s' == s && q == s.active
      else if Idles(s, c) then s' == s && q == None
      else
        && q.Some? && s'.active == q && q.value in s'.queues && s'.queues == Expired(s, c.offset).queues
        && (close ==> q == c.close)
        && (!close ==> forall p: nat :: p in s'.queues && s'.queues[p].tree != [] ==> NoLater(s'.queues[q.value], s'.queues[p]))
  {
    hide Inv, Expired, First, NoLater;
    if !GoesOn(s, c) && !Idles(s, c) {
      SelectOk(s, c);
      TurnOver(s, c.offset);
      var s1 := Expired(s, c.offset);
      BusyIsService(s1);
      ServiceOf(s1);
      FirstOk(s1);
      hide ServiceBut;
      forall p: nat | p in s1.queues && s1.queues[p].tree != [] ensures First(s1).1.Some? && NoLaterFirst(s1, p) {
        Flagged(s1, p);
        FirstIsLeast(s1, p);
      }
    }
  }

  ghost predicate NoLaterFirst(s: Data, p: nat) {
    p in s.queues && First(s).1.Some? && First(s).1.value in s.queues && NoLater(s.queues[First(s).1.value], s.queues[p])
  }

  lemma Flagged(s: Data, p: nat)
    requires Inv(s) && p in s.queues && s.queues[p].tree != []
    ensures s.queues[p].onRr
  {
    hide InOrder, SortedTree, TreeIds, FifoIds, Count, ServiceBut;
  }

  /** After a dispatch the queue keeps its turn, unless its slice is over and another queue
      is busy. */
  lemma SliceEnds(t: Tunables, s: Data, c: Choice)
    requires Inv(s) && ChoiceOk(s, c) && Dispatch(t, s, c).1
    ensures var s' := Dispatch(t, s, c).0;
      s'.active == if s'.busy > 1 && c.over then None else Select(s, c).1
  {
    hide Inv, Select, Expired, Move;
    SelectOk(s, c);
    TurnIsFirst(s, c);
    var (s1, q) := Select(s, c);
    ServeOk(t, s1, q.value, c);
    ServeKeepsTurn(t, s1, q.value, c);
    ExpiredOk(Serve(t, s1, q.value, c).0, c.offset);
  }

  lemma ServeKeepsTurn(t: Tunables, s: Data, q: nat, c: Choice)
    requires Inv(s) && Servable(s, q)
    ensures Serve(t, s, q, c).0.active == s.active
  {
    hide Inv, InFifo, InTree, Move, QueueBut, Dispatched;
    Focus(s, q);
    if c.may {
      var u := s.queues[q];
      ChosenOk(s, q, c.oldest);
      MoveOk(t, s, q, if c.oldest then u.fifo[0].id else u.next.value, None);
    }
  }
}
