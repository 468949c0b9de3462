/** Why the bound on the wait of an overdue write needs its condition: runs in which the
    write is absorbed by one of the same expiry from the end of the list. */
module DeadlineAbsorb {
  import opened Optional
  import opened SortList
  import opened Deadline
  import opened DeadlineInvariant
  import opened DeadlineService

  // Writes 0 to m - 1 arrive at once and are not contiguous; write m, which arrives last,
  // grows until it ends where write 0 starts.

  function Write(j: nat): Node { Node(j, 8 + 16 * j, 8) }

  function Grown(m: nat): Node { Node(m, 0, 8) }

  /** Writes i to m - 1 in the tree and in the list. */
  function Nodes(i: nat, m: nat): seq<Node>
    requires i <= m
  {
    seq(m - i, k requires 0 <= k < m - i => Write(i + k))
  }

  function Entries(i: nat, m: nat, e: nat): seq<Entry>
    requires i <= m
  {
    seq(m - i, k requires 0 <= k < m - i => Entry(i + k, e))
  }

  lemma NodesLast(m: nat)
    ensures Nodes(0, m + 1) == Nodes(0, m) + [Write(m)]
  {}

  lemma EntriesLast(m: nat, e: nat)
    ensures Entries(0, m + 1, e) == Entries(0, m, e) + [Entry(m, e)]
  {}

  lemma NodesFirst(i: nat, m: nat)
    requires i < m
    ensures Nodes(i, m) == [Write(i)] + Nodes(i + 1, m) && |Nodes(i, m)| == m - i
  {}

  lemma EntriesFirst(i: nat, m: nat, e: nat)
    requires i < m
    ensures Entries(i, m, e) == [Entry(i, e)] + Entries(i + 1, m, e)
  {}

  function Waiting(tree: seq<Node>, fifo: seq<Entry>): Data { INITIAL.(write := Side(tree, fifo, None)) }

  /** The first m writes have arrived. */
  function Arrived(t: Tunables, m: nat): Data { Waiting(Nodes(0, m), Entries(0, m, t.writeExpire)) }

  /** And write m as well. */
  function AllArrived(t: Tunables, m: nat): Data {
    Waiting([Node(m, 0, 4)] + Nodes(0, m), Entries(0, m, t.writeExpire) + [Entry(m, t.writeExpire)])
  }

  /** All are overdue, and writes m and 0 are contiguous. */
  function Contiguous(t: Tunables, m: nat): Data {
    Waiting([Grown(m)] + Nodes(0, m), Entries(0, m, t.writeExpire) + [Entry(m, t.writeExpire)]).(now := t.writeExpire + 1)
  }

  lemma AddIs(t: Tunables, s: Data, n: Node, p: nat)
    requires Place(s.write.tree, n.sector) == p && (p < |s.write.tree| ==> s.write.tree[p].sector != n.sector)
    ensures Next(t, s, Arrive(true, n)) ==
      s.(write := Side(InsertAt(s.write.tree, p, n), s.write.fifo + [Entry(n.id, s.now + t.writeExpire)], s.write.next))
  {
    hide Place, InsertAt;
  }

  lemma ArriveNext(t: Tunables, m: nat)
    ensures var l := Arrive(true, Write(m)); Enabled(Arrived(t, m), l) && Next(t, Arrived(t, m), l) == Arrived(t, m + 1)
  {
    var tree := Nodes(0, m);
    var p := Place(tree, 8 + 16 * m);
    assert p < m ==> tree[p] == Write(p);
    AddIs(t, Arrived(t, m), Write(m), m);
    NodesLast(m);
    EntriesLast(m, t.writeExpire);
    assert InsertAt(tree, m, Write(m)) == tree + [Write(m)];
  }

  lemma ArriveLast(t: Tunables, m: nat)
    ensures var l := Arrive(true, Node(m, 0, 4)); Enabled(Arrived(t, m), l) && Next(t, Arrived(t, m), l) == AllArrived(t, m)
  {
    var tree := Nodes(0, m);
    assert m > 0 ==> tree[0] == Write(0);
    AddIs(t, Arrived(t, m), Node(m, 0, 4), 0);
    assert InsertAt(tree, 0, Node(m, 0, 4)) == [Node(m, 0, 4)] + tree;
  }

  lemma GrowLast(t: Tunables, m: nat)
    ensures var s, l := AllArrived(t, m).(now := t.writeExpire + 1), Back(true, m, 8);
      Enabled(s, l) && Next(t, s, l) == Contiguous(t, m)
  {
    var s := AllArrived(t, m).(now := t.writeExpire + 1);
    assert s.write.fifo[m].id == m;
    assert s.write.tree[0 := Grown(m)] == [Grown(m)] + Nodes(0, m);
  }

  lemma {:induction false} ThenStep(t: Tunables, s: Data, ls: seq<Step>, s': Data, l: Step)
    requires Run(t, s, ls, s') && Enabled(s', l)
    ensures Run(t, s, ls + [l], Next(t, s', l))
    decreases |ls|
  {
    hide Enabled, Next;
    if ls == [] {
      assert [l][1..] == [] && [] + [l] == [l];
    } else {
      ThenStep(t, Next(t, s, ls[0]), ls[1..], s', l);
      assert (ls + [l])[1..] == ls[1..] + [l];
    }
  }

  lemma {:induction false} ReachArrived(t: Tunables, m: nat) returns (ls: seq<Step>)
    ensures Run(t, INITIAL, ls, Arrived(t, m))
  {
    ls := [];
    if m == 0 {
      assert Arrived(t, 0) == INITIAL;
    } else {
      hide Enabled, Next, Arrived;
      ls := ReachArrived(t, m - 1);
      ArriveNext(t, m - 1);
      ThenStep(t, INITIAL, ls, Arrived(t, m - 1), Arrive(true, Write(m - 1)));
      ls := ls + [Arrive(true, Write(m - 1))];
    }
  }

  lemma ReachContiguous(t: Tunables, m: nat) returns (ls: seq<Step>)
    ensures Run(t, INITIAL, ls, Contiguous(t, m))
  {
    var late := Tick(t.writeExpire + 1);
    assert Enabled(AllArrived(t, m), late);
    assert Next(t, AllArrived(t, m), late) == AllArrived(t, m).(now := t.writeExpire + 1);
    hide Enabled, Next, Arrived, AllArrived, Contiguous, Run;
    ls := ReachArrived(t, m);
    ArriveLast(t, m);
    ThenStep(t, INITIAL, ls, Arrived(t, m), Arrive(true, Node(m, 0, 4)));
    ls := ls + [Arrive(true, Node(m, 0, 4))];
    ThenStep(t, INITIAL, ls, AllArrived(t, m), late);
    ls := ls + [late];
    GrowLast(t, m);
    ThenStep(t, INITIAL, ls, AllArrived(t, m).(now := t.writeExpire + 1), Back(true, m, 8));
    ls := ls + [Back(true, m, 8)];
  }

  /** Write m has absorbed write 0, and writes up to i - 1 have been served. */
  ghost predicate Going(t: Tunables, s: Data, m: nat, i: nat) {
    && 1 <= i <= m && s.read == NO_REQUESTS && s.now == t.writeExpire + 1
    && s.write.tree == [Grown(m)] + Nodes(i, m)
    && s.write.fifo == Entries(i, m, t.writeExpire) + [Entry(m, t.writeExpire)]
    && (s.write.next == None || (i < m && s.write.next == Some(i)))
  }

  lemma FirstIs(t: Tunables, m: nat)
    requires m > 0
    ensures var f := Contiguous(t, m).write.fifo; FifoIndex(f, 0) == 0 && FifoIndex(f, m) == m && f[m] == Entry(m, t.writeExpire)
  {
    var f := Contiguous(t, m).write.fifo;
    assert f[0].id == 0 && f[m].id == m;
  }

  lemma AbsorbFirst(t: Tunables, m: nat)
    requires m > 0
    ensures var s, l := Contiguous(t, m), Absorb(true, m, 0); Enabled(s, l) && Going(t, Next(t, s, l), m, 1)
  {
    var s := Contiguous(t, m);
    var f, tree := s.write.fifo, s.write.tree;
    FirstIs(t, m);
    assert Overtaken(f, m, 0) == f;
    NodesFirst(0, m);
    EntriesFirst(0, m, t.writeExpire);
    assert tree[0].id == m && tree[1].id == 0;
    assert TreeIndex(tree, 0) == 1;
    assert Drop(tree, 1) == [Grown(m)] + Nodes(1, m);
    assert Drop(f, 0) == Entries(1, m, t.writeExpire) + [Entry(m, t.writeExpire)];
  }

  /** The next write is served first: it is the first in the list, and the next in the tree. */
  lemma GoOn(t: Tunables, s: Data, m: nat, i: nat)
    requires Going(t, s, m, i) && i < m
    ensures Going(t, Next(t, s, Serve), m, i + 1)
  {
    hide Move, Nodes, Entries;
    EntriesFirst(i, m, t.writeExpire);
    var s1 := if s.write.next.Some? && s.batching < t.fifoBatch then s.(batching := s.batching + 1)
              else s.(starved := 0, batching := 1);
    assert Next(t, s, Serve) == Move(s1, true, i);
    MoveGoes(t, s1, m, i);
  }

  lemma MoveGoes(t: Tunables, s: Data, m: nat, i: nat)
    requires Going(t, s, m, i) && i < m
    ensures Going(t, Move(s, true, i), m, i + 1)
  {
    hide Nodes, Entries;
    var f, tree := s.write.fifo, s.write.tree;
    NodesFirst(i, m);
    EntriesFirst(i, m, t.writeExpire);
    assert tree[1] == Write(i) && tree[0].id == m && f[0].id == i;
    assert TreeIndex(tree, i) == 1 && FifoIndex(f, i) == 0;
    assert Drop(tree, 1) == [Grown(m)] + Nodes(i + 1, m);
    assert Drop(f, 0) == Entries(i + 1, m, t.writeExpire) + [Entry(m, t.writeExpire)];
    if i + 1 < m {
      NodesFirst(i + 1, m);
      assert tree[2] == Write(i + 1);
    }
  }

  lemma LastIsQueued(t: Tunables, s: Data, m: nat, i: nat)
    requires Going(t, s, m, i)
    ensures i <= m && InFifo(s.write.fifo, m)
  {
    assert s.write.fifo[m - i].id == m;
  }

  function Dispatches(k: nat): seq<Step> { if k == 0 then [] else [Serve] + Dispatches(k - 1) }

  lemma {:induction false} ServeOthers(t: Tunables, s: Data, m: nat, i: nat) returns (s': Data)
    requires Going(t, s, m, i)
    ensures var ls := Dispatches(m - i); Run(t, s, ls, s') && Waits(t, s, ls, m) && Serves(ls) == m - i
    decreases m - i
  {
    hide Going, Next, InFifo;
    LastIsQueued(t, s, m, i);
    s' := s;
    if i < m {
      var s1 := Next(t, s, Serve);
      GoOn(t, s, m, i);
      s' := ServeOthers(t, s1, m, i + 1);
      assert Dispatches(m - i)[1..] == Dispatches(m - i - 1);
    }
  }

  /** With that exception there is no bound by place: for all tunables and any n there is a
      run of a new scheduler in which the write is overdue and first in the list, and n
      dispatches happen while its data waits. */
  lemma AbsorptionBreaksBound(t: Tunables, n: nat)
    ensures exists pre: seq<Step>, s: Data, ls: seq<Step>, s': Data, w: nat ::
      Run(t, INITIAL, pre, s) && Run(t, s, ls, s') && Overdue(s, w) && FifoIndex(s.write.fifo, w) == 0
      && Waits(t, s, ls, w) && !NeverBack(t, s, ls, w) && Serves(ls) >= n
  {
    var m, s, l := n + 2, Contiguous(t, n + 2), Absorb(true, n + 2, 0);
    var s1 := Next(t, s, l);
    FirstIs(t, m);
    assert s.write.fifo[0] == Entry(0, t.writeExpire);
    assert Overdue(s, 0) && MovesBack(s, l, 0);
    AbsorbFirst(t, m);
    hide Next, Enabled, FifoIndex, Overdue, Contiguous, Going, MovesBack, InFifo;
    var pre := ReachContiguous(t, m);
    var s' := ServeOthers(t, s1, m, 1);
    var ls := [l] + Dispatches(m - 1);
    assert ls[1..] == Dispatches(m - 1);
    assert Run(t, s, ls, s') && Waits(t, s, ls, 0) && !NeverBack(t, s, ls, 0) && Serves(ls) >= n;
  }
}
