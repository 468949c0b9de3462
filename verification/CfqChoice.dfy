/** Which request of a queue the fair queueing scheduler takes next: cfq_choose_req and
    cfq_find_next_rq of block/cfq-iosched.c, in terms of sectors and kinds of requests. */
module CfqChoice {
  import opened Cfq
  import opened CfqInvariant
  import opened CfqService
  import opened IdList
  import opened Optional
  import opened SortList

  /** a is taken, whichever of the two is named first. */
  ghost predicate Takes(t: Tunables, s: Data, a: Node, b: Node) {
    ChooseReq(t, s, Some(a), Some(b)) == Some(a) && ChooseReq(t, s, Some(b), Some(a)) == Some(a)
  }

  predicate SameKind(s: Data, a: Node, b: Node) {
    (a.id in s.syncs <==> b.id in s.syncs) && (a.id in s.metas <==> b.id in s.metas)
  }

  /** How far behind the head a request may be to be taken in this sweep. */
  predicate InReach(t: Tunables, s: Data, a: Node) { s.last <= a.sector + 2 * t.backMax }

  /** Synchronous requests come first, and then those for metadata. */
  lemma KindRule(t: Tunables, s: Data, a: Node, b: Node)
    requires a != b
    ensures a.id in s.syncs && b.id !in s.syncs ==> Takes(t, s, a, b)
    ensures (a.id in s.syncs <==> b.id in s.syncs) && a.id in s.metas && b.id !in s.metas ==> Takes(t, s, a, b)
  {}

  /** Of requests of the same kind: ahead of the head the lower sector is taken, and behind
      it within reach the higher one; one behind is taken before one ahead if and only if its
      distance times the penalty is smaller; whatever is within reach comes before what is
      not, and of the latter the lower sector. */
  lemma SectorRule(t: Tunables, s: Data, a: Node, b: Node)
    requires SameKind(s, a, b) && a.sector != b.sector
    ensures s.last <= a.sector < b.sector ==> Takes(t, s, a, b)
    ensures a.sector < b.sector < s.last && InReach(t, s, a) ==> Takes(t, s, b, a)
    ensures b.sector < s.last <= a.sector && InReach(t, s, b) ==>
      if (s.last - b.sector) * t.backPenalty < a.sector - s.last then Takes(t, s, b, a) else Takes(t, s, a, b)
    ensures InReach(t, s, a) && !InReach(t, s, b) ==> Takes(t, s, a, b)
    ensures !InReach(t, s, a) && !InReach(t, s, b) && a.sector < b.sector ==> Takes(t, s, a, b)
  {
    if a.sector < b.sector < s.last { Closer(s.last - b.sector, s.last - a.sector, t.backPenalty); }
  }

  lemma Closer(x: nat, y: nat, penalty: nat)
    requires x <= y
    ensures x * penalty <= y * penalty
  {}

  /** The choice is a total order on requests that start at different sectors. */
  lemma ChoiceIsTotal(t: Tunables, s: Data, a: Node, b: Node)
    requires a.sector != b.sector
    ensures Takes(t, s, a, b) <==> !Takes(t, s, b, a)
    ensures ChooseReq(t, s, Some(a), Some(b)) == Some(if Takes(t, s, a, b) then a else b)
  {}

  lemma ChoiceIsTransitive(t: Tunables, s: Data, a: Node, b: Node, c: Node)
    requires a.sector != b.sector && b.sector != c.sector && a.sector != c.sector
    requires Takes(t, s, a, b) && Takes(t, s, b, c)
    ensures Takes(t, s, a, c)
  {
    hide Distance;
  }

  // ----- looking at the neighbours only -----

  function Kind(s: Data, a: Node): nat { (if a.id in s.syncs then 2 else 0) + if a.id in s.metas then 1 else 0 }

  /** The request at r is taken before every other one but that at i. */
  ghost predicate Best(t: Tunables, s: Data, tree: seq<Node>, i: nat, r: nat) {
    r < |tree| && r != i && forall j: nat :: j < |tree| && j != i && j != r ==> Takes(t, s, tree[r], tree[j])
  }

  /** The request at j is the next one of the kind of that at r, on one of its sides. */
  ghost predicate NextOfKind(s: Data, tree: seq<Node>, i: nat, r: nat, j: nat)
    requires r < |tree| && j < |tree|
  {
    j != i && j != r && Kind(s, tree[j]) == Kind(s, tree[r])
    && forall k: nat :: (j < k < r || r < k < j) && k != i ==> Kind(s, tree[k]) != Kind(s, tree[r])
  }

  /** No request is of a better kind; and of the same kind those next to it on both sides are
      worse, or, if it is out of reach, all are and come behind it. */
  ghost predicate NeighboursSuffice(t: Tunables, s: Data, tree: seq<Node>, i: nat, r: nat)
    requires r < |tree|
  {
    && (forall j: nat :: j < |tree| && j != i ==> Kind(s, tree[j]) <= Kind(s, tree[r]))
    && if InReach(t, s, tree[r])
       then forall j: nat :: j < |tree| && NextOfKind(s, tree, i, r, j) ==> Takes(t, s, tree[r], tree[j])
       else forall j: nat :: j < |tree| && j != i && j != r && Kind(s, tree[j]) == Kind(s, tree[r]) ==>
              r < j && !InReach(t, s, tree[j])
  }

  /** Beyond what is worse on one side of a request everything is worse. */
  lemma WorseBeyond(t: Tunables, s: Data, a: Node, b: Node, c: Node)
    requires SameKind(s, a, b) && SameKind(s, a, c) && InReach(t, s, a) && Takes(t, s, a, b)
    requires c.sector < b.sector < a.sector || a.sector < b.sector < c.sector
    ensures Takes(t, s, a, c)
  {
    hide Takes;
    SectorRule(t, s, a, b);
    SectorRule(t, s, b, a);
    SectorRule(t, s, a, c);
    SectorRule(t, s, c, a);
    ChoiceIsTotal(t, s, a, b);
    if c.sector < b.sector < s.last {
      Closer(s.last - b.sector, s.last - c.sector, t.backPenalty);
    }
  }

  lemma KindOrder(t: Tunables, s: Data, a: Node, b: Node)
    requires a.sector != b.sector
    ensures Kind(s, a) == Kind(s, b) <==> SameKind(s, a, b)
    ensures Kind(s, a) > Kind(s, b) ==> Takes(t, s, a, b)
  {
    KindRule(t, s, a, b);
  }

  lemma {:induction false} WorseOnSide(t: Tunables, s: Data, tree: seq<Node>, i: nat, r: nat, j: nat)
    requires SortedTree(tree) && r < |tree| && j < |tree| && j != i && j != r && Kind(s, tree[j]) == Kind(s, tree[r])
    requires InReach(t, s, tree[r])
    requires forall k: nat :: k < |tree| && NextOfKind(s, tree, i, r, k) ==> Takes(t, s, tree[r], tree[k])
    ensures Takes(t, s, tree[r], tree[j])
    decreases if j < r then r - j else j - r
  {
    hide Takes, InReach, Kind;
    if !NextOfKind(s, tree, i, r, j) {
      var k: nat :| (j < k < r || r < k < j) && k != i && Kind(s, tree[k]) == Kind(s, tree[r]);
      WorseOnSide(t, s, tree, i, r, k);
      KindOrder(t, s, tree[r], tree[k]);
      KindOrder(t, s, tree[r], tree[j]);
      WorseBeyond(t, s, tree[r], tree[k], tree[j]);
    }
  }

  lemma SufficesForBest(t: Tunables, s: Data, tree: seq<Node>, i: nat, r: nat)
    requires SortedTree(tree) && r < |tree| && r != i && NeighboursSuffice(t, s, tree, i, r)
    ensures Best(t, s, tree, i, r)
  {
    hide Takes, Kind, InReach;
    forall j: nat | j < |tree| && j != i && j != r ensures Takes(t, s, tree[r], tree[j]) {
      KindOrder(t, s, tree[r], tree[j]);
      if Kind(s, tree[j]) == Kind(s, tree[r]) {
        if InReach(t, s, tree[r]) {
          WorseOnSide(t, s, tree, i, r, j);
        } else {
          SectorRule(t, s, tree[r], tree[j]);
        }
      }
    }
  }

  lemma BestSuffices(t: Tunables, s: Data, tree: seq<Node>, i: nat, r: nat)
    requires SortedTree(tree) && Best(t, s, tree, i, r)
    ensures NeighboursSuffice(t, s, tree, i, r)
  {
    hide Takes, Kind, InReach;
    forall j: nat | j < |tree| && j != i && j != r
      ensures Kind(s, tree[j]) <= Kind(s, tree[r])
      ensures Kind(s, tree[j]) == Kind(s, tree[r]) && !InReach(t, s, tree[r]) ==> r < j && !InReach(t, s, tree[j])
    {
      ChoiceIsTotal(t, s, tree[r], tree[j]);
      KindOrder(t, s, tree[j], tree[r]);
      if Kind(s, tree[j]) == Kind(s, tree[r]) { SectorRule(t, s, tree[j], tree[r]); }
    }
  }

  /** The position of the request cfq_find_next_rq names. */
  ghost function Chosen(t: Tunables, s: Data, tree: seq<Node>, i: nat): (r: nat)
    requires i < |tree| && |tree| > 1
    ensures r < |tree|
  {
    if i + 1 == |tree| then (if Takes(t, s, tree[0], tree[i - 1]) then 0 else i - 1)
    else if i == 0 || Takes(t, s, tree[i + 1], tree[i - 1]) then i + 1
    else i - 1
  }

  lemma ChosenIs(t: Tunables, s: Data, tree: seq<Node>, i: nat)
    requires SortedTree(tree) && TreeIds(tree) && i < |tree| && |tree| > 1
    ensures var r := Chosen(t, s, tree, i); r != i && FindNext(t, s, tree, tree[i].id) == Some(tree[r].id)
  {
    hide Takes, ChooseReq;
    var j := TreeIndex(tree, tree[i].id);
    assert j == i;
    NothingElse(t, s, tree, if i + 1 < |tree| then i + 1 else 0);
    if i + 1 < |tree| && i > 0 { ChoiceIsTotal(t, s, tree[i + 1], tree[i - 1]); }
    if i + 1 == |tree| && i > 1 { ChoiceIsTotal(t, s, tree[0], tree[i - 1]); }
  }

  lemma NothingElse(t: Tunables, s: Data, tree: seq<Node>, i: nat)
    requires i < |tree|
    ensures ChooseReq(t, s, Some(tree[i]), None) == Some(tree[i])
    ensures forall n: Option<Node> :: ChooseReq(t, s, n, n) == n
  {}

  /** The better neighbour of a request is the best of all the others exactly if the
      requests of its kind next to it, and no better kinds, say so. */
  lemma FindNextExact(t: Tunables, s: Data, tree: seq<Node>, i: nat)
    requires SortedTree(tree) && TreeIds(tree) && i < |tree| && |tree| > 1
    ensures var r := Chosen(t, s, tree, i);
      && FindNext(t, s, tree, tree[i].id) == Some(tree[r].id) && (r + 1 == i || r == i + 1 || (r == 0 && i + 1 == |tree|))
      && (Best(t, s, tree, i, r) <==> NeighboursSuffice(t, s, tree, i, r))
  {
    hide Takes, NeighboursSuffice, Best, FindNext;
    ChosenIs(t, s, tree, i);
    var r := Chosen(t, s, tree, i);
    if NeighboursSuffice(t, s, tree, i, r) { SufficesForBest(t, s, tree, i, r); }
    if Best(t, s, tree, i, r) { BestSuffices(t, s, tree, i, r); }
  }

  /** A queue for which it is not: the head is beyond three requests, the first of which
      has been taken, and only its neighbour is looked at. */
  lemma NearestMissed()
    ensures exists t: Tunables, s: Data, tree: seq<Node> ::
      SortedTree(tree) && TreeIds(tree) && |tree| == 3 && !Best(t, s, tree, 0, Chosen(t, s, tree, 0))
  {
    var t, s := Tunables(16384, 2, 0, 0), Data(map[], [], None, 0, None, {}, {}, 2000, 0, []);
    var tree := [Node(1, 0, 8), Node(2, 1000, 8), Node(3, 2000, 8)];
    var r, j: nat := Chosen(t, s, tree, 0), 2;
    assert r == 1 && !Takes(t, s, tree[r], tree[j]);
  }

  // ----- the cached next request -----

  /** The next request of queue q is the best of all its requests. */
  ghost predicate NextIsBest(t: Tunables, s: Data, q: nat)
    requires q in s.queues
  {
    var c := s.queues[q];
    exists b: Node :: b in c.tree && c.next == Some(b.id) && AllWorse(t, s, c.tree, b)
  }

  ghost predicate AllWorse(t: Tunables, s: Data, tree: seq<Node>, b: Node) {
    forall x: Node :: x in tree && x != b ==> Takes(t, s, b, x)
  }

  lemma NodeOfIs(tree: seq<Node>, x: Node)
    requires TreeIds(tree) && x in tree
    ensures NodeOf(tree, Some(x.id)) == Some(x)
  {
    var i :| 0 <= i < |tree| && tree[i] == x;
    assert TreeIndex(tree, x.id) == i;
  }

  lemma OtherSector(tree: seq<Node>, x: Node, y: Node)
    requires SortedTree(tree) && x in tree && y in tree && x != y
    ensures x.sector != y.sector
  {
    var i :| 0 <= i < |tree| && tree[i] == x;
    var j :| 0 <= j < |tree| && tree[j] == y;
  }

  /** The better of the best and a new one is the best. */
  lemma BetterIsBest(t: Tunables, s: Data, tree: seq<Node>, tree': seq<Node>, b: Node, n: Node)
    requires SortedTree(tree') && b in tree && AllWorse(t, s, tree, b) && b in tree' && n in tree' && b != n
    requires forall x: Node :: x in tree' ==> x in tree || x == n
    ensures var m := if Takes(t, s, b, n) then b else n;
      ChooseReq(t, s, Some(b), Some(n)) == Some(m) && AllWorse(t, s, tree', m)
  {
    hide Takes, ChooseReq;
    OtherSector(tree', b, n);
    ChoiceIsTotal(t, s, b, n);
    if !Takes(t, s, b, n) {
      forall x: Node | x in tree' && x != n ensures Takes(t, s, n, x) {
        if x != b {
          OtherSector(tree', x, n);
          OtherSector(tree', x, b);
          ChoiceIsTransitive(t, s, n, b, x);
        }
      }
    }
  }

  lemma SameTakes(t: Tunables, s: Data, s': Data)
    requires s'.syncs == s.syncs && s'.metas == s.metas && s'.last == s.last
    ensures forall a: Node, b: Node :: Takes(t, s', a, b) == Takes(t, s, a, b)
    ensures forall a: Option<Node>, b: Option<Node> :: ChooseReq(t, s', a, b) == ChooseReq(t, s, a, b)
  {
    hide Nearer;
  }

  lemma InsertedIn(tree: seq<Node>, n: Node)
    ensures forall x: Node :: x in InsertAt(tree, Place(tree, n.sector), n) <==> x in tree || x == n
  {
    var i := Place(tree, n.sector);
    assert tree == tree[..i] + tree[i..];
  }

  /** A request that arrives where no other starts becomes the next one exactly if it is
      better: the next request stays the best of all. */
  lemma ArrivalKeepsBest(t: Tunables, s: Data, q: nat, n: Node, offset: int)
    requires InvBut(s, q, Some(n.id)) && Alias(s.queues[q].tree, n.sector) == None
    requires !InTree(s.queues[q].tree, n.id) && NextIsBest(t, s, q)
    ensures q in AddRb(t, s, q, n, offset).queues && NextIsBest(t, AddRb(t, s, q, n, offset), q)
  {
    hide InTree, Placed, ServiceBut, QueueBut, Offer, Takes, Place, InsertAt, Alias, OthersOk, Inserted, NextIsBest;
    var c := s.queues[q];
    InsertOk(s, c, n);
    var s1 := Insert(s, q, n);
    InsertIs(s, q, n);
    QueueChanged(s, q, s1.queues[q]);
    OthersSame(s, s1, q);
    InsertedNext(t, s, s1, q, n, offset);
  }

  lemma InsertIs(s: Data, q: nat, n: Node)
    requires q in s.queues
    ensures var c := s.queues[q]; var d := Inserted(s, c, n);
      Insert(s, q, n) == With(s, q, d) && d.next == c.next && d.tree == InsertAt(c.tree, Place(c.tree, n.sector), n)
      && d.key == c.key && d.cls == c.cls && d.onRr == c.onRr
  {}

  lemma InsertedNext(t: Tunables, s: Data, s1: Data, q: nat, n: Node, offset: int)
    requires ServiceBut(s1, None) && OthersOk(s1, q) && q in s.queues && q in s1.queues
    requires Placed(s1.queues[q], s1.syncs, s1.metas, n.id) && !InTree(s.queues[q].tree, n.id) && NextIsBest(t, s, q)
    requires s1.syncs == s.syncs && s1.metas == s.metas && s1.last == s.last && s1.queues[q].next == s.queues[q].next
    requires s1.queues[q].tree == InsertAt(s.queues[q].tree, Place(s.queues[q].tree, n.sector), n)
    ensures var s' := Offer(t, s1, q, n, offset); q in s'.queues && NextIsBest(t, s', q)
  {
    hide InTree, Placed, ServiceBut, QueueBut, Offer, ChooseReq, NodeOf, OthersOk, Takes, Place, InsertAt;
    var tree, tree' := s.queues[q].tree, s1.queues[q].tree;
    OfferedNext(t, s1, q, n, offset);
    var s' := Offer(t, s1, q, n, offset);
    InsertedIn(tree, n);
    PlacedSorted(s1.queues[q], s1.syncs, s1.metas, n.id);
    var b: Node :| b in tree && s.queues[q].next == Some(b.id) && AllWorse(t, s, tree, b);
    NotIn(tree, b, n);
    NodeOfIs(tree', b);
    BetterIsBest(t, s, tree, tree', b, n);
    SameTakes(t, s, s1);
    SameTakes(t, s, s');
    var m := if Takes(t, s, b, n) then b else n;
    assert m in s'.queues[q].tree && s'.queues[q].next == Some(m.id);
    assert AllWorse(t, s', s'.queues[q].tree, m);
  }

  lemma NotIn(tree: seq<Node>, b: Node, n: Node)
    requires b in tree && !InTree(tree, n.id)
    ensures b != n
  {}

  lemma PlacedSorted(c: Queue, syncs: set<nat>, metas: set<nat>, id: nat)
    requires Placed(c, syncs, metas, id)
    ensures SortedTree(c.tree) && TreeIds(c.tree)
  {}

  lemma OfferedNext(t: Tunables, s: Data, q: nat, n: Node, offset: int)
    requires ServiceBut(s, None) && OthersOk(s, q) && q in s.queues && Placed(s.queues[q], s.syncs, s.metas, n.id)
    ensures var s' := Offer(t, s, q, n, offset); var c := s.queues[q];
      q in s'.queues && s'.queues[q].tree == c.tree && s'.last == s.last && s'.syncs == s.syncs && s'.metas == s.metas
      && s'.queues[q].next == IdOf(ChooseReq(t, s, NodeOf(c.tree, c.next), Some(n)))
  {
    hide InTree, Placed, ServiceBut, QueueBut, AddRr, ChooseReq, NodeOf, OthersOk;
    var s1 := if s.queues[q].onRr then s else AddRr(s, q, offset);
    if !s.queues[q].onRr { AddRrOk(s, q, offset); }
    SameTakes(t, s, s1);
  }
}
