/** What the schedulers sort requests by: a tree in sector order, as its successor,
    predecessor, lookup and insertion see it, and a list in order of expiry (block/elevator.c
    and the fifo lists of the schedulers). */
module SortList {
  import opened Optional

  /** A request as the sector tree holds it. */
  datatype Node = Node(id: nat, sector: nat, nsect: nat)

  /** A request as the expiry list holds it. */
  datatype Entry = Entry(id: nat, expiry: nat)

  predicate InTree(tree: seq<Node>, id: nat) { exists i :: 0 <= i < |tree| && tree[i].id == id }

  predicate InFifo(fifo: seq<Entry>, id: nat) { exists i :: 0 <= i < |fifo| && fifo[i].id == id }

  function TreeIndex(tree: seq<Node>, id: nat): (i: nat)
    ensures i <= |tree| && (i < |tree| ==> tree[i].id == id) && forall j :: 0 <= j < i ==> tree[j].id != id
  {
    if tree == [] || tree[0].id == id then 0 else 1 + TreeIndex(tree[1..], id)
  }

  function FifoIndex(fifo: seq<Entry>, id: nat): (i: nat)
    ensures i <= |fifo| && (i < |fifo| ==> fifo[i].id == id) && forall j :: 0 <= j < i ==> fifo[j].id != id
  {
    if fifo == [] || fifo[0].id == id then 0 else 1 + FifoIndex(fifo[1..], id)
  }

  /** First position whose sector is not below `sector`. */
  function Place(tree: seq<Node>, sector: nat): (i: nat)
    ensures i <= |tree| && (i < |tree| ==> sector <= tree[i].sector) && forall j :: 0 <= j < i ==> tree[j].sector < sector
  {
    if tree == [] || sector <= tree[0].sector then 0 else 1 + Place(tree[1..], sector)
  }

  function Drop<T>(s: seq<T>, i: nat): seq<T>
  {
    if i < |s| then s[..i] + s[i + 1..] else s
  }

  function InsertAt<T>(s: seq<T>, i: nat, x: T): seq<T>
    requires i <= |s|
  {
    s[..i] + [x] + s[i..]
  }

  /** deadline_latter_request */
  function Latter(tree: seq<Node>, id: nat): Option<nat> {
    var i := TreeIndex(tree, id);
    if i + 1 < |tree| then Some(tree[i + 1].id) else None
  }

  /** The request that starts at `sector`, as elv_rb_add reports it. */
  function Alias(tree: seq<Node>, sector: nat): Option<nat> {
    var i := Place(tree, sector);
    if i < |tree| && tree[i].sector == sector then Some(tree[i].id) else None
  }

  /** The list after `req` took over the earlier expiry of `next`. */
  function Overtaken(fifo: seq<Entry>, req: nat, next: nat): seq<Entry> {
    var i, j := FifoIndex(fifo, req), FifoIndex(fifo, next);
    if i < |fifo| && j < |fifo| && fifo[j].expiry < fifo[i].expiry then
      var f := Drop(fifo, i);
      var k := FifoIndex(f, next);
      if k < |f| then InsertAt(f, k + 1, Entry(req, fifo[j].expiry)) else fifo
    else fifo
  }

  // ----- order and agreement -----

  ghost predicate SortedTree(tree: seq<Node>) { forall i, j :: 0 <= i < j < |tree| ==> tree[i].sector < tree[j].sector }

  ghost predicate TreeIds(tree: seq<Node>) { forall i, j :: 0 <= i < j < |tree| ==> tree[i].id != tree[j].id }

  ghost predicate FifoIds(fifo: seq<Entry>) { forall i, j :: 0 <= i < j < |fifo| ==> fifo[i].id != fifo[j].id }

  ghost predicate SortedFifo(fifo: seq<Entry>, bound: nat) {
    (forall i, j :: 0 <= i < j < |fifo| ==> fifo[i].expiry <= fifo[j].expiry)
    && (forall i :: 0 <= i < |fifo| ==> fifo[i].expiry <= bound)
  }

  /** A tree and a list hold the same requests, except that `out`, if any, is not in the
      tree; the next request, if any, is one of them. */
  ghost predicate Agree(tree: seq<Node>, fifo: seq<Entry>, next: Option<nat>, bound: nat, out: Option<nat>) {
    && SortedTree(tree) && TreeIds(tree) && FifoIds(fifo) && SortedFifo(fifo, bound)
    && (forall id: nat :: InTree(tree, id) <==> InFifo(fifo, id) && out != Some(id))
    && (next.Some? ==> next == out || InTree(tree, next.value))
  }

  // ----- facts -----

  lemma DropAt<T>(s: seq<T>, i: nat)
    requires i < |s|
    ensures |Drop(s, i)| == |s| - 1
    ensures forall k :: 0 <= k < |s| - 1 ==> Drop(s, i)[k] == s[if k < i then k else k + 1]
  {}

  lemma InsertedAt<T>(s: seq<T>, i: nat, x: T)
    requires i <= |s|
    ensures |InsertAt(s, i, x)| == |s| + 1
    ensures forall k :: 0 <= k <= |s| ==> InsertAt(s, i, x)[k] == if k == i then x else s[if k < i then k else k - 1]
  {}

  lemma TreeDrop(tree: seq<Node>, id: nat)
    requires SortedTree(tree) && TreeIds(tree) && InTree(tree, id)
    ensures var i := TreeIndex(tree, id); var t := Drop(tree, i);
      i < |tree| && SortedTree(t) && TreeIds(t) && forall x: nat :: InTree(t, x) <==> InTree(tree, x) && x != id
  {
    TreeDropMembers(tree, id);
    hide InTree, Drop;
    DropAt(tree, TreeIndex(tree, id));
  }

  lemma TreeDropMembers(tree: seq<Node>, id: nat)
    requires TreeIds(tree) && InTree(tree, id)
    ensures var i := TreeIndex(tree, id); var t := Drop(tree, i);
      i < |tree| && forall x: nat :: InTree(t, x) <==> InTree(tree, x) && x != id
  {
    var i := TreeIndex(tree, id);
    DropAt(tree, i);
    var t := Drop(tree, i);
    forall x: nat | InTree(tree, x) && x != id ensures InTree(t, x) {
      var k :| 0 <= k < |tree| && tree[k].id == x;
      assert t[if k < i then k else k - 1].id == x;
    }
  }

  lemma FifoDrop(fifo: seq<Entry>, id: nat, bound: nat)
    requires FifoIds(fifo) && SortedFifo(fifo, bound)
    ensures var t := Drop(fifo, FifoIndex(fifo, id));
      FifoIds(t) && SortedFifo(t, bound) && forall x: nat :: InFifo(t, x) <==> InFifo(fifo, x) && x != id
  {
    hide InFifo;
    var i := FifoIndex(fifo, id);
    if i < |fifo| { DropAt(fifo, i); }
    FifoDropMembers(fifo, id);
  }

  lemma FifoDropMembers(fifo: seq<Entry>, id: nat)
    requires FifoIds(fifo)
    ensures var t := Drop(fifo, FifoIndex(fifo, id)); forall x: nat :: InFifo(t, x) <==> InFifo(fifo, x) && x != id
  {
    var i := FifoIndex(fifo, id);
    var t := Drop(fifo, i);
    if i < |fifo| {
      DropAt(fifo, i);
      forall x: nat | InFifo(fifo, x) && x != id ensures InFifo(t, x) {
        var k :| 0 <= k < |fifo| && fifo[k].id == x;
        assert t[if k < i then k else k - 1].id == x;
      }
    }
  }

  lemma LatterOk(tree: seq<Node>, id: nat)
    requires TreeIds(tree) && InTree(tree, id) && Latter(tree, id).Some?
    ensures Latter(tree, id).value != id && InTree(tree, Latter(tree, id).value)
  {}

  lemma PlaceSorted(tree: seq<Node>, n: Node)
    requires SortedTree(tree) && Alias(tree, n.sector) == None
    ensures SortedTree(InsertAt(tree, Place(tree, n.sector), n))
  {
    InsertedAt(tree, Place(tree, n.sector), n);
  }

  lemma InsertIds(tree: seq<Node>, i: nat, n: Node)
    requires TreeIds(tree) && !InTree(tree, n.id) && i <= |tree|
    ensures var t := InsertAt(tree, i, n); TreeIds(t) && forall x: nat :: InTree(t, x) <==> InTree(tree, x) || x == n.id
  {
    InsertedAt(tree, i, n);
    var t := InsertAt(tree, i, n);
    forall x: nat | InTree(tree, x) ensures InTree(t, x) {
      var k :| 0 <= k < |tree| && tree[k].id == x;
      assert t[if k < i then k else k + 1].id == x;
    }
    assert t[i].id == n.id;
  }

  lemma AliasOk(tree: seq<Node>, sector: nat)
    ensures Alias(tree, sector).Some? ==> InTree(tree, Alias(tree, sector).value)
  {}

  /** Two requests of a direction never start at the same sector. */
  lemma NoAliasAfterMove(tree: seq<Node>, sector: nat)
    requires SortedTree(tree) && TreeIds(tree) && Alias(tree, sector).Some?
    ensures Alias(Drop(tree, TreeIndex(tree, Alias(tree, sector).value)), sector) == None
  {
    var i := Place(tree, sector);
    DropAt(tree, i);
    assert TreeIndex(tree, tree[i].id) == i;
  }

  lemma FifoAppend(fifo: seq<Entry>, e: Entry, bound: nat)
    requires FifoIds(fifo) && SortedFifo(fifo, bound) && !InFifo(fifo, e.id) && e.expiry == bound
    ensures var f := fifo + [e];
      FifoIds(f) && SortedFifo(f, bound) && forall x: nat :: InFifo(f, x) <==> InFifo(fifo, x) || x == e.id
  {
    var f := fifo + [e];
    assert f[|fifo|].id == e.id;
    forall x: nat | InFifo(fifo, x) ensures InFifo(f, x) {
      var k :| 0 <= k < |fifo| && fifo[k].id == x;
      assert f[k].id == x;
    }
  }

  lemma SetLength(tree: seq<Node>, i: nat, nsect: nat)
    requires i < |tree| && SortedTree(tree) && TreeIds(tree)
    ensures var u := tree[i := tree[i].(nsect := nsect)];
      SortedTree(u) && TreeIds(u) && forall x: nat :: InTree(u, x) <==> InTree(tree, x)
  {
    var u := tree[i := tree[i].(nsect := nsect)];
    forall x: nat | InTree(tree, x) ensures InTree(u, x) {
      var k :| 0 <= k < |tree| && tree[k].id == x;
      assert u[k].id == x;
    }
  }

  lemma IndexIs(fifo: seq<Entry>, id: nat, j: nat)
    requires j < |fifo| && fifo[j].id == id && forall k :: 0 <= k < j ==> fifo[k].id != id
    ensures FifoIndex(fifo, id) == j
  {}

  lemma IndexBehind(fifo: seq<Entry>, next: nat, i: nat)
    requires FifoIndex(fifo, next) < i < |fifo|
    ensures FifoIndex(Drop(fifo, i), next) == FifoIndex(fifo, next) && Drop(fifo, i)[FifoIndex(fifo, next)].id == next
  {
    hide FifoIndex;
    DropAt(fifo, i);
    IndexIs(Drop(fifo, i), next, FifoIndex(fifo, next));
  }

  lemma EarlierIsBefore(fifo: seq<Entry>, bound: nat, i: nat, j: nat)
    requires SortedFifo(fifo, bound) && i < |fifo| && j < |fifo| && fifo[j].expiry < fifo[i].expiry
    ensures j < i
  {}

  lemma OvertakenIs(fifo: seq<Entry>, req: nat, next: nat, bound: nat)
    requires FifoIds(fifo) && SortedFifo(fifo, bound) && InFifo(fifo, req) && InFifo(fifo, next) && req != next
    ensures var i, j, g := FifoIndex(fifo, req), FifoIndex(fifo, next), Overtaken(fifo, req, next);
      && i < |fifo| && j < |fifo|
      && if fifo[j].expiry < fifo[i].expiry then Rearranged(fifo, g, i, j) else g == fifo
  {
    hide Drop, InsertAt, FifoIds, SortedFifo, Rearranged;
    var i, j := FifoIndex(fifo, req), FifoIndex(fifo, next);
    if fifo[j].expiry < fifo[i].expiry {
      EarlierIsBefore(fifo, bound, i, j);
      DropAt(fifo, i);
      IndexBehind(fifo, next, i);
      MoveBehind(fifo, i, j);
    }
  }

  lemma MoveBehind(fifo: seq<Entry>, i: nat, j: nat)
    requires j < i < |fifo|
    ensures |Drop(fifo, i)| == |fifo| - 1
    ensures Rearranged(fifo, InsertAt(Drop(fifo, i), j + 1, Entry(fifo[i].id, fifo[j].expiry)), i, j)
  {
    hide Drop, InsertAt;
    DropAt(fifo, i);
    InsertedAt(Drop(fifo, i), j + 1, Entry(fifo[i].id, fifo[j].expiry));
  }

  /** Entry i was moved behind entry j with its expiry. */
  ghost predicate Rearranged(fifo: seq<Entry>, g: seq<Entry>, i: nat, j: nat) {
    && j < i < |fifo| && |g| == |fifo|
    && (forall m :: 0 <= m < |fifo| ==>
          g[m] == if m == j + 1 then Entry(fifo[i].id, fifo[j].expiry) else fifo[if m <= j || m > i then m else m - 1])
  }

  lemma RearrangedMembers(fifo: seq<Entry>, g: seq<Entry>, i: nat, j: nat)
    requires Rearranged(fifo, g, i, j)
    ensures forall x: nat :: InFifo(g, x) <==> InFifo(fifo, x)
  {
    forall x: nat | InFifo(fifo, x) ensures InFifo(g, x) {
      var k :| 0 <= k < |fifo| && fifo[k].id == x;
      assert g[if k == i then j + 1 else if j < k < i then k + 1 else k].id == x;
    }
  }

  lemma RearrangedIds(fifo: seq<Entry>, g: seq<Entry>, i: nat, j: nat)
    requires Rearranged(fifo, g, i, j) && FifoIds(fifo)
    ensures FifoIds(g)
  {}

  lemma RearrangedSorted(fifo: seq<Entry>, g: seq<Entry>, i: nat, j: nat, bound: nat)
    requires Rearranged(fifo, g, i, j) && SortedFifo(fifo, bound)
    ensures SortedFifo(g, bound)
  {}

  lemma OvertakenOk(fifo: seq<Entry>, req: nat, next: nat, bound: nat)
    requires FifoIds(fifo) && SortedFifo(fifo, bound) && InFifo(fifo, req) && InFifo(fifo, next) && req != next
    ensures var g := Overtaken(fifo, req, next);
      FifoIds(g) && SortedFifo(g, bound) && forall x: nat :: InFifo(g, x) <==> InFifo(fifo, x)
  {
    hide FifoIds, SortedFifo, InFifo, Rearranged, Overtaken;
    OvertakenIs(fifo, req, next, bound);
    var i, j, g := FifoIndex(fifo, req), FifoIndex(fifo, next), Overtaken(fifo, req, next);
    if fifo[j].expiry < fifo[i].expiry {
      RearrangedMembers(fifo, g, i, j);
      RearrangedIds(fifo, g, i, j);
      RearrangedSorted(fifo, g, i, j, bound);
    }
  }
}
