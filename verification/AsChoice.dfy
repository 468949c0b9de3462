/** Which request the anticipatory scheduler takes next: as_choose_req and
    as_find_next_rq of block/as-iosched.c. */
module AsChoice {
  import opened Optional
  import opened SortList

  const MAXBACK: nat := 1024 * 1024
  const BACK_PENALTY: nat := 2

  /** A request so far behind the head that it waits for the next sweep. */
  predicate Wraps(last: nat, s: nat) { s + MAXBACK < last }

  function Distance(last: nat, s: nat): nat {
    if s >= last then s - last else (last - s) * BACK_PENALTY
  }

  /** as_choose_req on the sectors at which two requests start: the first is taken. */
  predicate TakesFirst(last: nat, s1: nat, s2: nat) {
    if !Wraps(last, s1) && Wraps(last, s2) then true
    else if !Wraps(last, s2) && Wraps(last, s1) then false
    else if Wraps(last, s1) && Wraps(last, s2) then s1 <= s2
    else if Distance(last, s1) < Distance(last, s2) then true
    else if Distance(last, s2) < Distance(last, s1) then false
    else s1 >= s2
  }

  /** as_choose_req, where either request may be missing. */
  function ChooseReq(last: nat, rq1: Option<Node>, rq2: Option<Node>): Option<Node> {
    if rq1 == None || rq1 == rq2 then rq2
    else if rq2 == None then rq1
    else if TakesFirst(last, rq1.value.sector, rq2.value.sector) then rq1 else rq2
  }

  /** as_find_next_rq: the neighbours of tree[i], the first request standing for a
      missing successor. */
  function FindNextRq(tree: seq<Node>, last: nat, i: nat): Option<Node>
    requires i < |tree|
  {
    var prev := if i > 0 then Some(tree[i - 1]) else None;
    var next := if i + 1 < |tree| then Some(tree[i + 1]) else if i > 0 then Some(tree[0]) else None;
    ChooseReq(last, next, prev)
  }

  /** as_choose_req is a choice by a total order: of any two requests that start at
      different sectors it takes the same one whichever is named first. */
  lemma ChoiceIgnoresOrder(last: nat, a: Node, b: Node)
    requires a.sector != b.sector
    ensures ChooseReq(last, Some(a), Some(b)) == ChooseReq(last, Some(b), Some(a))
  {}

  lemma ChoiceIsTransitive(last: nat, a: nat, b: nat, c: nat)
    requires TakesFirst(last, a, b) && TakesFirst(last, b, c)
    ensures TakesFirst(last, a, c)
  {}

  /** Ahead of the head the lower sector is taken, and behind it within reach the higher one;
      one behind is taken before one ahead if and only if twice its distance is smaller;
      whatever is within reach comes before what is not, and of the latter the lower sector. */
  lemma SectorRule(last: nat, a: nat, b: nat)
    requires a != b
    ensures last <= a < b ==> TakesFirst(last, a, b) && !TakesFirst(last, b, a)
    ensures a < b < last <= a + 1048576 ==> TakesFirst(last, b, a) && !TakesFirst(last, a, b)
    ensures b < last <= a && last <= b + 1048576 ==>
      (TakesFirst(last, b, a) <==> 2 * (last - b) < a - last) && (TakesFirst(last, a, b) <==> !TakesFirst(last, b, a))
    ensures last <= a + 1048576 && b + 1048576 < last ==> TakesFirst(last, a, b) && !TakesFirst(last, b, a)
    ensures a + 1048576 < last && b + 1048576 < last && a < b ==> TakesFirst(last, a, b) && !TakesFirst(last, b, a)
  {}

  /** The request at r is preferred to every other request but the one at i. */
  ghost predicate Best(tree: seq<Node>, last: nat, i: nat, r: nat) {
    && r < |tree| && r != i
    && forall j: nat :: j < |tree| && j != i && j != r ==> TakesFirst(last, tree[r].sector, tree[j].sector)
  }

  /** The choice c is the best of all the requests but the one at i. */
  ghost predicate PicksBest(tree: seq<Node>, last: nat, i: nat, c: Option<Node>) {
    exists r: nat :: Best(tree, last, i, r) && c == Some(tree[r])
  }

  /** What decides whether looking at the neighbours is enough. */
  predicate NeighboursSuffice(tree: seq<Node>, last: nat, i: nat)
    requires i < |tree|
  {
    || i + 1 == |tree|
    || tree[i + 1].sector >= last
    || (if Wraps(last, tree[i + 1].sector) then i <= 1 && Wraps(last, tree[|tree| - 1].sector)
        else i + 2 == |tree| || TakesFirst(last, tree[i + 1].sector, tree[i + 2].sector))
  }

  lemma AheadIsBest(tree: seq<Node>, last: nat, i: nat)
    requires SortedTree(tree) && i < |tree| && tree[i].sector <= last
    requires i + 1 < |tree| && !Wraps(last, tree[i + 1].sector)
    requires tree[i + 1].sector >= last || i + 2 == |tree| || TakesFirst(last, tree[i + 1].sector, tree[i + 2].sector)
    ensures forall j: nat :: i + 1 < j < |tree| ==> TakesFirst(last, tree[i + 1].sector, tree[j].sector)
  {
    forall j: nat | i + 1 < j < |tree| ensures TakesFirst(last, tree[i + 1].sector, tree[j].sector) {
      if j > i + 2 { assert tree[i + 2].sector < tree[j].sector; }
      assert tree[i + 1].sector < tree[i + 2].sector;
    }
  }

  lemma BehindIsBest(tree: seq<Node>, last: nat, i: nat)
    requires SortedTree(tree) && 0 < i < |tree| && tree[i].sector <= last && !Wraps(last, tree[i - 1].sector)
    ensures forall j: nat :: j < i - 1 ==> TakesFirst(last, tree[i - 1].sector, tree[j].sector)
  {}

  /** The choice between the two neighbours of a request that was just taken is the
      best of all the others exactly when the request after it, if any, does not start
      inside it or is not surpassed by the one behind that. */
  lemma LocalChoiceExact(tree: seq<Node>, i: nat)
    requires SortedTree(tree) && i < |tree| && |tree| > 1
    ensures var last := tree[i].sector + tree[i].nsect; var c := FindNextRq(tree, last, i);
      c.Some? && (PicksBest(tree, last, i, c) <==> NeighboursSuffice(tree, last, i))
  {
    hide FindNextRq, NeighboursSuffice, TakesFirst, Chosen;
    var last := tree[i].sector + tree[i].nsect;
    var r := Chosen(tree, last, i);
    ChosenBest(tree, last, i);
    if NeighboursSuffice(tree, last, i) {
      assert Best(tree, last, i, r) && FindNextRq(tree, last, i) == Some(tree[r]);
    } else {
      forall x: nat | Best(tree, last, i, x) && FindNextRq(tree, last, i) == Some(tree[x]) ensures false {
        SamePlace(tree, x, r);
      }
    }
  }

  lemma SamePlace(tree: seq<Node>, x: nat, r: nat)
    requires SortedTree(tree) && x < |tree| && r < |tree| && tree[x] == tree[r]
    ensures x == r
  {}

  /** The position as_find_next_rq chooses. */
  function Chosen(tree: seq<Node>, last: nat, i: nat): (r: nat)
    requires i < |tree| && |tree| > 1
    ensures r < |tree|
  {
    if i + 1 == |tree| then (if TakesFirst(last, tree[0].sector, tree[i - 1].sector) then 0 else i - 1)
    else if i == 0 || TakesFirst(last, tree[i + 1].sector, tree[i - 1].sector) then i + 1
    else i - 1
  }

  lemma ChosenBest(tree: seq<Node>, last: nat, i: nat)
    requires SortedTree(tree) && i < |tree| && |tree| > 1 && tree[i].sector <= last
    ensures FindNextRq(tree, last, i) == Some(tree[Chosen(tree, last, i)])
    ensures Best(tree, last, i, Chosen(tree, last, i)) <==> NeighboursSuffice(tree, last, i)
  {
    if i + 1 == |tree| {
      if !Wraps(last, tree[i - 1].sector) { BehindIsBest(tree, last, i); }
    } else if Wraps(last, tree[i + 1].sector) {
      AllWrap(tree, last, i);
    } else {
      if i > 0 && !Wraps(last, tree[i - 1].sector) { BehindIsBest(tree, last, i); }
      if NeighboursSuffice(tree, last, i) {
        AheadIsBest(tree, last, i);
      } else {
        var j: nat := i + 2;
        assert tree[i + 1].sector < tree[j].sector;
        assert Chosen(tree, last, i) == i + 1;
      }
    }
  }

  lemma AllWrap(tree: seq<Node>, last: nat, i: nat)
    requires SortedTree(tree) && i + 1 < |tree| && tree[i].sector <= last && Wraps(last, tree[i + 1].sector)
    ensures Best(tree, last, i, Chosen(tree, last, i)) <==> i <= 1 && Wraps(last, tree[|tree| - 1].sector)
  {
    var r, z: nat := Chosen(tree, last, i), |tree| - 1;
    assert r == if i == 0 then 1 else i - 1;
    if i > 1 {
      var o: nat := 0;
      assert !TakesFirst(last, tree[r].sector, tree[o].sector);
    } else if z != r && !Wraps(last, tree[z].sector) {
      assert !TakesFirst(last, tree[r].sector, tree[z].sector);
    }
  }
}
