/** What the bios of a request report when its data is completed by any number of calls
    of blk_update_request, each with an error of its own (block/blk-core.c). */
module BioEnds {
  import opened BioList
  import opened BlkCore

  datatype Call = Call(bytes: nat, error: int)

  /** The request after the calls. */
  function After(s: Snapshot, calls: seq<Call>): Snapshot
    decreases |calls|
  {
    if calls == [] then s else After(Updated(s, calls[0].bytes, calls[0].error), calls[1..])
  }

  // Bytes are counted from the start of the request as it was before the calls.

  /** How many bytes the first j calls complete. */
  function Reach(calls: seq<Call>, j: nat): nat
    requires j <= |calls|
  {
    if j == 0 then 0 else calls[0].bytes + Reach(calls[1..], j - 1)
  }

  /** Bio i holds the bytes from First(bios, i) up to, but not including, Beyond(bios, i). */
  function First(bios: seq<Bio>, i: nat): nat
    requires i < |bios|
  {
    if i == 0 then 0 else bios[0].size + First(bios[1..], i - 1)
  }

  function Beyond(bios: seq<Bio>, i: nat): nat
    requires i < |bios|
  {
    First(bios, i) + bios[i].size
  }

  /** Call j completes at least one of these bytes. */
  predicate Touches(calls: seq<Call>, j: nat, first: nat, beyond: nat)
    requires j < |calls|
  {
    calls[j].bytes > 0 && Reach(calls, j) < beyond && first < Reach(calls, j + 1)
  }

  /** One of the first k calls completed a part with an error. */
  ghost predicate PartFailed(calls: seq<Call>, k: nat, first: nat, beyond: nat)
    requires k <= |calls|
  {
    exists j: nat :: j < k && Touches(calls, j, first, beyond) && calls[j].error != 0
  }

  /** The ends the calls bring about. */
  function Reports(bios: seq<Bio>, calls: seq<Call>): seq<End>
    decreases |calls|
  {
    if calls == [] then []
    else
      var c := calls[0];
      Ends(bios, c.bytes, c.error) + Reports(Left(bios, c.bytes, c.error), calls[1..])
  }

  lemma {:induction false} AfterReports(s: Snapshot, calls: seq<Call>)
    requires StateOk(s)
    ensures After(s, calls).ended == s.ended + Reports(s.bios, calls)
    decreases |calls|
  {
    hide Left, Ends, Attributes, BiosOk, Total;
    if calls != [] {
      var c := calls[0];
      var s1 := Updated(s, c.bytes, c.error);
      UpdatedOk(s, c.bytes, c.error);
      AfterReports(s1, calls[1..]);
      var left := Left(s.bios, c.bytes, c.error);
      assert s1.bios == left;
      assert s.ended + (Ends(s.bios, c.bytes, c.error) + Reports(left, calls[1..])) ==
             (s.ended + Ends(s.bios, c.bytes, c.error)) + Reports(left, calls[1..]);
    }
  }

  lemma UpdatedOk(s: Snapshot, n: nat, error: int)
    requires StateOk(s)
    ensures StateOk(Updated(s, n, error))
  {
    hide Left, Ends, Attributes, BiosOk, Total;
    NoneLeft(s.bios, n, error);
    AttributesKept(s.mixed, s.ff, s.bios, n, error);
    if n < Total(s.bios) { LeftOk(s.bios, n, error); } else { NoTotal(); }
  }

  /** One call: which bios end and with what, and what the others are then. */
  lemma {:induction false} OneCall(bios: seq<Bio>, n: nat, error: int, i: nat)
    requires i < |bios|
    ensures var ends, left := Ends(bios, n, error), Left(bios, n, error);
      && |ends| + |left| == |bios| && (i < |ends| <==> Beyond(bios, i) <= n)
      && (i < |ends| ==> ends[i] == End(bios[i].id, if error != 0 then error else if bios[i].bad then -5 else 0))
      && (i >= |ends| ==>
            var b, j := left[i - |ends|], i - |ends|;
            && b.id == bios[i].id && b.ff == bios[i].ff && b.bad == (bios[i].bad || (First(bios, i) < n && error != 0))
            && b.sector == bios[i].sector + (if First(bios, i) < n then (n - First(bios, i)) / 512 else 0)
            && First(left, j) == (if First(bios, i) < n then 0 else First(bios, i) - n)
            && Beyond(left, j) == Beyond(bios, i) - n)
    decreases |bios|
  {
    hide Skip;
    if bios[0].size <= n {
      if i > 0 {
        OneCall(bios[1..], n - bios[0].size, error, i - 1);
      } else {
        EndedInOrder(bios, n, error);
      }
    } else if i > 0 {
      var left := Left(bios, n, error);
      assert left[1..] == bios[1..];
    }
  }

  /** The bytes that a later call touches, counted from where the first call stopped. */
  lemma TouchesLater(calls: seq<Call>, j: nat, first: nat, beyond: nat)
    requires j + 1 < |calls| && calls[0].bytes < beyond
    ensures Reach(calls, j + 1) == calls[0].bytes + Reach(calls[1..], j)
    ensures Reach(calls, j + 2) == calls[0].bytes + Reach(calls[1..], j + 1)
    ensures Touches(calls, j + 1, first, beyond) <==>
      Touches(calls[1..], j, if first < calls[0].bytes then 0 else first - calls[0].bytes, beyond - calls[0].bytes)
  {
    ReachStep(calls[1..], j);
  }

  lemma {:induction false} ReachStep(calls: seq<Call>, j: nat)
    requires j < |calls|
    ensures Reach(calls, j + 1) == Reach(calls, j) + calls[j].bytes
    decreases j
  {
    if j > 0 { ReachStep(calls[1..], j - 1); }
  }

  lemma {:induction false} ReachMonotone(calls: seq<Call>, j: nat, k: nat)
    requires j <= k <= |calls|
    ensures Reach(calls, j) <= Reach(calls, k)
    decreases k
  {
    if j < k {
      ReachStep(calls, k - 1);
      ReachMonotone(calls, j, k - 1);
    }
  }

  lemma FailedLater(calls: seq<Call>, k: nat, first: nat, beyond: nat)
    requires k + 1 <= |calls| && calls[0].bytes < beyond
    ensures var n := calls[0].bytes;
      PartFailed(calls, k + 1, first, beyond) <==>
        (first < n && calls[0].error != 0) || PartFailed(calls[1..], k, if first < n then 0 else first - n, beyond - n)
  {
    hide Reach, Touches;
    var n := calls[0].bytes;
    var first' := if first < n then 0 else first - n;
    FirstTouches(calls, first, beyond);
    if PartFailed(calls, k + 1, first, beyond) {
      var j: nat :| j < k + 1 && Touches(calls, j, first, beyond) && calls[j].error != 0;
      if j > 0 {
        var i: nat := j - 1;
        TouchesLater(calls, i, first, beyond);
        assert Touches(calls[1..], i, first', beyond - n) && calls[1..][i].error != 0;
      }
    }
    if PartFailed(calls[1..], k, first', beyond - n) {
      var j: nat :| j < k && Touches(calls[1..], j, first', beyond - n) && calls[1..][j].error != 0;
      TouchesLater(calls, j, first, beyond);
      assert Touches(calls, j + 1, first, beyond) && calls[j + 1].error != 0;
    }
  }

  lemma FirstTouches(calls: seq<Call>, first: nat, beyond: nat)
    requires calls != [] && calls[0].bytes < beyond
    ensures Touches(calls, 0, first, beyond) <==> first < calls[0].bytes
  {
    assert Reach(calls[1..], 0) == 0;
  }

  /** A bio ends in the call that completes its last byte. It reports the error of that
      call; if there is none, -EIO when the bio was bad before or a part of it was
      completed with an error; and success otherwise. Nothing else ends. */
  lemma {:induction false} Results(bios: seq<Bio>, calls: seq<Call>, i: nat, j: nat)
    requires i < |bios| && j < |calls| && Reach(calls, j) < Beyond(bios, i) <= Reach(calls, j + 1)
    ensures var first, beyond := First(bios, i), Beyond(bios, i);
      i < |Reports(bios, calls)|
      && Reports(bios, calls)[i] ==
           End(bios[i].id,
               if calls[j].error != 0 then calls[j].error
               else if bios[i].bad || PartFailed(calls, j, first, beyond) then -5 else 0)
    decreases |calls|
  {
    hide Left, Ends, First, PartFailed, Touches;
    var c := calls[0];
    var ends, left := Ends(bios, c.bytes, c.error), Left(bios, c.bytes, c.error);
    OneCall(bios, c.bytes, c.error, i);
    if j == 0 {
      NoneFailed(calls, First(bios, i), Beyond(bios, i));
      assert Reach(calls[1..], 0) == 0;
    } else {
      assert Reach(calls, 1) == c.bytes by { assert Reach(calls[1..], 0) == 0; }
      ReachMonotone(calls, 1, j);
      TouchesLater(calls, j - 1, First(bios, i), Beyond(bios, i));
      FailedLater(calls, j - 1, First(bios, i), Beyond(bios, i));
      Results(left, calls[1..], i - |ends|, j - 1);
    }
  }

  lemma NoneFailed(calls: seq<Call>, first: nat, beyond: nat)
    ensures !PartFailed(calls, 0, first, beyond)
  {}

  lemma {:induction false} ReportCount(bios: seq<Bio>, calls: seq<Call>, i: nat)
    requires i < |bios|
    ensures |Reports(bios, calls)| <= |bios|
    ensures i < |Reports(bios, calls)| <==> Beyond(bios, i) <= Reach(calls, |calls|) && calls != []
    decreases |calls|
  {
    hide Left, Ends, First;
    if calls != [] {
      var c := calls[0];
      var ends, left := Ends(bios, c.bytes, c.error), Left(bios, c.bytes, c.error);
      OneCall(bios, c.bytes, c.error, i);
      NothingReported(calls[1..]);
      if i >= |ends| {
        ReportCount(left, calls[1..], i - |ends|);
      } else if left != [] {
        ReportCount(left, calls[1..], 0);
      }
    }
  }

  lemma {:induction false} NothingReported(calls: seq<Call>)
    ensures Reports([], calls) == []
    decreases |calls|
  {
    if calls != [] { NothingReported(calls[1..]); }
  }

  /** The call that completes byte b. */
  lemma {:induction false} CallOf(calls: seq<Call>, b: nat) returns (j: nat)
    requires 0 < b <= Reach(calls, |calls|)
    ensures j < |calls| && Reach(calls, j) < b <= Reach(calls, j + 1)
    decreases |calls|
  {
    j := 0;
    if calls[0].bytes < b {
      var k := CallOf(calls[1..], b - calls[0].bytes);
      j := k + 1;
    } else {
      assert Reach(calls[1..], 0) == 0;
    }
  }

  /** Over any calls on any request: bio i reports success if and only if it was good and
      every call that completed a byte of it had no error. */
  lemma SuccessExactly(s: Snapshot, calls: seq<Call>, i: nat)
    requires StateOk(s) && i < |s.bios| && Beyond(s.bios, i) <= Reach(calls, |calls|)
    ensures var e, n := After(s, calls).ended, |s.ended| + i;
      n < |e| && e[n].id == s.bios[i].id
      && (e[n].error == 0 <==>
            !s.bios[i].bad
            && forall j: nat :: j < |calls| && Touches(calls, j, First(s.bios, i), Beyond(s.bios, i)) ==> calls[j].error == 0)
  {
    hide After, Reports, First, Touches, Reach, Attributes;
    assert BioOk(s.bios[i]);
    var first, beyond := First(s.bios, i), Beyond(s.bios, i);
    AfterReports(s, calls);
    var k := CallOf(calls, beyond);
    Results(s.bios, calls, i, k);
    EndTouches(calls, k, first, beyond);
    forall j: nat | k < j < |calls| ensures !Touches(calls, j, first, beyond) { LateMisses(calls, k, j, first, beyond); }
  }

  lemma EndTouches(calls: seq<Call>, j: nat, first: nat, beyond: nat)
    requires j < |calls| && first < beyond && Reach(calls, j) < beyond <= Reach(calls, j + 1)
    ensures Touches(calls, j, first, beyond)
  {
    ReachStep(calls, j);
  }

  lemma LateMisses(calls: seq<Call>, k: nat, j: nat, first: nat, beyond: nat)
    requires k < j < |calls| && beyond <= Reach(calls, k + 1)
    ensures !Touches(calls, j, first, beyond)
  {
    ReachMonotone(calls, k + 1, j);
  }
}
