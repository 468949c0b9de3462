/** crypto/algapi.c: the counter increment, and the request queue with its backlog. */
module Algapi {
  import opened CbcMode
  import opened CcmMode
  import opened IdList
  import opened Optional
  import opened Words

  // ----- crypto_inc -----

  lemma {:induction false} AppendValue(a: Bytes, b: Bytes)
    ensures FromBE(a + b) == FromBE(a) * Pow256(|b|) + FromBE(b)
    decreases |b|
  {
    hide FromBE;
    if b == [] {
      assert a + b == a;
      NoOctets();
    } else {
      var n := |b| - 1;
      assert (a + b)[..|a| + n] == a + b[..n] && (a + b)[|a| + n] == b[n];
      LastOctet(a + b);
      LastOctet(b);
      AppendValue(a, b[..n]);
      Scale(FromBE(a), Pow256(n));
    }
  }

  lemma LastOctet(b: Bytes)
    requires b != []
    ensures FromBE(b) == FromBE(b[..|b| - 1]) * 256 + (b[|b| - 1] as nat)
  {}

  lemma NoOctets()
    ensures FromBE([]) == 0 && Pow256(0) == 1
  {}

  lemma Scale(x: nat, p: nat)
    ensures x * p * 256 == x * (256 * p)
  {}

  /** All ones: the next number needs another octet. */
  ghost predicate Full(b: Bytes) { FromBE(b) + 1 == Pow256(|b|) }

  /** What an increment does to the octets: the number goes up by one, or wraps to zero. */
  ghost predicate Incremented(a: Bytes, b: Bytes) {
    |b| == |a| && FromBE(b) == if Full(a) then 0 else FromBE(a) + 1
  }

  lemma HeadUp(pre: Bytes, mid: Bytes, mid': Bytes)
    requires |mid'| == |mid| && FromBE(mid') == FromBE(mid) + 1
    ensures FromBE(pre + mid') == FromBE(pre + mid) + 1
  {
    hide FromBE, Pow256;
    AppendValue(pre, mid);
    AppendValue(pre, mid');
  }

  lemma TailWraps(x: Bytes, tail: Bytes, x': Bytes, tail': Bytes)
    requires |tail'| == |tail| && Full(tail) && FromBE(tail') == 0 && FromBE(x') == FromBE(x) + 1
    ensures FromBE(x' + tail') == FromBE(x + tail) + 1
  {
    hide FromBE, Pow256;
    AppendValue(x, tail);
    AppendValue(x', tail');
    Distribute(FromBE(x), Pow256(|tail|));
  }

  /** Octets in the middle go up by one, and those behind them, which were full, are zero. */
  lemma CarryStops(pre: Bytes, mid: Bytes, tail: Bytes, mid': Bytes, tail': Bytes)
    requires |mid'| == |mid| && |tail'| == |tail| && Full(tail) && FromBE(tail') == 0 && FromBE(mid') == FromBE(mid) + 1
    ensures Incremented(pre + mid + tail, pre + mid' + tail')
  {
    HeadUp(pre, mid, mid');
    TailWraps(pre + mid, tail, pre + mid', tail');
    hide FromBE, Pow256;
    FromBEBelow(pre + mid' + tail');
  }

  lemma Distribute(x: nat, p: nat)
    ensures (x + 1) * p == x * p + p
  {}

  lemma {:induction false} PowAdd(a: nat, b: nat)
    ensures Pow256(a + b) == Pow256(a) * Pow256(b)
    decreases a
  {
    if a > 0 { PowAdd(a - 1, b); }
  }

  /** Full octets in front of full ones are full; zeros in front of zeros are zero. */
  lemma CarryGoesOn(mid: Bytes, tail: Bytes, mid': Bytes, tail': Bytes)
    requires Full(mid) && Full(tail) && FromBE(mid') == 0 && FromBE(tail') == 0
    ensures Full(mid + tail) && FromBE(mid' + tail') == 0
  {
    hide FromBE, Pow256;
    AppendValue(mid, tail);
    AppendValue(mid', tail');
    PowAdd(|mid|, |tail|);
    Distribute(FromBE(mid), Pow256(|tail|));
  }

  /** A number below p, plus one, in arithmetic that wraps at p. */
  function Plus1(n: nat, p: nat): nat { if n + 1 == p then 0 else n + 1 }

  /** One more than the number, in as many octets; zero when they were full. */
  lemma NextOctets(mid: Bytes)
    ensures var n := Plus1(FromBE(mid), Pow256(|mid|));
      FromBE(BE(n, |mid|)) == n && (n == 0 <==> Full(mid)) && (n != 0 ==> n == FromBE(mid) + 1)
  {
    hide FromBE, Pow256, BE;
    FromBEBelow(mid);
    BEFrom(Plus1(FromBE(mid), Pow256(|mid|)), |mid|);
  }

  lemma AllWrapped(a: Bytes, b: Bytes)
    requires |b| == |a| && Full(a) && FromBE(b) == 0
    ensures Incremented(a, b)
  {
    hide FromBE, Pow256;
  }

  /** crypto_inc on the last k octets before m: k is 4 in the loop over words, 1 in
      crypto_inc_byte. The increment is done unless the octets wrapped. */
  method IncrementPart(a: array<bv8>, m: nat, k: nat, ghost was: Bytes) returns (done: bool)
    requires 0 < k <= m <= a.Length == |was|
    requires a[..m] == was[..m] && Full(was[m..]) && FromBE(a[m..]) == 0
    modifies a
    ensures done ==> Incremented(was, a[..])
    ensures !done ==> a[..m - k] == was[..m - k] && Full(was[m - k..]) && FromBE(a[m - k..]) == 0
  {
    hide BE, FromBE, Full, Incremented, Pow256;
    ghost var tail := a[m..];
    ghost var mid := was[m - k..m];
    assert a[m - k..m] == mid by { assert a[..m][m - k..] == was[..m][m - k..]; }
    NextOctets(mid);
    var n := Plus1(FromBE(a[m - k..m]), Pow256(k));
    var next := BE(n, k);
    forall i | m - k <= i < m {
      a[i] := next[i - (m - k)];
    }
    done := n != 0;
    assert a[m..] == tail;
    assert a[m - k..m] == next;
    assert was == was[..m - k] + mid + was[m..] && a[..] == a[..m - k] + next + a[m..];
    assert a[..m - k] == was[..m - k] by { assert a[..m - k] == old(a[..m])[..m - k]; assert was[..m][..m - k] == was[..m - k]; }
    if done {
      CarryStops(was[..m - k], mid, was[m..], next, a[m..]);
    } else {
      CarryGoesOn(mid, was[m..], next, a[m..]);
      assert was[m - k..] == mid + was[m..] && a[m - k..] == next + a[m..];
    }
  }

  lemma NothingFull()
    ensures Full([]) && FromBE([]) == 0
  {}

  /** crypto_inc: the octets are one big-endian number, which goes up by one modulo 256 to
      the number of octets. */
  method Inc(a: array<bv8>)
    modifies a
    ensures Incremented(old(a[..]), a[..])
  {
    hide FromBE, Full, Incremented, Pow256;
    ghost var was := a[..];
    NothingFull();
    var m := a.Length;
    assert a[..m] == was[..m] && was[m..] == [] && a[m..] == [];
    while m >= 4
      invariant m <= a.Length && a[..m] == was[..m] && Full(was[m..]) && FromBE(a[m..]) == 0
    {
      var done := IncrementPart(a, m, 4, was);
      if done { return; }
      m := m - 4;
    }
    while m > 0
      invariant m <= a.Length && a[..m] == was[..m] && Full(was[m..]) && FromBE(a[m..]) == 0
    {
      var done := IncrementPart(a, m, 1, was);
      if done { return; }
      m := m - 1;
    }
    assert was[0..] == was && a[0..] == a[..];
    AllWrapped(was, a[..]);
  }

  // ----- struct crypto_queue -----

  datatype Answer = InProgress | Busy

  /** The request that a backlog of everything beyond the first `max` starts with. */
  function Backlog(list: seq<nat>, max: nat): Option<nat> { if |list| > max then Some(list[max]) else None }

  class CryptoQueue {
    var list: seq<nat>
    var backlog: Option<nat>       // None when it points to the head of the list
    var qlen: nat
    const maxQlen: nat

    /** The backlog pointer is at position min(qlen, max_qlen). */
    ghost predicate Valid()
      reads this
    {
      qlen == |list| && Distinct(list) && backlog == Backlog(list, maxQlen)
    }

    /** crypto_init_queue */
    constructor (maxQlen: nat)
      ensures Valid() && list == [] && this.maxQlen == maxQlen
    {
      list, backlog, qlen, this.maxQlen := [], None, 0, maxQlen;
    }

    /** crypto_enqueue_request: beyond max_qlen a request is queued only if it may wait. */
    method Enqueue(request: nat, mayBacklog: bool) returns (answer: Answer)
      requires Valid() && request !in list
      modifies this
      ensures Valid() && (answer == Busy <==> old(|list|) >= maxQlen)
      ensures list == if answer == Busy && !mayBacklog then old(list) else old(list) + [request]
    {
      answer := InProgress;
      if qlen >= maxQlen {
        answer := Busy;
        if !mayBacklog { return; }
        if backlog == None { backlog := Some(request); }
      }
      qlen := qlen + 1;
      list := list + [request];
    }

    /** The element behind a request, or the head of the list. */
    function After(request: nat): Option<nat>
      reads this
    {
      var i := Position(list, request);
      if i + 1 < |list| then Some(list[i + 1]) else None
    }

    /** crypto_get_backlog followed by crypto_dequeue_request, as drivers call them: the
        request reported is the one that moves up among the first max_qlen, if one does. */
    method Dequeue() returns (reported: Option<nat>, request: Option<nat>)
      requires Valid()
      modifies this
      ensures Valid()
      ensures old(list) == [] ==> request == None && list == []
      ensures old(list) != [] ==> request == Some(old(list)[0]) && list == old(list)[1..]
      ensures reported == Backlog(old(list), maxQlen)
      ensures var window, window' := Window(old(list), maxQlen), Window(list, maxQlen);
        window' == (if window == [] then [] else window[1..]) + (if reported.Some? && maxQlen > 0 then [reported.value] else [])
    {
      reported := backlog;
      request := None;
      if qlen > 0 {
        qlen := qlen - 1;
        if backlog.Some? {
          PositionOf(list, maxQlen);
          backlog := After(backlog.value);
        }
        request := Some(list[0]);
        list := list[1..];
      }
    }
  }

  /** The requests that count as accepted, not as waiting. */
  function Window(list: seq<nat>, max: nat): seq<nat> { if |list| <= max then list else list[..max] }

  function Position(list: seq<nat>, request: nat): nat {
    if list == [] || list[0] == request then 0 else 1 + Position(list[1..], request)
  }

  lemma {:induction false} PositionOf(list: seq<nat>, i: nat)
    requires Distinct(list)
    ensures i < |list| ==> Position(list, list[i]) == i
    decreases i
  {
    if 0 < i < |list| {
      assert list[1..][i - 1] == list[i];
      PositionOf(list[1..], i - 1);
    }
  }
}
