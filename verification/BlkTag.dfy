/** Tags of commands in flight (block/blk-tag.c): a bit map, the request of each tag, and
    the busy requests of every queue that uses the map. */
module BlkTag {
  import opened IdList
  import opened Optional

  const BITS_PER_LONG: nat := 32

  /** Error codes. Overrun is none of the source's: it marks where a copy would write past
      the end of its target. */
  datatype Error = ENXIO | EBUSY | Overrun

  /** The number of bits in the words that hold `depth` of them. */
  function Align(depth: nat): (n: nat)
    ensures depth <= n
  {
    (depth + BITS_PER_LONG - 1) / BITS_PER_LONG * BITS_PER_LONG
  }

  /** How many tags requests of a kind may take: two are kept for synchronous ones. */
  function Limit(depth: nat, sync: bool): (n: nat)
    ensures n <= depth
  {
    if sync || depth <= 1 then depth else if depth == 2 then 1 else depth - 2
  }

  /** Of three tags or more two are out of reach for asynchronous requests, of two one. */
  lemma LimitKeepsTwo(depth: nat)
    ensures Limit(depth, true) == depth
    ensures depth - Limit(depth, false) == if depth >= 3 then 2 else if depth == 2 then 1 else 0
  {}

  // ----- what the tags mean -----

  /** Tag t is free. */
  predicate Free(held: map<nat, nat>, t: nat) { t !in held }

  /** No two tags belong to one request. */
  ghost predicate OneTagEach(held: map<nat, nat>) { forall s, t :: s in held && t in held && held[s] == held[t] ==> s == t }

  /** The tags at the top are held by synchronous requests only. */
  ghost predicate Reserved(held: map<nat, nat>, sync: set<nat>, depth: nat) {
    forall t :: t in held && held[t] !in sync ==> t < Limit(depth, false)
  }

  /** When every tag below the depth is taken, synchronous requests hold the two at the top,
      or the one if there are only two tags. */
  lemma TopTagsAreSync(held: map<nat, nat>, sync: set<nat>, depth: nat)
    requires Reserved(held, sync, depth) && forall t: nat :: t < depth ==> t in held
    ensures forall t: nat :: Limit(depth, false) <= t < depth ==> t in held && held[t] in sync
    ensures OneTagEach(held) && depth >= 3 ==> held[depth - 1] != held[depth - 2] && held[depth - 1] in sync && held[depth - 2] in sync
  {
    if depth >= 3 {
      var s, t: nat := depth - 1, depth - 2;
      assert s in held && t in held;
    }
  }

  lemma GrowKeepsReserve(held: map<nat, nat>, sync: set<nat>, depth: nat, more: nat)
    requires Reserved(held, sync, depth) && depth <= more
    ensures Reserved(held, sync, more)
  {}

  lemma StartKeepsReserve(held: map<nat, nat>, sync: set<nat>, depth: nat, t: nat, r: nat, isSync: bool)
    requires Reserved(held, sync, depth) && t < Limit(depth, isSync) && forall u :: u in held ==> held[u] != r
    ensures Reserved(held[t := r], if isSync then sync + {r} else sync - {r}, depth)
  {}

  lemma EndKeepsReserve(held: map<nat, nat>, sync: set<nat>, depth: nat, t: nat)
    requires Reserved(held, sync, depth) && OneTagEach(held) && t in held
    ensures Reserved(held - {t}, sync - {held[t]}, depth)
  {}

  predicate IsBusy(busy: map<nat, seq<nat>>, r: nat) { exists q: nat :: q in busy && r in busy[q] }

  /** No request is busy twice, on one queue or on two. */
  ghost predicate BusyOnce(busy: map<nat, seq<nat>>) {
    && (forall q: nat :: q in busy ==> Distinct(busy[q]))
    && (forall p: nat, q: nat, r: nat :: p in busy && q in busy && r in busy[p] && r in busy[q] ==> p == q)
  }

  lemma PushBusy(busy: map<nat, seq<nat>>, q: nat, rq: nat)
    requires BusyOnce(busy) && q in busy && !IsBusy(busy, rq)
    ensures var b := busy[q := [rq] + busy[q]]; BusyOnce(b) && forall r: nat :: IsBusy(b, r) <==> IsBusy(busy, r) || r == rq
  {
    var b := busy[q := [rq] + busy[q]];
    forall r: nat | IsBusy(busy, r) ensures IsBusy(b, r) {
      var p: nat :| p in busy && r in busy[p];
      assert p in b && r in b[p];
    }
    assert q in b && rq in b[q];
    forall r: nat | IsBusy(b, r) ensures IsBusy(busy, r) || r == rq {
      var p: nat :| p in b && r in b[p];
      assert p in busy;
    }
    forall p: nat, s: nat, r: nat | p in b && s in b && r in b[p] && r in b[s] ensures p == s {
      if r != rq {
        assert r in busy[p] && r in busy[s];
      } else {
        assert p == q && s == q;
      }
    }
  }

  lemma DropBusy(busy: map<nat, seq<nat>>, q: nat, rq: nat)
    requires BusyOnce(busy) && q in busy && rq in busy[q]
    ensures var b := busy[q := Without(busy[q], rq)]; BusyOnce(b) && forall r: nat :: IsBusy(b, r) <==> IsBusy(busy, r) && r != rq
  {
    var b := busy[q := Without(busy[q], rq)];
    WithoutDistinct(busy[q], rq);
    forall r: nat | IsBusy(busy, r) && r != rq ensures IsBusy(b, r) {
      var p: nat :| p in busy && r in busy[p];
      assert p in b && r in b[p];
    }
    forall r: nat | IsBusy(b, r) ensures IsBusy(busy, r) && r != rq {
      var p: nat :| p in b && r in b[p];
      assert p in busy && r in busy[p];
    }
  }

  lemma AttachBusy(busy: map<nat, seq<nat>>, q: nat)
    requires BusyOnce(busy) && q !in busy
    ensures var b := busy[q := []]; BusyOnce(b) && |b| == |busy| + 1 && forall r: nat :: IsBusy(b, r) <==> IsBusy(busy, r)
  {
    var b := busy[q := []];
    assert b.Keys == busy.Keys + {q};
    forall r: nat | IsBusy(busy, r) ensures IsBusy(b, r) {
      var p: nat :| p in busy && r in busy[p];
      assert p in b && r in b[p];
    }
  }

  lemma DetachBusy(busy: map<nat, seq<nat>>, q: nat)
    requires BusyOnce(busy) && q in busy && busy[q] == []
    ensures var b := busy - {q}; BusyOnce(b) && |b| == |busy| - 1 && forall r: nat :: IsBusy(b, r) <==> IsBusy(busy, r)
  {
    var b := busy - {q};
    assert b.Keys == busy.Keys - {q};
    forall r: nat | IsBusy(busy, r) ensures IsBusy(b, r) {
      var p: nat :| p in busy && r in busy[p];
      assert p in b && r in b[p];
    }
  }

  /** The request that holds each tag. */
  ghost function HeldBy(index: seq<Option<nat>>): (m: map<nat, nat>)
    ensures forall t: nat :: t in m <==> t < |index| && index[t].Some?
  {
    map t: nat | t < |index| && index[t].Some? :: index[t].value
  }

  /** A bit of the map is set exactly when a request has that tag. */
  ghost predicate MapIsIndex(index: seq<Option<nat>>, bits: seq<bool>) {
    |index| <= |bits| && forall t: nat :: t < |bits| ==> bits[t] == (t < |index| && index[t].Some?)
  }

  /** The tag that a request carries leads back to it, and no tag leads to another. */
  ghost predicate IndexIsTags(index: seq<Option<nat>>, tagOf: map<nat, nat>) {
    && (forall r: nat :: r in tagOf ==> tagOf[r] < |index| && index[tagOf[r]] == Some(r))
    && (forall t: nat :: t < |index| && index[t].Some? ==> index[t].value in tagOf && tagOf[index[t].value] == t)
  }

  ghost predicate BusyIsTagged(busy: map<nat, seq<nat>>, tagOf: map<nat, nat>) { forall r: nat :: r in tagOf <==> IsBusy(busy, r) }

  lemma TagTaken(index: seq<Option<nat>>, bits: seq<bool>, tagOf: map<nat, nat>, t: nat, r: nat)
    requires MapIsIndex(index, bits) && IndexIsTags(index, tagOf) && t < |index| && index[t] == None && r !in tagOf
    ensures var i := index[t := Some(r)];
      MapIsIndex(i, bits[t := true]) && IndexIsTags(i, tagOf[r := t]) && HeldBy(i) == HeldBy(index)[t := r]
  {
    TakenIndex(index, tagOf, t, r);
  }

  lemma TakenIndex(index: seq<Option<nat>>, tagOf: map<nat, nat>, t: nat, r: nat)
    requires IndexIsTags(index, tagOf) && t < |index| && index[t] == None && r !in tagOf
    ensures IndexIsTags(index[t := Some(r)], tagOf[r := t])
  {}

  lemma TagGiven(index: seq<Option<nat>>, bits: seq<bool>, tagOf: map<nat, nat>, r: nat)
    requires MapIsIndex(index, bits) && IndexIsTags(index, tagOf) && r in tagOf
    ensures var t := tagOf[r];
      t < |index| && bits[t] && index[t] == Some(r)
      && MapIsIndex(index[t := None], bits[t := false]) && IndexIsTags(index[t := None], tagOf - {r})
      && HeldBy(index[t := None]) == HeldBy(index) - {t}
  {
    GivenIndex(index, tagOf, r);
  }

  lemma GivenIndex(index: seq<Option<nat>>, tagOf: map<nat, nat>, r: nat)
    requires IndexIsTags(index, tagOf) && r in tagOf
    ensures IndexIsTags(index[tagOf[r] := None], tagOf - {r})
  {}

  lemma TagsCopied(index: seq<Option<nat>>, bits: seq<bool>, tagOf: map<nat, nat>, index': seq<Option<nat>>, bits': seq<bool>)
    requires MapIsIndex(index, bits) && IndexIsTags(index, tagOf) && |index| <= |index'| <= |bits'| && |bits| <= |bits'|
    requires forall t: nat :: t < |index'| ==> index'[t] == if t < |index| then index[t] else None
    requires forall t: nat :: t < |bits'| ==> bits'[t] == (t < |bits| && bits[t])
    ensures MapIsIndex(index', bits') && IndexIsTags(index', tagOf) && HeldBy(index') == HeldBy(index)
  {}

  /** What a map keeps: its index, its bits, the tags and the busy lists agree. */
  ghost predicate Tags(maxDepth: nat, realMaxDepth: nat, index: seq<Option<nat>>, bits: seq<bool>, tagOf: map<nat, nat>,
                       busy: map<nat, seq<nat>>, refcnt: nat) {
    && maxDepth <= realMaxDepth == |index| && |bits| == Align(realMaxDepth)
    && MapIsIndex(index, bits) && IndexIsTags(index, tagOf) && BusyOnce(busy) && BusyIsTagged(busy, tagOf)
    && |busy| <= refcnt
  }

  /** A busy request gives its tag back. */
  lemma TagEnded(d: nat, size: nat, index: seq<Option<nat>>, bits: seq<bool>, tagOf: map<nat, nat>, busy: map<nat, seq<nat>>,
                 refs: nat, q: nat, rq: nat)
    requires Tags(d, size, index, bits, tagOf, busy, refs) && q in busy && rq in busy[q]
    ensures rq in tagOf && tagOf[rq] < size == |index| && tagOf[rq] < |bits| && bits[tagOf[rq]]
    ensures var t := tagOf[rq];
      && Tags(d, size, index[t := None], bits[t := false], tagOf - {rq}, busy[q := Without(busy[q], rq)], refs)
      && HeldBy(index[t := None]) == HeldBy(index) - {t} && t in HeldBy(index) && HeldBy(index)[t] == rq && OneTagEach(HeldBy(index))
  {
    hide MapIsIndex, IndexIsTags, BusyOnce, Without, HeldBy, BusyIsTagged;
    BusyEnded(tagOf, busy, q, rq);
    TagGiven(index, bits, tagOf, rq);
    HeldByTags(index, tagOf);
  }

  lemma BusyEnded(tagOf: map<nat, nat>, busy: map<nat, seq<nat>>, q: nat, rq: nat)
    requires BusyOnce(busy) && BusyIsTagged(busy, tagOf) && q in busy && rq in busy[q]
    ensures var b := busy[q := Without(busy[q], rq)];
      rq in tagOf && BusyOnce(b) && BusyIsTagged(b, tagOf - {rq}) && |b| == |busy|
  {
    assert IsBusy(busy, rq);
    hide BusyOnce, Without, IsBusy;
    DropBusy(busy, q, rq);
    assert busy[q := Without(busy[q], rq)].Keys == busy.Keys;
  }

  lemma HeldByTags(index: seq<Option<nat>>, tagOf: map<nat, nat>)
    requires IndexIsTags(index, tagOf)
    ensures OneTagEach(HeldBy(index)) && forall t: nat :: t in HeldBy(index) ==> HeldBy(index)[t] in tagOf
    ensures forall r: nat :: r in tagOf ==> tagOf[r] in HeldBy(index) && HeldBy(index)[tagOf[r]] == r
  {}

  /** A larger index and a larger map with the old contents. */
  lemma TagsGrown(d: nat, size: nat, index: seq<Option<nat>>, bits: seq<bool>, tagOf: map<nat, nat>, busy: map<nat, seq<nat>>,
                  refs: nat, depth: nat, index': seq<Option<nat>>, bits': seq<bool>)
    requires Tags(d, size, index, bits, tagOf, busy, refs) && size <= depth == |index'| && |bits'| == Align(depth)
    requires forall t: nat :: t < |index'| ==> index'[t] == if t < |index| then index[t] else None
    requires forall t: nat :: t < |bits'| ==> bits'[t] == (t < |bits| && bits[t])
    ensures Tags(depth, depth, index', bits', tagOf, busy, refs) && HeldBy(index') == HeldBy(index)
  {
    hide MapIsIndex, IndexIsTags, BusyOnce, HeldBy, IsBusy;
    AlignMonotone(size, depth);
    hide Align;
    TagsCopied(index, bits, tagOf, index', bits');
  }

  lemma TagsSized(d: nat, size: nat, index: seq<Option<nat>>, bits: seq<bool>, tagOf: map<nat, nat>, busy: map<nat, seq<nat>>,
                  refs: nat)
    requires Tags(d, size, index, bits, tagOf, busy, refs)
    ensures |index| == size && |bits| == Align(size) && d <= size
    ensures forall e: nat :: e <= size ==> Tags(e, size, index, bits, tagOf, busy, refs)
  {
    hide MapIsIndex, IndexIsTags, BusyOnce, Align;
  }

  /** A queue that is given a map of its own. */
  datatype Owner = Owner(queue: nat, nrRequests: nat)

  lemma NothingBusy(busy: map<nat, seq<nat>>)
    requires forall q: nat :: q in busy ==> busy[q] == []
    ensures BusyOnce(busy) && BusyIsTagged(busy, map[])
  {}

  /** struct blk_queue_tag with the queues that share it. */
  class TagMap {
    var maxDepth: nat
    var realMaxDepth: nat
    var tagIndex: array<Option<nat>>
    var tagMap: array<bool>
    var refcnt: nat
    var busy: map<nat, seq<nat>>       // tag_busy_list of each queue
    var tagOf: map<nat, nat>           // tag of each request with REQ_QUEUED
    var sync: set<nat>                 // the synchronous ones of these

    ghost predicate Valid()
      reads this, tagIndex, tagMap
    {
      Tags(maxDepth, realMaxDepth, tagIndex[..], tagMap[..], tagOf, busy, refcnt)
    }

    ghost function Held(): map<nat, nat>
      reads this, tagIndex
    {
      HeldBy(tagIndex[..])
    }

    /** Asynchronous requests stay below their limit. */
    ghost predicate SyncReserve()
      reads this, tagIndex
    {
      Reserved(Held(), sync, maxDepth)
    }

    /** Two synchronous requests hold a tag. */
    ghost predicate TwoSync()
      reads this
    {
      exists r: nat, s: nat :: r in sync && s in sync && r != s && r in tagOf && s in tagOf
    }

    lemma HeldOnce()
      requires Valid()
      ensures OneTagEach(Held()) && forall t: nat :: t in Held() ==> Held()[t] in tagOf
      ensures forall r: nat :: r in tagOf ==> tagOf[r] in Held() && Held()[tagOf[r]] == r
    {}

    /** __blk_queue_init_tags: the private map of a queue, cut to twice its nr_requests, or
        blk_init_tags: a map that no queue uses yet. */
    constructor (owner: Option<Owner>, depth: nat)
      ensures Valid() && fresh(tagIndex) && fresh(tagMap) && tagOf == map[] && refcnt == 1 && sync == {}
      ensures busy == if owner.Some? then map[owner.value.queue := []] else map[]
      ensures SyncReserve()
      ensures realMaxDepth == maxDepth
                == if owner.Some? && depth > owner.value.nrRequests * 2 then owner.value.nrRequests * 2 else depth
    {
      var d := if owner.Some? && depth > owner.value.nrRequests * 2 then owner.value.nrRequests * 2 else depth;
      maxDepth, realMaxDepth := d, d;
      tagIndex := new Option<nat>[d](i => None);
      tagMap := new bool[Align(d)](i => false);
      refcnt, tagOf, sync := 1, map[], {};
      busy := if owner.Some? then map[owner.value.queue := []] else map[];
      new;
      NothingBusy(busy);
    }

    /** blk_map_queue_find_tag: the request that carries the tag, if any does. */
    method FindTag(tag: nat) returns (rq: Option<nat>)
      requires Valid()
      ensures forall r: nat :: rq == Some(r) <==> r in tagOf && tagOf[r] == tag
    {
      if tag >= realMaxDepth { return None; }
      rq := tagIndex[tag];
    }

    /** find_first_zero_bit */
    method FindFirstZero(size: nat) returns (tag: nat)
      requires Valid() && size <= realMaxDepth
      ensures tag <= size && (tag < size ==> tagIndex[tag] == None) && forall t: nat :: t < tag ==> tagIndex[t].Some?
    {
      tag := 0;
      while tag < size && tagMap[tag]
        invariant tag <= size && forall t: nat :: t < tag ==> tagIndex[t].Some?
      {
        tag := tag + 1;
      }
    }

    /** The tags below the limit for requests of this kind are all taken. */
    ghost predicate Full(isSync: bool)
      reads this, tagIndex
    {
      forall t: nat :: t < Limit(maxDepth, isSync) ==> t in Held()
    }

    /** A free tag is given to a request, which becomes the first of the busy ones. */
    method TakeTag(q: nat, rq: nat, isSync: bool, tag: nat)
      requires Valid() && q in busy && rq !in tagOf && tag < realMaxDepth && tagIndex[tag] == None
      modifies this`tagOf, this`busy, this`sync, tagIndex, tagMap
      ensures Valid()
      ensures tagOf == old(tagOf)[rq := tag] && Held() == old(Held())[tag := rq] && busy == old(busy)[q := [rq] + old(busy[q])]
      ensures sync == if isSync then old(sync) + {rq} else old(sync) - {rq}
    {
      hide MapIsIndex, IndexIsTags, BusyOnce, IsBusy;
      TagTaken(tagIndex[..], tagMap[..], tagOf, tag, rq);
      PushBusy(busy, q, rq);
      tagMap[tag] := true;
      sync := if isSync then sync + {rq} else sync - {rq};
      tagOf := tagOf[rq := tag];
      tagIndex[tag] := Some(rq);
      assert tagIndex[..] == old(tagIndex[..])[tag := Some(rq)] && tagMap[..] == old(tagMap[..])[tag := true];
      busy := busy[q := [rq] + busy[q]];
    }

    /** The part of blk_queue_start_tag that looks for a tag. */
    method ChooseTag(isSync: bool, inFlightAsync: nat) returns (tag: Option<nat>)
      requires Valid()
      ensures tag == None <==> Full(isSync) || (!isSync && maxDepth > 1 && inFlightAsync > Limit(maxDepth, false))
      ensures tag.Some? ==> tag.value < Limit(maxDepth, isSync) && tagIndex[tag.value] == None
      ensures tag.Some? ==> tag.value !in Held() && forall t: nat :: t < tag.value ==> t in Held()
    {
      hide MapIsIndex, IndexIsTags, BusyOnce, IsBusy, BusyIsTagged;
      var limit := maxDepth;
      if !isSync && limit > 1 {
        limit := limit - 2;
        if limit == 0 { limit := 1; }
        if inFlightAsync > limit { return None; }
      }
      var t := FindFirstZero(limit);
      if t >= limit { return None; }
      assert t !in Held();
      tag := Some(t);
    }

    /** blk_queue_start_tag: the lowest free tag below the limit, or none; a request that is
        tagged already is a BUG. */
    method StartTag(q: nat, rq: nat, isSync: bool, inFlightAsync: nat) returns (refused: bool)
      requires Valid() && q in busy && rq !in tagOf
      modifies this`tagOf, this`busy, this`sync, tagIndex, tagMap
      ensures Valid()
      ensures refused <==> old(Full(isSync)) || (!isSync && maxDepth > 1 && inFlightAsync > Limit(maxDepth, false))
      ensures refused ==> tagOf == old(tagOf) && busy == old(busy) && sync == old(sync) && Held() == old(Held())
      ensures !refused ==> rq in tagOf && tagOf[rq] < Limit(maxDepth, isSync) && tagOf[rq] !in old(Held())
      ensures !refused ==> forall t: nat :: t < tagOf[rq] ==> t in old(Held())
      ensures !refused ==> tagOf == old(tagOf)[rq := tagOf[rq]] && Held() == old(Held())[tagOf[rq] := rq]
      ensures !refused ==> busy == old(busy)[q := [rq] + old(busy[q])]
      ensures !refused ==> sync == if isSync then old(sync) + {rq} else old(sync) - {rq}
      ensures old(SyncReserve()) ==> SyncReserve()
      ensures refused && isSync && SyncReserve() && maxDepth >= 3 ==> TwoSync()
    {
      hide Tags, Reserved, OneTagEach, HeldBy, Limit, TwoSync;
      HeldOnce();
      TagsSized(maxDepth, realMaxDepth, tagIndex[..], tagMap[..], tagOf, busy, refcnt);
      if isSync && SyncReserve() && Full(true) { RefusedSync(); }
      var tag := ChooseTag(isSync, inFlightAsync);
      if tag == None { return true; }
      if SyncReserve() { StartKeepsReserve(Held(), sync, maxDepth, tag.value, rq, isSync); }
      TakeTag(q, rq, isSync, tag.value);
      refused := false;
    }

    /** At a depth of at least three a synchronous request is refused only while
        synchronous requests hold two tags. */
    lemma RefusedSync()
      requires Valid() && SyncReserve() && Full(true)
      ensures maxDepth >= 3 ==> TwoSync()
    {
      HeldOnce();
      hide MapIsIndex, IndexIsTags, BusyOnce, IsBusy, HeldBy;
      TopTagsAreSync(Held(), sync, maxDepth);
      if maxDepth >= 3 {
        var t, u: nat := maxDepth - 1, maxDepth - 2;
        assert t in Held() && u in Held();
      }
    }

    /** blk_queue_end_tag for a request that is busy on q */
    method EndTag(q: nat, rq: nat)
      requires Valid() && q in busy && rq in busy[q]
      modifies this`tagOf, this`busy, this`sync, tagIndex, tagMap
      ensures Valid()
      ensures rq in old(tagOf) && tagOf == old(tagOf) - {rq} && Held() == old(Held()) - {old(tagOf)[rq]}
      ensures busy == old(busy)[q := Without(old(busy[q]), rq)] && sync == old(sync) - {rq}
      ensures old(SyncReserve()) ==> SyncReserve()
    {
      hide Tags, Without, Reserved, OneTagEach, HeldBy;
      ghost var index, bits := tagIndex[..], tagMap[..];
      TagEnded(maxDepth, realMaxDepth, index, bits, tagOf, busy, refcnt, q, rq);
      if SyncReserve() { EndKeepsReserve(Held(), sync, maxDepth, tagOf[rq]); }
      var tag := tagOf[rq];
      if tag >= realMaxDepth {
        assert false;
        return;
      }
      busy := busy[q := Without(busy[q], rq)];
      tagOf := tagOf - {rq};
      sync := sync - {rq};
      tagIndex[tag] := None;
      if !tagMap[tag] {
        assert false;
        return;
      }
      tagMap[tag] := false;
      assert tagIndex[..] == index[tag := None] && tagMap[..] == bits[tag := false];
    }

    lemma ReserveByTag()
      requires Valid()
      ensures SyncReserve() <==> forall r: nat :: r in tagOf && r !in sync ==> tagOf[r] < Limit(maxDepth, false)
    {
      HeldOnce();
      hide Tags, HeldBy, Limit;
    }

    /** blk_queue_resize_tags: every tag in flight stays findable. A smaller depth keeps the
        reserve if and only if no asynchronous request holds a tag it would not be given at
        that depth. To grow, a private map is replaced; its contents fit the new one unless
        `nr_requests` has been lowered to less than half of the present real depth. */
    method Resize(q: nat, newDepth: nat, nrRequests: nat) returns (err: Option<Error>)
      requires Valid()
      modifies this`maxDepth, this`realMaxDepth, this`tagIndex, this`tagMap
      ensures Valid() && Held() == old(Held())
      ensures err == if q !in busy then Some(ENXIO)
                     else if newDepth > old(realMaxDepth) && refcnt != 1 then Some(EBUSY)
                     else if newDepth > old(realMaxDepth) && old(realMaxDepth) > nrRequests * 2 then Some(Overrun)
                     else None
      ensures err.Some? ==> maxDepth == old(maxDepth) && realMaxDepth == old(realMaxDepth)
      ensures err == None && newDepth <= old(realMaxDepth) ==> maxDepth == newDepth && realMaxDepth == old(realMaxDepth)
      ensures err == None && newDepth <= old(realMaxDepth) ==>
        (SyncReserve() <==> forall r: nat :: r in tagOf && r !in sync ==> tagOf[r] < Limit(newDepth, false))
      ensures err == None && newDepth > old(realMaxDepth) ==>
        maxDepth == realMaxDepth == if newDepth > nrRequests * 2 then nrRequests * 2 else newDepth
      ensures if err == None && newDepth > old(realMaxDepth) then fresh(tagIndex) && fresh(tagMap)
              else tagIndex == old(tagIndex) && tagMap == old(tagMap)
      ensures old(SyncReserve()) && maxDepth >= old(maxDepth) ==> SyncReserve()
    {
      hide Tags, Align, Reserved, HeldBy, Limit;
      ghost var oldIndex, oldBits := tagIndex[..], tagMap[..];
      TagsSized(maxDepth, realMaxDepth, oldIndex, oldBits, tagOf, busy, refcnt);
      if q !in busy { return Some(ENXIO); }
      if newDepth <= realMaxDepth {
        if old(SyncReserve()) && maxDepth <= newDepth { GrowKeepsReserve(Held(), sync, maxDepth, newDepth); }
        maxDepth := newDepth;
        ReserveByTag();
        return None;
      }
      if refcnt != 1 { return Some(EBUSY); }
      var index, bits, depth := tagIndex, tagMap, newDepth;
      if depth > nrRequests * 2 { depth := nrRequests * 2; }
      if depth < realMaxDepth { return Some(Overrun); }
      if old(SyncReserve()) { GrowKeepsReserve(Held(), sync, maxDepth, depth); }
      AlignMonotone(realMaxDepth, depth);
      var newIndex := Copied(index, None, depth);
      var newMap := Copied(bits, false, Align(depth));
      TagsGrown(maxDepth, realMaxDepth, oldIndex, oldBits, tagOf, busy, refcnt, depth, newIndex[..], newMap[..]);
      maxDepth, realMaxDepth, tagIndex, tagMap := depth, depth, newIndex, newMap;
      err := None;
    }

    /** blk_queue_init_tags with a map that is shared */
    method Attach(q: nat)
      requires Valid() && q !in busy
      modifies this`refcnt, this`busy
      ensures Valid() && refcnt == old(refcnt) + 1 && busy == old(busy)[q := []]
    {
      AttachBusy(busy, q);
      refcnt, busy := refcnt + 1, busy[q := []];
    }

    /** __blk_queue_free_tags for a queue with nothing busy: when the map is freed with its
        last user, no bit of it is set. */
    method Detach(q: nat) returns (freed: bool)
      requires Valid() && q in busy && busy[q] == []
      modifies this`refcnt, this`busy
      ensures Valid() && refcnt == old(refcnt) - 1 && busy == old(busy) - {q} && freed == (refcnt == 0)
      ensures freed ==> forall t :: 0 <= t < tagMap.Length ==> !tagMap[t]
    {
      DetachBusy(busy, q);
      assert (busy - {q}).Keys == busy.Keys - {q};
      refcnt, busy := refcnt - 1, busy - {q};
      freed := refcnt == 0;
      if freed { NothingTagged(); }
    }

    lemma NothingTagged()
      requires Valid() && refcnt == 0
      ensures forall t :: 0 <= t < tagMap.Length ==> !tagMap[t]
    {
      assert busy.Keys == {};
    }

    /** blk_queue_invalidate_tags: every busy request of the queue loses its tag and goes to
        the front of the queue, so that they stand there in the order in which they started. */
    method InvalidateTags(q: nat, queue: seq<nat>) returns (requeued: seq<nat>)
      requires Valid() && q in busy
      modifies this`tagOf, this`busy, this`sync, tagIndex, tagMap
      ensures Valid() && busy == old(busy)[q := []] && requeued == Reversed(old(busy[q])) + queue
      ensures forall r :: r in tagOf <==> r in old(tagOf) && r !in old(busy[q])
      ensures forall r :: r in tagOf ==> tagOf[r] == old(tagOf[r])
    {
      hide MapIsIndex, IndexIsTags, BusyOnce, IsBusy, Reversed, Without, HeldBy;
      requeued := queue;
      NothingReversed();
      ghost var done: seq<nat> := [];
      assert Reversed([]) + queue == queue;
      assert busy[q := busy[q]] == busy;
      while busy[q] != []
        invariant Valid() && q in busy && old(busy[q]) == done + busy[q] && busy == old(busy)[q := busy[q]]
        invariant requeued == Reversed(done) + queue
        invariant forall r :: r in tagOf <==> r in old(tagOf) && r !in done
        invariant forall r :: r in tagOf ==> tagOf[r] == old(tagOf[r])
        decreases |busy[q]|
      {
        var rq := busy[q][0];
        WithoutFirst(busy[q]);
        ReversedAppend(done, rq);
        assert old(busy[q]) == (done + [rq]) + busy[q][1..];
        EndTag(q, rq);
        requeued := [rq] + requeued;
        done := done + [rq];
      }
      assert old(busy[q]) == done;
    }
  }

  /** Requests 0 to n - 1, all asynchronous, hold the tags 0 to n - 1 at this depth. */
  ghost predicate AsyncsHold(tags: TagMap, depth: nat, n: nat)
    reads tags, tags.tagIndex, tags.tagMap
  {
    && tags.Valid() && tags.maxDepth == tags.realMaxDepth == depth && 0 in tags.busy && tags.sync == {}
    && (forall t: nat :: t in tags.Held() <==> t < n)
    && (forall r: nat :: r in tags.tagOf ==> r < n)
  }

  method OneMoreAsync(tags: TagMap, depth: nat, n: nat)
    requires AsyncsHold(tags, depth, n) && n < depth - 2
    modifies tags`tagOf, tags`busy, tags`sync, tags.tagIndex, tags.tagMap
    ensures AsyncsHold(tags, depth, n + 1)
  {
    hide MapIsIndex, IndexIsTags, BusyOnce, IsBusy, BusyIsTagged, HeldBy, Reserved, Align;
    assert n !in tags.Held();
    assert n < Limit(depth, false) && n !in tags.tagOf;
    var refused := tags.StartTag(0, n, false, n);
    assert !refused;
    assert tags.tagOf[n] == n;
  }

  /** The reserve lost, at every depth: after asynchronous requests have taken all they
      may, a depth of no more than that refuses a synchronous request although none holds
      a tag. */
  method ShrinkRefusesSync(depth: nat, small: nat) returns (tags: TagMap, refused: bool)
    requires small <= depth - 2
    ensures tags.Valid() && tags.maxDepth == small && tags.sync == {} && refused
  {
    hide MapIsIndex, IndexIsTags, BusyOnce, IsBusy, BusyIsTagged, HeldBy, Reserved, Align;
    tags := new TagMap(None, depth);
    tags.HeldOnce();
    tags.Attach(0);
    for n := 0 to depth - 2
      invariant AsyncsHold(tags, depth, n)
      invariant fresh(tags) && fresh(tags.tagIndex) && fresh(tags.tagMap)
    {
      OneMoreAsync(tags, depth, n);
    }
    var err := tags.Resize(0, small, depth);
    refused := tags.StartTag(0, depth, true, depth - 2);
  }

  /** A zeroed array of the given size into which the old one is copied. */
  method Copied<T>(a: array<T>, zero: T, size: nat) returns (b: array<T>)
    requires a.Length <= size
    ensures fresh(b) && b.Length == size
    ensures forall t: nat :: t < size ==> b[..][t] == if t < a.Length then a[..][t] else zero
  {
    b := new T[size](i => zero);
    forall i | 0 <= i < a.Length {
      b[i] := a[i];
    }
  }

  function Reversed(s: seq<nat>): seq<nat> { if s == [] then [] else Reversed(s[1..]) + [s[0]] }

  lemma NothingReversed()
    ensures Reversed([]) == []
  {}

  lemma {:induction false} ReversedAppend(s: seq<nat>, x: nat)
    ensures Reversed(s + [x]) == [x] + Reversed(s)
    decreases |s|
  {
    if s == [] {
      assert s + [x] == [x];
    } else {
      ReversedAppend(s[1..], x);
      assert (s + [x])[1..] == s[1..] + [x];
    }
  }

  lemma AlignMonotone(a: nat, b: nat)
    requires a <= b
    ensures Align(a) <= Align(b)
  {}
}
