/** Segments of block/blk-merge.c: how pieces of memory are grouped into scatterlist
    entries, and why the grouping of blk_rq_map_sg is the smallest possible one. */
module Segments {
  /** Limits of a request queue. */
  datatype Limits = Limits(cluster: bool, maxSegment: nat, mask: bv64, maxPhys: nat, maxHw: nat, maxSectors: nat,
                           maxHwSectors: nat)

  /** A bio_vec with its physical address; `high` if its page is above the bounce limit. */
  datatype Vec = Vec(addr: bv64, len: bv32, high: bool)

  function Size(v: Vec): nat { v.len as nat }

  function End(v: Vec): bv64 { v.addr + (v.len as bv64) }

  /** The address of its last byte. */
  function Top(v: Vec): bv64 { End(v) - 1 }

  function Filled(addr: bv64, mask: bv64): bv64 { addr | mask }

  /** BIOVEC_PHYS_MERGEABLE and BIOVEC_SEG_BOUNDARY */
  predicate Joinable(q: Limits, a: Vec, b: Vec) {
    End(a) == b.addr && Filled(a.addr, q.mask) == Filled(Top(b), q.mask)
  }

  function Last<T>(s: seq<T>): T
    requires s != []
  {
    s[|s| - 1]
  }

  function Init<T>(s: seq<T>): seq<T>
    requires s != []
  {
    s[..|s| - 1]
  }

  function Bytes(vs: seq<Vec>): nat {
    if vs == [] then 0 else Bytes(Init(vs)) + Size(Last(vs))
  }

  function Flat<T>(gs: seq<seq<T>>): seq<T> {
    if gs == [] then [] else Flat(Init(gs)) + Last(gs)
  }

  /** One scatterlist entry may cover g. */
  ghost predicate Segment(q: Limits, g: seq<Vec>) {
    && g != []
    && (|g| > 1 ==> q.cluster && Bytes(g) <= q.maxSegment)
    && forall i :: 0 < i < |g| ==> Joinable(q, g[i - 1], g[i])
  }

  /** gs is a way to cover vs with scatterlist entries. */
  ghost predicate Segmentation(q: Limits, gs: seq<seq<Vec>>, vs: seq<Vec>) {
    Flat(gs) == vs && forall g :: g in gs ==> Segment(q, g)
  }

  /** Between two boundaries: what a mask of low bits leaves of an address. */
  function Window(addr: bv64, mask: bv64): bv64 { addr & !mask }

  lemma FilledOf(x: bv64, m: bv64, w: bv64)
    requires w == Window(x, m)
    ensures Filled(x, m) == Filled(w, m)
  {}

  lemma WindowOf(x: bv64, m: bv64, f: bv64)
    requires f == Filled(x, m)
    ensures Window(x, m) == Window(f, m)
  {}

  lemma FilledAlike(x: bv64, y: bv64, m: bv64)
    ensures Filled(x, m) == Filled(y, m) <==> Window(x, m) == Window(y, m)
  {
    hide Filled, Window;
    FilledOf(x, m, Window(x, m));
    FilledOf(y, m, Window(y, m));
    WindowOf(x, m, Filled(x, m));
    WindowOf(y, m, Filled(y, m));
  }

  /** Two pieces may share an entry exactly if the second one starts where the first one
      ends, and they lie between the same boundaries. */
  lemma JoinableExact(q: Limits, a: Vec, b: Vec)
    ensures Joinable(q, a, b) <==> End(a) == b.addr && Window(a.addr, q.mask) == Window(Top(b), q.mask)
  {
    hide Filled, Window, End, Top;
    FilledAlike(a.addr, Top(b), q.mask);
  }

  /** An entry is one stretch of memory; if none of its pieces crosses a boundary, the
      entry does not either. */
  lemma OneStretch(q: Limits, g: seq<Vec>)
    requires Segment(q, g) && forall i :: 0 <= i < |g| ==> Window(g[i].addr, q.mask) == Window(Top(g[i]), q.mask)
    ensures forall i :: 0 < i < |g| ==> End(g[i - 1]) == g[i].addr
    ensures Window(g[0].addr, q.mask) == Window(Top(Last(g)), q.mask)
  {
    hide Bytes, Joinable, Window, End, Top;
    forall i | 0 < i < |g| ensures End(g[i - 1]) == g[i].addr { JoinableExact(q, g[i - 1], g[i]); }
    WindowsChain(q, g, |g| - 1);
  }

  lemma {:induction false} WindowsChain(q: Limits, g: seq<Vec>, n: nat)
    requires n < |g| && forall i :: 0 < i < |g| ==> Joinable(q, g[i - 1], g[i])
    requires forall i :: 0 <= i < |g| ==> Window(g[i].addr, q.mask) == Window(Top(g[i]), q.mask)
    ensures Window(g[0].addr, q.mask) == Window(Top(g[n]), q.mask)
  {
    hide Joinable, Window, End, Top;
    if n > 0 {
      WindowsChain(q, g, n - 1);
      JoinableExact(q, g[n - 1], g[n]);
    }
  }

  /** v is put into the last segment if that is possible and nothing splits it off. */
  function Step(q: Limits, gs: seq<seq<Vec>>, v: Vec, split: bool): seq<seq<Vec>> {
    if gs != [] && Last(gs) != [] && !split && q.cluster && Bytes(Last(gs)) + Size(v) <= q.maxSegment
       && Joinable(q, Last(Last(gs)), v)
    then Init(gs) + [Last(gs) + [v]]
    else gs + [[v]]
  }

  /** The segments blk_rq_map_sg makes. */
  function Mapped(q: Limits, vs: seq<Vec>): seq<seq<Vec>> {
    if vs == [] then [] else Step(q, Mapped(q, Init(vs)), Last(vs), false)
  }

  /** A high page is never put into a segment with other pages. */
  predicate Splits(before: seq<Vec>, v: Vec) { v.high || (before != [] && Last(before).high) }

  /** The segments __blk_recalc_rq_segments counts. */
  function Counted(q: Limits, vs: seq<Vec>): seq<seq<Vec>> {
    if vs == [] then [] else Step(q, Counted(q, Init(vs)), Last(vs), Splits(Init(vs), Last(vs)))
  }

  // ----- both are segmentations -----

  lemma FlatSnoc<T>(gs: seq<seq<T>>, g: seq<T>)
    ensures Flat(gs + [g]) == Flat(gs) + g
  {
    assert Init(gs + [g]) == gs;
  }

  lemma {:induction false} FlatAppend<T>(a: seq<seq<T>>, b: seq<seq<T>>)
    ensures Flat(a + b) == Flat(a) + Flat(b)
    decreases |b|
  {
    if b == [] {
      assert a + b == a;
    } else {
      FlatAppend(a, Init(b));
      assert a + b == (a + Init(b)) + [Last(b)];
      FlatSnoc(a + Init(b), Last(b));
    }
  }

  lemma BytesSnoc(g: seq<Vec>, v: Vec)
    ensures Bytes(g + [v]) == Bytes(g) + Size(v) && Bytes([]) == 0
  {
    assert Init(g + [v]) == g;
  }

  lemma {:induction false} BytesAppend(a: seq<Vec>, b: seq<Vec>)
    ensures Bytes(a + b) == Bytes(a) + Bytes(b)
    decreases |b|
  {
    hide Bytes, Size;
    if b == [] {
      assert a + b == a;
      BytesSnoc([], Vec(0, 0, false));
    } else {
      var c, v := Init(b), Last(b);
      BytesAppend(a, c);
      assert a + b == (a + c) + [v];
      assert b == c + [v];
      BytesSnoc(a + c, v);
      BytesSnoc(c, v);
    }
  }

  predicate Joins(q: Limits, gs: seq<seq<Vec>>, v: Vec, split: bool) {
    gs != [] && Last(gs) != [] && !split && q.cluster && Bytes(Last(gs)) + Size(v) <= q.maxSegment
    && Joinable(q, Last(Last(gs)), v)
  }

  lemma StepShape(q: Limits, gs: seq<seq<Vec>>, v: Vec, split: bool)
    ensures var t := Step(q, gs, v, split);
      && t != []
      && (if Joins(q, gs, v, split) then |t| == |gs| && Bytes(Last(t)) == Bytes(Last(gs)) + Size(v)
          else |t| == |gs| + 1 && Bytes(Last(t)) == Size(v))
      && (gs != [] && (|gs| > 1 || |t| > |gs|) ==> t[0] == gs[0])
  {
    hide Joinable, Size;
    BytesSnoc([], v);
    assert [] + [v] == [v];
    if gs != [] { BytesSnoc(Last(gs), v); }
  }

  lemma StepSegmentation(q: Limits, gs: seq<seq<Vec>>, vs: seq<Vec>, v: Vec, split: bool)
    requires Segmentation(q, gs, vs)
    ensures Segmentation(q, Step(q, gs, v, split), vs + [v])
    ensures Last(Last(Step(q, gs, v, split))) == v
  {
    hide Joinable, Size;
    var t := Step(q, gs, v, split);
    if t == gs + [[v]] {
      FlatSnoc(gs, [v]);
    } else {
      var g := Last(gs);
      assert g in gs;
      FlatSnoc(Init(gs), g + [v]);
      BytesSnoc(g, v);
      assert Segment(q, g + [v]);
    }
  }

  lemma NoSegments(q: Limits)
    ensures Segmentation(q, [], []) && Mapped(q, []) == [] == Counted(q, [])
  {}

  lemma MappedStep(q: Limits, vs: seq<Vec>)
    requires vs != []
    ensures Mapped(q, vs) == Step(q, Mapped(q, Init(vs)), Last(vs), false)
    ensures Counted(q, vs) == Step(q, Counted(q, Init(vs)), Last(vs), Splits(Init(vs), Last(vs)))
  {
    hide Step, Joinable, Size, Bytes;
  }

  lemma StepLast(q: Limits, gs: seq<seq<Vec>>, v: Vec, split: bool)
    ensures var t := Step(q, gs, v, split); t != [] && Last(t) != []
  {
    hide Joinable, Size, Bytes;
  }

  lemma {:induction false} MappedSegmentation(q: Limits, vs: seq<Vec>)
    ensures Segmentation(q, Mapped(q, vs), vs)
    ensures vs != [] ==> Mapped(q, vs) != [] && Last(Mapped(q, vs)) != [] && Last(Last(Mapped(q, vs))) == Last(vs)
    decreases |vs|
  {
    hide Mapped, Counted, Step, Segmentation, Joinable, Size, Bytes;
    if vs == [] {
      NoSegments(q);
    } else {
      MappedStep(q, vs);
      MappedSegmentation(q, Init(vs));
      StepLast(q, Mapped(q, Init(vs)), Last(vs), false);
      StepSegmentation(q, Mapped(q, Init(vs)), Init(vs), Last(vs), false);
      assert Init(vs) + [Last(vs)] == vs;
    }
  }

  lemma {:induction false} CountedSegmentation(q: Limits, vs: seq<Vec>)
    ensures Segmentation(q, Counted(q, vs), vs)
    ensures vs != [] ==> Counted(q, vs) != [] && Last(Counted(q, vs)) != [] && Last(Last(Counted(q, vs))) == Last(vs)
    decreases |vs|
  {
    hide Mapped, Counted, Step, Segmentation, Joinable, Size, Bytes, Splits;
    if vs == [] {
      NoSegments(q);
    } else {
      var split := Splits(Init(vs), Last(vs));
      MappedStep(q, vs);
      CountedSegmentation(q, Init(vs));
      StepLast(q, Counted(q, Init(vs)), Last(vs), split);
      StepSegmentation(q, Counted(q, Init(vs)), Init(vs), Last(vs), split);
      assert Init(vs) + [Last(vs)] == vs;
    }
  }

  // ----- no segmentation is smaller than the mapped one -----

  lemma SegmentPrefix(q: Limits, g: seq<Vec>)
    requires Segment(q, g) && |g| > 1
    ensures Segment(q, Init(g)) && Bytes(Init(g)) + Size(Last(g)) == Bytes(g)
  {
    hide Joinable;
  }

  /** The segmentation of all but the last piece that gs contains. */
  function Shorter(gs: seq<seq<Vec>>): seq<seq<Vec>>
    requires gs != [] && Last(gs) != []
  {
    if |Last(gs)| == 1 then Init(gs) else Init(gs) + [Init(Last(gs))]
  }

  lemma ShorterSegmentation(q: Limits, gs: seq<seq<Vec>>, vs: seq<Vec>)
    requires Segmentation(q, gs, vs) && vs != []
    ensures gs != [] && Last(gs) != [] && Last(Last(gs)) == Last(vs) && Segmentation(q, Shorter(gs), Init(vs))
  {
    hide Joinable;
    var g := Last(gs);
    assert g in gs && Segment(q, g);
    if |g| == 1 {
      assert Init(vs) == Flat(Init(gs));
    } else {
      SegmentPrefix(q, g);
      FlatSnoc(Init(gs), Init(g));
      assert Init(vs) == Flat(Init(gs)) + Init(g);
    }
  }

  /** Entry counts first, then the size of the last entry. */
  ghost predicate NoWorse(a: seq<seq<Vec>>, b: seq<seq<Vec>>) {
    |a| < |b| || (|a| == |b| && (a != [] ==> Bytes(Last(a)) <= Bytes(Last(b))))
  }

  /** Any way to cover a request takes at least as many entries as blk_rq_map_sg,
      and its last entry is no smaller if it takes as many. */
  lemma {:induction false} MappedIsSmallest(q: Limits, gs: seq<seq<Vec>>, vs: seq<Vec>)
    requires Segmentation(q, gs, vs)
    ensures NoWorse(Mapped(q, vs), gs)
    decreases |vs|
  {
    hide Joinable, Size, Bytes, Step;
    if vs != [] {
      ShorterSegmentation(q, gs, vs);
      var m, s, g, v := Mapped(q, Init(vs)), Shorter(gs), Last(gs), Last(vs);
      assert g in gs;
      MappedIsSmallest(q, s, Init(vs));
      MappedSegmentation(q, Init(vs));
      StepShape(q, m, v, false);
      if |g| == 1 {
        BytesSnoc([], v);
        assert g == [] + [v] && Bytes([]) == 0;
      } else {
        SegmentPrefix(q, g);
        if |m| == |gs| {
          assert Last(Init(vs)) == g[|g| - 2];
        }
      }
    } else if gs != [] {
      assert Last(gs) in gs;
    }
  }
}
