/** block/blk-merge.c: a request's nr_phys_segments stays an upper bound for the
    number of scatterlist entries, whatever is merged into the request. */
module BlkMerge {
  import opened Segments

  /** struct bio with the pieces of memory that are still to be transferred.
      `segments` is meaningful while `segValid` (BIO_SEG_VALID) is set. */
  datatype Bio = Bio(vecs: seq<Vec>, sector: nat, sectors: nat, segValid: bool, segments: nat, front: nat, back: nat)

  function Vecs(bios: seq<Bio>): seq<Vec> {
    if bios == [] then [] else Vecs(Init(bios)) + Last(bios).vecs
  }

  function Max(a: nat, b: nat): nat { if a < b then b else a }

  /** gs covers vs with nr entries, the first of at most `front` bytes and the last of
      at most `back` bytes. */
  ghost predicate Covers(q: Limits, gs: seq<seq<Vec>>, vs: seq<Vec>, nr: nat, front: nat, back: nat) {
    Segmentation(q, gs, vs) && |gs| == nr && (gs != [] ==> Bytes(gs[0]) <= front && Bytes(Last(gs)) <= back)
  }

  ghost predicate Coverable(q: Limits, vs: seq<Vec>, nr: nat, front: nat, back: nat) {
    exists gs :: Covers(q, gs, vs, nr, front, back)
  }

  /** The segment count of a request and the sizes kept in its first and last bio
      describe one way to cover its memory. */
  ghost predicate Covered(q: Limits, bios: seq<Bio>, nr: nat) {
    bios != [] && Coverable(q, Vecs(bios), nr, bios[0].front, Last(bios).back)
  }

  ghost predicate HasData(bios: seq<Bio>) { forall b :: b in bios ==> b.vecs != [] }

  ghost predicate BioOk(q: Limits, b: Bio) {
    b.vecs != [] && (b.segValid ==> Coverable(q, b.vecs, b.segments, b.front, b.back))
  }

  lemma {:induction false} VecsAppend(a: seq<Bio>, b: seq<Bio>)
    ensures Vecs(a + b) == Vecs(a) + Vecs(b)
    decreases |b|
  {
    if b == [] {
      assert a + b == a;
    } else {
      VecsAppend(a, Init(b));
      assert Init(a + b) == a + Init(b);
    }
  }

  lemma VecsOne(b: Bio)
    ensures Vecs([b]) == b.vecs
  {
    assert Init([b]) == [];
  }

  lemma {:induction false} VecsSame(a: seq<Bio>, b: seq<Bio>)
    requires |a| == |b| && forall i :: 0 <= i < |a| ==> a[i].vecs == b[i].vecs
    ensures Vecs(a) == Vecs(b)
    decreases |a|
  {
    if a != [] {
      VecsSame(Init(a), Init(b));
    }
  }

  /** A request that is covered fits the scatterlist its count promises. */
  lemma CountSuffices(q: Limits, bios: seq<Bio>, nr: nat)
    requires Covered(q, bios, nr)
    ensures |Mapped(q, Vecs(bios))| <= nr
  {
    var gs :| Covers(q, gs, Vecs(bios), nr, bios[0].front, Last(bios).back);
    MappedIsSmallest(q, gs, Vecs(bios));
  }

  // ----- counting -----

  /** What __blk_recalc_rq_segments leaves in the first and the last bio. */
  function Recorded(bios: seq<Bio>, gs: seq<seq<Vec>>): seq<Bio>
    requires bios != []
  {
    if gs == [] then bios
    else
      var b := bios[0 := bios[0].(front := Max(bios[0].front, Bytes(gs[0])))];
      b[|b| - 1 := Last(b).(back := Max(Last(b).back, Bytes(Last(gs))))]
  }

  lemma RecordedCovered(q: Limits, bios: seq<Bio>)
    requires bios != []
    ensures var gs := Counted(q, Vecs(bios)); var b := Recorded(bios, gs);
      Vecs(b) == Vecs(bios) && Covered(q, b, |gs|)
  {
    var gs := Counted(q, Vecs(bios));
    var b := Recorded(bios, gs);
    CountedSegmentation(q, Vecs(bios));
    VecsSame(b, bios);
    assert Covers(q, gs, Vecs(b), |gs|, b[0].front, Last(b).back);
  }

  /** The variables of the counting loops after the pieces in `done`. */
  ghost predicate Scanned(q: Limits, done: seq<Vec>, nr: nat, size: nat, high: bool, front: nat, front0: nat) {
    var gs := Counted(q, done);
    && nr == |gs| && (gs == [] ==> size == 0) && (gs != [] ==> size == Bytes(Last(gs)))
    && high == (done == [] || Last(done).high)
    && front == if nr <= 1 then front0 else Max(front0, Bytes(gs[0]))
  }

  method CountVec(q: Limits, ghost done: seq<Vec>, v: Vec, prev: Vec, nr: nat, size: nat, high: bool, front: nat,
                  ghost front0: nat)
    returns (nr': nat, size': nat, high': bool, front': nat)
    requires Scanned(q, done, nr, size, high, front, front0) && (done != [] ==> prev == Last(done))
    ensures Scanned(q, done + [v], nr', size', high', front', front0)
  {
    hide Joinable, Size, Bytes, Step, Segmentation;
    ghost var gs := Counted(q, done);
    assert Init(done + [v]) == done && Last(done + [v]) == v;
    CountedSegmentation(q, done);
    StepShape(q, gs, v, Splits(done, v));
    CountedNone(q);
    nr', size', high', front' := nr, size, high, front;
    if !v.high && !high && q.cluster && size + Size(v) <= q.maxSegment && Joinable(q, prev, v) {
      size' := size + Size(v);
      return;
    }
    if nr == 1 && size > front {
      front' := size;
    }
    nr', size', high' := nr + 1, Size(v), v.high;
  }

  lemma VecsTake(bios: seq<Bio>, i: nat)
    requires i < |bios|
    ensures Vecs(bios[..i + 1]) == Vecs(bios[..i]) + bios[i].vecs && Vecs(bios[..0]) == []
  {
    assert Init(bios[..i + 1]) == bios[..i];
  }

  lemma ScannedNone(q: Limits, front: nat)
    ensures Scanned(q, [], 0, 0, true, front, front)
  {
    hide Bytes, Step;
    CountedNone(q);
  }

  /** The sizes that are recorded when all pieces have been looked at. */
  lemma ScannedAll(q: Limits, bios: seq<Bio>, nr: nat, size: nat, high: bool, front: nat, front': nat)
    requires bios != [] && Scanned(q, Vecs(bios), nr, size, high, front, bios[0].front)
    requires front' == if nr == 1 && size > front then size else front
    ensures nr == |Counted(q, Vecs(bios))|
    ensures var b := bios[0 := bios[0].(front := front')];
      Recorded(bios, Counted(q, Vecs(bios)))
        == if size > Last(b).back then b[|b| - 1 := Last(b).(back := size)] else b
  {
    hide Counted, Bytes, Vecs;
  }

  /** __blk_recalc_rq_segments */
  method Recalc(q: Limits, bios: seq<Bio>) returns (nr: nat, bios': seq<Bio>)
    requires bios != []
    ensures nr == |Counted(q, Vecs(bios))| && bios' == Recorded(bios, Counted(q, Vecs(bios)))
  {
    hide Counted, Joinable, Size, Bytes, Scanned, Vecs, Recorded;
    var size: nat := 0;
    var high, front: nat := true, bios[0].front;
    var prev := Vec(0, 0, true);
    nr := 0;
    ScannedNone(q, front);
    VecsTake(bios, 0);
    ghost var done: seq<Vec> := [];
    for i := 0 to |bios|
      invariant done == Vecs(bios[..i]) && (done != [] ==> prev == Last(done))
      invariant Scanned(q, done, nr, size, high, front, bios[0].front)
    {
      var vs := bios[i].vecs;
      VecsTake(bios, i);
      ghost var before := done;
      assert before + vs[..0] == before;
      for j := 0 to |vs|
        invariant done == before + vs[..j] && (done != [] ==> prev == Last(done))
        invariant Scanned(q, done, nr, size, high, front, bios[0].front)
      {
        nr, size, high, front := CountVec(q, done, vs[j], prev, nr, size, high, front, bios[0].front);
        prev := vs[j];
        assert before + vs[..j + 1] == (before + vs[..j]) + [vs[j]];
        done := done + [vs[j]];
      }
      assert vs[..|vs|] == vs;
    }
    assert bios[..|bios|] == bios;
    ghost var front0 := front;
    if nr == 1 && size > front {
      front := size;
    }
    ScannedAll(q, bios, nr, size, high, front0, front);
    bios' := bios[0 := bios[0].(front := front)];
    var tail := Last(bios');
    if size > tail.back {
      bios' := bios'[|bios'| - 1 := tail.(back := size)];
    }
  }

  lemma CountedNone(q: Limits)
    ensures Counted(q, []) == []
  {}

  /** blk_recount_segments */
  function Recounted(q: Limits, b: Bio): Bio {
    var gs := Counted(q, b.vecs);
    Recorded([b], gs)[0].(segments := |gs|, segValid := true)
  }

  lemma RecountedOk(q: Limits, b: Bio)
    requires b.vecs != []
    ensures var r := Recounted(q, b);
      BioOk(q, r) && r.vecs == b.vecs && r.segValid && r.sector == b.sector && b.front <= r.front && b.back <= r.back && r.sectors == b.sectors
  {
    hide Bytes, Segmentation, Counted;
    VecsOne(b);
    RecordedCovered(q, [b]);
    var gs := Counted(q, b.vecs);
    var c := Recorded([b], gs);
    VecsOne(c[0]);
    assert [c[0]] == c;
  }

  method Recount(q: Limits, b: Bio) returns (r: Bio)
    ensures r == Recounted(q, b)
  {
    VecsOne(b);
    var nr, bios := Recalc(q, [b]);
    r := bios[0].(segments := nr, segValid := true);
  }

  // ----- merging -----

  /** Segments of two neighbours can be counted together. */
  lemma CoverAppend(q: Limits, vs: seq<Vec>, nr: nat, f: nat, b: nat, ws: seq<Vec>, mr: nat, f': nat, b': nat)
    requires Coverable(q, vs, nr, f, b) && Coverable(q, ws, mr, f', b') && vs != [] && ws != []
    ensures Coverable(q, vs + ws, nr + mr, f, b')
  {
    hide Bytes;
    var gs :| Covers(q, gs, vs, nr, f, b);
    var hs :| Covers(q, hs, ws, mr, f', b');
    FlatAppend(gs, hs);
    assert Covers(q, gs + hs, vs + ws, nr + mr, f, b');
  }

  lemma SegmentAppend(q: Limits, g: seq<Vec>, h: seq<Vec>)
    requires Segment(q, g) && Segment(q, h) && q.cluster && Bytes(g) + Bytes(h) <= q.maxSegment
    requires Joinable(q, Last(g), h[0])
    ensures Segment(q, g + h) && Bytes(g + h) == Bytes(g) + Bytes(h)
  {
    hide Joinable, Bytes;
    BytesAppend(g, h);
    var t := g + h;
    forall i | 0 < i < |t| ensures Joinable(q, t[i - 1], t[i]) {
      if i > |g| { assert t[i - 1] == h[i - 1 - |g|] && t[i] == h[i - |g|]; }
    }
  }

  lemma {:induction false} FlatEnds(q: Limits, gs: seq<seq<Vec>>, vs: seq<Vec>)
    requires Segmentation(q, gs, vs) && vs != []
    ensures gs != [] && gs[0] != [] && Last(gs) != [] && Last(Last(gs)) == Last(vs) && gs[0][0] == vs[0]
    decreases |gs|
  {
    if |gs| == 1 {
      assert Flat(gs) == Flat([]) + gs[0];
      assert gs[0] in gs;
    } else if gs != [] {
      assert Last(gs) in gs;
      assert forall g :: g in Init(gs) ==> g in gs;
      var us := Flat(Init(gs));
      assert Init(gs)[0] == gs[0] && gs[0] in gs && Segment(q, gs[0]);
      FlatNonEmpty(Init(gs));
      FlatEnds(q, Init(gs), us);
      assert us + Last(gs) == vs;
    }
  }

  lemma {:induction false} FlatNonEmpty<T>(gs: seq<seq<T>>)
    requires gs != [] && gs[0] != []
    ensures Flat(gs) != []
    decreases |gs|
  {
    if |gs| > 1 { FlatNonEmpty(Init(gs)); }
  }

  lemma FlatFirst<T>(gs: seq<seq<T>>)
    requires gs != []
    ensures Flat(gs) == gs[0] + Flat(gs[1..])
  {
    assert [gs[0]] + gs[1..] == gs;
    FlatAppend([gs[0]], gs[1..]);
    assert Init([gs[0]]) == [];
    assert Flat([gs[0]]) == gs[0];
  }

  lemma JoinFlat<T>(gs: seq<seq<T>>, hs: seq<seq<T>>)
    requires gs != [] && hs != []
    ensures Flat(Init(gs) + [Last(gs) + hs[0]] + hs[1..]) == Flat(gs) + Flat(hs)
  {
    hide Flat;
    var m := Last(gs) + hs[0];
    FlatAppend(Init(gs) + [m], hs[1..]);
    FlatSnoc(Init(gs), m);
    FlatSnoc(Init(gs), Last(gs));
    assert Init(gs) + [Last(gs)] == gs;
    FlatFirst(hs);
    Regroup(Flat(Init(gs)), Last(gs), hs[0], Flat(hs[1..]));
  }

  lemma Regroup<T>(a: seq<T>, b: seq<T>, c: seq<T>, d: seq<T>)
    ensures (a + (b + c)) + d == (a + b) + (c + d)
  {}

  /** When the last segment of one and the first of the other may be joined, the two
      counts can be added less one. */
  lemma CoverJoin(q: Limits, vs: seq<Vec>, nr: nat, f: nat, b: nat, ws: seq<Vec>, mr: nat, f': nat, b': nat)
    requires Coverable(q, vs, nr, f, b) && Coverable(q, ws, mr, f', b') && vs != [] && ws != []
    requires q.cluster && b + f' <= q.maxSegment && Joinable(q, Last(vs), ws[0])
    ensures nr >= 1 && mr >= 1
    ensures Coverable(q, vs + ws, nr + mr - 1, if nr == 1 then b + f' else f, if mr == 1 then b + f' else b')
  {
    hide Bytes, Joinable;
    var gs :| Covers(q, gs, vs, nr, f, b);
    var hs :| Covers(q, hs, ws, mr, f', b');
    FlatEnds(q, gs, vs);
    FlatEnds(q, hs, ws);
    var g, h := Last(gs), hs[0];
    assert g in gs && h in hs;
    SegmentAppend(q, g, h);
    JoinFlat(gs, hs);
    var t := Init(gs) + [g + h] + hs[1..];
    assert forall x :: x in t ==> x in gs || x in hs || x == g + h;
    assert Covers(q, t, vs + ws, nr + mr - 1, if nr == 1 then b + f' else f, if mr == 1 then b + f' else b');
  }

  lemma CoverWiden(q: Limits, vs: seq<Vec>, nr: nat, f: nat, b: nat, f': nat, b': nat)
    requires Coverable(q, vs, nr, f, b) && f <= f' && b <= b'
    ensures Coverable(q, vs, nr, f', b')
  {
    var gs :| Covers(q, gs, vs, nr, f, b);
    assert Covers(q, gs, vs, nr, f', b');
  }

  /** With one segment only, either recorded size bounds it. */
  lemma CoverSingle(q: Limits, vs: seq<Vec>, f: nat, b: nat, c: nat)
    requires Coverable(q, vs, 1, f, b)
    ensures b <= c ==> Coverable(q, vs, 1, c, b)
    ensures f <= c ==> Coverable(q, vs, 1, f, c)
  {
    var gs :| Covers(q, gs, vs, 1, f, b);
    assert b <= c ==> Covers(q, gs, vs, 1, c, b);
    assert f <= c ==> Covers(q, gs, vs, 1, f, c);
  }

  /** blk_phys_contig_segment */
  predicate Contig(q: Limits, bio: Bio, nxt: Bio)
    requires nxt.vecs != []
  {
    && q.cluster && bio.back + nxt.front <= q.maxSegment
    && (bio.vecs == [] || Joinable(q, Last(bio.vecs), nxt.vecs[0]))
  }

  lemma LastVec(bios: seq<Bio>)
    requires bios != [] && HasData(bios)
    ensures Vecs(bios) != [] && Last(Vecs(bios)) == Last(Last(bios).vecs) && Vecs(bios)[0] == bios[0].vecs[0]
  {
    assert Last(bios) in bios && bios[0] in bios;
    assert bios == [bios[0]] + bios[1..];
    VecsAppend([bios[0]], bios[1..]);
    VecsOne(bios[0]);
  }

  /** bio_phys_segments: counts again only if the count is not valid. */
  function Prepared(q: Limits, b: Bio): Bio { if b.segValid then b else Recounted(q, b) }

  lemma PreparedOk(q: Limits, b: Bio)
    requires BioOk(q, b)
    ensures var p := Prepared(q, b);
      BioOk(q, p) && p.sector == b.sector && p.sectors == b.sectors && p.segValid && p.vecs == b.vecs && b.front <= p.front && b.back <= p.back
  {
    hide Coverable, Recounted;
    if !b.segValid { RecountedOk(q, b); }
  }

  lemma OneBio(q: Limits, b: Bio)
    requires BioOk(q, b) && b.segValid
    ensures Covered(q, [b], b.segments) && HasData([b]) && Vecs([b]) == b.vecs
  {
    hide Coverable;
    VecsOne(b);
  }

  lemma SetBio(q: Limits, bios: seq<Bio>, i: nat, b: Bio, nr: nat)
    requires HasData(bios) && Covered(q, bios, nr) && i < |bios|
    requires b.vecs == bios[i].vecs && bios[i].front <= b.front && bios[i].back <= b.back
    ensures var t := bios[i := b]; HasData(t) && Covered(q, t, nr) && Vecs(t) == Vecs(bios)
  {
    hide Coverable;
    var t := bios[i := b];
    VecsSame(t, bios);
    CoverWiden(q, Vecs(bios), nr, bios[0].front, Last(bios).back, t[0].front, Last(t).back);
    forall x: Bio | x in t ensures x.vecs != [] {
      assert bios[i] in bios;
    }
  }

  lemma HasFirst(q: Limits, bios: seq<Bio>, nr: nat)
    requires HasData(bios) && Covered(q, bios, nr)
    ensures bios != [] && bios[0].vecs != [] && Last(bios).vecs != []
  {
    assert bios[0] in bios && Last(bios) in bios;
  }

  lemma BiosAppend(q: Limits, a: seq<Bio>, n: nat, b: seq<Bio>, m: nat)
    requires HasData(a) && Covered(q, a, n) && HasData(b) && Covered(q, b, m)
    ensures HasData(a + b) && Covered(q, a + b, n + m) && Vecs(a + b) == Vecs(a) + Vecs(b)
  {
    hide Coverable, Vecs;
    VecsAppend(a, b);
    LastVec(a);
    LastVec(b);
    CoverAppend(q, Vecs(a), n, a[0].front, Last(a).back, Vecs(b), m, b[0].front, Last(b).back);
  }

  /** What ll_merge_requests_fn records when the requests touch in one segment. */
  function JoinedFront(a: seq<Bio>, n: nat, size: nat): seq<Bio>
    requires a != []
  {
    if n == 1 then a[0 := a[0].(front := size)] else a
  }

  function JoinedBack(b: seq<Bio>, m: nat, size: nat): seq<Bio>
    requires b != []
  {
    if m == 1 then b[|b| - 1 := Last(b).(back := size)] else b
  }

  lemma JoinedData(a: seq<Bio>, n: nat, b: seq<Bio>, m: nat, size: nat)
    requires a != [] && b != [] && HasData(a) && HasData(b)
    ensures var t := JoinedFront(a, n, size) + JoinedBack(b, m, size);
      HasData(t) && Vecs(t) == Vecs(a) + Vecs(b)
  {
    var a', b' := JoinedFront(a, n, size), JoinedBack(b, m, size);
    VecsSame(a, a');
    VecsSame(b, b');
    VecsAppend(a', b');
    forall x: Bio | x in a' + b' ensures x.vecs != [] {
      assert a[0] in a && Last(b) in b;
    }
  }

  lemma BiosJoin(q: Limits, a: seq<Bio>, n: nat, b: seq<Bio>, m: nat)
    requires HasData(a) && Covered(q, a, n) && HasData(b) && Covered(q, b, m) && Contig(q, Last(a), b[0])
    ensures n >= 1 && m >= 1
    ensures var size := Last(a).back + b[0].front; var t := JoinedFront(a, n, size) + JoinedBack(b, m, size);
      HasData(t) && Covered(q, t, n + m - 1) && Vecs(t) == Vecs(a) + Vecs(b)
  {
    hide Coverable, Vecs, HasData, Joinable;
    var size := Last(a).back + b[0].front;
    LastVec(a);
    LastVec(b);
    HasFirst(q, a, n);
    CoverJoin(q, Vecs(a), n, a[0].front, Last(a).back, Vecs(b), m, b[0].front, Last(b).back);
    JoinedData(a, n, b, m, size);
  }

  /** A failed merge leaves the recorded sizes too large at most. */
  lemma BiosJoinUndone(q: Limits, a: seq<Bio>, n: nat, b: seq<Bio>, m: nat, size: nat)
    requires HasData(a) && Covered(q, a, n) && HasData(b) && Covered(q, b, m) && size == Last(a).back + b[0].front
    ensures var a' := JoinedFront(a, n, size); HasData(a') && Covered(q, a', n) && Vecs(a') == Vecs(a)
    ensures var b' := JoinedBack(b, m, size); HasData(b') && Covered(q, b', m) && Vecs(b') == Vecs(b)
  {
    hide Coverable;
    VecsSame(a, JoinedFront(a, n, size));
    VecsSame(b, JoinedBack(b, m, size));
    if n == 1 { CoverSingle(q, Vecs(a), a[0].front, Last(a).back, size); JoinedKeeps(q, a, size); }
    if m == 1 { CoverSingle(q, Vecs(b), b[0].front, Last(b).back, size); JoinedKeepsBack(q, b, size); }
  }

  lemma JoinedKeeps(q: Limits, a: seq<Bio>, size: nat)
    requires HasData(a) && Covered(q, a, 1) && Last(a).back <= size
    ensures var a' := a[0 := a[0].(front := size)]; HasData(a') && Covered(q, a', 1)
  {
    hide Coverable;
    var a' := a[0 := a[0].(front := size)];
    VecsSame(a, a');
    CoverSingle(q, Vecs(a), a[0].front, Last(a).back, size);
    forall x: Bio | x in a' ensures x.vecs != [] { assert a[0] in a; }
  }

  lemma JoinedKeepsBack(q: Limits, b: seq<Bio>, size: nat)
    requires HasData(b) && Covered(q, b, 1) && b[0].front <= size
    ensures var b' := b[|b| - 1 := Last(b).(back := size)]; HasData(b') && Covered(q, b', 1)
  {
    hide Coverable;
    var b' := b[|b| - 1 := Last(b).(back := size)];
    VecsSame(b, b');
    CoverSingle(q, Vecs(b), b[0].front, Last(b).back, size);
    forall x: Bio | x in b' ensures x.vecs != [] { assert Last(b) in b; }
  }

  /** An entry of the scatterlist. */
  datatype Sg = Sg(addr: bv64, length: nat)

  function Entries(gs: seq<seq<Vec>>): (r: seq<Sg>)
    requires forall g :: g in gs ==> g != []
    ensures |r| == |gs|
  {
    seq(|gs|, (i: nat) requires i < |gs| && gs[i] in gs => Sg(gs[i][0].addr, Bytes(gs[i])))
  }

  /** struct request, as far as merging looks at it; `mergeable` is rq_mergeable. */
  class Request {
    var bios: seq<Bio>
    var nr: int               // nr_phys_segments
    var sector: nat
    var sectors: nat
    var write: bool
    var disk: nat
    var special: bool
    var integrity: bool
    var pc: bool
    var mergeable: bool

    ghost predicate Valid(q: Limits)
      reads this
    {
      nr >= 0 && HasData(bios) && Covered(q, bios, nr)
    }

    /** blk_rq_bio_prep */
    constructor (q: Limits, bio: Bio, write: bool, disk: nat)
      requires BioOk(q, bio)
      ensures Valid(q) && Vecs(bios) == bio.vecs && nr == Prepared(q, bio).segments
    {
      var b := bio;
      if !b.segValid { b := Recount(q, bio); }
      bios, nr, sector, sectors := [b], b.segments, bio.sector, bio.sectors;
      this.write, this.disk, special, integrity, pc, mergeable := write, disk, false, false, false, true;
      PreparedOk(q, bio);
      OneBio(q, b);
    }

    /** blk_recalc_rq_segments, as called after a part of the request has completed. */
    method RecalcSegments(q: Limits)
      requires bios != [] && HasData(bios)
      modifies this`nr, this`bios
      ensures Valid(q) && Vecs(bios) == old(Vecs(bios)) && nr == |Counted(q, Vecs(bios))|
    {
      hide Counted, Coverable;
      var n, bs := Recalc(q, bios);
      RecordedCovered(q, bios);
      forall b: Bio | b in bs ensures b.vecs != [] { assert bios[0] in bios && Last(bios) in bios; }
      nr, bios := n, bs;
    }

    /** ll_new_hw_segment for a bio of n segments. */
    method NewHwSegment(q: Limits, n: nat) returns (ok: bool)
      modifies this`nr, this`mergeable
      ensures ok == (NrFits(q, old(nr) + n)) && nr == (if ok then old(nr) + n else old(nr))
      ensures mergeable == (ok && old(mergeable))
    {
      if nr + n > q.maxHw || nr + n > q.maxPhys {
        mergeable := false;
        return false;
      }
      nr := nr + n;
      ok := true;
    }

    function MaxSectors(q: Limits): nat
      reads this
    {
      if pc then q.maxHwSectors else q.maxSectors
    }

    /** A back merge: ll_back_merge_fn and the list update of __make_request. */
    method BackMerge(q: Limits, bio: Bio) returns (ok: bool)
      requires Valid(q) && BioOk(q, bio)
      modifies this
      ensures Valid(q)
      ensures ok == (old(sectors) + bio.sectors <= old(MaxSectors(q)) && NrFits(q, old(nr) + Prepared(q, bio).segments))
      ensures ok ==> Vecs(bios) == old(Vecs(bios)) + bio.vecs && nr == old(nr) + Prepared(q, bio).segments
      ensures !ok ==> Vecs(bios) == old(Vecs(bios)) && nr == old(nr) && !mergeable
    {
      hide Coverable, Recounted, Covered, HasData, Vecs, BioOk;
      HasFirst(q, bios, nr);
      if sectors + bio.sectors > MaxSectors(q) {
        mergeable := false;
        return false;
      }
      if !Last(bios).segValid {
        var tail := Recount(q, Last(bios));
        RecountedOk(q, Last(bios));
        SetBio(q, bios, |bios| - 1, tail, nr);
        bios := bios[|bios| - 1 := tail];
      }
      var b := bio;
      if !b.segValid { b := Recount(q, bio); }
      PreparedOk(q, bio);
      ghost var n := nr;
      ok := NewHwSegment(q, b.segments);
      if ok {
        OneBio(q, b);
        BiosAppend(q, bios, n, [b], b.segments);
        bios, sectors := bios + [b], sectors + b.sectors;
      }
    }

    /** A front merge: ll_front_merge_fn and the list update of __make_request. */
    method FrontMerge(q: Limits, bio: Bio) returns (ok: bool)
      requires Valid(q) && BioOk(q, bio)
      modifies this
      ensures Valid(q)
      ensures ok == (old(sectors) + bio.sectors <= old(MaxSectors(q)) && NrFits(q, old(nr) + Prepared(q, bio).segments))
      ensures ok ==> Vecs(bios) == bio.vecs + old(Vecs(bios)) && nr == old(nr) + Prepared(q, bio).segments
      ensures ok ==> sector == bio.sector
      ensures !ok ==> Vecs(bios) == old(Vecs(bios)) && nr == old(nr) && !mergeable
    {
      hide Coverable, Recounted, Covered, HasData, Vecs, BioOk;
      HasFirst(q, bios, nr);
      if sectors + bio.sectors > MaxSectors(q) {
        mergeable := false;
        return false;
      }
      var b := bio;
      if !b.segValid { b := Recount(q, bio); }
      PreparedOk(q, bio);
      if !bios[0].segValid {
        var first := Recount(q, bios[0]);
        RecountedOk(q, bios[0]);
        SetBio(q, bios, 0, first, nr);
        bios := bios[0 := first];
      }
      ghost var n := nr;
      ok := NewHwSegment(q, b.segments);
      if ok {
        OneBio(q, b);
        BiosAppend(q, [b], b.segments, bios, n);
        bios, sectors, sector := [b] + bios, sectors + b.sectors, bio.sector;
      }
    }

    method RecordFront(size: nat)
      requires bios != [] && nr >= 0
      modifies this`bios
      ensures bios == JoinedFront(old(bios), nr, size)
    {
      if nr == 1 { bios := bios[0 := bios[0].(front := size)]; }
    }

    method RecordBack(size: nat)
      requires bios != [] && nr >= 0
      modifies this`bios
      ensures bios == JoinedBack(old(bios), nr, size)
    {
      if nr == 1 { bios := bios[|bios| - 1 := Last(bios).(back := size)]; }
    }

    /** ll_merge_requests_fn */
    method MergeCounts(q: Limits, next: Request) returns (ok: bool)
      requires next != this && Valid(q) && next.Valid(q)
      modifies this`nr, this`bios, next`bios
      ensures next.Valid(q) && nr >= 0
      ensures Vecs(bios) == old(Vecs(bios)) && Vecs(next.bios) == old(Vecs(next.bios))
      ensures var total := old(nr) + next.nr - (if old(Contig(q, Last(bios), next.bios[0])) then 1 else 0);
        && ok == (!special && !next.special && sectors + next.sectors <= q.maxSectors && NrFits(q, total))
        && nr == if ok then total else old(nr)
      ensures !ok ==> Valid(q)
      ensures ok ==> HasData(bios + next.bios) && Covered(q, bios + next.bios, nr)
      ensures ok ==> Vecs(bios + next.bios) == old(Vecs(bios)) + old(Vecs(next.bios))
    {
      hide Coverable, Contig, Covered, HasData, JoinedFront, JoinedBack, Vecs;
      ghost var a, b, n, m := bios, next.bios, nr, next.nr;
      HasFirst(q, a, n);
      HasFirst(q, b, m);
      var size := Last(bios).back + next.bios[0].front;
      if special || next.special { return false; }
      if sectors + next.sectors > q.maxSectors { return false; }
      var total := nr + next.nr;
      BiosJoinUndone(q, a, n, b, m, size);
      if Contig(q, Last(bios), next.bios[0]) {
        BiosJoin(q, a, n, b, m);
        RecordFront(size);
        next.RecordBack(size);
        total := total - 1;
      } else {
        BiosAppend(q, a, n, b, m);
      }
      if total > q.maxPhys { return false; }
      if total > q.maxHw { return false; }
      nr := total;
      ok := true;
    }

    /** attempt_merge */
    method AttemptMerge(q: Limits, next: Request) returns (ok: bool)
      requires next != this && Valid(q) && next.Valid(q)
      modifies this`nr, this`bios, this`sectors, next`bios
      ensures Valid(q) && (!ok ==> next.Valid(q))
      ensures var count := old(nr) + next.nr - (if old(Contig(q, Last(bios), next.bios[0])) then 1 else 0);
        ok <==> mergeable && next.mergeable && sector + old(sectors) == next.sector && write == next.write
                && disk == next.disk && integrity == next.integrity && !special && !next.special
                && old(sectors) + next.sectors <= q.maxSectors && count <= q.maxPhys && count <= q.maxHw
      ensures ok ==> Vecs(bios) == old(Vecs(bios)) + old(Vecs(next.bios)) && next.bios == []
      ensures sectors == if ok then old(sectors) + next.sectors else old(sectors)
      ensures nr == if ok then old(nr) + next.nr - (if old(Contig(q, Last(bios), next.bios[0])) then 1 else 0) else old(nr)
      ensures !ok ==> Vecs(bios) == old(Vecs(bios)) && Vecs(next.bios) == old(Vecs(next.bios))
    {
      hide Coverable, Covered, Contig;
      if !mergeable || !next.mergeable { return false; }
      if sector + sectors != next.sector { return false; }
      if write != next.write || disk != next.disk || next.special { return false; }
      if integrity != next.integrity { return false; }
      ok := MergeCounts(q, next);
      if ok {
        bios, sectors := bios + next.bios, sectors + next.sectors;
        next.bios := [];
      }
    }

    /** blk_rq_map_sg, for a request without padding and drain buffer: the entries are
        the smallest possible cover of the request and fit its segment count. */
    method MapSg(q: Limits) returns (sg: seq<Sg>)
      requires Valid(q)
      ensures |sg| <= nr
      ensures var gs := Mapped(q, Vecs(bios));
        Segmentation(q, gs, Vecs(bios)) && sg == Entries(gs)
    {
      hide Joinable, Size, Coverable, Bytes, Mapped, Mapping, Vecs, Entries, Segmentation;
      CountSuffices(q, bios, nr);
      MappedSegmentation(q, Vecs(bios));
      MappingNone(q);
      sg := [];
      var prev: Vec := Vec(0, 0, false);
      ghost var done: seq<Vec> := [];
      assert bios != [];
      VecsTake(bios, 0);
      for i := 0 to |bios|
        invariant done == Vecs(bios[..i]) && (done != [] ==> prev == Last(done))
        invariant Mapping(q, done, sg)
      {
        var vs := bios[i].vecs;
        VecsTake(bios, i);
        ghost var before := done;
        assert before + vs[..0] == before;
        for j := 0 to |vs|
          invariant done == before + vs[..j] && (done != [] ==> prev == Last(done))
          invariant Mapping(q, done, sg)
        {
          sg := MapVec(q, done, vs[j], prev, sg);
          prev := vs[j];
          assert before + vs[..j + 1] == (before + vs[..j]) + [vs[j]];
          done := done + [vs[j]];
        }
        assert vs[..|vs|] == vs;
      }
      assert bios[..|bios|] == bios;
      MappingIs(q, done, sg);
    }
  }

  predicate NrFits(q: Limits, n: int) { n <= q.maxHw && n <= q.maxPhys }

  lemma MappedNone(q: Limits)
    ensures Mapped(q, []) == []
  {}

  ghost predicate Mapping(q: Limits, done: seq<Vec>, sg: seq<Sg>) {
    (forall g :: g in Mapped(q, done) ==> g != []) && sg == Entries(Mapped(q, done))
  }

  lemma MappingNone(q: Limits)
    ensures Mapping(q, [], [])
  {
    MappedNone(q);
  }

  lemma MappingIs(q: Limits, done: seq<Vec>, sg: seq<Sg>)
    requires Mapping(q, done, sg)
    ensures (forall g :: g in Mapped(q, done) ==> g != []) && sg == Entries(Mapped(q, done))
  {}

  lemma EntriesOfStep(q: Limits, gs: seq<seq<Vec>>, v: Vec)
    requires forall g :: g in gs ==> g != []
    ensures forall g :: g in Step(q, gs, v, false) ==> g != []
    ensures var e := Entries(gs);
      && (e != [] ==> gs != [] && Last(gs) != [])
      && Entries(Step(q, gs, v, false)) ==
        if e != [] && q.cluster && Last(e).length + Size(v) <= q.maxSegment && Joinable(q, Last(Last(gs)), v)
        then Init(e) + [Last(e).(length := Last(e).length + Size(v))]
        else e + [Sg(v.addr, Size(v))]
  {
    hide Joinable, Size;
    BytesSnoc([], v);
    assert [] + [v] == [v];
    if gs != [] {
      assert Last(gs) in gs;
      BytesSnoc(Last(gs), v);
    }
  }

  method MapVec(q: Limits, ghost done: seq<Vec>, v: Vec, prev: Vec, sg: seq<Sg>) returns (sg': seq<Sg>)
    requires Mapping(q, done, sg) && (done != [] ==> prev == Last(done))
    ensures Mapping(q, done + [v], sg')
  {
    hide Joinable, Size, Bytes, Step, Entries, Segmentation;
    ghost var gs := Mapped(q, done);
    assert Init(done + [v]) == done && Last(done + [v]) == v;
    MappedSegmentation(q, done);
    EntriesOfStep(q, gs, v);
    MappedNone(q);
    if sg != [] && q.cluster && Last(sg).length + Size(v) <= q.maxSegment && Joinable(q, prev, v) {
      sg' := Init(sg) + [Last(sg).(length := Last(sg).length + Size(v))];
    } else {
      sg' := sg + [Sg(v.addr, Size(v))];
    }
  }

  // ----- requests without data -----

  lemma MappedSnoc(q: Limits, vs: seq<Vec>, v: Vec)
    ensures Mapped(q, vs + [v]) == Step(q, Mapped(q, vs), v, false)
  {
    hide Step, Joinable, Size, Bytes;
    assert Init(vs + [v]) == vs;
  }

  lemma StepNew(q: Limits, gs: seq<seq<Vec>>, v: Vec)
    requires gs != [] && Last(gs) != [] && !Joinable(q, Last(Last(gs)), v)
    ensures Step(q, gs, v, false) == gs + Step(q, [], v, false)
  {
    hide Joinable, Size, Bytes;
  }

  lemma {:induction false} MappedApart(q: Limits, vs: seq<Vec>, ws: seq<Vec>)
    requires vs != [] && ws != [] && !Joinable(q, Last(vs), ws[0])
    ensures Mapped(q, vs + ws) == Mapped(q, vs) + Mapped(q, ws)
    decreases |ws|
  {
    hide Joinable, Size, Bytes, Step, Mapped, Segmentation;
    var us, v := Init(ws), Last(ws);
    assert ws == us + [v] && vs + ws == (vs + us) + [v];
    MappedSegmentation(q, vs);
    MappedNone(q);
    MappedSnoc(q, vs + us, v);
    MappedSnoc(q, us, v);
    if us == [] {
      assert vs + us == vs;
      StepNew(q, Mapped(q, vs), v);
    } else {
      MappedApart(q, vs, us);
      MappedSegmentation(q, us);
      StepApart(q, Mapped(q, vs), Mapped(q, us), v);
    }
  }

  lemma StepApart(q: Limits, gs: seq<seq<Vec>>, hs: seq<seq<Vec>>, v: Vec)
    requires hs != []
    ensures Step(q, gs + hs, v, false) == gs + Step(q, hs, v, false)
  {
    hide Joinable, Size, Bytes;
    assert Last(gs + hs) == Last(hs) && Init(gs + hs) == gs + Init(hs);
  }

  /** blk_phys_contig_segment skips its two address tests when the last bio has no
      data, and the count is then reduced on the recorded sizes alone. For exact
      counts that is right if and only if the pieces on either side pass the tests. */
  lemma DatalessTailExact(q: Limits, a: seq<Bio>, n: nat, b: seq<Bio>, m: nat)
    requires Vecs(a) != [] && HasData(b) && Covered(q, a, n) && Covered(q, b, m)
    requires n == |Mapped(q, Vecs(a))| && m == |Mapped(q, Vecs(b))|
    requires Last(a).vecs == [] && Contig(q, Last(a), b[0])
    ensures Vecs(b) != []
    ensures |Mapped(q, Vecs(a) + Vecs(b))| <= n + m - 1 <==> Joinable(q, Last(Vecs(a)), Vecs(b)[0])
  {
    hide Joinable, Bytes, Vecs, Mapped;
    var vs, ws := Vecs(a), Vecs(b);
    LastVec(b);
    if Joinable(q, Last(vs), ws[0]) {
      var f, l := a[0].front, Last(b).back;
      CoverJoin(q, vs, n, f, Last(a).back, ws, m, b[0].front, l);
      var size := Last(a).back + b[0].front;
      var gs :| Covers(q, gs, vs + ws, n + m - 1, if n == 1 then size else f, if m == 1 then size else l);
      MappedIsSmallest(q, gs, vs + ws);
    } else {
      MappedApart(q, vs, ws);
    }
  }

  /** The failing case exists. Such bios are never merged: barriers are not, and a
      discard carries a page. */
  lemma DatalessTailUndercounts()
    ensures exists q: Limits, a: seq<Bio>, b: seq<Bio> ::
      a != [] && b != [] && Last(a).vecs == [] && b[0].vecs != [] && Contig(q, Last(a), b[0])
      && |Mapped(q, Vecs(a) + Vecs(b))| > |Mapped(q, Vecs(a))| + |Mapped(q, Vecs(b))| - 1
  {
    var q := Limits(true, 4096, 0xFFFF_FFFF_FFFF_FFFF, 128, 128, 1024, 1024);
    var v, w := Vec(0, 512, false), Vec(8192, 512, false);
    var x, tail, y := Bio([v], 0, 1, true, 1, 512, 512), Bio([], 1, 0, true, 0, 0, 0), Bio([w], 1, 1, true, 1, 512, 512);
    VecsOne(x);
    VecsOne(y);
    assert Init([x, tail]) == [x];
    assert Vecs([x, tail]) == [v] + [] == [v];
    assert !Joinable(q, v, w);
    MappedApart(q, [v], [w]);
    assert Contig(q, Last([x, tail]), [y][0]);
  }
}
