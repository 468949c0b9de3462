/** Completion and failure of requests in block/blk-core.c, and what merging does to
    failfast attributes. */
module BlkCore {
  import opened BioList

  /** The attribute bits of a request and its bios fit together: a mixed request
      shows those of its first bio, another one covers those of all its bios. */
  ghost predicate Attributes(mixed: bool, ff: set<FailFast>, bios: seq<Bio>) {
    if mixed then bios != [] ==> ff == bios[0].ff
    else forall i :: 0 <= i < |bios| ==> bios[i].ff <= ff
  }

  /** blk_rq_set_mixed_merge: every bio gets the request's attributes. */
  function Distributed(bios: seq<Bio>, ff: set<FailFast>): (r: seq<Bio>)
    ensures |r| == |bios| && forall i :: 0 <= i < |r| ==> r[i] == bios[i].(ff := bios[i].ff + ff)
  {
    if bios == [] then [] else [bios[0].(ff := bios[0].ff + ff)] + Distributed(bios[1..], ff)
  }

  /** The longest run of leading bios that are at least as eager to fail as ff says. */
  function Eager(bios: seq<Bio>, ff: set<FailFast>): nat {
    if bios == [] || !(ff <= bios[0].ff) then 0 else bios[0].size + Eager(bios[1..], ff)
  }

  /** n bytes are the first k bios. */
  ghost predicate AtBoundary(bios: seq<Bio>, n: nat, k: nat) { k <= |bios| && n == Total(bios[..k]) }

  /** The count blk_rq_err_bytes returns ends on a bio boundary, all bios before it may
      be failed, and the next one may not. */
  lemma {:induction false} EagerIsLongest(bios: seq<Bio>, ff: set<FailFast>) returns (k: nat)
    ensures AtBoundary(bios, Eager(bios, ff), k) && (k < |bios| ==> !(ff <= bios[k].ff))
    ensures forall i :: 0 <= i < k ==> ff <= bios[i].ff
    ensures bios != [] && ff <= bios[0].ff ==> k > 0
    decreases |bios|
  {
    if bios == [] || !(ff <= bios[0].ff) {
      k := 0;
    } else {
      k := EagerIsLongest(bios[1..], ff);
      k := k + 1;
      assert bios[..k][1..] == bios[1..][..k - 1];
    }
  }

  lemma {:induction false} EagerWithin(bios: seq<Bio>, ff: set<FailFast>)
    ensures Eager(bios, ff) <= Total(bios)
    decreases |bios|
  {
    if bios != [] { EagerWithin(bios[1..], ff); }
  }

  lemma {:induction false} TotalAppend(a: seq<Bio>, b: seq<Bio>)
    ensures Total(a + b) == Total(a) + Total(b)
    decreases |a|
  {
    if a == [] {
      assert a + b == b;
    } else {
      TotalAppend(a[1..], b);
      assert (a + b)[1..] == a[1..] + b;
    }
  }

  lemma {:induction false} DistributedTotal(bios: seq<Bio>, ff: set<FailFast>)
    ensures Total(Distributed(bios, ff)) == Total(bios)
    decreases |bios|
  {
    if bios != [] {
      DistributedTotal(bios[1..], ff);
      assert Distributed(bios, ff)[1..] == Distributed(bios[1..], ff);
    }
  }

  lemma DistributedOk(bios: seq<Bio>, ff: set<FailFast>)
    requires BiosOk(bios)
    ensures BiosOk(Distributed(bios, ff))
  {
    var r := Distributed(bios, ff);
    forall i | 0 <= i < |r| ensures BioOk(r[i]) {
      assert BioOk(bios[i]);
    }
  }

  lemma LeftAttributes(bios: seq<Bio>, n: nat, error: int, ff: set<FailFast>)
    requires forall i :: 0 <= i < |bios| ==> bios[i].ff <= ff
    ensures forall i :: 0 <= i < |Left(bios, n, error)| ==> Left(bios, n, error)[i].ff <= ff
    decreases |bios|
  {
    if bios != [] && bios[0].size <= n { LeftAttributes(bios[1..], n - bios[0].size, error, ff); }
  }

  lemma AttributesKept(mixed: bool, ff: set<FailFast>, bios: seq<Bio>, n: nat, error: int)
    requires Attributes(mixed, ff, bios)
    ensures Attributes(mixed, ff, []) && BiosOk([])
    ensures var left := Left(bios, n, error); left != [] ==> Attributes(mixed, if mixed then left[0].ff else ff, left)
  {
    if !mixed { LeftAttributes(bios, n, error, ff); }
  }

  // ----- what a partial completion does to a request -----

  datatype Snapshot = Snapshot(bios: seq<Bio>, dataLen: int, sector: nat, placed: bool, ff: set<FailFast>, mixed: bool,
                         ended: seq<End>)

  ghost predicate StateOk(s: Snapshot) { BiosOk(s.bios) && s.dataLen == Total(s.bios) && Attributes(s.mixed, s.ff, s.bios) }

  /** A request after n more bytes have ended; when nothing is left its start and its
      attributes stay what they were. */
  function Updated(s: Snapshot, n: nat, error: int): Snapshot {
    var left, ended := Left(s.bios, n, error), s.ended + Ends(s.bios, n, error);
    if left == [] then s.(bios := [], dataLen := 0, ended := ended)
    else
      s.(bios := left, dataLen := s.dataLen - n, sector := if s.placed then s.sector + n / 512 else s.sector,
         ff := if s.mixed then left[0].ff else s.ff, ended := ended)
  }

  lemma NoneLeft(bios: seq<Bio>, n: nat, error: int)
    requires BiosOk(bios)
    ensures Left(bios, n, error) == [] <==> Total(bios) <= n
  {
    EndedInOrder(bios, n, error);
    if n < Total(bios) { LeftOk(bios, n, error); }
  }

  /** The two counts add up: for every field that the second completion still reaches. */
  predicate AddsUp(s: Snapshot, m: nat, n: nat, error: int) {
    if Total(s.bios) <= m then true
    else if Total(s.bios) <= m + n then
      (!s.placed || m < 512) && (s.mixed && Left(s.bios, m, error) != [] ==> Left(s.bios, m, error)[0].ff == s.ff)
    else StepsAddUp(s.bios, m, n) && (!s.placed || m % 512 + n % 512 < 512)
  }

  /** Two completions make one exactly if the counts add up. */
  lemma UpdatedTwice(s: Snapshot, m: nat, n: nat, error: int)
    requires StateOk(s)
    ensures Updated(Updated(s, m, error), n, error) == Updated(s, m + n, error) <==> AddsUp(s, m, n, error)
  {
    hide Left, Ends, StepsAddUp, BiosOk, Total, Attributes;
    var a, b, c := Left(s.bios, m, error), Left(Left(s.bios, m, error), n, error), Left(s.bios, m + n, error);
    NoneLeft(s.bios, m, error);
    NoneLeft(s.bios, m + n, error);
    LeftLeft(s.bios, m, n, error);
    LeftLeftSectors(s.bios, m, n, error);
    SectorSteps(m, n);
    NothingMore(n, error);
    assert (s.ended + Ends(s.bios, m, error)) + Ends(a, n, error) == s.ended + (Ends(s.bios, m, error) + Ends(a, n, error));
    if c != [] { assert b[0] == c[0].(sector := b[0].sector); }
  }

  lemma NothingMore(n: nat, error: int)
    ensures Left([], n, error) == [] && Ends([], n, error) == []
  {}

  /** In particular for whole sectors, as long as data is left. */
  lemma WholeSectorsUpdate(s: Snapshot, m: nat, n: nat, error: int)
    requires StateOk(s) && m % 512 == 0 && n % 512 == 0 && m + n < Total(s.bios)
    requires forall i :: 0 <= i < |s.bios| ==> s.bios[i].size % 512 == 0
    ensures Updated(Updated(s, m, error), n, error) == Updated(s, m + n, error)
  {
    WholeSectorsAddUp(s.bios, m, n);
    UpdatedTwice(s, m, n, error);
  }

  /** The variables of blk_update_request after some pieces of the first bio are done:
      `idx` of its pieces with `done` bytes, and `rest` bytes still to be handed out. */
  ghost predicate Progress(was: seq<Bio>, n: nat, error: int, before: seq<End>, bios: seq<Bio>, ended: seq<End>, idx: nat,
                           done: nat, rest: nat) {
    && BiosOk(bios) && done + rest <= n
    && (bios != [] ==> idx <= |bios[0].pieces| && done == Length(bios[0].pieces[..idx]))
    && (idx > 0 ==> bios != [] && done + rest < bios[0].size)
    && (bios == [] ==> done == 0)
    && Left(was, n, error) == Left(bios, done + rest, error)
    && before + Ends(was, n, error) == ended + Ends(bios, done + rest, error)
    && Total(bios) + (n - rest) == Total(was) + done
  }

  lemma NoLength(ps: seq<Piece>)
    ensures Length(ps[..0]) == 0
  {}

  lemma EndsOfFirst(bios: seq<Bio>, n: nat, error: int)
    requires bios != [] && bios[0].size <= n
    ensures Left(bios, n, error) == Left(bios[1..], n - bios[0].size, error)
    ensures Ends(bios, n, error) == [EndOf(bios[0], error)] + Ends(bios[1..], n - bios[0].size, error)
    ensures Total(bios) == bios[0].size + Total(bios[1..])
  {}

  lemma RestOk(bios: seq<Bio>)
    requires bios != [] && BiosOk(bios)
    ensures BiosOk(bios[1..])
  {
    hide BioOk;
  }

  lemma FirstEnded(was: seq<Bio>, n: nat, error: int, before: seq<End>, bios: seq<Bio>, ended: seq<End>, rest: nat)
    requires bios != [] && Progress(was, n, error, before, bios, ended, 0, 0, rest) && bios[0].size <= rest
    ensures Progress(was, n, error, before, bios[1..], ended + [EndOf(bios[0], error)], 0, 0, rest - bios[0].size)
  {
    hide Left, Ends, Total, Length, EndOf, BioOk, BiosOk;
    EndsOfFirst(bios, rest, error);
    RestOk(bios);
    var e := EndOf(bios[0], error);
    assert (ended + [e]) + Ends(bios[1..], rest - bios[0].size, error) == ended + Ends(bios, rest, error);
    if bios[1..] != [] { NoLength(bios[1..][0].pieces); }
  }

  /** One piece of the first bio is done, and more bytes may follow. */
  lemma NextPiece(was: seq<Bio>, n: nat, error: int, before: seq<End>, bios: seq<Bio>, ended: seq<End>, idx: nat, done: nat,
                  rest: nat)
    requires bios != [] && Progress(was, n, error, before, bios, ended, idx, done, rest) && rest < bios[0].size
    requires done + rest < bios[0].size
    ensures idx < |bios[0].pieces|
    ensures var len := bios[0].pieces[idx].len;
      len <= rest ==> Progress(was, n, error, before, bios, ended, idx + 1, done + len, rest - len)
  {
    hide Left, Ends, Skip, Trim;
    var ps := bios[0].pieces;
    assert BioOk(bios[0]);
    assert ps[..|ps|] == ps;
    if idx < |ps| { LengthPrefix(ps, idx); }
  }

  lemma ProgressBegins(was: seq<Bio>, n: nat, error: int, before: seq<End>)
    requires was != [] && BiosOk(was)
    ensures Progress(was, n, error, before, was, before, 0, 0, n)
  {
    hide Left, Ends, Total, BioOk;
    NoLength(was[0].pieces);
  }

  /** A bio ends as a whole before any of its pieces was looked at. */
  lemma FirstWhole(was: seq<Bio>, n: nat, error: int, before: seq<End>, bios: seq<Bio>, ended: seq<End>, idx: nat, done: nat,
                   rest: nat)
    requires bios != [] && Progress(was, n, error, before, bios, ended, idx, done, rest) && rest >= bios[0].size
    ensures idx == 0 && done == 0
  {
    hide Left, Ends, Total, BioOk;
    NoLength(bios[0].pieces);
  }

  lemma FirstPartial(was: seq<Bio>, n: nat, error: int, before: seq<End>, bios: seq<Bio>, ended: seq<End>, idx: nat, done: nat,
                     rest: nat)
    requires bios != [] && Progress(was, n, error, before, bios, ended, idx, done, rest) && rest < bios[0].size
    ensures done + rest < bios[0].size
  {
    hide Left, Ends, Total, BioOk;
    NoLength(bios[0].pieces);
  }

  lemma NoTotal()
    ensures Total([]) == 0
  {}

  lemma ProgressFits(was: seq<Bio>, n: nat, error: int, before: seq<End>, bios: seq<Bio>, ended: seq<End>, idx: nat, done: nat,
                     rest: nat)
    requires Progress(was, n, error, before, bios, ended, idx, done, rest)
    ensures BiosOk(bios) && (bios != [] ==> idx <= |bios[0].pieces|)
  {
    hide Left, Ends, Total, Length, BiosOk;
  }

  /** What is read off when the loop has stopped. */
  lemma ProgressEnds(was: seq<Bio>, n: nat, error: int, before: seq<End>, bios: seq<Bio>, ended: seq<End>, idx: nat, done: nat,
                     rest: nat)
    requires Progress(was, n, error, before, bios, ended, idx, done, rest)
    ensures bios == [] ==> Left(was, n, error) == [] && ended == before + Ends(was, n, error)
    ensures bios != [] && done + rest < bios[0].size ==>
      Left(was, n, error) == Left(bios, done + rest, error) && ended == before + Ends(was, n, error)
    ensures bios != [] ==> idx <= |bios[0].pieces| && done == Length(bios[0].pieces[..idx]) && BiosOk(bios)
    ensures Total(bios) + (n - rest) == Total(was) + done && rest <= n
  {
    hide Total, Length, EndOf, BioOk, Trim;
  }

  /** struct request with the bios it carries. */
  class Request {
    var bios: seq<Bio>
    var dataLen: nat              // __data_len
    var sector: nat               // __sector
    var placed: bool              // the sector has a meaning (blk_fs_request)
    var ff: set<FailFast>         // cmd_flags & REQ_FAILFAST_MASK
    var mixed: bool               // REQ_MIXED_MERGE
    var ended: seq<End>           // what bio_endio has been called for

    /** __data_len is what is left in the bios. */
    ghost predicate Valid()
      reads this
    {
      BiosOk(bios) && dataLen == Total(bios) && Attributes(mixed, ff, bios)
    }

    ghost function State(): Snapshot
      reads this
    {
      Snapshot(bios, dataLen, sector, placed, ff, mixed, ended)
    }

    /** init_request_from_bio; read-ahead requests fail fast in every way. */
    constructor (bio: Bio, readAhead: bool)
      requires BioOk(bio)
      ensures Valid() && bios == [bio] && ended == [] && !mixed
      ensures ff == if readAhead then {Dev, Transport, Driver} else bio.ff
    {
      bios, dataLen, sector, placed, mixed, ended := [bio], bio.size, bio.sector, true, false, [];
      ff := if readAhead then {Dev, Transport, Driver} else bio.ff;
      assert [bio][1..] == [];
      forall f | f in bio.ff ensures f in {Dev, Transport, Driver} {
        match f
        case Dev =>
        case Transport =>
        case Driver =>
      }
    }

    /** The loop of blk_rq_set_mixed_merge. */
    method Distribute()
      modifies this`bios
      ensures bios == Distributed(old(bios), ff)
    {
      ghost var was := bios;
      var i := 0;
      while i < |bios|
        invariant i <= |bios| == |was|
        invariant forall j :: 0 <= j < |was| ==> bios[j] == if j < i then was[j].(ff := was[j].ff + ff) else was[j]
      {
        bios := bios[i := bios[i].(ff := bios[i].ff + ff)];
        i := i + 1;
      }
    }

    method SetMixedMerge()
      requires Valid()
      modifies this`bios, this`mixed
      ensures Valid() && mixed && bios == if old(mixed) then old(bios) else Distributed(old(bios), ff)
    {
      hide BioOk;
      if mixed { return; }
      DistributedOk(bios, ff);
      DistributedTotal(bios, ff);
      Distribute();
      mixed := true;
    }

    /** The back merge of __make_request. */
    method BackMerge(bio: Bio)
      requires Valid() && bios != [] && BioOk(bio)
      modifies this
      ensures Valid() && dataLen == old(dataLen) + bio.size && bios != [] && bios[|bios| - 1] == bio
    {
      if ff != bio.ff { SetMixedMerge(); }
      TotalAppend(bios, [bio]);
      assert [bio][1..] == [];
      bios, dataLen := bios + [bio], dataLen + bio.size;
    }

    /** The front merge of __make_request. */
    method FrontMerge(bio: Bio)
      requires Valid() && bios != [] && BioOk(bio)
      modifies this
      ensures Valid() && dataLen == old(dataLen) + bio.size && bios != [] && bios[0] == bio && sector == bio.sector
    {
      if ff != bio.ff {
        SetMixedMerge();
        ff := bio.ff;
      }
      assert ([bio] + bios)[1..] == bios;
      bios, dataLen, sector := [bio] + bios, dataLen + bio.size, bio.sector;
    }

    /** The attribute part and the list part of attempt_merge. */
    method Absorb(next: Request)
      requires next != this && Valid() && next.Valid() && bios != [] && next.bios != []
      modifies this, next
      ensures Valid() && dataLen == old(dataLen + next.dataLen) && next.bios == []
    {
      if mixed || next.mixed || ff != next.ff {
        SetMixedMerge();
        next.SetMixedMerge();
      }
      TotalAppend(bios, next.bios);
      bios, dataLen := bios + next.bios, dataLen + next.dataLen;
      next.bios := [];
    }

    /** blk_rq_err_bytes: positive as long as there is data, and the bytes may be failed. */
    method ErrBytes() returns (bytes: nat)
      requires Valid()
      ensures bytes == (if mixed then Eager(bios, ff) else dataLen) && bytes <= dataLen
      ensures bios != [] ==> bytes > 0
    {
      EagerWithin(bios, ff);
      bytes := 0;
      if !mixed {
        return dataLen;
      }
      var i := 0;
      while i < |bios|
        invariant i <= |bios| && bytes + Eager(bios[i..], ff) == Eager(bios, ff)
        invariant i > 0 ==> bytes > 0
      {
        if !(ff <= bios[i].ff) { break; }
        bytes := bytes + bios[i].size;
        i := i + 1;
        assert bios[i - 1..][1..] == bios[i..];
      }
      assert bios != [] ==> bytes > 0;
    }

    /** The first bio ends: req_bio_endio and bio_endio. */
    method EndFirst(ghost was: seq<Bio>, ghost n: nat, error: int, ghost before: seq<End>, rest: nat)
      requires bios != [] && Progress(was, n, error, before, bios, ended, 0, 0, rest) && bios[0].size <= rest
      modifies this`bios, this`ended
      ensures bios == old(bios)[1..] && Progress(was, n, error, before, bios, ended, 0, 0, rest - old(bios[0].size))
    {
      hide Progress;
      FirstEnded(was, n, error, before, bios, ended, rest);
      ended := ended + [EndOf(bios[0], error)];
      bios := bios[1..];
    }

    /** The first bio is advanced to the first piece that is not done. */
    method AdvanceFirst(error: int, idx: nat, done: nat, rest: nat)
      requires BiosOk(bios) && bios != [] && idx < |bios[0].pieces| && rest < bios[0].pieces[idx].len
      requires done == Length(bios[0].pieces[..idx]) + rest && done < bios[0].size
      modifies this`bios
      ensures bios == Left(old(bios), done, error)
    {
      hide Length, Skip, BioOk;
      if done == 0 {
        assert [bios[0]] + bios[1..] == bios;
      }
      if done > 0 {
        var b := bios[0];
        SkipPrefix(b.pieces, idx, rest);
        var p := b.pieces[idx];
        var pieces := [Piece(p.offset + rest, p.len - rest)] + b.pieces[idx + 1..];
        b := b.(size := b.size - done, sector := b.sector + done / 512, bad := b.bad || error != 0, pieces := pieces);
        bios := [b] + bios[1..];
      }
    }

    /** blk_update_request for a request other than the proxy of a barrier; false when
        nothing is left. */
    method UpdateRequest(error: int, nrBytes: nat) returns (more: bool)
      requires Valid()
      modifies this
      ensures Valid() && more == (bios != [])
      ensures bios == Left(old(bios), nrBytes, error) && ended == old(ended) + Ends(old(bios), nrBytes, error)
      ensures mixed == old(mixed) && placed == old(placed) && (more ==> dataLen == old(dataLen) - nrBytes)
      ensures sector == if more && placed then old(sector) + nrBytes / 512 else old(sector)
      ensures State() == Updated(old(State()), nrBytes, error)
    {
      hide Left, Ends, Length, Skip, BiosOk, Progress, Total, Attributes;
      if bios == [] {
        NothingLeft(nrBytes, error);
        NoTotal();
        assert ended + [] == ended;
        return false;
      }
      ghost var was, before := bios, ended;
      var done, idx, rest, total := 0, 0, nrBytes, 0;
      FirstOk(was);
      ProgressBegins(was, nrBytes, error, before);
      var stop := false;
      while bios != [] && !stop
        modifies this`bios, this`ended
        invariant 0 <= done && 0 <= rest && 0 <= idx && 0 <= total && total + rest == nrBytes
        invariant Progress(was, nrBytes, error, before, bios, ended, idx, done, rest)
        invariant stop ==> bios != [] && idx < |bios[0].pieces| && rest < bios[0].pieces[idx].len && done + rest < bios[0].size
        decreases |bios|, !stop, if bios != [] then |bios[0].pieces| - idx else 0
      {
        ProgressFits(was, nrBytes, error, before, bios, ended, idx, done, rest);
        if rest >= bios[0].size {
          FirstWhole(was, nrBytes, error, before, bios, ended, idx, done, rest);
          total, rest := total + bios[0].size, rest - bios[0].size;
          EndFirst(was, nrBytes, error, before, rest + bios[0].size);
          done, idx := 0, 0;
          if bios != [] && rest <= 0 {
            ProgressFits(was, nrBytes, error, before, bios, ended, 0, 0, rest);
            FirstOk(bios);
            stop := true;
          }
        } else {
          FirstPartial(was, nrBytes, error, before, bios, ended, idx, done, rest);
          NextPiece(was, nrBytes, error, before, bios, ended, idx, done, rest);
          var len := bios[0].pieces[idx].len;
          if len > rest {
            stop := true;
          } else {
            idx, done, total, rest := idx + 1, done + len, total + len, rest - len;
            if rest <= 0 {
              NextPiece(was, nrBytes, error, before, bios, ended, idx, done, rest);
              PieceOk(bios, idx);
              stop := true;
            }
          }
        }
      }
      ProgressEnds(was, nrBytes, error, before, bios, ended, idx, done, rest);
      AttributesKept(mixed, ff, was, nrBytes, error);
      if bios == [] {
        NoTotal();
        dataLen := 0;
        return false;
      }
      LeftOver(was, bios, nrBytes, error, done, rest);
      AdvanceFirst(error, idx, done + rest, rest);
      dataLen := dataLen - (total + rest);
      if placed { sector := sector + (total + rest) / 512; }
      if mixed {
        ff := bios[0].ff;
      }
      more := true;
    }

    /** blk_end_request_err: fails the bios up to the next failure boundary, all of which
        are as eager to fail as the first, and none of them in part. */
    method EndRequestErr(error: int) returns (more: bool)
      requires Valid() && error < 0
      modifies this
      ensures Valid() && more == (bios != [])
      ensures |bios| <= |old(bios)| && (old(bios) != [] ==> |bios| < |old(bios)|)
      ensures old(mixed) ==> forall i :: 0 <= i < |old(bios)| - |bios| ==> old(ff) <= old(bios)[i].ff
      ensures old(mixed) && more ==> !(old(ff) <= bios[0].ff)
      ensures bios == old(bios)[|old(bios)| - |bios|..]
    {
      ghost var was, f := bios, ff;
      var bytes := ErrBytes();
      ghost var k := |bios|;
      if mixed {
        k := EagerIsLongest(bios, ff);
      } else {
        assert bios[..k] == bios;
      }
      BoundaryLeft(bios, bytes, error, k);
      more := UpdateRequest(error, bytes);
    }

    /** Failing again and again comes to an end, with every bio ended once. */
    method FailAll(error: int)
      requires Valid() && error < 0
      modifies this
      ensures bios == []
    {
      while bios != []
        invariant Valid()
        decreases |bios|
      {
        var _ := EndRequestErr(error);
      }
    }

    lemma NothingLeft(n: nat, error: int)
      ensures Left([], n, error) == [] && Ends([], n, error) == []
    {}
  }

  /** Completion up to a bio boundary trims no bio. */
  lemma {:induction false} BoundaryLeft(bios: seq<Bio>, n: nat, error: int, k: nat)
    requires BiosOk(bios) && AtBoundary(bios, n, k)
    ensures Left(bios, n, error) == bios[k..] && |Ends(bios, n, error)| == k
    decreases |bios|
  {
    if k == 0 {
      assert bios[..0] == [];
      if bios != [] {
        assert BioOk(bios[0]);
        assert [bios[0]] + bios[1..] == bios;
      }
    } else {
      assert bios[..k][1..] == bios[1..][..k - 1];
      BoundaryLeft(bios[1..], n - bios[0].size, error, k - 1);
    }
  }

  /** What is known when the first of the remaining bios has not ended. */
  lemma LeftOver(was: seq<Bio>, bios: seq<Bio>, n: nat, error: int, done: nat, rest: nat)
    requires BiosOk(was) && bios != [] && done + rest < bios[0].size
    requires Total(bios) + (n - rest) == Total(was) + done && Left(was, n, error) == Left(bios, done + rest, error)
    ensures Ends(bios, done + rest, error) == [] && Left(was, n, error) != []
    ensures BiosOk(Left(was, n, error)) && Total(Left(was, n, error)) == Total(was) - n
  {
    LeftOk(was, n, error);
  }

  lemma FirstOk(bios: seq<Bio>)
    requires BiosOk(bios) && bios != []
    ensures bios[0].pieces != [] && bios[0].pieces[0].len > 0 && bios[0].size > 0
  {}

  lemma PieceOk(bios: seq<Bio>, i: nat)
    requires BiosOk(bios) && bios != [] && i < |bios[0].pieces|
    ensures bios[0].pieces[i].len > 0
  {}

  lemma {:induction false} LengthPrefix(ps: seq<Piece>, i: nat)
    requires i < |ps|
    ensures Length(ps[..i + 1]) == Length(ps[..i]) + ps[i].len
    ensures Length(ps[..i + 1]) <= Length(ps)
    decreases |ps|
  {
    assert ps[..i + 1][1..] == ps[1..][..i];
    if i == 0 {
      assert ps[..0] == [];
      assert ps[..1][1..] == [];
    } else {
      LengthPrefix(ps[1..], i - 1);
      assert ps[..i][1..] == ps[1..][..i - 1];
    }
  }

  lemma {:induction false} SkipPrefix(ps: seq<Piece>, i: nat, r: nat)
    requires i < |ps| && r < ps[i].len
    ensures Skip(ps, Length(ps[..i]) + r) == [Piece(ps[i].offset + r, ps[i].len - r)] + ps[i + 1..]
    decreases |ps|
  {
    if i == 0 {
      assert ps[..0] == [];
    } else {
      SkipPrefix(ps[1..], i - 1, r);
      assert ps[..i][1..] == ps[1..][..i - 1];
      assert ps[1..][i - 1 + 1..] == ps[i + 1..];
    }
  }
}
