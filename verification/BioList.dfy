/** Partial completion of a list of bios (block/blk-core.c): which part of the data is
    left, which bios have ended, and why two completions make one. */
module BioList {
  /** A piece of a bio's memory: bv_offset and bv_len. */
  datatype Piece = Piece(offset: nat, len: nat)

  datatype FailFast = Dev | Transport | Driver

  /** struct bio; `pieces` are those from bi_idx on, `bad` is a cleared BIO_UPTODATE. */
  datatype Bio = Bio(id: nat, pieces: seq<Piece>, size: nat, sector: nat, bad: bool, ff: set<FailFast>)

  /** A call of bio_endio. */
  datatype End = End(id: nat, error: int)

  const EIO: int := -5

  function Length(ps: seq<Piece>): nat { if ps == [] then 0 else ps[0].len + Length(ps[1..]) }

  function Total(bios: seq<Bio>): nat { if bios == [] then 0 else bios[0].size + Total(bios[1..]) }

  ghost predicate BioOk(b: Bio) { b.size > 0 && b.size == Length(b.pieces) && forall i :: 0 <= i < |b.pieces| ==> b.pieces[i].len > 0 }

  ghost predicate BiosOk(bios: seq<Bio>) { forall i :: 0 <= i < |bios| ==> BioOk(bios[i]) }

  /** The pieces without their first n bytes. */
  function Skip(ps: seq<Piece>, n: nat): seq<Piece> {
    if ps == [] then []
    else if ps[0].len <= n then Skip(ps[1..], n - ps[0].len)
    else [Piece(ps[0].offset + n, ps[0].len - n)] + ps[1..]
  }

  /** A bio of which n bytes, but not all, have ended with the given error. */
  function Trim(b: Bio, n: nat, error: int): Bio
    requires n < b.size
  {
    if n == 0 then b
    else b.(pieces := Skip(b.pieces, n), size := b.size - n, sector := b.sector + n / 512, bad := b.bad || error != 0)
  }

  function EndOf(b: Bio, error: int): End { End(b.id, if error == 0 && b.bad then EIO else error) }

  /** The bios that are left after n more bytes have ended. */
  function Left(bios: seq<Bio>, n: nat, error: int): seq<Bio> {
    if bios == [] then []
    else if bios[0].size <= n then Left(bios[1..], n - bios[0].size, error)
    else [Trim(bios[0], n, error)] + bios[1..]
  }

  /** The ends that these n bytes bring about. */
  function Ends(bios: seq<Bio>, n: nat, error: int): seq<End> {
    if bios == [] || bios[0].size > n then [] else [EndOf(bios[0], error)] + Ends(bios[1..], n - bios[0].size, error)
  }

  // ----- pieces -----

  lemma {:induction false} SkipLength(ps: seq<Piece>, n: nat)
    requires n <= Length(ps)
    ensures Length(Skip(ps, n)) == Length(ps) - n
    decreases |ps|
  {
    if ps != [] {
      if ps[0].len <= n {
        SkipLength(ps[1..], n - ps[0].len);
      } else {
        assert Skip(ps, n)[1..] == ps[1..];
      }
    }
  }

  lemma {:induction false} SkipPositive(ps: seq<Piece>, n: nat)
    requires forall i :: 0 <= i < |ps| ==> ps[i].len > 0
    ensures forall i :: 0 <= i < |Skip(ps, n)| ==> Skip(ps, n)[i].len > 0
    decreases |ps|
  {
    if ps != [] && ps[0].len <= n { SkipPositive(ps[1..], n - ps[0].len); }
  }

  lemma {:induction false} SkipSkip(ps: seq<Piece>, m: nat, n: nat)
    ensures Skip(Skip(ps, m), n) == Skip(ps, m + n)
    decreases |ps|
  {
    if ps != [] {
      if ps[0].len <= m {
        SkipSkip(ps[1..], m - ps[0].len, n);
      } else {
        assert Skip(ps, m)[1..] == ps[1..];
        assert Skip(ps, m)[0] == Piece(ps[0].offset + m, ps[0].len - m);
      }
    }
  }

  /** The bytes of memory, one by one. */
  function Memory(ps: seq<Piece>): seq<nat> {
    if ps == [] then [] else seq(ps[0].len, k requires 0 <= k < ps[0].len => ps[0].offset + k) + Memory(ps[1..])
  }

  /** What is left is the same memory without its first n bytes. */
  lemma {:induction false} SkipMemory(ps: seq<Piece>, n: nat)
    requires n <= Length(ps)
    ensures |Memory(ps)| == Length(ps) && Memory(Skip(ps, n)) == Memory(ps)[n..]
    decreases |ps|
  {
    if ps != [] {
      if ps[0].len <= n {
        SkipMemory(ps[1..], n - ps[0].len);
      } else {
        SkipMemory(ps[1..], 0);
        assert Skip(ps, n)[1..] == ps[1..];
      }
    }
  }

  lemma TrimOk(b: Bio, n: nat, error: int)
    requires BioOk(b) && n < b.size
    ensures BioOk(Trim(b, n, error))
  {
    SkipLength(b.pieces, n);
    SkipPositive(b.pieces, n);
  }

  // ----- conservation and composition -----

  lemma {:induction false} LeftOk(bios: seq<Bio>, n: nat, error: int)
    requires BiosOk(bios) && n <= Total(bios)
    ensures BiosOk(Left(bios, n, error)) && Total(Left(bios, n, error)) == Total(bios) - n
    decreases |bios|
  {
    if bios != [] {
      if bios[0].size <= n {
        LeftOk(bios[1..], n - bios[0].size, error);
      } else {
        TrimOk(bios[0], n, error);
        assert Left(bios, n, error)[1..] == bios[1..];
      }
    }
  }

  /** The same data, in the same bios; sectors aside. */
  predicate SameData(a: seq<Bio>, b: seq<Bio>) {
    |a| == |b| && forall i :: 0 <= i < |a| ==> a[i] == b[i].(sector := a[i].sector)
  }

  lemma TrimTrim(b: Bio, m: nat, n: nat, error: int)
    requires m < b.size
    ensures Trim(b, m, error).size == b.size - m && EndOf(Trim(b, m, error), error) == EndOf(b, error)
    ensures m + n < b.size ==>
      Trim(Trim(b, m, error), n, error) == Trim(b, m + n, error).(sector := Trim(Trim(b, m, error), n, error).sector)
  {
    SkipSkip(b.pieces, m, n);
  }

  /** Completing m and then n bytes with the same error leaves the same bios and
      pieces, and ends the same bios with the same results, as completing m + n. */
  lemma {:induction false} LeftLeft(bios: seq<Bio>, m: nat, n: nat, error: int)
    requires BiosOk(bios)
    ensures SameData(Left(Left(bios, m, error), n, error), Left(bios, m + n, error))
    ensures Ends(bios, m, error) + Ends(Left(bios, m, error), n, error) == Ends(bios, m + n, error)
    decreases |bios|
  {
    hide Trim, EndOf, BioOk, Length;
    if bios != [] {
      var b := bios[0];
      if b.size <= m {
        LeftLeft(bios[1..], m - b.size, n, error);
      } else {
        TrimTrim(b, m, n, error);
        OneLess(Trim(b, m, error), bios[1..], n, error);
      }
    }
  }

  lemma OneLess(b: Bio, rest: seq<Bio>, n: nat, error: int)
    ensures Left([b] + rest, n, error) == if b.size <= n then Left(rest, n - b.size, error) else [Trim(b, n, error)] + rest
    ensures Ends([b] + rest, n, error) == if b.size <= n then [EndOf(b, error)] + Ends(rest, n - b.size, error) else []
  {
    assert ([b] + rest)[1..] == rest;
  }

  /** Looked at from the bio in which the first m bytes stop: n more bytes end it, or
      the parts of a sector in m and n do not add up to a sector more. */
  predicate StepsAddUp(bios: seq<Bio>, m: nat, n: nat) {
    if bios == [] then true
    else if bios[0].size <= m then StepsAddUp(bios[1..], m - bios[0].size, n)
    else bios[0].size <= m + n || m % 512 + n % 512 < 512
  }

  lemma SectorSteps(m: nat, n: nat)
    ensures (m + n) / 512 == m / 512 + n / 512 <==> m % 512 + n % 512 < 512
  {}

  lemma TrimSectors(b: Bio, m: nat, n: nat, error: int)
    requires m + n < b.size
    ensures Trim(Trim(b, m, error), n, error) == Trim(b, m + n, error) <==> m % 512 + n % 512 < 512
  {
    TrimTrim(b, m, n, error);
    SectorSteps(m, n);
    hide Skip;
  }

  /** Sectors agree too exactly when the two counts add up in sectors. */
  lemma {:induction false} LeftLeftSectors(bios: seq<Bio>, m: nat, n: nat, error: int)
    requires BiosOk(bios)
    ensures Left(Left(bios, m, error), n, error) == Left(bios, m + n, error) <==> StepsAddUp(bios, m, n)
    decreases |bios|
  {
    hide Trim, EndOf, BioOk, Length;
    if bios != [] {
      var b := bios[0];
      if b.size <= m {
        LeftLeftSectors(bios[1..], m - b.size, n, error);
      } else {
        TrimTrim(b, m, n, error);
        OneLess(Trim(b, m, error), bios[1..], n, error);
        if m + n < b.size {
          TrimSectors(b, m, n, error);
          SameHead(Trim(Trim(b, m, error), n, error), Trim(b, m + n, error), bios[1..]);
        }
      }
    }
  }

  lemma SameHead(a: Bio, b: Bio, rest: seq<Bio>)
    ensures [a] + rest == [b] + rest <==> a == b
  {
    assert ([a] + rest)[0] == a && ([b] + rest)[0] == b;
  }

  /** Whole sectors always add up: this covers what drivers report. */
  lemma {:induction false} WholeSectorsAddUp(bios: seq<Bio>, m: nat, n: nat)
    requires m % 512 == 0 && n % 512 == 0 && forall i :: 0 <= i < |bios| ==> bios[i].size % 512 == 0
    ensures StepsAddUp(bios, m, n)
    decreases |bios|
  {
    if bios != [] && bios[0].size <= m {
      WholeSectorsAddUp(bios[1..], m - bios[0].size, n);
    }
  }

  /** Every bio is ended exactly once and in order: those that ended and those that are
      left are together the bios there were. */
  lemma {:induction false} EndedInOrder(bios: seq<Bio>, n: nat, error: int)
    ensures |Ends(bios, n, error)| + |Left(bios, n, error)| == |bios|
    ensures forall i :: 0 <= i < |Ends(bios, n, error)| ==> Ends(bios, n, error)[i] == EndOf(bios[i], error)
    ensures forall i :: 0 <= i < |Left(bios, n, error)| ==> Left(bios, n, error)[i].id == bios[|Ends(bios, n, error)| + i].id
    ensures n >= Total(bios) ==> Left(bios, n, error) == []
    decreases |bios|
  {
    if bios != [] && bios[0].size <= n {
      EndedInOrder(bios[1..], n - bios[0].size, error);
    }
  }

  /** The other case: two halves of a sector move the bio on by no sector, the whole
      sector by one. */
  lemma HalfSectorsDiffer()
    ensures exists b: Bio :: BioOk(b) && Left(Left([b], 256, 0), 256, 0) != Left([b], 512, 0)
  {
    var b := Bio(1, [Piece(0, 1024)], 1024, 8, false, {});
    assert b.pieces[1..] == [];
    assert Length(b.pieces) == 1024;
    LeftLeftSectors([b], 256, 256, 0);
  }
}
