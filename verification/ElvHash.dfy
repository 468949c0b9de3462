/** How the elevator finds the request that a bio can be added to: the hash of the
    requests by the sector at which they end, the last merged request, and the count of
    what the scheduler holds (block/elevator.c). */
module ElvHash {
  import opened IdList
  import opened Optional

  const ELV_HASH_ENTRIES: nat := 64

  /** A request the scheduler holds; `mergeable` is rq_mergeable. */
  datatype Rq = Rq(pos: nat, sectors: nat, mergeable: bool)

  /** A bio; `allowed` are the requests that pass the other tests of elv_rq_merge_ok. */
  datatype Bio = Bio(sector: nat, sectors: nat, allowed: set<nat>)

  datatype Merge = NoMerge | Back(rq: nat) | Front(rq: nat)

  /** rq_hash_key */
  function Key(rq: Rq): nat { rq.pos + rq.sectors }

  /** ELV_HASH_FN for a given hash_long */
  function Bucket(hash: nat -> nat, sector: nat): nat { hash(sector / 8) }

  ghost predicate HashFunction(hash: nat -> nat) { forall k: nat :: hash(k) < ELV_HASH_ENTRIES }

  predicate MergeOk(rqs: map<nat, Rq>, id: nat, bio: Bio) { id in rqs && rqs[id].mergeable && id in bio.allowed }

  /** What a linear scan over everything the scheduler holds would look for. */
  predicate EndsAt(rqs: map<nat, Rq>, id: nat, sector: nat) { id in rqs && rqs[id].mergeable && Key(rqs[id]) == sector }

  /** Some request ends where the bio starts, and all of these pass the other tests. */
  ghost predicate BackPossible(rqs: map<nat, Rq>, bio: Bio) {
    && (exists id: nat :: EndsAt(rqs, id, bio.sector))
    && (forall id: nat :: EndsAt(rqs, id, bio.sector) ==> id in bio.allowed)
  }

  predicate StartsAt(rqs: map<nat, Rq>, id: nat, sector: nat) { id in rqs && rqs[id].mergeable && rqs[id].pos == sector }

  lemma BucketBound(hash: nat -> nat, sector: nat)
    requires HashFunction(hash)
    ensures Bucket(hash, sector) < ELV_HASH_ENTRIES
  {}

  // ----- the chains -----

  /** Every hashed request is on the chain it is linked to, once, and on no other. */
  ghost predicate Linked(chains: seq<seq<nat>>, chainOf: map<nat, nat>) {
    && (forall id: nat :: id in chainOf ==> chainOf[id] < |chains| && id in chains[chainOf[id]])
    && (forall b: nat, id: nat :: b < |chains| && id in chains[b] ==> id in chainOf && chainOf[id] == b)
    && (forall b: nat :: b < |chains| ==> Distinct(chains[b]))
  }

  lemma LinkAdded(chains: seq<seq<nat>>, chainOf: map<nat, nat>, id: nat, b: nat)
    requires Linked(chains, chainOf) && id !in chainOf && b < |chains|
    ensures Linked(chains[b := [id] + chains[b]], chainOf[id := b])
  {
    var c := [id] + chains[b];
    assert id !in chains[b];
    assert forall i :: 0 < i < |c| ==> c[i] in chains[b];
    assert Distinct(c);
  }

  lemma LinkDeleted(chains: seq<seq<nat>>, chainOf: map<nat, nat>, id: nat)
    requires Linked(chains, chainOf) && id in chainOf
    ensures chainOf[id] < |chains| && Linked(chains[chainOf[id] := Without(chains[chainOf[id]], id)], chainOf - {id})
  {
    hide Without, Distinct;
    WithoutDistinct(chains[chainOf[id]], id);
  }

  /** A hashed request is held and is on the chain of the sector at which it ends. */
  ghost predicate Placed(hash: nat -> nat, chainOf: map<nat, nat>, rqs: map<nat, Rq>) {
    forall id: nat :: id in chainOf ==> id in rqs && chainOf[id] == Bucket(hash, Key(rqs[id]))
  }

  /** Whatever is mergeable is hashed. */
  ghost predicate Complete(chainOf: map<nat, nat>, rqs: map<nat, Rq>) {
    forall id: nat :: id in rqs && rqs[id].mergeable ==> id in chainOf
  }

  ghost predicate Indexed(hash: nat -> nat, chainOf: map<nat, nat>, rqs: map<nat, Rq>) {
    Placed(hash, chainOf, rqs) && Complete(chainOf, rqs)
  }

  lemma IndexedWithout(hash: nat -> nat, chainOf: map<nat, nat>, rqs: map<nat, Rq>, id: nat)
    requires Indexed(hash, chainOf, rqs) && id in rqs
    ensures Indexed(hash, chainOf - {id}, rqs - {id}) && |rqs - {id}| == |rqs| - 1
  {
    assert (rqs - {id}).Keys == rqs.Keys - {id};
  }

  lemma PutSize(rqs: map<nat, Rq>, id: nat, rq: Rq)
    ensures |rqs[id := rq]| == if id in rqs then |rqs| else |rqs| + 1
  {
    assert rqs[id := rq].Keys == rqs.Keys + {id};
    if id in rqs { assert rqs.Keys + {id} == rqs.Keys; }
  }

  /** A request is put, or put again, where its end belongs. */
  lemma IndexedMoved(hash: nat -> nat, chainOf: map<nat, nat>, rqs: map<nat, Rq>, id: nat, rq: Rq)
    requires Indexed(hash, chainOf, rqs)
    ensures Indexed(hash, chainOf[id := Bucket(hash, Key(rq))], rqs[id := rq])
    ensures |rqs[id := rq]| == if id in rqs then |rqs| else |rqs| + 1
  {
    hide Bucket, Key;
    PutSize(rqs, id, rq);
  }

  /** A request that ends where it did, and is mergeable only if it was, stays. */
  lemma IndexedKept(hash: nat -> nat, chainOf: map<nat, nat>, rqs: map<nat, Rq>, id: nat, rq: Rq)
    requires Indexed(hash, chainOf, rqs)
    requires if id in rqs then Key(rq) == Key(rqs[id]) && (rq.mergeable ==> rqs[id].mergeable) else !rq.mergeable
    ensures Indexed(hash, chainOf, rqs[id := rq]) && |rqs[id := rq]| == if id in rqs then |rqs| else |rqs| + 1
  {
    hide Bucket, Key;
    PutSize(rqs, id, rq);
  }

  lemma IndexedDropped(hash: nat -> nat, chainOf: map<nat, nat>, rqs: map<nat, Rq>, id: nat)
    requires Indexed(hash, chainOf, rqs) && id in rqs && !rqs[id].mergeable
    ensures Indexed(hash, chainOf - {id}, rqs)
  {}

  /** The merge state of struct request_queue and struct elevator_queue. */
  class Elevator {
    const hash: nat -> nat
    var chains: array<seq<nat>>        // elevator_queue.hash
    var chainOf: map<nat, nat>         // the chain of each request that is on the hash
    var rqs: map<nat, Rq>              // what the scheduler holds
    var lastMerge: Option<nat>
    var nrSorted: int
    const noMerges: bool               // QUEUE_FLAG_NOMERGES

    /** The links agree with each other, whatever the requests are. */
    ghost predicate Chained()
      reads this, chains
    {
      HashFunction(hash) && chains.Length == ELV_HASH_ENTRIES && Linked(chains[..], chainOf)
    }

    /** The last merged request, if any, is held and mergeable, and nr_sorted counts. */
    ghost predicate Counted()
      reads this
    {
      nrSorted == |rqs| && (lastMerge.Some? ==> lastMerge.value in rqs && rqs[lastMerge.value].mergeable)
    }

    ghost predicate Valid()
      reads this, chains
    {
      Chained() && Indexed(hash, chainOf, rqs) && Counted()
    }

    constructor (hash: nat -> nat, noMerges: bool)
      requires HashFunction(hash)
      ensures Valid() && rqs == map[] && lastMerge == None && fresh(chains) && this.hash == hash && this.noMerges == noMerges
    {
      this.hash, this.noMerges := hash, noMerges;
      chains := new seq<nat>[ELV_HASH_ENTRIES](i => []);
      chainOf, rqs, lastMerge, nrSorted := map[], map[], None, 0;
    }

    /** __elv_rqhash_del */
    method Delete(id: nat)
      requires Chained()
      modifies this`chainOf, chains
      ensures Chained() && chainOf == old(chainOf) - {id}
      ensures id in old(chainOf) ==> old(chainOf)[id] < chains.Length
      ensures id in old(chainOf) ==> chains[..] == old(chains[..])[old(chainOf)[id] := Without(old(chains[..])[old(chainOf)[id]], id)]
    {
      hide Linked, Without;
      if id in chainOf {
        LinkDeleted(chains[..], chainOf, id);
        var b := chainOf[id];
        chains[b] := Without(chains[b], id);
        assert chains[..] == old(chains[..])[b := Without(old(chains[..])[b], id)];
      } else {
        assert chainOf - {id} == chainOf;
      }
      chainOf := chainOf - {id};
    }

    /** elv_rqhash_add: a request that is hashed already is a BUG. */
    method Add(id: nat)
      requires Chained() && id in rqs && id !in chainOf
      modifies this`chainOf, chains
      ensures Chained() && chainOf == old(chainOf)[id := Bucket(hash, Key(rqs[id]))]
    {
      hide Linked;
      var b := Bucket(hash, Key(rqs[id]));
      LinkAdded(chains[..], chainOf, id, b);
      chains[b] := [id] + chains[b];
      chainOf := chainOf[id := b];
      assert chains[..] == old(chains[..])[b := [id] + old(chains[..])[b]];
    }

    /** elv_rqhash_reposition */
    method Reposition(id: nat)
      requires Chained() && id in rqs
      modifies this`chainOf, chains
      ensures Chained() && chainOf == old(chainOf)[id := Bucket(hash, Key(rqs[id]))]
    {
      hide Linked, HashFunction, Bucket, Without;
      Delete(id);
      Add(id);
      assert chainOf == old(chainOf)[id := Bucket(hash, Key(rqs[id]))];
    }

    /** elv_rqhash_find: a mergeable request that ends at the offset, if and only if the
        scheduler holds one; requests that can no longer be merged are dropped on the way. */
    method Find(offset: nat) returns (found: Option<nat>)
      requires Valid()
      modifies this`chainOf, chains
      ensures Valid()
      ensures found.Some? ==> EndsAt(rqs, found.value, offset)
      ensures found == None ==> forall id: nat :: !EndsAt(rqs, id, offset)
    {
      hide Distinct, Linked, Indexed, Without, Bucket, HashFunction;
      BucketBound(hash, offset);
      var b, i: nat := Bucket(hash, offset), 0;
      while i < |chains[b]|
        invariant Valid() && i <= |chains[b]|
        invariant forall j: nat :: j < i ==> !EndsAt(rqs, chains[b][j], offset)
        decreases |chains[b]| - i
      {
        var id := chains[b][i];
        OnChain(b, i);
        if !rqs[id].mergeable {
          ghost var was := chains[b];
          IndexedDropped(hash, chainOf, rqs, id);
          Delete(id);
          WithoutAt(was, i);
        } else if Key(rqs[id]) == offset {
          return Some(id);
        } else {
          i := i + 1;
        }
      }
      OnItsChain(offset);
      found := None;
    }

    lemma OnChain(b: nat, i: nat)
      requires Valid() && b < chains.Length && i < |chains[b]|
      ensures chains[b][i] in rqs && chains[b][i] in chainOf && chainOf[chains[b][i]] == b && Distinct(chains[b])
    {
      assert chains[..][b][i] in chains[..][b];
      assert Distinct(chains[..][b]);
    }

    lemma OnItsChain(offset: nat)
      requires Valid()
      ensures Bucket(hash, offset) < chains.Length
      ensures forall id: nat :: EndsAt(rqs, id, offset) ==> id in chains[Bucket(hash, offset)]
    {
      var b := Bucket(hash, offset);
      forall id: nat | EndsAt(rqs, id, offset) ensures id in chains[b] {
        assert id in chains[..][b];
      }
    }

    lemma NotHashed(id: nat)
      requires Valid() && id !in rqs
      ensures id !in chainOf
    {}

    /** elv_insert with ELEVATOR_INSERT_SORT, up to the call of the scheduler */
    method InsertSort(id: nat, rq: Rq)
      requires Valid() && id !in rqs
      modifies this`rqs, this`nrSorted, this`chainOf, this`lastMerge, chains
      ensures Valid() && rqs == old(rqs)[id := rq]
      ensures lastMerge == if rq.mergeable && old(lastMerge) == None then Some(id) else old(lastMerge)
    {
      hide Linked, Indexed, Bucket, HashFunction;
      if rq.mergeable { IndexedMoved(hash, chainOf, rqs, id, rq); } else { IndexedKept(hash, chainOf, rqs, id, rq); }
      NotHashed(id);
      rqs, nrSorted := rqs[id := rq], nrSorted + 1;
      if rq.mergeable {
        Add(id);
        if lastMerge == None { lastMerge := Some(id); }
      }
    }

    /** elv_dispatch_sort and elv_dispatch_add_tail, as far as merging goes */
    method Dispatch(id: nat)
      requires Valid() && id in rqs
      modifies this`rqs, this`nrSorted, this`chainOf, this`lastMerge, chains
      ensures Valid() && rqs == old(rqs) - {id}
      ensures lastMerge == if old(lastMerge) == Some(id) then None else old(lastMerge)
    {
      hide Linked, Indexed, HashFunction, Without;
      IndexedWithout(hash, chainOf, rqs, id);
      if lastMerge == Some(id) { lastMerge := None; }
      Delete(id);
      rqs, nrSorted := rqs - {id}, nrSorted - 1;
    }

    /** elv_try_merge */
    method TryMerge(id: nat, bio: Bio) returns (r: Merge)
      requires id in rqs
      ensures r == if MergeOk(rqs, id, bio) && Key(rqs[id]) == bio.sector then Back(id)
                   else if MergeOk(rqs, id, bio) && rqs[id].pos == bio.sector + bio.sectors then Front(id)
                   else NoMerge
    {
      r := NoMerge;
      if rqs[id].mergeable && id in bio.allowed {
        if Key(rqs[id]) == bio.sector {
          r := Back(id);
        } else if rqs[id].pos == bio.sector + bio.sectors {
          r := Front(id);
        }
      }
    }

    /** elv_merge: what it returns is held, may be merged with the bio and touches it as
        claimed; and it finds something to add the bio to behind whenever the scheduler
        holds a request that ends there and all of those pass the other tests. `front` is
        what the scheduler's own search for a front merge returns. */
    method ElvMerge(bio: Bio, front: Option<nat>) returns (r: Merge)
      requires Valid()
      requires front.Some? ==> MergeOk(rqs, front.value, bio) && StartsAt(rqs, front.value, bio.sector + bio.sectors)
      modifies this`chainOf, chains
      ensures Valid()
      ensures r.Back? ==> MergeOk(rqs, r.rq, bio) && EndsAt(rqs, r.rq, bio.sector)
      ensures r.Front? ==> MergeOk(rqs, r.rq, bio) && StartsAt(rqs, r.rq, bio.sector + bio.sectors)
      ensures !noMerges && BackPossible(rqs, bio) ==> r != NoMerge && (r.Front? ==> lastMerge == Some(r.rq))
      ensures !noMerges && front.Some? ==> r != NoMerge
      ensures noMerges && r != NoMerge ==> lastMerge == Some(r.rq)
    {
      if lastMerge.Some? {
        r := TryMerge(lastMerge.value, bio);
        if r != NoMerge { return; }
      }
      if noMerges { return NoMerge; }
      var found := Find(bio.sector);
      if found.Some? && found.value in bio.allowed { return Back(found.value); }
      r := if front.Some? then Front(front.value) else NoMerge;
    }

    /** REQ_NOMERGE is set when a request has no room for a bio (ll_back_merge_fn,
        ll_front_merge_fn, ll_new_hw_segment). */
    method ForbidMerge(id: nat)
      requires Valid() && id in rqs
      modifies this`rqs, this`lastMerge
      ensures Valid() && rqs == old(rqs)[id := old(rqs)[id].(mergeable := false)]
      ensures lastMerge == if old(lastMerge) == Some(id) then None else old(lastMerge)
    {
      hide Linked, Indexed, HashFunction;
      IndexedKept(hash, chainOf, rqs, id, rqs[id].(mergeable := false));
      rqs := rqs[id := rqs[id].(mergeable := false)];
      if lastMerge == Some(id) { lastMerge := None; }
    }

    /** The back merge of a bio: the request grows, then elv_merged_request puts it where
        its new end belongs. */
    method BackMerge(id: nat, bio: Bio)
      requires Valid() && EndsAt(rqs, id, bio.sector)
      modifies this`rqs, this`chainOf, this`lastMerge, chains
      ensures Valid() && rqs == old(rqs)[id := old(rqs)[id].(sectors := old(rqs)[id].sectors + bio.sectors)]
      ensures lastMerge == Some(id) && EndsAt(rqs, id, bio.sector + bio.sectors)
    {
      hide Linked, Indexed, HashFunction, Bucket;
      IndexedMoved(hash, chainOf, rqs, id, rqs[id].(sectors := rqs[id].sectors + bio.sectors));
      rqs := rqs[id := rqs[id].(sectors := rqs[id].sectors + bio.sectors)];
      Reposition(id);
      lastMerge := Some(id);
    }

    /** The front merge of a bio: the request still ends where it did, so it stays on its
        chain. */
    method FrontMerge(id: nat, bio: Bio)
      requires Valid() && StartsAt(rqs, id, bio.sector + bio.sectors)
      modifies this`rqs, this`lastMerge
      ensures Valid() && lastMerge == Some(id)
      ensures rqs == old(rqs)[id := old(rqs)[id].(pos := bio.sector, sectors := old(rqs)[id].sectors + bio.sectors)]
      ensures Key(rqs[id]) == Key(old(rqs)[id])
    {
      hide Linked, Indexed, HashFunction;
      IndexedKept(hash, chainOf, rqs, id, rqs[id].(pos := bio.sector, sectors := rqs[id].sectors + bio.sectors));
      rqs := rqs[id := rqs[id].(pos := bio.sector, sectors := rqs[id].sectors + bio.sectors)];
      lastMerge := Some(id);
    }

    /** attempt_merge of two requests that touch, with elv_merge_requests; the sectors of
        `id` may already include a bio that was just added and is not hashed yet. */
    method MergeRequests(id: nat, next: nat, added: nat)
      requires Valid() && id != next && id in rqs && rqs[id].mergeable && next in rqs && rqs[next].mergeable
      requires Key(rqs[id]) + added == rqs[next].pos
      modifies this`rqs, this`nrSorted, this`chainOf, this`lastMerge, chains
      ensures Valid() && lastMerge == Some(id)
      ensures rqs == old(rqs)[id := old(rqs)[id].(sectors := old(rqs)[id].sectors + added + old(rqs)[next].sectors)] - {next}
      ensures Key(rqs[id]) == Key(old(rqs)[next])
    {
      hide Linked, Indexed, HashFunction, Bucket, Without;
      IndexedMoved(hash, chainOf, rqs, id, rqs[id].(sectors := rqs[id].sectors + added + rqs[next].sectors));
      rqs := rqs[id := rqs[id].(sectors := rqs[id].sectors + added + rqs[next].sectors)];
      Reposition(id);
      IndexedWithout(hash, chainOf, rqs, next);
      Delete(next);
      rqs, nrSorted := rqs - {next}, nrSorted - 1;
      lastMerge := Some(id);
    }
  }
}
