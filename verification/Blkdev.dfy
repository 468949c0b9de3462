/** The request queue of the block layer: requests, the ordered-sequence phase
    bits, the ordering mode and the queue state that the elevator, the driver
    and the barrier code share (include/linux/blkdev.h). */
module Blkdev {
  // The three requests embedded in struct request_queue; every other request
  // has an identity of at least FIRST_ID.
  const PRE_FLUSH: nat := 0
  const BAR: nat := 1
  const POST_FLUSH: nat := 2
  const FIRST_ID: nat := 3

  /** struct request. `epoch` is bookkeeping that the source does not have: the
      number of barriers added to the queue before this request. */
  datatype Rq = Rq(
    id: nat,
    fs: bool,         // blk_fs_request
    hard: bool,       // REQ_HARDBARRIER
    soft: bool,       // REQ_SOFTBARRIER
    started: bool,    // REQ_STARTED
    color: bool,      // REQ_ORDERED_COLOR
    discard: bool,    // REQ_DISCARD
    elvpriv: bool,    // REQ_ELVPRIV
    write: bool,      // rq_data_dir
    sector: nat,      // blk_rq_pos
    nsect: nat,       // blk_rq_sectors
    epoch: nat)

  predicate Account(r: Rq) { r.started && (r.fs || r.discard) }

  predicate IsBarrier(r: Rq) { r.fs && r.hard }

  predicate IsProxy(r: Rq) { r.id < FIRST_ID }

  // QUEUE_ORDSEQ_*
  const SEQ_STARTED: nat := 1
  const SEQ_DRAIN: nat := 2
  const SEQ_PREFLUSH: nat := 4
  const SEQ_BAR: nat := 8
  const SEQ_POSTFLUSH: nat := 16
  const SEQ_DONE: nat := 32

  /** The bits of q->ordseq; QUEUE_ORDSEQ_DONE is never stored. */
  datatype OrdSeq = OrdSeq(started: bool, drain: bool, preflush: bool, bar: bool, postflush: bool)
  {
    predicate Overlaps(o: OrdSeq) {
      (started && o.started) || (drain && o.drain) || (preflush && o.preflush) || (bar && o.bar)
      || (postflush && o.postflush)
    }

    function Or(o: OrdSeq): OrdSeq {
      OrdSeq(started || o.started, drain || o.drain, preflush || o.preflush, bar || o.bar, postflush || o.postflush)
    }

    /** blk_ordered_cur_seq: the lowest clear bit, or 0 when no sequence runs. */
    function Cur(): nat {
      if this == IDLE then 0
      else if !started then SEQ_STARTED
      else if !drain then SEQ_DRAIN
      else if !preflush then SEQ_PREFLUSH
      else if !bar then SEQ_BAR
      else if !postflush then SEQ_POSTFLUSH
      else SEQ_DONE
    }

    function Bits(): bv8 {
      (if started then 1 else 0) | (if drain then 2 else 0) | (if preflush then 4 else 0)
      | (if bar then 8 else 0) | (if postflush then 16 else 0)
    }
  }

  const IDLE := OrdSeq(false, false, false, false, false)
  const DRAIN_BIT := OrdSeq(false, true, false, false, false)

  /** The bit a finished proxy request reports. */
  function ProxyBit(id: nat): OrdSeq {
    OrdSeq(false, false, id == PRE_FLUSH, id == BAR, id == POST_FLUSH)
  }

  /** Storing the bits as booleans computes the same current phase as the
      source's 1 << ffz(ordseq), which isolates the lowest clear bit. */
  lemma CurIsLowestClearBit(o: OrdSeq)
    ensures o.Cur() as bv8 == if o.Bits() == 0 then 0 else !o.Bits() & (o.Bits() + 1)
  {
    assert o.Bits() == 0 <==> o == IDLE;
    assert o == OrdSeq(o.started, o.drain, o.preflush, o.bar, o.postflush);
    if o.started && o.drain && o.preflush && o.bar && o.postflush {
      assert o.Bits() == 31;
    }
  }

  /** QUEUE_ORDERED_*: how barriers are carried out. */
  datatype Mode = Mode(drain: bool, tag: bool, preflush: bool, bar: bool, postflush: bool, fua: bool)

  const ORDERED_NONE := Mode(false, false, false, false, false, false)
  const ORDERED_DRAIN := Mode(true, false, false, true, false, false)
  const ORDERED_DRAIN_FLUSH := Mode(true, false, true, true, true, false)
  const ORDERED_DRAIN_FUA := Mode(true, false, true, true, false, true)
  const ORDERED_TAG := Mode(false, true, false, true, false, false)
  const ORDERED_TAG_FLUSH := Mode(false, true, true, true, true, false)
  const ORDERED_TAG_FUA := Mode(false, true, true, true, false, true)

  predicate DrainMode(m: Mode) { m == ORDERED_DRAIN || m == ORDERED_DRAIN_FLUSH || m == ORDERED_DRAIN_FUA }

  predicate TagMode(m: Mode) { m == ORDERED_TAG || m == ORDERED_TAG_FLUSH || m == ORDERED_TAG_FUA }

  /** The values blk_queue_ordered accepts. */
  predicate ValidMode(m: Mode) { m == ORDERED_NONE || DrainMode(m) || TagMode(m) }

  /** What an observer of the queue sees. */
  datatype Event =
    | Added(r: Rq)                      // __elv_add_request
    | Handed(id: nat)                   // returned to the driver by __elv_next_request
    | HandedProxy(id: nat, orig: nat)   // the same for a proxy request of barrier orig
    | Completed(id: nat)                // the driver ended the request
    | SeqStart(orig: nat, mode: Mode)   // start_ordered
    | PhaseDone(id: nat, err: int)      // a proxy ended with err
    | PartError(err: int)               // a part of the barrier proxy ended with err
    | Ended(orig: nat, err: int)        // the barrier request was ended
    | Rejected(orig: nat)               // ended with -EOPNOTSUPP, unordered queue

  /** struct request_queue. `driver` holds the requests that were dequeued and
      not yet ended. `bug` and `warn` record that a BUG_ON or the WARN_ON of the
      barrier code fired. `barriers`, `ended`, `log` and `seqAt` are bookkeeping. */
  datatype Queue = Queue(
    head: seq<Rq>,
    held: seq<Rq>,
    driver: map<nat, Rq>,
    inFlight: int,
    ordcolor: bool,
    ordseq: OrdSeq,
    orderr: int,
    mode: Mode,
    next: Mode,
    orig: Rq,
    bug: bool,
    warn: bool,
    barriers: nat,
    ended: nat,
    log: seq<Event>,
    seqAt: nat)

  ghost predicate Initial(q: Queue) {
    q.head == [] && q.held == [] && q.driver == map[] && q.inFlight == 0 && !q.ordcolor && q.ordseq == IDLE
    && !q.bug && !q.warn && q.barriers == 0 && q.ended == 0 && q.log == [] && ValidMode(q.next)
  }
}
