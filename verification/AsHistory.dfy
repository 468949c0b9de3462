/** The decaying averages that the anticipatory scheduler keeps for a process
    (as_update_thinktime of block/as-iosched.c), in fixed point with 256 for one sample. */
module AsHistory {
  /** ttime_samples, ttime_total and ttime_mean of struct as_io_context */
  datatype History = History(samples: nat, total: nat, mean: nat)

  class Process {
    var samples: nat
    var total: nat
    var mean: nat

    constructor ()
      ensures Seen() == History(0, 0, 0)
    {
      samples, total, mean := 0, 0, 0;
    }

    ghost function Seen(): History
      reads this
    {
      History(samples, total, mean)
    }

    /** as_update_thinktime, for the process */
    method UpdateThinktime(ttime: nat)
      modifies this
      ensures Seen() == Updated(old(Seen()), ttime)
    {
      hide Mean;
      samples := (7 * samples + 256) / 8;
      total := (7 * total + 256 * ttime) / 8;
      mean := Mean(total, samples);
    }
  }

  function Mean(total: nat, samples: nat): nat
    requires samples > 0
  {
    (total + 128) / samples
  }

  function Updated(h: History, ttime: nat): (r: History)
    ensures r.samples >= 32
  {
    var samples := (7 * h.samples + 256) / 8;
    var total := (7 * h.total + 256 * ttime) / 8;
    History(samples, total, Mean(total, samples))
  }

  function AfterAll(h: History, times: seq<nat>): History
    decreases |times|
  {
    if times == [] then h else AfterAll(Updated(h, times[0]), times[1..])
  }

  lemma UpdateBound(h: History, ttime: nat, most: nat)
    requires ttime <= most && h.total <= most * (h.samples + 7) && h.samples <= 249
    ensures var r := Updated(h, ttime); r.total <= most * (r.samples + 7) && r.samples <= 249
  {
    hide Mean;
    var r := Updated(h, ttime);
    assert 8 * (r.samples + 7) >= 7 * (h.samples + 7) + 256;
    assert 8 * r.total <= 7 * h.total + 256 * ttime;
    calc <= {
      8 * r.total;
      7 * h.total + 256 * ttime;
      { Times(ttime, most, 256); Times(h.total, most * (h.samples + 7), 7); }
      7 * (most * (h.samples + 7)) + most * 256;
      { Spread(most, h.samples + 7); }
      most * (7 * (h.samples + 7) + 256);
      { Times2(most, 7 * (h.samples + 7) + 256, 8 * (r.samples + 7)); }
      most * (8 * (r.samples + 7));
    }
    Spread8(most, r.samples + 7);
  }

  lemma Times(a: nat, b: nat, c: nat)
    requires a <= b
    ensures a * c <= b * c
  {}

  lemma Times2(m: nat, a: nat, b: nat)
    requires a <= b
    ensures m * a <= m * b
  {}

  lemma Spread(m: nat, k: nat)
    ensures 7 * (m * k) + m * 256 == m * (7 * k + 256)
  {}

  lemma Spread8(m: nat, k: nat)
    ensures m * (8 * k) == 8 * (m * k)
  {}

  /** If no think time was above `most`, then however many were recorded the total stays
      within `most` of every sample and seven more, and the number of samples below 250. */
  lemma {:induction false} ThinktimeBound(h: History, times: seq<nat>, most: nat)
    requires h.total <= most * (h.samples + 7) && h.samples <= 249
    requires forall i :: 0 <= i < |times| ==> times[i] <= most
    ensures var r := AfterAll(h, times); r.total <= most * (r.samples + 7) && r.samples <= 249
    decreases |times|
  {
    hide Updated;
    if times != [] {
      UpdateBound(h, times[0], most);
      ThinktimeBound(Updated(h, times[0]), times[1..], most);
    }
  }

  /** So the mean that anticipation looks at is at most a quarter above the longest time. */
  lemma MeanBound(times: seq<nat>, most: nat)
    requires times != [] && forall i :: 0 <= i < |times| ==> times[i] <= most
    ensures AfterAll(History(0, 0, 0), times).mean <= most + (7 * most + 128) / 32
  {
    hide Updated;
    var n := |times| - 1;
    var h := AfterAll(History(0, 0, 0), times[..n]);
    Last(History(0, 0, 0), times);
    ThinktimeBound(History(0, 0, 0), times[..n], most);
    UpdateBound(h, times[n], most);
    var r := Updated(h, times[n]);
    MeanOf(r, most, h, times[n]);
  }

  lemma MeanOf(r: History, most: nat, h: History, ttime: nat)
    requires r == Updated(h, ttime) && r.total <= most * (r.samples + 7)
    ensures r.mean <= most + (7 * most + 128) / 32
  {
    var s, q := r.samples, (7 * most + 128) / 32;
    Divided(r.total + 128, s);
    assert 32 * q >= 7 * most + 128 - 31;
    Times2(q + 1, 32, s);
    Sums(most, s, q);
    if r.mean > most + q { Times2(s, most + q + 1, r.mean); }
  }

  lemma Divided(a: nat, s: nat)
    requires s > 0
    ensures s * (a / s) <= a
  {}

  lemma Sums(most: nat, s: nat, q: nat)
    ensures most * (s + 7) == s * most + 7 * most && s * (most + q + 1) == s * most + s * (q + 1) && (q + 1) * s == s * (q + 1)
  {}

  lemma {:induction false} Last(h: History, times: seq<nat>)
    requires times != []
    ensures AfterAll(h, times) == Updated(AfterAll(h, times[..|times| - 1]), times[|times| - 1])
    decreases |times|
  {
    hide Updated;
    var n := |times| - 1;
    if n > 0 {
      Last(Updated(h, times[0]), times[1..]);
      assert times[1..][..n - 1] == times[..n][1..];
    }
  }
}
