/** Onset sampling: walk a fixed time grid over the score and record the
    running (bass, soprano) pair at every grid point where either outer voice
    has exactly one non-chord event starting. */
module Sampling {
  import opened Events

  /** A sampled instant: its offset and the event each outer voice is
      sounding there. */
  datatype Onset = Onset(offset: real, bass: Event, soprano: Event)

  /** The onset every sampled list starts with: nothing sounding yet. */
  const Sentinel: Onset := Onset(-1.0, Rest, Rest)

  /** The resolution the corpus driver uses: one grid point per eighth note. */
  const DefaultResolution: real := 0.5

  /** Offset of grid point k for resolution r. */
  function GridTime(k: int, r: real): real
  {
    k as real * r
  }

  lemma GridTimeIncreasing(j: int, k: int, r: real)
    requires j < k && r > 0.0
    ensures 0 <= j ==> 0.0 <= GridTime(j, r)
    ensures GridTime(j, r) < GridTime(k, r)
  {
    assert GridTime(k, r) - GridTime(j, r) == (k - j) as real * r;
    if 0 <= j {
      assert j as real * r >= 0.0;
    }
  }

  /** For r > 0, grid point k lies below y exactly when k is below y / r. */
  lemma QuotientBound(y: real, r: real)
    requires r > 0.0
    ensures forall k: int :: GridTime(k, r) < y <==> k as real < y / r
  {
    forall k: int
      ensures GridTime(k, r) < y <==> k as real < y / r
    {
      var q := y / r;
      assert q * r == y;
      assert GridTime(k, r) - y == (k as real - q) * r;
    }
  }

  /** n counts the non-negative integers strictly below q. */
  lemma CountBelow(q: real, n: int, k: int)
    requires n == if q <= 0.0 then 0 else if q.Floor as real == q then q.Floor else q.Floor + 1
    ensures 0 <= n
    ensures 0 <= k ==> (k < n <==> k as real < q)
  {
  }

  lemma GridCount(last: real, r: real, n: int)
    requires r > 0.0
    requires var q := (last + r) / r;
             n == if q <= 0.0 then 0 else if q.Floor as real == q then q.Floor else q.Floor + 1
    ensures 0 <= n
    ensures forall k: int :: 0 <= k ==> (k < n <==> GridTime(k, r) < last + r)
  {
    var q := (last + r) / r;
    CountBelow(q, n, 0);
    QuotientBound(last + r, r);
    forall k: int | 0 <= k
      ensures k < n <==> GridTime(k, r) < last + r
    {
      CountBelow(q, n, k);
    }
  }

  /** The number of points 0, r, 2r, ... strictly below last + r: the length
      of the grid the sampling loop walks. The grid points are exactly the
      k >= 0 below this count. */
  function GridSize(last: real, r: real): (n: nat)
    requires r > 0.0
    ensures forall k: int :: 0 <= k ==> (k < n <==> GridTime(k, r) < last + r)
  {
    var q := (last + r) / r;
    var n := if q <= 0.0 then 0 else if q.Floor as real == q then q.Floor else q.Floor + 1;
    GridCount(last, r, n);
    n
  }

  /** A voice "has an onset" at t when exactly one non-chord event starts
      there; several simultaneous events count as none. */
  predicate SoleOnset(part: Part, t: real)
  {
    |NonChordAt(part, t)| == 1
  }

  /** A grid point is recorded when either outer voice has a sole onset. */
  predicate Active(bass: Part, soprano: Part, t: real)
  {
    SoleOnset(bass, t) || SoleOnset(soprano, t)
  }

  /** A voice's running event after looking at the events es starting at the
      current grid point: the sole event if there is exactly one, otherwise
      the event held from before. */
  function Carry(es: seq<Event>, held: Event): Event
  {
    if |es| == 1 then es[0] else held
  }

  /** The loop's state: the running bass and soprano events and the onsets
      recorded so far. */
  datatype Sampler = Sampler(bass: Event, soprano: Event, onsets: seq<Onset>)

  /** One grid point of the sampling loop, given the non-chord events bs and
      ss that start there in the bass and in the soprano. */
  function Step(st: Sampler, t: real, bs: seq<Event>, ss: seq<Event>): Sampler
  {
    if |bs| == 1 || |ss| == 1 then
      var b := Carry(bs, st.bass);
      var s := Carry(ss, st.soprano);
      Sampler(b, s, st.onsets + [Onset(t, b, s)])
    else
      st
  }

  /** The loop's state after the first n grid points. */
  function Sampled(bass: Part, soprano: Part, r: real, n: nat): Sampler
  {
    if n == 0 then Sampler(Rest, Rest, [Sentinel])
    else
      var t := GridTime(n - 1, r);
      Step(Sampled(bass, soprano, r, n - 1), t, NonChordAt(bass, t), NonChordAt(soprano, t))
  }

  /** The onsets the sampling loop returns for a score. */
  function Onsets(score: Score, r: real): seq<Onset>
    requires HasElements(score) && r > 0.0
  {
    Sampled(Bass(score), Soprano(score), r, GridSize(LastOffset(score), r)).onsets
  }

  /** The grid indices below n at which an onset is recorded, in increasing
      order: exactly the active ones. */
  function ActiveIndices(bass: Part, soprano: Part, r: real, n: nat): seq<nat>
  {
    if n == 0 then []
    else
      ActiveIndices(bass, soprano, r, n - 1)
        + (if Active(bass, soprano, GridTime(n - 1, r)) then [n - 1] else [])
  }

  /** Only active grid points below n are listed. */
  lemma {:induction false} ActiveIndicesSound(bass: Part, soprano: Part, r: real, n: nat)
    ensures forall i :: 0 <= i < |ActiveIndices(bass, soprano, r, n)| ==>
              && ActiveIndices(bass, soprano, r, n)[i] < n
              && Active(bass, soprano, GridTime(ActiveIndices(bass, soprano, r, n)[i], r))
  {
    if n > 0 {
      ActiveIndicesSound(bass, soprano, r, n - 1);
    }
  }

  lemma {:induction false} ActiveIndicesSorted(bass: Part, soprano: Part, r: real, n: nat)
    ensures forall i, j :: 0 <= i < j < |ActiveIndices(bass, soprano, r, n)| ==>
              ActiveIndices(bass, soprano, r, n)[i] < ActiveIndices(bass, soprano, r, n)[j]
  {
    if n > 0 {
      ActiveIndicesSorted(bass, soprano, r, n - 1);
      ActiveIndicesSound(bass, soprano, r, n - 1);
    }
  }

  /** No active grid point is missed. */
  lemma {:induction false} ActiveIndicesComplete(bass: Part, soprano: Part, r: real, n: nat, k: nat)
    requires k < n && Active(bass, soprano, GridTime(k, r))
    ensures k in ActiveIndices(bass, soprano, r, n)
  {
    var ks0 := ActiveIndices(bass, soprano, r, n - 1);
    if k < n - 1 {
      ActiveIndicesComplete(bass, soprano, r, n - 1, k);
      var j :| 0 <= j < |ks0| && ks0[j] == k;
      assert ActiveIndices(bass, soprano, r, n)[j] == k;
    } else {
      assert ActiveIndices(bass, soprano, r, n) == ks0 + [k];
      assert ActiveIndices(bass, soprano, r, n)[|ks0|] == k;
    }
  }

  /** One grid point either leaves the loop's state alone or appends the
      onset built from the carried events, which become the running ones. */
  lemma StepAppends(st: Sampler, t: real, bs: seq<Event>, ss: seq<Event>)
    ensures var st' := Step(st, t, bs, ss);
            var o := Onset(t, Carry(bs, st.bass), Carry(ss, st.soprano));
            if |bs| == 1 || |ss| == 1
            then st'.onsets == st.onsets + [o] && st'.bass == o.bass && st'.soprano == o.soprano
            else st' == st
  {
  }

  /** The onset list os is the sentinel followed by one record per grid
      index of ks, at that index's offset. */
  predicate Aligned(os: seq<Onset>, ks: seq<nat>, r: real)
  {
    && |os| == |ks| + 1
    && os[0] == Sentinel
    && forall i :: 0 <= i < |ks| ==> os[i + 1].offset == GridTime(ks[i], r)
  }

  lemma AlignedSnoc(os: seq<Onset>, ks: seq<nat>, r: real, o: Onset, k: nat)
    requires Aligned(os, ks, r) && o.offset == GridTime(k, r)
    ensures Aligned(os + [o], ks + [k], r)
  {
    var os', ks' := os + [o], ks + [k];
    forall i | 0 <= i < |ks'|
      ensures os'[i + 1].offset == GridTime(ks'[i], r)
    {
      if i < |ks| {
        assert os'[i + 1] == os[i + 1] && ks'[i] == ks[i];
      } else {
        assert os'[i + 1] == o && ks'[i] == k;
      }
    }
  }

  /** Each onset after the sentinel sits at the offset of its active grid
      point. */
  lemma {:induction false} SampledOffsets(bass: Part, soprano: Part, r: real, n: nat)
    ensures Aligned(Sampled(bass, soprano, r, n).onsets, ActiveIndices(bass, soprano, r, n), r)
  {
    if n > 0 {
      SampledOffsets(bass, soprano, r, n - 1);
      var st := Sampled(bass, soprano, r, n - 1);
      var t := GridTime(n - 1, r);
      var bs, ss := NonChordAt(bass, t), NonChordAt(soprano, t);
      StepAppends(st, t, bs, ss);
      var ks0 := ActiveIndices(bass, soprano, r, n - 1);
      if |bs| == 1 || |ss| == 1 {
        assert ActiveIndices(bass, soprano, r, n) == ks0 + [n - 1];
        AlignedSnoc(st.onsets, ks0, r, Onset(t, Carry(bs, st.bass), Carry(ss, st.soprano)), n - 1);
      } else {
        assert ActiveIndices(bass, soprano, r, n) == ks0;
      }
    }
  }

  /** The record o follows the record prev: each voice of o is the sole
      event starting at o's offset, or else the event prev holds. */
  ghost predicate Follows(bass: Part, soprano: Part, prev: Onset, o: Onset)
  {
    && o.bass == Carry(NonChordAt(bass, o.offset), prev.bass)
    && o.soprano == Carry(NonChordAt(soprano, o.offset), prev.soprano)
  }

  /** Every record after the first follows the one before it. */
  ghost predicate Carried(bass: Part, soprano: Part, os: seq<Onset>)
  {
    forall i :: 1 <= i < |os| ==> Follows(bass, soprano, os[i - 1], os[i])
  }

  /** What the loop keeps: the running events are those of the last record,
      and the records follow the carrying rule. */
  ghost predicate Consistent(bass: Part, soprano: Part, st: Sampler)
  {
    && |st.onsets| > 0
    && st.bass == st.onsets[|st.onsets| - 1].bass
    && st.soprano == st.onsets[|st.onsets| - 1].soprano
    && Carried(bass, soprano, st.onsets)
  }

  lemma CarriedSnoc(bass: Part, soprano: Part, os: seq<Onset>, o: Onset)
    requires |os| > 0 && Carried(bass, soprano, os)
    requires Follows(bass, soprano, os[|os| - 1], o)
    ensures Carried(bass, soprano, os + [o])
  {
    var os' := os + [o];
    forall i | 1 <= i < |os'|
      ensures Follows(bass, soprano, os'[i - 1], os'[i])
    {
      if i < |os| {
        assert os'[i] == os[i] && os'[i - 1] == os[i - 1];
      } else {
        assert os'[i - 1] == os[|os| - 1] && os'[i] == o;
      }
    }
  }

  lemma StepConsistent(bass: Part, soprano: Part, st: Sampler, t: real)
    requires Consistent(bass, soprano, st)
    ensures Consistent(bass, soprano, Step(st, t, NonChordAt(bass, t), NonChordAt(soprano, t)))
  {
    var bs, ss := NonChordAt(bass, t), NonChordAt(soprano, t);
    StepAppends(st, t, bs, ss);
    if |bs| == 1 || |ss| == 1 {
      CarriedSnoc(bass, soprano, st.onsets, Onset(t, Carry(bs, st.bass), Carry(ss, st.soprano)));
    }
  }

  lemma {:induction false} SampledConsistent(bass: Part, soprano: Part, r: real, n: nat)
    ensures Consistent(bass, soprano, Sampled(bass, soprano, r, n))
  {
    if n > 0 {
      SampledConsistent(bass, soprano, r, n - 1);
      StepConsistent(bass, soprano, Sampled(bass, soprano, r, n - 1), GridTime(n - 1, r));
    }
  }

  /** The sampled list is never empty and starts with the sentinel
      (-1.0, rest, rest). */
  lemma OnsetsBeginWithSentinel(score: Score, r: real)
    requires HasElements(score) && r > 0.0
    ensures |Onsets(score, r)| >= 1
    ensures Onsets(score, r)[0] == Sentinel
  {
    SampledOffsets(Bass(score), Soprano(score), r, GridSize(LastOffset(score), r));
  }

  /** Offsets strictly increase along the sampled list, so no grid point is
      recorded twice. */
  lemma OnsetsStrictlyIncrease(score: Score, r: real)
    requires HasElements(score) && r > 0.0
    ensures forall i, j :: 0 <= i < j < |Onsets(score, r)| ==>
              Onsets(score, r)[i].offset < Onsets(score, r)[j].offset
  {
    var n := GridSize(LastOffset(score), r);
    var os := Onsets(score, r);
    var ks := ActiveIndices(Bass(score), Soprano(score), r, n);
    SampledOffsets(Bass(score), Soprano(score), r, n);
    ActiveIndicesSound(Bass(score), Soprano(score), r, n);
    ActiveIndicesSorted(Bass(score), Soprano(score), r, n);
    forall i, j | 0 <= i < j < |os|
      ensures os[i].offset < os[j].offset
    {
      if i == 0 {
        GridTimeIncreasing(ks[j - 1], ks[j - 1] + 1, r);
      } else {
        GridTimeIncreasing(ks[i - 1], ks[j - 1], r);
      }
    }
  }

  /** Every onset after the sentinel sits on a grid point 0, r, 2r, ...
      below LastOffset + r. */
  lemma OnsetsOnGrid(score: Score, r: real)
    requires HasElements(score) && r > 0.0
    ensures forall i :: 1 <= i < |Onsets(score, r)| ==>
              exists k: nat :: GridTime(k, r) == Onsets(score, r)[i].offset
                               && GridTime(k, r) < LastOffset(score) + r
  {
    var n := GridSize(LastOffset(score), r);
    var os := Onsets(score, r);
    var ks := ActiveIndices(Bass(score), Soprano(score), r, n);
    SampledOffsets(Bass(score), Soprano(score), r, n);
    ActiveIndicesSound(Bass(score), Soprano(score), r, n);
    forall i | 1 <= i < |os|
      ensures exists k: nat :: GridTime(k, r) == os[i].offset && GridTime(k, r) < LastOffset(score) + r
    {
      var k := ks[i - 1];
      assert GridTime(k, r) == os[i].offset;
    }
  }

  /** A grid point below LastOffset + r is recorded if and only if at least
      one outer voice has exactly one non-chord event starting there. */
  lemma RecordedIffSoleOnset(score: Score, r: real, k: nat)
    requires HasElements(score) && r > 0.0
    requires GridTime(k, r) < LastOffset(score) + r
    ensures (exists i :: 1 <= i < |Onsets(score, r)| && Onsets(score, r)[i].offset == GridTime(k, r))
            <==> Active(Bass(score), Soprano(score), GridTime(k, r))
  {
    var n := GridSize(LastOffset(score), r);
    var os := Onsets(score, r);
    var ks := ActiveIndices(Bass(score), Soprano(score), r, n);
    SampledOffsets(Bass(score), Soprano(score), r, n);
    ActiveIndicesSound(Bass(score), Soprano(score), r, n);
    if Active(Bass(score), Soprano(score), GridTime(k, r)) {
      ActiveIndicesComplete(Bass(score), Soprano(score), r, n, k);
      var j :| 0 <= j < |ks| && ks[j] == k;
      assert os[j + 1].offset == GridTime(k, r);
    }
    if i :| 1 <= i < |os| && os[i].offset == GridTime(k, r) {
      var m := ks[i - 1];
      if m < k {
        GridTimeIncreasing(m, k, r);
      } else if k < m {
        GridTimeIncreasing(k, m, r);
      }
      assert m == k;
    }
  }

  /** Each recorded onset takes, voice by voice, the sole event starting at
      its offset; a voice without one keeps the event of the previous record,
      so a sustained note or rest is carried forward unchanged. */
  lemma HeldEventsCarryForward(score: Score, r: real)
    requires HasElements(score) && r > 0.0
    ensures forall i :: 1 <= i < |Onsets(score, r)| ==>
              && (SoleOnset(Bass(score), Onsets(score, r)[i].offset) ==>
                    Onsets(score, r)[i].bass == NonChordAt(Bass(score), Onsets(score, r)[i].offset)[0])
              && (!SoleOnset(Bass(score), Onsets(score, r)[i].offset) ==>
                    Onsets(score, r)[i].bass == Onsets(score, r)[i - 1].bass)
              && (SoleOnset(Soprano(score), Onsets(score, r)[i].offset) ==>
                    Onsets(score, r)[i].soprano == NonChordAt(Soprano(score), Onsets(score, r)[i].offset)[0])
              && (!SoleOnset(Soprano(score), Onsets(score, r)[i].offset) ==>
                    Onsets(score, r)[i].soprano == Onsets(score, r)[i - 1].soprano)
  {
    var os := Onsets(score, r);
    var n := GridSize(LastOffset(score), r);
    SampledConsistent(Bass(score), Soprano(score), r, n);
    assert os == Sampled(Bass(score), Soprano(score), r, n).onsets;
    assert Carried(Bass(score), Soprano(score), os);
    forall i | 1 <= i < |os|
      ensures SoleOnset(Bass(score), os[i].offset) ==> os[i].bass == NonChordAt(Bass(score), os[i].offset)[0]
      ensures !SoleOnset(Bass(score), os[i].offset) ==> os[i].bass == os[i - 1].bass
      ensures SoleOnset(Soprano(score), os[i].offset) ==> os[i].soprano == NonChordAt(Soprano(score), os[i].offset)[0]
      ensures !SoleOnset(Soprano(score), os[i].offset) ==> os[i].soprano == os[i - 1].soprano
    {
      assert Follows(Bass(score), Soprano(score), os[i - 1], os[i]);
      assert os[i].bass == Carry(NonChordAt(Bass(score), os[i].offset), os[i - 1].bass);
      assert os[i].soprano == Carry(NonChordAt(Soprano(score), os[i].offset), os[i - 1].soprano);
    }
  }

  /** A rest that is the only event starting on a grid point is recorded like
      a note: the list holds an onset at that point whose bass is the rest. */
  lemma BassRestIsRecorded(score: Score, r: real, k: nat)
    requires HasElements(score) && r > 0.0
    requires GridTime(k, r) < LastOffset(score) + r
    requires NonChordAt(Bass(score), GridTime(k, r)) == [Rest]
    ensures exists i :: 1 <= i < |Onsets(score, r)|
                        && Onsets(score, r)[i].offset == GridTime(k, r)
                        && Onsets(score, r)[i].bass == Rest
  {
    RecordedIffSoleOnset(score, r, k);
    HeldEventsCarryForward(score, r);
    var os := Onsets(score, r);
    var i :| 1 <= i < |os| && os[i].offset == GridTime(k, r);
    assert SoleOnset(Bass(score), os[i].offset);
    assert os[i].bass == NonChordAt(Bass(score), os[i].offset)[0];
  }

  /** The sampling loop of the source: running bass and soprano events that
      start as rests, the sentinel, and one pass over the grid. */
  method GetOnsets(score: Score, resolution: real) returns (onsets: seq<Onset>)
    requires HasElements(score) && resolution > 0.0
    ensures onsets == Onsets(score, resolution)
  {
    var b: Event := Rest;
    var s: Event := Rest;
    onsets := [Onset(-1.0, b, s)];
    var soprano := Soprano(score);
    var bass := Bass(score);
    var lastOffset := LastOffset(score);
    var n := GridSize(lastOffset, resolution);
    for k := 0 to n
      invariant Sampler(b, s, onsets) == Sampled(bass, soprano, resolution, k)
    {
      var offset := GridTime(k, resolution);
      var bs := NonChordAt(bass, offset);
      var ss := NonChordAt(soprano, offset);
      var notesOnBass := |bs| == 1;
      var notesOnSoprano := |ss| == 1;
      if notesOnBass || notesOnSoprano {
        if notesOnBass {
          b := bs[0];
        }
        if notesOnSoprano {
          s := ss[0];
        }
        onsets := onsets + [Onset(offset, b, s)];
      }
    }
  }
}
