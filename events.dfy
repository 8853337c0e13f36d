/** The score as the sampling loop sees it: two outer voices, each an ordered
    list of notes, rests and chords with their absolute offsets (in quarter
    notes). Parsing a file into this shape is done by the notation library
    and is not part of this model. */
module Events {

  /** A pitch is opaque here: only the interval namer looks inside it. */
  type Pitch(!new)

  /** What a voice is sounding: a pitched note or a rest. */
  datatype Event = Note(pitch: Pitch) | Rest

  /** One element of a voice's flattened notes-and-rests stream. Chords are
      kept apart because the sampling loop discards them. */
  datatype Element =
    | Single(offset: real, event: Event)
    | Chord(offset: real, pitches: seq<Pitch>)

  type Part = seq<Element>

  /** A parsed score: its parts in declaration order. */
  datatype Score = Score(parts: seq<Part>)

  /** Every element of every part, part after part. */
  function Flatten(parts: seq<Part>): (es: seq<Element>)
    ensures forall i, j :: 0 <= i < |parts| && 0 <= j < |parts[i]| ==> parts[i][j] in es
    ensures forall e :: e in es ==> exists i :: 0 <= i < |parts| && e in parts[i]
  {
    if parts == [] then [] else parts[0] + Flatten(parts[1..])
  }

  /** The score has at least one note, rest or chord; otherwise the source's
      look-up of the last element fails. */
  predicate HasElements(score: Score)
  {
    |Flatten(score.parts)| > 0
  }

  /** The largest offset among a non-empty list of elements. */
  function MaxOffset(es: seq<Element>): (m: real)
    requires |es| > 0
    ensures forall e :: e in es ==> e.offset <= m
    ensures exists i :: 0 <= i < |es| && es[i].offset == m
  {
    if |es| == 1 then es[0].offset
    else
      var rest := MaxOffset(es[1..]);
      assert forall e :: e in es[1..] ==> e in es;
      if es[0].offset >= rest then es[0].offset else rest
  }

  /** Offset of the last element of the whole score's flattened, sorted
      stream, that is, the largest offset of any element in any part. */
  function LastOffset(score: Score): (last: real)
    requires HasElements(score)
    ensures forall i, j :: 0 <= i < |score.parts| && 0 <= j < |score.parts[i]| ==>
              score.parts[i][j].offset <= last
    ensures exists e :: e in Flatten(score.parts) && e.offset == last
  {
    var m := MaxOffset(Flatten(score.parts));
    assert exists i :: 0 <= i < |Flatten(score.parts)| && Flatten(score.parts)[i].offset == m;
    m
  }

  /** The upper voice is the first part. */
  function Soprano(score: Score): Part
    requires HasElements(score)
  {
    score.parts[0]
  }

  /** The lower voice is the last part. */
  function Bass(score: Score): Part
    requires HasElements(score)
  {
    score.parts[|score.parts| - 1]
  }

  /** The events of a voice that start exactly at offset t, chords removed,
      in stream order. */
  function NonChordAt(part: Part, t: real): (es: seq<Event>)
    ensures |es| <= |part|
  {
    if part == [] then []
    else
      var head := if part[0].Single? && part[0].offset == t then [part[0].event] else [];
      head + NonChordAt(part[1..], t)
  }

  /** The positions from lo on at which a non-chord event of the voice starts
      at t. */
  ghost function StartsFrom(part: Part, t: real, lo: nat): set<nat>
  {
    set i: nat | lo <= i < |part| && part[i].Single? && part[i].offset == t
  }

  lemma CountFrom(part: Part, t: real, lo: nat)
    requires lo <= |part|
    ensures |NonChordAt(part[lo..], t)| == |StartsFrom(part, t, lo)|
    decreases |part| - lo
  {
    if lo == |part| {
      assert StartsFrom(part, t, lo) == {};
    } else {
      CountFrom(part, t, lo + 1);
      assert part[lo..][1..] == part[lo + 1..];
      var here: set<nat> := if part[lo].Single? && part[lo].offset == t then {lo} else {};
      assert StartsFrom(part, t, lo) == here + StartsFrom(part, t, lo + 1);
      assert lo !in StartsFrom(part, t, lo + 1);
    }
  }

  /** The query keeps exactly the non-chord events starting at t: the same
      events, and as many as there are elements starting there. */
  lemma {:induction false} NonChordAtMembers(part: Part, t: real)
    ensures forall e :: e in NonChordAt(part, t) <==> Single(t, e) in part
    ensures |NonChordAt(part, t)|
              == |set i: nat | i < |part| && part[i].Single? && part[i].offset == t|
  {
    if part != [] {
      NonChordAtMembers(part[1..], t);
      assert forall x :: x in part <==> x == part[0] || x in part[1..];
    }
    CountFrom(part, t, 0);
    assert part[0..] == part;
    assert StartsFrom(part, t, 0)
           == set i: nat | i < |part| && part[i].Single? && part[i].offset == t;
  }
}
