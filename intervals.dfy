/** Interval annotation: the four interval fields of a bigram and the
    descriptor string built from them. Naming an interval between two pitches
    is the notation library's business; it comes in as a pair of functions. */
module Intervals {
  import opened Events
  import opened Sampling
  import opened Bigrams

  /** The library's interval naming: `name` is the undirected name of the
      interval between two pitches (harmonic fields), `directedName` the
      directed one (melodic fields). */
  datatype Namer = Namer(name: (Pitch, Pitch) -> string, directedName: (Pitch, Pitch) -> string)

  /** One descriptor field contains no blank and no bracket. */
  predicate Token(s: string)
  {
    forall i :: 0 <= i < |s| ==> s[i] != ' ' && s[i] != '[' && s[i] != ']'
  }

  /** What the model relies on about the library's names: they are tokens and
      never coincide with the placeholders "-" and "X". */
  ghost predicate ValidNamer(nm: Namer)
  {
    && (forall p, q :: Token(nm.name(p, q)) && nm.name(p, q) != "-")
    && (forall p, q :: Token(nm.directedName(p, q))
                       && nm.directedName(p, q) != "-" && nm.directedName(p, q) != "X")
  }

  /** A harmonic field: "-" when either voice rests, otherwise the interval
      name from the lower to the upper note. */
  function Harmonic(lower: Event, upper: Event, nm: Namer): string
  {
    if lower.Rest? || upper.Rest? then "-" else nm.name(lower.pitch, upper.pitch)
  }

  /** A melodic field of one voice across a bigram: "X" when it enters from a
      rest, else "-" when it goes to a rest, else the directed interval. */
  function Melodic(first: Event, second: Event, nm: Namer): string
  {
    if first.Rest? && !second.Rest? then "X"
    else if second.Rest? then "-"
    else nm.directedName(first.pitch, second.pitch)
  }

  /** The four fields of a bigram's descriptor. */
  datatype Fields = Fields(h1: string, mBass: string, mSoprano: string, h2: string)

  function FieldsOf(bg: Bigram, nm: Namer): Fields
  {
    Fields(Harmonic(bg.0.bass, bg.0.soprano, nm),
           Melodic(bg.0.bass, bg.1.bass, nm),
           Melodic(bg.0.soprano, bg.1.soprano, nm),
           Harmonic(bg.1.bass, bg.1.soprano, nm))
  }

  /** The descriptor string "(H1 [Mbass Msoprano] H2)". */
  function Format(f: Fields): string
  {
    "(" + f.h1 + " [" + f.mBass + " " + f.mSoprano + "] " + f.h2 + ")"
  }

  /** An annotated bigram: the offsets of its two onsets and its descriptor. */
  datatype IntervalBigram = IntervalBigram(start: real, end: real, descriptor: string)

  function Annotate(bg: Bigram, nm: Namer): IntervalBigram
  {
    IntervalBigram(bg.0.offset, bg.1.offset, Format(FieldsOf(bg, nm)))
  }

  /** Every bigram annotated, in order. */
  function AnnotateAll(bgs: seq<Bigram>, nm: Namer): (ibs: seq<IntervalBigram>)
    ensures |ibs| == |bgs|
    ensures forall i :: 0 <= i < |bgs| ==> ibs[i] == Annotate(bgs[i], nm)
  {
    if bgs == [] then [] else AnnotateAll(bgs[..|bgs| - 1], nm) + [Annotate(bgs[|bgs| - 1], nm)]
  }

  /** The annotation loop of the source: one entry per bigram, in order,
      carrying the bigram's two offsets and its descriptor. */
  method GetIntervals(bigrams: seq<Bigram>, nm: Namer) returns (intervalBigrams: seq<IntervalBigram>)
    ensures intervalBigrams == AnnotateAll(bigrams, nm)
    ensures forall i :: 0 <= i < |bigrams| ==>
              && intervalBigrams[i].start == bigrams[i].0.offset
              && intervalBigrams[i].end == bigrams[i].1.offset
  {
    intervalBigrams := [];
    for i := 0 to |bigrams|
      invariant intervalBigrams == AnnotateAll(bigrams[..i], nm)
    {
      var (offset1, bass1, soprano1) := (bigrams[i].0.offset, bigrams[i].0.bass, bigrams[i].0.soprano);
      var (offset2, bass2, soprano2) := (bigrams[i].1.offset, bigrams[i].1.bass, bigrams[i].1.soprano);
      var h1 := Harmonic(bass1, soprano1, nm);
      var mBass := Melodic(bass1, bass2, nm);
      var mSoprano := Melodic(soprano1, soprano2, nm);
      var h2 := Harmonic(bass2, soprano2, nm);
      intervalBigrams := intervalBigrams + [IntervalBigram(offset1, offset2, Format(Fields(h1, mBass, mSoprano, h2)))];
      assert bigrams[..i + 1][..i] == bigrams[..i];
    }
    assert bigrams[..|bigrams|] == bigrams;
  }

  /** A harmonic field is the placeholder exactly when a voice rests, and
      otherwise the library's name; no interval is named against a rest. */
  lemma HarmonicRule(lower: Event, upper: Event, nm: Namer)
    requires ValidNamer(nm)
    ensures Harmonic(lower, upper, nm) == "-" <==> lower.Rest? || upper.Rest?
    ensures lower.Note? && upper.Note? ==> Harmonic(lower, upper, nm) == nm.name(lower.pitch, upper.pitch)
  {
  }

  /** The three-way rule of a melodic field, with each placeholder pinned
      down in both directions. */
  lemma MelodicRule(first: Event, second: Event, nm: Namer)
    requires ValidNamer(nm)
    ensures Melodic(first, second, nm) == "X" <==> first.Rest? && second.Note?
    ensures Melodic(first, second, nm) == "-" <==> second.Rest?
    ensures first.Note? && second.Note? ==>
              Melodic(first, second, nm) == nm.directedName(first.pitch, second.pitch)
  {
  }

  datatype Option<T> = None | Some(value: T)

  /** The prefix of s before the first c and the rest after it, if c occurs. */
  function Split(s: string, c: char): Option<(string, string)>
  {
    if s == [] then None
    else if s[0] == c then Some(([], s[1..]))
    else
      match Split(s[1..], c)
      case None => None
      case Some(parts) => Some(([s[0]] + parts.0, parts.1))
  }

  lemma {:induction false} SplitAtFirst(a: string, c: char, b: string)
    requires forall i :: 0 <= i < |a| ==> a[i] != c
    ensures Split(a + [c] + b, c) == Some((a, b))
  {
    if a != [] {
      SplitAtFirst(a[1..], c, b);
      assert (a + [c] + b)[1..] == a[1..] + [c] + b;
      assert [a[0]] + a[1..] == a;
    } else {
      assert (a + [c] + b)[1..] == b;
    }
  }

  /** Reads the four fields back out of a descriptor string. */
  function Parse(d: string): Option<Fields>
  {
    if |d| < 2 || d[0] != '(' || d[|d| - 1] != ')' then None
    else ParseInner(d[1..|d| - 1])
  }

  /** "H1 [Mbass Msoprano] H2" into its four fields. */
  function ParseInner(s: string): Option<Fields>
  {
    match Split(s, ' ')
    case None => None
    case Some(p) =>
      if |p.1| == 0 || p.1[0] != '[' then None else ParseMelodic(p.0, p.1[1..])
  }

  /** "Mbass Msoprano] H2", after the first harmonic field h1. */
  function ParseMelodic(h1: string, s: string): Option<Fields>
  {
    match Split(s, ' ')
    case None => None
    case Some(p) => ParseLast(h1, p.0, p.1)
  }

  /** "Msoprano] H2", after the fields h1 and mBass. */
  function ParseLast(h1: string, mBass: string, s: string): Option<Fields>
  {
    match Split(s, ']')
    case None => None
    case Some(p) =>
      if |p.1| == 0 || p.1[0] != ' ' then None else Some(Fields(h1, mBass, p.0, p.1[1..]))
  }

  lemma ParseLastOf(h1: string, mBass: string, mSoprano: string, h2: string)
    requires Token(mSoprano)
    ensures ParseLast(h1, mBass, mSoprano + "] " + h2) == Some(Fields(h1, mBass, mSoprano, h2))
  {
    assert mSoprano + "] " + h2 == mSoprano + [']'] + (" " + h2);
    SplitAtFirst(mSoprano, ']', " " + h2);
    assert (" " + h2)[1..] == h2;
  }

  lemma ParseMelodicOf(h1: string, mBass: string, mSoprano: string, h2: string)
    requires Token(mBass) && Token(mSoprano)
    ensures ParseMelodic(h1, mBass + " " + mSoprano + "] " + h2) == Some(Fields(h1, mBass, mSoprano, h2))
  {
    var rest := mSoprano + "] " + h2;
    assert mBass + " " + mSoprano + "] " + h2 == mBass + [' '] + rest;
    SplitAtFirst(mBass, ' ', rest);
    ParseLastOf(h1, mBass, mSoprano, h2);
  }

  lemma ParseInnerOf(f: Fields)
    requires Token(f.h1) && Token(f.mBass) && Token(f.mSoprano)
    ensures ParseInner(f.h1 + " [" + f.mBass + " " + f.mSoprano + "] " + f.h2) == Some(f)
  {
    var rest := "[" + (f.mBass + " " + f.mSoprano + "] " + f.h2);
    assert f.h1 + " [" + f.mBass + " " + f.mSoprano + "] " + f.h2 == f.h1 + [' '] + rest;
    SplitAtFirst(f.h1, ' ', rest);
    assert rest[1..] == f.mBass + " " + f.mSoprano + "] " + f.h2;
    ParseMelodicOf(f.h1, f.mBass, f.mSoprano, f.h2);
  }

  /** Formatting loses nothing when the fields are tokens. */
  lemma FormatRoundTrip(f: Fields)
    requires Token(f.h1) && Token(f.mBass) && Token(f.mSoprano) && Token(f.h2)
    ensures Parse(Format(f)) == Some(f)
  {
    var inner := f.h1 + " [" + f.mBass + " " + f.mSoprano + "] " + f.h2;
    assert Format(f) == "(" + inner + ")";
    assert Format(f)[1..|Format(f)| - 1] == inner;
    ParseInnerOf(f);
  }

  /** Under a valid namer every field is a token. */
  lemma FieldsAreTokens(bg: Bigram, nm: Namer)
    requires ValidNamer(nm)
    ensures var f := FieldsOf(bg, nm);
            Token(f.h1) && Token(f.mBass) && Token(f.mSoprano) && Token(f.h2)
  {
    assert Token("-") && Token("X");
  }

  /** The descriptor is a faithful dictionary key: two bigrams share a
      descriptor exactly when their four interval fields agree. */
  lemma SameDescriptorIffSameFields(bg1: Bigram, bg2: Bigram, nm: Namer)
    requires ValidNamer(nm)
    ensures Annotate(bg1, nm).descriptor == Annotate(bg2, nm).descriptor
            <==> FieldsOf(bg1, nm) == FieldsOf(bg2, nm)
  {
    FieldsAreTokens(bg1, nm);
    FieldsAreTokens(bg2, nm);
    FormatRoundTrip(FieldsOf(bg1, nm));
    FormatRoundTrip(FieldsOf(bg2, nm));
  }
}
