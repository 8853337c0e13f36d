/** The corpus driver: every parsed score goes through onset sampling, bigram
    building and annotation, and each annotated bigram is recorded in one
    table shared by the whole corpus. */
module Corpus {
  import opened Events
  import opened Sampling
  import opened Bigrams
  import opened Intervals
  import opened Aggregate

  /** A score file after parsing: its file name and its score. */
  datatype ScoreFile = ScoreFile(name: string, score: Score)

  /** Every file's score has at least one element. */
  predicate Parsable(corpus: seq<ScoreFile>)
  {
    forall i :: 0 <= i < |corpus| ==> HasElements(corpus[i].score)
  }

  /** The annotated bigrams of one score at the driver's resolution. */
  function Analyze(score: Score, nm: Namer): seq<IntervalBigram>
    requires HasElements(score)
  {
    AnnotateAll(GetBigrams(Onsets(score, DefaultResolution)), nm)
  }

  /** The entries one file contributes: its annotated bigrams, each labelled
      with the file name. */
  function FileEntries(name: string, ibs: seq<IntervalBigram>): (es: seq<Entry>)
    ensures |es| == |ibs|
  {
    if ibs == [] then []
    else
      var last := ibs[|ibs| - 1];
      FileEntries(name, ibs[..|ibs| - 1]) + [Entry(last.descriptor, Occurrence(name, last.start, last.end))]
  }

  /** Entry i of a file carries the descriptor of annotated bigram i, the file
      name and the bigram's two offsets. */
  lemma {:induction false} FileEntriesLabel(name: string, ibs: seq<IntervalBigram>)
    ensures forall i :: 0 <= i < |ibs| ==>
              FileEntries(name, ibs)[i] == Entry(ibs[i].descriptor, Occurrence(name, ibs[i].start, ibs[i].end))
  {
    if ibs != [] {
      var init := ibs[..|ibs| - 1];
      FileEntriesLabel(name, init);
      forall i | 0 <= i < |ibs|
        ensures FileEntries(name, ibs)[i] == Entry(ibs[i].descriptor, Occurrence(name, ibs[i].start, ibs[i].end))
      {
        if i < |init| {
          assert FileEntries(name, ibs)[i] == FileEntries(name, init)[i];
          assert ibs[i] == init[i];
        }
      }
    }
  }

  lemma FileEntriesSnoc(name: string, ibs: seq<IntervalBigram>, j: nat)
    requires j < |ibs|
    ensures FileEntries(name, ibs[..j + 1])
              == FileEntries(name, ibs[..j]) + [Entry(ibs[j].descriptor, Occurrence(name, ibs[j].start, ibs[j].end))]
  {
    assert ibs[..j + 1][..j] == ibs[..j];
  }

  /** All entries of the corpus, file after file. */
  function CorpusEntries(corpus: seq<ScoreFile>, nm: Namer): seq<Entry>
    requires Parsable(corpus)
  {
    if corpus == [] then []
    else
      var last := corpus[|corpus| - 1];
      CorpusEntries(corpus[..|corpus| - 1], nm) + FileEntries(last.name, Analyze(last.score, nm))
  }

  lemma CorpusEntriesSnoc(corpus: seq<ScoreFile>, f: nat, nm: Namer)
    requires Parsable(corpus) && f < |corpus|
    ensures CorpusEntries(corpus[..f + 1], nm)
              == CorpusEntries(corpus[..f], nm) + FileEntries(corpus[f].name, Analyze(corpus[f].score, nm))
  {
    assert corpus[..f + 1][..f] == corpus[..f];
  }

  /** The number of bigrams of all scores of the corpus. */
  function BigramCount(corpus: seq<ScoreFile>): nat
    requires Parsable(corpus)
  {
    if corpus == [] then 0
    else
      BigramCount(corpus[..|corpus| - 1])
        + |GetBigrams(Onsets(corpus[|corpus| - 1].score, DefaultResolution))|
  }

  /** One table entry per bigram: the corpus's entries are as many as its
      bigrams, and each score contributes one fewer than its onsets. */
  lemma {:induction false} EntriesPerBigram(corpus: seq<ScoreFile>, nm: Namer)
    requires Parsable(corpus)
    ensures |CorpusEntries(corpus, nm)| == BigramCount(corpus)
    ensures forall i :: 0 <= i < |corpus| ==>
              |GetBigrams(Onsets(corpus[i].score, DefaultResolution))|
                == |Onsets(corpus[i].score, DefaultResolution)| - 1
  {
    if corpus != [] {
      EntriesPerBigram(corpus[..|corpus| - 1], nm);
    }
    forall i | 0 <= i < |corpus|
      ensures |GetBigrams(Onsets(corpus[i].score, DefaultResolution))|
                == |Onsets(corpus[i].score, DefaultResolution)| - 1
    {
      OnsetsBeginWithSentinel(corpus[i].score, DefaultResolution);
    }
  }

  /** Over the whole corpus, the table stores one occurrence per bigram
      processed. */
  lemma StoredOccurrencesPerBigram(corpus: seq<ScoreFile>, nm: Namer)
    requires Parsable(corpus)
    ensures Total(RecordAll(map[], CorpusEntries(corpus, nm))) == BigramCount(corpus)
  {
    EntriesPerBigram(corpus, nm);
    TotalRecordAll(map[], CorpusEntries(corpus, nm));
    assert Total(map[]) == 0;
  }

  lemma RecordFileStep(table: Table, filename: string, ibs: seq<IntervalBigram>, j: nat)
    requires j < |ibs|
    ensures RecordAll(table, FileEntries(filename, ibs[..j + 1]))
              == Record(RecordAll(table, FileEntries(filename, ibs[..j])),
                        ibs[j].descriptor, Occurrence(filename, ibs[j].start, ibs[j].end))
  {
    FileEntriesSnoc(filename, ibs, j);
    RecordAllSnoc(table, FileEntries(filename, ibs[..j]),
                  Entry(ibs[j].descriptor, Occurrence(filename, ibs[j].start, ibs[j].end)));
  }

  /** The inner loop of the corpus driver: each annotated bigram of one file
      is recorded under its descriptor; a missing descriptor gets a singleton
      list, a present one gets the occurrence appended. */
  method RecordFile(table: Table, filename: string, intervalBigrams: seq<IntervalBigram>)
    returns (allIntervalBigrams: Table)
    ensures allIntervalBigrams == RecordAll(table, FileEntries(filename, intervalBigrams))
  {
    allIntervalBigrams := table;
    for j := 0 to |intervalBigrams|
      invariant allIntervalBigrams == RecordAll(table, FileEntries(filename, intervalBigrams[..j]))
    {
      var IntervalBigram(startOffset, endOffset, interval) := intervalBigrams[j];
      var occurrence := Occurrence(filename, startOffset, endOffset);
      ghost var before := allIntervalBigrams;
      if interval !in allIntervalBigrams {
        allIntervalBigrams := allIntervalBigrams[interval := [occurrence]];
      } else {
        allIntervalBigrams := allIntervalBigrams[interval := allIntervalBigrams[interval] + [occurrence]];
      }
      assert allIntervalBigrams == Record(before, interval, occurrence);
      RecordFileStep(table, filename, intervalBigrams, j);
    }
    assert intervalBigrams[..|intervalBigrams|] == intervalBigrams;
  }

  lemma CollectStep(corpus: seq<ScoreFile>, f: nat, nm: Namer)
    requires Parsable(corpus) && f < |corpus|
    ensures RecordAll(map[], CorpusEntries(corpus[..f + 1], nm))
              == RecordAll(RecordAll(map[], CorpusEntries(corpus[..f], nm)),
                           FileEntries(corpus[f].name, Analyze(corpus[f].score, nm)))
  {
    CorpusEntriesSnoc(corpus, f, nm);
    RecordAllAppend(map[], CorpusEntries(corpus[..f], nm),
                    FileEntries(corpus[f].name, Analyze(corpus[f].score, nm)));
  }

  /** The corpus loop of the source: every file's score is sampled, paired
      and annotated, and its bigrams are recorded in one table. */
  method Collect(corpus: seq<ScoreFile>, nm: Namer) returns (allIntervalBigrams: Table)
    requires Parsable(corpus)
    ensures allIntervalBigrams == RecordAll(map[], CorpusEntries(corpus, nm))
    ensures Total(allIntervalBigrams) == BigramCount(corpus)
  {
    allIntervalBigrams := map[];
    for f := 0 to |corpus|
      invariant allIntervalBigrams == RecordAll(map[], CorpusEntries(corpus[..f], nm))
    {
      var onsets := GetOnsets(corpus[f].score, DefaultResolution);
      var bigrams := GetBigrams(onsets);
      var intervalBigrams := GetIntervals(bigrams, nm);
      assert intervalBigrams == Analyze(corpus[f].score, nm);
      CollectStep(corpus, f, nm);
      allIntervalBigrams := RecordFile(allIntervalBigrams, corpus[f].name, intervalBigrams);
    }
    assert corpus[..|corpus|] == corpus;
    StoredOccurrencesPerBigram(corpus, nm);
  }

  /** The first bigram of every score starts at the sentinel: its start
      offset is -1.0, its first harmonic field is "-", and each voice's
      melodic field is "X" if that voice enters with a note and "-" if it
      starts with a rest. */
  lemma FirstBigramLeavesSilence(score: Score, nm: Namer)
    requires HasElements(score) && ValidNamer(nm)
    requires |Onsets(score, DefaultResolution)| >= 2
    ensures var first := Onsets(score, DefaultResolution)[1];
            var f := FieldsOf(GetBigrams(Onsets(score, DefaultResolution))[0], nm);
            && Analyze(score, nm)[0].start == -1.0
            && f.h1 == "-"
            && f.mBass == (if first.bass.Note? then "X" else "-")
            && f.mSoprano == (if first.soprano.Note? then "X" else "-")
  {
    OnsetsBeginWithSentinel(score, DefaultResolution);
  }

  /** The driver's grid over a score whose last element starts at 1.0 has
      the three points 0.0, 0.5 and 1.0. */
  lemma GridUpToOne()
    ensures GridSize(1.0, DefaultResolution) == 3
  {
    var n := GridSize(1.0, DefaultResolution);
    assert GridTime(2, DefaultResolution) == 1.0;
    assert GridTime(3, DefaultResolution) == 1.5;
  }

  /** The events of a two-element voice starting at t. */
  lemma NonChordAtPair(x: Element, y: Element, t: real)
    ensures NonChordAt([x, y], t)
              == (if x.Single? && x.offset == t then [x.event] else [])
                 + (if y.Single? && y.offset == t then [y.event] else [])
  {
    assert [x, y][1..] == [y];
    var none: seq<Element> := [];
    assert [y][1..] == none;
  }

  /** The sampling of two voices that both move from one quarter note at
      0.0 to another at 1.0. */
  lemma SampledSteps(b1: Pitch, b2: Pitch, s1: Pitch, s2: Pitch)
    ensures var bass := [Single(0.0, Note(b1)), Single(1.0, Note(b2))];
            var soprano := [Single(0.0, Note(s1)), Single(1.0, Note(s2))];
            Sampled(bass, soprano, DefaultResolution, 3).onsets
              == [Sentinel, Onset(0.0, Note(b1), Note(s1)), Onset(1.0, Note(b2), Note(s2))]
  {
    var bass := [Single(0.0, Note(b1)), Single(1.0, Note(b2))];
    var soprano := [Single(0.0, Note(s1)), Single(1.0, Note(s2))];
    var r := DefaultResolution;
    assert GridTime(0, r) == 0.0 && GridTime(1, r) == 0.5 && GridTime(2, r) == 1.0;
    NonChordAtPair(bass[0], bass[1], 0.0);
    NonChordAtPair(soprano[0], soprano[1], 0.0);
    NonChordAtPair(bass[0], bass[1], 0.5);
    NonChordAtPair(soprano[0], soprano[1], 0.5);
    NonChordAtPair(bass[0], bass[1], 1.0);
    NonChordAtPair(soprano[0], soprano[1], 1.0);
    var o0 := Onset(0.0, Note(b1), Note(s1));
    var o1 := Onset(1.0, Note(b2), Note(s2));
    var st1 := Sampler(Note(b1), Note(s1), [Sentinel, o0]);
    assert Sampled(bass, soprano, r, 1) == st1;
    assert Sampled(bass, soprano, r, 2) == st1;
    assert Sampled(bass, soprano, r, 3) == Sampler(Note(b2), Note(s2), [Sentinel, o0, o1]);
  }

  /** The last element of the worked score starts at 1.0. */
  lemma LastOfTwoParts(b1: Pitch, b2: Pitch, s1: Pitch, s2: Pitch)
    ensures var score := Score([[Single(0.0, Note(s1)), Single(1.0, Note(s2))],
                                [Single(0.0, Note(b1)), Single(1.0, Note(b2))]]);
            HasElements(score) && LastOffset(score) == 1.0
  {
    var soprano := [Single(0.0, Note(s1)), Single(1.0, Note(s2))];
    var bass := [Single(0.0, Note(b1)), Single(1.0, Note(b2))];
    var score := Score([soprano, bass]);
    assert [soprano, bass][1..] == [bass];
    var none: seq<Part> := [];
    assert [bass][1..] == none;
    var all := Flatten(score.parts);
    assert all == soprano + (bass + Flatten(none));
    assert all == [soprano[0], soprano[1], bass[0], bass[1]];
    var last := MaxOffset(all);
    assert LastOffset(score) == last;
    assert all[1] in all;
    var i :| 0 <= i < |all| && all[i].offset == last;
    assert all[i].offset <= 1.0;
  }

  /** The worked score's sampled onsets: the sentinel, then both voices at
      0.0 and at 1.0. */
  lemma ScenarioOnsets(c: Pitch, d: Pitch, e: Pitch, f: Pitch)
    ensures var score := Score([[Single(0.0, Note(e)), Single(1.0, Note(f))],
                                [Single(0.0, Note(c)), Single(1.0, Note(d))]]);
            && HasElements(score)
            && Onsets(score, DefaultResolution)
               == [Sentinel, Onset(0.0, Note(c), Note(e)), Onset(1.0, Note(d), Note(f))]
  {
    var soprano := [Single(0.0, Note(e)), Single(1.0, Note(f))];
    var bass := [Single(0.0, Note(c)), Single(1.0, Note(d))];
    var score := Score([soprano, bass]);
    LastOfTwoParts(c, d, e, f);
    GridUpToOne();
    SampledSteps(c, d, e, f);
    assert Bass(score) == bass && Soprano(score) == soprano;
  }

  lemma BigramsOfThree(x: Onset, y: Onset, z: Onset)
    ensures GetBigrams([x, y, z]) == [(x, y), (y, z)]
  {
  }

  lemma AnnotatePair(x: Bigram, y: Bigram, nm: Namer)
    ensures AnnotateAll([x, y], nm) == [Annotate(x, nm), Annotate(y, nm)]
  {
  }

  /** A worked score: quarter notes C-D in the bass under E-F in the soprano,
      at offsets 0.0 and 1.0. The sentinel gives two bigrams, the first
      entering from silence and the second the stepwise motion. */
  lemma StepwiseScenario(c: Pitch, d: Pitch, e: Pitch, f: Pitch, nm: Namer)
    ensures var score := Score([[Single(0.0, Note(e)), Single(1.0, Note(f))],
                                [Single(0.0, Note(c)), Single(1.0, Note(d))]]);
            && HasElements(score)
            && Analyze(score, nm)
               == [IntervalBigram(-1.0, 0.0, Format(Fields("-", "X", "X", nm.name(c, e)))),
                   IntervalBigram(0.0, 1.0, Format(Fields(nm.name(c, e), nm.directedName(c, d),
                                                          nm.directedName(e, f), nm.name(d, f))))]
  {
    var score := Score([[Single(0.0, Note(e)), Single(1.0, Note(f))],
                        [Single(0.0, Note(c)), Single(1.0, Note(d))]]);
    ScenarioOnsets(c, d, e, f);
    var o0 := Onset(0.0, Note(c), Note(e));
    var o1 := Onset(1.0, Note(d), Note(f));
    BigramsOfThree(Sentinel, o0, o1);
    AnnotatePair((Sentinel, o0), (o0, o1), nm);
    assert FieldsOf((Sentinel, o0), nm) == Fields("-", "X", "X", nm.name(c, e));
    assert FieldsOf((o0, o1), nm)
           == Fields(nm.name(c, e), nm.directedName(c, d), nm.directedName(e, f), nm.name(d, f));
  }
}
