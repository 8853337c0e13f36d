# Interval bigrams of outer voices, modelled in Dafny

This project models the core of `bigrams.py`. The script mines a corpus of
two-voice score reductions for recurring interval patterns between the bass
and the soprano. Each score goes through four stages:

1. **Onset sampling** (`getOnsets`). A grid 0, r, 2r, ... (r = 0.5 quarter
   notes by default) is walked up to the offset of the score's last element.
   The running bass and soprano events start as rests. At each grid point, a
   voice's running event is replaced when exactly one non-chord event of that
   voice starts there. The triple (offset, bass, soprano) is appended whenever
   at least one voice was replaced. The list starts with the sentinel
   (-1.0, rest, rest).
2. **Bigram building** (`getBigrams`). Each onset is paired with the next.
3. **Interval annotation** (`getIntervals`). Each bigram gets two harmonic
   fields (H1, H2) and two melodic fields (Mbass, Msoprano):
   - A rest gives the placeholder "-" or "X" instead of an interval.
   - The fields are formatted as the descriptor `(H1 [Mbass Msoprano] H2)`.
   - The descriptor comes out with the bigram's start and end offsets.
4. **Aggregation** (the `__main__` loop). Every descriptor of every file is
   recorded in one dictionary, which maps it to the list of
   (file, start, end) places where it occurs. The unique-only report keeps the
   descriptors whose list has exactly one entry.

Modules, one file each:

| file | module | contents |
|---|---|---|
| `events.dfy` | `Events` | Notes, rests, chords, parts and scores. The exact-offset query of a voice. The last offset of a score. |
| `onsets.dfy` | `Sampling` | The grid, the sampling loop as a method and as the fold `Sampled`, and its properties. |
| `bigrams.dfy` | `Bigrams` | Consecutive pairing. |
| `intervals.dfy` | `Intervals` | The placeholder rules, the descriptor format with a parser for it, and the annotation loop. |
| `aggregate.dfy` | `Aggregate` | The descriptor table, its update, the total count and the unique-key selection. |
| `corpus.dfy` | `Corpus` | The driver loop over the corpus, and a worked two-bigram score. |

Modelling decisions:

- **Offsets** are exact rationals (`real`). Grid point k lies at `k * r`.
  `GridSize` counts the grid points k ≥ 0 with `k * r < lastOffset + r`,
  which are the values `np.arange(0, lastOffset + r, r)` takes.
- **Voices.** A voice is the ordered list of its notes, rests and chords,
  each with its offset. The library's exact-offset query is `NonChordAt`. It
  keeps the non-chord events starting exactly at t, in order.
- **Soprano, bass and last offset.** The soprano is the first part and the
  bass is the last. The last offset is the largest offset of any element of
  any part, which is what the library's flattened, offset-sorted stream has at
  its end.
- **The sentinel's events.** The source initialises `b` and `s` to the
  library's rest class rather than to a rest object. The class answers
  `isRest` like a rest, so the model uses `Rest`.
- **Interval naming** belongs to the notation library. It enters as a
  `Namer`: a pair of functions on pitches for the undirected name (harmonic
  fields) and the directed name (melodic fields). `ValidNamer` states what the
  model uses about the library's names. The descriptor lemmas need it, and so
  do `Intervals.HarmonicRule` and `Intervals.MelodicRule` for the direction
  from a placeholder field back to a rest:
  - each name is a token, with no blank and no bracket;
  - no name equals the placeholders "-" or "X".
- The driver loop over files is `Corpus.Collect`. It works on a local map, as
  the script does, and its inner loop is `Corpus.RecordFile`.

What the code does at two places where it is easy to misread:

- **The sentinel opens a bigram.** Because the onset list starts with the
  sentinel, a score with one qualifying onset yields one bigram, from -1.0,
  with H1 = "-" and melodic fields "X" or "-"
  (`Corpus.FirstBigramLeavesSilence`). The score with bass C–D under soprano
  E–F yields two bigrams (`Corpus.StepwiseScenario`).
- **Rests are recorded.** The doc comment above `getOnsets` says rests are
  ignored, but the code treats a rest starting on a grid point like a note:
  it becomes the running event and is recorded
  (`Sampling.BassRestIsRecorded`).

## Model

| member | source | states |
|---|---|---|
| Sampling.GetOnsets | bigrams.py:9-39 | The sampling loop's result is the fold `Sampled` over the whole grid, whose properties are the lemmas below. |
| Sampling.GridSize | bigrams.py:26 | Grid point k ≥ 0 is visited exactly when k·r < lastOffset + r, because the end of `arange` is exclusive. |
| Events.LastOffset | bigrams.py:23-24 | No element of any part starts after the last offset, and some element starts exactly there. |
| Events.NonChordAtMembers | bigrams.py:27-30 | The query of a voice at t returns exactly the non-chord events starting at t, and as many events as there are non-chord elements starting at t, which is the count the sole-onset test uses. |
| Sampling.OnsetsBeginWithSentinel | bigrams.py:10-12 | The onset list is never empty and its first element is (-1.0, rest, rest). |
| Sampling.OnsetsStrictlyIncrease | bigrams.py:26-38 | Offsets strictly increase along the list, so no grid point is recorded twice. |
| Sampling.OnsetsOnGrid | bigrams.py:26-38 | Every onset after the sentinel lies on a grid point k·r below lastOffset + r. |
| Sampling.RecordedIffSoleOnset | bigrams.py:29-38 | A grid point is recorded if and only if at least one voice has exactly one non-chord event starting there. |
| Sampling.HeldEventsCarryForward | bigrams.py:31-38 | Each recorded voice takes its sole starting event, or else keeps the previous record's event unchanged. |
| Sampling.BassRestIsRecorded | bigrams.py:27-38 | A rest that is the bass's only event at a grid point is recorded as that onset's bass. |
| Bigrams.GetBigrams | bigrams.py:44-45 | n onsets give max(n-1, 0) pairs, and pair i is (onsets[i], onsets[i+1]). |
| Bigrams.BigramsChain | bigrams.py:45 | The second onset of pair i is the first onset of pair i+1. |
| Bigrams.BigramsDetermineOnsets | bigrams.py:45 | From two onsets on, the pairs give back the onset list exactly. |
| Intervals.GetIntervals | bigrams.py:50-92 | One annotated entry per bigram, in order; entry i has bigram i's two offsets and descriptor. |
| Intervals.AnnotateAll | bigrams.py:51-91 | Entry i is bigram i annotated, and there are as many entries as bigrams. |
| Intervals.HarmonicRule | bigrams.py:58-62 | A harmonic field is "-" exactly when either voice rests; otherwise it is the library's name of the two notes. |
| Intervals.MelodicRule | bigrams.py:65-82 | A melodic field is "X" exactly from rest to note, "-" exactly when going to a rest, and otherwise the directed interval. |
| Intervals.FormatRoundTrip | bigrams.py:91 | When the four fields are tokens, they are parsed back from the descriptor string. |
| Intervals.SameDescriptorIffSameFields | bigrams.py:91 | Two bigrams share a descriptor exactly when their four interval fields are equal. |
| Aggregate.Record | bigrams.py:148-151 | An absent descriptor gets a singleton list; a present one has the occurrence appended; every other key is unchanged. |
| Aggregate.RecordAllCollects | bigrams.py:147-151 | After the updates, a descriptor's list is its old list followed by exactly its occurrences, in order. It is a key exactly when it was one or occurs. |
| Aggregate.TotalRecordAll | bigrams.py:147-151 | The updates store one occurrence per recorded entry. |
| Aggregate.UniqueIffOccursOnce | bigrams.py:107-110 | The unique report selects a descriptor exactly when one entry carries it, and its list is then that single occurrence. |
| Corpus.RecordFile | bigrams.py:147-151 | The inner loop leaves the table with one file's entries recorded in order. |
| Corpus.FileEntriesLabel | bigrams.py:147-151 | Entry i of a file carries annotated bigram i's descriptor, the file name and its two offsets. |
| Corpus.Collect | bigrams.py:137-151 | The corpus loop builds the table of all files' entries in processing order, and it stores as many occurrences as bigrams. |
| Corpus.EntriesPerBigram | bigrams.py:144-151 | The corpus gives one entry per bigram, and each score gives one bigram fewer than its onsets. |
| Corpus.StoredOccurrencesPerBigram | bigrams.py:140-151 | Starting from an empty table, the total stored is the corpus's bigram count. |
| Corpus.FirstBigramLeavesSilence | bigrams.py:54-82 | The first bigram starts at -1.0 with H1 = "-". Each melodic field is "X" if that voice enters with a note, "-" if with a rest. |
| Corpus.StepwiseScenario | bigrams.py:9-92 | Bass C–D under soprano E–F at 0.0 and 1.0 gives exactly two descriptors. The first comes from silence; the second is the stepwise motion. |

## Left out

- Score parsing and the notation library's stream queries are not modelled. A score is given as its parts' element lists. `getElementsByOffset` is modelled as an exact-offset filter.
- Interval naming is the library's; it enters as the `Namer` parameter. `ValidNamer` is an assumption about the names, not something proved.
- Float rounding in `np.arange` and in offset comparisons is not modelled; offsets are exact rationals.
- The chord filter compares the exact type, so a subclass of the chord class would pass it. The model has one kind of chord.
- Directory listing, the `.krn` extension check and the fixed corpus path are left out. The corpus is given as the list of parsed files, in processing order.
- A file that fails to parse is not modelled.
- The progress bar is left out.
- `printAll` and `printUnique` printing is left out, along with the dictionary's key order. Only the length-1 selection is modelled (`Aggregate.UniqueKeys`).
- Sampling.GetOnsets: requires a score with at least one element. The source fails with an `IndexError` on an empty one, and that failure is not modelled.
- Sampling.GetOnsets: requires a positive resolution. The driver always passes 0.5, and `arange` with step 0 raises.
