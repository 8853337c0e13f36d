/** Bigram building: every onset paired with the one after it. */
module Bigrams {
  import opened Sampling

  /** Two temporally adjacent onsets. */
  type Bigram = (Onset, Onset)

  /** Pairs up two lists element by element, stopping at the shorter one. */
  function Zip<A, B>(xs: seq<A>, ys: seq<B>): (zs: seq<(A, B)>)
    ensures |zs| == if |xs| <= |ys| then |xs| else |ys|
    ensures forall i :: 0 <= i < |zs| ==> zs[i] == (xs[i], ys[i])
  {
    if xs == [] || ys == [] then [] else [(xs[0], ys[0])] + Zip(xs[1..], ys[1..])
  }

  /** All elements but the first; empty for the empty list. */
  function Tail<A>(xs: seq<A>): seq<A>
  {
    if xs == [] then [] else xs[1..]
  }

  /** The onsets zipped with their own tail. */
  function GetBigrams(onsets: seq<Onset>): (bs: seq<Bigram>)
    ensures |bs| == if |onsets| == 0 then 0 else |onsets| - 1
    ensures forall i :: 0 <= i < |bs| ==> bs[i] == (onsets[i], onsets[i + 1])
  {
    Zip(onsets, Tail(onsets))
  }

  /** Consecutive bigrams overlap: the second onset of one is the first
      onset of the next. */
  lemma BigramsChain(onsets: seq<Onset>)
    ensures forall i :: 0 <= i < |GetBigrams(onsets)| - 1 ==>
              GetBigrams(onsets)[i].1 == GetBigrams(onsets)[i + 1].0
  {
  }

  /** The second onsets of a list of bigrams. */
  function Seconds(bs: seq<Bigram>): (os: seq<Onset>)
  {
    if bs == [] then [] else [bs[0].1] + Seconds(bs[1..])
  }

  /** Reassembles an onset list from its bigrams: the first onset of the
      first bigram followed by every bigram's second onset. */
  function Joined(bs: seq<Bigram>): seq<Onset>
  {
    if bs == [] then [] else [bs[0].0] + Seconds(bs)
  }

  lemma {:induction false} SecondsOfBigrams(onsets: seq<Onset>)
    requires |onsets| >= 1
    ensures Seconds(GetBigrams(onsets)) == onsets[1..]
  {
    if |onsets| >= 2 {
      SecondsOfBigrams(onsets[1..]);
      assert GetBigrams(onsets)[1..] == GetBigrams(onsets[1..]);
      assert onsets[1..][1..] == onsets[2..];
    }
  }

  /** No onset is lost or reordered: an onset list of two or more elements is
      recovered from its bigrams. */
  lemma BigramsDetermineOnsets(onsets: seq<Onset>)
    requires |onsets| >= 2
    ensures Joined(GetBigrams(onsets)) == onsets
  {
    SecondsOfBigrams(onsets);
  }
}
