/** The corpus-wide table from descriptor strings to the list of places where
    each descriptor occurs, and the selection of descriptors seen once. */
module Aggregate {

  /** Where a bigram was found: the file and the offsets of its two onsets. */
  datatype Occurrence = Occurrence(file: string, start: real, end: real)

  type Table = map<string, seq<Occurrence>>

  /** One annotated bigram on its way into the table. */
  datatype Entry = Entry(descriptor: string, occurrence: Occurrence)

  /** One dictionary update: a new key gets a singleton list, an existing
      key gets the occurrence appended at the end; other keys are untouched. */
  function Record(m: Table, d: string, o: Occurrence): (m': Table)
    ensures m'.Keys == m.Keys + {d}
    ensures m'[d] == if d in m then m[d] + [o] else [o]
    ensures forall k :: k in m && k != d ==> m'[k] == m[k]
  {
    if d !in m then m[d := [o]] else m[d := m[d] + [o]]
  }

  /** The table after recording the entries es one after another. */
  function RecordAll(m: Table, es: seq<Entry>): Table
  {
    if es == [] then m
    else
      var last := es[|es| - 1];
      Record(RecordAll(m, es[..|es| - 1]), last.descriptor, last.occurrence)
  }

  lemma RecordAllSnoc(m: Table, es: seq<Entry>, e: Entry)
    ensures RecordAll(m, es + [e]) == Record(RecordAll(m, es), e.descriptor, e.occurrence)
  {
    assert (es + [e])[..|es|] == es;
  }

  /** Recording a + b is recording a, then b. */
  lemma {:induction false} RecordAllAppend(m: Table, a: seq<Entry>, b: seq<Entry>)
    ensures RecordAll(m, a + b) == RecordAll(RecordAll(m, a), b)
  {
    if b != [] {
      var init, e := b[..|b| - 1], b[|b| - 1];
      assert b == init + [e];
      assert a + b == (a + init) + [e];
      RecordAllSnoc(m, a + init, e);
      RecordAllAppend(m, a, init);
      RecordAllSnoc(RecordAll(m, a), init, e);
    } else {
      assert a + b == a;
    }
  }

  /** The occurrences among es recorded under descriptor d, in order. */
  function OccurrencesOf(es: seq<Entry>, d: string): seq<Occurrence>
  {
    if es == [] then []
    else
      var last := es[|es| - 1];
      OccurrencesOf(es[..|es| - 1], d) + (if last.descriptor == d then [last.occurrence] else [])
  }

  /** The list kept under d, empty when d is not a key. */
  function Listed(m: Table, d: string): seq<Occurrence>
  {
    if d in m then m[d] else []
  }

  /** Recording keeps, under each descriptor, what was there before followed
      by exactly the entries with that descriptor, in processing order; a
      descriptor is a key exactly when it was a key or some entry has it. */
  lemma {:induction false} RecordAllCollects(m: Table, es: seq<Entry>, d: string)
    ensures d in RecordAll(m, es) <==> d in m || OccurrencesOf(es, d) != []
    ensures Listed(RecordAll(m, es), d) == Listed(m, d) + OccurrencesOf(es, d)
  {
    if es != [] {
      var init, e := es[..|es| - 1], es[|es| - 1];
      RecordAllCollects(m, init, d);
      assert RecordAll(m, es) == Record(RecordAll(m, init), e.descriptor, e.occurrence);
      assert OccurrencesOf(es, d)
             == OccurrencesOf(init, d) + (if e.descriptor == d then [e.occurrence] else []);
    }
  }

  /** The summed list lengths of the keys ks. */
  ghost function SumLengths(m: Table, ks: set<string>): nat
    requires ks <= m.Keys
    decreases ks
  {
    if ks == {} then 0
    else
      var k :| k in ks;
      |m[k]| + SumLengths(m, ks - {k})
  }

  /** The number of occurrences stored in the table. */
  ghost function Total(m: Table): nat
  {
    SumLengths(m, m.Keys)
  }

  lemma SumLengthsRemove(m: Table, ks: set<string>, k: string)
    requires ks <= m.Keys && k in ks
    ensures SumLengths(m, ks) == |m[k]| + SumLengths(m, ks - {k})
    decreases ks
  {
    var j :| j in ks && SumLengths(m, ks) == |m[j]| + SumLengths(m, ks - {j});
    if j != k {
      SumLengthsRemove(m, ks - {j}, k);
      SumLengthsRemove(m, ks - {k}, j);
      assert ks - {j} - {k} == ks - {k} - {j};
    }
  }

  lemma SumLengthsAgree(m1: Table, m2: Table, ks: set<string>)
    requires ks <= m1.Keys && ks <= m2.Keys
    requires forall k :: k in ks ==> m1[k] == m2[k]
    ensures SumLengths(m1, ks) == SumLengths(m2, ks)
    decreases ks
  {
    if ks != {} {
      var j :| j in ks && SumLengths(m1, ks) == |m1[j]| + SumLengths(m1, ks - {j});
      SumLengthsRemove(m2, ks, j);
      SumLengthsAgree(m1, m2, ks - {j});
    }
  }

  /** One dictionary update stores exactly one more occurrence. */
  lemma TotalRecord(m: Table, d: string, o: Occurrence)
    ensures Total(Record(m, d, o)) == Total(m) + 1
  {
    var m' := Record(m, d, o);
    SumLengthsRemove(m', m'.Keys, d);
    SumLengthsAgree(m, m', m.Keys - {d});
    if d in m {
      SumLengthsRemove(m, m.Keys, d);
      assert m'.Keys - {d} == m.Keys - {d};
    } else {
      assert m'.Keys - {d} == m.Keys;
      assert m.Keys - {d} == m.Keys;
    }
  }

  /** The table stores one occurrence per recorded entry. */
  lemma {:induction false} TotalRecordAll(m: Table, es: seq<Entry>)
    ensures Total(RecordAll(m, es)) == Total(m) + |es|
  {
    if es != [] {
      TotalRecordAll(m, es[..|es| - 1]);
      var last := es[|es| - 1];
      TotalRecord(RecordAll(m, es[..|es| - 1]), last.descriptor, last.occurrence);
    }
  }

  /** The descriptors the unique-only report prints: those whose list has
      exactly one occurrence. */
  function UniqueKeys(m: Table): set<string>
  {
    set k | k in m && |m[k]| == 1
  }

  /** Starting from an empty table, a descriptor is reported as unique exactly
      when one entry carries it, and then its list is that one occurrence;
      a descriptor carried by k > 1 entries keeps all k in processing order. */
  lemma UniqueIffOccursOnce(es: seq<Entry>, d: string)
    ensures d in UniqueKeys(RecordAll(map[], es)) <==> |OccurrencesOf(es, d)| == 1
    ensures d in RecordAll(map[], es) ==> RecordAll(map[], es)[d] == OccurrencesOf(es, d)
  {
    RecordAllCollects(map[], es, d);
  }
}
