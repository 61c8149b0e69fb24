/** The replicated log as a value: lookups, the merge of an accepted append, and the
    block hashes a stretch of the log carries. */
module RaftLog {
  import opened Types

  /** Index i lives at position i - 1: the only shape the engine ever builds. */
  ghost predicate WellFormed(log: seq<Entry>) {
    forall k :: 0 <= k < |log| ==> log[k].index == k + 1
  }

  function LastIndex(log: seq<Entry>): nat {
    if log == [] then 0 else log[|log| - 1].index
  }

  function LastTerm(log: seq<Entry>): nat {
    if log == [] then 0 else log[|log| - 1].term
  }

  function TermAt(log: seq<Entry>, index: nat): Option<nat> {
    if index == 0 then Some(0)
    else if index <= |log| then Some(log[index - 1].term)
    else None
  }

  predicate ContiguousAfter(prev: nat, entries: seq<Entry>) {
    forall k :: 0 <= k < |entries| ==> entries[k].index == prev + k + 1
  }

  /** Offset, from k on, of the first entry the log does not already hold with the same term. */
  function NewFrom(log: seq<Entry>, prev: nat, entries: seq<Entry>, k: nat): (r: nat)
    requires k <= |entries|
    ensures k <= r <= |entries|
    ensures prev + k <= |log| ==> prev + r <= |log|
    decreases |entries| - k
  {
    if k == |entries| || prev + k >= |log| || log[prev + k].term != entries[k].term then k
    else NewFrom(log, prev, entries, k + 1)
  }

  function FirstNew(log: seq<Entry>, prev: nat, entries: seq<Entry>): (k: nat)
    ensures k <= |entries|
    ensures prev <= |log| ==> prev + k <= |log|
  {
    NewFrom(log, prev, entries, 0)
  }

  /** The offset is exact: terms agree before it and differ, or the log ends, at it. */
  lemma {:induction false} NewFromExact(log: seq<Entry>, prev: nat, entries: seq<Entry>, k: nat)
    requires k <= |entries|
    ensures var r := NewFrom(log, prev, entries, k);
      && (forall j :: k <= j < r ==> prev + j < |log| && log[prev + j].term == entries[j].term)
      && (r < |entries| && prev + r < |log| ==> log[prev + r].term != entries[r].term)
    decreases |entries| - k
  {
    if !(k == |entries| || prev + k >= |log| || log[prev + k].term != entries[k].term) {
      NewFromExact(log, prev, entries, k + 1);
    }
  }

  lemma FirstNewExact(log: seq<Entry>, prev: nat, entries: seq<Entry>)
    ensures var k := FirstNew(log, prev, entries);
      && (forall j :: 0 <= j < k ==> prev + j < |log| && log[prev + j].term == entries[j].term)
      && (k < |entries| && prev + k < |log| ==> log[prev + k].term != entries[k].term)
  {
    NewFromExact(log, prev, entries, 0);
  }

  /** The log after an accepted append. */
  function Merge(log: seq<Entry>, prev: nat, entries: seq<Entry>): seq<Entry>
    requires prev <= |log|
  {
    var k := FirstNew(log, prev, entries);
    if k == |entries| then log else log[..prev + k] + entries[k..]
  }

  /** The suffix an accepted append throws away. */
  function Discarded(log: seq<Entry>, prev: nat, entries: seq<Entry>): seq<Entry>
    requires prev <= |log|
  {
    var k := FirstNew(log, prev, entries);
    if k == |entries| then [] else log[prev + k..]
  }

  /** Hashes of the entries that carry a block, in log order. */
  function BlockHashes(entries: seq<Entry>): seq<BlockHash> {
    if entries == [] then []
    else (if entries[0].IsNoop() then [] else [entries[0].hash]) + BlockHashes(entries[1..])
  }

  lemma {:induction false} BlockHashesConcat(a: seq<Entry>, b: seq<Entry>)
    ensures BlockHashes(a + b) == BlockHashes(a) + BlockHashes(b)
  {
    if a == [] {
      assert a + b == b;
    } else {
      assert (a + b)[1..] == a[1..] + b;
      BlockHashesConcat(a[1..], b);
    }
  }

  /** An accepted append keeps the log up to `prev`, installs every sent entry's term, and
      either changes nothing or ends exactly at the last sent entry. */
  lemma MergeShape(log: seq<Entry>, prev: nat, entries: seq<Entry>)
    requires prev <= |log|
    ensures var m := Merge(log, prev, entries);
      && prev + |entries| <= |m|
      && m[..prev] == log[..prev]
      && (m == log || |m| == prev + |entries|)
      && (forall j :: 0 <= j < |entries| ==> m[prev + j].term == entries[j].term)
      && (m == log || m == log[..prev + FirstNew(log, prev, entries)] + entries[FirstNew(log, prev, entries)..])
  {
    FirstNewExact(log, prev, entries);
    var k := FirstNew(log, prev, entries);
    var m := Merge(log, prev, entries);
    if k < |entries| {
      assert m[..prev] == log[..prev];
      forall j | 0 <= j < |entries| ensures m[prev + j].term == entries[j].term {
        if j < k {
          assert m[prev + j] == log[prev + j];
        } else {
          assert m[prev + j] == entries[j];
        }
      }
    }
  }

  /** A prefix the append does not reach is kept. */
  lemma MergeKeepsPrefix(log: seq<Entry>, prev: nat, entries: seq<Entry>, c: nat)
    requires prev <= |log| && c <= |log|
    requires FirstNew(log, prev, entries) < |entries| ==> c <= prev + FirstNew(log, prev, entries)
    ensures var m := Merge(log, prev, entries); c <= |m| && m[..c] == log[..c]
  {
    SpliceKeepsPrefix(log, entries, prev + FirstNew(log, prev, entries), FirstNew(log, prev, entries), c);
  }

  lemma SpliceKeepsPrefix(log: seq<Entry>, entries: seq<Entry>, at: nat, k: nat, c: nat)
    requires at <= |log| && k <= |entries|
    ensures c <= at ==> (log[..at] + entries[k..])[..c] == log[..c]
  {
  }

  lemma MergeWellFormed(log: seq<Entry>, prev: nat, entries: seq<Entry>)
    requires prev <= |log| && WellFormed(log) && ContiguousAfter(prev, entries)
    ensures WellFormed(Merge(log, prev, entries))
  {
    var k := FirstNew(log, prev, entries);
    var m := Merge(log, prev, entries);
    if k < |entries| {
      assert prev + k <= |log|;
      forall i | 0 <= i < |m| ensures m[i].index == i + 1 {
        if i < prev + k {
          assert m[i] == log[i];
        } else {
          assert m[i] == entries[i - prev];
        }
      }
    }
  }

  /** What is discarded plus what is kept is the old log. */
  lemma MergeConserves(log: seq<Entry>, prev: nat, entries: seq<Entry>)
    requires prev <= |log|
    ensures var k := FirstNew(log, prev, entries); var m := Merge(log, prev, entries);
      && |log| - |Discarded(log, prev, entries)| <= |m|
      && log == m[..|log| - |Discarded(log, prev, entries)|] + Discarded(log, prev, entries)
  {
  }
}
