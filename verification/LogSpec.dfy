/** What the replicated log computes, as functions on plain sequences, and the
    facts about them that the rest of the model uses. */
module LogSpec {
  import opened Protocol

  type Log = seq<Entry>

  function LastIndex(log: Log): int {
    if log == [] then 0 else log[|log| - 1].index
  }

  function LastTerm(log: Log): int {
    if log == [] then 0 else log[|log| - 1].term
  }

  /** Entries number themselves from 1: what OnMetaOperation sets up and every
      honest batch carries on. */
  ghost predicate Contiguous(log: Log) {
    forall k :: 0 <= k < |log| ==> log[k].index == k + 1
  }

  predicate SameKey(a: Entry, b: Entry) {
    a.index == b.index && a.term == b.term
  }

  /** The first position of an entry with the index and term of `e`, or the length. */
  function Find(log: Log, e: Entry): (p: nat)
    ensures p <= |log|
    ensures p < |log| ==> SameKey(log[p], e)
    ensures forall k :: 0 <= k < p ==> !SameKey(log[k], e)
  {
    if log == [] || SameKey(log[0], e) then 0 else 1 + Find(log[1..], e)
  }

  /** `batch` laid over `log` from position `p`: a local entry whose index and term
      equal those of the batch entry laid on it stays, everything else is the batch's,
      and nothing of the log survives behind the batch. */
  function Overlay(log: Log, p: nat, batch: Log): (r: Log)
    requires p <= |log|
    ensures |r| == p + |batch|
  {
    seq(p + |batch|, k requires 0 <= k < p + |batch| =>
      if k < p then log[k]
      else if k < |log| && SameKey(log[k], batch[k - p]) then log[k]
      else batch[k - p])
  }

  /** The log after a batch append, or None when the batch is refused. */
  function Appended(log: Log, batch: Log): Option<Log>
    requires batch != []
  {
    if log == [] || batch[0].index == LastIndex(log) + 1 then
      Some(log + batch)
    else
      var p := Find(log, batch[0]);
      if p < |log| then Some(Overlay(log, p, batch)) else None
  }

  /** The entries whose index is above `start`, in order. */
  function Above(log: Log, start: int): Log {
    if log == [] then []
    else (if log[0].index > start then [log[0]] else []) + Above(log[1..], start)
  }

  /** Entries of the two logs that meet at one position under one key are one entry. */
  ghost predicate KeysDecide(log: Log, p: nat, batch: Log) {
    forall k :: p <= k < |log| && k - p < |batch| && SameKey(log[k], batch[k - p]) ==> log[k] == batch[k - p]
  }

  // ---------------------------------------------------------------- batch append

  /** Where keys decide entries, laying a batch over a log is cutting the log at the
      batch's first position and appending the batch. */
  lemma OverlayReplaces(log: Log, p: nat, batch: Log)
    requires p <= |log| && KeysDecide(log, p, batch)
    ensures Overlay(log, p, batch) == log[..p] + batch
  {
    var r := Overlay(log, p, batch);
    forall k | 0 <= k < |r| ensures r[k] == (log[..p] + batch)[k] {
      if p <= k < |log| {
        assert SameKey(log[k], batch[k - p]) ==> log[k] == batch[k - p];
      }
    }
  }

  /** In a contiguous log, a key is found at the position its index names. */
  lemma FindPosition(log: Log, e: Entry)
    requires Contiguous(log)
    ensures Find(log, e) < |log| <==> 1 <= e.index <= |log| && log[e.index - 1].term == e.term
    ensures Find(log, e) < |log| ==> Find(log, e) == e.index - 1
  {
    var p := Find(log, e);
    if p < |log| {
      assert log[p].index == p + 1;
    } else if 1 <= e.index <= |log| {
      assert log[e.index - 1].index == e.index;
      assert !SameKey(log[e.index - 1], e);
    }
  }

  /** A batch append, exactly: it is accepted when the log is empty, when the batch starts
      right behind the log, or when the log holds the batch's first entry; the new log is
      the old one cut in front of the batch, followed by the batch; indices keep naming
      positions. */
  lemma AppendedExactly(log: Log, batch: Log)
    requires batch != [] && Contiguous(log)
    requires forall k :: 0 <= k < |batch| ==> batch[k].index == batch[0].index + k
    requires log == [] ==> batch[0].index == 1
    requires batch[0].index >= 1 && KeysDecide(log, batch[0].index - 1, batch)
    ensures var p := batch[0].index - 1;
            var r := Appended(log, batch);
            && (r.Some? <==> p == |log| || (p < |log| && log[p].term == batch[0].term))
            && (r.Some? ==> r.value == log[..p] + batch && Contiguous(r.value))
  {
    var p := batch[0].index - 1;
    if log == [] || batch[0].index == LastIndex(log) + 1 {
      assert p == |log|;
      assert log[..p] == log;
    } else {
      FindPosition(log, batch[0]);
      if Find(log, batch[0]) < |log| {
        OverlayReplaces(log, p, batch);
      }
    }
    var r := Appended(log, batch);
    if r.Some? {
      forall k | 0 <= k < |r.value| ensures r.value[k].index == k + 1 {
        if k >= p {
          assert r.value[k] == batch[k - p];
        }
      }
    }
  }

  // ---------------------------------------------------------------- the cut above an index

  lemma {:induction false} AboveSplit(a: Log, b: Log, start: int)
    requires forall k :: 0 <= k < |a| ==> a[k].index <= start
    requires forall k :: 0 <= k < |b| ==> b[k].index > start
    ensures Above(a + b, start) == b
  {
    if a != [] {
      assert (a + b)[1..] == a[1..] + b;
      AboveSplit(a[1..], b, start);
    } else if b != [] {
      assert a + b == b;
      assert b == [] + b[1..] || b == [b[0]] + b[1..];
      assert b[1..] == [] + b[1..];
      AboveSplit([], b[1..], start);
    } else {
      assert a + b == [];
    }
  }

  /** In a contiguous log the entries above an index are its suffix from that position. */
  lemma AboveContiguous(log: Log, start: nat)
    requires Contiguous(log)
    ensures Above(log, start) == if start < |log| then log[start..] else []
  {
    if start < |log| {
      assert log == log[..start] + log[start..];
      AboveSplit(log[..start], log[start..], start);
    } else {
      assert log == log + [];
      AboveSplit(log, [], start);
    }
  }

  // ---------------------------------------------------------------- the cursor that stays

  /** The merge loop with a cursor that is not moved past an entry it has just pushed
      (an index in place of the invalidated iterator), and the erase behind it. */
  function StaleMerge(log: Log, cursor: nat, batch: Log): Log
    requires cursor <= |log|
    decreases |batch|
  {
    if batch == [] then log[..cursor]
    else if cursor < |log| then
      if SameKey(batch[0], log[cursor]) then StaleMerge(log, cursor + 1, batch[1..])
      else StaleMerge(log[cursor := batch[0]], cursor + 1, batch[1..])
    else StaleMerge(log + [batch[0]], cursor, batch[1..])
  }

  /** Of the entries that reach past the log's end, that loop keeps every second one. */
  lemma {:induction false} StaleMergeLength(log: Log, cursor: nat, batch: Log)
    requires cursor <= |log|
    requires forall k :: 0 <= k < |batch| - 1 ==> batch[k].index < batch[k + 1].index
    ensures |StaleMerge(log, cursor, batch)| ==
            if cursor + |batch| <= |log| then cursor + |batch| else |log| + (cursor + |batch| - |log|) / 2
    decreases |batch|
  {
    if batch == [] {
    } else if cursor < |log| {
      var log' := if SameKey(batch[0], log[cursor]) then log else log[cursor := batch[0]];
      StaleMergeLength(log', cursor + 1, batch[1..]);
    } else if |batch| == 1 {
      var log' := log + [batch[0]];
      assert StaleMerge(log', cursor, batch[1..]) == log'[..cursor];
    } else {
      var log' := log + [batch[0]];
      var rest := batch[1..];
      assert rest[0] == batch[1] && !SameKey(rest[0], log'[cursor]);
      var log'' := log'[cursor := rest[0]];
      assert StaleMerge(log', cursor, rest) == StaleMerge(log'', cursor + 1, rest[1..]);
      forall k | 0 <= k < |rest[1..]| - 1 ensures rest[1..][k].index < rest[1..][k + 1].index {
        assert rest[1..][k] == batch[k + 2] && rest[1..][k + 1] == batch[k + 3];
      }
      StaleMergeLength(log'', cursor + 1, rest[1..]);
    }
  }

  /** While the batch stays inside the log the cursor that stays does no harm. */
  lemma {:induction false} StaleMergeInside(log: Log, cursor: nat, batch: Log)
    requires cursor + |batch| <= |log|
    ensures StaleMerge(log, cursor, batch) == Overlay(log, cursor, batch)
    decreases |batch|
  {
    var r := Overlay(log, cursor, batch);
    if batch == [] {
      assert r == log[..cursor];
    } else {
      var log' := if SameKey(batch[0], log[cursor]) then log else log[cursor := batch[0]];
      StaleMergeInside(log', cursor + 1, batch[1..]);
      var r' := Overlay(log', cursor + 1, batch[1..]);
      forall k | 0 <= k < |r| ensures r[k] == r'[k] {
        if k > cursor {
          assert batch[1..][k - (cursor + 1)] == batch[k - cursor];
        }
      }
      assert r == r';
    }
  }

  /** The exact condition: with a cursor that stays, the merge is the intended one if and
      only if the batch ends inside the log. */
  lemma StaleMergeExactly(log: Log, batch: Log)
    requires batch != [] && Find(log, batch[0]) < |log|
    requires forall k :: 0 <= k < |batch| - 1 ==> batch[k].index < batch[k + 1].index
    ensures var p := Find(log, batch[0]);
            StaleMerge(log, p, batch) == Overlay(log, p, batch) <==> p + |batch| <= |log|
  {
    var p := Find(log, batch[0]);
    StaleMergeLength(log, p, batch);
    if p + |batch| <= |log| {
      StaleMergeInside(log, p, batch);
    }
  }

  /** So an entry is lost: of three entries of which the log has the first, the second is pushed, the
      cursor stays on it, and the third takes its place. */
  lemma StaleMergeLoses(a: Entry, b: Entry, c: Entry, d: Entry)
    requires !SameKey(a, b) && !SameKey(d, c)
    ensures Find([a, b], b) == 1
    ensures StaleMerge([a, b], 1, [b, c, d]) == [a, b, d]
    ensures Overlay([a, b], 1, [b, c, d]) == [a, b, c, d]
  {
    assert [a, b][1..] == [b];
    assert [b, c, d][1..] == [c, d] && [c, d][1..] == [d] && [d][1..] == [];
    assert [a, b] + [c] == [a, b, c] && [a, b, c][2 := d] == [a, b, d] && [a, b, d][..3] == [a, b, d];
    assert StaleMerge([a, b], 2, [c, d]) == StaleMerge([a, b, c], 2, [d]) == StaleMerge([a, b, d], 3, []);
    assert Overlay([a, b], 1, [b, c, d]) == [a, b, c, d];
  }
}
