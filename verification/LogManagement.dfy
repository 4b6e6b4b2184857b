/** The in-memory log (storage/LogManager.cpp): a deque of entries the methods overwrite,
    extend and cut in place, and the last committed index. */
module LogManagement {
  import opened Protocol
  import opened LogSpec

  class LogManager {
    var memoryLog: seq<Entry>
    var lastCommittedIndex: int

    constructor ()
      ensures memoryLog == [] && lastCommittedIndex == 0
    {
      memoryLog, lastCommittedIndex := [], 0;
    }

    function GetLastLogIndex(): int
      reads this
    {
      LastIndex(memoryLog)
    }

    function GetLastLogTerm(): int
      reads this
    {
      LastTerm(memoryLog)
    }

    function GetLastCommitIndex(): int
      reads this
    {
      if memoryLog == [] then 0 else lastCommittedIndex
    }

    /** Reading the last entry of an empty deque is undefined, so the log must not be empty. */
    method SetLastCommitIndex(newIndex: int)
      requires memoryLog != []
      modifies this`lastCommittedIndex
      ensures lastCommittedIndex == if newIndex <= LastIndex(memoryLog) then newIndex else old(lastCommittedIndex)
    {
      if newIndex <= memoryLog[|memoryLog| - 1].index {
        lastCommittedIndex := newIndex;
      }
    }

    /** A client's entry takes the next index. */
    method Append(newEntry: Entry) returns (stored: Entry)
      modifies this`memoryLog
      ensures stored == newEntry.(index := |old(memoryLog)| + 1)
      ensures memoryLog == old(memoryLog) + [stored]
    {
      stored := newEntry.(index := |memoryLog| + 1);
      memoryLog := memoryLog + [stored];
    }

    /** A leader's batch. After a push the cursor moves past the pushed entry. */
    method AppendBatch(batch: seq<Entry>) returns (ok: bool)
      requires batch != []
      modifies this`memoryLog
      ensures ok == Appended(old(memoryLog), batch).Some?
      ensures memoryLog == if ok then Appended(old(memoryLog), batch).value else old(memoryLog)
    {
      if memoryLog == [] || batch[0].index == memoryLog[|memoryLog| - 1].index + 1 {
        PushAll(batch);
        return true;
      }
      var cursor := FindFirstSame(batch[0]);
      if cursor < |memoryLog| {
        MergeAt(cursor, batch);
        return true;
      }
      return false;
    }

    method PushAll(batch: seq<Entry>)
      modifies this`memoryLog
      ensures memoryLog == old(memoryLog) + batch
    {
      for n := 0 to |batch|
        invariant memoryLog == old(memoryLog) + batch[..n]
      {
        memoryLog := memoryLog + [batch[n]];
      }
      assert batch[..|batch|] == batch;
    }

    /** The overwriting loop from the first common entry on, and the erase of what the
        batch leaves behind it. */
    method MergeAt(start: nat, batch: seq<Entry>)
      requires start < |memoryLog|
      modifies this`memoryLog
      ensures memoryLog == Overlay(old(memoryLog), start, batch)
    {
      ghost var was := memoryLog;
      ghost var goal := Overlay(was, start, batch);
      var cursor := start;
      for n := 0 to |batch|
        invariant cursor == start + n <= |memoryLog|
        invariant |memoryLog| == if cursor <= |was| then |was| else cursor
        invariant forall k :: 0 <= k < cursor ==> memoryLog[k] == goal[k]
        invariant forall k :: cursor <= k < |was| ==> memoryLog[k] == was[k]
      {
        if cursor < |memoryLog| {
          if !SameKey(batch[n], memoryLog[cursor]) {
            memoryLog := memoryLog[cursor := batch[n]];
          }
        } else {
          memoryLog := memoryLog + [batch[n]];
        }
        cursor := cursor + 1;
      }
      if cursor != |memoryLog| {
        memoryLog := memoryLog[..cursor];
      }
      assert memoryLog == goal;
    }

    method FindFirstSame(e: Entry) returns (p: nat)
      ensures p == Find(memoryLog, e)
    {
      p := 0;
      while p < |memoryLog| && !SameKey(memoryLog[p], e)
        invariant p <= |memoryLog|
        invariant forall k :: 0 <= k < p ==> !SameKey(memoryLog[k], e)
      {
        p := p + 1;
      }
    }

    /** The search from the back: the last entry with that index, or none. */
    method GetEntry(index: int) returns (r: Option<Entry>)
      ensures r.None? <==> forall k :: 0 <= k < |memoryLog| ==> memoryLog[k].index != index
      ensures r.Some? ==> exists k :: 0 <= k < |memoryLog| && memoryLog[k] == r.value && r.value.index == index
                                      && forall l :: k < l < |memoryLog| ==> memoryLog[l].index != index
      ensures Contiguous(memoryLog) ==> r == if 1 <= index <= |memoryLog| then Some(memoryLog[index - 1]) else None
    {
      var k := |memoryLog|;
      while k > 0
        invariant 0 <= k <= |memoryLog|
        invariant forall l :: k <= l < |memoryLog| ==> memoryLog[l].index != index
      {
        k := k - 1;
        if memoryLog[k].index == index {
          return Some(memoryLog[k]);
        }
      }
      return None;
    }

    /** The binary search for the first entry above `start`, and the copy of what follows. */
    method GetEntriesStartAt(start: int) returns (entries: seq<Entry>)
      requires forall k, l :: 0 <= k < l < |memoryLog| ==> memoryLog[k].index <= memoryLog[l].index
      ensures entries == Above(memoryLog, start)
    {
      var lo, hi := 0, |memoryLog|;
      while lo < hi
        invariant 0 <= lo <= hi <= |memoryLog|
        invariant forall k :: 0 <= k < lo ==> memoryLog[k].index <= start
        invariant forall k :: hi <= k < |memoryLog| ==> memoryLog[k].index > start
      {
        var mid := (lo + hi) / 2;
        if memoryLog[mid].index <= start {
          lo := mid + 1;
        } else {
          hi := mid;
        }
      }
      entries := [];
      for k := lo to |memoryLog|
        invariant entries == memoryLog[lo..k]
      {
        entries := entries + [memoryLog[k]];
      }
      assert memoryLog == memoryLog[..lo] + memoryLog[lo..];
      AboveSplit(memoryLog[..lo], memoryLog[lo..], start);
    }
  }
}
