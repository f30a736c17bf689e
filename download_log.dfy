/** The module-level `downloadHistory` array: the download handler pushes an
    entry and trims the array to its last 100 entries (`slice(-100)`), and
    the history handler answers with `slice(-10).reverse()`. */
module DownloadLog {
  import opened JsValues

  /** Entries kept after a push. */
  const CAPACITY: nat := 100

  /** Entries returned by a history read. */
  const PAGE_SIZE: nat := 10

  /** One `historyItem`. `id` is `Date.now()` and `timestamp` is
      `new Date().toISOString()`, both taken from the caller; `url`, `format`
      and `resolution` are whatever the request body held. */
  datatype Entry = Entry(id: int, url: Value, format: Value, resolution: Value, timestamp: string)

  function Min(a: int, b: int): int {
    if a <= b then a else b
  }

  /** `s.slice(-n)` for a positive `n`: the last `min(n, |s|)` elements of
      `s`, in their order. */
  function Newest<T>(s: seq<T>, n: nat): (r: seq<T>)
    requires n > 0
    ensures |r| == Min(n, |s|)
    ensures forall k :: 0 <= k < |r| ==> r[k] == s[|s| - |r| + k]
  {
    if |s| <= n then s else s[|s| - n..]
  }

  /** `Array.prototype.reverse` on a copy: element `k` of the result is
      element `|s| - 1 - k` of `s`. */
  function Reversed<T>(s: seq<T>): (r: seq<T>)
    ensures |r| == |s|
    ensures forall k :: 0 <= k < |s| ==> r[k] == s[|s| - 1 - k]
  {
    if s == [] then [] else [s[|s| - 1]] + Reversed(s[..|s| - 1])
  }

  /** The log after `push(e)` and the trim: the newest `CAPACITY` entries of
      `log + [e]`. It never holds more than `CAPACITY` entries, grows by one
      while there is room and otherwise drops exactly the oldest entry; `e`
      is always the last entry. */
  function AfterRecord(log: seq<Entry>, e: Entry): (r: seq<Entry>)
    ensures |r| == Min(|log| + 1, CAPACITY)
    ensures |r| > 0 && r[|r| - 1] == e
    ensures |log| < CAPACITY ==> r == log + [e]
    ensures |log| == CAPACITY ==> r == log[1..] + [e]
  {
    var pushed := log + [e];
    var r := Newest(pushed, CAPACITY);
    assert |log| == CAPACITY ==> r == log[1..] + [e] by {
      if |log| == CAPACITY {
        assert forall k :: 0 <= k < |r| ==> r[k] == (log[1..] + [e])[k];
      }
    }
    r
  }

  /** `downloadHistory.slice(-10).reverse()`: the newest `PAGE_SIZE` entries,
      most recent first. */
  function Recent(log: seq<Entry>): (r: seq<Entry>)
    ensures |r| == Min(PAGE_SIZE, |log|)
    ensures forall k :: 0 <= k < |r| ==> r[k] == log[|log| - 1 - k]
  {
    Reversed(Newest(log, PAGE_SIZE))
  }

  /** The log after recording `entries` one after the other. */
  function RecordAll(log: seq<Entry>, entries: seq<Entry>): seq<Entry>
    decreases |entries|
  {
    if entries == [] then log else RecordAll(AfterRecord(log, entries[0]), entries[1..])
  }

  /** Trimming early loses nothing that a later trim would keep. */
  lemma NewestOfAppended<T>(s: seq<T>, t: seq<T>, n: nat)
    requires n > 0
    ensures Newest(Newest(s, n) + t, n) == Newest(s + t, n)
  {
    if |s| > n {
      var x := s + t;
      var d := |s| - n;
      assert Newest(s, n) + t == x[d..];
      if |t| > 0 {
        assert x[d..][|t|..] == x[|x| - n..];
      }
    }
  }

  /** Recording any number of entries in turn, starting from a log the
      server can hold, leaves exactly the newest `CAPACITY` of all entries
      ever recorded, in insertion order. */
  lemma {:induction false} RecordAllKeepsNewest(log: seq<Entry>, entries: seq<Entry>)
    requires |log| <= CAPACITY
    ensures RecordAll(log, entries) == Newest(log + entries, CAPACITY)
    decreases |entries|
  {
    if entries == [] {
      assert log + entries == log;
    } else {
      var e := entries[0];
      RecordAllKeepsNewest(AfterRecord(log, e), entries[1..]);
      NewestOfAppended(log + [e], entries[1..], CAPACITY);
      assert log + [e] + entries[1..] == log + entries;
    }
  }

  /** Starting empty, once at least `CAPACITY` entries have been recorded
      the log is the last `CAPACITY` of them. */
  lemma FillPastCapacity(entries: seq<Entry>)
    requires |entries| >= CAPACITY
    ensures RecordAll([], entries) == entries[|entries| - CAPACITY..]
  {
    var empty: seq<Entry> := [];
    RecordAllKeepsNewest(empty, entries);
    assert empty + entries == entries;
  }

  /** After 105 records the log holds records 6 to 105. */
  lemma HundredFiveRecords(entries: seq<Entry>)
    requires |entries| == 105
    ensures |RecordAll([], entries)| == 100
    ensures RecordAll([], entries) == entries[5..]
  {
    FillPastCapacity(entries);
  }

  /** After recording entries with ids 1 to 20 into an empty log, a history
      read gives ids 20 down to 11. */
  lemma TwentyEntriesHistory(entries: seq<Entry>)
    requires |entries| == 20
    requires forall k :: 0 <= k < 20 ==> entries[k].id == k + 1
    ensures |Recent(RecordAll([], entries))| == 10
    ensures forall k :: 0 <= k < 10 ==> Recent(RecordAll([], entries))[k].id == 20 - k
  {
    var empty: seq<Entry> := [];
    RecordAllKeepsNewest(empty, entries);
    assert empty + entries == entries;
    assert RecordAll([], entries) == entries;
  }

  /** The entry just recorded heads the next history read. */
  lemma RecordedEntryComesFirst(log: seq<Entry>, e: Entry)
    ensures |Recent(AfterRecord(log, e))| > 0 && Recent(AfterRecord(log, e))[0] == e
  {
  }

  /** The process-wide `downloadHistory` array. */
  class DownloadHistory {
    var entries: seq<Entry>

    /** The capacity invariant. */
    ghost predicate Valid()
      reads this
    {
      |entries| <= CAPACITY
    }

    /** `let downloadHistory = []`. */
    constructor ()
      ensures Valid() && entries == []
    {
      entries := [];
    }

    /** `downloadHistory.push(historyItem)`, then `slice(-100)` when the
        array is longer than 100. */
    method Record(e: Entry)
      modifies this
      ensures entries == AfterRecord(old(entries), e)
      ensures Valid()
    {
      entries := entries + [e];
      if |entries| > CAPACITY {
        entries := entries[|entries| - CAPACITY..];
      }
    }
  }
}
