/**
 The debug log's ring. It keeps the newest entries; when the file sink fails, a warning about that is pushed from
 inside the push that failed, and lands before the entry that was being written.
 */
module DebugLog {
  const CAPACITY := 512

  datatype Level = Debug | Info | Warn | Error

  datatype Entry = Entry(number: nat, level: Level, message: string)

  function Min(a: nat, b: nat): nat {
    if a < b then a else b
  }

  /** The `n` newest elements. */
  function Last<T>(s: seq<T>, n: nat): (r: seq<T>)
    ensures |r| == Min(|s|, n)
  {
    s[|s| - Min(|s|, n)..]
  }

  function Evict(entries: seq<Entry>): seq<Entry> {
    if |entries| >= CAPACITY then entries[1..] else entries
  }

  /** One push, at either bound. */
  lemma PushKeepsLast(history: seq<Entry>, bound: nat, entry: Entry)
    requires bound == CAPACITY || (bound == CAPACITY + 1 && |history| > CAPACITY)
    ensures Evict(Last(history, bound)) + [entry] == Last(history + [entry], bound)
  {
  }

  /** A push whose write fails: the slot is freed once, for two entries. */
  lemma FailedPush(history: seq<Entry>, warning: Entry, entry: Entry)
    ensures Evict(Evict(Last(history, CAPACITY))) + [warning] + [entry]
         == Last(history + [warning] + [entry], if |history| >= CAPACITY - 1 then CAPACITY + 1 else CAPACITY)
  {
  }

  class Log {
    var entries: seq<Entry>
    var nextSeq: nat
    var sinkOpen: bool
    /** Every entry ever pushed, in the order they entered the ring. */
    ghost var history: seq<Entry>
    /** Where in the history the warning about the sink is, once the sink has failed. */
    ghost var failed: bool
    ghost var failedAt: nat

    /** The ring grows by one for good when the sink fails with the ring full, or one short of it. */
    ghost function Bound(): nat
      reads this
    {
      if failed && failedAt >= CAPACITY - 1 then CAPACITY + 1 else CAPACITY
    }

    ghost predicate Valid()
      reads this
    {
      && entries == Last(history, Bound())
      && nextSeq == |history|
      && (failed ==> !sinkOpen && failedAt + 1 < |history|)
      && forall i | 0 <= i < |history| :: history[i].number == NumberAt(i)
    }

    /** Numbers follow the order of pushing, but for the warning and the entry after it. */
    ghost function NumberAt(i: nat): nat
      reads this
    {
      if failed && i == failedAt then i + 1 else if failed && i == failedAt + 1 then i - 1 else i
    }

    constructor (sink: bool)
      ensures Valid() && entries == [] && history == [] && !failed && sinkOpen == sink
    {
      entries, nextSeq, sinkOpen, history, failed, failedAt := [], 0, sink, [], false, 0;
    }

    /** `writes` says whether the file write, if there is one, goes through. */
    method PushMessage(level: Level, message: string, writes: bool)
      requires Valid()
      modifies this
      ensures Valid()
      ensures sinkOpen == (old(sinkOpen) && writes)
      ensures failed == (old(failed) || (old(sinkOpen) && !writes))
      ensures !old(failed) && failed ==> failedAt == |old(history)|
      ensures old(failed) ==> failedAt == old(failedAt)
      ensures |entries| > CAPACITY <==>
                |old(entries)| > CAPACITY || (old(sinkOpen) && !writes && |old(entries)| >= CAPACITY - 1)
      ensures if old(sinkOpen) && !writes
              then |history| == |old(history)| + 2 && history[..|old(history)|] == old(history)
                   && history[|old(history)|].level == Warn
                   && history[|old(history)| + 1] == Entry(old(nextSeq), level, message)
              else history == old(history) + [Entry(old(nextSeq), level, message)]
    {
      hide Last, Evict;
      var number := nextSeq;
      nextSeq := nextSeq + 1;
      var kept := Evict(entries);
      ghost var was, bound := history, Bound();
      assert entries == Last(was, bound);
      entries := kept;
      var warned := WriteToSink(writes);
      var entry := Entry(number, level, message);
      entries := entries + [entry];
      history := history + [entry];
      if warned {
        failed, failedAt := true, |was|;
        assert history == was + [history[|was|]] + [entry];
        FailedPush(was, history[|was|], entry);
      } else {
        PushKeepsLast(was, bound, entry);
      }
    }

    /** A failed write closes the sink and pushes a warning of its own. */
    method WriteToSink(writes: bool) returns (warned: bool)
      modifies this`entries, this`nextSeq, this`sinkOpen, this`history
      ensures warned == (old(sinkOpen) && !writes) && sinkOpen == (old(sinkOpen) && writes)
      ensures !warned ==> entries == old(entries) && nextSeq == old(nextSeq) && history == old(history)
      ensures warned ==>
        && nextSeq == old(nextSeq) + 1
        && |history| == |old(history)| + 1 && history[..|old(history)|] == old(history)
        && history[|old(history)|].number == old(nextSeq) && history[|old(history)|].level == Warn
        && entries == Evict(old(entries)) + [history[|old(history)|]]
    {
      warned := false;
      if !sinkOpen || writes {
        return;
      }
      sinkOpen, warned := false, true;
      var number := nextSeq;
      nextSeq := nextSeq + 1;
      if |entries| >= CAPACITY {
        entries := entries[1..];
      }
      var warning := Entry(number, Warn, "debug log sink disabled");
      entries := entries + [warning];
      history := history + [warning];
    }

    /** The newest `max` entries, oldest first. */
    method Recent(max: nat) returns (shown: seq<Entry>)
      ensures shown == Last(entries, max)
    {
      var start := if |entries| < max then 0 else |entries| - max;
      shown := entries[start..];
    }

    /** As long as the sink has not failed the ring is the last 512 entries, numbered consecutively. */
    lemma WithoutFailure()
      requires Valid() && !failed
      ensures entries == Last(history, CAPACITY) && |entries| == Min(|history|, CAPACITY)
      ensures forall i | 0 <= i < |entries| :: entries[i].number == |history| - |entries| + i
    {
    }

    /** The stated bound is exceeded exactly when the sink failed with 511 or more entries already pushed. */
    lemma OverBound()
      requires Valid()
      ensures |entries| <= CAPACITY + 1
      ensures |entries| == CAPACITY + 1 <==> failed && failedAt >= CAPACITY - 1
    {
    }

    /** Neighbours in the ring are out of order exactly at the warning and the entry pushed after it. */
    lemma OneSwap(i: nat)
      requires Valid() && i + 1 < |entries|
      ensures entries[i].number > entries[i + 1].number <==> failed && |history| - |entries| + i == failedAt
    {
      var at := |history| - |entries| + i;
      assert entries[i] == history[at] && entries[i + 1] == history[at + 1];
    }
  }

  /** The ceiling is exceeded by a log of 511 written entries and one whose write fails. */
  method OneTooMany() returns (log: Log)
    ensures fresh(log) && log.Valid() && |log.entries| == CAPACITY + 1
  {
    log := new Log(true);
    for i := 0 to CAPACITY - 1
      invariant fresh(log) && log.Valid() && log.sinkOpen && !log.failed && |log.history| == i
    {
      log.PushMessage(Debug, "written", true);
    }
    log.WithoutFailure();
    log.PushMessage(Debug, "not written", false);
    log.OverBound();
  }
}
