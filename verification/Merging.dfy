/** The AppendEntries merge, against the log the entries were cut from. */
module Merging {
  import opened Types
  import opened Protocol

  /** Where two logs have the same term at a position, they are the same up to it. */
  ghost predicate TermsDecide(log: seq<LogEntry>, target: seq<LogEntry>) {
    forall i: nat | i < |log| && i < |target| && log[i].term == target[i].term :: Agree(log, target, i + 1)
  }

  ghost predicate CutFrom(entries: seq<LogEntry>, target: seq<LogEntry>, prev: nat) {
    && prev + |entries| <= |target|
    && forall i | 0 <= i < |entries| :: entries[i] == target[prev + i]
  }

  /** Merging a stretch of `target` brings the log to agree with `target` that far, leaves it alone or
      makes it that prefix of `target`, and never gives up agreement it had. */
  lemma {:induction false} MergeAgrees(log: seq<LogEntry>, prev: nat, entries: seq<LogEntry>, target: seq<LogEntry>)
    requires prev <= |log| && Agree(log, target, prev)
    requires CutFrom(entries, target, prev) && TermsDecide(log, target)
    ensures Agree(Merge(log, prev, entries), target, prev + |entries|)
    ensures Merge(log, prev, entries) == log || Merge(log, prev, entries) == target[..prev + |entries|]
    ensures forall k :: Agree(log, target, k) ==> Agree(Merge(log, prev, entries), target, k)
    decreases |entries|
  {
    if entries != [] {
      var log' := if prev == |log| then log + [entries[0]]
                  else if log[prev].term != entries[0].term then log[..prev] + [entries[0]] else log;
      assert log' == log || log' == target[..prev + 1];
      MergeAgrees(log', prev + 1, entries[1..], target);
    }
  }

  // ---- the merge on its own, for any two logs ----

  /** The position in `entries` of the first one whose term differs from what the log holds there. */
  function FirstConflict(log: seq<LogEntry>, prev: nat, entries: seq<LogEntry>): (c: nat)
    requires prev <= |log|
    ensures c <= |entries|
    ensures c < |entries| ==> prev + c < |log| && log[prev + c].term != entries[c].term
    ensures forall k | 0 <= k < c && prev + k < |log| :: log[prev + k].term == entries[k].term
    decreases |entries|
  {
    if entries == [] || prev == |log| then |entries|
    else if log[prev].term != entries[0].term then 0
    else
      var c := FirstConflict(log, prev + 1, entries[1..]);
      assert forall k | 0 < k < 1 + c :: entries[1..][k - 1] == entries[k];
      assert c < |entries[1..]| ==> entries[1..][c] == entries[1 + c];
      1 + c
  }

  lemma {:induction false} MergeAtEnd(log: seq<LogEntry>, entries: seq<LogEntry>)
    ensures Merge(log, |log|, entries) == log + entries
    decreases |entries|
  {
    if entries != [] {
      MergeAtEnd(log + [entries[0]], entries[1..]);
      assert log + [entries[0]] + entries[1..] == log + entries;
    } else {
      assert log + entries == log;
    }
  }

  ghost function Overlaid(log: seq<LogEntry>, prev: nat, entries: seq<LogEntry>, c: nat): seq<LogEntry>
    requires prev <= |log| && c <= |entries| && (c < |entries| ==> prev + c < |log|)
  {
    if c < |entries| then log[..prev + c] + entries[c..]
    else if prev + |entries| <= |log| then log
    else log + entries[|log| - prev..]
  }

  /** Truncation happens only at the first real conflict, and then the rest of the request follows; without
      a conflict the log keeps its tail, or is extended by what it lacks. */
  lemma {:induction false} MergeIs(log: seq<LogEntry>, prev: nat, entries: seq<LogEntry>)
    requires prev <= |log|
    ensures Merge(log, prev, entries) == Overlaid(log, prev, entries, FirstConflict(log, prev, entries))
    decreases |entries|
  {
    if entries == [] {
    } else if prev == |log| {
      MergeAtEnd(log, entries);
      assert entries[0..] == entries;
    } else if log[prev].term != entries[0].term {
      MergeAtEnd(log[..prev] + [entries[0]], entries[1..]);
      assert log[..prev] + [entries[0]] + entries[1..] == log[..prev] + entries[0..];
    } else {
      MergeIs(log, prev + 1, entries[1..]);
      OverlaidStep(log, prev, entries, FirstConflict(log, prev + 1, entries[1..]));
    }
  }

  lemma OverlaidStep(log: seq<LogEntry>, prev: nat, entries: seq<LogEntry>, c: nat)
    requires prev < |log| && entries != [] && c < |entries| && (1 + c < |entries| ==> prev + 1 + c < |log|)
    ensures Overlaid(log, prev + 1, entries[1..], c) == Overlaid(log, prev, entries, 1 + c)
  {
    if 1 + c < |entries| {
      assert entries[1..][c..] == entries[1 + c..];
    } else if prev + |entries| > |log| {
      assert entries[1..][|log| - prev - 1..] == entries[|log| - prev..];
    }
  }

  /** The prefix is untouched, the request is stored term by term, and nothing at or below a position without
      conflict is lost. */
  lemma MergeStores(log: seq<LogEntry>, prev: nat, entries: seq<LogEntry>)
    requires prev <= |log|
    ensures var r := Merge(log, prev, entries);
      && Agree(r, log, prev)
      && |r| >= prev + |entries|
      && (forall k | 0 <= k < |entries| :: r[prev + k].term == entries[k].term)
      && (FirstConflict(log, prev, entries) == |entries| ==> log <= r)
  {
    MergeIs(log, prev, entries);
  }

  /** Handling the same request twice, or a shorter one with the same start later, changes nothing more. */
  lemma StalePrefixChangesNothing(log: seq<LogEntry>, prev: nat, entries: seq<LogEntry>, n: nat)
    requires prev <= |log| && n <= |entries|
    ensures |Merge(log, prev, entries)| >= prev
    ensures Merge(Merge(log, prev, entries), prev, entries[..n]) == Merge(log, prev, entries)
  {
    MergeStores(log, prev, entries);
    MergeIs(Merge(log, prev, entries), prev, entries[..n]);
  }

  /** A delayed request cut from a log the node already agrees with far enough changes nothing. */
  lemma StaleRequestChangesNothing(log: seq<LogEntry>, prev: nat, entries: seq<LogEntry>, target: seq<LogEntry>, m: nat)
    requires Agree(log, target, m) && prev + |entries| <= m && CutFrom(entries, target, prev)
    ensures Merge(log, prev, entries) == log
  {
    MergeIs(log, prev, entries);
  }

  /** The loop can equally be read from its last entry. */
  lemma {:induction false} MergeSnoc(log: seq<LogEntry>, prev: nat, entries: seq<LogEntry>, e: LogEntry)
    requires prev <= |log|
    ensures |Merge(log, prev, entries)| >= prev + |entries|
    ensures Merge(log, prev, entries + [e]) == Merge(Merge(log, prev, entries), prev + |entries|, [e])
    decreases |entries|
  {
    MergeStores(log, prev, entries);
    if entries != [] {
      var log' := if prev == |log| then log + [entries[0]]
                  else if log[prev].term != entries[0].term then log[..prev] + [entries[0]] else log;
      assert (entries + [e])[1..] == entries[1..] + [e];
      MergeSnoc(log', prev + 1, entries[1..], e);
    } else {
      assert entries + [e] == [e];
    }
  }
}
