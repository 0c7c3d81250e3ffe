/**
 The compacted log against the whole log it stands for: what a node would hold had it never
 discarded an entry. Every handler does to the whole log what the uncompacted protocol does.
 */
module NodeLog {
  import opened Types
  import opened Node
  import opened Merging
  import Protocol

  ghost predicate Numbered(logs: seq<LogEntry>, first: int) {
    forall i | 0 <= i < |logs| :: logs[i].index == first + i
  }

  /** `full` is what the log would be if nothing had been discarded. */
  ghost predicate Represents(s: NodeState, full: seq<LogEntry>) {
    && 0 <= s.lastIncludedIndex <= |full|
    && s.logs == full[s.lastIncludedIndex..]
    && s.lastIncludedTerm == TermAt(full, s.lastIncludedIndex)
    && Numbered(full, 1)
  }

  /** From the snapshot boundary up, the four accessors answer as on the whole log. */
  lemma CompactedAnswers(s: NodeState, full: seq<LogEntry>, i: int)
    requires Represents(s, full) && i >= s.lastIncludedIndex
    ensures LastLogIndex(s) == |full| && LastLogTerm(s) == LastTerm(full)
    ensures HasLogAt(s, i) <==> i <= |full|
    ensures LogTermAt(s, i) == TermAt(full, i)
  {
  }

  lemma UpToDateOnFull(s: NodeState, full: seq<LogEntry>, lastIndex: nat, lastTerm: int)
    requires Represents(s, full)
    ensures CandidateUpToDate(s, lastIndex, lastTerm) <==> Protocol.UpToDate(lastIndex, lastTerm, full)
  {
    CompactedAnswers(s, full, s.lastIncludedIndex);
  }

  // ---- the loops over entries ----

  lemma {:induction false} AfterIsSuffix(logs: seq<LogEntry>, boundary: int, index: int)
    requires Numbered(logs, boundary + 1)
    ensures After(logs, index) ==
      if index <= boundary then logs else if index >= boundary + |logs| then [] else logs[index - boundary..]
    decreases |logs|
  {
    if logs != [] {
      AfterIsSuffix(logs[..|logs| - 1], boundary, index);
    }
  }

  /** Index arithmetic on the compacted log is position arithmetic on the whole one. */
  lemma {:induction false} MergeOnFull(full: seq<LogEntry>, boundary: nat, prev: nat, entries: seq<LogEntry>)
    requires boundary <= prev <= |full|
    requires Numbered(full, 1) && Numbered(entries, prev + 1)
    ensures var r := Protocol.Merge(full, prev, entries);
      && |r| >= prev + |entries|
      && Numbered(r, 1)
      && MergeAll(full[boundary..], boundary, entries) == r[boundary..]
      && Agree(r, full, prev)
    decreases |entries|
  {
    hide Protocol.Merge, Agree, MergeOne;
    MergeStores(full, prev, entries);
    if entries == [] {
      NoMerge(full, prev);
    } else {
      var n := |entries| - 1;
      MergeOnFull(full, boundary, prev, entries[..n]);
      assert entries == entries[..n] + [entries[n]];
      MergeSnoc(full, prev, entries[..n], entries[n]);
      MergeOneOnFull(Protocol.Merge(full, prev, entries[..n]), boundary, prev + n, entries[n]);
    }
  }

  lemma NoMerge(full: seq<LogEntry>, prev: nat)
    requires prev <= |full|
    ensures Protocol.Merge(full, prev, []) == full
  {
  }

  lemma MergeOneOnFull(full: seq<LogEntry>, boundary: nat, at: nat, e: LogEntry)
    requires boundary <= at <= |full|
    requires Numbered(full, 1) && e.index == at + 1
    ensures var r := Protocol.Merge(full, at, [e]);
      && Numbered(r, 1) && |r| >= boundary
      && MergeOne(full[boundary..], boundary, e) == r[boundary..]
  {
    MergeIs(full, at, [e]);
    assert [e][0..] == [e];
  }

  lemma {:induction false} ChangesIfDifferent(logs: seq<LogEntry>, boundary: int, entries: seq<LogEntry>)
    ensures !Changes(logs, boundary, entries) ==> MergeAll(logs, boundary, entries) == logs
    decreases |entries|
  {
    if entries != [] {
      ChangesIfDifferent(logs, boundary, entries[..|entries| - 1]);
    }
  }

  lemma {:induction false} EntriesOnFull(s: NodeState, full: seq<LogEntry>, next: int, last: int)
    requires Represents(s, full) && s.lastIncludedIndex < next && last <= |full| && next <= last + 1
    ensures EntriesBetween(s, next, last) == full[next - 1..last]
    decreases last - next
  {
    if next <= last {
      EntriesOnFull(s, full, next, last - 1);
    }
  }

  // ---- what the log operations do to the whole log ----

  lemma AppendOnFull(s: NodeState, full: seq<LogEntry>, op: CommandType, key: string, value: string,
                     oldCfg: seq<PeerInfo>, newCfg: seq<PeerInfo>)
    requires Represents(s, full)
    ensures Represents(AppendOwn(s, op, key, value, oldCfg, newCfg),
                       full + [LogEntry(s.term, |full| + 1, op, key, value, oldCfg, newCfg)])
  {
    CompactedAnswers(s, full, s.lastIncludedIndex);
  }

  lemma MergedOnFull(s: NodeState, full: seq<LogEntry>, prev: nat, entries: seq<LogEntry>)
    requires Represents(s, full) && s.lastIncludedIndex <= prev <= |full| && Numbered(entries, prev + 1)
    ensures Represents(Merged(s, entries), Protocol.Merge(full, prev, entries))
  {
    MergeOnFull(full, s.lastIncludedIndex, prev, entries);
    ChangesIfDifferent(s.logs, s.lastIncludedIndex, entries);
    assert TermAt(Protocol.Merge(full, prev, entries), s.lastIncludedIndex) == TermAt(full, s.lastIncludedIndex);
  }

  /** Compaction moves the boundary; the log it stands for stays the same. */
  lemma SnapshotOnFull(s: NodeState, full: seq<LogEntry>, upto: int)
    requires Represents(s, full) && upto <= |full|
    ensures Represents(CreateSnapshot(s, upto), full)
  {
    if s.lastIncludedIndex < upto {
      CompactedAnswers(s, full, upto);
      AfterIsSuffix(s.logs, s.lastIncludedIndex, upto);
    }
  }

  /** A request built by a leader is a stretch of its whole log. */
  lemma BuildOnFull(s: NodeState, full: seq<LogEntry>, next: int)
    requires Represents(s, full) && s.lastIncludedIndex < next <= |full| + 1
    ensures var a := BuildAppend(s, next);
      && a.prevLogTerm == TermAt(full, next - 1)
      && a.entries == full[next - 1..]
  {
    CompactedAnswers(s, full, next - 1);
    EntriesOnFull(s, full, next, |full|);
  }
}
