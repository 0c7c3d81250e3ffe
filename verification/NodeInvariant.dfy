/** The invariant of one node, compaction and configuration changes included, and each operation that keeps it. */
module NodeInvariant {
  import opened Types
  import opened Node
  import opened NodeConfig
  import opened NodeLog
  import opened NodeApply
  import opened Merging
  import Protocol

  ghost predicate OnDisk(s: NodeState) {
    s.disk == Saved(s.term, s.votedFor, s.lastIncludedIndex, s.lastIncludedTerm, s.logs)
  }

  ghost predicate Ordered(s: NodeState, full: seq<LogEntry>) {
    0 <= s.lastIncludedIndex <= s.lastApplied <= s.commitIndex <= |full|
  }

  /** `full` is the log the node stands for, `done` the sequence the cluster has committed so far. */
  ghost predicate Sound(s: NodeState, full: seq<LogEntry>, done: seq<LogEntry>) {
    && Represents(s, full) && SoundEntries(full) && Configured(s) && OnDisk(s)
    && Ordered(s, full)
    && Agree(full, done, s.commitIndex)
    && Reflects(s.store, done, s.lastApplied)
  }

  /** Between critical sections, everything committed has been applied. */
  ghost predicate AtRest(s: NodeState, full: seq<LogEntry>, done: seq<LogEntry>) {
    Sound(s, full, done) && s.lastApplied == s.commitIndex
  }

  /** A node in the stable phase has not applied as much past its boundary as makes it compact. */
  predicate Settled(s: NodeState) {
    s.configState == STABLE && s.lastApplied > s.lastIncludedIndex ==> s.lastApplied - s.lastIncludedIndex < s.snapshotThreshold
  }

  predicate TermsKnown(log: seq<LogEntry>) {
    forall i | 0 <= i < |log| :: log[i].term >= 0
  }

  // ---- roles ----

  lemma FollowerKeeps(s: NodeState, full: seq<LogEntry>, done: seq<LogEntry>, term: int, leader: int)
    requires AtRest(s, full, done)
    ensures AtRest(BecomeFollower(s, term), full, done)
    ensures AtRest(BecomeFollower(s, term).(leaderId := leader), full, done)
    ensures AtRest(s.(leaderId := leader), full, done)
  {
    hide Proper, Reflects, SoundEntries, Contains, Agree;
  }

  lemma HeedKeeps(s: NodeState, full: seq<LogEntry>, done: seq<LogEntry>, term: int, leader: int)
    requires AtRest(s, full, done) && term >= s.term
    ensures var t := Heed(s, term, leader);
      AtRest(t, full, done) && t.role == Follower && t.term == term
      && t.lastIncludedIndex == s.lastIncludedIndex && t.commitIndex == s.commitIndex && t.store == s.store
      && (Settled(s) <==> Settled(t))
  {
    hide AtRest;
    FollowerKeeps(s, full, done, term, leader);
  }

  lemma ElectionKeeps(s: NodeState, full: seq<LogEntry>, done: seq<LogEntry>)
    requires AtRest(s, full, done)
    ensures var (t, r) := StartElection(s);
      && AtRest(t, full, done)
      && (if r.None? then t.role == s.role && t.term == s.term else t.role == Candidate && t.term == s.term + 1)
      && (r.Some? ==> r.value == RequestVoteArgs(t.term, s.id, |full|, LastTerm(full)))
  {
    hide Proper, Reflects, SoundEntries, Contains, Agree;
    var (t, r) := StartElection(s);
    if r.Some? {
      CompactedAnswers(t, full, t.lastIncludedIndex);
    }
  }

  lemma VoteCountKeeps(s: NodeState, full: seq<LogEntry>, done: seq<LogEntry>, asked: int, granted: seq<int>,
      voter: int, r: RequestVoteReply)
    requires AtRest(s, full, done)
    ensures var (t, _, _) := CountVote(s, asked, granted, voter, r);
      && AtRest(t, full, done)
      && (t.role == Leader && s.role != Leader ==> s.role == Candidate && t.term == s.term == asked)
      && (t.role == s.role || t.role == Follower || t.role == Leader) && t.term >= s.term
      && (t.role != Follower ==> t.term == s.term)
  {
    hide Proper, Reflects, SoundEntries, Contains, Agree, ElectionMajority;
    CompactedAnswers(s, full, s.lastIncludedIndex);
    if s.role == Candidate && s.term == asked && r.term > s.term {
      FollowerKeeps(s, full, done, r.term, NOBODY);
    }
  }

  lemma VoteKeeps(s: NodeState, full: seq<LogEntry>, done: seq<LogEntry>, a: RequestVoteArgs)
    requires AtRest(s, full, done)
    ensures var (t, _) := HandleRequestVote(s, a);
      && AtRest(t, full, done)
      && t.term >= s.term && (t.role == s.role || t.role == Follower)
      && (t.role != Follower ==> t.term == s.term)
  {
    hide Proper, Reflects, SoundEntries, Contains, Agree, InVotingConfig, Represents, CandidateUpToDate, PeersMatch;
    if a.term > s.term {
      FollowerKeeps(s, full, done, a.term, NOBODY);
      GrantKeeps(BecomeFollower(s, a.term), full, done, a.candidateId);
    }
    GrantKeeps(s, full, done, a.candidateId);
  }

  lemma GrantKeeps(s: NodeState, full: seq<LogEntry>, done: seq<LogEntry>, cand: int)
    requires AtRest(s, full, done)
    ensures AtRest(Persist(s.(votedFor := cand)), full, done)
  {
    hide Proper, Reflects, SoundEntries, Contains, Agree;
  }

  // ---- committing and applying ----

  lemma SnapshotShape(s: NodeState)
    ensures var t := MaybeCreateSnapshot(s);
      && t == s.(logs := t.logs, lastIncludedIndex := t.lastIncludedIndex, lastIncludedTerm := t.lastIncludedTerm, disk := t.disk)
      && (OnDisk(s) ==> OnDisk(t))
      && (t.lastIncludedIndex == s.lastIncludedIndex || t.lastIncludedIndex == s.lastApplied)
  {
    hide After, LogTermAt;
  }

  lemma SnapshotKeeps(s: NodeState, full: seq<LogEntry>, done: seq<LogEntry>)
    requires AtRest(s, full, done)
    ensures AtRest(MaybeCreateSnapshot(s), full, done)
    ensures MaybeCreateSnapshot(s).role == s.role && MaybeCreateSnapshot(s).term == s.term
    ensures MaybeCreateSnapshot(s).store == s.store && MaybeCreateSnapshot(s).commitIndex == s.commitIndex
  {
    hide Proper, Reflects, SoundEntries, Contains, Agree, CreateSnapshot, Represents;
    var t := MaybeCreateSnapshot(s);
    SnapshotShape(s);
    SnapshotOnFull(s, full, s.lastApplied);
    CompactedAnswers(s, full, s.lastIncludedIndex);
    CompactedAnswers(t, full, t.lastIncludedIndex);
    hide MaybeCreateSnapshot;
    ShortenedConfigured(s, t);
  }

  lemma ShortenedConfigured(s: NodeState, t: NodeState)
    requires Configured(s) && LastLogIndex(t) == LastLogIndex(s)
    requires t == s.(logs := t.logs, lastIncludedIndex := t.lastIncludedIndex, lastIncludedTerm := t.lastIncludedTerm, disk := t.disk)
    ensures Configured(t)
  {
    hide Proper, LastLogIndex;
  }

  lemma ApplyKeeps(s: NodeState, full: seq<LogEntry>, done: seq<LogEntry>)
    requires Sound(s, full, done)
    ensures var t := ApplyCommitted(s);
      && AtRest(t, full, done)
      && t.term == s.term && t.commitIndex == s.commitIndex
      && (t.role == s.role || t.role == Follower)
      && t.store == ApplyAll(s.store, full, s.lastApplied, s.commitIndex)
      && (TermsKnown(full) ==> Settled(t))
  {
    hide Proper, Configured, Reflects, SoundEntries, Contains, Agree, ApplyAll, MaybeCreateSnapshot, ApplyLoop, Settled,
      TermsKnown;
    ApplyLoopIs(s, full);
    ApplyAllAgrees(s.store, full, done, s.lastApplied, s.commitIndex) by { AgreeBounds(full, done, s.commitIndex); }
    AgreeBounds(full, done, s.commitIndex);
    ApplyAllKeepsReflects(s.store, done, s.lastApplied, s.commitIndex);
    SnapshotKeeps(ApplyLoop(s), full, done);
    if TermsKnown(full) {
      SnapshotSettles(ApplyLoop(s), full);
    }
  }

  /** Compaction moves the boundary by at least the threshold. */
  lemma BoundaryJumps(s: NodeState)
    ensures var t := MaybeCreateSnapshot(s);
      t.lastIncludedIndex == s.lastIncludedIndex || t.lastIncludedIndex >= s.lastIncludedIndex + s.snapshotThreshold
  {
    hide After, LogTermAt;
  }

  lemma SnapshotSettles(s: NodeState, full: seq<LogEntry>)
    requires Represents(s, full) && s.lastIncludedIndex <= s.lastApplied <= |full| && TermsKnown(full)
    ensures Settled(MaybeCreateSnapshot(s))
  {
    hide After;
    CompactedAnswers(s, full, s.lastApplied);
  }

  lemma AgreeBounds<T>(a: seq<T>, b: seq<T>, k: int)
    requires Agree(a, b, k)
    ensures 0 <= k <= |a| && k <= |b|
  {
  }

  // ---- AppendEntries ----

  /** Whether the request passes the consistency check. */
  predicate Accepted(s: NodeState, a: AppendEntriesArgs) {
    && InVotingConfig(s, a.leaderId) && a.term >= s.term
    && a.prevLogIndex >= s.lastIncludedIndex
    && HasLogAt(s, a.prevLogIndex) && LogTermAt(s, a.prevLogIndex) == a.prevLogTerm
  }

  ghost function FullAfterAppend(s: NodeState, full: seq<LogEntry>, a: AppendEntriesArgs): seq<LogEntry> {
    if Accepted(s, a) && 0 <= a.prevLogIndex <= |full| then Protocol.Merge(full, a.prevLogIndex, a.entries) else full
  }

  function CommitAfter(s: NodeState, full: seq<LogEntry>, a: AppendEntriesArgs): int {
    if !Accepted(s, a) || a.leaderCommit <= s.commitIndex then s.commitIndex
    else if a.leaderCommit < |full| then a.leaderCommit else |full|
  }

  /** What a request may be: entries numbered on from prevLogIndex, and a commit index that is right. */
  ghost predicate Plausible(s: NodeState, full: seq<LogEntry>, done: seq<LogEntry>, a: AppendEntriesArgs) {
    && Numbered(a.entries, a.prevLogIndex + 1) && SoundEntries(a.entries)
    && var full' := FullAfterAppend(s, full, a);
    Agree(full', done, if CommitAfter(s, full', a) > s.commitIndex then CommitAfter(s, full', a) else s.commitIndex)
  }

  lemma MergeKeeps(s: NodeState, full: seq<LogEntry>, done: seq<LogEntry>, prev: nat, entries: seq<LogEntry>)
    requires AtRest(s, full, done) && s.role == Follower
    requires s.lastIncludedIndex <= prev <= |full| && Numbered(entries, prev + 1) && SoundEntries(entries)
    requires Agree(Protocol.Merge(full, prev, entries), done, s.commitIndex)
    ensures AtRest(Merged(s, entries), Protocol.Merge(full, prev, entries), done)
    ensures Merged(s, entries) == s.(logs := Merged(s, entries).logs, disk := Merged(s, entries).disk)
  {
    hide Proper, Reflects, Contains, SoundEntry, MergeAll, Changes;
    MergedOnFull(s, full, prev, entries);
    MergeSound(full, prev, entries);
  }

  lemma MergeSound(full: seq<LogEntry>, prev: nat, entries: seq<LogEntry>)
    requires prev <= |full| && SoundEntries(full) && SoundEntries(entries)
    ensures SoundEntries(Protocol.Merge(full, prev, entries))
  {
    hide SoundEntry;
    MergeIs(full, prev, entries);
    var r, c := Protocol.Merge(full, prev, entries), FirstConflict(full, prev, entries);
    forall i | 0 <= i < |r|
      ensures SoundEntry(r[i])
    {
      if i < |full| && (c == |entries| || i < prev + c) {
        assert r[i] == full[i];
      } else {
        assert r[i] == entries[i - prev];
      }
    }
  }

  /** AppendEntries with a boundary below the request keeps the invariant and does to the whole log what the
      uncompacted merge does; the reply says whether it did. */
  lemma AppendKeeps(s: NodeState, full: seq<LogEntry>, done: seq<LogEntry>, a: AppendEntriesArgs)
    requires AtRest(s, full, done) && Plausible(s, full, done, a)
    ensures var (t, r) := HandleAppendEntries(s, a);
      var full' := FullAfterAppend(s, full, a);
      && AtRest(t, full', done)
      && t.commitIndex == CommitAfter(s, full', a)
      && t.term >= s.term && (t.role == s.role || t.role == Follower)
      && (t.role != Follower ==> t == s && full' == full)
      && (r.success ==> r.term == a.term)
      && (r.success <==> InVotingConfig(s, a.leaderId) && a.term >= s.term && (a.prevLogIndex < s.lastIncludedIndex || Accepted(s, a)))
      && (Settled(s) && TermsKnown(full') ==> Settled(t))
  {
    hide AtRest, Agree, InVotingConfig, MergeAll, Changes, Commit, Merged, Heed, Protocol.Merge, Numbered, SoundEntries,
      Settled, TermsKnown;
    if InVotingConfig(s, a.leaderId) && a.term >= s.term {
      var t := Heed(s, a.term, a.leaderId);
      HeedKeeps(s, full, done, a.term, a.leaderId);
      SameAnswers(s, t, full, done, a);
      LastIs(t, full, done);
      if Accepted(s, a) {
        AcceptKeeps(t, full, done, a);
      }
    }
  }

  lemma SameAnswers(s: NodeState, t: NodeState, full: seq<LogEntry>, done: seq<LogEntry>, a: AppendEntriesArgs)
    requires AtRest(s, full, done) && AtRest(t, full, done) && t == Heed(s, a.term, a.leaderId)
    ensures HasLogAt(t, a.prevLogIndex) == HasLogAt(s, a.prevLogIndex)
    ensures LogTermAt(t, a.prevLogIndex) == LogTermAt(s, a.prevLogIndex)
    ensures a.prevLogIndex >= s.lastIncludedIndex ==> (HasLogAt(s, a.prevLogIndex) <==> 0 <= a.prevLogIndex <= |full|)
  {
    hide Proper, Reflects, Contains, SoundEntries, Configured, Agree;
    if a.prevLogIndex >= s.lastIncludedIndex {
      CompactedAnswers(s, full, a.prevLogIndex);
    }
  }

  lemma AcceptKeeps(t: NodeState, full: seq<LogEntry>, done: seq<LogEntry>, a: AppendEntriesArgs)
    requires AtRest(t, full, done) && t.role == Follower
    requires 0 <= t.lastIncludedIndex <= a.prevLogIndex <= |full|
    requires Numbered(a.entries, a.prevLogIndex + 1) && SoundEntries(a.entries)
    requires var full' := Protocol.Merge(full, a.prevLogIndex, a.entries);
      var c := if a.leaderCommit < |full'| then a.leaderCommit else |full'|;
      Agree(full', done, if a.leaderCommit > t.commitIndex && c > t.commitIndex then c else t.commitIndex)
    ensures var full' := Protocol.Merge(full, a.prevLogIndex, a.entries);
      var u := Commit(Merged(t, a.entries), a.leaderCommit);
      && AtRest(u, full', done) && u.role == Follower && u.term == t.term
      && u.commitIndex == (if a.leaderCommit <= t.commitIndex then t.commitIndex
                           else if a.leaderCommit < |full'| then a.leaderCommit else |full'|)
      && (Settled(t) && TermsKnown(full') ==> Settled(u))
  {
    hide AtRest, MergeAll, Changes, Merged, ApplyCommitted, Protocol.Merge, Numbered, SoundEntries, Agree, TermsKnown;
    var full' := Protocol.Merge(full, a.prevLogIndex, a.entries);
    LastIs(t, full, done);
    ShorterAgrees(full', done, t.commitIndex);
    MergeKeeps(t, full, done, a.prevLogIndex, a.entries);
    var m := Merged(t, a.entries);
    LastIs(m, full', done);
    if a.leaderCommit > t.commitIndex {
      var c := if a.leaderCommit < |full'| then a.leaderCommit else |full'|;
      RaiseKeeps(m, full', done, c);
    }
  }

  lemma ShorterAgrees<T>(a: seq<T>, b: seq<T>, k: int)
    ensures forall j :: Agree(a, b, j) && 0 <= k <= j ==> Agree(a, b, k)
  {
  }

  lemma LastIs(s: NodeState, full: seq<LogEntry>, done: seq<LogEntry>)
    requires AtRest(s, full, done)
    ensures LastLogIndex(s) == |full| && 0 <= s.commitIndex <= |full| && Represents(s, full)
    ensures 0 <= s.lastIncludedIndex
  {
    hide Proper, Reflects, Contains, SoundEntries, Configured, Agree;
    CompactedAnswers(s, full, s.lastIncludedIndex);
  }

  /** Raising the commit index within what is committed, and applying. */
  lemma RaiseKeeps(s: NodeState, full: seq<LogEntry>, done: seq<LogEntry>, c: int)
    requires AtRest(s, full, done) && s.commitIndex <= c <= |full| && Agree(full, done, c)
    ensures var t := ApplyCommitted(s.(commitIndex := c));
      && AtRest(t, full, done) && t.commitIndex == c && t.term == s.term
      && (t.role == s.role || t.role == Follower)
      && t.store == ApplyAll(s.store, full, s.lastApplied, c)
      && (TermsKnown(full) ==> Settled(t))
  {
    hide Proper, Reflects, Contains, SoundEntries, Agree, ApplyCommitted, AtRest, Settled, TermsKnown;
    RaisedSound(s, full, done, c);
    ApplyKeeps(s.(commitIndex := c), full, done);
  }

  lemma RaisedSound(s: NodeState, full: seq<LogEntry>, done: seq<LogEntry>, c: int)
    requires AtRest(s, full, done) && s.commitIndex <= c <= |full| && Agree(full, done, c)
    ensures Sound(s.(commitIndex := c), full, done) && s.lastApplied >= 0
  {
    hide Proper, Reflects, Contains, SoundEntries, Agree;
  }

  // ---- the leader's side ----

  lemma OwnKeeps(s: NodeState, full: seq<LogEntry>, done: seq<LogEntry>, op: CommandType, key: string, value: string,
                 oldCfg: seq<PeerInfo>, newCfg: seq<PeerInfo>)
    requires AtRest(s, full, done) && Proper(oldCfg) && Proper(newCfg)
    ensures AtRest(AppendOwn(s, op, key, value, oldCfg, newCfg),
                   full + [LogEntry(s.term, |full| + 1, op, key, value, oldCfg, newCfg)], done)
  {
    hide Proper, Reflects, Contains;
    AppendOnFull(s, full, op, key, value, oldCfg, newCfg);
    CompactedAnswers(s, full, s.lastIncludedIndex);
  }

  lemma TracksOf(s: NodeState, full: seq<LogEntry>, done: seq<LogEntry>)
    requires AtRest(s, full, done)
    ensures Tracks(s) && s.lastIncludedIndex <= LastLogIndex(s)
  {
    LastIs(s, full, done);
  }

  lemma ArraysKeep(s: NodeState, full: seq<LogEntry>, done: seq<LogEntry>, t: NodeState)
    requires AtRest(s, full, done) && Tracks(t)
    requires t == s.(nextIndex := t.nextIndex, matchIndex := t.matchIndex)
    ensures AtRest(t, full, done)
  {
    hide Proper, Reflects, SoundEntries, Contains, Agree, Tracks;
  }

  lemma ReplyKeeps(s: NodeState, full: seq<LogEntry>, done: seq<LogEntry>, i: nat, a: AppendEntriesArgs, asked: int,
      r: AppendEntriesReply)
    requires AtRest(s, full, done) && i < |s.nextIndex| && i < |s.matchIndex|
    requires s.role == Leader && s.term == asked ==> 0 <= a.prevLogIndex + |a.entries| <= |full|
    ensures var t := TakeAppendReply(s, i, a, asked, r);
      && AtRest(t, full, done) && t.term >= s.term && (t.role == s.role || t.role == Follower)
      && (t.role != Follower ==> t.term == s.term)
  {
    hide AtRest;
    LastIs(s, full, done);
    FollowerKeeps(s, full, done, r.term, NOBODY);
    if s.role == Leader && s.term == asked && r.term <= s.term {
      TracksOf(s, full, done);
      ArraysKeep(s, full, done, TakeAppendReply(s, i, a, asked, r));
    }
  }

  lemma InstallReplyKeeps(s: NodeState, full: seq<LogEntry>, done: seq<LogEntry>, i: nat, asked: int,
      r: InstallSnapshotReply)
    requires AtRest(s, full, done) && i < |s.nextIndex| && i < |s.matchIndex|
    ensures var t := TakeInstallReply(s, i, asked, r);
      && AtRest(t, full, done) && t.term >= s.term && (t.role == s.role || t.role == Follower)
      && (t.role != Follower ==> t.term == s.term)
  {
    hide AtRest;
    LastIs(s, full, done);
    FollowerKeeps(s, full, done, r.term, NOBODY);
    if s.role == Leader && s.term == asked && r.term <= s.term {
      TracksOf(s, full, done);
      ArraysKeep(s, full, done, TakeInstallReply(s, i, asked, r));
    }
  }

  lemma AdvanceKeeps(s: NodeState, full: seq<LogEntry>, done: seq<LogEntry>)
    requires AtRest(s, full, done)
    requires Agree(full, done, LargestCommittable(s, LastLogIndex(s)))
    ensures var t := UpdateCommitIndex(s);
      && AtRest(t, full, done) && t.term == s.term && (t.role == s.role || t.role == Follower)
      && (Settled(s) && TermsKnown(full) ==> Settled(t))
  {
    hide AtRest, CanCommit, ApplyCommitted, TermsKnown;
    LastIs(s, full, done);
    if s.role == Leader {
      RaiseKeeps(s, full, done, LargestCommittable(s, LastLogIndex(s)));
    }
  }

  // ---- snapshots and restart ----

  /** The entries a snapshot stands for are not in the request; `prefix` is what they were. */
  ghost function FullAfterInstall(full: seq<LogEntry>, prefix: seq<LogEntry>): seq<LogEntry> {
    if |prefix| < |full| then prefix + full[|prefix|..] else prefix
  }

  predicate Installs(s: NodeState, a: InstallSnapshotArgs) {
    a.term >= s.term && a.lastIncludedIndex > s.lastIncludedIndex
  }

  /** A snapshot of `prefix`, committed, whose store had applied up to `at`. */
  ghost predicate SnapshotOf(a: InstallSnapshotArgs, prefix: seq<LogEntry>, done: seq<LogEntry>, at: int) {
    && |prefix| == a.lastIncludedIndex <= at && Numbered(prefix, 1) && SoundEntries(prefix)
    && a.lastIncludedTerm == TermAt(prefix, a.lastIncludedIndex)
    && Agree(prefix, done, |prefix|)
    && Reflects(a.kvData, done, at)
  }

  lemma InstallKeeps(s: NodeState, full: seq<LogEntry>, done: seq<LogEntry>, a: InstallSnapshotArgs,
      prefix: seq<LogEntry>, at: nat)
    requires AtRest(s, full, done)
    requires Installs(s, a) ==> SnapshotOf(a, prefix, done, at) && s.lastApplied <= at
    ensures var (t, _) := HandleInstallSnapshot(s, a);
      && AtRest(t, if Installs(s, a) then FullAfterInstall(full, prefix) else full, done)
      && t.term >= s.term && (t.role == Follower || t == s)
  {
    hide AtRest, SnapshotOf, After, Heed;
    if a.term >= s.term {
      var t := Heed(s, a.term, a.leaderId);
      HeedKeeps(s, full, done, a.term, a.leaderId);
      if Installs(s, a) {
        assert t.lastApplied == s.lastApplied by { HeedApplied(s, a.term, a.leaderId); }
        InstalledRests(t, full, done, a, prefix, at);
      }
    }
  }

  lemma HeedApplied(s: NodeState, term: int, leader: int)
    ensures Heed(s, term, leader).lastApplied == s.lastApplied
  {
  }

  function Installed(t: NodeState, a: InstallSnapshotArgs): NodeState {
    Persist(t.(store := a.kvData, logs := After(t.logs, a.lastIncludedIndex),
               lastIncludedIndex := a.lastIncludedIndex, lastIncludedTerm := a.lastIncludedTerm,
               commitIndex := if t.commitIndex >= a.lastIncludedIndex then t.commitIndex else a.lastIncludedIndex,
               lastApplied := if t.lastApplied >= a.lastIncludedIndex then t.lastApplied else a.lastIncludedIndex))
  }

  lemma InstalledRests(t: NodeState, full: seq<LogEntry>, done: seq<LogEntry>, a: InstallSnapshotArgs,
      prefix: seq<LogEntry>, at: nat)
    requires AtRest(t, full, done) && t.role == Follower && a.lastIncludedIndex > t.lastIncludedIndex
    requires SnapshotOf(a, prefix, done, at) && t.lastApplied <= at
    ensures AtRest(Installed(t, a), FullAfterInstall(full, prefix), done)
  {
    hide Proper, Contains, Reflects, After, Represents, SoundEntries, Numbered, Agree;
    InstallOnFull(t, full, a, prefix);
    InstallAgrees(full, prefix, done, t.commitIndex);
    RewindReflects(a.kvData, done, at, if t.lastApplied >= a.lastIncludedIndex then t.lastApplied else a.lastIncludedIndex);
  }

  /** The retained suffix is not compared with the snapshot, but it stays numbered without a gap. */
  lemma InstallOnFull(t: NodeState, full: seq<LogEntry>, a: InstallSnapshotArgs, prefix: seq<LogEntry>)
    requires Represents(t, full) && SoundEntries(full) && SoundEntries(prefix)
    requires |prefix| == a.lastIncludedIndex > t.lastIncludedIndex && Numbered(prefix, 1)
    requires a.lastIncludedTerm == TermAt(prefix, a.lastIncludedIndex)
    ensures Represents(Installed(t, a), FullAfterInstall(full, prefix))
    ensures SoundEntries(FullAfterInstall(full, prefix))
  {
    hide SoundEntries, Numbered, After, FullAfterInstall;
    AfterIsSuffix(t.logs, t.lastIncludedIndex, a.lastIncludedIndex) by { SuffixNumbered(full, t.lastIncludedIndex); }
    SpliceSuffix(full, prefix, t.lastIncludedIndex);
    SpliceSound(full, prefix);
  }

  lemma SuffixNumbered(full: seq<LogEntry>, n: int)
    requires Numbered(full, 1) && 0 <= n <= |full|
    ensures Numbered(full[n..], n + 1)
  {
  }

  lemma SpliceSuffix(full: seq<LogEntry>, prefix: seq<LogEntry>, b: int)
    requires 0 <= b <= |full| && b < |prefix|
    ensures |FullAfterInstall(full, prefix)| >= |prefix|
    ensures FullAfterInstall(full, prefix)[|prefix|..] == if |prefix| >= |full| then [] else full[b..][|prefix| - b..]
    ensures TermAt(FullAfterInstall(full, prefix), |prefix|) == TermAt(prefix, |prefix|)
  {
  }

  lemma SpliceSound(full: seq<LogEntry>, prefix: seq<LogEntry>)
    requires Numbered(full, 1) && Numbered(prefix, 1) && SoundEntries(full) && SoundEntries(prefix)
    ensures Numbered(FullAfterInstall(full, prefix), 1) && SoundEntries(FullAfterInstall(full, prefix))
  {
    hide SoundEntry;
    var full' := FullAfterInstall(full, prefix);
    assert forall i | 0 <= i < |full'| :: full'[i] == if i < |prefix| then prefix[i] else full[i];
  }

  lemma InstallAgrees(full: seq<LogEntry>, prefix: seq<LogEntry>, done: seq<LogEntry>, commit: int)
    requires Agree(full, done, commit) && Agree(prefix, done, |prefix|)
    ensures Agree(FullAfterInstall(full, prefix), done, if commit >= |prefix| then commit else |prefix|)
    ensures |FullAfterInstall(full, prefix)| >= commit
  {
  }

  /** The node's own dump is such a snapshot: it reflects what was applied, not just the boundary it is labelled with. */
  lemma DumpIsSnapshot(s: NodeState, full: seq<LogEntry>, done: seq<LogEntry>)
    requires AtRest(s, full, done)
    ensures 0 <= s.lastIncludedIndex <= |full|
    ensures SnapshotOf(BuildInstall(s), full[..s.lastIncludedIndex], done, s.lastApplied)
  {
    hide Proper, Contains, Reflects, SoundEntry;
  }

  lemma RestartKeeps(s: NodeState, full: seq<LogEntry>, done: seq<LogEntry>, address: (string, int),
      others: seq<PeerInfo>)
    requires AtRest(s, full, done) && Proper([PeerInfo(s.id, address.0, address.1)] + others)
    ensures var t := Restart(s, address, others);
      && AtRest(t, full, done)
      && t.term == s.term && t.votedFor == s.votedFor && t.logs == s.logs && t.role == Follower
      && t.lastIncludedIndex == s.lastIncludedIndex && t.lastIncludedTerm == s.lastIncludedTerm
  {
    hide Reflects, SoundEntries, Agree, Proper, Contains, Node.After, Configured;
    AfterIsSuffix(s.logs, s.lastIncludedIndex, s.lastIncludedIndex);
    RewindReflects(s.store, done, s.lastApplied, s.lastIncludedIndex);
    ShorterAgrees(full, done, s.lastIncludedIndex);
    RestartConfigured(s, address, others);
  }

  lemma RestartConfigured(s: NodeState, address: (string, int), others: seq<PeerInfo>)
    requires Proper([PeerInfo(s.id, address.0, address.1)] + others)
    ensures Configured(Restart(s, address, others))
  {
    hide Proper, Contains, Node.After;
    StartPeers([PeerInfo(s.id, address.0, address.1)] + others, PeerInfo(s.id, address.0, address.1), others);
    ProperIsDistinct(others);
  }

  lemma ProperIsDistinct(cfg: seq<PeerInfo>)
    requires Proper(cfg)
    ensures Distinct(cfg)
  {
  }

  lemma StartPeers(cfg: seq<PeerInfo>, self: PeerInfo, others: seq<PeerInfo>)
    requires cfg == [self] + others && Proper(cfg)
    ensures Proper([]) && Proper(others)
    ensures forall x :: Contains(others, x) <==> x != self.id && Contains(cfg, x)
  {
    forall i, j | 0 <= i < j < |others|
      ensures others[i].id != others[j].id
    {
      assert cfg[i + 1] == others[i] && cfg[j + 1] == others[j];
    }
    forall i | 0 <= i < |others|
      ensures others[i].id != NOBODY
    {
      assert cfg[i + 1] == others[i];
    }
    forall x
      ensures Contains(others, x) <==> x != self.id && Contains(cfg, x)
    {
      if Contains(others, x) {
        var i :| 0 <= i < |others| && others[i].id == x;
        assert cfg[i + 1].id == x && cfg[0].id == self.id;
      }
    }
  }
}
