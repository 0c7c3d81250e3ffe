/** Things the node promises only under a condition: what a successful AppendEntries reply means once logs are
    compacted, what installing a snapshot does to a database and to later votes, what an acknowledged write is worth. */
module Limits {
  import opened Types
  import opened Node
  import opened NodeConfig
  import opened NodeLog
  import opened NodeApply
  import opened NodeInvariant
  import opened Merging
  import Protocol
  import Replay
  import ThreeNodes

  // ---- a successful reply ----

  /** A node with boundary b receives a request with n entries after prev, cut from the leader's log; what
      the node has compacted is committed, so the leader has it too. */
  ghost predicate Asked(s: NodeState, full: seq<LogEntry>, lead: seq<LogEntry>, a: AppendEntriesArgs, b: nat,
      prev: nat, n: nat) {
    && Represents(s, full) && s.lastIncludedIndex == b && Ordered(s, full)
    && Numbered(lead, 1) && Agree(full, lead, b) && TermsDecide(full, lead)
    && a.prevLogIndex == prev && |a.entries| == n && CutFrom(a.entries, lead, prev)
    && a.prevLogTerm == TermAt(lead, prev)
  }

  ghost predicate Stores(s: NodeState, full: seq<LogEntry>, lead: seq<LogEntry>, a: AppendEntriesArgs) {
    HandleAppendEntries(s, a).1.success ==> Agree(FullAfterAppend(s, full, a), lead, a.prevLogIndex + |a.entries|)
  }

  ghost predicate AlwaysStores(b: nat, prev: nat, n: nat) {
    forall s, full, lead, a | Asked(s, full, lead, a, b, prev, n) :: Stores(s, full, lead, a)
  }

  /** The reply means that the request is stored if and only if the request starts at or after the boundary, or
      ends at or before it. In between, the node answers success and stores nothing. */
  lemma SuccessMeansStored(b: nat, prev: nat, n: nat)
    ensures AlwaysStores(b, prev, n) <==> prev >= b || prev + n <= b
  {
    hide Asked, Stores;
    if prev >= b || prev + n <= b {
      forall s, full, lead, a | Asked(s, full, lead, a, b, prev, n)
        ensures Stores(s, full, lead, a)
      {
        StoresOutside(s, full, lead, a, b, prev, n);
      }
    } else {
      StoresNothing(b, prev, n);
    }
  }

  lemma StoresOutside(s: NodeState, full: seq<LogEntry>, lead: seq<LogEntry>, a: AppendEntriesArgs, b: nat, prev: nat,
      n: nat)
    requires Asked(s, full, lead, a, b, prev, n) && (prev >= b || prev + n <= b)
    ensures Stores(s, full, lead, a)
  {
    hide InVotingConfig, Commit, Merged;
    if HandleAppendEntries(s, a).1.success {
      if prev >= b {
        SuccessIsAccepted(s, a);
        CompactedAnswers(s, full, prev);
        AgreeAtPrev(full, lead, prev);
        MergeAgrees(full, prev, a.entries, lead);
      }
    }
  }

  lemma SuccessIsAccepted(s: NodeState, a: AppendEntriesArgs)
    requires HandleAppendEntries(s, a).1.success && a.prevLogIndex >= s.lastIncludedIndex
    ensures Accepted(s, a)
  {
    hide InVotingConfig, Commit, Merged;
  }

  lemma AgreeAtPrev(full: seq<LogEntry>, lead: seq<LogEntry>, prev: nat)
    requires TermsDecide(full, lead) && prev <= |full| && prev <= |lead| && TermAt(full, prev) == TermAt(lead, prev)
    ensures Agree(full, lead, prev)
  {
    if prev > 0 {
      assert full[prev - 1].term == lead[prev - 1].term;
    }
  }

  function Entry(i: int, value: string): LogEntry {
    LogEntry(1, i, PUT, "k", value, [], [])
  }

  function Log(length: nat, split: nat): (r: seq<LogEntry>)
    ensures |r| == length
    ensures forall i | 0 <= i < length :: r[i] == Entry(i + 1, if i < split then "old" else "new")
  {
    seq(length, i => Entry(i + 1, if i < split then "old" else "new"))
  }

  /** A follower of a three-node cluster in term 1 that has applied `log`, compacted up to b. */
  function Follower1(log: seq<LogEntry>, b: nat, applied: nat, store: map<string, string>): NodeState
    requires b <= |log|
  {
    var cfg := [PeerInfo(0, "a", 1), PeerInfo(1, "b", 1), PeerInfo(2, "c", 1)];
    var logs := log[b..];
    var term := TermAt(log, b);
    NodeState(0, 1, NOBODY, logs, applied, applied, Follower, 1, cfg[1..], [], [], b, term, 5, STABLE, cfg, [], [],
              true, false, false, store, Saved(1, NOBODY, b, term, logs))
  }

  /** The request that is lost: the follower ends at its boundary, the request reaches past it. The leader then counts
      more as matched than the follower has. */
  lemma StoresNothing(b: nat, prev: nat, n: nat)
    requires prev < b < prev + n
    ensures !AlwaysStores(b, prev, n)
  {
    var lead := Log(prev + n, 0);
    var full := lead[..b];
    var s := Follower1(full, b, b, map[]);
    var a := AppendEntriesArgs(1, 1, prev, TermAt(lead, prev), lead[prev..], 0);
    assert Asked(s, full, lead, a, b, prev, n);
    assert s.currentConfig[1].id == 1;
    assert HandleAppendEntries(s, a) == (s.(leaderId := 1), AppendEntriesReply(1, true));
    assert FullAfterAppend(s, full, a) == full;
    assert !Stores(s, full, lead, a);
  }

  // ---- installing a snapshot ----

  /** A node of the given mode and threshold, between critical sections, about to install a snapshot labelled `tag`
      that was dumped when its sender had applied `at`; the node itself has applied `applied`. A boundary is 0 until the
      node compacts, and then at least the threshold (NodeInvariant.BoundaryJumps). */
  ghost predicate InstallsAt(s: NodeState, full: seq<LogEntry>, done: seq<LogEntry>, a: InstallSnapshotArgs,
      prefix: seq<LogEntry>, mode: ConfigState, threshold: int, tag: nat, at: nat, applied: nat) {
    && AtRest(s, full, done) && Settled(s)
    && s.configState == mode && s.snapshotThreshold == threshold && s.lastApplied == applied
    && (s.lastIncludedIndex == 0 || s.lastIncludedIndex >= threshold)
    && Installs(s, a) && a.lastIncludedIndex == tag && SnapshotOf(a, prefix, done, at)
  }

  ghost predicate StoreRight(s: NodeState, done: seq<LogEntry>) {
    Reflects(s.store, done, s.lastApplied)
  }

  /** Whatever was committed, and whatever the snapshot holds, the database is right afterwards. */
  ghost predicate InstallSafe(mode: ConfigState, threshold: int, tag: nat, at: nat, applied: nat) {
    forall s, full, done, a, prefix | InstallsAt(s, full, done, a, prefix, mode, threshold, tag, at, applied) ::
      StoreRight(HandleInstallSnapshot(s, a).0, done)
  }

  /** The code looks at the label alone. For a node in the joint phase, which does not compact, that is safe if and
      only if it is not ahead of the dump. */
  lemma JointInstallIsSafeIff(threshold: int, tag: nat, at: nat, applied: nat)
    requires 1 <= tag <= at
    ensures InstallSafe(JOINT, threshold, tag, at, applied) <==> applied <= at
  {
    hide InstallsAt, StoreRight, HandleInstallSnapshot;
    if applied <= at {
      NotAheadIsSafe(JOINT, threshold, tag, at, applied);
    } else {
      JointOverwrites(threshold, tag, at, applied);
    }
  }

  /** In the stable phase a node too far ahead has a boundary past the label and does not install at all; and no node is
      ahead of a first snapshot, whose label is the threshold itself, without having taken its own. (A label is the
      boundary of some node with the same threshold, so it is at least that.) */
  lemma StableInstallIsSafeIff(threshold: int, tag: nat, at: nat, applied: nat)
    requires 1 <= tag <= at && tag >= threshold
    ensures InstallSafe(STABLE, threshold, tag, at, applied)
            <==> applied <= at || applied >= tag + threshold - 1 || tag == threshold
  {
    hide StoreRight, HandleInstallSnapshot;
    if applied <= at {
      hide InstallsAt;
      NotAheadIsSafe(STABLE, threshold, tag, at, applied);
    } else if applied >= tag + threshold - 1 || tag == threshold {
      forall s, full, done, a, prefix
        ensures !InstallsAt(s, full, done, a, prefix, STABLE, threshold, tag, at, applied)
      {
        hide AtRest, SnapshotOf;
        FarAheadNeverInstalls(s, full, done, a, prefix, threshold, tag, at, applied);
      }
    } else {
      hide InstallsAt;
      StableOverwrites(threshold, tag, at, applied);
    }
  }

  lemma FarAheadNeverInstalls(s: NodeState, full: seq<LogEntry>, done: seq<LogEntry>, a: InstallSnapshotArgs,
      prefix: seq<LogEntry>, threshold: int, tag: nat, at: nat, applied: nat)
    requires 1 <= tag <= at < applied && (applied >= tag + threshold - 1 || tag == threshold)
    ensures !InstallsAt(s, full, done, a, prefix, STABLE, threshold, tag, at, applied)
  {
  }

  lemma NotAheadIsSafe(mode: ConfigState, threshold: int, tag: nat, at: nat, applied: nat)
    requires 1 <= tag <= at && applied <= at
    ensures InstallSafe(mode, threshold, tag, at, applied)
  {
    hide InstallsAt, StoreRight, HandleInstallSnapshot;
    forall s, full, done, a, prefix | InstallsAt(s, full, done, a, prefix, mode, threshold, tag, at, applied)
      ensures StoreRight(HandleInstallSnapshot(s, a).0, done)
    {
      InstallRight(s, full, done, a, prefix, mode, threshold, tag, at, applied);
    }
  }

  lemma InstallRight(s: NodeState, full: seq<LogEntry>, done: seq<LogEntry>, a: InstallSnapshotArgs,
      prefix: seq<LogEntry>, mode: ConfigState, threshold: int, tag: nat, at: nat, applied: nat)
    requires InstallsAt(s, full, done, a, prefix, mode, threshold, tag, at, applied) && applied <= at
    ensures StoreRight(HandleInstallSnapshot(s, a).0, done)
  {
    hide HandleInstallSnapshot, SnapshotOf, Reflects, Configured, Represents, SoundEntries;
    InstallKeeps(s, full, done, a, prefix, at);
  }

  // ---- the snapshots that do damage ----

  function ThreeMembers(): seq<PeerInfo> {
    [PeerInfo(0, "a", 1), PeerInfo(1, "b", 1), PeerInfo(2, "c", 1)]
  }

  function FourMembers(): seq<PeerInfo> {
    ThreeMembers() + [PeerInfo(3, "d", 1)]
  }

  /** One key is written over and over; the value changes after `split`. At index `joint` a fourth member is added. */
  function Overwriting(length: nat, split: nat, joint: int): (r: seq<LogEntry>)
    ensures |r| == length
    ensures forall i | 0 <= i < length ::
      r[i] == if i + 1 == joint then LogEntry(1, i + 1, CONFIG_JOINT, "", "", ThreeMembers(), FourMembers())
              else Entry(i + 1, if i < split then "old" else "new")
  {
    seq(length, i => if i + 1 == joint then LogEntry(1, i + 1, CONFIG_JOINT, "", "", ThreeMembers(), FourMembers())
                     else Entry(i + 1, if i < split then "old" else "new"))
  }

  /** A follower that has applied all of `log` and compacted up to b, its database the fold of the log. */
  function Ahead(log: seq<LogEntry>, b: nat, mode: ConfigState, threshold: int): NodeState
    requires b <= |log|
  {
    var term := TermAt(log, b);
    var three, four := ThreeMembers(), FourMembers();
    NodeState(0, 1, NOBODY, log[b..], |log|, |log|, Follower, 1, if mode == JOINT then four[1..] else three[1..], [], [],
              b, term, threshold, mode, three, if mode == JOINT then three else [], if mode == JOINT then four else [],
              true, false, false, Protocol.Fold(log), Saved(1, NOBODY, b, term, log[b..]))
  }

  /** The snapshot: labelled `tag`, holding what the log was worth at `at`. */
  function Dumped(log: seq<LogEntry>, tag: nat, at: nat): InstallSnapshotArgs
    requires tag <= at <= |log|
  {
    InstallSnapshotArgs(1, 1, tag, TermAt(log, tag), Protocol.Fold(log[..at]))
  }

  lemma ConfigsAreProper()
    ensures Proper([]) && Proper(ThreeMembers()) && Proper(FourMembers())
  {
  }

  lemma AheadConfigured(log: seq<LogEntry>, b: nat, mode: ConfigState, threshold: int)
    requires b <= |log|
    ensures Configured(Ahead(log, b, mode, threshold))
  {
    ConfigsAreProper();
    var three, four := ThreeMembers(), FourMembers();
    StartPeers(three, three[0], three[1..]);
    StartPeers(four, four[0], four[1..]);
    JoinedContains();
    hide Proper, Contains;
  }

  lemma JoinedContains()
    ensures forall x :: Contains(ThreeMembers(), x) ==> Contains(FourMembers(), x)
    ensures Distinct(ThreeMembers()[1..]) && Distinct(FourMembers()[1..])
  {
    forall x | Contains(ThreeMembers(), x)
      ensures Contains(FourMembers(), x)
    {
      var i :| 0 <= i < 3 && ThreeMembers()[i].id == x;
      assert FourMembers()[i].id == x;
    }
  }

  lemma FoldReflects(log: seq<LogEntry>, k: nat)
    requires k <= |log|
    ensures Reflects(Protocol.Fold(log[..k]), log, k)
  {
    hide Protocol.Fold;
    assert log[..k][..k] == log[..k];
    assert StoreAt(Protocol.Fold(log[..k]), log, k, k);
  }

  lemma AheadRests(length: nat, split: nat, joint: int, b: nat, mode: ConfigState, threshold: int)
    requires b <= length
    ensures var log := Overwriting(length, split, joint); AtRest(Ahead(log, b, mode, threshold), log, log)
  {
    hide Protocol.Fold, Reflects, Configured, Proper;
    var log := Overwriting(length, split, joint);
    ConfigsAreProper();
    AheadConfigured(log, b, mode, threshold);
    FoldReflects(log, length);
    assert log[..length] == log;
  }

  lemma DumpedIsSnapshot(length: nat, split: nat, joint: int, tag: nat, at: nat)
    requires tag <= at <= length
    ensures var log := Overwriting(length, split, joint); SnapshotOf(Dumped(log, tag, at), log[..tag], log, at)
  {
    hide Protocol.Fold, Reflects, Proper;
    var log := Overwriting(length, split, joint);
    ConfigsAreProper();
    FoldReflects(log, at);
  }

  /** As long as only "old" was written, a read does not see "new". */
  lemma {:induction false} OnlyOld(log: seq<LogEntry>, key: string)
    requires forall i | 0 <= i < |log| :: log[i].op != PUT || log[i].value == "old"
    ensures Protocol.Get(Protocol.Fold(log), key) != Some("new")
  {
    if log != [] {
      var init, last := log[..|log| - 1], log[|log| - 1];
      OnlyOld(init, key);
      assert last.op != PUT || last.value == "old";
    }
  }

  lemma InstalledStore(s: NodeState, a: InstallSnapshotArgs)
    requires a.term >= s.term && a.lastIncludedIndex > s.lastIncludedIndex
    ensures var t := HandleInstallSnapshot(s, a).0;
      t.store == a.kvData && t.lastApplied == if s.lastApplied >= a.lastIncludedIndex then s.lastApplied else a.lastIncludedIndex
  {
    hide Node.After;
  }

  /** Installing the dump takes the node back to the old value, with lastApplied past the new one. */
  lemma DumpOverwrites(length: nat, joint: int, b: nat, mode: ConfigState, threshold: int, tag: nat, at: nat)
    requires b < tag <= at < length && joint != length
    ensures var log := Overwriting(length, at, joint);
      !StoreRight(HandleInstallSnapshot(Ahead(log, b, mode, threshold), Dumped(log, tag, at)).0, log)
  {
    hide Protocol.Fold, HandleInstallSnapshot, Reflects;
    var log := Overwriting(length, at, joint);
    var s, a := Ahead(log, b, mode, threshold), Dumped(log, tag, at);
    InstalledStore(s, a);
    OnlyOld(log[..at], "k");
    assert log[length - 1] == Entry(length, "new");
    Replay.LastWriteIsRead(log, length - 1, "k");
    var t := HandleInstallSnapshot(s, a).0;
    if Reflects(t.store, log, t.lastApplied) {
      FullyReflects(t.store, log);
    }
  }

  /** Two values written to one key, the snapshot dumped between them, the follower ahead of both: it cannot compact
      because a membership change is on its way. */
  lemma JointOverwrites(threshold: int, tag: nat, at: nat, applied: nat)
    requires 1 <= tag <= at < applied
    ensures !InstallSafe(JOINT, threshold, tag, at, applied)
  {
    hide AtRest, SnapshotOf, StoreRight, HandleInstallSnapshot, Protocol.Fold;
    var log := Overwriting(applied, at, applied - 1);
    var s, a := Ahead(log, 0, JOINT, threshold), Dumped(log, tag, at);
    AheadRests(applied, at, applied - 1, 0, JOINT, threshold);
    DumpedIsSnapshot(applied, at, applied - 1, tag, at);
    assert InstallsAt(s, log, log, a, log[..tag], JOINT, threshold, tag, at, applied);
    DumpOverwrites(applied, applied - 1, 0, JOINT, threshold, tag, at);
  }

  /** ... or it last compacted just short of the label, and has not come to its threshold since. */
  lemma StableOverwrites(threshold: int, tag: nat, at: nat, applied: nat)
    requires 1 <= tag <= at < applied < tag + threshold - 1 && tag > threshold
    ensures !InstallSafe(STABLE, threshold, tag, at, applied)
  {
    hide AtRest, SnapshotOf, StoreRight, HandleInstallSnapshot, Protocol.Fold;
    var log := Overwriting(applied, at, 0);
    var s, a := Ahead(log, tag - 1, STABLE, threshold), Dumped(log, tag, at);
    AheadRests(applied, at, 0, tag - 1, STABLE, threshold);
    DumpedIsSnapshot(applied, at, 0, tag, at);
    assert InstallsAt(s, log, log, a, log[..tag], STABLE, threshold, tag, at, applied);
    DumpOverwrites(applied, 0, tag - 1, STABLE, threshold, tag, at);
  }

  // ---- voting after a snapshot ----

  /** Every candidate that passes the up-to-date check has a last entry at least as new as the snapshot's. */
  ghost predicate ChecksAgainst(s: NodeState, term: int) {
    forall lastIndex: int, lastTerm: int | CandidateUpToDate(s, lastIndex, lastTerm) :: lastTerm >= term
  }

  /** The installed entries are committed, and a voter is there to keep candidates without them from winning. What it
      held beyond the snapshot is kept without a look at its terms, so it does so if and only if it held nothing beyond,
      or something at least as new. */
  lemma VoterAfterInstallIff(s: NodeState, full: seq<LogEntry>, a: InstallSnapshotArgs)
    requires Represents(s, full) && Installs(s, a)
    ensures ChecksAgainst(HandleInstallSnapshot(s, a).0, a.lastIncludedTerm)
            <==> LastLogIndex(s) <= a.lastIncludedIndex || LastLogTerm(s) >= a.lastIncludedTerm
  {
    hide Heed, Node.After, CandidateUpToDate;
    var h, t := Heed(s, a.term, a.leaderId), HandleInstallSnapshot(s, a).0;
    assert h.logs == s.logs && h.lastIncludedIndex == s.lastIncludedIndex by { HeedKeepsLog(s, a.term, a.leaderId); }
    SuffixNumbered(full, s.lastIncludedIndex);
    AfterIsSuffix(s.logs, s.lastIncludedIndex, a.lastIncludedIndex);
    assert LastLogTerm(t) == if LastLogIndex(s) <= a.lastIncludedIndex then a.lastIncludedTerm else LastLogTerm(s);
    CheckIsLastTerm(t, a.lastIncludedTerm);
  }

  lemma HeedKeepsLog(s: NodeState, term: int, leader: int)
    ensures Heed(s, term, leader).logs == s.logs && Heed(s, term, leader).lastIncludedIndex == s.lastIncludedIndex
  {
  }

  lemma CheckIsLastTerm(s: NodeState, term: int)
    ensures ChecksAgainst(s, term) <==> LastLogTerm(s) >= term
  {
    assert CandidateUpToDate(s, LastLogIndex(s), LastLogTerm(s));
  }

  /** Such a node: it holds entries of term 1 that were never committed, more of them than the snapshot of term 2 has. */
  lemma RetainedMisleads(tag: nat, length: nat) returns (s: NodeState, done: seq<LogEntry>, a: InstallSnapshotArgs)
    requires 1 <= tag < length
    ensures AtRest(s, s.logs, done) && Settled(s) && |s.logs| == length && s.lastIncludedIndex == 0 == s.commitIndex
    ensures |done| == tag && Installs(s, a) && SnapshotOf(a, done, done, tag) && a.lastIncludedTerm == 2
    ensures !ChecksAgainst(HandleInstallSnapshot(s, a).0, 2)
    ensures CandidateUpToDate(HandleInstallSnapshot(s, a).0, length, 1)
  {
    var log := Log(length, 0);
    done := SecondTerm(tag);
    s := Follower1(log, 0, 0, map[]);
    a := InstallSnapshotArgs(2, 1, tag, 2, Protocol.Fold(done));
    LateFollowerRests(log, done);
    FoldReflects(done, tag);
    assert done[..tag] == done;
    VoterAfterInstallIff(s, log, a);
    InstalledEnds(s, log, a);
    hide HandleInstallSnapshot, Protocol.Fold, Reflects;
  }

  function SecondTerm(length: nat): (r: seq<LogEntry>)
    ensures |r| == length && forall i | 0 <= i < length :: r[i] == LogEntry(2, i + 1, PUT, "k", "new", [], [])
  {
    seq(length, i => LogEntry(2, i + 1, PUT, "k", "new", [], []))
  }

  lemma LateFollowerRests(log: seq<LogEntry>, done: seq<LogEntry>)
    requires Numbered(log, 1) && SoundEntries(log)
    ensures AtRest(Follower1(log, 0, 0, map[]), log, done)
  {
    hide Reflects, Protocol.Fold, SoundEntries, Proper, Contains;
    AheadConfigured([], 0, STABLE, 5);
    ConfigsAreProper();
    assert PeersMatch(Ahead([], 0, STABLE, 5)) && PeersMatch(Follower1(log, 0, 0, map[]));
    NothingReflected(done);
  }

  lemma NothingReflected(done: seq<LogEntry>)
    ensures Reflects(map[], done, 0)
  {
    FoldReflects(done, 0);
    assert done[..0] == [];
  }

  lemma InstalledEnds(s: NodeState, full: seq<LogEntry>, a: InstallSnapshotArgs)
    requires Represents(s, full) && Installs(s, a) && LastLogIndex(s) > a.lastIncludedIndex
    ensures var t := HandleInstallSnapshot(s, a).0; LastLogIndex(t) == LastLogIndex(s) && LastLogTerm(t) == LastLogTerm(s)
  {
    hide Heed, Node.After;
    HeedKeepsLog(s, a.term, a.leaderId);
    SuffixNumbered(full, s.lastIncludedIndex);
    AfterIsSuffix(s.logs, s.lastIncludedIndex, a.lastIncludedIndex);
  }

  // ---- counting a snapshot ----

  /** On the reply to a snapshot the leader counts its boundary of the moment. For a peer that holds entries through
      `held`, which is at least the label that was sent and what was known before, that is sound if and only if the
      boundary has not moved past `held`. */
  lemma SnapshotReplyIsSoundIff(s: NodeState, i: nat, asked: int, r: InstallSnapshotReply, sent: int, held: int)
    requires s.role == Leader && s.term == asked && r.term <= s.term && i < |s.nextIndex| && i < |s.matchIndex|
    requires 0 <= sent <= s.lastIncludedIndex && held >= sent && held >= s.matchIndex[i]
    ensures Node.TakeInstallReply(s, i, asked, r).matchIndex[i] <= held <==> s.lastIncludedIndex <= held
  {
  }

  /** A leader that has compacted nothing sends a snapshot labelled 0 to a peer at nextIndex 0; the peer keeps its empty
      log; meanwhile the leader commits five entries with the other peer and compacts; then it takes the reply, and
      counts five entries as held by the peer that has none. */
  lemma SnapshotReplyOvercounts() returns (s: NodeState, f: NodeState)
    ensures s.role == Leader && s.term == 1 && s.matchIndex == [0, 5] && s.nextIndex == [0, 6] && s.lastIncludedIndex == 0
    ensures BuildInstall(s).lastIncludedIndex == 0
    ensures var g := HandleInstallSnapshot(f, BuildInstall(s)); LastLogIndex(g.0) == 0 && g.1.term == 1
    ensures var t := UpdateCommitIndex(s);
      && t.lastIncludedIndex == 5 && t.role == Leader && t.term == 1 && |t.nextIndex| == |t.matchIndex| == 2
      && Node.TakeInstallReply(t, 0, 1, InstallSnapshotReply(1)).matchIndex == [5, 5]
  {
    var b := ThreeNodes.Leading(5, 0, 0, [0, 6], [0, 5]);
    s := ThreeNodes.Full(1, b);
    f := ThreeNodes.Full(2, ThreeNodes.Booted());
    ThreeNodes.Advances(b, 5);
    hide UpdateCommitIndex;
  }

  // ---- acknowledging a write ----

  /** leaderPut answers by comparing two indexes of the moment. A leader of term 1 whose writes fill its log is heard of
      no more; a leader of term 2 that never saw them replaces the first one and commits; the old leader, left with that
      one entry, then reports success for its last write, wherever in the log it was. (Acknowledge.AcknowledgementIsRightIff
      says exactly when the report is right.) */
  lemma AcknowledgedButGone(length: nat) returns (s: NodeState, a: AppendEntriesArgs)
    requires length >= 1
    ensures s.role == Leader && s.term == 1 && Configured(s) && OnDisk(s) && Represents(s, s.logs)
    ensures |s.logs| == LastLogIndex(s) == length && forall k | 0 <= k < length :: s.logs[k] == Entry(k + 1, "new")
    ensures a.entries == [Later()]
    ensures var t := HandleAppendEntries(s, a).0;
      t.logs == a.entries && t.commitIndex >= LastLogIndex(t) == 1 && Later() !in s.logs
  {
    s := LeaderOf(length);
    a := AppendEntriesArgs(2, 1, 0, 0, [Later()], 1);
    LeaderIsSound(length);
    HeedsLater(length);
    OverwritesFirst(Heed(s, 2, 1));
    hide Merged, ApplyCommitted;
    assert s.currentConfig[1].id == 1;
  }

  function Later(): LogEntry {
    Entry(1, "old").(term := 2)
  }

  function LeaderOf(length: nat): NodeState {
    var log, three := Log(length, 0), ThreeMembers();
    NodeState(0, 1, 0, log, 0, 0, Leader, 0, three[1..], [1, 1], [0, 0], 0, 0, 5, STABLE, three, [], [],
              true, false, false, map[], Saved(1, 0, 0, 0, log))
  }

  lemma LeaderIsSound(length: nat)
    requires length >= 1
    ensures Configured(LeaderOf(length)) && OnDisk(LeaderOf(length)) && Represents(LeaderOf(length), LeaderOf(length).logs)
  {
    AheadConfigured([], 0, STABLE, 5);
    hide Proper, Contains;
    assert PeersMatch(Ahead([], 0, STABLE, 5)) && PeersMatch(LeaderOf(length));
  }

  lemma HeedsLater(length: nat)
    ensures var h := Heed(LeaderOf(length), 2, 1);
      && h.logs == Log(length, 0) && h.commitIndex == h.lastApplied == h.lastIncludedIndex == 0
      && h.configState == STABLE && h.snapshotThreshold == 5
  {
  }

  lemma OverwritesFirst(h: NodeState)
    requires |h.logs| >= 1 && h.logs[0].term == 1 && h.commitIndex == h.lastApplied == h.lastIncludedIndex == 0
    requires h.configState == STABLE && h.snapshotThreshold == 5
    ensures var m := Merged(h, [Later()]);
      m.logs == [Later()] && m.lastIncludedIndex == 0 && m.commitIndex == 0
    ensures var t := ApplyCommitted(Merged(h, [Later()]).(commitIndex := 1));
      t.logs == [Later()] && t.commitIndex == 1 && LastLogIndex(t) == 1
  {
    var x := Later();
    assert [x][..0] == [] && MergeAll(h.logs, 0, [x][..0]) == h.logs;
    assert MergeAll(h.logs, 0, [x]) == MergeOne(h.logs, 0, x) == h.logs[..0] + [x] == [x];
    assert h.logs[0] != x;
    assert Changes(h.logs, 0, [x]);
    AppliesLater(Merged(h, [x]));
  }

  lemma AppliesLater(m: NodeState)
    requires m.logs == [Later()] && m.commitIndex == m.lastApplied == m.lastIncludedIndex == 0
    requires m.configState == STABLE && m.snapshotThreshold == 5
    ensures var t := ApplyCommitted(m.(commitIndex := 1)); t.logs == [Later()] && t.commitIndex == 1 && LastLogIndex(t) == 1
  {
    var u := m.(commitIndex := 1);
    var t := u.(lastApplied := 1, store := ApplyToStore(u.store, Later()));
    assert ApplyNext(u) == Some(t);
    LoopUnfolds(u);
    LoopUnfolds(t);
  }
}
