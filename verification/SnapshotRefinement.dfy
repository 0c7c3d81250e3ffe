/**
 Snapshots. What a leader sends stands for the entries up to its boundary; the receiver takes these as it would take them
 from a request, and then the database. The reply counts for as much as was sent.
 */
module SnapshotRefinement {
  import opened Types
  import opened Node
  import opened NodeLog
  import opened NodeInvariant
  import opened NodeModes
  import opened NodeRefinement
  import opened Protocol
  import E = Election
  import opened Merging
  import Invariant
  import LogProof
  import EndProof

  // ---- sending ----

  ghost function AfterSendInstall(sys: Sys, n: Id, p: Id): Sys
    requires n in sys.e.nodes && n in sys.reps && sys.reps[n].boundary <= |sys.reps[n].log|
  {
    var r, term := sys.reps[n], sys.e.nodes[n].term;
    Sys(sys.e.(beats := sys.e.beats + {E.Beat(n, term, p)}), sys.reps,
        sys.net + {AppendEntries(Slice(n, p, term, r.log, r.boundary)), MakeInstall(r, n, p, term)}, sys.calls)
  }

  lemma SendInstallPermitted(sys: Sys, n: Id, p: Id)
    requires n in sys.e.nodes && n in sys.reps && sys.e.nodes[n].role == Leader && p in E.Active(sys.e, sys.e.nodes[n].mode) - {n}
    requires var r := sys.reps[n]; r.boundary <= r.applied && r.boundary <= r.commit && r.boundary <= |r.log|
    ensures NextStep(sys, AfterSendInstall(sys, n, p), SendSnapshot(n, p))
    ensures OnlyNode(sys, AfterSendInstall(sys, n, p), n)
  {
  }

  /** The entries that a snapshot stands for, as the request that comes with it. */
  ghost predicate SliceFor(m: Message, a: Append)
    requires m.Install?
  {
    && a.src == m.src && a.dst == m.dst && a.term == m.term && a.prev == 0 && a.prevTerm == 0
    && |a.entries| == m.base == a.leaderCommit && a.call == None
  }

  function ToInstall(m: Message): InstallSnapshotArgs
    requires m.Install?
  {
    InstallSnapshotArgs(m.term, m.src, m.base, m.baseTerm, m.store)
  }

  /** What a leader sends of a compacted log: its database, under the label of its boundary. */
  lemma SendInstallRefines(sys: Sys, n: Id, s: NodeState, full: seq<LogEntry>, granted: seq<int>, i: nat)
    returns (sys': Sys, m: Message, a: Append)
    requires Plays(sys, n, s, full, granted) && s.role == Leader && i < |s.peers|
    ensures Reaches(sys, sys') && OnlyNode(sys, sys', n) && Plays(sys', n, s, full, granted)
    ensures m.Install? && m in sys'.net && m.src == n && m.dst == s.peers[i].id && m.upto == s.lastApplied && ToInstall(m) == BuildInstall(s)
    ensures SliceFor(m, a) && AppendEntries(a) in sys'.net && AllOfChange(sys'.e, a.entries)
  {
    hide Reaches, Plays, NextStep, OnlyNode, Represents, AllOfChange;
    PlaysHere(sys, n, s, full, granted);
    SlotIs(sys, n, s, full, granted, i);
    var p := s.peers[i].id as Id;
    sys' := AfterSendInstall(sys, n, p);
    BoundaryTerm(s, full);
    SendInstallPermitted(sys, n, p);
    OneStep(sys, sys', SendSnapshot(n, p));
    StillPlays(sys, sys', n, s, full, granted);
    m, a := MakeInstall(sys.reps[n], n, p, sys.e.nodes[n].term), Slice(n, p, sys.e.nodes[n].term, full, sys.reps[n].boundary);
    PartOfChange(sys.e, full, a.entries);
    SameChange(sys.e, sys'.e, a.entries);
  }

  lemma BoundaryTerm(s: NodeState, full: seq<LogEntry>)
    requires Represents(s, full)
    ensures 0 <= s.lastIncludedIndex <= |full| && s.lastIncludedTerm == TermAt(full, s.lastIncludedIndex)
  {
  }

  // ---- installing ----

  ghost function AfterAnswer(sys: Sys, n: Id, m: Message): Sys
    requires n in sys.e.nodes && m.Install?
  {
    var term := sys.e.nodes[n].term;
    sys.(net := sys.net + {InstallReply(m.src, n, m.term, if term > m.term then term else m.term, m.base)})
  }

  lemma AnswerPermitted(sys: Sys, n: Id, m: Message, a: Append)
    requires n in sys.e.nodes && n in sys.reps && m in sys.net && m.Install? && m.dst == n && SliceFor(m, a)
    requires sys.e.nodes[n].term > m.term || AppendReply(a, m.term, true) in sys.net
    ensures NextStep(sys, AfterAnswer(sys, n, m), AnswerInstall(n, m, a))
    ensures OnlyNode(sys, AfterAnswer(sys, n, m), n)
  {
  }

  /** Its log ends where the snapshot does, or before, or has the entry at the boundary; and it has applied no more than
      the sender had when it copied its database. */
  predicate Installable(s: NodeState, m: Message)
    requires m.Install?
  {
    && (LastLogIndex(s) <= m.base || LogTermAt(s, m.base) == m.baseTerm)
    && s.lastApplied <= m.upto
  }

  /** What an install does to the whole log. */
  ghost function FullAfterSnapshot(s: NodeState, full: seq<LogEntry>, m: Message, entries: seq<LogEntry>): seq<LogEntry>
    requires m.Install?
  {
    if m.term >= s.term && m.base > s.lastIncludedIndex then Merge(full, 0, entries) else full
  }

  /** handleInstallSnapshot is the receive step for the entries and TakeDump; or only the answer, where the node has moved
      on. */
  lemma InstallRefines(sys: Sys, h: Invariant.History, n: Id, s: NodeState, full: seq<LogEntry>, granted: seq<int>,
      m: Message, a: Append) returns (sys': Sys)
    requires Invariant.LogInv(sys, h) && Plays(sys, n, s, full, granted)
    requires m in sys.net && m.Install? && m.dst == n && SliceFor(m, a) && AppendEntries(a) in sys.net && AllOfChange(sys.e, a.entries)
    requires m.term < s.term || m.base <= s.lastIncludedIndex || Installable(s, m)
    ensures var (t, r) := HandleInstallSnapshot(s, ToInstall(m));
      && Reaches(sys, sys') && OnlyNode(sys, sys', n)
      && Plays(sys', n, t, FullAfterSnapshot(s, full, m, a.entries), granted)
      && r.term >= 0 && InstallReply(m.src, n, m.term, r.term, m.base) in sys'.net
  {
    hide Reaches, Plays, NextStep, OnlyNode, Invariant.LogInv, Installable, Node.Heed, AllOfChange, HandleInstallSnapshot, Merge;
    PlaysHere(sys, n, s, full, granted);
    InstallAnswers(s, m);
    if m.term < s.term {
      sys' := Answered(sys, sys, n, s, full, granted, m, a);
    } else if m.base <= s.lastIncludedIndex {
      var mid := CoversSlice(sys, h, n, s, full, granted, m, a);
      sys' := Answered(sys, mid, n, Node.Heed(s, m.term, m.src), full, granted, m, a);
    } else {
      var mid := TakesSnapshot(sys, h, n, s, full, granted, m, a);
      sys' := Answered(sys, mid, n, HandleInstallSnapshot(s, ToInstall(m)).0, Merge(full, 0, a.entries), granted, m, a);
    }
  }

  lemma InstallAnswers(s: NodeState, m: Message)
    requires m.Install?
    ensures var (t, r) := HandleInstallSnapshot(s, ToInstall(m));
      && r.term == t.term && t.term == (if m.term < s.term then s.term else m.term)
      && (m.term < s.term ==> t == s)
      && (m.term >= s.term && m.base <= s.lastIncludedIndex ==> t == Node.Heed(s, m.term, m.src))
  {
    hide Node.After;
  }

  lemma Answered(sys: Sys, mid: Sys, n: Id, t: NodeState, full: seq<LogEntry>, granted: seq<int>, m: Message, a: Append)
    returns (sys': Sys)
    requires (sys == mid || (Reaches(sys, mid) && OnlyNode(sys, mid, n))) && Plays(mid, n, t, full, granted)
    requires m in mid.net && m.Install? && m.dst == n && SliceFor(m, a) && t.term >= m.term
    requires t.term > m.term || AppendReply(a, m.term, true) in mid.net
    ensures Reaches(sys, sys') && OnlyNode(sys, sys', n) && Plays(sys', n, t, full, granted)
    ensures t.term >= 0 && InstallReply(m.src, n, m.term, t.term, m.base) in sys'.net
  {
    hide Reaches, Plays, NextStep, OnlyNode, SliceFor;
    PlaysHere(mid, n, t, full, granted);
    sys' := AfterAnswer(mid, n, m);
    AnswerPermitted(mid, n, m, a);
    OneStep(mid, sys', AnswerInstall(n, m, a));
    StillPlays(mid, sys', n, t, full, granted);
    if sys != mid {
      ThenReaches(sys, mid, sys');
      OnlyNodeTwice(sys, mid, sys', n);
    }
  }

  lemma SliceTaken(sys: Sys, n: Id, m: Message, a: Append)
    requires n in sys.e.nodes && n in sys.reps && m.Install? && SliceFor(m, a) && m.term >= sys.e.nodes[n].term
    ensures Taken(sys, n, a)
  {
  }

  /** A snapshot within the receiver's boundary: all it stands for is there. */
  lemma CoversSlice(sys: Sys, h: Invariant.History, n: Id, s: NodeState, full: seq<LogEntry>, granted: seq<int>, m: Message, a: Append)
    returns (mid: Sys)
    requires Invariant.LogInv(sys, h) && Plays(sys, n, s, full, granted)
    requires m in sys.net && m.Install? && m.dst == n && SliceFor(m, a) && AppendEntries(a) in sys.net
    requires m.term >= s.term && m.base <= s.lastIncludedIndex
    ensures Reaches(sys, mid) && OnlyNode(sys, mid, n) && Plays(mid, n, Node.Heed(s, m.term, m.src), full, granted)
    ensures m in mid.net && AppendReply(a, m.term, true) in mid.net
  {
    hide Reaches, Plays, NextStep, OnlyNode, Invariant.LogInv, Receive, AfterAppend, Heeded, Taken;
    PlaysHere(sys, n, s, full, granted);
    RequestFacts(sys, h, a);
    SliceTaken(sys, n, m, a);
    mid := AfterAppend(sys, n, a);
    AppendPermitted(sys, n, a);
    OneStep(sys, mid, HandleAppend(n, a));
    CommittedRequest(sys, h, n, a);
    HeedPlays(sys, n, s, full, granted, a.term, a.src);
    AppendAnswers(sys, n, a);
    NetKept(sys, n, a);
    SamePlays(sys, n, Node.Heed(s, a.term, a.src), full, granted, a);
  }

  lemma NetKept(sys: Sys, n: Id, a: Append)
    requires n in sys.e.nodes && n in sys.reps
    ensures sys.net <= AfterAppend(sys, n, a).net
  {
    hide Receive;
  }

  // ---- ... and past it ----

  /** What the entries make of the whole log: through the boundary the sender's, past it what was there. */
  lemma SliceMerged(sys: Sys, h: Invariant.History, n: Id, s: NodeState, full: seq<LogEntry>, granted: seq<int>, m: Message, a: Append)
    requires Invariant.LogInv(sys, h) && Plays(sys, n, s, full, granted)
    requires m in sys.net && m.Install? && m.dst == n && SliceFor(m, a) && AppendEntries(a) in sys.net
    requires m.term >= s.term && m.base > s.lastIncludedIndex && Installable(s, m)
    ensures var log' := Merge(full, 0, a.entries);
      && |log'| >= m.base && TermAt(log', m.base) == m.baseTerm
      && log'[m.base..] == if |full| <= m.base then [] else full[m.base..]
  {
    hide Plays, Invariant.LogInv, Merge, CutFrom, LastLogIndex, LogTermAt, Taken, Heeded, Receive, Represents, NextStep;
    PlaysHere(sys, n, s, full, granted);
    CompactedAnswers(s, full, m.base);
    RequestFacts(sys, h, a);
    SliceTaken(sys, n, m, a);
    AppendPermitted(sys, n, a);
    AcceptsHere(sys, n, a);
    EndProof.AcceptShape(sys, h, AfterAppend(sys, n, a), HandleAppend(n, a));
    SliceLabel(sys, h, m, a);
    var target := h.logs[m.term].log;
    FullMatches(sys, h, n, m.term);
    if |full| > m.base {
      MatchesThrough(full, target, m.base);
      StaleRequestChangesNothing(full, 0, a.entries, target, m.base);
    }
  }

  lemma AcceptsHere(sys: Sys, n: Id, a: Append)
    requires n in sys.e.nodes && n in sys.reps && Taken(sys, n, a)
    ensures LogProof.IsAccept(sys, HandleAppend(n, a))
  {
  }

  lemma SliceLabel(sys: Sys, h: Invariant.History, m: Message, a: Append)
    requires Invariant.LogInv(sys, h) && m in sys.net && m.Install? && SliceFor(m, a) && AppendEntries(a) in sys.net
    ensures m.term in h.logs && m.base <= |h.logs[m.term].log| && m.baseTerm == TermAt(h.logs[m.term].log, m.base)
    ensures CutFrom(a.entries, h.logs[m.term].log, 0)
  {
    hide Invariant.LogInv, Invariant.LogsOK, Invariant.RolesOK, Invariant.Shape, Invariant.StoredOK, Invariant.NetOK,
      Invariant.PeersOK, Invariant.NodesKeep, Invariant.VotesKeep, Invariant.LeadersKeep, Invariant.PointsOK,
      Invariant.CommitsOK, Invariant.CommitOK;
    Invariant.LogParts(sys, h);
    EndProof.InstallKnown(sys, h, m);
    SentIsCut(sys, h, a);
  }

  lemma FullMatches(sys: Sys, h: Invariant.History, n: Id, term: nat)
    requires Invariant.LogInv(sys, h) && n in sys.reps && n in sys.e.nodes && term in h.logs
    ensures TermsDecide(sys.reps[n].log, h.logs[term].log)
  {
    hide Invariant.LogInv, Invariant.RolesOK, Invariant.Shape, Invariant.StoredOK, Invariant.NetOK,
      Invariant.PeersOK, Invariant.NodesKeep, Invariant.VotesKeep, Invariant.LeadersKeep, Invariant.PointsOK,
      Invariant.CommitsOK, Invariant.LogOK, Invariant.TermLogOK, TermsDecide;
    Invariant.LogParts(sys, h);
    LogProof.LogOf(sys, h, n);
    LogProof.LogsMatch(h, sys.reps[n].log, term);
  }

  lemma MatchesThrough(log: seq<LogEntry>, target: seq<LogEntry>, k: nat)
    requires TermsDecide(log, target) && 0 < k <= |log| && k <= |target| && TermAt(log, k) == TermAt(target, k)
    ensures Agree(log, target, k)
  {
    assert log[k - 1].term == target[k - 1].term;
  }

  lemma TakesSnapshot(sys: Sys, h: Invariant.History, n: Id, s: NodeState, full: seq<LogEntry>, granted: seq<int>,
      m: Message, a: Append) returns (sys': Sys)
    requires Invariant.LogInv(sys, h) && Plays(sys, n, s, full, granted)
    requires m in sys.net && m.Install? && m.dst == n && SliceFor(m, a) && AppendEntries(a) in sys.net && AllOfChange(sys.e, a.entries)
    requires m.term >= s.term && m.base > s.lastIncludedIndex && Installable(s, m)
    ensures Reaches(sys, sys') && OnlyNode(sys, sys', n)
    ensures Plays(sys', n, HandleInstallSnapshot(s, ToInstall(m)).0, Merge(full, 0, a.entries), granted)
    ensures m in sys'.net && AppendReply(a, m.term, true) in sys'.net
  {
    hide Reaches, Plays, NextStep, OnlyNode, Invariant.LogInv, Receive, AfterAppend, Heeded, Taken, Installable, AllOfChange, Merge,
      HandleInstallSnapshot, Node.Heed;
    PlaysHere(sys, n, s, full, granted);
    RequestFacts(sys, h, a);
    SliceTaken(sys, n, m, a);
    var mid := AfterAppend(sys, n, a);
    AppendPermitted(sys, n, a);
    OneStep(sys, mid, HandleAppend(n, a));
    HeedPlays(sys, n, s, full, granted, a.term, a.src);
    AppendAnswers(sys, n, a);
    NetKept(sys, n, a);
    SliceMerged(sys, h, n, s, full, granted, m, a);
    assert Numbered(a.entries, 1);
    sys' := Dumped(sys, mid, n, s, Node.Heed(s, a.term, a.src), full, granted, m, a);
    ThenReaches(sys, mid, sys');
    OnlyNodeTwice(sys, mid, sys', n);
  }

  lemma Dumped(sys: Sys, mid: Sys, n: Id, s: NodeState, t: NodeState, full: seq<LogEntry>, granted: seq<int>, m: Message, a: Append)
    returns (sys': Sys)
    requires n in sys.e.nodes && n in sys.reps && Taken(sys, n, a) && mid == AfterAppend(sys, n, a)
    requires Plays(Heeded(sys, n, a.term), n, t, full, granted) && t == Node.Heed(s, a.term, a.src) && t.role == Follower
    requires SameSides(sys.e, Heeded(sys, n, a.term).e) && AllOfChange(sys.e, a.entries) && Numbered(a.entries, 1)
    requires m.Install? && t.term == m.term && m in mid.net && m.dst == n && SliceFor(m, a) && m.term >= s.term && m.base > s.lastIncludedIndex
    requires Installable(s, m)
    requires var log' := Merge(full, 0, a.entries);
      && |log'| >= m.base && TermAt(log', m.base) == m.baseTerm
      && log'[m.base..] == if |full| <= m.base then [] else full[m.base..]
    ensures Reaches(mid, sys') && OnlyNode(mid, sys', n) && sys'.net == mid.net
    ensures Plays(sys', n, HandleInstallSnapshot(s, ToInstall(m)).0, Merge(full, 0, a.entries), granted)
  {
    hide Reaches, Plays, NextStep, OnlyNode, Heeded, AllOfChange, Merge, HandleInstallSnapshot, Node.Heed, Installed, Installable;
    sys' := WithReplica(mid, n, TakeStore(mid.reps[n], m, true));
    SliceReceived(sys, n, t, full, granted, a);
    HeedLeaves(s, a.term, a.src);
    InstalledIs(s, m);
    DumpPermitted(mid, sys', n, m) by { assert s.lastApplied <= m.upto by { InstallableApplied(s, m); } }
    OneStep(mid, sys', TakeDump(n, m, true));
    InstalledPlays(sys, sys', n, t, full, granted, m, a);
  }

  lemma InstallableApplied(s: NodeState, m: Message)
    requires m.Install? && Installable(s, m)
    ensures s.lastApplied <= m.upto
  {
  }

  lemma HeedLeaves(s: NodeState, term: int, leader: int)
    ensures var t := Node.Heed(s, term, leader);
      t.lastIncludedIndex == s.lastIncludedIndex && t.lastApplied == s.lastApplied && t.commitIndex == s.commitIndex
  {
  }

  lemma InstalledIs(s: NodeState, m: Message)
    requires m.Install? && m.term >= s.term && m.base > s.lastIncludedIndex
    ensures HandleInstallSnapshot(s, ToInstall(m)).0 == Installed(Node.Heed(s, m.term, m.src), ToInstall(m))
  {
    hide Node.After;
  }

  /** The protocol once the entries are taken. */
  lemma SliceReceived(sys: Sys, n: Id, t: NodeState, full: seq<LogEntry>, granted: seq<int>, a: Append)
    requires n in sys.e.nodes && n in sys.reps && Taken(sys, n, a) && a.prev == 0 && |a.entries| == a.leaderCommit
    requires Plays(Heeded(sys, n, a.term), n, t, full, granted) && |Merge(full, 0, a.entries)| >= a.leaderCommit
    ensures var mid := AfterAppend(sys, n, a);
      && n in mid.e.nodes && n in mid.reps && mid.e == Heeded(sys, n, a.term).e
      && mid.e.nodes[n].role == t.role && mid.e.nodes[n].term == t.term
      && mid.reps[n] == sys.reps[n].(log := Merge(full, 0, a.entries), commit := mid.reps[n].commit)
      && mid.reps[n].commit == (if t.commitIndex >= a.leaderCommit then t.commitIndex else a.leaderCommit)
      && mid.reps[n].applied == t.lastApplied && mid.reps[n].boundary == t.lastIncludedIndex
  {
    hide Plays, Merge, Taken, E.Heed;
    PlaysHere(Heeded(sys, n, a.term), n, t, full, granted);
  }

  lemma DumpPermitted(mid: Sys, sys': Sys, n: Id, m: Message)
    requires n in mid.e.nodes && n in mid.reps && m in mid.net && m.Install? && m.dst == n
    requires mid.e.nodes[n].role == Follower && m.term <= mid.e.nodes[n].term
    requires mid.reps[n].boundary <= m.base <= mid.reps[n].commit && mid.reps[n].applied <= m.upto
    requires sys' == WithReplica(mid, n, TakeStore(mid.reps[n], m, true))
    ensures NextStep(mid, sys', TakeDump(n, m, true)) && OnlyNode(mid, sys', n)
  {
    hide TakeStore;
  }

  lemma InstalledRepresents(t: NodeState, full: seq<LogEntry>, a: InstallSnapshotArgs, log': seq<LogEntry>)
    requires Represents(t, full) && a.lastIncludedIndex > t.lastIncludedIndex >= 0
    requires |log'| >= a.lastIncludedIndex && TermAt(log', a.lastIncludedIndex) == a.lastIncludedTerm && Numbered(log', 1)
    requires log'[a.lastIncludedIndex..] == if |full| <= a.lastIncludedIndex then [] else full[a.lastIncludedIndex..]
    ensures Represents(Installed(t, a), log')
  {
    hide Node.After;
    AfterIsSuffix(t.logs, t.lastIncludedIndex, a.lastIncludedIndex) by { SuffixNumbered(full, t.lastIncludedIndex); }
  }

  lemma InstalledPlays(sys: Sys, sys': Sys, n: Id, t: NodeState, full: seq<LogEntry>, granted: seq<int>, m: Message, a: Append)
    requires n in sys.e.nodes && n in sys.reps && m.Install? && SliceFor(m, a) && t.role == Follower && m.base > t.lastIncludedIndex
    requires Plays(Heeded(sys, n, a.term), n, t, full, granted) && SameSides(sys.e, Heeded(sys, n, a.term).e)
    requires AllOfChange(sys.e, a.entries) && Numbered(a.entries, 1)
    requires var mid := AfterAppend(sys, n, a);
      && n in mid.e.nodes && n in mid.reps && mid.e == Heeded(sys, n, a.term).e
      && mid.reps[n] == sys.reps[n].(log := Merge(full, 0, a.entries), commit := mid.reps[n].commit)
      && mid.reps[n].commit == (if t.commitIndex >= m.base then t.commitIndex else m.base)
      && mid.reps[n].applied == t.lastApplied
      && sys' == WithReplica(mid, n, TakeStore(mid.reps[n], m, true))
    requires var log' := Merge(full, 0, a.entries);
      && |log'| >= m.base && TermAt(log', m.base) == m.baseTerm
      && log'[m.base..] == if |full| <= m.base then [] else full[m.base..]
    ensures Plays(sys', n, Installed(t, ToInstall(m)), Merge(full, 0, a.entries), granted)
  {
    hide Heeded, AfterAppend, AllOfChange, Runs, Represents, Merge, Node.After, Numbered;
    var c, log', u := Heeded(sys, n, a.term), Merge(full, 0, a.entries), Installed(t, ToInstall(m));
    PlaysHere(c, n, t, full, granted);
    SameChange(sys.e, c.e, a.entries);
    MergeOfChange(c.e, full, 0, a.entries);
    FullNumbered(t, full);
    MergeOnFull(full, 0, 0, a.entries);
    InstalledRepresents(t, full, ToInstall(m), log');
    assert t.lastApplied == t.commitIndex by { PlaysApplied(c, n, t, full, granted); }
    hide Plays;
    NowRuns(c, sys', n, t, u, full, log', granted);
    RestsHere(sys', n, u, log', granted);
  }

  lemma PlaysApplied(sys: Sys, n: Id, s: NodeState, full: seq<LogEntry>, granted: seq<int>)
    requires Plays(sys, n, s, full, granted)
    ensures s.lastApplied == s.commitIndex
  {
    hide Runs;
  }

  lemma RestsHere(sys: Sys, n: Id, s: NodeState, full: seq<LogEntry>, granted: seq<int>)
    requires Runs(sys, n, s, full, granted) && s.lastApplied == s.commitIndex
    ensures Plays(sys, n, s, full, granted)
  {
    hide Runs;
  }

  lemma FullNumbered(s: NodeState, full: seq<LogEntry>)
    requires Represents(s, full)
    ensures Numbered(full, 1)
  {
  }

  /** A crash of a follower that has loaded the database of a snapshot and persisted nothing of it is OnlyLearnTerm, taking
      the database alone, and a restart. */
  lemma InstallCrashRefines(sys: Sys, n: Id, s: NodeState, full: seq<LogEntry>, granted: seq<int>, m: Message, a: Append,
      address: (string, int), others: seq<PeerInfo>)
    returns (sys': Sys)
    requires Plays(sys, n, s, full, granted) && Lists(sys.e, [PeerInfo(n, address.0, address.1)] + others)
    requires m in sys.net && m.Install? && m.dst == n && SliceFor(m, a) && AppendEntries(a) in sys.net
    requires E.Beat(a.src, a.term, n) in sys.e.beats && m.term >= s.term && s.lastApplied <= m.upto
    ensures Reaches(sys, sys') && OnlyActor(sys, sys', n)
    ensures Plays(sys', n, Node.Restart(Loaded(s, m), address, others), full, [])
    ensures sys'.calls == FailReads(sys.calls, n)
  {
    hide Reaches, Plays, Durable, OnlyActor, OnlyNode, Lists, FailReads, Node.Restart, Loaded, NextStep;
    var mid := Learns(sys, n, s, full, granted, AppendEntries(a));
    var up := LoadsStore(mid, n, s, full, granted, m, a) by { assert m in mid.net by { MoreNet(sys, mid, n); } }
    ThenReaches(sys, mid, up);
    OnlyNodeTwice(sys, mid, up, n);
    sys' := ThenRestarts(sys, up, n, Loaded(s, m), full, address, others);
  }

  lemma MoreNet(sys: Sys, sys': Sys, n: Id)
    requires OnlyNode(sys, sys', n)
    ensures sys.net <= sys'.net
  {
  }

  function Loaded(s: NodeState, m: Message): NodeState
    requires m.Install?
  {
    Node.Heed(s, m.term, m.src).(store := m.store)
  }

  lemma LoadsStore(sys: Sys, n: Id, s: NodeState, full: seq<LogEntry>, granted: seq<int>, m: Message, a: Append) returns (sys': Sys)
    requires m in sys.net && m.Install? && m.dst == n && SliceFor(m, a) && m.term >= s.term && s.lastApplied <= m.upto
    requires Plays(sys, n, Learned(s, AppendEntries(a)), full, granted)
    ensures Reaches(sys, sys') && OnlyNode(sys, sys', n) && Durable(sys', n, Loaded(s, m), full)
  {
    hide Reaches, AllOfChange, InMode, Seated, SameBooks, Represents;
    var t := Node.Heed(s, m.term, m.src);
    sys' := WithReplica(sys, n, TakeStore(sys.reps[n], m, false));
    assert NextStep(sys, sys', TakeDump(n, m, false));
    OneStep(sys, sys', TakeDump(n, m, false));
    StillRepresents(t, Loaded(s, m), full);
  }

  // ---- the reply ----

  ghost function AfterInstallReply(sys: Sys, n: Id, m: Message): Sys
    requires n in sys.e.nodes && n in sys.reps && m.InstallReply? && m.dst in sys.reps[n].next && m.dst in sys.reps[n].matched
  {
    var v := sys.e.nodes[n];
    if m.term > v.term then sys.(e := WithVoter(sys.e, n, E.BecomeFollower(v, m.term)))
    else WithReplica(sys, n, TakeInstalled(sys.reps[n], m.dst))
  }

  lemma InstallReplyPermitted(sys: Sys, n: Id, m: Message)
    requires n in sys.e.nodes && n in sys.reps && sys.e.nodes[n].role == Leader
    requires m in sys.net && m.InstallReply? && m.src == n && m.asked == sys.e.nodes[n].term
    requires m.dst in sys.reps[n].next && m.dst in sys.reps[n].matched && sys.reps[n].boundary <= |sys.reps[n].log|
    requires m.term > sys.e.nodes[n].term || sys.reps[n].boundary <= m.base || sys.reps[n].boundary <= sys.reps[n].matched[m.dst]
    ensures NextStep(sys, AfterInstallReply(sys, n, m), Step.TakeInstallReply(n, m))
    ensures OnlyNode(sys, AfterInstallReply(sys, n, m), n)
  {
    hide TakeInstalled;
  }

  lemma InstallReplyRefines(sys: Sys, n: Id, s: NodeState, full: seq<LogEntry>, granted: seq<int>, m: Message,
      i: nat) returns (sys': Sys)
    requires Plays(sys, n, s, full, granted) && s.role == Leader
    requires m in sys.net && m.InstallReply? && m.src == n && m.asked == s.term
    requires i < |s.peers| && i < |s.nextIndex| && i < |s.matchIndex| && s.peers[i].id == m.dst
    requires m.term > s.term || s.lastIncludedIndex <= m.base || s.lastIncludedIndex <= s.matchIndex[i]
    ensures var t := Node.TakeInstallReply(s, i, m.asked, InstallSnapshotReply(m.term));
      Reaches(sys, sys') && OnlyNode(sys, sys', n) && Plays(sys', n, t, full, granted)
  {
    hide Reaches, Plays, NextStep, OnlyNode;
    PlaysHere(sys, n, s, full, granted);
    SlotIs(sys, n, s, full, granted, i);
    sys' := AfterInstallReply(sys, n, m);
    InstallReplyPermitted(sys, n, m);
    OneStep(sys, sys', Step.TakeInstallReply(n, m));
    if m.term > s.term {
      FollowerPlays(sys, sys', n, s, full, granted, m.term);
    } else {
      var base := s.lastIncludedIndex;
      SlotPlays(sys, n, s, full, granted, i, base + 1, if s.matchIndex[i] >= base then s.matchIndex[i] else base);
    }
  }
}
