/** Every step keeps each node's database a replay of the committed sequence. */
module StoreProof {
  import opened Types
  import opened Protocol
  import opened Invariant
  import opened Frames
  import opened LogProof
  import opened RoleProof
  import opened CommitProof
  import opened NetProof
  import opened Safety
  import opened Replay
  import E = Election

  /** applied[n] is the longest sequence n's database went through. What it holds beyond
      `lastApplied_` dates from an earlier life, hence from an earlier term than any it may lead. */
  ghost predicate StoreAt(h: History, rep: Replica, v: E.Voter, past: seq<LogEntry>) {
    && rep.applied <= rep.commit
    && Agree(past, rep.log, rep.applied)
    && CommitOK(h, past, |past|, v.term)
    && (rep.applied < |past| && v.role != Follower ==> v.term > 0 && CommitOK(h, past, |past|, v.term - 1))
    && Replays(rep.store, past, rep.applied)
  }

  /** Every snapshot in flight is a database that was right for its sender. */
  ghost predicate DumpsOK(s: Sys, h: History) {
    forall m | m in s.net && m.Install? :: Dumped(h, m)
  }

  ghost predicate Dumped(h: History, m: Message)
    requires m.Install?
  {
    exists past :: DumpOf(h, m, past)
  }

  ghost predicate StoresOK(s: Sys, h: History) {
    forall n | n in s.reps && n in s.e.nodes && n in h.applied :: StoreAt(h, s.reps[n], s.e.nodes[n], h.applied[n])
  }

  ghost predicate StoreOK(s: Sys, h: History) {
    StoresOK(s, h) && DumpsOK(s, h)
  }

  lemma StoreStep(s: Sys, h: History, s': Sys, step: Step)
    requires LogInv(s, h) && StoreOK(s, h) && NextStep(s, s', step) && LogInv(s', Record(s, h, step))
    ensures StoreOK(s', Record(s, h, step))
  {
    var h' := Record(s, h, step);
    hide LogInv, NextStep, Record, StoreAt;
    forall n | n in s'.reps && n in s'.e.nodes && n in h'.applied
      ensures StoreAt(h', s'.reps[n], s'.e.nodes[n], h'.applied[n])
    {
      StoreAtStep(s, h, s', step, n);
    }
    DumpsStep(s, h, s', step);
  }

  lemma DumpsStep(s: Sys, h: History, s': Sys, step: Step)
    requires LogInv(s, h) && StoreOK(s, h) && NextStep(s, s', step)
    ensures DumpsOK(s', Record(s, h, step))
  {
    hide LogInv, NextStep, Record, StoresOK, Dumped, Sent;
    NetGrows(s, s', step);
    forall m | m in s'.net && m.Install?
      ensures Dumped(Record(s, h, step), m)
    {
      if m !in s.net {
        NewDump(s, h, s', step, m);
      }
      DumpStays(s, h, s', step, m);
    }
  }

  lemma DumpStays(s: Sys, h: History, s': Sys, step: Step, m: Message)
    requires LogInv(s, h) && NextStep(s, s', step) && m.Install? && Dumped(h, m)
    ensures Dumped(Record(s, h, step), m)
  {
    hide LogInv, NextStep, Record, Replays, CommitOK;
    var past :| DumpOf(h, m, past);
    PastStays(s, h, s', step, past, m.term, m.term);
    assert DumpOf(Record(s, h, step), m, past);
  }

  lemma OnlySnapshots(s: Sys, s': Sys, step: Step, m: Message)
    requires NextStep(s, s', step) && m in Sent(s, step) && m.Install?
    ensures step.SendSnapshot? && m == MakeInstall(s.reps[step.n], step.n, step.p, s.e.nodes[step.n].term)
  {
    hide NextStep, Grants, PrevMatches, MakeAppend, MakeReadBeat;
  }

  lemma NewDump(s: Sys, h: History, s': Sys, step: Step, m: Message)
    requires LogInv(s, h) && StoreOK(s, h) && NextStep(s, s', step) && m in Sent(s, step) && m.Install?
    ensures Dumped(h, m)
  {
    hide LogInv, NextStep, StoreOK, StoreAt, Replays, CommitOK, Sent, Record;
    CfgIsNodes(s, h);
    var n := Actor(s, step);
    OnlySnapshots(s, s', step, m);
    SnapshotFacts(s, h, s', step);
    StoreOf(s, h, n);
    StoreSays(h, s.reps[n], s.e.nodes[n], h.applied[n]);
    ReplayBound(s.reps[n].store, h.applied[n], s.reps[n].applied);
    assert DumpOf(h, m, h.applied[n]);
  }

  lemma TakeDumpFacts(s: Sys, h: History, s': Sys, step: Step)
    requires NextStep(s, s', step) && step.TakeDump?
    ensures var n, m := step.n, step.m;
      && n in s.e.nodes && n in s.reps && m in s.net && m.Install? && s.e.nodes[n].role == Follower && m.term <= s.e.nodes[n].term
      && s.reps[n].applied <= m.upto && (step.whole ==> s.reps[n].boundary <= m.base <= s.reps[n].commit)
      && s'.e == s.e && s'.reps == s.reps[n := TakeStore(s.reps[n], m, step.whole)] && s'.net == s.net
      && Record(s, h, step) == RecordDump(h, n, m)
  {
  }

  lemma DumpChosen(h: History, n: Id, m: Message) returns (past: seq<LogEntry>)
    requires m.Install? && Dumped(h, m)
    ensures DumpOf(h, m, past) && RecordDump(h, n, m) == h.(applied := h.applied[n := past])
  {
    hide DumpOf;
    past := RecordDump(h, n, m).applied[n];
  }

  /** A database taken from a snapshot is as right as the one it was copied from. */
  lemma DumpStep(s: Sys, h: History, s': Sys, step: Step)
    requires LogInv(s, h) && StoreOK(s, h) && NextStep(s, s', step) && step.TakeDump?
    ensures var n, h' := step.n, Record(s, h, step);
      n in s'.reps && n in s'.e.nodes && n in h'.applied && StoreAt(h', s'.reps[n], s'.e.nodes[n], h'.applied[n])
  {
    hide LogInv, NextStep, Record, RecordDump, StoreOK, StoreAt, DumpOf, CommitOK, PointsOK, LeadersKeep, LogsOK, Shape, RolesOK,
      StoredOK, NetOK, PeersOK, NodesKeep, VotesKeep, CommitsOK;
    LogParts(s, h);
    CfgIsNodes(s, h);
    TakeDumpFacts(s, h, s', step);
    CommitOf(s, h, step.n);
    StoreOf(s, h, step.n);
    DumpKnown(s, h, step.m);
    var past := DumpChosen(h, step.n, step.m);
    DumpOnReplica(s, h, Record(s, h, step), s.reps[step.n], s.e.nodes[step.n], h.applied[step.n], past, step.m, step.whole);
  }

  lemma DumpKnown(s: Sys, h: History, m: Message)
    requires StoreOK(s, h) && m in s.net && m.Install?
    ensures Dumped(h, m)
  {
    hide StoresOK, Dumped;
  }

  lemma DumpOnReplica(s: Sys, h: History, h': History, rep: Replica, v: E.Voter, mine: seq<LogEntry>, past: seq<LogEntry>, m: Message,
      whole: bool)
    requires PointsOK(s, h) && LeadersKeep(s, h) && LogsOK(s, h) && CommitOK(h, rep.log, rep.commit, v.term)
    requires m.Install? && DumpOf(h, m, past) && m.term <= v.term && (whole ==> m.base <= rep.commit) && rep.applied <= m.upto
    requires StoreAt(h, rep, v, mine) && v.role == Follower && h'.points == h.points && h'.logs == h.logs
    ensures StoreAt(h', TakeStore(rep, m, whole), v, past)
  {
    hide PointsOK, LeadersKeep, LogsOK, CommitOK, Replays, StoreAt;
    StoreSays(h, rep, v, mine);
    CommitsAgree(s, h, past, |past|, m.term, rep.log, rep.commit, v.term);
    var rep' := TakeStore(rep, m, whole);
    RewindKeepsReplay(m.store, past, m.upto, rep'.applied);
    LaterTerm(h, past, |past|, m.term, v.term);
    SamePoints(h, h', past, |past|, v.term);
    StoreHolds(h', rep', v, past);
  }

  lemma LaterTerm(h: History, log: seq<LogEntry>, c: nat, term: nat, term': nat)
    requires CommitOK(h, log, c, term) && term <= term'
    ensures CommitOK(h, log, c, term')
  {
  }

  lemma StoreAtStep(s: Sys, h: History, s': Sys, step: Step, n: Id)
    requires LogInv(s, h) && StoreOK(s, h) && NextStep(s, s', step) && LogInv(s', Record(s, h, step))
    requires n in s'.reps && n in s'.e.nodes && n in Record(s, h, step).applied
    ensures StoreAt(Record(s, h, step), s'.reps[n], s'.e.nodes[n], Record(s, h, step).applied[n])
  {
    hide LogInv, NextStep, Record, StoreAt;
    StepTermsGrow(s, h, s', step);
    if step.ApplyOne? && n == step.n {
      ApplyStep(s, h, s', step);
    } else if step.TakeDump? && n == step.n {
      DumpStep(s, h, s', step);
    } else {
      AppliedStays(s, h, s', step, n);
      if step.Restart? && n == step.n {
        RestartStep(s, h, s', step);
      } else {
        StoreStays(s, h, s', step, n);
      }
    }
  }

  lemma AppliedStays(s: Sys, h: History, s': Sys, step: Step, n: Id)
    requires NextStep(s, s', step) && !(step.ApplyOne? && n == step.n) && !(step.TakeDump? && n == step.n)
    requires n in Record(s, h, step).applied
    ensures n in h.applied && Record(s, h, step).applied[n] == h.applied[n]
  {
    hide NextStep, E.HasElectionMajority, PrevMatches;
  }

  lemma StoresInVoteStep(s: Sys, s': Sys, step: Step, n: Id)
    requires (step.StartElection? || step.HandleVote? || step.CountVote?) && VoteStep(s, s', step)
    requires n in s.reps && n in s'.reps
    ensures s'.reps[n].store == s.reps[n].store && s'.reps[n].applied == s.reps[n].applied
  {
    hide E.NextStep, E.HasElectionMajority, UpToDate, Grants, LearnIfNewer, LastTerm;
  }

  lemma StoresInLogStep(s: Sys, s': Sys, step: Step, n: Id)
    requires step.ClientAppend? || step.SendAppend? || step.HandleAppend? || step.TakeAppendReply? || step.AdvanceCommit? || step.ApplyOne?
    requires LogStep(s, s', step) && n in s.reps && n in s'.reps && !(step.ApplyOne? && n == step.n)
    ensures s'.reps[n].store == s.reps[n].store && s'.reps[n].applied == s.reps[n].applied
  {
    hide E.NextStep, PrevMatches, Committable, Merge, ApplyToStore, LearnIfNewer, MakeAppend, OwnEntry;
  }

  lemma OtherStoresStay(s: Sys, s': Sys, step: Step, n: Id)
    requires NextStep(s, s', step) && n in s.reps && n in s'.reps
    requires !(step.ApplyOne? && n == step.n) && !(step.Restart? && n == step.n) && !(step.TakeDump? && n == step.n)
    ensures s'.reps[n].store == s.reps[n].store && s'.reps[n].applied == s.reps[n].applied
  {
    hide VoteStep, LogStep, E.NextStep, MakeReadBeat, LearnIfNewer, Get, TermAt, FailReads, OwnEntry;
    if step.StartElection? || step.HandleVote? || step.CountVote? {
      StoresInVoteStep(s, s', step, n);
    } else if step.ClientAppend? || step.SendAppend? || step.HandleAppend? || step.TakeAppendReply? || step.AdvanceCommit? || step.ApplyOne? {
      StoresInLogStep(s, s', step, n);
    }
  }

  /** A commit index never moves back while the node is up, and what it covers never changes. */
  lemma CommitGrows(s: Sys, h: History, s': Sys, step: Step, n: Id)
    requires LogInv(s, h) && NextStep(s, s', step) && LogInv(s', Record(s, h, step))
    requires n in s.reps && n in s'.reps && !(step.Restart? && n == step.n)
    ensures s.reps[n].commit <= s'.reps[n].commit
    ensures Agree(s.reps[n].log, s'.reps[n].log, s.reps[n].commit)
  {
    hide LogInv, NextStep, Record, CommitOK;
    CommitOf(s, h, n);
    if (IsAccept(s, step) && n == Actor(s, step)) || (step.AdvanceCommit? && n == step.n) {
      CommitRises(s, h, s', step, n);
      CommittedStays(s, h, s', step, n);
    } else {
      CommitStays(s, h, s', step, n);
    }
  }

  lemma CommitRises(s: Sys, h: History, s': Sys, step: Step, n: Id)
    requires LogInv(s, h) && NextStep(s, s', step) && n in s.reps && n in s'.reps
    requires (IsAccept(s, step) && n == Actor(s, step)) || (step.AdvanceCommit? && n == step.n)
    ensures s.reps[n].commit <= s'.reps[n].commit
  {
    hide LogInv, NextStep, Record, Receive, Accepts;
    if step.AdvanceCommit? {
      AdvanceFacts(s, h, s', step);
    } else {
      AcceptFacts(s, h, s', step);
      ReceiveShape(s.reps[n], step.a);
      CommitOf(s, h, n);
      AcceptedNodeLog(s, h, s', step);
      AcceptLongEnough(s, h, s', step);
    }
  }

  lemma AcceptLongEnough(s: Sys, h: History, s': Sys, step: Step)
    requires LogInv(s, h) && NextStep(s, s', step) && IsAccept(s, step)
    ensures step.n in s.reps && step.a.prev <= |s.reps[step.n].log|
    ensures |Receive(s.reps[step.n], step.a).log| >= step.a.leaderCommit
  {
    hide LogInv, NextStep, Receive, Accepts, CommitOK, Stored;
    AcceptedReceive(s, h, s', step);
  }

  /** ... because the invariant holds on both sides of the step. */
  lemma CommittedStays(s: Sys, h: History, s': Sys, step: Step, n: Id)
    requires LogInv(s, h) && NextStep(s, s', step) && LogInv(s', Record(s, h, step))
    requires n in s.reps && n in s'.reps && s.reps[n].commit <= s'.reps[n].commit
    ensures Agree(s.reps[n].log, s'.reps[n].log, s.reps[n].commit)
  {
    var h' := Record(s, h, step);
    hide LogInv, NextStep, Record, CommitOK, Shape, RolesOK, LogsOK, StoredOK, NetOK, PeersOK, NodesKeep, VotesKeep,
      LeadersKeep,
      PointsOK, CommitsOK, LogsGrow;
    LogParts(s', h');
    CommitOf(s, h, n);
    CommitOf(s', h', n);
    StepLogsGrow(s, h, s', step);
    StepPointsGrow(s, h, step);
    CommitFits(h, s.reps[n].log, s.reps[n].commit, s.e.nodes[n].term);
    CommitOKStays(h, h', s.reps[n].log, s.reps[n].log, s.reps[n].commit, s.e.nodes[n].term, s.e.nodes[n].term);
    CommitsAgree(s', h', s.reps[n].log, s.reps[n].commit, s.e.nodes[n].term, s'.reps[n].log, s'.reps[n].commit, s'.e.nodes[n].term);
  }

  lemma PastStays(s: Sys, h: History, s': Sys, step: Step, past: seq<LogEntry>, term: nat, term': nat)
    requires LogInv(s, h) && NextStep(s, s', step) && CommitOK(h, past, |past|, term) && term <= term'
    ensures CommitOK(Record(s, h, step), past, |past|, term')
  {
    hide LogInv, NextStep, Record, CommitOK, LogsGrow;
    StepLogsGrow(s, h, s', step);
    StepPointsGrow(s, h, step);
    CommitOKStays(h, Record(s, h, step), past, past, |past|, term, term');
  }

  lemma StoreStays(s: Sys, h: History, s': Sys, step: Step, n: Id)
    requires LogInv(s, h) && StoreOK(s, h) && NextStep(s, s', step) && LogInv(s', Record(s, h, step))
    requires n in s.reps && n in s.e.nodes && n in h.applied && n in s'.reps && n in s'.e.nodes
    requires !(step.ApplyOne? && n == step.n) && !(step.Restart? && n == step.n) && !(step.TakeDump? && n == step.n)
    ensures StoreAt(Record(s, h, step), s'.reps[n], s'.e.nodes[n], h.applied[n])
  {
    hide *;
    var past := h.applied[n];
    StoreOf(s, h, n);
    StoreSays(h, s.reps[n], s.e.nodes[n], past);
    OtherStoresStay(s, s', step, n);
    CommitGrows(s, h, s', step, n);
    AppliedPrefix(past, s.reps[n], s'.reps[n]);
    PastOfLife(s, h, s', step, n, past);
    StoreHolds(Record(s, h, step), s'.reps[n], s'.e.nodes[n], past);
  }

  lemma PastOfLife(s: Sys, h: History, s': Sys, step: Step, n: Id, past: seq<LogEntry>)
    requires LogInv(s, h) && NextStep(s, s', step) && n in s.reps && n in s.e.nodes && n in s'.e.nodes
    requires CommitOK(h, past, |past|, s.e.nodes[n].term)
    requires s.reps[n].applied < |past| && s.e.nodes[n].role != Follower ==>
      s.e.nodes[n].term > 0 && CommitOK(h, past, |past|, s.e.nodes[n].term - 1)
    ensures CommitOK(Record(s, h, step), past, |past|, s'.e.nodes[n].term)
    ensures s.reps[n].applied < |past| && s'.e.nodes[n].role != Follower ==>
      s'.e.nodes[n].term > 0 && CommitOK(Record(s, h, step), past, |past|, s'.e.nodes[n].term - 1)
  {
    hide *;
    TermGrows(s, h, s', step, n);
    PastStays(s, h, s', step, past, s.e.nodes[n].term, s'.e.nodes[n].term);
    if s.reps[n].applied < |past| && s'.e.nodes[n].role != Follower {
      OldLifeStays(s, h, s', step, n, past);
    }
  }

  lemma TermGrows(s: Sys, h: History, s': Sys, step: Step, n: Id)
    requires LogInv(s, h) && NextStep(s, s', step) && n in s.e.nodes && n in s'.e.nodes
    ensures s.e.nodes[n].term <= s'.e.nodes[n].term
  {
    hide LogInv, NextStep;
    StepTermsGrow(s, h, s', step);
  }

  lemma StoreSays(h: History, rep: Replica, v: E.Voter, past: seq<LogEntry>)
    requires StoreAt(h, rep, v, past)
    ensures rep.applied <= rep.commit && Agree(past, rep.log, rep.applied) && CommitOK(h, past, |past|, v.term)
    ensures rep.applied < |past| && v.role != Follower ==> v.term > 0 && CommitOK(h, past, |past|, v.term - 1)
    ensures Replays(rep.store, past, rep.applied)
  {
  }

  lemma StoreHolds(h: History, rep: Replica, v: E.Voter, past: seq<LogEntry>)
    requires rep.applied <= rep.commit && Agree(past, rep.log, rep.applied) && CommitOK(h, past, |past|, v.term)
    requires rep.applied < |past| && v.role != Follower ==> v.term > 0 && CommitOK(h, past, |past|, v.term - 1)
    requires Replays(rep.store, past, rep.applied)
    ensures StoreAt(h, rep, v, past)
  {
  }

  lemma AppliedPrefix(past: seq<LogEntry>, rep: Replica, rep': Replica)
    requires rep.applied <= rep.commit && Agree(past, rep.log, rep.applied) && Agree(rep.log, rep'.log, rep.commit)
    ensures Agree(past, rep'.log, rep.applied)
  {
  }

  lemma OldLifeStays(s: Sys, h: History, s': Sys, step: Step, n: Id, past: seq<LogEntry>)
    requires LogInv(s, h) && NextStep(s, s', step) && n in s.e.nodes && n in s'.e.nodes
    requires CommitOK(h, past, |past|, s.e.nodes[n].term)
    requires s.e.nodes[n].role != Follower ==> s.e.nodes[n].term > 0 && CommitOK(h, past, |past|, s.e.nodes[n].term - 1)
    requires s'.e.nodes[n].role != Follower
    ensures s'.e.nodes[n].term > 0 && CommitOK(Record(s, h, step), past, |past|, s'.e.nodes[n].term - 1)
  {
    hide LogInv, NextStep, Record, CommitOK, IsAccept, IsPropose, WinsNow;
    RolesArise(s, h, s', step, n);
    if step.StartElection? && n == Actor(s, step) {
      StartFacts(s, h, s', step);
      PastStays(s, h, s', step, past, s.e.nodes[n].term, s.e.nodes[n].term);
    } else {
      if IsWin(s, step) && n == Actor(s, step) {
        WinFacts(s, h, s', step);
      }
      PastStays(s, h, s', step, past, s.e.nodes[n].term - 1, s.e.nodes[n].term - 1);
    }
  }

  lemma RestartStep(s: Sys, h: History, s': Sys, step: Step)
    requires LogInv(s, h) && StoreOK(s, h) && NextStep(s, s', step) && step.Restart?
    requires step.n in s.reps && step.n in s.e.nodes && step.n in h.applied && step.n in s'.reps && step.n in s'.e.nodes
    ensures StoreAt(Record(s, h, step), s'.reps[step.n], s'.e.nodes[step.n], h.applied[step.n])
  {
    var n := step.n;
    assert StoreAt(h, s.reps[n], s.e.nodes[n], h.applied[n]);
    hide LogInv, NextStep, Record, CommitOK, StoreOK, StoreAt;
    RestartFacts(s, h, s', step);
    RewindStore(h, s.reps[n], s.e.nodes[n], h.applied[n], s'.e.nodes[n]);
  }

  lemma RewindStore(h: History, rep: Replica, v: E.Voter, past: seq<LogEntry>, v': E.Voter)
    requires StoreAt(h, rep, v, past) && rep.boundary <= rep.applied && v'.term == v.term && v'.role == Follower
    ensures StoreAt(h, rep.(commit := rep.boundary, applied := rep.boundary, next := map[], matched := map[]), v', past)
  {
    hide CommitOK, Replays;
    RewindKeepsReplay(rep.store, past, rep.applied, rep.boundary);
  }

  lemma ApplyFacts(s: Sys, h: History, s': Sys, step: Step)
    requires NextStep(s, s', step) && step.ApplyOne?
    ensures var n := step.n;
      && n in s.e.nodes && n in s.reps && s'.e == s.e
      && var rep := s.reps[n]; var k := rep.applied;
      && k < rep.commit && k < |rep.log|
      && s'.reps == s.reps[n := rep.(applied := k + 1, store := ApplyToStore(rep.store, rep.log[k]))]
      && Record(s, h, step) == RecordApply(h, n, k, rep.log[k])
  {
  }

  lemma ApplyStep(s: Sys, h: History, s': Sys, step: Step)
    requires LogInv(s, h) && StoreOK(s, h) && NextStep(s, s', step) && step.ApplyOne?
    requires step.n in s'.reps && step.n in s'.e.nodes && step.n in Record(s, h, step).applied
    ensures StoreAt(Record(s, h, step), s'.reps[step.n], s'.e.nodes[step.n], Record(s, h, step).applied[step.n])
  {
    hide LogInv, NextStep, Record, CommitOK, Replays, StoreOK, StoreAt, RecordApply, ApplyToStore, Actor;
    CfgIsNodes(s, h);
    ApplyFacts(s, h, s', step);
    ApplyOnNode(s, h, step.n);
  }

  lemma ApplyOnNode(s: Sys, h: History, n: Id)
    requires LogInv(s, h) && StoreOK(s, h) && n in s.reps && n in s.e.nodes && n in h.applied
    requires s.reps[n].applied < s.reps[n].commit && s.reps[n].applied < |s.reps[n].log|
    ensures var rep := s.reps[n]; var k := rep.applied; var h' := RecordApply(h, n, k, rep.log[k]);
      n in h'.applied && StoreAt(h', rep.(applied := k + 1, store := ApplyToStore(rep.store, rep.log[k])), s.e.nodes[n], h'.applied[n])
  {
    hide LogInv, CommitOK, Replays, StoreOK, StoreAt, ApplyToStore, PointsOK, LeadersKeep, LogsOK, Shape, RolesOK,
      StoredOK, NetOK, PeersOK,
      NodesKeep, VotesKeep, CommitsOK;
    LogParts(s, h);
    CommitOf(s, h, n);
    StoreOf(s, h, n);
    ApplyOnReplica(s, h, s.reps[n], s.e.nodes[n], n);
  }

  lemma StoreOf(s: Sys, h: History, n: Id)
    requires StoreOK(s, h) && n in s.reps && n in s.e.nodes && n in h.applied
    ensures StoreAt(h, s.reps[n], s.e.nodes[n], h.applied[n])
  {
  }

  lemma ApplyOnReplica(s: Sys, h: History, rep: Replica, v: E.Voter, n: Id)
    requires PointsOK(s, h) && LeadersKeep(s, h) && LogsOK(s, h) && CommitOK(h, rep.log, rep.commit, v.term)
    requires n in h.applied && StoreAt(h, rep, v, h.applied[n])
    requires rep.applied < rep.commit && rep.applied < |rep.log|
    ensures var k := rep.applied; var h' := RecordApply(h, n, k, rep.log[k]);
      StoreAt(h', rep.(applied := k + 1, store := ApplyToStore(rep.store, rep.log[k])), v, h'.applied[n])
  {
    hide PointsOK, LeadersKeep, LogsOK, CommitOK, Replays, StoreAt, ApplyToStore;
    var past := h.applied[n];
    StoreSays(h, rep, v, past);
    if rep.applied == |past| {
      ApplyFresh(h, RecordApply(h, n, rep.applied, rep.log[rep.applied]), rep, v, past);
    } else {
      ReplayOld(s, h, rep, v, past);
    }
  }

  lemma ApplyFresh(h: History, h': History, rep: Replica, v: E.Voter, past: seq<LogEntry>)
    requires CommitOK(h, rep.log, rep.commit, v.term) && StoreAt(h, rep, v, past)
    requires rep.applied == |past| && rep.applied < rep.commit && rep.applied < |rep.log|
    requires h'.points == h.points && h'.logs == h.logs
    ensures StoreAt(h', rep.(applied := rep.applied + 1, store := ApplyToStore(rep.store, rep.log[rep.applied])), v, past + [rep.log[rep.applied]])
  {
    hide CommitOK, Replays, StoreAt, ApplyToStore;
    var k := rep.applied;
    StoreSays(h, rep, v, past);
    assert Agree(past + [rep.log[k]], rep.log, k + 1);
    ApplyNew(rep.store, past, rep.log[k]);
    CommitPrefix(h, rep.log, rep.commit, past + [rep.log[k]], k + 1, v.term);
    SamePoints(h, h', past + [rep.log[k]], k + 1, v.term);
    StoreHolds(h', rep.(applied := k + 1, store := ApplyToStore(rep.store, rep.log[k])), v, past + [rep.log[k]]);
  }

  lemma ReplayOld(s: Sys, h: History, rep: Replica, v: E.Voter, past: seq<LogEntry>)
    requires PointsOK(s, h) && LeadersKeep(s, h) && LogsOK(s, h) && CommitOK(h, rep.log, rep.commit, v.term)
    requires StoreAt(h, rep, v, past) && rep.applied < rep.commit && rep.applied < |rep.log| && rep.applied < |past|
    ensures StoreAt(h, rep.(applied := rep.applied + 1, store := ApplyToStore(rep.store, rep.log[rep.applied])), v, past)
  {
    hide PointsOK, LeadersKeep, LogsOK, CommitOK, Replays, StoreAt, ApplyToStore;
    StoreSays(h, rep, v, past);
    CommitsAgree(s, h, past, |past|, v.term, rep.log, rep.commit, v.term);
    ApplyKeepsReplay(rep.store, past, rep.applied);
    StoreHolds(h, rep.(applied := rep.applied + 1, store := ApplyToStore(rep.store, rep.log[rep.applied])), v, past);
  }

  lemma CommitPrefix(h: History, log: seq<LogEntry>, c: nat, log': seq<LogEntry>, c': nat, term: nat)
    requires CommitOK(h, log, c, term) && c' <= c && Agree(log, log', c')
    ensures CommitOK(h, log', c', term)
  {
    if c' > 0 {
      var p :| Covered(h, log, c, p) && p.term <= term;
      assert Covered(h, log', c', p);
    }
  }

  lemma SamePoints(h: History, h': History, log: seq<LogEntry>, c: nat, term: nat)
    requires h'.points == h.points && h'.logs == h.logs && CommitOK(h, log, c, term)
    ensures CommitOK(h', log, c, term)
  {
    if c > 0 {
      var p :| Covered(h, log, c, p) && p.term <= term;
      assert Covered(h', log, c, p);
    }
  }

  /** A leader that has applied an entry of its own term has caught up with its database. */
  lemma LeaderCaughtUp(s: Sys, h: History, n: Id, i: nat)
    requires LogInv(s, h) && StoreOK(s, h) && n in s.reps && n in s.e.nodes && n in h.applied
    requires s.e.nodes[n].role == Leader && 1 <= i <= s.reps[n].applied && i <= |s.reps[n].log|
    requires s.reps[n].log[i - 1].term == s.e.nodes[n].term
    ensures s.reps[n].applied <= |s.reps[n].log| && s.reps[n].store == Fold(s.reps[n].log[..s.reps[n].applied])
  {
    hide LogInv, CommitOK, Replays, StoreOK, StoreAt, Fold, Agree;
    StoreOf(s, h, n);
    NothingFromThePast(s, h, n, i);
    StoreIsFold(h, s.reps[n], s.e.nodes[n], h.applied[n]);
  }

  lemma StoreIsFold(h: History, rep: Replica, v: E.Voter, past: seq<LogEntry>)
    requires StoreAt(h, rep, v, past) && |past| <= rep.applied
    ensures rep.applied <= |rep.log| && rep.store == Fold(rep.log[..rep.applied])
  {
    hide CommitOK, Replays;
    ReplayBound(rep.store, past, rep.applied);
    CaughtUp(rep.store, past);
    assert past == rep.log[..rep.applied];
  }

  lemma NothingFromThePast(s: Sys, h: History, n: Id, i: nat)
    requires LogInv(s, h) && n in s.reps && n in s.e.nodes && n in h.applied && StoreAt(h, s.reps[n], s.e.nodes[n], h.applied[n])
    requires s.e.nodes[n].role == Leader && 1 <= i <= s.reps[n].applied && i <= |s.reps[n].log|
    requires s.reps[n].log[i - 1].term == s.e.nodes[n].term
    ensures |h.applied[n]| <= s.reps[n].applied
  {
    var t, past := s.e.nodes[n].term, h.applied[n];
    hide LogInv, CommitOK, StoreAt, PointsOK, LeadersKeep, LogsOK, Shape, RolesOK, StoredOK, NetOK, PeersOK,
      NodesKeep, VotesKeep, CommitsOK,
      TermLogOK, Agree, Replays;
    LogParts(s, h);
    LeaderTermIsWon(s, h, n);
    TermLogIs(s, h, t);
    StoreSays(h, s.reps[n], s.e.nodes[n], past);
    OwnEntriesFollowBase(h, t, i);
    if s.reps[n].applied < |past| {
      CommittedInLeader(s, h, past, |past|, t - 1, t);
    }
  }

  lemma OwnEntriesFollowBase(h: History, t: nat, i: nat)
    requires t in h.logs && TermLogOK(h, t) && 1 <= i <= |h.logs[t].log| && h.logs[t].log[i - 1].term == t
    ensures i > |h.logs[t].base|
  {
    assert EntryOK(h, t, i - 1);
  }

  lemma ReplayBound(store: map<string, string>, log: seq<LogEntry>, k: nat)
    requires Replays(store, log, k)
    ensures k <= |log|
  {
  }
}
