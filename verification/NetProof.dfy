/** Every step keeps the messages in flight, and the leader's view of its peers, truthful. */
module NetProof {
  import opened Types
  import opened Protocol
  import opened Invariant
  import opened Growth
  import opened Frames
  import opened LogProof
  import opened RoleProof
  import opened CommitProof
  import E = Election

  // ---- old messages ----

  lemma AppendOKStays(s: Sys, h: History, s': Sys, h': History, a: Append)
    requires Grows(s, h, s', h') && s.e.beats <= s'.e.beats && AppendOK(s, h, a)
    ensures AppendOK(s', h', a)
  {
    var log, log' := h.logs[a.term].log, h'.logs[a.term].log;
    assert Agree(log, log', |log|);
    hide CommitOK, Stored;
    CommitFits(h, log, a.leaderCommit, a.term);
    CommitOKStays(h, h', log, log', a.leaderCommit, a.term, a.term);
  }

  lemma MessageStays(s: Sys, h: History, s': Sys, h': History, m: Message)
    requires Grows(s, h, s', h') && s.e.votes <= s'.e.votes && s.e.beats <= s'.e.beats && s.net <= s'.net && MessageOK(s, h, m)
    ensures MessageOK(s', h', m)
  {
    hide AppendOK, Stored;
    match m
    case AppendEntries(a) => AppendOKStays(s, h, s', h', a);
    case AppendReply(a, _, _) => AppendOKStays(s, h, s', h', a);
    case Install(_, _, term, base, _, _, _) => assert h'.logs[term].log[..base] == h.logs[term].log[..base];
    case _ =>
  }

  // ---- new messages ----

  /** Commit never outruns verification: what a leader sends ends at its last entry, which its
      commit index does not pass. */
  lemma LeaderSends(s: Sys, h: History, n: Id, a: Append)
    requires RolesOK(s, h) && CommitsOK(s, h)
    requires n in s.e.nodes && n in s.reps && s.e.nodes[n].role == Leader
    requires a.src == n && a.term == s.e.nodes[n].term && a.dst in s.e.nodes
    requires E.Beat(a.src, a.term, a.dst) in s.e.beats
    requires a.prev <= |s.reps[n].log| && a.entries == s.reps[n].log[a.prev..] && a.prevTerm == TermAt(s.reps[n].log, a.prev)
    requires a.leaderCommit == s.reps[n].commit
    ensures AppendOK(s, h, a)
  {
  }

  lemma SentByReplicate(s: Sys, h: History, n: Id, p: Id)
    requires PeersOK(s, h) && n in s.e.nodes && n in s.reps && s.e.nodes[n].role == Leader
    requires p in s.reps[n].next && s.reps[n].next[p] >= 1
    ensures var rep, a := s.reps[n], MakeAppend(s.reps[n], n, p, s.e.nodes[n].term);
      a.prev <= |rep.log| && a.entries == rep.log[a.prev..] && a.prevTerm == TermAt(rep.log, a.prev)
      && a.leaderCommit == rep.commit && a.src == n && a.dst == p && a.term == s.e.nodes[n].term && a.call == None
  {
  }

  lemma SentByRead(s: Sys, n: Id, p: Id, term: nat, r: nat)
    requires n in s.reps
    ensures var rep, a := s.reps[n], MakeReadBeat(s.reps[n], n, p, term, r);
      a.prev <= |rep.log| && a.entries == rep.log[a.prev..] && a.prevTerm == TermAt(rep.log, a.prev)
      && a.leaderCommit == rep.commit && a.src == n && a.dst == p && a.term == term && a.call == Some(r)
  {
  }

  /** The messages a step can add. */
  ghost function Sent(s: Sys, step: Step): set<Message> {
    var n := Actor(s, step);
    if !(n in s.e.nodes && n in s.reps) then {} else
    var v, rep := s.e.nodes[n], s.reps[n];
    match step
    case StartElection(_) => {RequestVote(n, v.term + 1, |rep.log|, LastTerm(rep.log))}
    case HandleVote(_, m) =>
      if !m.RequestVote? then {} else
      var grant := Grants(v, rep.log, m.cand, m.term, m.lastIndex, m.lastTerm);
      {VoteReply(n, m.cand, m.term, if grant then m.term else v.term, grant)}
    case SendAppend(_, p) =>
      if p !in rep.next || rep.next[p] < 1 then {} else {AppendEntries(MakeAppend(rep, n, p, v.term))}
    case HandleAppend(_, a) =>
      var ok := a.term >= v.term && PrevMatches(rep.log, a);
      {AppendReply(a, if ok then a.term else v.term, ok)}
    case SendSnapshot(_, p) =>
      if rep.boundary > |rep.log| then {}
      else {AppendEntries(Slice(n, p, v.term, rep.log, rep.boundary)), MakeInstall(rep, n, p, v.term)}
    case AnswerInstall(_, m, _) =>
      if !m.Install? then {} else {InstallReply(m.src, n, m.term, if v.term > m.term then v.term else m.term, m.base)}
    case ReadBeat(r, p) => {AppendEntries(MakeReadBeat(rep, n, p, v.term, r))}
    case IgnoreVote(_, m) => if !m.RequestVote? then {} else {VoteReply(n, m.cand, m.term, v.term, false)}
    case IgnoreAppend(_, a) => {AppendReply(a, v.term, false)}
    case _ => {}
  }

  lemma NetInVoteStep(s: Sys, s': Sys, step: Step)
    requires (step.StartElection? || step.HandleVote? || step.CountVote?) && VoteStep(s, s', step)
    ensures s'.net == s.net + Sent(s, step)
  {
    hide E.NextStep, E.HasElectionMajority, Grants, LearnIfNewer, NewLeader, LastTerm;
  }

  lemma NetInLogStep(s: Sys, s': Sys, step: Step)
    requires step.ClientAppend? || step.SendAppend? || step.HandleAppend? || step.TakeAppendReply? || step.AdvanceCommit? || step.ApplyOne?
    requires LogStep(s, s', step)
    ensures s'.net == s.net + Sent(s, step)
  {
    hide E.NextStep, PrevMatches, Committable, Propose, MakeAppend, ApplyToStore, TakeSuccess, TakeFailure, Receive,
      LearnIfNewer;
  }

  lemma NetGrows(s: Sys, s': Sys, step: Step)
    requires NextStep(s, s', step)
    ensures s'.net == s.net + Sent(s, step)
  {
    hide VoteStep, LogStep, E.NextStep, MakeReadBeat, MakeAppend, Propose, LearnIfNewer, Get, TermAt, FailReads, Grants,
      PrevMatches;
    if step.StartElection? || step.HandleVote? || step.CountVote? {
      NetInVoteStep(s, s', step);
    } else if step.ClientAppend? || step.SendAppend? || step.HandleAppend? || step.TakeAppendReply? || step.AdvanceCommit? || step.ApplyOne? {
      NetInLogStep(s, s', step);
    }
  }

  lemma NetStep(s: Sys, h: History, s': Sys, step: Step)
    requires LogInv(s, h) && NextStep(s, s', step)
    ensures NetOK(s', Record(s, h, step))
  {
    var h' := Record(s, h, step);
    hide LogInv, NextStep, Record, MessageOK, Sent, Shape, RolesOK, LogsOK, StoredOK, PeersOK, NodesKeep, VotesKeep,
      LeadersKeep,
      PointsOK, CommitsOK, Grows;
    LogParts(s, h);
    StepGrows(s, h, s', step);
    NetGrows(s, s', step);
    forall m | m in s'.net
      ensures MessageOK(s', h', m)
    {
      if m in s.net {
        MessageStays(s, h, s', h', m);
      } else {
        NewMessage(s, h, s', step, m);
      }
    }
  }

  lemma NewMessage(s: Sys, h: History, s': Sys, step: Step, m: Message)
    requires LogInv(s, h) && NextStep(s, s', step) && m in Sent(s, step)
    ensures MessageOK(s', Record(s, h, step), m)
  {
    hide LogInv, NextStep, Record, MessageOK, Grants, PrevMatches, MakeAppend, MakeReadBeat;
    if step.StartElection? {
      StartMessage(s, h, s', step, m);
    } else if step.HandleVote? {
      VoteMessage(s, h, s', step, m);
    } else if step.HandleAppend? {
      ReplyMessage(s, h, s', step, m);
    } else if step.SendAppend? || step.ReadBeat? {
      AppendMessage(s, h, s', step, m);
    } else if step.IgnoreAppend? {
      RefusalMessage(s, h, s', step, m);
    } else if step.SendSnapshot? {
      SnapshotMessage(s, h, s', step, m);
    } else if step.AnswerInstall? {
      InstallReplyMessage(s, h, s', step, m);
    } else {
      RefusedVoteMessage(s, s', Record(s, h, step), step, m);
    }
  }

  lemma RefusedVoteMessage(s: Sys, s': Sys, h: History, step: Step, m: Message)
    requires m in Sent(s, step) && !step.StartElection? && !step.HandleVote? && !step.HandleAppend? && !step.SendAppend? && !step.ReadBeat?
    requires !step.IgnoreAppend? && !step.SendSnapshot? && !step.AnswerInstall?
    ensures MessageOK(s', h, m)
  {
  }

  lemma SnapshotFacts(s: Sys, h: History, s': Sys, step: Step)
    requires NextStep(s, s', step) && step.SendSnapshot?
    ensures var n, p := step.n, step.p;
      && n in s.e.nodes && n in s.reps && s.e.nodes[n].role == Leader && p in E.Active(s.e, s.e.nodes[n].mode)
      && s'.e == s.e.(beats := s.e.beats + {E.Beat(n, s.e.nodes[n].term, p)})
      && s'.reps == s.reps && s'.calls == s.calls && Record(s, h, step) == h
      && var rep := s.reps[n];
      && rep.boundary <= rep.applied && rep.boundary <= rep.commit && rep.boundary <= |rep.log|
      && AppendEntries(Slice(n, p, s.e.nodes[n].term, rep.log, rep.boundary)) in s'.net
  {
  }

  lemma SnapshotMessage(s: Sys, h: History, s': Sys, step: Step, m: Message)
    requires LogInv(s, h) && NextStep(s, s', step) && m in Sent(s, step) && step.SendSnapshot?
    ensures MessageOK(s', Record(s, h, step), m)
  {
    hide LogInv, NextStep, Record, LogsOK, Shape, StoredOK, PeersOK, NodesKeep, VotesKeep, LeadersKeep, NetOK,
      PointsOK, CommitsOK, CommitOK;
    LogParts(s, h);
    CfgIsNodes(s, h);
    SnapshotFacts(s, h, s', step);
    var rep, v := s.reps[step.n], s.e.nodes[step.n];
    CommitOf(s, h, step.n);
    ShorterCommit(h, rep.log, rep.commit, rep.boundary, v.term);
  }

  lemma AnswerFacts(s: Sys, h: History, s': Sys, step: Step)
    requires NextStep(s, s', step) && step.AnswerInstall?
    ensures var n, m, a := step.n, step.m, step.a;
      && n in s.e.nodes && n in s.reps && s'.e == s.e && s'.reps == s.reps && Record(s, h, step) == h && m.Install?
      && (s.e.nodes[n].term > m.term ||
          (a.dst == n && a.term == m.term && a.prev == 0 && |a.entries| == m.base && AppendReply(a, m.term, true) in s.net))
  {
  }

  /** The entries were accepted before the snapshot is answered. */
  lemma InstallReplyMessage(s: Sys, h: History, s': Sys, step: Step, m: Message)
    requires LogInv(s, h) && NextStep(s, s', step) && m in Sent(s, step) && step.AnswerInstall?
    ensures MessageOK(s', Record(s, h, step), m)
  {
    hide LogInv, NextStep, Record, LogsOK, RolesOK, Shape, StoredOK, PeersOK, NodesKeep, VotesKeep, LeadersKeep, NetOK,
      PointsOK, CommitsOK, AppendOK;
    LogParts(s, h);
    AnswerFacts(s, h, s', step);
    if s.e.nodes[step.n].term <= step.m.term {
      ReplyVouches(s, h, AppendReply(step.a, step.m.term, true));
    }
  }

  lemma StartMessage(s: Sys, h: History, s': Sys, step: Step, m: Message)
    requires NextStep(s, s', step) && m in Sent(s, step) && step.StartElection?
    ensures MessageOK(s', Record(s, h, step), m)
  {
    hide NextStep, Record;
    StartFacts(s, h, s', step);
  }

  lemma VoteMessage(s: Sys, h: History, s': Sys, step: Step, m: Message)
    requires NextStep(s, s', step) && m in Sent(s, step) && step.HandleVote?
    ensures MessageOK(s', Record(s, h, step), m)
  {
    hide Grants, Record;
  }

  lemma ReplyMessage(s: Sys, h: History, s': Sys, step: Step, m: Message)
    requires LogInv(s, h) && NextStep(s, s', step) && m in Sent(s, step) && step.HandleAppend?
    ensures MessageOK(s', Record(s, h, step), m)
  {
    hide LogInv, NextStep, Record, LogsOK, RolesOK, Shape, StoredOK, PeersOK, NodesKeep, VotesKeep, LeadersKeep,
      PointsOK, CommitsOK, Grows, AppendOK, PrevMatches;
    var a := step.a;
    LogParts(s, h);
    HandledWasSent(s, s', step);
    assert MessageOK(s, h, AppendEntries(a));
    StepGrows(s, h, s', step);
    AppendOKStays(s, h, s', Record(s, h, step), a);
    if IsAccept(s, step) {
      AcceptFacts(s, h, s', step);
    }
  }

  lemma RefusalMessage(s: Sys, h: History, s': Sys, step: Step, m: Message)
    requires LogInv(s, h) && NextStep(s, s', step) && m in Sent(s, step) && step.IgnoreAppend?
    ensures MessageOK(s', Record(s, h, step), m)
  {
    hide LogInv, NextStep, Record, LogsOK, RolesOK, Shape, StoredOK, PeersOK, NodesKeep, VotesKeep, LeadersKeep,
      PointsOK, CommitsOK, Grows, AppendOK;
    LogParts(s, h);
    RefusedWasSent(s, s', step);
    assert MessageOK(s, h, AppendEntries(step.a));
    StepGrows(s, h, s', step);
    AppendOKStays(s, h, s', Record(s, h, step), step.a);
  }

  lemma RefusedWasSent(s: Sys, s': Sys, step: Step)
    requires NextStep(s, s', step) && step.IgnoreAppend?
    ensures AppendEntries(step.a) in s.net && step.n in s.e.nodes && step.n in s.reps
  {
  }

  lemma HandledWasSent(s: Sys, s': Sys, step: Step)
    requires NextStep(s, s', step) && step.HandleAppend?
    ensures AppendEntries(step.a) in s.net && step.a.dst == step.n && step.n in s.e.nodes && step.n in s.reps
  {
  }

  lemma SendFacts(s: Sys, h: History, s': Sys, step: Step)
    requires NextStep(s, s', step) && (step.SendAppend? || step.ReadBeat?)
    ensures var n := Actor(s, step); var p := step.p;
      && n in s.e.nodes && n in s.reps && s.e.nodes[n].role == Leader && (p in E.Active(s.e, s.e.nodes[n].mode) || p in s.e.nodes)
      && s'.e == s.e.(beats := s.e.beats + {E.Beat(n, s.e.nodes[n].term, p)})
      && s'.reps == s.reps && Record(s, h, step) == h && s'.calls == s.calls
      && (step.SendAppend? ==> p in s.reps[n].next && s.reps[n].next[p] >= 1)
      && (step.ReadBeat? ==> step.r in s.calls && s.calls[step.r].node == n && s.calls[step.r].term == s.e.nodes[n].term)
  {
  }

  lemma AppendMessage(s: Sys, h: History, s': Sys, step: Step, m: Message)
    requires LogInv(s, h) && NextStep(s, s', step) && m in Sent(s, step) && (step.SendAppend? || step.ReadBeat?)
    ensures MessageOK(s', Record(s, h, step), m)
  {
    hide LogInv, NextStep, Record, LogsOK, RolesOK, Shape, StoredOK, PeersOK, NodesKeep, VotesKeep, LeadersKeep, NetOK,
      PointsOK, CommitsOK, AppendOK, MakeAppend, MakeReadBeat;
    LogParts(s, h);
    CfgIsNodes(s, h);
    SendFacts(s, h, s', step);
    var n := Actor(s, step);
    if step.SendAppend? {
      SentByReplicate(s, h, n, step.p);
    } else if step.ReadBeat? {
      SentByRead(s, n, step.p, s.e.nodes[n].term, step.r);
    }
    SameRolesAndCommits(s, h, s');
    if m.AppendEntries? {
      LeaderSends(s', h, n, m.a);
    }
  }

  lemma SameRolesAndCommits(s: Sys, h: History, s': Sys)
    requires RolesOK(s, h) && CommitsOK(s, h) && s'.e.nodes == s.e.nodes && s'.reps == s.reps
    ensures RolesOK(s', h) && CommitsOK(s', h)
  {
    hide CommitOK;
  }

  // ---- nextIndex and matchIndex ----

  ghost predicate PeersAt(s: Sys, h: History, n: Id)
    requires n in s.reps && n in s.e.nodes
  {
    && s.reps[n].next.Keys == E.Active(s.e, s.e.nodes[n].mode) - {n} == s.reps[n].matched.Keys
    && (forall p | p in s.reps[n].next :: 0 <= s.reps[n].next[p] <= |s.reps[n].log| + 1)
    && (forall p | p in s.reps[n].matched :: 0 <= s.reps[n].matched[p] <= Stored(h, p, s.e.nodes[n].term))
    && Stored(h, n, s.e.nodes[n].term) == |s.reps[n].log|
  }

  lemma PeersStep(s: Sys, h: History, s': Sys, step: Step)
    requires LogInv(s, h) && NextStep(s, s', step)
    ensures PeersOK(s', Record(s, h, step))
  {
    hide LogInv, NextStep, Record, PeersAt;
    forall n | n in s'.reps && n in s'.e.nodes && s'.e.nodes[n].role == Leader
      ensures PeersAt(s', Record(s, h, step), n)
    {
      LeaderPeersStep(s, h, s', step, n);
    }
    PeersFromEach(s', Record(s, h, step));
  }

  lemma PeersFromEach(s: Sys, h: History)
    requires forall n | n in s.reps && n in s.e.nodes && s.e.nodes[n].role == Leader :: PeersAt(s, h, n)
    ensures PeersOK(s, h)
  {
  }

  lemma LeaderPeersStep(s: Sys, h: History, s': Sys, step: Step, n: Id)
    requires LogInv(s, h) && NextStep(s, s', step)
    requires n in s'.reps && n in s'.e.nodes && s'.e.nodes[n].role == Leader
    ensures PeersAt(s', Record(s, h, step), n)
  {
    hide LogInv, NextStep, Record, LogsOK, RolesOK, Shape, StoredOK, PeersOK, NodesKeep, VotesKeep, LeadersKeep, NetOK,
      PointsOK, CommitsOK, PeersAt, Accepts, WinsNow, Grows, IsPropose;
    LogParts(s, h);
    StepTermsGrow(s, h, s', step);
    RolesArise(s, h, s', step, n);
    if IsWin(s, step) && n == Actor(s, step) {
      WonPeers(s, h, s', step);
    } else {
      PeersOf(s, h, n);
      if IsPropose(step) && n == Actor(s, step) {
        ProposedPeers(s, h, s', step);
      } else if step.TakeAppendReply? && n == step.n {
        ReplyPeers(s, h, s', step);
      } else if step.TakeInstallReply? && n == step.n {
        InstallPeers(s, h, s', step);
      } else if step.ChangeMode? && n == step.n {
        ChangedPeers(s, h, s', step);
      } else {
        OtherPeersStay(s, h, s', step, n);
      }
    }
  }

  lemma PeersOf(s: Sys, h: History, n: Id)
    requires PeersOK(s, h) && n in s.reps && n in s.e.nodes && s.e.nodes[n].role == Leader
    ensures PeersAt(s, h, n)
  {
  }

  lemma WonPeers(s: Sys, h: History, s': Sys, step: Step)
    requires LogInv(s, h) && NextStep(s, s', step) && IsWin(s, step)
    ensures step.n in s'.reps && step.n in s'.e.nodes
    ensures PeersAt(s', Record(s, h, step), step.n)
  {
    hide LogInv, NextStep, Record, IsWin;
    WinFacts(s, h, s', step);
  }

  lemma ProposedPeers(s: Sys, h: History, s': Sys, step: Step)
    requires LogInv(s, h) && NextStep(s, s', step) && IsPropose(step)
    requires var n := Actor(s, step); n in s.reps && n in s.e.nodes && PeersAt(s, h, n)
    ensures Actor(s, step) in s'.reps && Actor(s, step) in s'.e.nodes
    ensures PeersAt(s', Record(s, h, step), Actor(s, step))
  {
    hide LogInv, NextStep, Record, RolesOK, Shape, StoredOK, LogsOK, NetOK, NodesKeep, VotesKeep, LeadersKeep,
      PointsOK, CommitsOK,
      PeersOK;
    LogParts(s, h);
    ProposeFacts(s, h, s', step);
    LeaderTermIsWon(s, h, Actor(s, step));
  }

  lemma TakeReplyFacts(s: Sys, h: History, s': Sys, step: Step)
    requires NextStep(s, s', step) && step.TakeAppendReply? && step.n in s'.e.nodes && s'.e.nodes[step.n].role == Leader
    ensures var n, m := step.n, step.m;
      && n in s.e.nodes && n in s.reps && m in s.net && m.AppendReply? && m.a.src == n && m.a.term == s.e.nodes[n].term
      && m.a.dst in s.reps[n].next && m.a.dst in s.reps[n].matched
      && s'.e == s.e && Record(s, h, step) == h
      && s'.reps == s.reps[n := if m.success then TakeSuccess(s.reps[n], m.a) else TakeFailure(s.reps[n], m.a)]
      && s.reps[n].boundary <= |s.reps[n].log|
  {
  }

  /** `matchIndex_` is only raised to what the reply vouches for. */
  lemma ReplyPeers(s: Sys, h: History, s': Sys, step: Step)
    requires LogInv(s, h) && NextStep(s, s', step) && step.TakeAppendReply?
    requires step.n in s.reps && step.n in s.e.nodes && PeersAt(s, h, step.n)
    requires step.n in s'.e.nodes && s'.e.nodes[step.n].role == Leader
    ensures step.n in s'.reps && PeersAt(s', Record(s, h, step), step.n)
  {
    hide LogInv, NextStep, Record, Shape, LogsOK, NodesKeep, VotesKeep, LeadersKeep, PointsOK, CommitsOK, PeersOK,
      NetOK, RolesOK,
      StoredOK;
    LogParts(s, h);
    TakeReplyFacts(s, h, s', step);
    var a := step.m.a;
    ReplyVouches(s, h, step.m);
    LeaderTermIsWon(s, h, step.n);
    StoredAt(s, h, a.dst, a.term);
  }

  lemma ReplyVouches(s: Sys, h: History, m: Message)
    requires NetOK(s, h) && m in s.net && m.AppendReply?
    ensures m.success ==> Stored(h, m.a.dst, m.a.term) >= m.a.prev + |m.a.entries|
  {
    assert MessageOK(s, h, m);
  }

  lemma InstallPeers(s: Sys, h: History, s': Sys, step: Step)
    requires LogInv(s, h) && NextStep(s, s', step) && step.TakeInstallReply?
    requires step.n in s.reps && step.n in s.e.nodes && PeersAt(s, h, step.n)
    requires step.n in s'.e.nodes && s'.e.nodes[step.n].role == Leader
    ensures step.n in s'.reps && PeersAt(s', Record(s, h, step), step.n)
  {
    hide LogInv, NextStep, Record, Shape, LogsOK, NodesKeep, VotesKeep, LeadersKeep, PointsOK, CommitsOK, PeersOK,
      NetOK, RolesOK, StoredOK;
    LogParts(s, h);
    TakeInstallFacts(s, h, s', step);
    InstallVouches(s, h, step.m);
  }

  lemma TakeInstallFacts(s: Sys, h: History, s': Sys, step: Step)
    requires NextStep(s, s', step) && step.TakeInstallReply? && step.n in s'.e.nodes && s'.e.nodes[step.n].role == Leader
    ensures var n, m := step.n, step.m;
      && n in s.e.nodes && n in s.reps && m in s.net && m.InstallReply? && m.asked == s.e.nodes[n].term && m.term <= m.asked
      && m.dst in s.reps[n].next && m.dst in s.reps[n].matched && s.reps[n].boundary <= |s.reps[n].log|
      && (s.reps[n].boundary <= m.base || s.reps[n].boundary <= s.reps[n].matched[m.dst])
      && s'.e == s.e && Record(s, h, step) == h && s'.reps == s.reps[n := TakeInstalled(s.reps[n], m.dst)]
  {
  }

  lemma InstallVouches(s: Sys, h: History, m: Message)
    requires NetOK(s, h) && m in s.net && m.InstallReply?
    ensures m.term <= m.asked ==> Stored(h, m.dst, m.asked) >= m.base
  {
    assert MessageOK(s, h, m);
  }

  lemma OtherPeersStay(s: Sys, h: History, s': Sys, step: Step, n: Id)
    requires LogInv(s, h) && NextStep(s, s', step) && n in s.reps && n in s'.reps && n in s.e.nodes && n in s'.e.nodes
    requires PeersAt(s, h, n) && s.e.nodes[n].role == Leader && s'.e.nodes[n].role == Leader && s.e.nodes[n].term == s'.e.nodes[n].term
    requires n == Actor(s, step) ==> !IsPropose(step) && !IsWin(s, step) && !IsAccept(s, step) && !step.TakeAppendReply? && !step.TakeInstallReply? && !step.ChangeMode?
    ensures PeersAt(s', Record(s, h, step), n)
  {
    hide LogInv, NextStep, Record, IsPropose, IsWin, IsAccept, RolesOK, Shape, StoredOK, LogsOK, NetOK, NodesKeep,
      VotesKeep,
      LeadersKeep, PointsOK, CommitsOK, PeersOK, Stored, LogsGrow;
    LogParts(s, h);
    StepGrows(s, h, s', step);
    OtherLogsStay(s, s', step, n);
    OtherViewsStay(s, s', step, n);
    LeaderStoredStays(s, h, s', step, n);
    LeaderModeStays(s, s', step, n);
  }

  lemma LeaderModeStays(s: Sys, s': Sys, step: Step, n: Id)
    requires NextStep(s, s', step) && n in s.e.nodes && n in s'.e.nodes && s'.e.nodes[n].role == Leader
    requires !(step.ChangeMode? && n == step.n)
    ensures s'.e.nodes[n].mode == s.e.nodes[n].mode
  {
    hide NextStep, E.NextStep, ElectionStep;
    ActorMoves(s, s', step);
    if !step.ReadBegin? {
      StepIsElectionStep(s, s', step);
      ModeSteps(s, step);
      ModeStays(s.e, s'.e, ElectionStep(s, step), n);
    }
  }

  lemma ModeSteps(s: Sys, step: Step)
    requires Actor(s, step) in s.e.nodes && Actor(s, step) in s.reps
    ensures ElectionStep(s, step).ChangeMode? ==> step.ChangeMode? && ElectionStep(s, step).n == step.n
  {
    hide Grants;
  }

  lemma ModeStays(c: E.Cluster, c': E.Cluster, es: E.Step, n: Id)
    requires E.NextStep(c, c', es) && n in c.nodes && n in c'.nodes && c'.nodes[n].role == Leader
    requires !(es.ChangeMode? && n == es.n)
    ensures c'.nodes[n].mode == c.nodes[n].mode
  {
    hide E.HasElectionMajority;
  }

  /** A leader that has taken a configuration into effect counts nothing for anybody. */
  lemma ChangedPeers(s: Sys, h: History, s': Sys, step: Step)
    requires NextStep(s, s', step) && step.ChangeMode?
    requires step.n in s.reps && step.n in s.e.nodes && s.e.nodes[step.n].role == Leader && PeersAt(s, h, step.n)
    ensures step.n in s'.reps && step.n in s'.e.nodes
    ensures s'.e.nodes[step.n].role == Leader ==> PeersAt(s', Record(s, h, step), step.n)
  {
  }

  /** No other node's progress is credited to this leader's own term log. */
  lemma LeaderStoredStays(s: Sys, h: History, s': Sys, step: Step, n: Id)
    requires LogInv(s, h) && NextStep(s, s', step) && n in s.reps && n in s'.reps && n in s.e.nodes && n in s'.e.nodes
    requires s.e.nodes[n].role == Leader && s'.e.nodes[n].role == Leader && s.e.nodes[n].term == s'.e.nodes[n].term
    requires n == Actor(s, step) ==> !IsPropose(step) && !IsWin(s, step) && !IsAccept(s, step)
    ensures Stored(Record(s, h, step), n, s.e.nodes[n].term) == Stored(h, n, s.e.nodes[n].term)
  {
    hide LogInv, NextStep, WinsNow, Accepts;
  }

  lemma OtherViewsStay(s: Sys, s': Sys, step: Step, n: Id)
    requires NextStep(s, s', step) && n in s.reps && n in s'.reps && n in s.e.nodes && n in s'.e.nodes
    requires s'.e.nodes[n].role == Leader
    requires n == Actor(s, step) ==> !IsWin(s, step) && !step.TakeAppendReply? && !step.TakeInstallReply? && !step.ChangeMode?
    ensures s'.reps[n].next == s.reps[n].next && s'.reps[n].matched == s.reps[n].matched
  {
    hide VoteStep, LogStep, OtherStep, ReadStep, Change;
    LeaderDidNotRestart(s, s', step, n);
    if step.StartElection? || step.HandleVote? || step.CountVote? {
      assert VoteStep(s, s', step);
      ViewsInVoteStep(s, s', step, n);
    } else if step.ClientAppend? || step.SendAppend? || step.HandleAppend? || step.TakeAppendReply? || step.AdvanceCommit? || step.ApplyOne? {
      assert LogStep(s, s', step);
      ViewsInLogStep(s, s', step, n);
    } else {
      ViewsInOtherStep(s, s', step, n);
    }
  }

  ghost predicate ViewStays(s: Sys, s': Sys, n: Id) {
    && n in s.reps && n in s'.reps
    && s'.reps[n].next == s.reps[n].next && s'.reps[n].matched == s.reps[n].matched
  }

  lemma ViewsInVoteStep(s: Sys, s': Sys, step: Step, n: Id)
    requires (step.StartElection? || step.HandleVote? || step.CountVote?) && n in s.reps && n in s'.reps
    requires VoteStep(s, s', step)
    requires n == Actor(s, step) ==> !IsWin(s, step)
    ensures ViewStays(s, s', n)
  {
    hide E.NextStep, E.HasElectionMajority, UpToDate, Grants, LearnIfNewer;
  }

  lemma ViewsInLogStep(s: Sys, s': Sys, step: Step, n: Id)
    requires step.ClientAppend? || step.SendAppend? || step.HandleAppend? || step.TakeAppendReply? || step.AdvanceCommit? || step.ApplyOne?
    requires n in s.reps && n in s'.reps && LogStep(s, s', step)
    requires n == Actor(s, step) ==> !step.TakeAppendReply?
    ensures ViewStays(s, s', n)
  {
    hide E.NextStep, PrevMatches, Committable, Merge, ApplyToStore, LearnIfNewer, MakeAppend, TakeSuccess, TakeFailure;
  }

  lemma ViewsInOtherStep(s: Sys, s': Sys, step: Step, n: Id)
    requires NextStep(s, s', step) && n in s.reps && n in s'.reps
    requires !(step.StartElection? || step.HandleVote? || step.CountVote?)
    requires !(step.ClientAppend? || step.SendAppend? || step.HandleAppend? || step.TakeAppendReply? || step.AdvanceCommit? || step.ApplyOne?)
    requires n == Actor(s, step) ==> !step.TakeInstallReply? && !step.Restart? && !step.ChangeMode?
    ensures ViewStays(s, s', n)
  {
    hide E.NextStep, VoteStep, LogStep, LearnIfNewer, MakeReadBeat, FailReads, Get, TermAt;
  }
}
