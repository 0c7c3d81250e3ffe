/** Every step keeps commit indexes on entries that no later leader can miss. */
module CommitProof {
  import opened Types
  import Quorum
  import opened Protocol
  import opened Invariant
  import opened Growth
  import opened Frames
  import opened LogProof
  import opened RoleProof
  import E = Election

  /** Leader Completeness: what a commit index covers is in the log of every leader of that term or later. */
  lemma CommittedInLeader(s: Sys, h: History, log: seq<LogEntry>, c: nat, term: nat, t: nat)
    requires PointsOK(s, h) && LeadersKeep(s, h) && CommitOK(h, log, c, term)
    requires term <= t && t in h.logs && TermLogOK(h, t)
    ensures Agree(log, h.logs[t].log, c)
    ensures term < t ==> c <= |h.logs[t].base|
  {
    hide Chosen, Blocked, Quorum.AlwaysMeet;
    if c > 0 {
      var p :| Covered(h, log, c, p) && p.term <= term;
      if p.term < t {
        ChosenIsHad(s, h, h.logs[t].base, p);
      }
    }
  }

  lemma CommitsStep(s: Sys, h: History, s': Sys, step: Step)
    requires LogInv(s, h) && NextStep(s, s', step)
    ensures CommitsOK(s', Record(s, h, step))
  {
    hide LogInv, NextStep, Record, CommitOK;
    forall n | n in s'.reps && n in s'.e.nodes
      ensures CommitOK(Record(s, h, step), s'.reps[n].log, s'.reps[n].commit, s'.e.nodes[n].term)
    {
      CommitStep(s, h, s', step, n);
    }
  }

  lemma CommitStep(s: Sys, h: History, s': Sys, step: Step, n: Id)
    requires LogInv(s, h) && NextStep(s, s', step) && n in s'.reps && n in s'.e.nodes
    ensures CommitOK(Record(s, h, step), s'.reps[n].log, s'.reps[n].commit, s'.e.nodes[n].term)
  {
    hide LogInv, NextStep, Record, Shape, RolesOK, LogsOK, IsPropose, Accepts, StoredOK, NetOK, PeersOK,
      NodesKeep, VotesKeep, LeadersKeep, PointsOK, CommitsOK, LogsGrow, CommitOK, Agree;
    StepTermsGrow(s, h, s', step);
    StepLogsGrow(s, h, s', step);
    StepPointsGrow(s, h, step);
    CommitOf(s, h, n);
    if IsAccept(s, step) && n == Actor(s, step) {
      AcceptCommit(s, h, s', step);
    } else if step.AdvanceCommit? && n == step.n {
      AdvanceCommitOK(s, h, s', step);
    } else if step.Restart? && n == step.n {
      RestartCommit(s, h, s', step);
    } else {
      CommitStays(s, h, s', step, n);
      CommitOKStays(h, Record(s, h, step), s.reps[n].log, s'.reps[n].log, s.reps[n].commit, s.e.nodes[n].term, s'.e.nodes[n].term);
    }
  }

  lemma CommitOf(s: Sys, h: History, n: Id)
    requires LogInv(s, h) && (n in s.reps || n in s.e.nodes)
    ensures n in s.reps && n in s.e.nodes
    ensures CommitOK(h, s.reps[n].log, s.reps[n].commit, s.e.nodes[n].term)
  {
    hide LogsOK, RolesOK, StoredOK, NetOK, PeersOK, NodesKeep, VotesKeep, LeadersKeep, PointsOK, CommitOK, E.Inv;
  }

  lemma StepPointsGrow(s: Sys, h: History, step: Step)
    ensures h.points <= Record(s, h, step).points
    ensures !step.AdvanceCommit? ==> Record(s, h, step).points == h.points
  {
  }

  lemma CommitStays(s: Sys, h: History, s': Sys, step: Step, n: Id)
    requires NextStep(s, s', step) && n in s.reps && n in s'.reps && n in s.e.nodes
    requires CommitOK(h, s.reps[n].log, s.reps[n].commit, s.e.nodes[n].term)
    requires !(IsAccept(s, step) && n == Actor(s, step)) && !(step.AdvanceCommit? && n == step.n) && !(step.Restart? && n == step.n)
    ensures s'.reps[n].commit == s.reps[n].commit
    ensures Agree(s.reps[n].log, s'.reps[n].log, s.reps[n].commit)
  {
    hide NextStep, Record;
    if IsPropose(step) {
      ProposeFacts(s, h, s', step);
    } else {
      OtherLogsStay(s, s', step, n);
      OtherCommitsStay(s, s', step, n);
    }
  }

  lemma CommitsInVoteStep(s: Sys, s': Sys, step: Step, n: Id)
    requires (step.StartElection? || step.HandleVote? || step.CountVote?) && VoteStep(s, s', step)
    requires n in s.reps && n in s'.reps
    ensures s'.reps[n].commit == s.reps[n].commit
  {
    hide E.NextStep, E.HasElectionMajority, UpToDate, Grants, LearnIfNewer, LastTerm;
  }

  lemma CommitsInLogStep(s: Sys, s': Sys, step: Step, n: Id)
    requires step.ClientAppend? || step.SendAppend? || step.HandleAppend? || step.TakeAppendReply? || step.AdvanceCommit? || step.ApplyOne?
    requires LogStep(s, s', step) && n in s.reps && n in s'.reps
    requires !(IsAccept(s, step) && n == Actor(s, step)) && !(step.AdvanceCommit? && n == step.n)
    ensures s'.reps[n].commit == s.reps[n].commit
  {
    hide E.NextStep, PrevMatches, Committable, Merge, ApplyToStore, LearnIfNewer, MakeAppend;
  }

  lemma OtherCommitsStay(s: Sys, s': Sys, step: Step, n: Id)
    requires NextStep(s, s', step) && n in s.reps && n in s'.reps
    requires !(IsAccept(s, step) && n == Actor(s, step)) && !(step.AdvanceCommit? && n == step.n) && !(step.Restart? && n == step.n)
    ensures s'.reps[n].commit == s.reps[n].commit
  {
    hide VoteStep, LogStep, E.NextStep, MakeReadBeat, LearnIfNewer, Get, TermAt, FailReads, IsAccept;
    if step.StartElection? || step.HandleVote? || step.CountVote? {
      CommitsInVoteStep(s, s', step, n);
    } else if step.ClientAppend? || step.SendAppend? || step.HandleAppend? || step.TakeAppendReply? || step.AdvanceCommit? || step.ApplyOne? {
      CommitsInLogStep(s, s', step, n);
    }
  }

  lemma RestartCommit(s: Sys, h: History, s': Sys, step: Step)
    requires LogInv(s, h) && NextStep(s, s', step) && step.Restart? && step.n in s'.reps && step.n in s'.e.nodes
    ensures CommitOK(Record(s, h, step), s'.reps[step.n].log, s'.reps[step.n].commit, s'.e.nodes[step.n].term)
  {
    var n := step.n;
    hide LogInv, CommitOK, NextStep, Record;
    CommitOf(s, h, n);
    RestartFacts(s, h, s', step);
    ShorterCommit(h, s.reps[n].log, s.reps[n].commit, s.reps[n].boundary, s.e.nodes[n].term);
  }

  lemma RestartFacts(s: Sys, h: History, s': Sys, step: Step)
    requires NextStep(s, s', step) && step.Restart?
    ensures var n := step.n;
      && n in s.reps && n in s.e.nodes && n in s'.reps && n in s'.e.nodes
      && s'.e.nodes[n].role == Follower && s'.e.nodes[n].term == s.e.nodes[n].term
      && s.reps[n].boundary <= s.reps[n].applied && s.reps[n].boundary <= s.reps[n].commit
      && s'.reps[n] == s.reps[n].(commit := s.reps[n].boundary, applied := s.reps[n].boundary, next := map[], matched := map[])
      && Record(s, h, step) == h
  {
  }

  lemma ShorterCommit(h: History, log: seq<LogEntry>, c: nat, c': nat, term: nat)
    requires CommitOK(h, log, c, term) && c' <= c
    ensures CommitOK(h, log, c', term)
  {
    if c' > 0 {
      var p :| Covered(h, log, c, p) && p.term <= term;
      assert Covered(h, log, c', p);
    }
  }

  /** `min(leaderCommit, getLastLogIndex())` commits only what this request verified. */
  lemma ReceiveCommit(h: History, rep: Replica, a: Append, term: nat, target: seq<LogEntry>)
    requires a.prev <= |rep.log| && term <= a.term
    requires Agree(Receive(rep, a).log, target, a.prev + |a.entries|)
    requires Agree(rep.log, target, rep.commit) ==> Agree(Receive(rep, a).log, target, rep.commit)
    requires a.leaderCommit <= a.prev + |a.entries| && CommitOK(h, target, a.leaderCommit, a.term)
    requires CommitOK(h, rep.log, rep.commit, term) && Agree(rep.log, target, rep.commit)
    ensures CommitOK(h, Receive(rep, a).log, Receive(rep, a).commit, a.term)
  {
    var log' := Receive(rep, a).log;
    hide CommitOK, Receive;
    CommitOKStays(h, h, target, log', if a.leaderCommit > rep.commit then a.leaderCommit else 0, a.term, a.term) by {
      NoCommit(h, target, a.term);
    }
    CommitOKStays(h, h, rep.log, log', rep.commit, term, a.term);
    ReceiveShape(rep, a);
  }

  lemma NoCommit(h: History, log: seq<LogEntry>, term: nat)
    ensures CommitOK(h, log, 0, term)
  {
  }

  lemma ReceiveShape(rep: Replica, a: Append)
    requires a.prev <= |rep.log|
    ensures var rep' := Receive(rep, a);
      rep'.commit == if a.leaderCommit > rep.commit
                     then (if a.leaderCommit < |rep'.log| then a.leaderCommit else |rep'.log|) else rep.commit
  {
  }

  lemma AcceptCommit(s: Sys, h: History, s': Sys, step: Step)
    requires LogInv(s, h) && NextStep(s, s', step) && IsAccept(s, step)
    ensures step.n in s'.reps && step.n in s'.e.nodes
    ensures CommitOK(Record(s, h, step), s'.reps[step.n].log, s'.reps[step.n].commit, s'.e.nodes[step.n].term)
  {
    var n, a := step.n, step.a;
    hide LogInv, NextStep, Record, Shape, RolesOK, StoredOK, NetOK, PeersOK, Accepts, Receive, AppendOK, RecordAccept,
      LogsOK,
      NodesKeep, VotesKeep, LeadersKeep, PointsOK, CommitsOK, LogsGrow, CommitOK, LogOK, TermLogOK, E.Heed;
    StepLogsGrow(s, h, s', step);
    StepPointsGrow(s, h, step);
    AcceptFacts(s, h, s', step);
    AcceptedCommit(s, h, s', step);
    var rep' := Receive(s.reps[n], a);
    CommitFits(h, rep'.log, rep'.commit, a.term);
    CommitOKStays(h, Record(s, h, step), rep'.log, rep'.log, rep'.commit, a.term, a.term);
  }

  lemma TermLogIs(s: Sys, h: History, t: nat)
    requires LogsOK(s, h) && t in h.logs
    ensures TermLogOK(h, t)
  {
  }

  lemma AppendCommit(s: Sys, h: History, a: Append)
    requires AppendOK(s, h, a)
    ensures a.term in h.logs && a.leaderCommit <= a.prev + |a.entries|
    ensures CommitOK(h, h.logs[a.term].log, a.leaderCommit, a.term)
  {
    hide CommitOK;
  }

  lemma NoLowerTerm(s: Sys, step: Step)
    requires IsAccept(s, step)
    ensures s.e.nodes[step.n].term <= step.a.term
  {
  }

  lemma MergedCommit(s: Sys, h: History, rep: Replica, term: nat, a: Append)
    requires PointsOK(s, h) && LeadersKeep(s, h) && LogsOK(s, h) && AppendOK(s, h, a)
    requires a.prev <= |rep.log| && term <= a.term && CommitOK(h, rep.log, rep.commit, term)
    requires Agree(Receive(rep, a).log, h.logs[a.term].log, a.prev + |a.entries|)
    requires forall k :: Agree(rep.log, h.logs[a.term].log, k) ==> Agree(Receive(rep, a).log, h.logs[a.term].log, k)
    ensures CommitOK(h, Receive(rep, a).log, Receive(rep, a).commit, a.term)
  {
    hide Receive, PointsOK, LeadersKeep, LogsOK, AppendOK, CommitOK, TermLogOK, Agree;
    AppendCommit(s, h, a);
    TermLogIs(s, h, a.term);
    CommittedInLeader(s, h, rep.log, rep.commit, term, a.term);
    ReceiveCommit(h, rep, a, term, h.logs[a.term].log);
  }

  lemma AcceptedCommit(s: Sys, h: History, s': Sys, step: Step)
    requires LogInv(s, h) && NextStep(s, s', step) && IsAccept(s, step)
    ensures step.a.prev <= |s.reps[step.n].log|
    ensures var rep' := Receive(s.reps[step.n], step.a); CommitOK(h, rep'.log, rep'.commit, step.a.term)
  {
    hide LogInv, NextStep, Record, Shape, RolesOK, StoredOK, NetOK, PeersOK, Receive, RecordAccept, LastTerm, Grants,
      NodesKeep, VotesKeep, LeadersKeep, PointsOK, CommitsOK, LogsGrow, CommitOK, LogOK, TermLogOK, E.Heed, Agree,
      Accepts, LogsOK, AppendOK, Stored, E.Inv;
    LogParts(s, h);
    CommitOf(s, h, step.n);
    NoLowerTerm(s, step);
    AcceptedReceive(s, h, s', step);
    MergedCommit(s, h, s.reps[step.n], s.e.nodes[step.n].term, step.a);
  }

  lemma AcceptedReceive(s: Sys, h: History, s': Sys, step: Step)
    requires LogInv(s, h) && NextStep(s, s', step) && IsAccept(s, step)
    ensures var rep, a := s.reps[step.n], step.a;
      && a.prev <= |rep.log| && a.term in h.logs && AppendOK(s, h, a)
      && Agree(Receive(rep, a).log, h.logs[a.term].log, a.prev + |a.entries|)
      && forall k :: Agree(rep.log, h.logs[a.term].log, k) ==> Agree(Receive(rep, a).log, h.logs[a.term].log, k)
  {
    hide LogInv, NextStep, Record, Receive, RecordAccept, LogOK, E.Heed, Agree, Accepts, AppendOK;
    AcceptFacts(s, h, s', step);
    AcceptedNodeLog(s, h, s', step);
  }

  lemma CommitFits(h: History, log: seq<LogEntry>, c: nat, term: nat)
    requires CommitOK(h, log, c, term)
    ensures Agree(log, log, c)
  {
  }

  lemma AdvanceFacts(s: Sys, h: History, s': Sys, step: Step)
    requires NextStep(s, s', step) && step.AdvanceCommit?
    ensures var n, i := step.n, step.i;
      && n in s.e.nodes && n in s.reps && s.e.nodes[n].role == Leader && s'.e == s.e && s'.net == s.net && s'.calls == s.calls
      && Committable(s.reps[n], n, s.e, s.e.nodes[n].mode, s.e.nodes[n].term, i)
      && s'.reps == s.reps[n := s.reps[n].(commit := i)]
      && Record(s, h, step) == h.(points := h.points + {Point(s.e.nodes[n].term, i)})
  {
  }

  lemma AdvanceCommitOK(s: Sys, h: History, s': Sys, step: Step)
    requires LogInv(s, h) && NextStep(s, s', step) && step.AdvanceCommit?
    ensures step.n in s'.reps && step.n in s'.e.nodes
    ensures var n := step.n;
      CommitOK(Record(s, h, step), s'.reps[n].log, s'.reps[n].commit, s'.e.nodes[n].term)
  {
    var n := step.n;
    hide LogInv, NextStep, Record, Shape, RolesOK, StoredOK, NetOK, PeersOK, NodesKeep, VotesKeep, LeadersKeep,
      PointsOK,
      CommitsOK, LogsOK;
    LogParts(s, h);
    AdvanceFacts(s, h, s', step);
    LeaderTermIsWon(s, h, n);
    assert Covered(Record(s, h, step), s'.reps[n].log, step.i, Point(s.e.nodes[n].term, step.i));
  }

  // ---- points ----

  lemma AdvanceIsChosen(s: Sys, h: History, n: Id, i: nat)
    requires PeersOK(s, h) && RolesOK(s, h) && n in s.e.nodes && n in s.reps && s.e.nodes[n].role == Leader
    requires Committable(s.reps[n], n, s.e, s.e.nodes[n].mode, s.e.nodes[n].term, i)
    ensures IsPoint(h, Point(s.e.nodes[n].term, i)) && Chosen(s, h, Point(s.e.nodes[n].term, i))
  {
    var p := Point(s.e.nodes[n].term, i);
    E.QuorumGrows(s.e, Holders(s.reps[n], n, s.e.nodes.Keys, i), s.e, Accepters(s, h, p));
  }

  lemma CfgIsNodes(s: Sys, h: History)
    requires LogInv(s, h)
    ensures s.e.nodes.Keys == s.reps.Keys && E.Active(s.e, E.Joint) <= s.e.nodes.Keys && Nested(s.e)
    ensures Quorum.AlwaysMeet(s.e.oldCfg, s.e.newCfg)
    ensures h.marks.Keys == s.calls.Keys && h.applied.Keys == s.reps.Keys
  {
    hide LogsOK, RolesOK, StoredOK, NetOK, PeersOK, NodesKeep, VotesKeep, LeadersKeep, CommitsOK, E.Inv, Quorum.AlwaysMeet,
      Chosen, IsPoint;
  }

  lemma PointStep(s: Sys, h: History, s': Sys, step: Step, p: Point)
    requires LogInv(s, h) && NextStep(s, s', step) && p in Record(s, h, step).points
    ensures IsPoint(Record(s, h, step), p) && Chosen(s', Record(s, h, step), p)
  {
    var h' := Record(s, h, step);
    hide LogInv, NextStep, Record, Shape, RolesOK, StoredOK, NetOK, PeersOK, NodesKeep, VotesKeep, LeadersKeep,
      CommitsOK, LogsOK, Chosen, IsPoint, LogsGrow;
    LogParts(s, h);
    CfgIsNodes(s, h);
    StepPointsGrow(s, h, step);
    if step.AdvanceCommit? {
      AdvanceFacts(s, h, s', step);
      if p == Point(s.e.nodes[step.n].term, step.i) {
        AdvanceIsChosen(s, h, step.n, step.i);
      }
    }
    StepGrows(s, h, s', step);
    PointStays(h, h', p);
    ChosenStays(s, h, s', h', p);
  }

  lemma LeaderCommitStep(s: Sys, h: History, s': Sys, step: Step, n: Id, p: Point)
    requires LogInv(s, h) && NextStep(s, s', step) && p in Record(s, h, step).points
    requires n in s'.reps && s'.LeaderIn(n, p.term)
    ensures p.index <= s'.reps[n].commit
  {
    hide LogInv, NextStep, Record, RolesOK, StoredOK, NetOK, PeersOK, NodesKeep, VotesKeep, LeadersKeep,
      CommitsOK, LogsOK, Chosen, LogsGrow, WinsNow, Accepts, E.Inv;
    LogParts(s, h);
    StepTermsGrow(s, h, s', step);
    StepPointsGrow(s, h, step);
    RolesArise(s, h, s', step, n);
    if IsWin(s, step) && n == Actor(s, step) {
      WinFacts(s, h, s', step);
    } else if step.AdvanceCommit? {
      AdvanceFacts(s, h, s', step);
      if p == Point(s.e.nodes[step.n].term, step.i) {
        OneLeader(s, h, n, step.n);
      }
    } else {
      LeaderKeepsCommit(s, h, s', step, n, p);
    }
  }

  lemma LeaderKeepsCommit(s: Sys, h: History, s': Sys, step: Step, n: Id, p: Point)
    requires LogInv(s, h) && NextStep(s, s', step) && p in h.points && !step.AdvanceCommit?
    requires !(IsAccept(s, step) && n == Actor(s, step))
    requires n in s.e.nodes && n in s.reps && s.LeaderIn(n, p.term) && n in s'.reps && s'.LeaderIn(n, p.term)
    ensures p.index <= s'.reps[n].commit
  {
    hide LogInv, NextStep, RolesOK, StoredOK, NetOK, PeersOK, NodesKeep, VotesKeep, LeadersKeep, CommitsOK, LogsOK, Chosen,
      IsAccept;
    LogParts(s, h);
    LeaderDidNotRestart(s, s', step, n);
    OtherCommitsStay(s, s', step, n);
  }

  lemma LeaderDidNotRestart(s: Sys, s': Sys, step: Step, n: Id)
    requires NextStep(s, s', step) && n in s'.e.nodes && s'.e.nodes[n].role == Leader
    ensures !(step.Restart? && n == step.n)
  {
  }

  lemma PointsStep(s: Sys, h: History, s': Sys, step: Step)
    requires LogInv(s, h) && NextStep(s, s', step)
    ensures PointsOK(s', Record(s, h, step))
  {
    var h' := Record(s, h, step);
    hide LogInv, NextStep, Record, Chosen, IsPoint, Quorum.AlwaysMeet;
    CfgIsNodes(s, h);
    StepTermsGrow(s, h, s', step);
    forall p | p in h'.points
      ensures IsPoint(h', p) && Chosen(s', h', p)
    {
      PointStep(s, h, s', step, p);
    }
    forall n, p | n in s'.e.nodes && n in s'.reps && p in h'.points && s'.LeaderIn(n, p.term)
      ensures p.index <= s'.reps[n].commit
    {
      LeaderCommitStep(s, h, s', step, n, p);
    }
  }
}
