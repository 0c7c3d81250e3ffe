/** What every step leaves standing, because the record of what happened only grows. */
module Growth {
  import opened Types
  import opened Protocol
  import opened Invariant
  import E = Election

  /** The election step inside a cluster step. */
  ghost function ElectionStep(s: Sys, step: Step): E.Step
    requires Actor(s, step) in s.e.nodes && Actor(s, step) in s.reps
  {
    var n := Actor(s, step);
    var v := s.e.nodes[n];
    match step
    case StartElection(_) => E.StartElection(n)
    case HandleVote(_, m) =>
      if !m.RequestVote? || m.cand !in s.e.nodes then E.Idle
      else if Grants(v, s.reps[n].log, m.cand, m.term, m.lastIndex, m.lastTerm) then E.GrantVote(n, m.cand, m.term)
      else LearnIfNewer(v, n, m.term)
    case CountVote(_, m) =>
      if !m.VoteReply? then E.Idle
      else if m.term > v.term then E.LearnTerm(n, m.term) else if m.granted then E.CountVote(n, m.voter) else E.Idle
    case SendAppend(_, p) => E.SendBeat(n, p)
    case HandleAppend(_, a) => if a.term >= v.term then E.HandleBeat(n, E.Beat(a.src, a.term, n)) else E.Idle
    case TakeAppendReply(_, m) => if m.AppendReply? then LearnIfNewer(v, n, m.term) else E.Idle
    case SendSnapshot(_, p) => E.SendBeat(n, p)
    case TakeInstallReply(_, m) => if m.InstallReply? then LearnIfNewer(v, n, m.term) else E.Idle
    case OnlyLearnTerm(_, m) =>
      if m.RequestVote? then LearnIfNewer(v, n, m.term)
      else if m.AppendEntries? then E.HandleBeat(n, E.Beat(m.a.src, m.a.term, n)) else E.Idle
    case Restart(_, mode) => E.Restart(n, mode)
    case ChangeMode(_, mode, leave) => E.ChangeMode(n, mode, leave)
    case ReadBeat(_, p) => E.SendBeat(n, p)
    case ReadAck(_, m) => if m.AppendReply? then LearnIfNewer(v, n, m.term) else E.Idle
    case _ => E.Idle
  }

  lemma StepIsElectionStep(s: Sys, s': Sys, step: Step)
    requires NextStep(s, s', step)
    requires Actor(s, step) in s.e.nodes && Actor(s, step) in s.reps
    ensures E.NextStep(s.e, s'.e, ElectionStep(s, step))
  {
    hide E.NextStep, PrevMatches, E.HasElectionMajority, Committable, UpToDate, OtherStep;
    if IsOther(step) {
      OtherIsElectionStep(s, s', step);
    }
  }

  lemma OtherIsElectionStep(s: Sys, s': Sys, step: Step)
    requires IsOther(step) && OtherStep(s, s', step)
    ensures step.n in s.e.nodes && step.n in s.reps && E.NextStep(s.e, s'.e, ElectionStep(s, step))
  {
    hide E.NextStep, FailReads, MakeInstall, TakeStore, TakeInstalled, NewLeader;
  }

  lemma RecordsSameWins(s: Sys, h: History, step: Step)
    requires Actor(s, step) in s.e.nodes && Actor(s, step) in s.reps
    ensures E.Record(s.e, h.wins, ElectionStep(s, step)) == Record(s, h, step).wins
  {
    if step.CountVote? {
      hide E.HasElectionMajority;
    } else {
      hide Record, ElectionStep;
      WinsRecordedElsewhere(s, h, step);
      CountedElsewhere(s, step);
    }
  }

  lemma WinsRecordedElsewhere(s: Sys, h: History, step: Step)
    requires !step.CountVote?
    ensures Record(s, h, step).wins == h.wins
  {
    hide Accepts, Propose, Stored;
  }

  lemma CountedElsewhere(s: Sys, step: Step)
    requires Actor(s, step) in s.e.nodes && Actor(s, step) in s.reps && !step.CountVote?
    ensures !ElectionStep(s, step).CountVote?
  {
    hide Grants;
  }

  lemma ElectionPart(s: Sys, h: History, s': Sys, step: Step)
    requires LogInv(s, h) && NextStep(s, s', step)
    ensures Actor(s, step) in s.e.nodes && Actor(s, step) in s.reps
    ensures E.NextStep(s.e, s'.e, ElectionStep(s, step))
    ensures E.Inv(s'.e, Record(s, h, step).wins)
    ensures forall t | t in h.wins :: t in Record(s, h, step).wins && Record(s, h, step).wins[t] == h.wins[t]
  {
    hide NextStep, E.NextStep, E.Inv, E.Record, Record, ElectionStep, LogInv;
    ActorIn(s, h, s', step);
    StepIsElectionStep(s, s', step);
    RecordsSameWins(s, h, step);
    WinsInvariant(s, h);
    E.StepKeepsInv(s.e, s'.e, h.wins, ElectionStep(s, step));
  }

  lemma WinsInvariant(s: Sys, h: History)
    requires LogInv(s, h)
    ensures E.Inv(s.e, h.wins)
  {
    hide E.Inv, LogsOK, RolesOK, StoredOK, NetOK, PeersOK, NodesKeep, VotesKeep, LeadersKeep, PointsOK, CommitsOK;
  }

  ghost predicate TermsGrow(s: Sys, s': Sys) {
    && s'.e.nodes.Keys == s.e.nodes.Keys && s'.e.oldCfg == s.e.oldCfg && s'.e.newCfg == s.e.newCfg
    && (forall q | q in s.e.nodes :: s.e.nodes[q].term <= s'.e.nodes[q].term)
  }

  lemma WinGrows(s: Sys, h: History, s': Sys, n: Id, win: E.Win)
    requires StoredOK(s, h) && TermsGrow(s, s')
    requires n in s.e.nodes && n in s.reps && s.e.nodes[n].term !in h.logs
    ensures Grows(s, h, s', RecordWin(h, n, s.e.nodes[n].term, win, s.reps[n].log))
  {
    assert Stored(h, n, s.e.nodes[n].term) == 0;
  }

  lemma ProposeGrows(s: Sys, h: History, s': Sys, n: Id, e: LogEntry)
    requires StoredOK(s, h) && RolesOK(s, h) && TermsGrow(s, s')
    requires n in s.e.nodes && n in s.reps && s.e.nodes[n].role == Leader
    ensures Grows(s, h, s', RecordPropose(h, n, s.e.nodes[n].term, s.reps[n].log + [e]))
  {
    var t := s.e.nodes[n].term;
    assert h.logs[t].log == s.reps[n].log;
    assert Stored(h, n, t) <= |s.reps[n].log|;
  }

  lemma AcceptGrows(s: Sys, h: History, s': Sys, n: Id, t: nat, upto: nat)
    requires TermsGrow(s, s')
    requires n in s.e.nodes && s.e.nodes[n].term <= t
    ensures Grows(s, h, s', RecordAccept(h, n, t, upto))
  {
  }

  lemma ActorIn(s: Sys, h: History, s': Sys, step: Step)
    requires LogInv(s, h) && NextStep(s, s', step)
    ensures Actor(s, step) in s.e.nodes && Actor(s, step) in s.reps
    ensures step.ReadBegin? ==> step.r !in s.calls
  {
    hide LogsOK, RolesOK, StoredOK, NetOK, PeersOK, NodesKeep, VotesKeep, LeadersKeep, PointsOK, CommitsOK, E.Inv;
  }

  lemma StepGrows(s: Sys, h: History, s': Sys, step: Step)
    requires LogInv(s, h) && NextStep(s, s', step)
    ensures Grows(s, h, s', Record(s, h, step))
    ensures s.e.votes <= s'.e.votes && s.e.beats <= s'.e.beats
    ensures s'.reps.Keys == s.reps.Keys
  {
    hide LogInv, NextStep, Grows, Record, E.NextStep, E.Inv, E.Record, ElectionStep;
    ActorIn(s, h, s', step);
    ReplicasStay(s, s', step);
    ElectionPart(s, h, s', step);
    E.StepGrows(s.e, s'.e, ElectionStep(s, step));
    assert TermsGrow(s, s');
    hide TermsGrow;
    var n := Actor(s, step);
    if step.CountVote? && step.m.VoteReply? && WinsNow(s, n, step.m) {
      WinCase(s, h, s', step);
    } else if step.ClientAppend? || step.ReadPropose? {
      ProposeCase(s, h, s', step);
    } else if step.HandleAppend? && Accepts(s, n, step.a) {
      AcceptGrows(s, h, s', n, step.a.term, step.a.prev + |step.a.entries|);
      AcceptCase(s, h, s', step);
    } else {
      QuietCase(s, h, s', step);
    }
  }

  lemma QuietCase(s: Sys, h: History, s': Sys, step: Step)
    requires LogInv(s, h) && NextStep(s, s', step) && TermsGrow(s, s')
    requires !(step.CountVote? && step.m.VoteReply? && WinsNow(s, step.n, step.m))
    requires !step.ClientAppend? && !step.ReadPropose? && !(step.HandleAppend? && Accepts(s, step.n, step.a))
    ensures Grows(s, h, s', Record(s, h, step))
  {
    ActorIn(s, h, s', step);
    QuietRecord(s, h, step);
    QuietGrows(s, h, s', Record(s, h, step));
  }

  lemma WinCase(s: Sys, h: History, s': Sys, step: Step)
    requires step.CountVote? && step.n in s.e.nodes && step.m.VoteReply? && WinsNow(s, step.n, step.m)
    requires LogInv(s, h) && NextStep(s, s', step) && TermsGrow(s, s')
    ensures Grows(s, h, s', Record(s, h, step))
  {
    var n, v := step.n, s.e.nodes[step.n];
    hide LogInv, NextStep, Grows, TermsGrow, StoredOK, LogsOK, RolesOK, Shape, NetOK, PeersOK, NodesKeep, VotesKeep,
      LeadersKeep,
      PointsOK, CommitsOK, E.HasElectionMajority;
    LogParts(s, h);
    ActorIn(s, h, s', step);
    WinIsNew(s, h, s', step);
    WinGrows(s, h, s', n, E.Win(n, v.granted + {step.m.voter}, v.mode));
  }

  ghost function ProposedEntry(s: Sys, step: Step): LogEntry
    requires step.ClientAppend? || step.ReadPropose?
    requires Actor(s, step) in s.e.nodes && Actor(s, step) in s.reps
  {
    var n := Actor(s, step);
    var rep, t := s.reps[n], s.e.nodes[n].term;
    if step.ClientAppend? then OwnEntry(rep, t, step.op, step.key, step.value, step.oldCfg, step.newCfg)
    else OwnEntry(rep, t, NONE, "__noop__", "__noop__", [], [])
  }

  lemma ProposeFacts(s: Sys, h: History, s': Sys, step: Step)
    requires NextStep(s, s', step)
    requires step.ClientAppend? || step.ReadPropose?
    ensures var n := Actor(s, step);
      && n in s.e.nodes && n in s.reps && s.e.nodes[n].role == Leader && s'.e == s.e && s'.net == s.net
      && var log := s.reps[n].log + [ProposedEntry(s, step)];
      && s'.reps == s.reps[n := s.reps[n].(log := log)]
      && Record(s, h, step) == RecordPropose(h, n, s.e.nodes[n].term, log)
  {
  }

  lemma ProposeCase(s: Sys, h: History, s': Sys, step: Step)
    requires LogInv(s, h) && NextStep(s, s', step) && TermsGrow(s, s')
    requires step.ClientAppend? || step.ReadPropose?
    ensures Grows(s, h, s', Record(s, h, step))
  {
    assert StoredOK(s, h) && RolesOK(s, h);
    hide LogInv, NextStep, Grows, TermsGrow, StoredOK, RolesOK, Record;
    ProposeFacts(s, h, s', step);
    ProposeGrows(s, h, s', Actor(s, step), ProposedEntry(s, step));
  }

  lemma AcceptCase(s: Sys, h: History, s': Sys, step: Step)
    requires step.HandleAppend? && step.n in s.e.nodes && step.n in s.reps && Accepts(s, step.n, step.a)
    requires Grows(s, h, s', RecordAccept(h, step.n, step.a.term, step.a.prev + |step.a.entries|))
    ensures Grows(s, h, s', Record(s, h, step))
  {
    hide Grows, RecordAccept, Accepts;
  }

  /** The steps that touch no leader log and no acceptance. */
  lemma QuietRecord(s: Sys, h: History, step: Step)
    requires Shape(s, h) && LogsOK(s, h)
    requires Actor(s, step) in s.e.nodes && Actor(s, step) in s.reps
    requires step.ReadBegin? ==> step.r !in s.calls
    requires !(step.CountVote? && step.m.VoteReply? && WinsNow(s, step.n, step.m))
    requires !step.ClientAppend? && !step.ReadPropose? && !(step.HandleAppend? && Accepts(s, step.n, step.a))
    ensures Quiet(h, Record(s, h, step))
  {
    hide Shape, LogsOK, LogOK, TermLogOK, WinsNow, Accepts, Record, Quiet;
    if step.StartElection? {
      QuietElection(s, h, step);
    } else if step.ReadBegin? {
      QuietBegin(s, h, step);
    } else if step.ApplyOne? {
      QuietApply(s, h, step);
    } else if step.AdvanceCommit? {
      QuietAdvance(s, h, step);
    } else {
      NoRecord(s, h, step);
    }
  }

  lemma QuietElection(s: Sys, h: History, step: Step)
    requires LogsOK(s, h) && step.StartElection? && step.n in s.e.nodes && step.n in s.reps
    ensures Quiet(h, Record(s, h, step))
  {
    hide LogOK, TermLogOK;
    assert (s.e.nodes[step.n].term + 1, step.n) !in h.cand;
  }

  lemma QuietBegin(s: Sys, h: History, step: Step)
    requires Shape(s, h) && step.ReadBegin? && step.r !in s.calls && step.n in s.e.nodes && step.n in s.reps
    ensures Quiet(h, Record(s, h, step))
  {
    hide E.Inv;
    assert step.r !in h.marks;
  }

  lemma QuietApply(s: Sys, h: History, step: Step)
    requires step.ApplyOne? && step.n in s.e.nodes && step.n in s.reps
    ensures Quiet(h, Record(s, h, step))
  {
  }

  lemma QuietAdvance(s: Sys, h: History, step: Step)
    requires step.AdvanceCommit? && step.n in s.e.nodes && step.n in s.reps
    ensures Quiet(h, Record(s, h, step))
  {
  }

  lemma NoRecord(s: Sys, h: History, step: Step)
    requires !step.StartElection? && !step.ReadBegin? && !step.ApplyOne? && !step.AdvanceCommit?
    requires Actor(s, step) in s.e.nodes && Actor(s, step) in s.reps
    requires !(step.CountVote? && step.m.VoteReply? && WinsNow(s, step.n, step.m))
    requires !step.ClientAppend? && !step.ReadPropose? && !(step.HandleAppend? && Accepts(s, step.n, step.a))
    ensures Quiet(h, Record(s, h, step))
  {
    hide WinsNow, Accepts, RecordWin, RecordPropose, RecordAccept, RecordApply, RecordStart;
  }

  ghost predicate Quiet(h: History, h': History) {
    && h'.wins == h.wins && h'.logs == h.logs && h'.stored == h.stored && h.points <= h'.points
    && (forall k | k in h.cand :: k in h'.cand && h'.cand[k] == h.cand[k])
    && (forall r | r in h.marks :: r in h'.marks && h'.marks[r] == h.marks[r])
  }

  lemma QuietGrows(s: Sys, h: History, s': Sys, h': History)
    requires TermsGrow(s, s') && Quiet(h, h')
    ensures Grows(s, h, s', h')
  {
    assert forall q: Id, t: nat :: Stored(h', q, t) == Stored(h, q, t);
  }

  /** Voting touches no call, and no step adds or drops a replica. */
  lemma VoteStepFrame(s: Sys, s': Sys, step: Step)
    requires (step.StartElection? || step.HandleVote? || step.CountVote?) && VoteStep(s, s', step)
    ensures s'.reps.Keys == s.reps.Keys && s'.calls == s.calls
  {
    hide E.NextStep, E.HasElectionMajority, UpToDate, Grants, LearnIfNewer, NewLeader, LastTerm;
  }

  lemma LogStepFrame(s: Sys, s': Sys, step: Step)
    requires step.ClientAppend? || step.SendAppend? || step.HandleAppend? || step.TakeAppendReply? || step.AdvanceCommit? || step.ApplyOne?
    requires LogStep(s, s', step)
    ensures s'.reps.Keys == s.reps.Keys && s'.calls == s.calls
  {
    hide E.NextStep, PrevMatches, Committable, Propose, MakeAppend, ApplyToStore, TakeSuccess, TakeFailure, Receive,
      LearnIfNewer;
  }

  lemma ReplicasStay(s: Sys, s': Sys, step: Step)
    requires NextStep(s, s', step)
    ensures s'.reps.Keys == s.reps.Keys
  {
    hide VoteStep, LogStep, E.NextStep, MakeReadBeat, Propose, LearnIfNewer, Get, TermAt, FailReads;
    if step.StartElection? || step.HandleVote? || step.CountVote? {
      VoteStepFrame(s, s', step);
    } else if step.ClientAppend? || step.SendAppend? || step.HandleAppend? || step.TakeAppendReply? || step.AdvanceCommit? || step.ApplyOne? {
      LogStepFrame(s, s', step);
    }
  }

  /** A win is recorded for a term that had no leader. */
  lemma WinIsNew(s: Sys, h: History, s': Sys, step: Step)
    requires LogInv(s, h) && NextStep(s, s', step) && step.CountVote? && WinsNow(s, step.n, step.m)
    ensures s.e.nodes[step.n].term !in h.logs
  {
    E.NoRival(s.e, h.wins, step.n, step.m.voter);
  }
}
