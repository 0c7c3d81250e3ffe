/** Every step keeps leaders, candidates, acceptances and the leader's view of its peers in order. */
module RoleProof {
  import opened Types
  import opened Protocol
  import opened Invariant
  import opened Growth
  import opened LogProof
  import E = Election

  lemma ActorMoves(s: Sys, s': Sys, step: Step)
    requires NextStep(s, s', step)
    ensures !step.ReadBegin? ==> Actor(s, step) in s.e.nodes && Actor(s, step) in s.reps
    ensures step.ReadBegin? ==> s'.e == s.e
    ensures step.CountVote? ==> step.m.VoteReply?
  {
  }

  /** Nobody leads without having won an election, and nobody stands without having started one. */
  lemma RolesArise(s: Sys, h: History, s': Sys, step: Step, n: Id)
    requires NextStep(s, s', step) && n in s.e.nodes && n in s'.e.nodes
    ensures s'.e.nodes[n].role == Leader ==>
              || (IsWin(s, step) && n == Actor(s, step))
              || (s.e.nodes[n].role == Leader && s.e.nodes[n].term == s'.e.nodes[n].term
                  && !(IsAccept(s, step) && n == Actor(s, step)))
    ensures s'.e.nodes[n].role == Candidate ==>
              || (step.StartElection? && n == Actor(s, step))
              || (s.e.nodes[n].role == Candidate && s.e.nodes[n].term == s'.e.nodes[n].term
                  && (n == Actor(s, step) ==> !IsAccept(s, step) && !IsPropose(step)))
  {
    hide NextStep, E.NextStep, ElectionStep;
    ActorMoves(s, s', step);
    if !step.ReadBegin? {
      StepIsElectionStep(s, s', step);
      ElectionRoles(s, s', step, ElectionStep(s, step), n);
      ElectionKinds(s, step);
    }
    if IsPropose(step) {
      ProposeFacts(s, h, s', step);
    }
  }

  lemma ElectionRoles(s: Sys, s': Sys, step: Step, es: E.Step, n: Id)
    requires E.NextStep(s.e, s'.e, es) && n in s.e.nodes && n in s'.e.nodes
    ensures s'.e.nodes[n].role == Leader ==>
              || (es.CountVote? && es.n == n && E.HasElectionMajority(s.e, s.e.nodes[n].mode, s.e.nodes[n].granted + {es.from}))
              || (s.e.nodes[n].role == Leader && s.e.nodes[n].term == s'.e.nodes[n].term && !(es.HandleBeat? && es.n == n))
    ensures s'.e.nodes[n].role == Candidate ==>
              || (es.StartElection? && es.n == n)
              || (s.e.nodes[n].role == Candidate && s.e.nodes[n].term == s'.e.nodes[n].term && !(es.HandleBeat? && es.n == n))
  {
    hide E.HasElectionMajority;
  }

  lemma ElectionKinds(s: Sys, step: Step)
    requires Actor(s, step) in s.e.nodes && Actor(s, step) in s.reps
    ensures var es := ElectionStep(s, step);
      && (es.CountVote? ==> step.CountVote? && step.n == es.n && step.m.VoteReply? && step.m.voter == es.from && step.m.granted
                            && step.m.term <= s.e.nodes[es.n].term)
      && (es.StartElection? ==> step == StartElection(es.n))
      && (step.HandleAppend? && step.a.term >= s.e.nodes[step.n].term ==> es.HandleBeat? && es.n == step.n)
  {
    hide Grants;
  }

  lemma OneLeader(s: Sys, h: History, a: Id, b: Id)
    requires Shape(s, h) && a in s.e.nodes && b in s.e.nodes
    requires s.e.nodes[a].role == Leader == s.e.nodes[b].role && s.e.nodes[a].term == s.e.nodes[b].term
    ensures a == b
  {
    assert h.wins[s.e.nodes[a].term].leader == a;
  }

  lemma LeaderStep(s: Sys, h: History, s': Sys, step: Step, n: Id)
    requires LogInv(s, h) && NextStep(s, s', step)
    requires n in s'.reps && n in s'.e.nodes && s'.e.nodes[n].role == Leader
    ensures s'.e.nodes[n].term in Record(s, h, step).logs
    ensures Record(s, h, step).logs[s'.e.nodes[n].term].log == s'.reps[n].log
  {
    hide LogInv, NextStep, Record, Shape, RolesOK, LogsOK, IsPropose, IsAccept, IsWin, LogsGrow, StoredOK, NetOK,
      PeersOK,
      NodesKeep, VotesKeep, LeadersKeep, PointsOK, CommitsOK;
    LogParts(s, h);
    StepTermsGrow(s, h, s', step);
    RolesArise(s, h, s', step, n);
    if IsWin(s, step) {
      WonLeader(s, h, s', step, n);
    } else {
      LeaderTermIsWon(s, h, n);
      if IsPropose(step) {
        ProposedNodeLog(s, h, s', step);
        LeaderAfterPropose(s, h, s', step, n);
      } else {
        OtherTermLogsStay(s, h, s', step);
        OtherLogsStay(s, s', step, n);
      }
    }
  }

  lemma LeaderAfterPropose(s: Sys, h: History, s': Sys, step: Step, n: Id)
    requires Shape(s, h) && RolesOK(s, h) && NextStep(s, s', step) && IsPropose(step)
    requires n in s.e.nodes && n in s.reps && n in s'.reps && s.e.nodes[n].role == Leader
    ensures s.e.nodes[n].term in Record(s, h, step).logs
    ensures Record(s, h, step).logs[s.e.nodes[n].term].log == s'.reps[n].log
  {
    var m := Actor(s, step);
    hide NextStep, Shape, Record;
    ProposeFacts(s, h, s', step);
    LeaderTermIsWon(s, h, n);
    LeaderTermIsWon(s, h, m);
    if s.e.nodes[m].term == s.e.nodes[n].term {
      OneLeader(s, h, m, n);
    }
  }

  lemma WonLeader(s: Sys, h: History, s': Sys, step: Step, n: Id)
    requires LogInv(s, h) && NextStep(s, s', step) && IsWin(s, step)
    requires n in s'.reps && n in s'.e.nodes && s'.e.nodes[n].role == Leader
    ensures s'.e.nodes[n].term in Record(s, h, step).logs
    ensures Record(s, h, step).logs[s'.e.nodes[n].term].log == s'.reps[n].log
  {
    hide LogInv, NextStep, Record, Shape, RolesOK, LogsOK, StoredOK, NetOK, PeersOK,
      NodesKeep, VotesKeep, LeadersKeep, PointsOK, CommitsOK, WinsNow;
    LogParts(s, h);
    WinFacts(s, h, s', step);
    if n != step.n {
      LeaderTermIsWon(s, h, n);
    }
  }

  lemma CandidateStep(s: Sys, h: History, s': Sys, step: Step, n: Id)
    requires LogInv(s, h) && NextStep(s, s', step)
    requires n in s'.reps && n in s'.e.nodes && s'.e.nodes[n].role == Candidate
    ensures (s'.e.nodes[n].term, n) in Record(s, h, step).cand
    ensures Record(s, h, step).cand[(s'.e.nodes[n].term, n)] == s'.reps[n].log
  {
    hide LogInv, NextStep, Record, Shape, RolesOK, LogsOK, IsPropose, IsAccept, StoredOK, NetOK, PeersOK,
      NodesKeep, VotesKeep, LeadersKeep, PointsOK, CommitsOK;
    StepTermsGrow(s, h, s', step);
    StepLogsGrow(s, h, s', step);
    RolesArise(s, h, s', step, n);
    if step.StartElection? && n == step.n {
      StartFacts(s, h, s', step);
    } else {
      CandidateLog(s, h, n);
      OtherLogsStay(s, s', step, n);
    }
  }

  lemma RolesStep(s: Sys, h: History, s': Sys, step: Step)
    requires LogInv(s, h) && NextStep(s, s', step)
    ensures RolesOK(s', Record(s, h, step))
  {
    hide LogInv, NextStep, Record;
    forall n | n in s'.reps && n in s'.e.nodes
      ensures s'.e.nodes[n].role == Leader ==>
                s'.e.nodes[n].term in Record(s, h, step).logs && Record(s, h, step).logs[s'.e.nodes[n].term].log == s'.reps[n].log
      ensures s'.e.nodes[n].role == Candidate ==>
                (s'.e.nodes[n].term, n) in Record(s, h, step).cand && Record(s, h, step).cand[(s'.e.nodes[n].term, n)] == s'.reps[n].log
    {
      if s'.e.nodes[n].role == Leader {
        LeaderStep(s, h, s', step, n);
      } else if s'.e.nodes[n].role == Candidate {
        CandidateStep(s, h, s', step, n);
      }
    }
  }

  // ---- acceptances ----

  ghost predicate StoredEntry(s: Sys, h: History, q: Id, t: nat) {
    Stored(h, q, t) > 0 ==>
      && q in s.e.nodes && q in s.reps && t in h.logs && t <= s.e.nodes[q].term
      && Stored(h, q, t) <= |h.logs[t].log|
      && (t == s.e.nodes[q].term ==> Agree(s.reps[q].log, h.logs[t].log, Stored(h, q, t)))
  }

  lemma StoredAt(s: Sys, h: History, q: Id, t: nat)
    requires StoredOK(s, h)
    ensures StoredEntry(s, h, q, t)
  {
  }

  lemma StoredStep(s: Sys, h: History, s': Sys, step: Step)
    requires LogInv(s, h) && NextStep(s, s', step)
    ensures StoredOK(s', Record(s, h, step))
  {
    hide LogInv, NextStep, Record;
    var h' := Record(s, h, step);
    forall q, t | (q, t) in h'.stored
      ensures StoredEntry(s', h', q, t)
    {
      StoredEntryStep(s, h, s', step, q, t);
    }
  }

  lemma StoredEntryStep(s: Sys, h: History, s': Sys, step: Step, q: Id, t: nat)
    requires LogInv(s, h) && NextStep(s, s', step)
    ensures StoredEntry(s', Record(s, h, step), q, t)
  {
    hide LogInv, NextStep, Record, Shape, RolesOK, LogsOK, IsPropose, IsAccept, IsWin, StoredOK, NetOK, PeersOK,
      NodesKeep, VotesKeep, LeadersKeep, PointsOK, CommitsOK, StoredEntry, Stored;
    LogParts(s, h);
    StoredAt(s, h, q, t);
    if IsPropose(step) {
      StoredPropose(s, h, s', step, q, t);
    } else if IsAccept(s, step) {
      StoredAccept(s, h, s', step, q, t);
    } else if IsWin(s, step) {
      StoredWin(s, h, s', step, q, t);
    } else {
      StoredQuiet(s, h, s', step, q, t);
    }
  }

  lemma StoredQuiet(s: Sys, h: History, s': Sys, step: Step, q: Id, t: nat)
    requires LogInv(s, h) && NextStep(s, s', step) && StoredEntry(s, h, q, t)
    requires !IsPropose(step) && !IsAccept(s, step) && !IsWin(s, step)
    ensures StoredEntry(s', Record(s, h, step), q, t)
  {
    hide LogInv, NextStep, Record;
    StepTermsGrow(s, h, s', step);
    QuietStored(s, h, step);
    if q in s.reps {
      OtherLogsStay(s, s', step, q);
    }
  }

  lemma QuietStored(s: Sys, h: History, step: Step)
    requires !IsPropose(step) && !IsAccept(s, step) && !IsWin(s, step)
    ensures Record(s, h, step).stored == h.stored && Record(s, h, step).logs == h.logs
  {
  }

  lemma StoredPropose(s: Sys, h: History, s': Sys, step: Step, q: Id, t: nat)
    requires LogInv(s, h) && NextStep(s, s', step) && StoredEntry(s, h, q, t) && IsPropose(step)
    ensures StoredEntry(s', Record(s, h, step), q, t)
  {
    hide LogInv, NextStep, Record, Shape, RolesOK, StoredOK, LogsOK, NetOK, PeersOK,
      NodesKeep, VotesKeep, LeadersKeep, PointsOK, CommitsOK, LogOK, TermLogOK;
    LogParts(s, h);
    ProposeFacts(s, h, s', step);
    LeaderTermIsWon(s, h, Actor(s, step));
  }

  lemma StoredWin(s: Sys, h: History, s': Sys, step: Step, q: Id, t: nat)
    requires LogInv(s, h) && NextStep(s, s', step) && StoredEntry(s, h, q, t) && IsWin(s, step)
    ensures StoredEntry(s', Record(s, h, step), q, t)
  {
    hide LogInv, NextStep, Record, IsWin;
    WinFacts(s, h, s', step);
  }

  lemma StoredAccept(s: Sys, h: History, s': Sys, step: Step, q: Id, t: nat)
    requires LogInv(s, h) && NextStep(s, s', step) && StoredEntry(s, h, q, t) && IsAccept(s, step)
    ensures StoredEntry(s', Record(s, h, step), q, t)
  {
    hide LogInv, NextStep, Record, LogOK;
    StepTermsGrow(s, h, s', step);
    AcceptFacts(s, h, s', step);
    AcceptedNodeLog(s, h, s', step);
  }
}
