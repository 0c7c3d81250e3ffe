/**
 The heart of the safety argument: what a node accepted in a term stays with it, with the
 candidates it votes for and with the leaders they become, or can no longer be chosen.
 */
module KeepProof {
  import opened Types
  import opened Protocol
  import opened Invariant
  import opened Growth
  import opened Frames
  import opened LogProof
  import opened RoleProof
  import E = Election

  // ---- points that a step creates ----

  lemma NewPoint(s: Sys, h: History, s': Sys, step: Step, p: Point)
    requires LogInv(s, h) && NextStep(s, s', step)
    requires IsPoint(Record(s, h, step), p) && !IsPoint(h, p)
    ensures IsPropose(step)
    ensures var n := Actor(s, step);
      && n in s.e.nodes && n in s.reps && s.e.nodes[n].role == Leader
      && p == Point(s.e.nodes[n].term, |s.reps[n].log| + 1)
  {
    hide LogInv, NextStep, Record, RolesOK, Shape, StoredOK, NetOK, NodesKeep, VotesKeep, LeadersKeep, PointsOK,
      CommitsOK,
      PeersOK, WinsNow, LogsOK;
    LogParts(s, h);
    if IsPropose(step) {
      ProposeFacts(s, h, s', step);
      LeaderTermIsWon(s, h, Actor(s, step));
    } else if IsWin(s, step) {
      WinFacts(s, h, s', step);
      CandidateLog(s, h, step.n);
      if p.term == s.e.nodes[step.n].term {
        OlderEntries(s, h, s.reps[step.n].log, p.index - 1);
      }
    } else {
      OtherTermLogsStay(s, h, s', step);
    }
  }

  lemma OlderEntries(s: Sys, h: History, log: seq<LogEntry>, i: nat)
    requires LogsOK(s, h) && LogOK(h, log) && i < |log|
    ensures log[i].term <= LastTerm(log)
    ensures i < |log| - 1 && log[i].term < LastTerm(log) ==> true
  {
    assert EntryOK(h, LastTerm(log), i);
  }

  /** Only the proposer has accepted a fresh entry. */
  lemma FreshIsUnaccepted(s: Sys, h: History, s': Sys, step: Step, q: Id)
    requires LogInv(s, h) && NextStep(s, s', step) && IsPropose(step)
    ensures var n := Actor(s, step);
      && n in s.e.nodes && n in s.reps
      && (q != n ==> Stored(Record(s, h, step), q, s.e.nodes[n].term) <= |s.reps[n].log|)
  {
    hide LogInv, NextStep, Record, RolesOK, Shape, NetOK, NodesKeep, VotesKeep, LeadersKeep, PointsOK, CommitsOK,
      PeersOK, LogsOK, StoredOK;
    var n := Actor(s, step);
    LogParts(s, h);
    ProposeFacts(s, h, s', step);
    LeaderTermIsWon(s, h, n);
    StoredAt(s, h, q, s.e.nodes[n].term);
  }

  /** A leader elected later proves that this one's fresh entry cannot be chosen. */
  lemma FreshIsBlocked(s: Sys, h: History, s': Sys, step: Step, t: nat)
    requires LogInv(s, h) && NextStep(s, s', step) && IsPropose(step) && t in h.logs
    ensures var n := Actor(s, step);
      && n in s.e.nodes && n in s.reps
      && (s.e.nodes[n].term < t ==> Blocked(s', Record(s, h, step), Point(s.e.nodes[n].term, |s.reps[n].log| + 1)))
  {
    var n := Actor(s, step);
    var h' := Record(s, h, step);
    hide LogInv, NextStep, Record, Stored, IsPropose;
    ProposerSame(s, h, s', step);
    VotersMovedOn(s, h, t);
    if s.e.nodes[n].term < t {
      var p := Point(s.e.nodes[n].term, |s.reps[n].log| + 1);
      forall q | q in h.wins[t].voters
        ensures q in Refusers(s', h', p)
      {
        FreshIsUnaccepted(s, h, s', step, q);
      }
      E.QuorumGrows(s.e, h.wins[t].voters, s'.e, Refusers(s', h', p));
    }
  }

  lemma ProposerSame(s: Sys, h: History, s': Sys, step: Step)
    requires NextStep(s, s', step) && IsPropose(step)
    ensures Actor(s, step) in s.e.nodes && Actor(s, step) in s.reps && s'.e == s.e
  {
  }

  lemma VotersMovedOn(s: Sys, h: History, t: nat)
    requires LogInv(s, h) && t in h.logs
    ensures t in h.wins && E.IsQuorum(s.e, h.wins[t].voters)
    ensures forall q | q in h.wins[t].voters :: q in s.e.nodes && s.e.nodes[q].term >= t
  {
    hide LogsOK, RolesOK, StoredOK, NetOK, PeersOK, NodesKeep, VotesKeep, LeadersKeep, PointsOK, CommitsOK;
    hide E.VotesBounded, E.VotesFirm, E.VotesUnique, E.RolesSound, E.BeatsSound;
    assert E.WinSound(s.e, t, h.wins[t]);
  }

  // ---- nodes ----

  lemma NodesKeepStep(s: Sys, h: History, s': Sys, step: Step)
    requires LogInv(s, h) && NextStep(s, s', step)
    ensures NodesKeep(s', Record(s, h, step))
  {
    var h' := Record(s, h, step);
    hide LogInv, NextStep, Record, Kept, Stored, IsPoint;
    forall n, p: Point | n in s'.reps && IsPoint(h', p) && p.index <= Stored(h', n, p.term)
      ensures Kept(s', h', s'.reps[n].log, p)
    {
      NodeKeepStep(s, h, s', step, n, p);
    }
  }

  lemma NodeKeepStep(s: Sys, h: History, s': Sys, step: Step, n: Id, p: Point)
    requires LogInv(s, h) && NextStep(s, s', step)
    requires n in s'.reps && IsPoint(Record(s, h, step), p) && p.index <= Stored(Record(s, h, step), n, p.term)
    ensures Kept(s', Record(s, h, step), s'.reps[n].log, p)
  {
    var h' := Record(s, h, step);
    hide LogInv, NextStep, Record, Blocked, Stored;
    StoredEntryStep(s, h, s', step, n, p.term);
    if p.term != s'.e.nodes[n].term {
      NodeKeepsOlder(s, h, s', step, n, p);
    }
  }

  lemma StoredSettled(s: Sys, h: History, s': Sys, step: Step, n: Id, t: nat)
    requires LogInv(s, h) && NextStep(s, s', step)
    requires n in s.e.nodes && n in s'.e.nodes && t < s'.e.nodes[n].term
    ensures Stored(Record(s, h, step), n, t) == Stored(h, n, t)
  {
    hide LogInv, NextStep, Record;
    StepGrows(s, h, s', step);
    if t == s.e.nodes[n].term {
      NoCreditAfterLeaving(s, h, s', step, n);
    } else if t > s.e.nodes[n].term {
      NoCreditAhead(s, h, s', step, n, t);
    }
  }

  lemma NoCreditAfterLeaving(s: Sys, h: History, s': Sys, step: Step, n: Id)
    requires NextStep(s, s', step)
    requires n in s.e.nodes && n in s'.e.nodes && s.e.nodes[n].term < s'.e.nodes[n].term
    ensures Stored(Record(s, h, step), n, s.e.nodes[n].term) == Stored(h, n, s.e.nodes[n].term)
  {
    hide NextStep, Record;
    if IsPropose(step) {
      ProposeFacts(s, h, s', step);
    } else if IsAccept(s, step) {
      AcceptFacts(s, h, s', step);
    } else if IsWin(s, step) {
      WinnerStays(s, s', step);
      WinRecord(s, h, step);
    } else {
      QuietStored(s, h, step);
    }
  }

  lemma NoCreditAhead(s: Sys, h: History, s': Sys, step: Step, n: Id, t: nat)
    requires NextStep(s, s', step)
    requires n in s.e.nodes && n in s'.e.nodes && s.e.nodes[n].term < t < s'.e.nodes[n].term
    ensures Stored(Record(s, h, step), n, t) == Stored(h, n, t)
  {
    hide NextStep, Record;
    if IsPropose(step) {
      ProposeFacts(s, h, s', step);
    } else if IsAccept(s, step) {
      AcceptFacts(s, h, s', step);
    } else if IsWin(s, step) {
      WinnerStays(s, s', step);
      WinRecord(s, h, step);
    } else {
      QuietStored(s, h, step);
    }
  }

  lemma WinnerStays(s: Sys, s': Sys, step: Step)
    requires NextStep(s, s', step) && IsWin(s, step)
    ensures forall q | q in s.e.nodes && q in s'.e.nodes :: s'.e.nodes[q].term == s.e.nodes[q].term
  {
  }

  lemma WinRecord(s: Sys, h: History, step: Step)
    requires IsWin(s, step)
    ensures forall q: Id, t: nat | q != step.n || t != s.e.nodes[step.n].term ::
              Stored(Record(s, h, step), q, t) == Stored(h, q, t)
  {
  }

  lemma KeptAt(s: Sys, h: History, n: Id, p: Point)
    requires NodesKeep(s, h) && n in s.reps && IsPoint(h, p) && p.index <= Stored(h, n, p.term)
    ensures Kept(s, h, s.reps[n].log, p)
  {
  }

  lemma NodeKeepsOlder(s: Sys, h: History, s': Sys, step: Step, n: Id, p: Point)
    requires LogInv(s, h) && NextStep(s, s', step)
    requires n in s'.reps && n in s'.e.nodes && IsPoint(Record(s, h, step), p) && p.term < s'.e.nodes[n].term
    requires p.index <= Stored(Record(s, h, step), n, p.term)
    ensures Kept(s', Record(s, h, step), s'.reps[n].log, p)
  {
    var h' := Record(s, h, step);
    hide LogInv, NextStep, Record, Blocked, Stored, RolesOK, Shape, StoredOK, NetOK, NodesKeep, VotesKeep,
      LeadersKeep, PointsOK,
      CommitsOK, PeersOK, LogsOK, IsPropose, Accepts, Kept, Grows, IsPoint;
    LogParts(s, h);
    StepTermsGrow(s, h, s', step);
    StepGrows(s, h, s', step);
    StoredSettled(s, h, s', step, n, p.term);
    if !IsPoint(h, p) {
      NewPoint(s, h, s', step, p);
      FreshIsUnaccepted(s, h, s', step, n);
      ProposerSame(s, h, s', step);
      assert false;
    }
    KeptAt(s, h, n, p);
    KeptStays(s, h, s', h', s.reps[n].log, p);
    if n == Actor(s, step) && IsPropose(step) {
      ProposeKeeps(s, h, s', step, p);
    } else if n == Actor(s, step) && IsAccept(s, step) {
      AcceptKeeps(s, h, s', step, p);
    } else {
      OtherLogsStay(s, s', step, n);
    }
  }

  lemma ProposeKeeps(s: Sys, h: History, s': Sys, step: Step, p: Point)
    requires NextStep(s, s', step) && IsPropose(step) && IsPoint(Record(s, h, step), p)
    requires Actor(s, step) in s.reps && Kept(s', Record(s, h, step), s.reps[Actor(s, step)].log, p)
    ensures Actor(s, step) in s'.reps && Kept(s', Record(s, h, step), s'.reps[Actor(s, step)].log, p)
  {
    hide NextStep, Record, Blocked;
    ProposeFacts(s, h, s', step);
  }

  lemma AcceptKeeps(s: Sys, h: History, s': Sys, step: Step, p: Point)
    requires LogInv(s, h) && NextStep(s, s', step) && IsAccept(s, step) && IsPoint(h, p)
    requires step.n in s'.e.nodes && p.term < s'.e.nodes[step.n].term
    requires Kept(s, h, s.reps[step.n].log, p)
    ensures step.n in s'.reps && IsPoint(Record(s, h, step), p) && Kept(s', Record(s, h, step), s'.reps[step.n].log, p)
  {
    var n, a := step.n, step.a;
    hide LogInv, NextStep, Record, Blocked, RolesOK, Shape, StoredOK, NetOK, NodesKeep, VotesKeep, LeadersKeep,
      PointsOK,
      CommitsOK, PeersOK, LogsOK, Accepts, Grows, LogOK, AppendOK, Receive;
    LogParts(s, h);
    StepGrows(s, h, s', step);
    AcceptFacts(s, h, s', step);
    AcceptedNodeLog(s, h, s', step);
    MergeKeeps(s, h, s.reps[n].log, s'.reps[n].log, a.term, p);
    KeptStays(s, h, s', Record(s, h, step), s'.reps[n].log, p);
  }

  lemma MergeKeeps(s: Sys, h: History, log: seq<LogEntry>, log': seq<LogEntry>, t: nat, p: Point)
    requires LeadersKeep(s, h) && LogsOK(s, h) && IsPoint(h, p) && t in h.logs && p.term < t
    requires forall k :: Agree(log, h.logs[t].log, k) ==> Agree(log', h.logs[t].log, k)
    requires Kept(s, h, log, p)
    ensures Kept(s, h, log', p)
  {
    hide Blocked;
    assert Kept(s, h, h.logs[t].base, p);
    assert TermLogOK(h, t);
    if Has(h, log, p) && Has(h, h.logs[t].base, p) {
      assert Agree(log, h.logs[t].log, p.index);
      assert Agree(log', h.logs[t].log, p.index);
    }
  }

  // ---- votes ----

  /** The up-to-date check: a candidate whose log is no older than the voter's has what the voter has. */
  lemma UpToDateKeeps(s: Sys, h: History, mine: seq<LogEntry>, theirs: seq<LogEntry>, p: Point)
    requires LogsOK(s, h) && LeadersKeep(s, h) && IsPoint(h, p)
    requires LogOK(h, mine) && LogOK(h, theirs) && Has(h, mine, p)
    requires UpToDate(|theirs|, LastTerm(theirs), mine)
    ensures Kept(s, h, theirs, p)
  {
    hide Blocked;
    assert EntryOK(h, LastTerm(mine), p.index - 1);
    var t: int := LastTerm(theirs);
    assert mine[p.index - 1].term == p.term;
    if t > p.term {
      assert Kept(s, h, h.logs[t].base, p);
      assert EntryOK(h, t, |theirs| - 1);
      assert Agree(theirs, h.logs[t].log, |theirs|);
    } else {
      assert Agree(theirs, h.logs[t].log, |theirs|);
    }
  }

  lemma VotesKeepStep(s: Sys, h: History, s': Sys, step: Step)
    requires LogInv(s, h) && NextStep(s, s', step)
    ensures VotesKeep(s', Record(s, h, step))
  {
    var h' := Record(s, h, step);
    hide LogInv, NextStep, Record, Kept, Stored, IsPoint;
    forall q: Id, t: nat, c: Id, p: Point |
      E.Vote(q, t, c) in s'.e.votes && p.term < t && IsPoint(h', p) && p.index <= Stored(h', q, p.term)
      ensures (t, c) in h'.cand && Kept(s', h', h'.cand[(t, c)], p)
    {
      VoteKeepStep(s, h, s', step, q, t, c, p);
    }
  }

  lemma VoteKeepStep(s: Sys, h: History, s': Sys, step: Step, q: Id, t: nat, c: Id, p: Point)
    requires LogInv(s, h) && NextStep(s, s', step)
    requires E.Vote(q, t, c) in s'.e.votes && p.term < t && IsPoint(Record(s, h, step), p)
    requires p.index <= Stored(Record(s, h, step), q, p.term)
    ensures (t, c) in Record(s, h, step).cand && Kept(s', Record(s, h, step), Record(s, h, step).cand[(t, c)], p)
  {
    var h' := Record(s, h, step);
    hide LogInv, NextStep, Record, Blocked, Stored, RolesOK, Shape, StoredOK, NetOK, NodesKeep, VotesKeep,
      LeadersKeep, PointsOK,
      CommitsOK, PeersOK, LogsOK, IsPropose, Kept, Grows, IsPoint, LogsGrow;
    LogParts(s, h);
    StepTermsGrow(s, h, s', step);
    StepGrows(s, h, s', step);
    StepLogsGrow(s, h, s', step);
    VoteWithinTerm(s, h, s', step, q, t, c);
    StoredSettled(s, h, s', step, q, p.term);
    if !IsPoint(h, p) {
      NewPoint(s, h, s', step, p);
      FreshIsUnaccepted(s, h, s', step, q);
      ProposerSame(s, h, s', step);
      assert false;
    }
    VoteKept(s, h, s', step, q, t, c, p);
    StepKeepsCand(s, h, s', step, t, c, p);
  }

  lemma VoteWithinTerm(s: Sys, h: History, s': Sys, step: Step, q: Id, t: nat, c: Id)
    requires LogInv(s, h) && NextStep(s, s', step) && E.Vote(q, t, c) in s'.e.votes
    ensures q in s'.e.nodes && t <= s'.e.nodes[q].term
  {
    hide LogInv, NextStep, Record, E.VotesFirm, E.VotesUnique, E.WinsSound, E.RolesSound, E.BeatsSound;
    ElectionPart(s, h, s', step);
  }

  /** The log the vote went to, before the step's growth is taken into account. */
  ghost function VotedLog(s: Sys, h: History, step: Step, t: nat, c: Id): Option<seq<LogEntry>> {
    if step.StartElection? && step.n == c && c in s.e.nodes && c in s.reps && t == s.e.nodes[c].term + 1 then Some(s.reps[c].log)
    else if (t, c) in h.cand then Some(h.cand[(t, c)]) else None
  }

  lemma VoteKept(s: Sys, h: History, s': Sys, step: Step, q: Id, t: nat, c: Id, p: Point)
    requires LogInv(s, h) && NextStep(s, s', step)
    requires E.Vote(q, t, c) in s'.e.votes && p.term < t && IsPoint(h, p) && p.index <= Stored(h, q, p.term)
    ensures VotedLog(s, h, step, t, c).Some? && Kept(s, h, VotedLog(s, h, step, t, c).value, p)
  {
    hide LogInv, NextStep, Record, Blocked, Stored, RolesOK, Shape, StoredOK, NetOK, NodesKeep, VotesKeep,
      LeadersKeep, PointsOK,
      CommitsOK, PeersOK, LogsOK, Kept, IsPoint;
    LogParts(s, h);
    if E.Vote(q, t, c) in s.e.votes {
      OldVoteKept(s, h, step, q, t, c, p);
    } else {
      VotesArise(s, s', step, q, t, c);
      if step.StartElection? {
        KeptAt(s, h, q, p);
      } else {
        GrantKept(s, h, s', step, p);
      }
    }
  }

  lemma OldVoteKept(s: Sys, h: History, step: Step, q: Id, t: nat, c: Id, p: Point)
    requires VotesKeep(s, h) && LogsOK(s, h)
    requires E.Vote(q, t, c) in s.e.votes && p.term < t && IsPoint(h, p) && p.index <= Stored(h, q, p.term)
    ensures VotedLog(s, h, step, t, c).Some? && Kept(s, h, VotedLog(s, h, step, t, c).value, p)
  {
    hide Blocked, LogOK, TermLogOK;
  }

  lemma VotesArise(s: Sys, s': Sys, step: Step, q: Id, t: nat, c: Id)
    requires NextStep(s, s', step) && E.Vote(q, t, c) in s'.e.votes && E.Vote(q, t, c) !in s.e.votes
    ensures q in s.e.nodes && q in s.reps
    ensures (step == StartElection(q) && c == q && t == s.e.nodes[q].term + 1)
         || (step.HandleVote? && step.n == q && step.m in s.net && step.m.RequestVote? && step.m.cand == c && step.m.term == t
             && UpToDate(step.m.lastIndex, step.m.lastTerm, s.reps[q].log))
  {
    hide NextStep, E.HasElectionMajority, UpToDate, E.CanVote;
    ActorMoves(s, s', step);
    if !step.ReadBegin? {
      StepIsElectionStep(s, s', step);
    }
    if step.HandleVote? {
      VoteFacts(s, s', step);
    }
  }

  lemma VoteFacts(s: Sys, s': Sys, step: Step)
    requires NextStep(s, s', step) && step.HandleVote?
    ensures step.m in s.net && step.m.RequestVote? && step.m.cand in s.e.nodes
  {
  }

  lemma GrantKept(s: Sys, h: History, s': Sys, step: Step, p: Point)
    requires LogInv(s, h) && step.HandleVote? && step.n in s.reps && step.n in s.e.nodes
    requires step.m in s.net && step.m.RequestVote? && UpToDate(step.m.lastIndex, step.m.lastTerm, s.reps[step.n].log)
    requires p.term < step.m.term && IsPoint(h, p) && p.index <= Stored(h, step.n, p.term)
    ensures var k := (step.m.term, step.m.cand); k in h.cand && Kept(s, h, h.cand[k], p)
  {
    hide LogInv, Blocked, Stored, RolesOK, Shape, StoredOK, NetOK, NodesKeep, VotesKeep, LeadersKeep, PointsOK,
      CommitsOK, PeersOK, TermLogOK, LogOK, UpToDate, IsPoint;
    LogParts(s, h);
    KeptAt(s, h, step.n, p);
    RequestIsTrue(s, h, step.m);
    if Has(h, s.reps[step.n].log, p) {
      UpToDateKeeps(s, h, s.reps[step.n].log, h.cand[(step.m.term, step.m.cand)], p);
    }
  }

  lemma RequestIsTrue(s: Sys, h: History, m: Message)
    requires NetOK(s, h) && m in s.net && m.RequestVote?
    ensures (m.term, m.cand) in h.cand
    ensures m.lastIndex == |h.cand[(m.term, m.cand)]| && m.lastTerm == LastTerm(h.cand[(m.term, m.cand)])
  {
    assert MessageOK(s, h, m);
  }

  lemma StepKeepsCand(s: Sys, h: History, s': Sys, step: Step, t: nat, c: Id, p: Point)
    requires LogInv(s, h) && NextStep(s, s', step) && IsPoint(h, p)
    requires VotedLog(s, h, step, t, c).Some? && Kept(s, h, VotedLog(s, h, step, t, c).value, p)
    ensures IsPoint(Record(s, h, step), p)
    ensures (t, c) in Record(s, h, step).cand && Kept(s', Record(s, h, step), Record(s, h, step).cand[(t, c)], p)
  {
    hide LogInv, NextStep, Record, Blocked, Kept, Grows, IsPoint;
    StepGrows(s, h, s', step);
    StepLogsGrow(s, h, s', step);
    KeptStays(s, h, s', Record(s, h, step), VotedLog(s, h, step, t, c).value, p);
    if step.StartElection? {
      StartFacts(s, h, s', step);
    }
  }

  // ---- leaders ----

  lemma LeadersKeepStep(s: Sys, h: History, s': Sys, step: Step)
    requires LogInv(s, h) && NextStep(s, s', step)
    ensures LeadersKeep(s', Record(s, h, step))
  {
    var h' := Record(s, h, step);
    hide LogInv, NextStep, Record, Kept, IsPoint;
    forall t, p: Point | t in h'.logs && p.term < t && IsPoint(h', p)
      ensures Kept(s', h', h'.logs[t].base, p)
    {
      LeaderKeepStep(s, h, s', step, t, p);
    }
  }

  lemma LeaderKeepStep(s: Sys, h: History, s': Sys, step: Step, t: nat, p: Point)
    requires LogInv(s, h) && NextStep(s, s', step)
    requires t in Record(s, h, step).logs && p.term < t && IsPoint(Record(s, h, step), p)
    ensures Kept(s', Record(s, h, step), Record(s, h, step).logs[t].base, p)
  {
    var h' := Record(s, h, step);
    hide LogInv, NextStep, Record, Blocked, Stored, RolesOK, Shape, StoredOK, NetOK, NodesKeep, VotesKeep, PointsOK,
      CommitsOK, PeersOK, LogsOK, WinsNow, Grows, IsPoint;
    LogParts(s, h);
    StepGrows(s, h, s', step);
    StepLogsGrow(s, h, s', step);
    if !IsPoint(h, p) {
      NewPoint(s, h, s', step, p);
      ProposeFacts(s, h, s', step);
      FreshIsBlocked(s, h, s', step, t);
    } else if t in h.logs {
      KeptStays(s, h, s', h', h.logs[t].base, p);
    } else {
      NoOtherWins(s, h, step, t);
      WonBaseKeeps(s, h, s', step, t, p);
    }
  }

  lemma WonBaseKeeps(s: Sys, h: History, s': Sys, step: Step, t: nat, p: Point)
    requires LogInv(s, h) && NextStep(s, s', step) && IsWin(s, step) && Grows(s, h, s', Record(s, h, step))
    requires t in Record(s, h, step).logs && t !in h.logs && p.term < t && IsPoint(h, p)
    ensures Kept(s', Record(s, h, step), Record(s, h, step).logs[t].base, p)
  {
    hide LogInv, NextStep, Record, Blocked, Stored, WinsNow, Grows, IsPoint;
    WinFacts(s, h, s', step);
    CandidateLog(s, h, step.n);
    CountedVote(s, h, s', step);
    WinnerKeeps(s, h, step, p);
    KeptStays(s, h, s', Record(s, h, step), s.reps[step.n].log, p);
  }

  lemma NoOtherWins(s: Sys, h: History, step: Step, t: nat)
    requires t in Record(s, h, step).logs && t !in h.logs
    ensures IsWin(s, step)
  {
    hide E.HasElectionMajority;
  }

  /** If some voter had accepted the point, the winner keeps it; if none had, the voters block it. */
  lemma WinnerKeeps(s: Sys, h: History, step: Step, p: Point)
    requires LogInv(s, h) && IsWin(s, step) && step.n in s.reps && s.e.nodes[step.n].role == Candidate
    requires E.Vote(step.m.voter, s.e.nodes[step.n].term, step.n) in s.e.votes
    requires (s.e.nodes[step.n].term, step.n) in h.cand && h.cand[(s.e.nodes[step.n].term, step.n)] == s.reps[step.n].log
    requires IsPoint(h, p) && p.term < s.e.nodes[step.n].term
    ensures Kept(s, h, s.reps[step.n].log, p)
  {
    var n, t := step.n, s.e.nodes[step.n].term;
    var g := s.e.nodes[n].granted + {step.m.voter};
    hide LogInv, RolesOK, Shape, StoredOK, NetOK, NodesKeep, VotesKeep, PointsOK, CommitsOK, PeersOK, LogsOK,
      LeadersKeep, IsPoint,
      Blocked, Has, E.HasElectionMajority, Stored;
    LogParts(s, h);
    GrantersVoted(s, h, n, step.m.voter);
    GrantersAreMajority(s, h, step);
    if q :| q in g && p.index <= Stored(h, q, p.term) {
      WinnerHasVoters(s, h, q, t, n, p);
    } else {
      WinnersBlock(s, h, g, t, p);
    }
  }

  lemma WinnersBlock(s: Sys, h: History, g: set<Id>, t: nat, p: Point)
    requires E.IsQuorum(s.e, g) && p.term < t
    requires forall q | q in g :: q in s.e.nodes && s.e.nodes[q].term >= t && p.index > Stored(h, q, p.term)
    ensures Blocked(s, h, p)
  {
    E.QuorumGrows(s.e, g, s.e, Refusers(s, h, p));
  }

  lemma CountedVote(s: Sys, h: History, s': Sys, step: Step)
    requires LogInv(s, h) && NextStep(s, s', step) && IsWin(s, step)
    ensures E.Vote(step.m.voter, s.e.nodes[step.n].term, step.n) in s.e.votes
  {
    hide LogInv, RolesOK, Shape, StoredOK, NodesKeep, VotesKeep, LeadersKeep, PointsOK, CommitsOK, PeersOK, LogsOK,
      E.HasElectionMajority, AppendOK;
    LogParts(s, h);
    assert MessageOK(s, h, step.m);
  }

  lemma WinnerHasVoters(s: Sys, h: History, q: Id, t: nat, n: Id, p: Point)
    requires VotesKeep(s, h) && E.Vote(q, t, n) in s.e.votes && p.term < t && IsPoint(h, p) && p.index <= Stored(h, q, p.term)
    ensures (t, n) in h.cand && Kept(s, h, h.cand[(t, n)], p)
  {
  }

  lemma GrantersVoted(s: Sys, h: History, n: Id, from: Id)
    requires Shape(s, h) && n in s.e.nodes && s.e.nodes[n].role == Candidate
    requires E.Vote(from, s.e.nodes[n].term, n) in s.e.votes
    ensures forall q | q in s.e.nodes[n].granted + {from} ::
              E.Vote(q, s.e.nodes[n].term, n) in s.e.votes && q in s.e.nodes && s.e.nodes[q].term >= s.e.nodes[n].term
  {
  }

  lemma GrantersAreMajority(s: Sys, h: History, step: Step)
    requires Shape(s, h) && IsWin(s, step)
    ensures E.IsQuorum(s.e, s.e.nodes[step.n].granted + {step.m.voter})
  {
  }
}
