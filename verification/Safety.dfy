/** The invariant holds initially, every step keeps it, and state machine safety follows from it. */
module Safety {
  import opened Types
  import opened Protocol
  import opened Invariant
  import opened Growth
  import opened LogProof
  import opened RoleProof
  import opened CommitProof
  import opened NetProof
  import opened KeepProof
  import E = Election

  ghost function Start(s: Sys): History {
    History(map[], map[], map[], map[], {}, map n | n in s.reps :: [], map[])
  }

  lemma InitLogInv(s: Sys)
    requires Init(s)
    ensures LogInv(s, Start(s))
  {
    var h := Start(s);
    assert forall p: Point :: !IsPoint(h, p);
  }

  lemma StaticStep(s: Sys, h: History, s': Sys, step: Step)
    requires LogInv(s, h) && NextStep(s, s', step)
    ensures s'.e.nodes.Keys == s'.reps.Keys && E.Active(s'.e, E.Joint) <= s'.e.nodes.Keys && Nested(s'.e)
  {
    hide LogInv, NextStep, E.Inv, E.NextStep, ElectionStep;
    CfgIsNodes(s, h);
    ElectionPart(s, h, s', step);
    E.StepGrows(s.e, s'.e, ElectionStep(s, step));
    ReplicasStay(s, s', step);
  }

  lemma RecordShape(s: Sys, h: History, s': Sys, step: Step)
    requires NextStep(s, s', step) && Shape(s, h)
    ensures Record(s, h, step).applied.Keys == h.applied.Keys
    ensures Record(s, h, step).wins.Keys == Record(s, h, step).logs.Keys
  {
    hide NextStep, E.Inv, Record;
    RecordKeys(s, h, step);
  }

  lemma RecordKeys(s: Sys, h: History, step: Step)
    requires h.wins.Keys == h.logs.Keys && s.reps.Keys == h.applied.Keys
    ensures Record(s, h, step).applied.Keys == h.applied.Keys
    ensures Record(s, h, step).wins.Keys == Record(s, h, step).logs.Keys
  {
    hide Record;
    if step.ApplyOne? || step.TakeDump? {
      AppliedKeys(s, h, step);
    } else {
      WonKeys(s, h, step);
    }
  }

  lemma AppliedKeys(s: Sys, h: History, step: Step)
    requires s.reps.Keys == h.applied.Keys && (step.ApplyOne? || step.TakeDump?)
    ensures var h' := Record(s, h, step); h'.applied.Keys == h.applied.Keys && h'.wins == h.wins && h'.logs == h.logs
  {
    hide DumpOf;
  }

  lemma WonKeys(s: Sys, h: History, step: Step)
    requires h.wins.Keys == h.logs.Keys && !step.ApplyOne? && !step.TakeDump?
    ensures var h' := Record(s, h, step); h'.applied == h.applied && h'.wins.Keys == h'.logs.Keys
  {
    hide WinsNow, Accepts, Propose, RecordDump, RecordApply, Stored;
  }

  // ---- what happens to the calls ----

  lemma CallsInOtherStep(s: Sys, s': Sys, step: Step)
    requires IsOther(step) && OtherStep(s, s', step)
    ensures s'.calls.Keys == s.calls.Keys
    ensures forall r | r in s.calls :: s'.calls[r].phase.Done? ==> s.calls[r].phase.Done?
  {
    hide E.NextStep, LearnIfNewer;
  }

  lemma CallsStay(s: Sys, s': Sys, step: Step)
    requires NextStep(s, s', step)
    ensures s'.calls.Keys == s.calls.Keys + (if step.ReadBegin? then {step.r} else {})
    ensures step.StartElection? || step.HandleVote? || step.CountVote? ==> s'.calls == s.calls
    ensures step.ClientAppend? || step.SendAppend? || step.HandleAppend? || step.TakeAppendReply? || step.AdvanceCommit? || step.ApplyOne?
            ==> s'.calls == s.calls
    ensures IsOther(step) ==>
      forall r | r in s.calls :: s'.calls[r].phase.Done? ==> s.calls[r].phase.Done?
  {
    hide VoteStep, LogStep, OtherStep, E.NextStep, MakeReadBeat, Propose, LearnIfNewer, Get, TermAt;
    if step.StartElection? || step.HandleVote? || step.CountVote? {
      VoteStepFrame(s, s', step);
    } else if step.ClientAppend? || step.SendAppend? || step.HandleAppend? || step.TakeAppendReply? || step.AdvanceCommit? || step.ApplyOne? {
      LogStepFrame(s, s', step);
    } else if IsOther(step) {
      CallsInOtherStep(s, s', step);
    }
  }

  lemma MarksFollowCalls(s: Sys, h: History, s': Sys, step: Step)
    requires NextStep(s, s', step) && h.marks.Keys == s.calls.Keys
    requires Actor(s, step) in s.e.nodes && Actor(s, step) in s.reps
    ensures Record(s, h, step).marks.Keys == s'.calls.Keys
  {
    hide NextStep, Record;
    RecordedMarks(s, h, step);
    CallsStay(s, s', step);
  }

  lemma RecordedMarks(s: Sys, h: History, step: Step)
    requires Actor(s, step) in s.e.nodes && Actor(s, step) in s.reps
    ensures Record(s, h, step).marks.Keys == h.marks.Keys + (if step.ReadBegin? then {step.r} else {})
  {
    hide WinsNow, Accepts, Propose, Stored;
  }

  lemma ShapeStep(s: Sys, h: History, s': Sys, step: Step)
    requires LogInv(s, h) && NextStep(s, s', step)
    ensures Shape(s', Record(s, h, step))
  {
    hide LogInv, NextStep, Record, E.Inv;
    LogParts(s, h);
    ElectionPart(s, h, s', step);
    StaticStep(s, h, s', step);
    RecordShape(s, h, s', step);
    CfgIsNodes(s, h);
    MarksFollowCalls(s, h, s', step);
    ReplicasStay(s, s', step);
  }

  lemma LogInvStep(s: Sys, h: History, s': Sys, step: Step)
    requires LogInv(s, h) && NextStep(s, s', step)
    ensures LogInv(s', Record(s, h, step))
  {
    hide NextStep, Record, Shape, RolesOK, LogsOK, StoredOK, NetOK, PeersOK, NodesKeep, VotesKeep, LeadersKeep,
      PointsOK, CommitsOK;
    ShapeStep(s, h, s', step);
    LogsStep(s, h, s', step);
    RolesStep(s, h, s', step);
    StoredStep(s, h, s', step);
    NetStep(s, h, s', step);
    PeersStep(s, h, s', step);
    NodesKeepStep(s, h, s', step);
    VotesKeepStep(s, h, s', step);
    LeadersKeepStep(s, h, s', step);
    PointsStep(s, h, s', step);
    CommitsStep(s, h, s', step);
  }

  /** State machine safety, for any two logs with sound commit indexes. */
  lemma CommitsAgree(s: Sys, h: History, a: seq<LogEntry>, ca: nat, ta: nat, b: seq<LogEntry>, cb: nat, tb: nat)
    requires PointsOK(s, h) && LeadersKeep(s, h) && LogsOK(s, h)
    requires CommitOK(h, a, ca, ta) && CommitOK(h, b, cb, tb)
    ensures Agree(a, b, if ca <= cb then ca else cb)
  {
    if ca > 0 && cb > 0 {
      var p :| Covered(h, a, ca, p) && p.term <= ta;
      var q :| Covered(h, b, cb, q) && q.term <= tb;
      hide PointsOK, LeadersKeep, LogsOK, TermLogOK;
      TermLogIs(s, h, p.term);
      TermLogIs(s, h, q.term);
      if p.term <= q.term {
        CommittedInLeader(s, h, a, ca, p.term, q.term);
      } else {
        CommittedInLeader(s, h, b, cb, q.term, p.term);
      }
    }
  }
}
