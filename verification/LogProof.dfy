/** Every step keeps the logs prefixes of leader logs (Log Matching is a consequence). */
module LogProof {
  import opened Types
  import opened Protocol
  import opened Invariant
  import opened Growth
  import opened Frames
  import opened Merging
  import E = Election

  ghost predicate IsPropose(step: Step) {
    step.ClientAppend? || step.ReadPropose?
  }

  ghost predicate IsAccept(s: Sys, step: Step) {
    step.HandleAppend? && step.n in s.e.nodes && step.n in s.reps && Accepts(s, step.n, step.a)
  }

  ghost predicate IsWin(s: Sys, step: Step) {
    step.CountVote? && step.n in s.e.nodes && step.m.VoteReply? && WinsNow(s, step.n, step.m)
  }

  lemma LogsInVoteStep(s: Sys, s': Sys, step: Step, n: Id)
    requires (step.StartElection? || step.HandleVote? || step.CountVote?) && VoteStep(s, s', step)
    requires n in s.reps && n in s'.reps
    ensures s'.reps[n].log == s.reps[n].log
  {
    hide E.NextStep, E.HasElectionMajority, UpToDate, Grants, LearnIfNewer, LastTerm;
  }

  lemma LogsInLogStep(s: Sys, s': Sys, step: Step, n: Id)
    requires step.ClientAppend? || step.SendAppend? || step.HandleAppend? || step.TakeAppendReply? || step.AdvanceCommit? || step.ApplyOne?
    requires LogStep(s, s', step) && n in s.reps && n in s'.reps
    requires n == Actor(s, step) ==> !IsPropose(step) && !IsAccept(s, step)
    ensures s'.reps[n].log == s.reps[n].log
  {
    hide E.NextStep, PrevMatches, Committable, Receive, ApplyToStore, LearnIfNewer, MakeAppend, OwnEntry;
  }

  /** Only a leader's proposal and an accepted AppendEntries touch a log. */
  lemma OtherLogsStay(s: Sys, s': Sys, step: Step, n: Id)
    requires NextStep(s, s', step) && n in s.reps && n in s'.reps
    requires n == Actor(s, step) ==> !IsPropose(step) && !IsAccept(s, step)
    ensures s'.reps[n].log == s.reps[n].log
  {
    hide VoteStep, LogStep, E.NextStep, MakeReadBeat, LearnIfNewer, Get, TermAt, FailReads, IsAccept, OwnEntry;
    if step.StartElection? || step.HandleVote? || step.CountVote? {
      LogsInVoteStep(s, s', step, n);
    } else if step.ClientAppend? || step.SendAppend? || step.HandleAppend? || step.TakeAppendReply? || step.AdvanceCommit? || step.ApplyOne? {
      LogsInLogStep(s, s', step, n);
    }
  }

  lemma AcceptFacts(s: Sys, h: History, s': Sys, step: Step)
    requires NextStep(s, s', step) && IsAccept(s, step)
    ensures var n, a := step.n, step.a;
      && AppendEntries(a) in s.net && a.dst == n && a.prev <= |s.reps[n].log|
      && s'.reps == s.reps[n := Receive(s.reps[n], a)]
      && n in s'.e.nodes && s'.e.nodes[n].term == a.term
      && s'.net == s.net + {AppendReply(a, a.term, true)}
      && s'.e == s.e.(nodes := s.e.nodes[n := E.Heed(s.e.nodes[n], a.term)])
      && s'.calls == s.calls
      && Record(s, h, step) == RecordAccept(h, n, a.term, a.prev + |a.entries|)
  {
  }

  lemma WinFacts(s: Sys, h: History, s': Sys, step: Step)
    requires LogInv(s, h) && NextStep(s, s', step) && IsWin(s, step)
    ensures var n := step.n; var v := s.e.nodes[n];
      && n in s.reps && v.role == Candidate && v.term !in h.logs
      && s'.reps == s.reps[n := NewLeader(s.reps[n], E.Active(s.e, v.mode) - {n})]
      && s'.e == s.e.(nodes := s.e.nodes[n := v.(granted := v.granted + {step.m.voter}, role := Leader)])
      && s'.net == s.net && s'.calls == s.calls
      && Record(s, h, step) == RecordWin(h, n, v.term, E.Win(n, v.granted + {step.m.voter}, v.mode), s.reps[n].log)
  {
    hide LogInv, E.HasElectionMajority;
    WinIsNew(s, h, s', step);
  }

  lemma LeaderTermIsWon(s: Sys, h: History, n: Id)
    requires Shape(s, h) && RolesOK(s, h)
    requires n in s.e.nodes && n in s.reps && s.e.nodes[n].role == Leader
    ensures s.e.nodes[n].term > 0 && s.e.nodes[n].term in h.logs && h.logs[s.e.nodes[n].term].log == s.reps[n].log
  {
    assert E.WinSound(s.e, s.e.nodes[n].term, h.wins[s.e.nodes[n].term]);
  }

  lemma PrefixOK(h: History, t: nat, k: nat)
    requires t in h.logs && TermLogOK(h, t) && k <= |h.logs[t].log|
    ensures LogOK(h, h.logs[t].log[..k])
    ensures LastTerm(h.logs[t].log[..k]) <= t
  {
    if k > 0 {
      assert EntryOK(h, t, k - 1);
    }
  }

  /** Log Matching between any node's log and any leader's log. */
  lemma LogsMatch(h: History, log: seq<LogEntry>, t: nat)
    requires LogOK(h, log) && t in h.logs
    requires forall u | u in h.logs :: TermLogOK(h, u)
    ensures TermsDecide(log, h.logs[t].log)
  {
    var target := h.logs[t].log;
    forall i: nat | i < |log| && i < |target| && log[i].term == target[i].term
      ensures Agree(log, target, i + 1)
    {
      assert EntryOK(h, LastTerm(log), i);
      assert EntryOK(h, t, i);
    }
  }

  lemma AcceptedLog(h: History, log: seq<LogEntry>, a: Append)
    requires LogOK(h, log) && PrevMatches(log, a) && a.term in h.logs
    requires forall u | u in h.logs :: TermLogOK(h, u)
    requires CutFrom(a.entries, h.logs[a.term].log, a.prev) && a.prevTerm == TermAt(h.logs[a.term].log, a.prev)
    ensures LogOK(h, Merge(log, a.prev, a.entries))
    ensures LastTerm(Merge(log, a.prev, a.entries)) <= (if LastTerm(log) >= a.term then LastTerm(log) else a.term)
    ensures Agree(Merge(log, a.prev, a.entries), h.logs[a.term].log, a.prev + |a.entries|)
    ensures forall k :: Agree(log, h.logs[a.term].log, k) ==> Agree(Merge(log, a.prev, a.entries), h.logs[a.term].log, k)
  {
    var target := h.logs[a.term].log;
    LogsMatch(h, log, a.term);
    if a.prev > 0 {
      assert log[a.prev - 1].term == target[a.prev - 1].term;
    }
    hide LogOK, TermLogOK, TermsDecide;
    MergeAgrees(log, a.prev, a.entries, target);
    PrefixOK(h, a.term, a.prev + |a.entries|);
  }

  lemma ProposedTermLog(h: History, n: Id, t: nat, e: LogEntry)
    requires t > 0 && t in h.logs && TermLogOK(h, t)
    requires e.term == t && e.index == |h.logs[t].log| + 1
    ensures var h' := RecordPropose(h, n, t, h.logs[t].log + [e]);
            LogsGrow(h, h') ==> TermLogOK(h', t) && LogOK(h', h'.logs[t].log)
  {
    var h' := RecordPropose(h, n, t, h.logs[t].log + [e]);
    if LogsGrow(h, h') {
      forall i: nat | i < |h'.logs[t].log|
        ensures EntryOK(h', t, i)
      {
        if i < |h.logs[t].log| {
          assert EntryOK(h, t, i);
        }
      }
    }
  }

  lemma WonTermLog(h: History, h': History, t: nat, log: seq<LogEntry>)
    requires LogsGrow(h, h') && t in h'.logs && h'.logs[t] == TermLog(log, log)
    requires LogOK(h, log) && LastTerm(log) < t
    requires forall u | u in h.logs :: TermLogOK(h, u)
    ensures TermLogOK(h', t)
  {
    forall i: nat | i < |log|
      ensures EntryOK(h', t, i)
    {
      assert EntryOK(h, LastTerm(log), i);
    }
  }

  // ---- the step lemma for LogsOK ----

  lemma StepLogsGrow(s: Sys, h: History, s': Sys, step: Step)
    requires LogInv(s, h) && NextStep(s, s', step)
    ensures LogsGrow(h, Record(s, h, step))
  {
    hide LogInv, NextStep, Record, LogsGrow;
    StepGrows(s, h, s', step);
  }

  lemma TermLogsStep(s: Sys, h: History, s': Sys, step: Step, t: nat)
    requires LogInv(s, h) && NextStep(s, s', step) && t in Record(s, h, step).logs
    ensures TermLogOK(Record(s, h, step), t)
  {
    var h' := Record(s, h, step);
    var n := Actor(s, step);
    hide LogInv, NextStep, Record, TermLogOK, LogOK, Shape, RolesOK, IsPropose, IsWin, LogsGrow;
    LogParts(s, h);
    StepLogsGrow(s, h, s', step);
    if IsPropose(step) {
      ProposedTermLogs(s, h, s', step, t);
    } else if IsWin(s, step) {
      WonTermLogs(s, h, s', step, t);
    } else {
      OtherTermLogsStay(s, h, s', step);
      TermLogStays(h, h', t);
    }
  }

  lemma ProposedTermLogs(s: Sys, h: History, s': Sys, step: Step, t: nat)
    requires LogInv(s, h) && NextStep(s, s', step) && t in Record(s, h, step).logs && IsPropose(step)
    ensures TermLogOK(Record(s, h, step), t)
  {
    var h' := Record(s, h, step);
    var n := Actor(s, step);
    hide LogInv, NextStep, Record, TermLogOK, LogOK, Shape, RolesOK, LogsGrow;
    LogParts(s, h);
    StepLogsGrow(s, h, s', step);
    ProposeFacts(s, h, s', step);
    LeaderTermIsWon(s, h, n);
    ProposedTermLog(h, n, s.e.nodes[n].term, ProposedEntry(s, step));
    if t != s.e.nodes[n].term {
      TermLogStays(h, h', t);
    }
  }

  lemma WonTermLogs(s: Sys, h: History, s': Sys, step: Step, t: nat)
    requires LogInv(s, h) && NextStep(s, s', step) && t in Record(s, h, step).logs && IsWin(s, step)
    ensures TermLogOK(Record(s, h, step), t)
  {
    var h' := Record(s, h, step);
    var n := step.n;
    CandidateLog(s, h, n);
    hide LogInv, NextStep, Record, TermLogOK, LogOK, Shape, RolesOK, LogsGrow;
    LogParts(s, h);
    StepLogsGrow(s, h, s', step);
    WinFacts(s, h, s', step);
    if t == s.e.nodes[n].term {
      WonTermLog(h, h', t, s.reps[n].log);
    } else {
      TermLogStays(h, h', t);
    }
  }

  lemma CandidateLog(s: Sys, h: History, n: Id)
    requires LogInv(s, h) && n in s.e.nodes
    ensures n in s.reps
    ensures s.e.nodes[n].role == Candidate ==>
              && LogOK(h, s.reps[n].log) && LastTerm(s.reps[n].log) < s.e.nodes[n].term
              && (s.e.nodes[n].term, n) in h.cand && h.cand[(s.e.nodes[n].term, n)] == s.reps[n].log
  {
    hide StoredOK, NetOK, PeersOK, NodesKeep, VotesKeep, LeadersKeep, PointsOK, CommitsOK, E.Inv, LogOK, TermLogOK;
  }

  lemma OtherTermLogsStay(s: Sys, h: History, s': Sys, step: Step)
    requires !IsPropose(step) && !IsWin(s, step)
    ensures Record(s, h, step).logs == h.logs
    ensures Record(s, h, step).wins == h.wins
  {
  }

  lemma StepTermsGrow(s: Sys, h: History, s': Sys, step: Step)
    requires LogInv(s, h) && NextStep(s, s', step)
    ensures TermsGrow(s, s') && s'.reps.Keys == s.reps.Keys
    ensures s.e.votes <= s'.e.votes && s.e.beats <= s'.e.beats
  {
    hide LogInv, NextStep, Record, LogsGrow;
    StepGrows(s, h, s', step);
  }

  lemma AppendIsCut(s: Sys, h: History, a: Append)
    requires NetOK(s, h) && AppendEntries(a) in s.net
    ensures AppendOK(s, h, a) && a.term in h.logs
    ensures CutFrom(a.entries, h.logs[a.term].log, a.prev) && a.prevTerm == TermAt(h.logs[a.term].log, a.prev)
  {
    assert MessageOK(s, h, AppendEntries(a));
  }

  /** What an accepted request leaves in the receiver's log. */
  lemma AcceptedNodeLog(s: Sys, h: History, s': Sys, step: Step)
    requires LogInv(s, h) && NextStep(s, s', step) && IsAccept(s, step)
    ensures var n, a := step.n, step.a;
      && n in s'.reps && a.term in h.logs && a.prev <= |s.reps[n].log| && AppendOK(s, h, a)
      && var log' := s'.reps[n].log;
      && LogOK(h, log') && LastTerm(log') <= a.term
      && Agree(log', h.logs[a.term].log, a.prev + |a.entries|)
      && forall k :: Agree(s.reps[n].log, h.logs[a.term].log, k) ==> Agree(log', h.logs[a.term].log, k)
  {
    hide LogInv, NextStep, Record, LogOK, Accepts, AppendOK, Agree, PrevMatches, Merge, LastTerm;
    AcceptedIs(s, h, s', step);
    LogOf(s, h, step.n);
    MergedLog(s, h, s.reps[step.n].log, step.a);
  }

  lemma AcceptedIs(s: Sys, h: History, s': Sys, step: Step)
    requires NextStep(s, s', step) && IsAccept(s, step)
    ensures var n, a := step.n, step.a;
      && AppendEntries(a) in s.net && a.prev <= |s.reps[n].log| && PrevMatches(s.reps[n].log, a)
      && s.e.nodes[n].term <= a.term && n in s'.reps && s'.reps[n].log == Merge(s.reps[n].log, a.prev, a.entries)
  {
    hide NextStep, Merge, E.Heed, RecordAccept;
    AcceptFacts(s, h, s', step);
  }

  lemma MergedLog(s: Sys, h: History, log: seq<LogEntry>, a: Append)
    requires LogInv(s, h) && AppendEntries(a) in s.net && LogOK(h, log)
    ensures AppendOK(s, h, a) && a.term in h.logs
    ensures PrevMatches(log, a) ==>
      && a.prev <= |log|
      && var log' := Merge(log, a.prev, a.entries);
      && LogOK(h, log') && LastTerm(log') <= (if LastTerm(log) >= a.term then LastTerm(log) else a.term)
      && Agree(log', h.logs[a.term].log, a.prev + |a.entries|)
      && forall k :: Agree(log, h.logs[a.term].log, k) ==> Agree(log', h.logs[a.term].log, k)
  {
    hide LogInv, RolesOK, StoredOK, NetOK, PeersOK, NodesKeep, VotesKeep, LeadersKeep, PointsOK, CommitsOK, Shape,
      LogOK, TermLogOK,
      AppendOK, CutFrom;
    LogParts(s, h);
    AppendIsCut(s, h, a);
    if PrevMatches(log, a) {
      AcceptedLog(h, log, a);
    }
  }

  lemma NodeLogStep(s: Sys, h: History, s': Sys, step: Step, n: Id)
    requires LogInv(s, h) && NextStep(s, s', step) && n in s.e.nodes && n in s'.e.nodes && n in s.reps && n in s'.reps
    ensures LogOK(Record(s, h, step), s'.reps[n].log)
    ensures LastTerm(s'.reps[n].log) <= s'.e.nodes[n].term
  {
    var h' := Record(s, h, step);
    hide LogInv, NextStep, Record, LogOK, IsPropose, LogsGrow, AppendOK, Accepts;
    StepLogsGrow(s, h, s', step);
    StepTermsGrow(s, h, s', step);
    LogOf(s, h, n);
    if n == Actor(s, step) && IsPropose(step) {
      ProposedNodeLog(s, h, s', step);
    } else if n == Actor(s, step) && IsAccept(s, step) {
      AcceptFacts(s, h, s', step);
      AcceptedNodeLog(s, h, s', step);
      LogOKStays(h, h', s'.reps[n].log);
    } else {
      OtherLogsStay(s, s', step, n);
      LogOKStays(h, h', s.reps[n].log);
    }
  }

  lemma ProposedNodeLog(s: Sys, h: History, s': Sys, step: Step)
    requires LogInv(s, h) && NextStep(s, s', step) && IsPropose(step)
    ensures var n := Actor(s, step); var h' := Record(s, h, step);
      && n in s'.reps && n in s'.e.nodes && n in s.reps && s'.e == s.e
      && s'.e.nodes[n].role == Leader
      && var t := s'.e.nodes[n].term;
      && t in h.logs && t in h'.logs && h.logs[t].log == s.reps[n].log && h'.logs[t].log == s'.reps[n].log
      && LogOK(h', s'.reps[n].log)
      && LastTerm(s'.reps[n].log) <= t
      && s'.reps[n] == s.reps[n].(log := s.reps[n].log + [ProposedEntry(s, step)])
  {
    var n := Actor(s, step);
    hide LogInv, NextStep, Record, TermLogOK, LogOK, Shape, RolesOK, LogsGrow;
    LogParts(s, h);
    StepLogsGrow(s, h, s', step);
    ProposeFacts(s, h, s', step);
    LeaderTermIsWon(s, h, n);
    ProposedTermLog(h, n, s.e.nodes[n].term, ProposedEntry(s, step));
  }

  lemma CandStep(s: Sys, h: History, s': Sys, step: Step, k: (nat, Id))
    requires LogInv(s, h) && NextStep(s, s', step) && k in Record(s, h, step).cand
    ensures k.1 in s'.e.nodes && k.0 <= s'.e.nodes[k.1].term
    ensures LogOK(Record(s, h, step), Record(s, h, step).cand[k]) && LastTerm(Record(s, h, step).cand[k]) < k.0
  {
    hide LogInv, NextStep, Record, LogOK, LogsGrow;
    StepLogsGrow(s, h, s', step);
    StepTermsGrow(s, h, s', step);
    if k in h.cand {
      CandOf(s, h, k);
      CandFixed(h, Record(s, h, step), k);
      LogOKStays(h, Record(s, h, step), h.cand[k]);
    } else {
      NewCand(s, h, step, k);
      StartFacts(s, h, s', step);
      LogOf(s, h, step.n);
      LogOKStays(h, Record(s, h, step), s.reps[step.n].log);
    }
  }

  lemma CandFixed(h: History, h': History, k: (nat, Id))
    requires LogsGrow(h, h') && k in h.cand
    ensures k in h'.cand && h'.cand[k] == h.cand[k]
  {
  }

  lemma CandOf(s: Sys, h: History, k: (nat, Id))
    requires LogInv(s, h) && k in h.cand
    ensures k.1 in s.e.nodes && k.0 <= s.e.nodes[k.1].term && LogOK(h, h.cand[k]) && LastTerm(h.cand[k]) < k.0
  {
    hide LogInv, RolesOK, StoredOK, NetOK, PeersOK, NodesKeep, VotesKeep, LeadersKeep, PointsOK, CommitsOK, Shape,
      LogOK, TermLogOK;
    LogParts(s, h);
  }

  lemma LogOf(s: Sys, h: History, n: Id)
    requires LogInv(s, h) && n in s.reps && n in s.e.nodes
    ensures LogOK(h, s.reps[n].log) && LastTerm(s.reps[n].log) <= s.e.nodes[n].term
  {
    hide LogInv, RolesOK, StoredOK, NetOK, PeersOK, NodesKeep, VotesKeep, LeadersKeep, PointsOK, CommitsOK, Shape,
      LogOK, TermLogOK;
    LogParts(s, h);
  }

  lemma NewCand(s: Sys, h: History, step: Step, k: (nat, Id))
    requires k in Record(s, h, step).cand && k !in h.cand
    ensures step.StartElection? && step.n in s.e.nodes && k == (s.e.nodes[step.n].term + 1, step.n)
  {
    hide E.HasElectionMajority, Accepts;
  }

  lemma StartFacts(s: Sys, h: History, s': Sys, step: Step)
    requires NextStep(s, s', step) && step.StartElection?
    ensures var n := step.n;
      && n in s.e.nodes && n in s.reps && n in s'.e.nodes && s'.reps == s.reps && s'.calls == s.calls
      && var v := s.e.nodes[n];
      && s'.e == s.e.(nodes := s.e.nodes[n := E.BecomeCandidate(n, v)], votes := s.e.votes + {E.Vote(n, v.term + 1, n)})
      && s'.net == s.net + {RequestVote(n, v.term + 1, |s.reps[n].log|, LastTerm(s.reps[n].log))}
      && Record(s, h, step) == h.(cand := h.cand[(v.term + 1, n) := s.reps[n].log])
  {
  }

  lemma LogsStep(s: Sys, h: History, s': Sys, step: Step)
    requires LogInv(s, h) && NextStep(s, s', step)
    ensures LogsOK(s', Record(s, h, step))
  {
    hide LogInv, NextStep, TermLogOK, LogOK, Record;
    var h' := Record(s, h, step);
    forall t | t in h'.logs
      ensures TermLogOK(h', t)
    {
      TermLogsStep(s, h, s', step, t);
    }
    StepTermsGrow(s, h, s', step);
    forall n | n in s'.reps && n in s'.e.nodes
      ensures LogOK(h', s'.reps[n].log) && LastTerm(s'.reps[n].log) <= s'.e.nodes[n].term
    {
      NodeLogStep(s, h, s', step, n);
    }
    forall k | k in h'.cand
      ensures k.1 in s'.e.nodes && k.0 <= s'.e.nodes[k.1].term && LogOK(h', h'.cand[k]) && LastTerm(h'.cand[k]) < k.0
    {
      CandStep(s, h, s', step, k);
    }
  }
}
