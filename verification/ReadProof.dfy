/** Every step keeps the bookkeeping of reads in progress, and a finished read is linearizable. */
module ReadProof {
  import opened Types
  import opened Quorum
  import opened Protocol
  import opened Invariant
  import opened Growth
  import opened Frames
  import opened LogProof
  import opened RoleProof
  import opened CommitProof
  import opened NetProof
  import opened KeepProof
  import opened Safety
  import opened StoreProof
  import E = Election

  /** What the record says about the moment a read began. */
  ghost predicate MarkOK(s: Sys, h: History, k: Mark, rd: Read) {
    && k.terms.Keys == s.e.nodes.Keys
    && (forall q | q in k.terms :: k.terms[q] <= s.e.nodes[q].term)
    && (forall t | t in k.elected :: t in h.wins && forall q | q in h.wins[t].voters :: q in k.terms && k.terms[q] >= t)
    && k.points <= h.points
    && (forall p | p in k.points :: p.term in k.elected && (p.term == rd.term ==> p.index <= k.commit))
    && rd.node in k.terms && k.terms[rd.node] == rd.term && rd.term in h.logs
  }

  ghost predicate HasIndex(rd: Read) {
    rd.phase == Confirming || rd.phase == Confirmed || rd.phase == Applied
  }

  /** What the read has established so far. */
  ghost predicate CallOK(s: Sys, h: History, k: Mark, rd: Read) {
    && rd.node in s.e.nodes && rd.node in s.reps
    && var rep := s.reps[rd.node];
    && (s.LeaderIn(rd.node, rd.term) ==>
          && k.commit <= rep.commit
          && (rd.phase == Ensured ==> rep.commit > 0 && TermAt(rep.log, rep.commit) == rd.term)
          && (rd.phase == Applied ==> rd.index <= rep.applied))
    && (HasIndex(rd) ==> k.commit <= rd.index && IsPoint(h, Point(rd.term, rd.index)))
    && (rd.phase == Proposed ==> rd.noop > 0)
    && rd.node !in rd.acks && rd.acks <= s.e.nodes.Keys
    && (forall q | q in rd.acks && q in k.terms :: k.terms[q] <= rd.term)
    && (rd.phase == Confirmed || rd.phase == Applied ==> forall t | t in k.elected :: t <= rd.term)
  }

  ghost predicate CallMessage(s: Sys, h: History, a: Append, success: bool) {
    a.call.Some? ==>
      && var r := a.call.value;
      && r in s.calls && r in h.marks && s.calls[r].term == a.term && s.calls[r].node == a.src
      && a.dst != a.src && a.dst in s.e.nodes
      && (success && a.dst in h.marks[r].terms ==> h.marks[r].terms[a.dst] <= a.term)
  }

  ghost predicate CallMessageOK(s: Sys, h: History, m: Message) {
    match m
    case AppendEntries(a) => CallMessage(s, h, a, false)
    case AppendReply(a, _, success) => CallMessage(s, h, a, success)
    case _ => true
  }

  ghost predicate ReadsOK(s: Sys, h: History) {
    && (forall r | r in s.calls && r in h.marks :: MarkOK(s, h, h.marks[r], s.calls[r]) && CallOK(s, h, h.marks[r], s.calls[r]))
    && (forall m | m in s.net :: CallMessageOK(s, h, m))
  }

  ghost predicate Inv(s: Sys, h: History) {
    LogInv(s, h) && StoreOK(s, h) && ReadsOK(s, h)
  }

  // ---- calls keep their identity ----

  ghost predicate SameCall(a: Read, b: Read) {
    a.node == b.node && a.term == b.term && a.key == b.key
  }

  ghost predicate OnCall(step: Step, r: nat) {
    (step.ReadBegin? || step.ReadEnsure? || step.ReadPropose? || step.ReadCheckProposed? || step.ReadTakeIndex? || step.ReadBeat?
      || step.ReadAck? || step.ReadConfirm? || step.ReadWait? || step.ReadFinish? || step.ReadGiveUp?) && step.r == r
  }

  lemma CallMoves(s: Sys, s': Sys, step: Step, r: nat)
    requires NextStep(s, s', step) && r in s.calls
    ensures r in s'.calls && SameCall(s.calls[r], s'.calls[r])
    ensures OnCall(step, r) || s'.calls[r] == s.calls[r] || s'.calls[r] == s.calls[r].(phase := Failed)
  {
    hide VoteStep, LogStep, E.NextStep, MakeReadBeat, Propose, LearnIfNewer, Get, TermAt;
    if step.StartElection? || step.HandleVote? || step.CountVote? {
      VoteStepFrame(s, s', step);
    } else if step.ClientAppend? || step.SendAppend? || step.HandleAppend? || step.TakeAppendReply? || step.AdvanceCommit? || step.ApplyOne? {
      LogStepFrame(s, s', step);
    }
  }

  // ---- marks ----

  lemma MarkStays(s: Sys, h: History, s': Sys, step: Step, k: Mark, rd: Read)
    requires LogInv(s, h) && NextStep(s, s', step) && MarkOK(s, h, k, rd)
    ensures MarkOK(s', Record(s, h, step), k, rd)
  {
    hide LogInv, NextStep, Record, E.NextStep, E.Inv;
    StepTermsGrow(s, h, s', step);
    StepLogsGrow(s, h, s', step);
    StepPointsGrow(s, h, step);
    ElectionPart(s, h, s', step);
  }

  lemma BeginFacts(s: Sys, h: History, s': Sys, step: Step)
    requires LogInv(s, h) && NextStep(s, s', step) && step.ReadBegin?
    ensures var n, r := step.n, step.r;
      && n in s.e.nodes && n in s.reps && s.e.nodes[n].role == Leader && r !in s.calls && r !in h.marks
      && s'.e == s.e && s'.reps == s.reps && s'.net == s.net
      && s'.calls == s.calls[r := Read(n, s.e.nodes[n].term, step.key, Checking, 0, 0, {})]
      && Record(s, h, step) == RecordStart(s, h, r, s.reps[n].commit)
  {
    hide LogInv;
    CfgIsNodes(s, h);
  }

  lemma BeginMark(s: Sys, h: History, s': Sys, step: Step)
    requires LogInv(s, h) && NextStep(s, s', step) && step.ReadBegin?
    ensures step.r in s'.calls && step.r in Record(s, h, step).marks
    ensures MarkOK(s', Record(s, h, step), Record(s, h, step).marks[step.r], s'.calls[step.r])
    ensures CallOK(s', Record(s, h, step), Record(s, h, step).marks[step.r], s'.calls[step.r])
  {
    hide LogInv, NextStep, Record, RolesOK, StoredOK, NetOK, PeersOK, NodesKeep, VotesKeep, LeadersKeep, CommitsOK,
      LogsOK, E.Inv, Chosen;
    LogParts(s, h);
    BeginFacts(s, h, s', step);
    LeaderTermIsWon(s, h, step.n);
    forall t | t in h.logs
      ensures forall q | q in h.wins[t].voters :: q in s.e.nodes && s.e.nodes[q].term >= t
    {
      VotersMovedOn(s, h, t);
    }
  }

  // ---- calls ----

  lemma LeadsOn(s: Sys, h: History, s': Sys, step: Step, n: Id, t: nat)
    requires LogInv(s, h) && NextStep(s, s', step) && t in h.logs && s'.LeaderIn(n, t)
    ensures s.LeaderIn(n, t) && n in s.reps && n in s'.reps && !(step.Restart? && n == step.n)
    ensures !(IsAccept(s, step) && n == Actor(s, step))
  {
    hide LogInv, NextStep, Record, IsAccept, IsPropose, WinsNow;
    StepTermsGrow(s, h, s', step);
    CfgIsNodes(s, h);
    RolesArise(s, h, s', step, n);
    LeaderDidNotRestart(s, s', step, n);
    if IsWin(s, step) {
      WinFacts(s, h, s', step);
    }
  }

  /** Once an entry of the leader's own term is committed, the last committed entry is of that term. */
  lemma CommitTermStays(s: Sys, h: History, s': Sys, step: Step, n: Id, t: nat)
    requires LogInv(s, h) && NextStep(s, s', step) && LogInv(s', Record(s, h, step))
    requires t in h.logs && s'.LeaderIn(n, t) && n in s.reps && n in s'.reps
    requires s.reps[n].commit > 0 && TermAt(s.reps[n].log, s.reps[n].commit) == t
    ensures s'.reps[n].commit > 0 && TermAt(s'.reps[n].log, s'.reps[n].commit) == t
  {
    hide LogInv, NextStep, Record, Accepts, CommitOK;
    LeadsOn(s, h, s', step, n, t);
    if step.AdvanceCommit? && n == step.n {
      AdvanceFacts(s, h, s', step);
    } else {
      CommitOf(s, h, n);
      CommitFits(h, s.reps[n].log, s.reps[n].commit, s.e.nodes[n].term);
      CommitStays(s, h, s', step, n);
    }
  }

  lemma AppliedGrows(s: Sys, h: History, s': Sys, step: Step, n: Id)
    requires NextStep(s, s', step) && n in s.reps && n in s'.reps && !(step.Restart? && n == step.n)
    ensures s.reps[n].applied <= s'.reps[n].applied
  {
    hide NextStep, Record;
    if step.ApplyOne? {
      ApplyFacts(s, h, s', step);
    } else if step.TakeDump? {
      TakeDumpFacts(s, h, s', step);
    } else {
      OtherStoresStay(s, s', step, n);
    }
  }

  /** A call that is not acted on keeps what it established, whatever else happens. */
  lemma CallStays(s: Sys, h: History, s': Sys, step: Step, k: Mark, rd: Read)
    requires LogInv(s, h) && NextStep(s, s', step) && LogInv(s', Record(s, h, step))
    requires MarkOK(s, h, k, rd) && CallOK(s, h, k, rd)
    ensures CallOK(s', Record(s, h, step), k, rd)
  {
    var n := rd.node;
    hide LogInv, NextStep, Record, IsAccept, LogsGrow, IsPoint;
    StepTermsGrow(s, h, s', step);
    StepLogsGrow(s, h, s', step);
    if HasIndex(rd) {
      PointStays(h, Record(s, h, step), Point(rd.term, rd.index));
    }
    if s'.LeaderIn(n, rd.term) {
      LeadsOn(s, h, s', step, n, rd.term);
      CommitGrows(s, h, s', step, n);
      AppliedGrows(s, h, s', step, n);
      if rd.phase == Ensured {
        CommitTermStays(s, h, s', step, n, rd.term);
      }
    }
  }

  lemma FailedCall(s: Sys, h: History, k: Mark, rd: Read)
    requires CallOK(s, h, k, rd)
    ensures CallOK(s, h, k, rd.(phase := Failed))
  {
    hide IsPoint;
  }

  lemma MarkIgnoresPhase(s: Sys, h: History, k: Mark, rd: Read, rd': Read)
    requires MarkOK(s, h, k, rd) && SameCall(rd, rd')
    ensures MarkOK(s, h, k, rd')
  {
  }

  /** `readIndex = commitIndex_`: it reaches into the leader's own term and covers what was committed at the start. */
  lemma TakeIndexOK(s: Sys, h: History, k: Mark, rd: Read)
    requires LogInv(s, h) && CallOK(s, h, k, rd) && rd.phase == Ensured && s.LeaderIn(rd.node, rd.term)
    ensures CallOK(s, h, k, rd.(phase := Confirming, index := s.reps[rd.node].commit))
  {
    hide LogInv, RolesOK, StoredOK, NetOK, PeersOK, NodesKeep, VotesKeep, LeadersKeep, CommitsOK, LogsOK, E.Inv,
      CommitOK, Shape, PointsOK;
    LogParts(s, h);
    LeaderTermIsWon(s, h, rd.node);
    CommitOf(s, h, rd.node);
    CommitFits(h, s.reps[rd.node].log, s.reps[rd.node].commit, rd.term);
  }

  /** A majority that answered in the leader's term after the start had not seen a later leader by then. */
  lemma ConfirmOK(s: Sys, h: History, k: Mark, rd: Read, mode: E.Mode)
    requires LogInv(s, h) && MarkOK(s, h, k, rd) && CallOK(s, h, k, rd) && rd.phase == Confirming
    requires Majority(rd.acks + {rd.node}, E.Active(s.e, mode))
    ensures CallOK(s, h, k, rd.(phase := Confirmed))
  {
    hide LogInv, IsPoint;
    CfgIsNodes(s, h);
    var g := rd.acks + {rd.node};
    ActiveIsQuorum(s.e, mode, g);
    forall t | t in k.elected
      ensures t <= rd.term
    {
      WonTermIsLogged(s, h, t);
      VotersMovedOn(s, h, t);
      var q := E.QuorumsMeet(s.e, g, h.wins[t].voters);
      assert q in k.terms && k.terms[q] <= rd.term;
    }
  }

  /** A majority of the members in the joint phase, old and new together, is one of the larger configuration. */
  lemma ActiveIsQuorum(c: E.Cluster, mode: E.Mode, g: set<Id>)
    requires Nested(c) && Majority(g, E.Active(c, mode))
    ensures E.IsQuorum(c, g)
  {
    var m := if mode != E.Joint then mode else if c.oldCfg <= c.newCfg then E.NewStable else E.OldStable;
    assert E.Active(c, mode) == E.Active(c, m);
    assert E.HasElectionMajority(c, m, g);
  }

  lemma WonTermIsLogged(s: Sys, h: History, t: nat)
    requires LogInv(s, h) && t in h.wins
    ensures t in h.logs
  {
    hide LogsOK, RolesOK, StoredOK, NetOK, PeersOK, NodesKeep, VotesKeep, LeadersKeep, PointsOK, CommitsOK, E.Inv;
  }

  /** The call's own state change, on the state before the step. */
  lemma ActedCall(s: Sys, h: History, s': Sys, step: Step, r: nat)
    requires LogInv(s, h) && ReadsOK(s, h) && NextStep(s, s', step)
    requires OnCall(step, r) && !step.ReadBegin? && r in s.calls && r in h.marks && r in s'.calls
    ensures CallOK(s, h, h.marks[r], s'.calls[r])
  {
    hide *;
    CallOfStep(step, r);
    if step.ReadTakeIndex? {
      TakeIndexActed(s, h, s', step);
    } else if step.ReadConfirm? {
      ConfirmActed(s, h, s', step);
    } else if step.ReadAck? {
      AckActed(s, h, s', step);
    } else {
      CallOf(s, h, r);
      OtherCase(s, h, s', step, r, h.marks[r]);
    }
  }

  lemma CallOfStep(step: Step, r: nat)
    requires OnCall(step, r)
    ensures step.ReadTakeIndex? || step.ReadConfirm? || step.ReadAck? ==> step.r == r
  {
  }

  lemma TakeIndexActed(s: Sys, h: History, s': Sys, step: Step)
    requires step.ReadTakeIndex? && step.r in s.calls && step.r in h.marks
    requires LogInv(s, h) && ReadsOK(s, h) && NextStep(s, s', step)
    ensures step.r in s'.calls && CallOK(s, h, h.marks[step.r], s'.calls[step.r])
  {
    hide ReadsOK, NextStep, MarkOK, CallOK, LogInv;
    CallOf(s, h, step.r);
    TakeIndexCase(s, s', step);
    TakeIndexOK(s, h, h.marks[step.r], s.calls[step.r]);
  }

  lemma ConfirmActed(s: Sys, h: History, s': Sys, step: Step)
    requires step.ReadConfirm? && step.r in s.calls && step.r in h.marks
    requires LogInv(s, h) && ReadsOK(s, h) && NextStep(s, s', step)
    ensures step.r in s'.calls && CallOK(s, h, h.marks[step.r], s'.calls[step.r])
  {
    hide ReadsOK, NextStep, MarkOK, CallOK, LogInv;
    CallOf(s, h, step.r);
    ConfirmCase(s, s', step);
    ConfirmOK(s, h, h.marks[step.r], s.calls[step.r], step.mode);
  }

  lemma AckActed(s: Sys, h: History, s': Sys, step: Step)
    requires step.ReadAck? && step.r in s.calls && step.r in h.marks
    requires ReadsOK(s, h) && NextStep(s, s', step)
    ensures step.r in s'.calls && CallOK(s, h, h.marks[step.r], s'.calls[step.r])
  {
    hide ReadsOK, NextStep, MarkOK, CallOK;
    CallOf(s, h, step.r);
    AckCase(s, s', step);
    AckIsTrue(s, h, step.m, step.r);
    AckKeeps(s, h, h.marks[step.r], s.calls[step.r], step.m);
    FailedCall(s, h, h.marks[step.r], s.calls[step.r]);
  }

  lemma CallOf(s: Sys, h: History, r: nat)
    requires ReadsOK(s, h) && r in s.calls && r in h.marks
    ensures MarkOK(s, h, h.marks[r], s.calls[r]) && CallOK(s, h, h.marks[r], s.calls[r])
  {
    hide MarkOK, CallOK, CallMessageOK;
  }

  lemma TakeIndexCase(s: Sys, s': Sys, step: Step)
    requires NextStep(s, s', step) && step.ReadTakeIndex?
    ensures var r := step.r;
      && r in s.calls && r in s'.calls && s.calls[r].node in s.reps && s.calls[r].phase == Ensured
      && s.LeaderIn(s.calls[r].node, s.calls[r].term)
      && s'.calls[r] == s.calls[r].(phase := Confirming, index := s.reps[s.calls[r].node].commit)
  {
  }

  lemma ConfirmCase(s: Sys, s': Sys, step: Step)
    requires NextStep(s, s', step) && step.ReadConfirm?
    ensures var r := step.r;
      && r in s.calls && r in s'.calls && s.calls[r].phase == Confirming
      && Majority(s.calls[r].acks + {s.calls[r].node}, E.Active(s.e, step.mode))
      && s'.calls[r] == s.calls[r].(phase := Confirmed)
  {
  }

  lemma AckCase(s: Sys, s': Sys, step: Step)
    requires NextStep(s, s', step) && step.ReadAck?
    ensures var r, m := step.r, step.m;
      && r in s.calls && r in s'.calls && m in s.net && m.AppendReply? && m.a.call == Some(r) && m.a.src == s.calls[r].node
      && s.calls[r].phase == Confirming
      && (|| s'.calls[r] == s.calls[r]
          || s'.calls[r] == s.calls[r].(phase := Failed)
          || (m.success && s'.calls[r] == s.calls[r].(acks := s.calls[r].acks + {m.a.dst})))
  {
    hide E.NextStep;
  }

  lemma AckKeeps(s: Sys, h: History, k: Mark, rd: Read, m: Message)
    requires CallOK(s, h, k, rd) && rd.phase == Confirming && m.AppendReply?
    requires m.a.dst != rd.node && m.a.dst in s.e.nodes
    requires m.success && m.a.dst in k.terms ==> k.terms[m.a.dst] <= rd.term
    ensures m.success ==> CallOK(s, h, k, rd.(acks := rd.acks + {m.a.dst}))
  {
    hide IsPoint;
  }

  lemma OtherCase(s: Sys, h: History, s': Sys, step: Step, r: nat, k: Mark)
    requires OnCall(step, r) && !step.ReadBegin? && !step.ReadTakeIndex? && !step.ReadConfirm? && !step.ReadAck?
    requires NextStep(s, s', step) && r in s.calls && r in s'.calls
    requires CallOK(s, h, k, s.calls[r])
    ensures CallOK(s, h, k, s'.calls[r])
  {
    var rd, rd' := s.calls[r], s'.calls[r];
    assert rd.phase == Proposed ==> rd.noop > 0;
    hide CallOK, NextStep, PlainMove;
    OtherMoves(s, s', step, r);
    CallAdvances(s, h, k, rd, rd');
  }

  /** The moves of a call that need no argument: its guard says what the new phase claims. */
  ghost predicate PlainMove(s: Sys, rd: Read, rd': Read) {
    || rd' == rd
    || rd' == rd.(phase := Failed)
    || (rd.node in s.e.nodes && rd.node in s.reps
        && var v, rep := s.e.nodes[rd.node], s.reps[rd.node];
        || (rd' == rd.(phase := Ensured) && rep.commit > 0 && TermAt(rep.log, rep.commit) == v.term)
        || (rd.phase == Checking && rd'.phase == Proposed && rd' == rd.(phase := Proposed, noop := rd'.noop) && rd'.noop > 0)
        || (rd.phase == Confirmed && rd' == rd.(phase := Applied) && rep.applied >= rd.index)
        || (rd'.phase.Done? && rd' == rd.(phase := rd'.phase)))
  }

  lemma OtherMoves(s: Sys, s': Sys, step: Step, r: nat)
    requires OnCall(step, r) && !step.ReadBegin? && !step.ReadTakeIndex? && !step.ReadConfirm? && !step.ReadAck?
    requires NextStep(s, s', step) && r in s.calls && r in s'.calls
    requires s.calls[r].phase == Proposed && s.calls[r].node in s.reps ==> s.calls[r].noop > 0
    ensures PlainMove(s, s.calls[r], s'.calls[r])
  {
    hide E.NextStep, TermAt, MakeReadBeat, Propose, E.HasElectionMajority;
  }

  lemma CallAdvances(s: Sys, h: History, k: Mark, rd: Read, rd': Read)
    requires CallOK(s, h, k, rd) && PlainMove(s, rd, rd')
    ensures CallOK(s, h, k, rd')
  {
    hide IsPoint, TermAt;
  }

  lemma AckIsTrue(s: Sys, h: History, m: Message, r: nat)
    requires ReadsOK(s, h) && m in s.net && m.AppendReply? && m.a.call == Some(r)
    ensures r in s.calls && r in h.marks && m.a.term == s.calls[r].term && m.a.dst != m.a.src && m.a.dst in s.e.nodes
    ensures m.success && m.a.dst in h.marks[r].terms ==> h.marks[r].terms[m.a.dst] <= m.a.term
  {
    assert CallMessageOK(s, h, m);
  }

  lemma CallStep(s: Sys, h: History, s': Sys, step: Step, r: nat)
    requires LogInv(s, h) && ReadsOK(s, h) && NextStep(s, s', step) && LogInv(s', Record(s, h, step))
    requires r in s'.calls && r in Record(s, h, step).marks
    ensures MarkOK(s', Record(s, h, step), Record(s, h, step).marks[r], s'.calls[r])
    ensures CallOK(s', Record(s, h, step), Record(s, h, step).marks[r], s'.calls[r])
  {
    hide LogInv, NextStep, Record, MarkOK, CallOK, E.Inv;
    CfgIsNodes(s, h);
    CallsStay(s, s', step);
    if r in s.calls {
      var k, rd, rd' := h.marks[r], s.calls[r], s'.calls[r];
      CallMoves(s, s', step, r);
      KnownMarkStays(s, h, s', step, r);
      if OnCall(step, r) {
        ActedCall(s, h, s', step, r);
      } else {
        FailedCall(s, h, k, rd);
      }
      MarkIgnoresPhase(s, h, k, rd, rd');
      CallStays(s, h, s', step, k, rd');
      MarkStays(s, h, s', step, k, rd');
    } else {
      BeginMark(s, h, s', step);
    }
  }

  lemma KnownMarkStays(s: Sys, h: History, s': Sys, step: Step, r: nat)
    requires LogInv(s, h) && NextStep(s, s', step) && r in h.marks
    ensures r in Record(s, h, step).marks && Record(s, h, step).marks[r] == h.marks[r]
    ensures step.ReadBegin? ==> step.r != r
  {
    hide LogInv, NextStep, Record, LogsGrow;
    StepGrows(s, h, s', step);
    if step.ReadBegin? {
      BeginFacts(s, h, s', step);
    }
  }

  // ---- messages of reads ----

  lemma CallMessageStays(s: Sys, h: History, s': Sys, step: Step, a: Append, success: bool)
    requires LogInv(s, h) && NextStep(s, s', step) && CallMessage(s, h, a, success)
    ensures CallMessage(s', Record(s, h, step), a, success)
  {
    hide LogInv, NextStep, Record;
    if a.call.Some? {
      KnownMarkStays(s, h, s', step, a.call.value);
      CallMoves(s, s', step, a.call.value);
      StepTermsGrow(s, h, s', step);
    }
  }

  lemma CallMessagesStep(s: Sys, h: History, s': Sys, step: Step, m: Message)
    requires LogInv(s, h) && ReadsOK(s, h) && NextStep(s, s', step) && m in s'.net
    ensures CallMessageOK(s', Record(s, h, step), m)
  {
    hide LogInv, NextStep, Record, CallMessage, Sent, MarkOK, CallOK, E.Inv;
    NetGrows(s, s', step);
    if m in s.net {
      assert CallMessageOK(s, h, m);
      match m
      case AppendEntries(a) => CallMessageStays(s, h, s', step, a, false);
      case AppendReply(a, _, success) => CallMessageStays(s, h, s', step, a, success);
      case _ =>
    } else if m.AppendEntries? {
      SentCallMessage(s, h, s', step, m);
    } else if m.AppendReply? {
      SentReply(s, step, m);
      if step.HandleAppend? {
        RepliedCallMessage(s, h, s', step, m);
      } else {
        RefusedCallMessage(s, h, s', step, m);
      }
      CallMessageStays(s, h, s', step, m.a, m.success);
    }
  }

  lemma SentReply(s: Sys, step: Step, m: Message)
    requires m in Sent(s, step) && m.AppendReply?
    ensures step.HandleAppend? || step.IgnoreAppend?
  {
    hide Grants, PrevMatches, MakeAppend, MakeReadBeat;
  }

  lemma SentCallMessage(s: Sys, h: History, s': Sys, step: Step, m: Message)
    requires LogInv(s, h) && NextStep(s, s', step) && m in Sent(s, step) && m.AppendEntries?
    ensures CallMessage(s', Record(s, h, step), m.a, false)
  {
    hide LogInv, NextStep, Record, Grants, PrevMatches, TermAt, LastTerm;
    CfgIsNodes(s, h);
    if step.ReadBeat? {
      SendFacts(s, h, s', step);
      BeatAwayFromSelf(s, s', step);
    }
  }

  lemma BeatAwayFromSelf(s: Sys, s': Sys, step: Step)
    requires NextStep(s, s', step) && step.ReadBeat?
    ensures step.p != Actor(s, step)
  {
  }

  /** The acknowledger's term was at most the leader's when it answered, so also when the read began. */
  lemma RepliedCallMessage(s: Sys, h: History, s': Sys, step: Step, m: Message)
    requires LogInv(s, h) && ReadsOK(s, h) && NextStep(s, s', step) && m in Sent(s, step) && step.HandleAppend?
    ensures m.AppendReply? && CallMessage(s, h, m.a, m.success)
  {
    hide LogInv, NextStep, PrevMatches, CallOK, E.Inv;
    CfgIsNodes(s, h);
    HandledWasSent(s, s', step);
    assert CallMessageOK(s, h, AppendEntries(step.a));
    if step.a.call.Some? {
      var r := step.a.call.value;
      assert MarkOK(s, h, h.marks[r], s.calls[r]);
    }
  }

  lemma RefusedCallMessage(s: Sys, h: History, s': Sys, step: Step, m: Message)
    requires ReadsOK(s, h) && NextStep(s, s', step) && m in Sent(s, step) && step.IgnoreAppend?
    ensures m.AppendReply? && CallMessage(s, h, m.a, m.success)
  {
    hide NextStep, CallOK, MarkOK, CallMessage;
    RefusedWasSent(s, s', step);
    assert CallMessageOK(s, h, AppendEntries(step.a));
  }

  lemma ReadsStep(s: Sys, h: History, s': Sys, step: Step)
    requires LogInv(s, h) && ReadsOK(s, h) && NextStep(s, s', step) && LogInv(s', Record(s, h, step))
    ensures ReadsOK(s', Record(s, h, step))
  {
    var h' := Record(s, h, step);
    hide LogInv, NextStep, Record, MarkOK, CallOK, CallMessageOK;
    forall r | r in s'.calls && r in h'.marks
      ensures MarkOK(s', h', h'.marks[r], s'.calls[r]) && CallOK(s', h', h'.marks[r], s'.calls[r])
    {
      CallStep(s, h, s', step, r);
    }
    forall m | m in s'.net
      ensures CallMessageOK(s', h', m)
    {
      CallMessagesStep(s, h, s', step, m);
    }
  }

  // ---- the read that finishes ----

  /** What was committed when a read began is applied at the leader when the read finishes. */
  lemma FinishedReadCovers(s: Sys, h: History, k: Mark, rd: Read, log: seq<LogEntry>, c: nat, p: Point)
    requires LogInv(s, h) && StoreOK(s, h) && MarkOK(s, h, k, rd) && CallOK(s, h, k, rd)
    requires rd.phase == Applied && s.LeaderIn(rd.node, rd.term)
    requires p in k.points && Covered(h, log, c, p)
    ensures rd.node in s.reps && c <= s.reps[rd.node].applied && Agree(log, s.reps[rd.node].log, c)
  {
    var n, t := rd.node, rd.term;
    hide LogInv, StoreOK, RolesOK, StoredOK, NetOK, PeersOK, NodesKeep, VotesKeep, LeadersKeep, CommitsOK, LogsOK,
      E.Inv, Shape, PointsOK,
      TermLogOK;
    LogParts(s, h);
    LeaderTermIsWon(s, h, n);
    TermLogIs(s, h, t);
    assert p.term <= t;
    if c > 0 {
      CoveredIsCommitted(h, log, c, p);
      CommittedInLeader(s, h, log, c, p.term, t);
      if p.term < t {
        OwnEntriesFollowBase(h, t, rd.index);
      }
    }
  }

  lemma CoveredIsCommitted(h: History, log: seq<LogEntry>, c: nat, p: Point)
    requires Covered(h, log, c, p)
    ensures CommitOK(h, log, c, p.term)
  {
  }

  /** ... and the value returned is that of the applied log, even right after a restart's replay. */
  lemma FinishedReadValue(s: Sys, h: History, k: Mark, rd: Read)
    requires LogInv(s, h) && StoreOK(s, h) && CallOK(s, h, k, rd)
    requires rd.phase == Applied && s.LeaderIn(rd.node, rd.term)
    ensures rd.node in s.reps && s.reps[rd.node].applied <= |s.reps[rd.node].log|
    ensures s.reps[rd.node].store == Fold(s.reps[rd.node].log[..s.reps[rd.node].applied])
  {
    hide LogInv, StoreOK, Fold, LogsOK, RolesOK, Shape, StoredOK, NetOK, PeersOK, NodesKeep, VotesKeep, LeadersKeep,
      PointsOK, CommitsOK;
    CfgIsNodes(s, h);
    LogParts(s, h);
    LeaderTermIsWon(s, h, rd.node);
    LeaderCaughtUp(s, h, rd.node, rd.index);
  }
}
