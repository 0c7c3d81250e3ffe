/**
 Two things about where logs end. Every commit index and every snapshot boundary is that of an entry counted by the
 leader of its own term; and a former leader's log comes back to a shorter beginning of what it was only through
 entries that other leaders had instead. Together they rule out that the shorter beginning is then committed to its end.
 */
module EndProof {
  import opened Types
  import opened Protocol
  import opened Invariant
  import opened Growth
  import opened Merging
  import opened LogProof
  import opened CommitProof
  import opened NetProof
  import opened Safety
  import opened StoreProof
  import E = Election

  // ---- what is committed was counted ----

  /** The entry at c was counted by the leader of its own term. */
  ghost predicate Counted(h: History, log: seq<LogEntry>, c: int) {
    c > 0 ==> c <= |log| && exists p :: p in h.points && p.index == c && p.term == log[c - 1].term
  }

  ghost predicate NodeEnd(s: Sys, h: History, n: Id)
    requires n in s.reps
  {
    var rep := s.reps[n];
    rep.boundary <= rep.commit && Counted(h, rep.log, rep.commit) && Counted(h, rep.log, rep.boundary)
  }

  ghost predicate RequestEnd(h: History, a: Append) {
    a.term in h.logs && Counted(h, h.logs[a.term].log, a.leaderCommit)
  }

  ghost predicate EndsKnown(s: Sys, h: History) {
    && (forall n | n in s.reps :: NodeEnd(s, h, n))
    && (forall a | AppendEntries(a) in s.net :: RequestEnd(h, a))
  }

  lemma CountedStays(h: History, h': History, log: seq<LogEntry>, log': seq<LogEntry>, upto: int, c: int)
    requires h.points <= h'.points && Counted(h, log, c) && c <= upto && Agree(log, log', upto)
    ensures Counted(h', log', c)
  {
  }

  lemma RequestEndStays(h: History, h': History, a: Append)
    requires LogsGrow(h, h') && h.points <= h'.points && RequestEnd(h, a)
    ensures RequestEnd(h', a)
  {
    var log := h.logs[a.term].log;
    assert a.leaderCommit > 0 ==> a.leaderCommit <= |log|;
    hide Counted;
    if a.leaderCommit <= |log| {
      CountedStays(h, h', log, h'.logs[a.term].log, |log|, a.leaderCommit);
    }
  }

  /** A request carries its leader's commit index, or its boundary. */
  lemma NewRequestEnd(s: Sys, h: History, s': Sys, step: Step, a: Append)
    requires LogInv(s, h) && EndsKnown(s, h) && NextStep(s, s', step) && AppendEntries(a) in Sent(s, step)
    ensures RequestEnd(h, a)
  {
    hide LogInv, NextStep, LogsOK, Shape, StoredOK, NetOK, NodesKeep, VotesKeep, LeadersKeep, PointsOK, CommitsOK,
      Counted, PeersOK, Record, Sent;
    LogParts(s, h);
    ActorIn(s, h, s', step);
    var n := Actor(s, step);
    assert NodeEnd(s, h, n);
    SentCommit(s, s', step, a);
  }

  lemma SentCommit(s: Sys, s': Sys, step: Step, a: Append)
    requires NextStep(s, s', step) && AppendEntries(a) in Sent(s, step) && Actor(s, step) in s.e.nodes && Actor(s, step) in s.reps
    ensures var v, rep := s.e.nodes[Actor(s, step)], s.reps[Actor(s, step)];
      v.role == Leader && a.term == v.term && (a.leaderCommit == rep.commit || a.leaderCommit == rep.boundary)
  {
    hide Grants, PrevMatches, E.NextStep;
  }

  /** What an accepted request makes of a log: nothing new, or the request's leader's log through the request's end. */
  lemma AcceptShape(s: Sys, h: History, s': Sys, step: Step)
    requires LogInv(s, h) && NextStep(s, s', step) && IsAccept(s, step)
    ensures var n, a := step.n, step.a;
      && AppendEntries(a) in s.net && a.dst == n && a.term in h.logs && a.prev <= |s.reps[n].log| && n in s'.reps
      && s.e.nodes[n].term <= a.term && s'.reps[n] == Receive(s.reps[n], a) && a.leaderCommit <= a.prev + |a.entries|
      && var log, log', target, e := s.reps[n].log, s'.reps[n].log, h.logs[a.term].log, a.prev + |a.entries|;
      && e <= |target| && CutFrom(a.entries, target, a.prev)
      && log' == Merge(log, a.prev, a.entries) && (log' == log || log' == target[..e])
      && Agree(log', target, e) && Agree(log, target, s.reps[n].commit)
  {
    hide LogInv, NextStep, Record, RolesOK, Shape, StoredOK, NetOK, PeersOK, NodesKeep, VotesKeep, LeadersKeep, PointsOK,
      CommitsOK, AppendOK, E.Heed, RecordAccept, LogOK, TermLogOK, CommitOK, TermsDecide, CutFrom, Merge;
    var n, a := step.n, step.a;
    LogParts(s, h);
    AcceptedIs(s, h, s', step);
    AcceptFacts(s, h, s', step);
    AppendIsCut(s, h, a);
    AppendCommit(s, h, a);
    LogOf(s, h, n);
    LogsMatch(h, s.reps[n].log, a.term);
    AgreeBefore(s.reps[n].log, h.logs[a.term].log, a.prev);
    CutInside(a.entries, h.logs[a.term].log, a.prev);
    MergeAgrees(s.reps[n].log, a.prev, a.entries, h.logs[a.term].log);
    CommitOf(s, h, n);
    TermLogIs(s, h, a.term);
    CommittedInLeader(s, h, s.reps[n].log, s.reps[n].commit, s.e.nodes[n].term, a.term);
  }

  lemma CutInside(entries: seq<LogEntry>, target: seq<LogEntry>, prev: nat)
    requires CutFrom(entries, target, prev)
    ensures prev + |entries| <= |target|
  {
  }

  lemma AgreeBefore(log: seq<LogEntry>, target: seq<LogEntry>, prev: nat)
    requires TermsDecide(log, target) && prev <= |log| && prev <= |target| && TermAt(log, prev) == TermAt(target, prev)
    ensures Agree(log, target, prev)
  {
    if prev > 0 {
      assert log[prev - 1].term == target[prev - 1].term;
    }
  }

  lemma AcceptEnd(s: Sys, h: History, s': Sys, step: Step)
    requires LogInv(s, h) && EndsKnown(s, h) && NextStep(s, s', step) && IsAccept(s, step)
    ensures step.n in s'.reps && NodeEnd(s', h, step.n)
  {
    hide LogInv, NextStep, Accepts, Counted, Receive, Merge, CutFrom, Record;
    var n, a := step.n, step.a;
    AcceptShape(s, h, s', step);
    assert NodeEnd(s, h, n) && RequestEnd(h, a);
    CommitOf(s, h, n);
    CommitFits(h, s.reps[n].log, s.reps[n].commit, s.e.nodes[n].term);
    MergedEnd(h, s.reps[n], a, h.logs[a.term].log);
  }

  lemma MergedEnd(h: History, rep: Replica, a: Append, target: seq<LogEntry>)
    requires a.prev <= |rep.log| && a.leaderCommit <= a.prev + |a.entries| <= |target| && rep.boundary <= rep.commit <= |rep.log|
    requires CutFrom(a.entries, target, a.prev)
    requires var log' := Merge(rep.log, a.prev, a.entries);
      (log' == rep.log || log' == target[..a.prev + |a.entries|]) && Agree(log', target, a.prev + |a.entries|)
    requires Agree(rep.log, target, rep.commit)
    requires Counted(h, rep.log, rep.commit) && Counted(h, rep.log, rep.boundary) && Counted(h, target, a.leaderCommit)
    ensures var rep' := Receive(rep, a);
      rep'.boundary <= rep'.commit && Counted(h, rep'.log, rep'.commit) && Counted(h, rep'.log, rep'.boundary)
  {
    hide Counted, Merge;
    var e := a.prev + |a.entries|;
    var log' := Merge(rep.log, a.prev, a.entries);
    ReceiveShape(rep, a);
    if rep.commit > e {
      StaleRequestChangesNothing(rep.log, a.prev, a.entries, target, rep.commit);
    }
    assert Agree(rep.log, log', rep.commit);
    CountedStays(h, h, rep.log, log', rep.commit, rep.commit);
    CountedStays(h, h, rep.log, log', rep.commit, rep.boundary);
    CountedStays(h, h, target, log', e, a.leaderCommit);
  }

  lemma AdvanceEnd(s: Sys, h: History, s': Sys, step: Step)
    requires NextStep(s, s', step) && step.AdvanceCommit? && step.n in s.reps && NodeEnd(s, h, step.n)
    ensures step.n in s'.reps && NodeEnd(s', Record(s, h, step), step.n)
  {
    hide NextStep, Record;
    AdvanceFacts(s, h, s', step);
    var rep, h' := s.reps[step.n], Record(s, h, step);
    assert Point(s.e.nodes[step.n].term, step.i) in h'.points;
    assert Counted(h', rep.log, step.i);
    StepPointsGrow(s, h, step);
    assert Counted(h, rep.log, rep.boundary) ==> Counted(h', rep.log, rep.boundary);
  }

  lemma RestartEnd(s: Sys, h: History, s': Sys, step: Step)
    requires NextStep(s, s', step) && step.Restart? && step.n in s.reps && NodeEnd(s, h, step.n)
    ensures step.n in s'.reps && NodeEnd(s', h, step.n)
  {
    hide NextStep, Record, Counted;
    RestartFacts(s, h, s', step);
  }

  lemma CompactEnd(s: Sys, h: History, s': Sys, step: Step)
    requires NextStep(s, s', step) && step.Compact? && step.n in s.reps && NodeEnd(s, h, step.n)
    ensures step.n in s'.reps && NodeEnd(s', h, step.n)
  {
    hide Counted;
  }

  /** The boundary of a snapshot was its sender's, and is in what its receiver has committed. */
  lemma DumpEnd(s: Sys, h: History, s': Sys, step: Step)
    requires LogInv(s, h) && EndsKnown(s, h) && NextStep(s, s', step) && step.TakeDump?
    ensures step.n in s'.reps && NodeEnd(s', h, step.n)
  {
    hide LogInv, NextStep, Record, Counted;
    TakeDumpFacts(s, h, s', step);
    var n, m := step.n, step.m;
    assert NodeEnd(s, h, n);
    if step.whole {
      BoundaryCounted(s, h, n, m);
    }
  }

  lemma BoundaryCounted(s: Sys, h: History, n: Id, m: Message)
    requires LogInv(s, h) && EndsKnown(s, h) && m in s.net && m.Install? && n in s.reps && m.base <= s.reps[n].commit
    ensures Counted(h, s.reps[n].log, m.base)
  {
    hide LogInv, Counted, LogsOK, RolesOK, Shape, StoredOK, PeersOK, NodesKeep, VotesKeep, LeadersKeep, NetOK,
      PointsOK, CommitsOK, CommitOK;
    LogParts(s, h);
    InstallKnown(s, h, m);
    var log := h.logs[m.term].log;
    assert RequestEnd(h, Slice(m.src, m.dst, m.term, log, m.base));
    CommitOf(s, h, n);
    CommitsAgree(s, h, log, m.base, m.term, s.reps[n].log, s.reps[n].commit, s.e.nodes[n].term);
    CountedStays(h, h, log, s.reps[n].log, m.base, m.base);
  }

  lemma InstallKnown(s: Sys, h: History, m: Message)
    requires NetOK(s, h) && m in s.net && m.Install?
    ensures m.term in h.logs && m.base <= |h.logs[m.term].log| && m.baseTerm == TermAt(h.logs[m.term].log, m.base)
    ensures AppendEntries(Slice(m.src, m.dst, m.term, h.logs[m.term].log, m.base)) in s.net
    ensures CommitOK(h, h.logs[m.term].log, m.base, m.term)
  {
    hide CommitOK;
    assert MessageOK(s, h, m);
    assert MessageOK(s, h, AppendEntries(Slice(m.src, m.dst, m.term, h.logs[m.term].log, m.base)));
  }

  lemma BoundariesInVoteStep(s: Sys, s': Sys, step: Step, n: Id)
    requires (step.StartElection? || step.HandleVote? || step.CountVote?) && VoteStep(s, s', step)
    requires n in s.reps && n in s'.reps
    ensures s'.reps[n].boundary == s.reps[n].boundary
  {
    hide E.NextStep, E.HasElectionMajority, UpToDate, Grants, LearnIfNewer, LastTerm;
  }

  lemma BoundariesInLogStep(s: Sys, s': Sys, step: Step, n: Id)
    requires step.ClientAppend? || step.SendAppend? || step.HandleAppend? || step.TakeAppendReply? || step.AdvanceCommit? || step.ApplyOne?
    requires LogStep(s, s', step) && n in s.reps && n in s'.reps
    ensures s'.reps[n].boundary == s.reps[n].boundary
  {
    hide E.NextStep, PrevMatches, Committable, Merge, ApplyToStore, LearnIfNewer, MakeAppend, OwnEntry;
  }

  lemma BoundaryStays(s: Sys, s': Sys, step: Step, n: Id)
    requires NextStep(s, s', step) && n in s.reps && n in s'.reps
    requires !((step.Compact? || step.TakeDump?) && n == step.n)
    ensures s'.reps[n].boundary == s.reps[n].boundary
  {
    hide VoteStep, LogStep, E.NextStep, MakeReadBeat, LearnIfNewer, Get, TermAt, FailReads, OwnEntry;
    if step.StartElection? || step.HandleVote? || step.CountVote? {
      BoundariesInVoteStep(s, s', step, n);
    } else if step.ClientAppend? || step.SendAppend? || step.HandleAppend? || step.TakeAppendReply? || step.AdvanceCommit? || step.ApplyOne? {
      BoundariesInLogStep(s, s', step, n);
    }
  }

  lemma OtherEnd(s: Sys, h: History, s': Sys, step: Step, n: Id)
    requires LogInv(s, h) && NextStep(s, s', step) && n in s.reps && n in s'.reps && NodeEnd(s, h, n)
    requires !(IsAccept(s, step) && n == Actor(s, step)) && !((step.AdvanceCommit? || step.Restart? || step.Compact? || step.TakeDump?) && n == step.n)
    ensures NodeEnd(s', Record(s, h, step), n)
  {
    hide LogInv, NextStep, Record, Counted, Accepts, CommitOK;
    StepPointsGrow(s, h, step);
    CommitOf(s, h, n);
    CommitStays(s, h, s', step, n);
    BoundaryStays(s, s', step, n);
    var rep, rep' := s.reps[n], s'.reps[n];
    CountedStays(h, Record(s, h, step), rep.log, rep'.log, rep.commit, rep.commit);
    CountedStays(h, Record(s, h, step), rep.log, rep'.log, rep.commit, rep.boundary);
  }

  lemma EndGrows(s: Sys, h: History, h': History, n: Id)
    requires n in s.reps && NodeEnd(s, h, n) && h.points <= h'.points
    ensures NodeEnd(s, h', n)
  {
  }

  lemma NodeEndStep(s: Sys, h: History, s': Sys, step: Step, n: Id)
    requires LogInv(s, h) && EndsKnown(s, h) && NextStep(s, s', step) && n in s.reps && n in s'.reps
    ensures NodeEnd(s', Record(s, h, step), n)
  {
    hide LogInv, NextStep, Record, NodeEnd, Accepts;
    StepPointsGrow(s, h, step);
    assert NodeEnd(s, h, n);
    if step.AdvanceCommit? && n == step.n {
      AdvanceEnd(s, h, s', step);
    } else if IsAccept(s, step) && n == Actor(s, step) {
      AcceptEnd(s, h, s', step);
      EndGrows(s', h, Record(s, h, step), n);
    } else if step.Restart? && n == step.n {
      RestartEnd(s, h, s', step);
      EndGrows(s', h, Record(s, h, step), n);
    } else if step.Compact? && n == step.n {
      CompactEnd(s, h, s', step);
      EndGrows(s', h, Record(s, h, step), n);
    } else if step.TakeDump? && n == step.n {
      DumpEnd(s, h, s', step);
      EndGrows(s', h, Record(s, h, step), n);
    } else {
      OtherEnd(s, h, s', step, n);
    }
  }

  lemma EndsStep(s: Sys, h: History, s': Sys, step: Step)
    requires LogInv(s, h) && EndsKnown(s, h) && NextStep(s, s', step)
    ensures EndsKnown(s', Record(s, h, step))
  {
    hide LogInv, NextStep, Record, NodeEnd, RequestEnd, LogsGrow, Sent;
    ReplicasStay(s, s', step);
    StepLogsGrow(s, h, s', step);
    StepPointsGrow(s, h, step);
    NetGrows(s, s', step);
    forall n | n in s'.reps
      ensures NodeEnd(s', Record(s, h, step), n)
    {
      NodeEndStep(s, h, s', step, n);
    }
    forall a | AppendEntries(a) in s'.net
      ensures RequestEnd(Record(s, h, step), a)
    {
      if AppendEntries(a) !in s.net {
        NewRequestEnd(s, h, s', step, a);
      }
      RequestEndStays(h, Record(s, h, step), a);
    }
  }

  // ---- on the trail of a leader's log ----

  /** Some later leader had another entry at c. */
  ghost predicate Displaced(h: History, t: nat, term: nat, past: seq<LogEntry>, c: int) {
    && 0 <= c < |past|
    && exists u: nat :: t < u <= term && u in h.logs && c < |h.logs[u].log| && h.logs[u].log[c] != past[c]
  }

  /** Node n led term t with the log `past`: where it differs from that it was displaced, and it is not shorter
      without having been displaced within its own length. */
  ghost predicate Trail(s: Sys, h: History, n: Id, t: nat, past: seq<LogEntry>) {
    && n in s.reps && n in s.e.nodes
    && t in h.logs && past <= h.logs[t].log && t in h.wins && h.wins[t].leader == n && t <= s.e.nodes[n].term
    && var log, term := s.reps[n].log, s.e.nodes[n].term;
    && (forall c | 0 <= c < |log| && c < |past| && log[c] != past[c] :: Displaced(h, t, term, past, c))
    && (|log| >= |past| || exists c :: c < |log| && Displaced(h, t, term, past, c))
  }

  lemma DisplacedStays(h: History, h': History, t: nat, term: nat, term': nat, past: seq<LogEntry>, c: int)
    requires LogsGrow(h, h') && term <= term' && Displaced(h, t, term, past, c)
    ensures Displaced(h', t, term', past, c)
  {
    var u: nat :| t < u <= term && u in h.logs && c < |h.logs[u].log| && h.logs[u].log[c] != past[c];
    assert h'.logs[u].log[c] == h.logs[u].log[c];
  }

  /** An accepted request at a former leader comes from a later term. */
  lemma AcceptsFromLater(s: Sys, h: History, s': Sys, step: Step, t: nat)
    requires LogInv(s, h) && NextStep(s, s', step) && IsAccept(s, step)
    requires t in h.wins && h.wins[t].leader == step.n && t <= s.e.nodes[step.n].term
    ensures t < step.a.term
  {
    hide LogInv, NextStep, RolesOK, LogsOK, StoredOK, NetOK, PeersOK, NodesKeep, VotesKeep, LeadersKeep, PointsOK,
      CommitsOK, Merge, Receive, CommitOK, E.WinsSound, E.VotesFirm, E.VotesUnique, E.VotesBounded, E.RolesSound, Record;
    LogParts(s, h);
    AcceptedIs(s, h, s', step);
    AppendIsCut(s, h, step.a);
    AcceptFacts(s, h, s', step);
    assert E.Beat(step.a.src, step.a.term, step.a.dst) in s.e.beats;
  }

  /** An entry that a later leader had instead. */
  lemma LaterEntry(h: History, t: nat, term: nat, past: seq<LogEntry>, u: nat, c: int)
    requires t < u <= term && u in h.logs && 0 <= c < |h.logs[u].log| && c < |past| && h.logs[u].log[c] != past[c]
    ensures Displaced(h, t, term, past, c)
  {
  }

  lemma AcceptTrail(s: Sys, h: History, s': Sys, step: Step, t: nat, past: seq<LogEntry>)
    requires LogInv(s, h) && NextStep(s, s', step) && IsAccept(s, step) && Trail(s, h, step.n, t, past)
    ensures step.n in s'.reps
    ensures var log', u := s'.reps[step.n].log, step.a.term;
      && (forall c | 0 <= c < |log'| && c < |past| && log'[c] != past[c] :: Displaced(h, t, u, past, c))
      && (|log'| >= |past| || exists c :: c < |log'| && Displaced(h, t, u, past, c))
  {
    hide LogInv, NextStep, Accepts, Receive, Merge, Displaced;
    var n, a := step.n, step.a;
    AcceptsFromLater(s, h, s', step, t);
    AcceptShape(s, h, s', step);
    MergedTrail(h, s.reps[n].log, s'.reps[n].log, a.prev, a.entries, t, s.e.nodes[n].term, a.term, past);
  }

  lemma MergedTrail(h: History, log: seq<LogEntry>, log': seq<LogEntry>, prev: nat, entries: seq<LogEntry>, t: nat,
      term: nat, u: nat, past: seq<LogEntry>)
    requires t < u && term <= u && u in h.logs && prev <= |log| && CutFrom(entries, h.logs[u].log, prev)
    requires prev + |entries| <= |h.logs[u].log|
    requires log' == Merge(log, prev, entries) && (log' == log || log' == h.logs[u].log[..prev + |entries|])
    requires forall c | 0 <= c < |log| && c < |past| && log[c] != past[c] :: Displaced(h, t, term, past, c)
    requires |log| >= |past| || exists c :: c < |log| && Displaced(h, t, term, past, c)
    ensures forall c | 0 <= c < |log'| && c < |past| && log'[c] != past[c] :: Displaced(h, t, u, past, c)
    ensures |log'| >= |past| || exists c :: c < |log'| && Displaced(h, t, u, past, c)
  {
    hide Merge, Displaced, CutFrom;
    forall c | Displaced(h, t, term, past, c)
      ensures Displaced(h, t, u, past, c)
    {
      DisplacedStays(h, h, t, term, u, past, c);
    }
    if log' != log {
      var target, e := h.logs[u].log, prev + |entries|;
      forall c | 0 <= c < e && c < |past| && target[c] != past[c]
        ensures Displaced(h, t, u, past, c)
      {
        LaterEntry(h, t, u, past, u, c);
      }
      if |log| >= e && Agree(log, target, e) {
        StaleRequestChangesNothing(log, prev, entries, target, e);
      } else if |log| >= e {
        var j :| 0 <= j < e && log[j] != target[j];
        if j < |past| {
          assert Displaced(h, t, u, past, j);
        }
      }
    }
  }

  lemma ProposeTrail(s: Sys, h: History, s': Sys, step: Step, t: nat, past: seq<LogEntry>)
    requires LogInv(s, h) && NextStep(s, s', step) && IsPropose(step) && Trail(s, h, Actor(s, step), t, past)
    ensures Actor(s, step) in s'.reps
    ensures var n, h' := Actor(s, step), Record(s, h, step);
      var log', u := s'.reps[n].log, s.e.nodes[n].term;
      && (forall c | 0 <= c < |log'| && c < |past| && log'[c] != past[c] :: Displaced(h', t, u, past, c))
      && (|log'| >= |past| || exists c :: c < |log'| && Displaced(h', t, u, past, c))
  {
    hide LogInv, NextStep, Record, Displaced, LogsOK, StoredOK, NetOK, PeersOK, NodesKeep, VotesKeep, LeadersKeep, PointsOK,
      CommitsOK, LogsGrow, Shape, TermLogOK;
    var n, h' := Actor(s, step), Record(s, h, step);
    LogParts(s, h);
    ProposeFacts(s, h, s', step);
    StepLogsGrow(s, h, s', step);
    var u, log, log' := s.e.nodes[n].term, s.reps[n].log, s'.reps[n].log;
    assert h'.logs[u].log == log';
    forall c | Displaced(h, t, u, past, c)
      ensures Displaced(h', t, u, past, c)
    {
      DisplacedStays(h, h', t, u, u, past, c);
    }
    if |log| < |past| {
      OwnTermOnly(s, h, t, past, |log|);
      LaterEntry(h', t, u, past, u, |log|);
    }
  }

  lemma OwnTermOnly(s: Sys, h: History, t: nat, past: seq<LogEntry>, c: nat)
    requires LogsOK(s, h) && t in h.logs && past <= h.logs[t].log && c < |past|
    ensures past[c].term <= t
  {
    assert EntryOK(h, t, c);
  }

  lemma TrailStep(s: Sys, h: History, s': Sys, step: Step, n: Id, t: nat, past: seq<LogEntry>)
    requires LogInv(s, h) && NextStep(s, s', step) && Trail(s, h, n, t, past)
    ensures Trail(s', Record(s, h, step), n, t, past)
  {
    hide LogInv, NextStep, Record, Displaced, Accepts, LogsGrow, Merge, Receive, E.NextStep, E.Inv;
    var h' := Record(s, h, step);
    StepTermsGrow(s, h, s', step);
    StepLogsGrow(s, h, s', step);
    ElectionPart(s, h, s', step);
    LongerLog(h, h', t, past);
    forall c | Displaced(h, t, s.e.nodes[n].term, past, c)
      ensures Displaced(h', t, s'.e.nodes[n].term, past, c)
    {
      DisplacedStays(h, h', t, s.e.nodes[n].term, s'.e.nodes[n].term, past, c);
    }
    if n == Actor(s, step) && IsAccept(s, step) {
      AcceptTrail(s, h, s', step, t, past);
      AcceptFacts(s, h, s', step);
      forall c | Displaced(h, t, step.a.term, past, c)
        ensures Displaced(h', t, step.a.term, past, c)
      {
        DisplacedStays(h, h', t, step.a.term, step.a.term, past, c);
      }
    } else if n == Actor(s, step) && IsPropose(step) {
      ProposeTrail(s, h, s', step, t, past);
      ProposeFacts(s, h, s', step);
    } else {
      OtherLogsStay(s, s', step, n);
    }
  }

  lemma LongerLog(h: History, h': History, t: nat, past: seq<LogEntry>)
    requires LogsGrow(h, h') && t in h.logs && past <= h.logs[t].log
    ensures t in h'.logs && past <= h'.logs[t].log
  {
  }

  // ---- the two together ----

  /** A node that led term t with the log `past` is never left with a shorter beginning of it, all committed. */
  lemma NeverBehind(s: Sys, h: History, n: Id, t: nat, past: seq<LogEntry>)
    requires LogInv(s, h) && EndsKnown(s, h) && Trail(s, h, n, t, past)
    requires s.reps[n].commit == |s.reps[n].log| < |past|
    ensures !(s.reps[n].log <= past)
  {
    hide LogInv, LogsOK, RolesOK, Shape, StoredOK, NetOK, PeersOK, NodesKeep, VotesKeep, LeadersKeep, PointsOK, CommitsOK,
      LogsGrow, LogOK;
    LogParts(s, h);
    var log := s.reps[n].log;
    if log <= past {
      var c :| c < |log| && Displaced(h, t, s.e.nodes[n].term, past, c);
      var u: nat :| t < u <= s.e.nodes[n].term && u in h.logs && c < |h.logs[u].log| && h.logs[u].log[c] != past[c];
      assert NodeEnd(s, h, n);
      var p :| p in h.points && p.index == |log| && p.term == LastTerm(log);
      OwnTermOnly(s, h, t, past, |log| - 1);
      LogOf(s, h, n);
      PointInLeader(s, h, log, p, u);
    }
  }

  /** The log up to a point its last entry was counted at is in every later leader's log. */
  lemma PointInLeader(s: Sys, h: History, log: seq<LogEntry>, p: Point, u: nat)
    requires PointsOK(s, h) && LeadersKeep(s, h) && LogsOK(s, h) && LogOK(h, log)
    requires p in h.points && p.index == |log| > 0 && p.term == LastTerm(log) < u && u in h.logs
    ensures Agree(log, h.logs[u].log, |log|)
  {
    hide LogsOK, PointsOK, LeadersKeep, TermLogOK;
    TermLogIs(s, h, u);
    CoveredHere(h, log, p);
    CommittedInLeader(s, h, log, |log|, p.term, u);
  }

  lemma CoveredHere(h: History, log: seq<LogEntry>, p: Point)
    requires LogOK(h, log) && p in h.points && p.index == |log| > 0 && p.term == LastTerm(log)
    ensures CommitOK(h, log, |log|, p.term)
  {
    assert Covered(h, log, |log|, p);
  }
}
