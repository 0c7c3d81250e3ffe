/** The guarantees of the cluster, stated about whole runs and nothing else. */
module Theorems {
  import opened Types
  import opened Protocol
  import opened Invariant
  import opened Growth
  import opened Frames
  import opened Merging
  import opened RoleProof
  import opened CommitProof
  import opened Safety
  import opened StoreProof
  import opened ReadProof
  import E = Election
  import opened Replay

  lemma InitInv(s: Sys)
    requires Init(s)
    ensures Inv(s, Start(s))
  {
    InitLogInv(s);
    forall n | n in s.reps
      ensures Replays(map[], [], 0)
    {
    }
  }

  lemma StepInv(s: Sys, h: History, s': Sys, step: Step)
    requires Inv(s, h) && NextStep(s, s', step)
    ensures Inv(s', Record(s, h, step))
  {
    hide LogInv, StoreOK, ReadsOK, NextStep, Record;
    LogInvStep(s, h, s', step);
    StoreStep(s, h, s', step);
    ReadsStep(s, h, s', step);
  }

  // ---- a record for every state of a run ----

  ghost predicate Linked(s: Sys, h: History, s': Sys, h': History) {
    exists step :: NextStep(s, s', step) && h' == Record(s, h, step)
  }

  ghost predicate Chain(run: seq<Sys>, hs: seq<History>) {
    && |hs| == |run|
    && (forall i | 0 <= i < |run| :: Inv(run[i], hs[i]))
    && (forall i | 0 <= i < |run| - 1 :: Linked(run[i], hs[i], run[i + 1], hs[i + 1]))
  }

  lemma {:induction false} RunHasRecord(run: seq<Sys>) returns (hs: seq<History>)
    requires Run(run)
    ensures Chain(run, hs)
    decreases |run|
  {
    hide Inv, Linked, Next, Init;
    if |run| == 1 {
      InitInv(run[0]);
      hs := [Start(run[0])];
    } else {
      var last := |run| - 2;
      assert Run(run[..last + 1]);
      var earlier := RunHasRecord(run[..last + 1]);
      assert Inv(run[last], earlier[last]);
      assert Next(run[last], run[last + 1]);
      var h' := LinkNext(run[last], earlier[last], run[last + 1]);
      hs := earlier + [h'];
    }
  }

  lemma LinkNext(s: Sys, h: History, s': Sys) returns (h': History)
    requires Inv(s, h) && Next(s, s')
    ensures Inv(s', h') && Linked(s, h, s', h')
  {
    hide Inv, NextStep, Record;
    var step :| NextStep(s, s', step);
    StepInv(s, h, s', step);
    h' := Record(s, h, step);
  }

  ghost predicate Extends(h: History, h': History) {
    && LogsGrow(h, h') && h.points <= h'.points
    && (forall t | t in h.wins :: t in h'.wins && h'.wins[t] == h.wins[t])
    && (forall r | r in h.marks :: r in h'.marks && h'.marks[r] == h.marks[r])
    && (forall q: Id, t: nat :: Stored(h, q, t) <= Stored(h', q, t))
  }

  lemma LinkExtends(s: Sys, h: History, s': Sys, h': History)
    requires Inv(s, h) && Linked(s, h, s', h')
    ensures Extends(h, h') && TermsGrow(s, s')
  {
    hide LogInv, StoreOK, ReadsOK, NextStep, Record, LogsGrow, Stored;
    var step :| NextStep(s, s', step) && h' == Record(s, h, step);
    StepGrows(s, h, s', step);
    ElectionPart(s, h, s', step);
  }

  lemma ExtendsTwice(h: History, h': History, h'': History)
    requires Extends(h, h') && Extends(h', h'')
    ensures Extends(h, h'')
  {
    forall q: Id, t: nat
      ensures Stored(h, q, t) <= Stored(h'', q, t)
    {
      assert Stored(h, q, t) <= Stored(h', q, t) <= Stored(h'', q, t);
    }
  }

  lemma {:induction false} ChainExtends(run: seq<Sys>, hs: seq<History>, i: nat, j: nat)
    requires Chain(run, hs) && i <= j < |run|
    ensures Extends(hs[i], hs[j]) && TermsGrow(run[i], run[j])
    decreases j - i
  {
    hide Inv, Linked, Extends;
    if i == j {
      ExtendsItself(hs[i]);
    } else {
      ChainExtends(run, hs, i, j - 1);
      assert Inv(run[j - 1], hs[j - 1]);
      assert Linked(run[j - 1], hs[j - 1], run[j - 1 + 1], hs[j - 1 + 1]);
      LinkExtends(run[j - 1], hs[j - 1], run[j], hs[j]);
      ExtendsTwice(hs[i], hs[j - 1], hs[j]);
    }
  }

  lemma ExtendsItself(h: History)
    ensures Extends(h, h)
  {
  }

  lemma Parts(s: Sys, h: History)
    requires Inv(s, h)
    ensures LogInv(s, h) && StoreOK(s, h) && ReadsOK(s, h) && LogsOK(s, h) && RolesOK(s, h) && Shape(s, h) && StoredOK(s, h)
    ensures PeersOK(s, h) && NetOK(s, h) && PointsOK(s, h) && LeadersKeep(s, h)
    ensures s.e.nodes.Keys == s.reps.Keys && E.Active(s.e, E.Joint) <= s.e.nodes.Keys
  {
    hide LogInv, StoreOK, ReadsOK, LogsOK, RolesOK, Shape, StoredOK, PeersOK, NetOK, PointsOK, LeadersKeep;
    LogParts(s, h);
    CfgIsNodes(s, h);
  }

  // ---- election safety ----

  /** At most one node ever becomes leader in a term, over the whole run. */
  lemma ElectionSafety(run: seq<Sys>, i: nat, j: nat, a: Id, b: Id, term: nat)
    requires Run(run) && i < |run| && j < |run|
    requires run[i].LeaderIn(a, term) && run[j].LeaderIn(b, term)
    ensures a == b
  {
    if i > j {
      ElectionSafety(run, j, i, b, a, term);
    } else {
      hide Run, Inv, Linked;
      var hs := RunHasRecord(run);
      ChainExtends(run, hs, i, j);
      LeaderIsWinner(run[i], hs[i], a, term);
      LeaderIsWinner(run[j], hs[j], b, term);
    }
  }

  lemma LeaderIsWinner(s: Sys, h: History, n: Id, term: nat)
    requires Inv(s, h) && s.LeaderIn(n, term)
    ensures term in h.wins && h.wins[term].leader == n
    ensures term in h.logs && n in s.reps && h.logs[term].log == s.reps[n].log && term > 0
  {
    hide Inv, LogsOK, StoredOK, PeersOK, NetOK, PointsOK, LeadersKeep, LogInv, StoreOK, ReadsOK;
    Parts(s, h);
    assert E.WinSound(s.e, term, h.wins[term]);
  }

  // ---- logs ----

  lemma LogsSoundLater(run: seq<Sys>, hs: seq<History>, i: nat, j: nat, n: Id)
    requires Chain(run, hs) && i <= j < |run| && n in run[i].reps
    ensures LogOK(hs[j], run[i].reps[n].log)
  {
    assert Inv(run[i], hs[i]);
    hide Inv, Linked, LogInv, StoreOK, ReadsOK, LogOK, Shape, RolesOK, StoredOK, NetOK, PeersOK, PointsOK, LeadersKeep;
    Parts(run[i], hs[i]);
    ChainExtends(run, hs, i, j);
    LogOKStays(hs[i], hs[j], run[i].reps[n].log);
  }

  /** Log Matching, between any two logs at any two moments of a run. */
  lemma LogMatching(run: seq<Sys>, i: nat, j: nat, a: Id, b: Id, k: nat)
    requires Run(run) && i < |run| && j < |run| && a in run[i].reps && b in run[j].reps
    requires k < |run[i].reps[a].log| && k < |run[j].reps[b].log|
    requires run[i].reps[a].log[k].term == run[j].reps[b].log[k].term
    ensures Agree(run[i].reps[a].log, run[j].reps[b].log, k + 1)
  {
    hide Run, Inv, Linked, LogOK, TermLogOK;
    var hs := RunHasRecord(run);
    var m := if i <= j then j else i;
    LogsSoundLater(run, hs, i, m, a);
    LogsSoundLater(run, hs, j, m, b);
    TermLogsSound(run[m], hs[m]);
    SoundLogsMatch(hs[m], run[i].reps[a].log, run[j].reps[b].log, k);
  }

  lemma TermLogsSound(s: Sys, h: History)
    requires Inv(s, h)
    ensures forall t | t in h.logs :: TermLogOK(h, t)
  {
    hide Inv, LogInv, StoreOK, ReadsOK, LogOK, Shape, RolesOK, StoredOK, NetOK, PeersOK, PointsOK, LeadersKeep,
      TermLogOK;
    Parts(s, h);
  }

  lemma SoundLogsMatch(h: History, a: seq<LogEntry>, b: seq<LogEntry>, k: nat)
    requires forall t | t in h.logs :: TermLogOK(h, t)
    requires LogOK(h, a) && LogOK(h, b) && k < |a| && k < |b| && a[k].term == b[k].term
    ensures Agree(a, b, k + 1)
  {
    assert EntryOK(h, LastTerm(a), k);
    assert EntryOK(h, LastTerm(b), k);
  }

  /** A leader never removes or overwrites an entry of its log while it leads. */
  lemma LeaderAppendOnly(run: seq<Sys>, i: nat, j: nat, n: Id, term: nat)
    requires Run(run) && i <= j < |run| && run[i].LeaderIn(n, term) && run[j].LeaderIn(n, term)
    ensures n in run[i].reps && n in run[j].reps
    ensures run[i].reps[n].log <= run[j].reps[n].log
  {
    hide Run, Inv, Linked;
    var hs := RunHasRecord(run);
    ChainExtends(run, hs, i, j);
    LeaderIsWinner(run[i], hs[i], n, term);
    LeaderIsWinner(run[j], hs[j], n, term);
  }

  /** `matchIndex_` is sound for as long as the follower stays in the leader's term. */
  lemma MatchIndexSound(run: seq<Sys>, i: nat, j: nat, n: Id, p: Id, term: nat)
    requires Run(run) && i <= j < |run| && run[i].LeaderIn(n, term)
    requires n in run[i].reps && p in run[i].reps[n].matched
    requires p in run[j].e.nodes && run[j].e.nodes[p].term == term
    ensures p in run[j].reps
    ensures run[i].reps[n].matched[p] >= 0
    ensures Agree(run[j].reps[p].log, run[i].reps[n].log, run[i].reps[n].matched[p])
  {
    hide Run, Inv, Linked, LogInv, StoreOK, ReadsOK, LogsOK, NetOK, PointsOK, LeadersKeep, Shape, RolesOK;
    var hs := RunHasRecord(run);
    ChainExtends(run, hs, i, j);
    LeaderIsWinner(run[i], hs[i], n, term);
    Parts(run[i], hs[i]);
    Parts(run[j], hs[j]);
    StoredAt(run[i], hs[i], p, term);
    StoredAt(run[j], hs[j], p, term);
  }

  /** Every request in flight verifies at least as much as it commits. */
  lemma CommitNeverOutruns(run: seq<Sys>, i: nat, a: Append)
    requires Run(run) && i < |run| && AppendEntries(a) in run[i].net
    ensures a.leaderCommit <= a.prev + |a.entries|
  {
    hide Run, Inv, Linked, LogInv, StoreOK, ReadsOK, LogsOK, PointsOK, LeadersKeep, Shape, RolesOK, StoredOK, PeersOK,
      AppendOK;
    var hs := RunHasRecord(run);
    assert Inv(run[i], hs[i]);
    Parts(run[i], hs[i]);
    assert MessageOK(run[i], hs[i], AppendEntries(a));
    AppendCommit(run[i], hs[i], a);
  }

  /** ... so the follower's minimum with its own last index never bites: it commits what the leader committed, all of
      it stored by this very request or before it, whatever tail the follower keeps beyond. */
  lemma CommitsOnlyVerified(run: seq<Sys>, i: nat, a: Append)
    requires Run(run) && i < |run| && AppendEntries(a) in run[i].net && a.dst in run[i].reps
    requires PrevMatches(run[i].reps[a.dst].log, a) && a.leaderCommit > run[i].reps[a.dst].commit
    ensures var r := Receive(run[i].reps[a.dst], a);
      && r.commit == a.leaderCommit <= a.prev + |a.entries| <= |r.log|
      && Agree(r.log, run[i].reps[a.dst].log, a.prev)
      && forall k | 0 <= k < |a.entries| :: r.log[a.prev + k].term == a.entries[k].term
  {
    hide Run, Merge;
    CommitNeverOutruns(run, i, a);
    MergeStores(run[i].reps[a.dst].log, a.prev, a.entries);
  }

  // ---- committed entries ----

  lemma CommitSoundLater(run: seq<Sys>, hs: seq<History>, i: nat, j: nat, n: Id)
    requires Chain(run, hs) && i <= j < |run| && n in run[i].reps
    ensures n in run[i].e.nodes
    ensures CommitOK(hs[j], run[i].reps[n].log, run[i].reps[n].commit, run[i].e.nodes[n].term)
  {
    assert Inv(run[i], hs[i]);
    hide Inv, Linked, LogInv, StoreOK, ReadsOK, CommitOK, LogsGrow, Shape, RolesOK, StoredOK, NetOK, PeersOK,
      PointsOK, LeadersKeep;
    Parts(run[i], hs[i]);
    CommitOf(run[i], hs[i], n);
    ChainExtends(run, hs, i, j);
    var rep, t := run[i].reps[n], run[i].e.nodes[n].term;
    CommitFits(hs[i], rep.log, rep.commit, t);
    CommitOKStays(hs[i], hs[j], rep.log, rep.log, rep.commit, t, t);
  }

  /** State Machine Safety: what two nodes consider committed agrees, at whatever times one looks. */
  lemma StateMachineSafety(run: seq<Sys>, i: nat, j: nat, a: Id, b: Id)
    requires Run(run) && i < |run| && j < |run| && a in run[i].reps && b in run[j].reps
    ensures var ra, rb := run[i].reps[a], run[j].reps[b];
      Agree(ra.log, rb.log, if ra.commit <= rb.commit then ra.commit else rb.commit)
  {
    hide Run, Inv, Linked, LogInv, StoreOK, ReadsOK, CommitOK, LogsOK, Shape, RolesOK, StoredOK, NetOK, PeersOK,
      PointsOK, LeadersKeep;
    var hs := RunHasRecord(run);
    var m := if i <= j then j else i;
    CommitSoundLater(run, hs, i, m, a);
    CommitSoundLater(run, hs, j, m, b);
    assert Inv(run[m], hs[m]);
    Parts(run[m], hs[m]);
    CommitsAgree(run[m], hs[m], run[i].reps[a].log, run[i].reps[a].commit, run[i].e.nodes[a].term,
                 run[j].reps[b].log, run[j].reps[b].commit, run[j].e.nodes[b].term);
  }

  /** Leader Completeness: a leader of a later term holds every entry committed in an earlier one,
      and holds it from the start of its term. */
  lemma LeaderCompleteness(run: seq<Sys>, i: nat, j: nat, a: Id, b: Id)
    requires Run(run) && i < |run| && j < |run|
    requires a in run[i].reps && a in run[i].e.nodes && b in run[j].reps && b in run[j].e.nodes
    requires run[j].e.nodes[b].role == Leader && run[i].e.nodes[a].term < run[j].e.nodes[b].term
    ensures Agree(run[i].reps[a].log, run[j].reps[b].log, run[i].reps[a].commit)
  {
    var t := run[j].e.nodes[b].term;
    hide Run, Inv, Linked, LogInv, StoreOK, ReadsOK, CommitOK, LogsOK, Shape, RolesOK, StoredOK, NetOK, PeersOK,
      PointsOK, LeadersKeep,
      TermLogOK;
    var hs := RunHasRecord(run);
    var m := if i <= j then j else i;
    CommitSoundLater(run, hs, i, m, a);
    LeaderIsWinner(run[j], hs[j], b, t);
    ChainExtends(run, hs, j, m);
    assert Inv(run[m], hs[m]);
    HeldByLeader(run[m], hs[m], hs[j], run[i].reps[a].log, run[i].reps[a].commit, run[i].e.nodes[a].term, t) by {
      TermLogsSound(run[j], hs[j]);
    }
  }

  lemma HeldByLeader(s: Sys, h: History, earlier: History, log: seq<LogEntry>, c: nat, term: nat, t: nat)
    requires Inv(s, h) && LogsGrow(earlier, h) && t in earlier.logs && TermLogOK(earlier, t)
    requires CommitOK(h, log, c, term) && term < t
    ensures Agree(log, earlier.logs[t].log, c)
  {
    hide Inv, LogInv, StoreOK, ReadsOK, CommitOK, LogsOK, Shape, RolesOK, StoredOK, NetOK, PeersOK, PointsOK,
      LeadersKeep, TermLogOK;
    Parts(s, h);
    TermLogsSound(s, h);
    CommittedInLeader(s, h, log, c, term, t);
    BaseIsPrefix(earlier, t);
  }

  lemma BaseIsPrefix(h: History, t: nat)
    requires t in h.logs && TermLogOK(h, t)
    ensures |h.logs[t].base| <= |h.logs[t].log|
  {
  }

  // ---- reads ----

  /** Linearizable reads. A read that begins in step i and completes in step j returns the value its
      leader's log gives to the key, and that log covers everything any node had committed at any moment up to the
      beginning of the read, commit indexes that a crash has reset since included. */
  lemma LinearizableRead(run: seq<Sys>, i: nat, j: nat, r: nat, v: Option<string>)
    requires Run(run) && i < j < |run| - 1
    requires r !in run[i].calls && r in run[i + 1].calls
    requires r in run[j].calls && !run[j].calls[r].phase.Done? && r in run[j + 1].calls && run[j + 1].calls[r].phase == Done(v)
    ensures var rd := run[j].calls[r];
      && rd.node in run[j].reps
      && var rep := run[j].reps[rd.node];
      && rep.applied <= |rep.log|
      && v == Get(Fold(rep.log[..rep.applied]), rd.key)
      && forall k, a | 0 <= k <= i && a in run[k].reps ::
           run[k].reps[a].commit <= rep.applied && Agree(run[k].reps[a].log, rep.log, run[k].reps[a].commit)
  {
    hide Run, Inv, Linked, Fold;
    var hs := RunHasRecord(run);
    assert Linked(run[i], hs[i], run[i + 1], hs[i + 1]) && Inv(run[i], hs[i]);
    ReadStarts(run[i], hs[i], run[i + 1], hs[i + 1], r);
    ChainExtends(run, hs, i + 1, j);
    assert Linked(run[j], hs[j], run[j + 1], hs[j + 1]) && Inv(run[j], hs[j]);
    ReadEnds(run[j], hs[j], run[j + 1], hs[j + 1], r, v);
    forall k, a | 0 <= k <= i && a in run[k].reps
      ensures run[k].reps[a].commit <= run[j].reps[run[j].calls[r].node].applied
      ensures Agree(run[k].reps[a].log, run[j].reps[run[j].calls[r].node].log, run[k].reps[a].commit)
    {
      EarlierCommitIsCovered(run, hs, k, i, j, r, a);
    }
  }

  lemma ReadStarts(s: Sys, h: History, s': Sys, h': History, r: nat)
    requires Inv(s, h) && Linked(s, h, s', h') && r !in s.calls && r in s'.calls
    ensures r in h'.marks && h'.marks[r].points == h.points && h'.points == h.points && h'.logs == h.logs && s'.reps == s.reps
    ensures h'.marks[r].terms.Keys == s.e.nodes.Keys
  {
    hide LogInv, StoreOK, ReadsOK, NextStep, Record;
    var step :| NextStep(s, s', step) && h' == Record(s, h, step);
    CallsStay(s, s', step);
    BeginFacts(s, h, s', step);
  }

  lemma FinishFacts(s: Sys, s': Sys, step: Step, r: nat, v: Option<string>)
    requires NextStep(s, s', step) && r in s.calls && !s.calls[r].phase.Done? && r in s'.calls && s'.calls[r].phase == Done(v)
    ensures var rd := s.calls[r];
      && rd.phase == Applied && s.LeaderIn(rd.node, rd.term) && rd.node in s.reps && v == Get(s.reps[rd.node].store, rd.key)
  {
    hide VoteStep, LogStep, OtherStep, E.NextStep, MakeReadBeat, Propose, LearnIfNewer, Get, TermAt;
    CallsStay(s, s', step);
  }

  lemma ReadEnds(s: Sys, h: History, s': Sys, h': History, r: nat, v: Option<string>)
    requires Inv(s, h) && Linked(s, h, s', h')
    requires r in s.calls && !s.calls[r].phase.Done? && r in s'.calls && s'.calls[r].phase == Done(v)
    ensures var rd := s.calls[r];
      && rd.phase == Applied && s.LeaderIn(rd.node, rd.term) && rd.node in s.reps
      && var rep := s.reps[rd.node];
      rep.applied <= |rep.log| && v == Get(Fold(rep.log[..rep.applied]), rd.key)
  {
    hide LogInv, StoreOK, ReadsOK, NextStep, Record, CallOK, MarkOK, Fold, Linked, Inv;
    FinishedRead(s, h, s', h', r, v);
    Parts(s, h);
    MarksAreCalls(s, h);
    CallOf(s, h, r);
    FinishedReadValue(s, h, h.marks[r], s.calls[r]);
  }

  lemma FinishedRead(s: Sys, h: History, s': Sys, h': History, r: nat, v: Option<string>)
    requires Linked(s, h, s', h')
    requires r in s.calls && !s.calls[r].phase.Done? && r in s'.calls && s'.calls[r].phase == Done(v)
    ensures var rd := s.calls[r];
      && rd.phase == Applied && s.LeaderIn(rd.node, rd.term) && rd.node in s.reps && v == Get(s.reps[rd.node].store, rd.key)
  {
    hide NextStep, Record;
    var step :| NextStep(s, s', step) && h' == Record(s, h, step);
    FinishFacts(s, s', step, r, v);
  }

  lemma MarksAreCalls(s: Sys, h: History)
    requires Inv(s, h)
    ensures h.marks.Keys == s.calls.Keys
  {
    hide LogInv, StoreOK, ReadsOK;
    CfgIsNodes(s, h);
  }

  /** What was committed in step k is committed in the record of step i, whatever its node knows of it by then. */
  lemma EarlierCommitIsCovered(run: seq<Sys>, hs: seq<History>, k: nat, i: nat, j: nat, r: nat, a: Id)
    requires Chain(run, hs) && k <= i < j < |run| && a in run[k].reps
    requires r in hs[i + 1].marks && hs[i + 1].marks[r].points == hs[i].points
    requires r in run[j].calls && run[j].calls[r].phase == Applied && run[j].LeaderIn(run[j].calls[r].node, run[j].calls[r].term)
    ensures var rd := run[j].calls[r];
      && rd.node in run[j].reps && run[k].reps[a].commit <= run[j].reps[rd.node].applied
      && Agree(run[k].reps[a].log, run[j].reps[rd.node].log, run[k].reps[a].commit)
  {
    hide Inv, Linked, CommitOK, Extends;
    assert Inv(run[j], hs[j]);
    ChainExtends(run, hs, i + 1, j);
    ChainExtends(run, hs, i, j);
    CommitSoundLater(run, hs, k, i, a);
    MarkCovers(run[j], hs[j], hs[i], hs[i + 1], r, run[k].reps[a].log, run[k].reps[a].commit, run[k].e.nodes[a].term);
  }

  lemma MarkCovers(s: Sys, h: History, start: History, marked: History, r: nat, log: seq<LogEntry>, c: nat, term: nat)
    requires Inv(s, h) && Extends(start, h) && Extends(marked, h)
    requires CommitOK(start, log, c, term)
    requires r in marked.marks && marked.marks[r].points == start.points
    requires r in s.calls && s.calls[r].phase == Applied && s.LeaderIn(s.calls[r].node, s.calls[r].term)
    ensures var rd := s.calls[r];
      && rd.node in s.reps && c <= s.reps[rd.node].applied && Agree(log, s.reps[rd.node].log, c)
  {
    hide *;
    MarkPersists(marked, h, r);
    if c > 0 {
      var p := StartPoint(start, h, log, c, term);
      PointCovered(s, h, r, log, c, p);
    } else {
      NothingToCover(s, h, r, log);
    }
  }

  lemma PointCovered(s: Sys, h: History, r: nat, log: seq<LogEntry>, c: nat, p: Point)
    requires Inv(s, h) && r in h.marks && p in h.marks[r].points && Covered(h, log, c, p)
    requires r in s.calls && s.calls[r].phase == Applied && s.LeaderIn(s.calls[r].node, s.calls[r].term)
    ensures s.calls[r].node in s.reps && c <= s.reps[s.calls[r].node].applied && Agree(log, s.reps[s.calls[r].node].log, c)
  {
    hide *;
    ReadCall(s, h, r);
    FinishedReadCovers(s, h, h.marks[r], s.calls[r], log, c, p);
  }

  lemma NothingToCover(s: Sys, h: History, r: nat, log: seq<LogEntry>)
    requires Inv(s, h) && r in h.marks && r in s.calls
    ensures s.calls[r].node in s.reps && Agree(log, s.reps[s.calls[r].node].log, 0)
  {
    hide Inv, MarkOK, CallOK;
    ReadCall(s, h, r);
    MarkedNode(s, h, h.marks[r], s.calls[r], log);
  }

  lemma ReadCall(s: Sys, h: History, r: nat)
    requires Inv(s, h) && r in s.calls && r in h.marks
    ensures LogInv(s, h) && StoreOK(s, h) && MarkOK(s, h, h.marks[r], s.calls[r]) && CallOK(s, h, h.marks[r], s.calls[r])
  {
    hide LogInv, StoreOK, ReadsOK, MarkOK, CallOK;
    CallOf(s, h, r);
  }

  lemma MarkPersists(marked: History, h: History, r: nat)
    requires Extends(marked, h) && r in marked.marks
    ensures r in h.marks && h.marks[r] == marked.marks[r]
  {
  }

  lemma StartPoint(start: History, h: History, log: seq<LogEntry>, c: nat, term: nat) returns (p: Point)
    requires Extends(start, h) && CommitOK(start, log, c, term)
    ensures c > 0 ==> p in start.points && Covered(h, log, c, p)
  {
    p := Point(0, 0);
    if c > 0 {
      p :| Covered(start, log, c, p);
      assert Covered(h, log, c, p);
    }
  }

  lemma MarkedNode(s: Sys, h: History, k: Mark, rd: Read, log: seq<LogEntry>)
    requires CallOK(s, h, k, rd)
    ensures rd.node in s.reps && Agree(log, s.reps[rd.node].log, 0)
  {
  }
}
