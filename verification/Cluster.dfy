/**
 The whole cluster as a transition system: voting nodes in the middle of one membership change, or in a fixed
 configuration (both configurations equal). Voting is the Election system; a Replica is the rest of a node, with its
 whole log, compacted or not, and the boundary up to which it is compacted. One step is one critical section of one node,
 or less: applying an entry, taking a configuration into effect, compacting, or as much as a crash leaves done are steps
 of their own, and a snapshot that is installed is a request for its entries and then the database.
 */
module Protocol {
  import opened Types
  import opened Quorum
  import E = Election

  /** `store` is the key-value database; like the log and the boundary, it survives a crash. */
  datatype Replica = Replica(
    log: seq<LogEntry>, commit: nat, applied: nat, boundary: nat,
    next: map<Id, int>, matched: map<Id, int>, store: map<string, string>)

  /** One AppendEntries request. `call` names the read that waits for the reply, if one does. */
  datatype Append = Append(
    src: Id, dst: Id, term: nat, prev: nat, prevTerm: int,
    entries: seq<LogEntry>, leaderCommit: nat, call: Option<nat>)

  /** A reply carries its request, because it is read on the connection the request was sent on; an InstallReply as much
      of it as matters, the boundary `base`. A snapshot is the database as it was when its sender had applied `upto`. */
  datatype Message =
    | RequestVote(cand: Id, term: nat, lastIndex: nat, lastTerm: int)
    | VoteReply(voter: Id, cand: Id, asked: nat, term: nat, granted: bool)
    | AppendEntries(a: Append)
    | AppendReply(a: Append, term: nat, success: bool)
    | Install(src: Id, dst: Id, term: nat, base: nat, baseTerm: int, store: map<string, string>, upto: nat)
    | InstallReply(src: Id, dst: Id, asked: nat, term: nat, base: nat)

  /** Where a call of the linearizable read stands. */
  datatype Phase = Checking | Proposed | Ensured | Confirming | Confirmed | Applied | Done(result: Option<string>) | Failed

  datatype Read = Read(node: Id, term: nat, key: string, phase: Phase, noop: nat, index: nat, acks: set<Id>)

  datatype Sys = Sys(e: E.Cluster, reps: map<Id, Replica>, net: set<Message>, calls: map<nat, Read>)
  {
    ghost predicate LeaderIn(n: Id, term: nat) {
      n in e.nodes && e.nodes[n].role == Leader && e.nodes[n].term == term
    }
  }

  // ---- the key-value state machine ----

  function Fold(log: seq<LogEntry>): map<string, string> {
    if log == [] then map[] else ApplyToStore(Fold(log[..|log| - 1]), log[|log| - 1])
  }

  function Get(store: map<string, string>, key: string): Option<string> {
    if key in store then Some(store[key]) else None
  }

  // ---- log operations ----

  predicate UpToDate(lastIndex: nat, lastTerm: int, log: seq<LogEntry>) {
    if lastTerm != LastTerm(log) then lastTerm > LastTerm(log) else lastIndex >= |log|
  }

  /** What the AppendEntries loop does with entries that follow position `prev`. */
  function Merge(log: seq<LogEntry>, prev: nat, entries: seq<LogEntry>): seq<LogEntry>
    requires prev <= |log|
    decreases |entries|
  {
    if entries == [] then log
    else if prev == |log| then Merge(log + [entries[0]], prev + 1, entries[1..])
    else if log[prev].term != entries[0].term then Merge(log[..prev] + [entries[0]], prev + 1, entries[1..])
    else Merge(log, prev + 1, entries[1..])
  }

  predicate PrevMatches(log: seq<LogEntry>, a: Append) {
    a.prev <= |log| && TermAt(log, a.prev) == a.prevTerm
  }

  function Receive(r: Replica, a: Append): Replica
    requires a.prev <= |r.log|
  {
    var log := Merge(r.log, a.prev, a.entries);
    r.(log := log, commit := if a.leaderCommit > r.commit
                             then (if a.leaderCommit < |log| then a.leaderCommit else |log|)
                             else r.commit)
  }

  function NewLeader(r: Replica, peers: set<Id>): Replica {
    r.(next := map p | p in peers :: |r.log| + 1, matched := map p | p in peers :: 0)
  }

  function OwnEntry(r: Replica, term: nat, op: CommandType, key: string, value: string, oldCfg: seq<PeerInfo>,
      newCfg: seq<PeerInfo>): LogEntry {
    LogEntry(term, |r.log| + 1, op, key, value, oldCfg, newCfg)
  }

  function Propose(r: Replica, term: nat, op: CommandType, key: string, value: string, oldCfg: seq<PeerInfo>,
      newCfg: seq<PeerInfo>): Replica {
    r.(log := r.log + [OwnEntry(r, term, op, key, value, oldCfg, newCfg)])
  }

  /** The request for peer `p`: everything from `nextIndex_[p]` on. */
  function MakeAppend(r: Replica, n: Id, p: Id, term: nat): Append
    requires p in r.next && r.next[p] >= 1
  {
    var prev := r.next[p] - 1;
    Append(n, p, term, prev, TermAt(r.log, prev), if prev <= |r.log| then r.log[prev..] else [], r.commit, None)
  }

  function MakeReadBeat(r: Replica, n: Id, p: Id, term: nat, call: nat): Append {
    Append(n, p, term, |r.log|, LastTerm(r.log), [], r.commit, Some(call))
  }

  function TakeSuccess(r: Replica, a: Append): Replica
    requires a.dst in r.matched
  {
    var sent := a.prev + |a.entries|;
    var m := if r.matched[a.dst] >= sent then r.matched[a.dst] else sent;
    r.(matched := r.matched[a.dst := m], next := r.next[a.dst := m + 1])
  }

  /** One step back, but not below the leader's snapshot boundary. */
  function TakeFailure(r: Replica, a: Append): Replica
    requires a.dst in r.next
  {
    r.(next := r.next[a.dst := if r.next[a.dst] > r.boundary + 1 then r.next[a.dst] - 1 else r.boundary])
  }

  /** The entries a snapshot stands for, as a request. */
  function Slice(src: Id, dst: Id, term: nat, log: seq<LogEntry>, base: nat): Append
    requires base <= |log|
  {
    Append(src, dst, term, 0, 0, log[..base], base, None)
  }

  function MakeInstall(r: Replica, n: Id, p: Id, term: nat): Message {
    Install(n, p, term, r.boundary, TermAt(r.log, r.boundary), r.store, r.applied)
  }

  /** The database of a snapshot takes the place of the node's own; unless the process dies just then, its boundary too. */
  function TakeStore(r: Replica, m: Message, whole: bool): Replica
    requires m.Install?
  {
    if whole then r.(applied := if r.applied >= m.base then r.applied else m.base, boundary := m.base, store := m.store)
    else r.(store := m.store)
  }

  /** The leader counts its boundary of this moment. */
  function TakeInstalled(r: Replica, p: Id): Replica
    requires p in r.matched
  {
    r.(next := r.next[p := r.boundary + 1], matched := r.matched[p := if r.matched[p] >= r.boundary then r.matched[p] else r.boundary])
  }

  /** Who counts as holding entry `i`: the leader itself, and the peers matched that far. */
  ghost function Holders(r: Replica, self: Id, all: set<Id>, i: int): set<Id> {
    set q | q in all && (if q == self then |r.log| >= i else q in r.matched && r.matched[q] >= i)
  }

  /** A joint entry is judged by both configurations, any other by those the leader is at. */
  function CommitMode(mode: E.Mode, e: LogEntry): E.Mode {
    if e.op == CONFIG_JOINT then E.Joint else mode
  }

  ghost predicate Committable(r: Replica, self: Id, c: E.Cluster, mode: E.Mode, term: nat, i: int) {
    && r.commit < i <= |r.log|
    && r.log[i - 1].term == term
    && E.HasElectionMajority(c, CommitMode(mode, r.log[i - 1]), Holders(r, self, c.nodes.Keys, i))
  }

  // ---- steps ----

  datatype Step =
    | StartElection(n: Id)
    | HandleVote(n: Id, m: Message)
    | CountVote(n: Id, m: Message)
    | ClientAppend(n: Id, op: CommandType, key: string, value: string, oldCfg: seq<PeerInfo>, newCfg: seq<PeerInfo>)
    | SendAppend(n: Id, p: Id)
    | HandleAppend(n: Id, a: Append)
    | TakeAppendReply(n: Id, m: Message)
    | AdvanceCommit(n: Id, i: nat)
    | ApplyOne(n: Id)
    | Compact(n: Id)
    | SendSnapshot(n: Id, p: Id)
    | TakeDump(n: Id, m: Message, whole: bool)
    | AnswerInstall(n: Id, m: Message, a: Append)
    | TakeInstallReply(n: Id, m: Message)
    | OnlyLearnTerm(n: Id, m: Message)
    | Restart(n: Id, mode: E.Mode)
    | ChangeMode(n: Id, mode: E.Mode, leave: bool)
    | IgnoreVote(n: Id, m: Message)
    | IgnoreAppend(n: Id, a: Append)
    | ReadBegin(r: nat, n: Id, key: string)
    | ReadEnsure(r: nat)
    | ReadPropose(r: nat)
    | ReadCheckProposed(r: nat)
    | ReadTakeIndex(r: nat)
    | ReadBeat(r: nat, p: Id)
    | ReadAck(r: nat, m: Message)
    | ReadConfirm(r: nat, mode: E.Mode)
    | ReadWait(r: nat)
    | ReadFinish(r: nat)
    | ReadGiveUp(r: nat)

  ghost predicate Change(s: Sys, s': Sys, es: E.Step, reps: map<Id, Replica>, net: set<Message>,
      calls: map<nat, Read>) {
    && E.NextStep(s.e, s'.e, es)
    && s'.reps == reps && s'.net == net && s'.calls == calls
  }

  /** A voter refuses a stale candidate, one it has no vote left for, or one with an older log. */
  predicate Grants(v: E.Voter, log: seq<LogEntry>, cand: Id, term: nat, lastIndex: nat, lastTerm: int) {
    && term >= v.term
    && E.CanVote(if term > v.term then E.BecomeFollower(v, term) else v, cand)
    && UpToDate(lastIndex, lastTerm, log)
  }

  function LearnIfNewer(v: E.Voter, n: Id, term: nat): E.Step {
    if term > v.term then E.LearnTerm(n, term) else E.Idle
  }

  ghost predicate VoteStep(s: Sys, s': Sys, step: Step)
    requires step.StartElection? || step.HandleVote? || step.CountVote?
  {
    && step.n in s.e.nodes && step.n in s.reps
    && var n := step.n;
    && var v, rep := s.e.nodes[n], s.reps[n];
    match step
    case StartElection(_) =>
      Change(s, s', E.StartElection(n), s.reps,
             s.net + {RequestVote(n, v.term + 1, |rep.log|, LastTerm(rep.log))}, s.calls)
    case HandleVote(_, m) =>
      && m in s.net && m.RequestVote? && m.cand != n && m.cand in s.e.nodes
      && var grant := Grants(v, rep.log, m.cand, m.term, m.lastIndex, m.lastTerm);
      Change(s, s',
             if grant then E.GrantVote(n, m.cand, m.term) else LearnIfNewer(v, n, m.term), s.reps,
             s.net + {VoteReply(n, m.cand, m.term, if grant then m.term else v.term, grant)}, s.calls)
    case CountVote(_, m) =>
      && m in s.net && m.VoteReply? && m.cand == n && m.voter in s.e.nodes
      && v.role == Candidate && v.term == m.asked
      && Change(s, s',
                if m.term > v.term then E.LearnTerm(n, m.term)
                else if m.granted then E.CountVote(n, m.voter) else E.Idle,
                if m.term <= v.term && m.granted && E.HasElectionMajority(s.e, v.mode, v.granted + {m.voter})
                then s.reps[n := NewLeader(rep, E.Active(s.e, v.mode) - {n})] else s.reps,
                s.net, s.calls)
  }

  ghost predicate LogStep(s: Sys, s': Sys, step: Step)
    requires step.ClientAppend? || step.SendAppend? || step.HandleAppend? || step.TakeAppendReply? ||
             step.AdvanceCommit? || step.ApplyOne?
  {
    && step.n in s.e.nodes && step.n in s.reps
    && var n := step.n;
    && var v, rep := s.e.nodes[n], s.reps[n];
    match step
    case ClientAppend(_, op, key, value, oldCfg, newCfg) =>
      && v.role == Leader
      && Change(s, s', E.Idle, s.reps[n := Propose(rep, v.term, op, key, value, oldCfg, newCfg)], s.net, s.calls)
    case SendAppend(_, p) =>
      && v.role == Leader && p in E.Active(s.e, v.mode) - {n} && p in rep.next && rep.next[p] >= 1
      && Change(s, s', E.SendBeat(n, p), s.reps, s.net + {AppendEntries(MakeAppend(rep, n, p, v.term))}, s.calls)
    case HandleAppend(_, a) =>
      && AppendEntries(a) in s.net && a.dst == n
      && var ok := a.term >= v.term && PrevMatches(rep.log, a);
      Change(s, s',
             if a.term >= v.term then E.HandleBeat(n, E.Beat(a.src, a.term, n)) else E.Idle,
             if ok then s.reps[n := Receive(rep, a)] else s.reps,
             s.net + {AppendReply(a, if ok then a.term else v.term, ok)}, s.calls)
    case TakeAppendReply(_, m) =>
      && m in s.net && m.AppendReply? && m.a.src == n && m.a.call == None
      && v.role == Leader && v.term == m.a.term
      && m.a.dst in rep.next && m.a.dst in rep.matched && rep.boundary <= |rep.log|
      && Change(s, s', LearnIfNewer(v, n, m.term),
                if m.term > v.term then s.reps
                else s.reps[n := if m.success then TakeSuccess(rep, m.a) else TakeFailure(rep, m.a)],
                s.net, s.calls)
    case AdvanceCommit(_, i) =>
      && v.role == Leader
      && Committable(rep, n, s.e, v.mode, v.term, i)
      && (forall j :: Committable(rep, n, s.e, v.mode, v.term, j) ==> j <= i)
      && Change(s, s', E.Idle, s.reps[n := rep.(commit := i)], s.net, s.calls)
    case ApplyOne(_) =>
      && rep.applied < rep.commit && rep.applied < |rep.log|
      && Change(s, s', E.Idle,
                s.reps[n := rep.(applied := rep.applied + 1, store := ApplyToStore(rep.store, rep.log[rep.applied]))],
                s.net, s.calls)
  }

  function FailReads(calls: map<nat, Read>, n: Id): map<nat, Read> {
    map r | r in calls :: if calls[r].node == n && !calls[r].phase.Done? then calls[r].(phase := Failed) else calls[r]
  }

  predicate IsOther(step: Step) {
    step.Compact? || step.SendSnapshot? || step.TakeDump? || step.AnswerInstall? || step.TakeInstallReply? || step.OnlyLearnTerm? ||
    step.Restart? || step.ChangeMode? || step.IgnoreVote? || step.IgnoreAppend?
  }

  /** Compaction and snapshots, crashes, handlers cut short by a crash, changes of configuration. */
  ghost predicate OtherStep(s: Sys, s': Sys, step: Step)
    requires IsOther(step)
  {
    && step.n in s.e.nodes && step.n in s.reps
    && var n := step.n;
    && var v, rep := s.e.nodes[n], s.reps[n];
    match step
    case Compact(_) =>
      && rep.boundary <= rep.applied == rep.commit
      && Change(s, s', E.Idle, s.reps[n := rep.(boundary := rep.applied)], s.net, s.calls)
    case SendSnapshot(_, p) =>
      && v.role == Leader && p in E.Active(s.e, v.mode) - {n}
      && rep.boundary <= rep.applied && rep.boundary <= rep.commit && rep.boundary <= |rep.log|
      && Change(s, s', E.SendBeat(n, p), s.reps,
                s.net + {AppendEntries(Slice(n, p, v.term, rep.log, rep.boundary)), MakeInstall(rep, n, p, v.term)}, s.calls)
    // A follower that has applied no more than the sender of the database had takes that, and goes on from the boundary
    // once it has the entries up to there.
    case TakeDump(_, m, whole) =>
      && m in s.net && m.Install? && m.dst == n && v.role == Follower && m.term <= v.term && rep.applied <= m.upto
      && (whole ==> rep.boundary <= m.base <= rep.commit)
      && Change(s, s', E.Idle, s.reps[n := TakeStore(rep, m, whole)], s.net, s.calls)
    // The reply of a node that has moved on, or has taken the entries.
    case AnswerInstall(_, m, a) =>
      && m in s.net && m.Install? && m.dst == n
      && (v.term > m.term ||
          (a.dst == n && a.term == m.term && a.prev == 0 && |a.entries| == m.base && AppendReply(a, m.term, true) in s.net))
      && Change(s, s', E.Idle, s.reps,
                s.net + {InstallReply(m.src, n, m.term, if v.term > m.term then v.term else m.term, m.base)}, s.calls)
    // The leader's boundary is what the peer was sent, or no more than it is known to hold.
    case TakeInstallReply(_, m) =>
      && m in s.net && m.InstallReply? && m.src == n
      && v.role == Leader && v.term == m.asked && m.dst in rep.next && m.dst in rep.matched && rep.boundary <= |rep.log|
      && (m.term > v.term || rep.boundary <= m.base || rep.boundary <= rep.matched[m.dst])
      && Change(s, s', LearnIfNewer(v, n, m.term),
                if m.term > v.term then s.reps else s.reps[n := TakeInstalled(rep, m.dst)], s.net, s.calls)
    // The handler persisted the new term and the process died before doing more.
    case OnlyLearnTerm(_, m) =>
      && m in s.net
      && match m {
           case RequestVote(_, term, _, _) => Change(s, s', LearnIfNewer(v, n, term), s.reps, s.net, s.calls)
           case AppendEntries(a) =>
             && a.dst == n && a.term >= v.term
             && Change(s, s', E.HandleBeat(n, E.Beat(a.src, a.term, n)), s.reps, s.net, s.calls)
           case _ => false
         }
    // Whoever does not vote, or does not know the sender as a member, refuses without looking at the request.
    case IgnoreVote(_, m) =>
      && m in s.net && m.RequestVote?
      && Change(s, s', E.Idle, s.reps, s.net + {VoteReply(n, m.cand, m.term, v.term, false)}, s.calls)
    case IgnoreAppend(_, a) =>
      && AppendEntries(a) in s.net && a.dst == n
      && Change(s, s', E.Idle, s.reps, s.net + {AppendReply(a, v.term, false)}, s.calls)
    // A configuration takes effect: a leader starts over with its new peers.
    case ChangeMode(_, mode, leave) =>
      Change(s, s', E.ChangeMode(n, mode, leave),
             if v.role == Leader then s.reps[n := NewLeader(rep, E.Active(s.e, mode) - {n})] else s.reps, s.net, s.calls)
    case Restart(_, mode) =>
      && rep.boundary <= rep.commit && rep.boundary <= rep.applied
      && Change(s, s', E.Restart(n, mode),
                s.reps[n := rep.(commit := rep.boundary, applied := rep.boundary, next := map[], matched := map[])],
                s.net, FailReads(s.calls, n))
  }

  ghost predicate SetPhase(s: Sys, s': Sys, r: nat, rd: Read) {
    Change(s, s', E.Idle, s.reps, s.net, s.calls[r := rd])
  }

  /** The steps of one read. A call may give up at any point; it may also go on to propose a
      no-op although the check before it could have succeeded. */
  ghost predicate ReadStep(s: Sys, s': Sys, step: Step)
    requires step.ReadEnsure? || step.ReadPropose? || step.ReadCheckProposed? || step.ReadTakeIndex? ||
             step.ReadBeat? || step.ReadAck? || step.ReadConfirm? || step.ReadWait? || step.ReadFinish? || step.ReadGiveUp?
  {
    && step.r in s.calls
    && s.calls[step.r].node in s.e.nodes && s.calls[step.r].node in s.reps
    && var r := step.r;
    && var rd := s.calls[r];
    && var v, rep := s.e.nodes[rd.node], s.reps[rd.node];
    match step
    case ReadEnsure(_) =>
      && rd.phase == Checking && v.role == Leader
      && rep.commit > 0 && TermAt(rep.log, rep.commit) == v.term
      && SetPhase(s, s', r, rd.(phase := Ensured))
    case ReadPropose(_) =>
      && rd.phase == Checking && v.role == Leader
      && Change(s, s', E.Idle, s.reps[rd.node := Propose(rep, v.term, NONE, "__noop__", "__noop__", [], [])], s.net,
                s.calls[r := rd.(phase := Proposed, noop := |rep.log| + 1)])
    case ReadCheckProposed(_) =>
      && rd.phase == Proposed
      && rep.commit >= rd.noop && TermAt(rep.log, rep.commit) == v.term
      && SetPhase(s, s', r, rd.(phase := Ensured))
    case ReadTakeIndex(_) =>
      && rd.phase == Ensured && v.role == Leader && v.term == rd.term
      && SetPhase(s, s', r, rd.(phase := Confirming, index := rep.commit))
    // A round asks the peers it started with, whichever configuration the leader has come to since.
    case ReadBeat(_, p) =>
      && rd.phase == Confirming && v.role == Leader && v.term == rd.term && p in s.e.nodes && p != rd.node
      && Change(s, s', E.SendBeat(rd.node, p), s.reps,
                s.net + {AppendEntries(MakeReadBeat(rep, rd.node, p, v.term, r))}, s.calls)
    case ReadAck(_, m) =>
      && rd.phase == Confirming && m in s.net && m.AppendReply? && m.a.src == rd.node && m.a.call == Some(r)
      && Change(s, s', LearnIfNewer(v, rd.node, m.term), s.reps, s.net,
                s.calls[r := if m.term > v.term || v.role != Leader || v.term != rd.term then rd.(phase := Failed)
                             else if m.success then rd.(acks := rd.acks + {m.a.dst})
                             else rd])
    case ReadConfirm(_, mode) =>
      && rd.phase == Confirming && Majority(rd.acks + {rd.node}, E.Active(s.e, mode))
      && SetPhase(s, s', r, rd.(phase := Confirmed))
    case ReadWait(_) =>
      && rd.phase == Confirmed && v.role == Leader && v.term == rd.term && rep.applied >= rd.index
      && SetPhase(s, s', r, rd.(phase := Applied))
    case ReadFinish(_) =>
      && rd.phase == Applied && v.role == Leader && v.term == rd.term
      && SetPhase(s, s', r, rd.(phase := Done(Get(rep.store, rd.key))))
    case ReadGiveUp(_) =>
      && !rd.phase.Done?
      && SetPhase(s, s', r, rd.(phase := Failed))
  }

  ghost predicate Permitted(s: Sys, s': Sys, step: Step) {
    match step
    case StartElection(_) => VoteStep(s, s', step)
    case HandleVote(_, _) => VoteStep(s, s', step)
    case CountVote(_, _) => VoteStep(s, s', step)
    case ClientAppend(_, _, _, _, _, _) => LogStep(s, s', step)
    case SendAppend(_, _) => LogStep(s, s', step)
    case HandleAppend(_, _) => LogStep(s, s', step)
    case TakeAppendReply(_, _) => LogStep(s, s', step)
    case AdvanceCommit(_, _) => LogStep(s, s', step)
    case ApplyOne(_) => LogStep(s, s', step)
    case Compact(_) => OtherStep(s, s', step)
    case SendSnapshot(_, _) => OtherStep(s, s', step)
    case TakeDump(_, _, _) => OtherStep(s, s', step)
    case AnswerInstall(_, _, _) => OtherStep(s, s', step)
    case TakeInstallReply(_, _) => OtherStep(s, s', step)
    case OnlyLearnTerm(_, _) => OtherStep(s, s', step)
    case Restart(_, _) => OtherStep(s, s', step)
    case ChangeMode(_, _, _) => OtherStep(s, s', step)
    case IgnoreVote(_, _) => OtherStep(s, s', step)
    case IgnoreAppend(_, _) => OtherStep(s, s', step)
    case ReadBegin(r, n, key) =>
      && r !in s.calls && n in s.e.nodes && s.e.nodes[n].role == Leader
      && Change(s, s', E.Idle, s.reps, s.net,
                s.calls[r := Read(n, s.e.nodes[n].term, key, Checking, 0, 0, {})])
    case _ => ReadStep(s, s', step)
  }

  /** Stated as an equation so that proofs hand it on as one fact, not case by case. */
  ghost predicate NextStep(s: Sys, s': Sys, step: Step) {
    Permitted(s, s', step) == true
  }

  /** One configuration holds the other, as they do one addNode or removeNode apart. */
  ghost predicate Nested(c: E.Cluster) {
    c.oldCfg <= c.newCfg || c.newCfg <= c.oldCfg
  }

  ghost predicate Init(s: Sys) {
    && E.Init(s.e)
    && s.e.nodes.Keys == s.reps.Keys && E.Active(s.e, E.Joint) <= s.e.nodes.Keys && Nested(s.e)
    && (forall n | n in s.reps :: s.reps[n] == Replica([], 0, 0, 0, map[], map[], map[]))
    && s.net == {} && s.calls == map[]
  }

  ghost predicate Next(s: Sys, s': Sys) {
    exists step :: NextStep(s, s', step)
  }

  ghost predicate Run(run: seq<Sys>) {
    && |run| > 0
    && Init(run[0])
    && forall i | 0 <= i < |run| - 1 :: Next(run[i], run[i + 1])
  }
}
