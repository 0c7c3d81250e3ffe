/** Whole lives of one node: any order of critical sections, lost, late and repeated replies, crashes, and a
    cluster around it that keeps its promises. */
module NodeRun {
  import opened Types
  import opened Node
  import opened NodeConfig
  import opened NodeLog
  import opened NodeApply
  import opened NodeInvariant
  import Protocol
  import Replay
  import Membership

  const JOINT_TEXT := "__config_joint__"

  /** A request sent to the peer in `slot` of the peer list `peers`, in term `asked`. */
  datatype Sent =
    | Entries(asked: int, slot: nat, peers: seq<PeerInfo>, a: AppendEntriesArgs)
    | Snapshot(asked: int, slot: nat, peers: seq<PeerInfo>, boundary: int)

  /** The peer has acknowledged, to the leader of term `asked`, everything up to an index. */
  datatype Ack = Ack(asked: int, peer: int, upto: int)

  /** The old and new configuration that addNode or removeNode has decided on, but not yet appended. */
  type Plan = (seq<PeerInfo>, seq<PeerInfo>)

  /** Only `s` is stored anywhere. `full` is the log the node stands for and `done` the cluster's committed sequence;
      `acks` are the acknowledgements taken so far; `boot` is the configuration of the last start-up file, and `since`
      what has been applied after it. */
  datatype World = World(s: NodeState, full: seq<LogEntry>, done: seq<LogEntry>, sent: set<Sent>, acks: set<Ack>,
    plans: set<Plan>, boot: seq<PeerInfo>, since: seq<LogEntry>)

  datatype Event =
    | Elect
    | TakeVote(asked: int, granted: seq<int>, voter: int, vote: RequestVoteReply)
    | Vote(rv: RequestVoteArgs)
    | Append(ae: AppendEntriesArgs)
    | Own(op: CommandType, key: string, value: string, oldCfg: seq<PeerInfo>, newCfg: seq<PeerInfo>)
    | PlanAddNode(p: PeerInfo)
    | PlanRemoveNode(id: Id)
    | Propose(plan: Plan)
    | Replicate(slot: nat)
    | TakeReply(x: Sent, reply: AppendEntriesReply)
    | TakeSnapshotReply(y: Sent, ack: InstallSnapshotReply)
    | Advance
    | Install(snap: InstallSnapshotArgs, prefix: seq<LogEntry>, at: nat)
    | Crash(address: (string, int), others: seq<PeerInfo>)
    | SetVoting(voting: bool)
    | Committed(more: seq<LogEntry>)

  /** replicateToPeer up to the send. */
  ghost function Sending(w: World, slot: nat): World {
    var s := w.s;
    if s.role != Leader || slot >= |s.peers| || slot >= |s.nextIndex| then w
    else if s.nextIndex[slot] <= s.lastIncludedIndex then w.(sent := w.sent + {Snapshot(s.term, slot, s.peers, s.lastIncludedIndex)})
    else w.(sent := w.sent + {Entries(s.term, slot, s.peers, BuildAppend(s, s.nextIndex[slot]))})
  }

  /** A reply counts only while the node still leads in the term it asked in. */
  predicate Current(s: NodeState, x: Sent) {
    s.role == Leader && s.term == x.asked && x.slot < |s.nextIndex| && x.slot < |s.matchIndex|
  }

  /** What a successful reply to the request says, whoever is in its slot by now. */
  function AckOf(x: Sent): set<Ack> {
    if x.slot >= |x.peers| then {}
    else {Ack(x.asked, x.peers[x.slot].id, if x.Entries? then x.a.prevLogIndex + |x.a.entries| else x.boundary)}
  }

  function Planned(plan: Option<Plan>): set<Plan> {
    match plan
    case None => {}
    case Some(p) => {p}
  }

  /** The entries of `full` that lastApplied passes when it goes from s to t. */
  function Applied(full: seq<LogEntry>, s: NodeState, t: NodeState): seq<LogEntry> {
    if 0 <= s.lastApplied <= t.lastApplied <= |full| then full[s.lastApplied..t.lastApplied] else []
  }

  ghost function After(w: World, ev: Event): World {
    var s := w.s;
    match ev
    case Elect => w.(s := StartElection(s).0)
    case TakeVote(asked, granted, voter, vote) => w.(s := CountVote(s, asked, granted, voter, vote).0)
    case Vote(rv) => w.(s := HandleRequestVote(s, rv).0)
    case Append(ae) =>
      var t, full' := HandleAppendEntries(s, ae).0, FullAfterAppend(s, w.full, ae);
      w.(s := t, full := full', since := w.since + Applied(full', s, t))
    case Own(op, key, value, oldCfg, newCfg) =>
      w.(s := AppendOwn(s, op, key, value, oldCfg, newCfg),
         full := w.full + [LogEntry(s.term, |w.full| + 1, op, key, value, oldCfg, newCfg)])
    case PlanAddNode(p) => w.(plans := w.plans + Planned(PlanAdd(s, p)))
    case PlanRemoveNode(id) => w.(plans := w.plans + Planned(PlanRemove(s, id)))
    case Propose(plan) =>
      w.(s := AppendOwn(s, CONFIG_JOINT, JOINT_TEXT, JOINT_TEXT, plan.0, plan.1),
         full := w.full + [LogEntry(s.term, |w.full| + 1, CONFIG_JOINT, JOINT_TEXT, JOINT_TEXT, plan.0, plan.1)])
    case Replicate(slot) => Sending(w, slot)
    case TakeReply(x, reply) =>
      if x.Entries? && Current(s, x)
      then w.(s := TakeAppendReply(s, x.slot, x.a, x.asked, reply),
              acks := if reply.success && reply.term <= s.term then w.acks + AckOf(x) else w.acks)
      else w
    case TakeSnapshotReply(y, ack) =>
      if y.Snapshot? && Current(s, y)
      then w.(s := TakeInstallReply(s, y.slot, y.asked, ack), acks := if ack.term <= s.term then w.acks + AckOf(y) else w.acks)
      else w
    case Advance => w.(s := UpdateCommitIndex(s), since := w.since + Applied(w.full, s, UpdateCommitIndex(s)))
    case Install(snap, prefix, _) =>
      w.(s := HandleInstallSnapshot(s, snap).0, full := if Installs(s, snap) then FullAfterInstall(w.full, prefix) else w.full)
    case Crash(address, others) =>
      w.(s := Restart(s, address, others), plans := {}, boot := [PeerInfo(s.id, address.0, address.1)] + others, since := [])
    case SetVoting(voting) => w.(s := s.(votingMember := voting))
    case Committed(more) => w.(done := w.done + more)
  }

  /** What the rest of the cluster owes the node. */
  ghost predicate Allowed(w: World, ev: Event) {
    var s := w.s;
    match ev
    case Append(ae) => Plausible(s, w.full, w.done, ae)
    case Own(op, _, _, oldCfg, newCfg) => s.role == Leader && op != CONFIG_JOINT && Proper(oldCfg) && Proper(newCfg)
    case PlanAddNode(p) => p.id != NOBODY
    case Propose(plan) => s.role == Leader && plan in w.plans
    case TakeReply(x, _) => x in w.sent
    case TakeSnapshotReply(y, _) => y in w.sent
    case Advance => Agree(w.full, w.done, LargestCommittable(s, LastLogIndex(s)))
    case Install(snap, prefix, at) => Installs(s, snap) ==> SnapshotOf(snap, prefix, w.done, at) && s.lastApplied <= at
    case Crash(address, others) => Proper([PeerInfo(s.id, address.0, address.1)] + others)
    case _ => true
  }

  /** Every request of the current leadership lies within the leader's log. */
  ghost predicate SentSound(w: World) {
    forall x | x in w.sent ::
      && x.asked <= w.s.term
      && (w.s.role == Candidate ==> x.asked < w.s.term)
      && (x.Entries? && w.s.role == Leader && x.asked == w.s.term ==> 0 <= x.a.prevLogIndex + |x.a.entries| <= |w.full|)
  }

  /** What is planned is one change of a proper configuration. */
  ghost predicate PlansSound(plans: set<Plan>) {
    forall plan | plan in plans ::
      Proper(plan.0) && Proper(plan.1) && Membership.OneChange(Ids(plan.0), Ids(plan.1))
  }

  ghost predicate Good(w: World) {
    AtRest(w.s, w.full, w.done) && SentSound(w) && PlansSound(w.plans)
  }

  /** How roles and terms may move, which is all that the requests in flight depend on. */
  ghost predicate Moves(w: World, w': World) {
    && w'.s.term >= w.s.term
    && (w'.s.role == Candidate ==> w'.s.term > w.s.term || w.s.role == Candidate)
    && (w'.s.role == Leader ==> w'.s.term == w.s.term && (w.s.role == Candidate || (w.s.role == Leader && |w'.full| >= |w.full|)))
  }

  lemma SentKeeps(w: World, w': World)
    requires SentSound(w) && Moves(w, w') && w'.sent == w.sent
    ensures SentSound(w')
  {
  }

  lemma PlanSteps(w: World, ev: Event)
    requires Good(w) && Allowed(w, ev) && (ev.PlanAddNode? || ev.PlanRemoveNode?)
    ensures Good(After(w, ev))
  {
    hide SentSound, Contains, Others, Membership.OneChange, Ids;
    ProperOf(w);
    hide AtRest, Proper;
    if ev.PlanAddNode? && PlanAdd(w.s, ev.p).Some? {
      AddPlanIsOneChange(w.s, ev.p);
    }
    if ev.PlanRemoveNode? && PlanRemove(w.s, ev.id).Some? {
      RemovePlanIsOneChange(w.s, ev.id);
    }
    SentKeeps(w, After(w, ev));
  }

  lemma ProperOf(w: World)
    requires Good(w)
    ensures Proper(w.s.currentConfig) && Proper(w.s.oldConfig) && Proper(w.s.newConfig)
  {
    hide Proper, Represents, Agree, Reflects, SoundEntries, PeersMatch, Tracks, SentSound;
  }

  lemma SendKeeps(w: World, slot: nat)
    requires Good(w)
    ensures Good(Sending(w, slot))
  {
    var s := w.s;
    LastIs(s, w.full, w.done);
    TracksOf(s, w.full, w.done);
    hide AtRest;
    if s.role == Leader && slot < |s.peers| && slot < |s.nextIndex| && s.nextIndex[slot] > s.lastIncludedIndex {
      BuildOnFull(s, w.full, s.nextIndex[slot]);
    }
  }

  lemma AppendStep(w: World, a: AppendEntriesArgs)
    requires Good(w) && Plausible(w.s, w.full, w.done, a)
    ensures Good(After(w, Append(a)))
  {
    hide AtRest, Plausible, HandleAppendEntries, FullAfterAppend, SentSound, Accepted, CommitAfter;
    AppendKeeps(w.s, w.full, w.done, a);
    SentKeeps(w, After(w, Append(a)));
  }

  lemma ElectionSteps(w: World, ev: Event)
    requires Good(w) && (ev.Elect? || ev.TakeVote? || ev.Vote?)
    ensures Good(After(w, ev))
  {
    hide AtRest, StartElection, CountVote, HandleRequestVote, SentSound;
    match ev {
      case Elect => ElectionKeeps(w.s, w.full, w.done);
      case TakeVote(asked, granted, voter, vote) => VoteCountKeeps(w.s, w.full, w.done, asked, granted, voter, vote);
      case Vote(rv) => VoteKeeps(w.s, w.full, w.done, rv);
    }
    SentKeeps(w, After(w, ev));
  }

  lemma LeaderSteps(w: World, ev: Event)
    requires Good(w) && Allowed(w, ev) && (ev.Own? || ev.Propose? || ev.Advance?)
    ensures Good(After(w, ev))
  {
    hide AtRest, UpdateCommitIndex, SentSound, Proper, LargestCommittable, Membership.OneChange, Ids, Applied;
    match ev {
      case Own(op, key, value, oldCfg, newCfg) => OwnKeeps(w.s, w.full, w.done, op, key, value, oldCfg, newCfg);
      case Propose(plan) => OwnKeeps(w.s, w.full, w.done, CONFIG_JOINT, JOINT_TEXT, JOINT_TEXT, plan.0, plan.1);
      case Advance => AdvanceKeeps(w.s, w.full, w.done);
    }
    SentKeeps(w, After(w, ev));
  }

  lemma ReplySteps(w: World, ev: Event)
    requires Good(w) && Allowed(w, ev) && (ev.TakeReply? || ev.TakeSnapshotReply?)
    ensures Good(After(w, ev))
  {
    hide AtRest, TakeAppendReply, TakeInstallReply;
    match ev {
      case TakeReply(x, reply) =>
        if x.Entries? && Current(w.s, x) {
          ReplyKeeps(w.s, w.full, w.done, x.slot, x.a, x.asked, reply);
        }
      case TakeSnapshotReply(y, ack) =>
        if y.Snapshot? && Current(w.s, y) {
          InstallReplyKeeps(w.s, w.full, w.done, y.slot, y.asked, ack);
        }
    }
    hide SentSound;
    if After(w, ev) != w {
      SentKeeps(w, After(w, ev));
    }
  }

  lemma OutsideSteps(w: World, ev: Event)
    requires Good(w) && Allowed(w, ev) && (ev.Install? || ev.Crash? || ev.SetVoting? || ev.Committed?)
    ensures Good(After(w, ev))
  {
    hide AtRest, HandleInstallSnapshot, Restart, SentSound, SnapshotOf, FullAfterInstall, Proper;
    match ev {
      case Install(snap, prefix, at) =>
        InstallKeeps(w.s, w.full, w.done, snap, prefix, at);
        InstalledStands(w.s, snap);
      case Crash(address, others) => RestartKeeps(w.s, w.full, w.done, address, others);
      case SetVoting(voting) => VotingKeeps(w.s, w.full, w.done, voting);
      case Committed(more) => MoreCommitted(w.s, w.full, w.done, more);
    }
    SentKeeps(w, After(w, ev));
  }

  /** A node that installs is a follower afterwards. */
  lemma InstalledStands(s: NodeState, a: InstallSnapshotArgs)
    ensures a.term >= s.term ==> HandleInstallSnapshot(s, a).0.role == Follower
    ensures a.term < s.term ==> HandleInstallSnapshot(s, a).0 == s
  {
  }

  lemma VotingKeeps(s: NodeState, full: seq<LogEntry>, done: seq<LogEntry>, voting: bool)
    requires AtRest(s, full, done)
    ensures AtRest(s.(votingMember := voting), full, done)
  {
    hide Proper, Reflects, SoundEntries, Contains, Agree;
  }

  lemma MoreCommitted(s: NodeState, full: seq<LogEntry>, done: seq<LogEntry>, more: seq<LogEntry>)
    requires AtRest(s, full, done)
    ensures AtRest(s, full, done + more)
  {
    hide Represents, SoundEntries, Configured, Reflects;
    LongerReflects(s.store, done, done + more, s.lastApplied);
  }

  /** Every critical section keeps the node's books. */
  lemma EventKeepsGood(w: World, ev: Event)
    requires Good(w) && Allowed(w, ev)
    ensures Good(After(w, ev))
  {
    hide Good, After;
    match ev
    case Elect => ElectionSteps(w, ev);
    case TakeVote(_, _, _, _) => ElectionSteps(w, ev);
    case Vote(_) => ElectionSteps(w, ev);
    case Append(ae) => AppendStep(w, ae);
    case Own(_, _, _, _, _) => LeaderSteps(w, ev);
    case PlanAddNode(_) => PlanSteps(w, ev);
    case PlanRemoveNode(_) => PlanSteps(w, ev);
    case Propose(_) => LeaderSteps(w, ev);
    case Advance => LeaderSteps(w, ev);
    case Replicate(slot) => Replicates(w, slot);
    case TakeReply(_, _) => ReplySteps(w, ev);
    case TakeSnapshotReply(_, _) => ReplySteps(w, ev);
    case Install(_, _, _) => OutsideSteps(w, ev);
    case Crash(_, _) => OutsideSteps(w, ev);
    case SetVoting(_) => OutsideSteps(w, ev);
    case Committed(_) => OutsideSteps(w, ev);
  }

  lemma Replicates(w: World, slot: nat)
    requires Good(w)
    ensures Good(After(w, Replicate(slot)))
  {
    hide Good, Sending;
    SendKeeps(w, slot);
  }

  // ---- runs ----

  ghost predicate Fresh(w: World) {
    && (exists id: Id, address: (string, int), others: seq<PeerInfo>, threshold: int ::
          && Proper([PeerInfo(id, address.0, address.1)] + others)
          && w.s == Boot(id, address, others, threshold, map[], Saved(0, NOBODY, 0, 0, []))
          && w.boot == [PeerInfo(id, address.0, address.1)] + others)
    && w.full == [] && w.done == [] && w.sent == {} && w.acks == {} && w.plans == {} && w.since == []
  }

  ghost predicate Follows(w: World, w': World) {
    exists ev :: Allowed(w, ev) && w' == After(w, ev)
  }

  ghost predicate Life(run: seq<World>) {
    && |run| > 0 && Fresh(run[0])
    && forall i | 0 <= i < |run| - 1 :: Follows(run[i], run[i + 1])
  }

  lemma FreshIsGood(w: World)
    requires Fresh(w)
    ensures Good(w)
  {
    var id: Id, address: (string, int), others: seq<PeerInfo>, threshold: int :|
      && Proper([PeerInfo(id, address.0, address.1)] + others)
      && w.s == Boot(id, address, others, threshold, map[], Saved(0, NOBODY, 0, 0, []));
    StartPeers([PeerInfo(id, address.0, address.1)] + others, PeerInfo(id, address.0, address.1), others);
    EmptyStore();
  }

  lemma EmptyStore()
    ensures Reflects(map[], [], 0)
  {
    var none: seq<LogEntry> := [];
    assert none[..0] == none;
    assert StoreAt(map[], none, 0, 0);
  }

  lemma {:induction false} LifeIsGood(run: seq<World>, i: nat)
    requires Life(run) && i < |run|
    ensures Good(run[i])
  {
    hide Good, Fresh, Follows;
    if i == 0 {
      FreshIsGood(run[0]);
    } else {
      LifeIsGood(run, i - 1);
      assert Follows(run[i - 1], run[i]);
      FollowsKeeps(run[i - 1], run[i]);
    }
  }

  lemma FollowsKeeps(w: World, w': World)
    requires Good(w) && Follows(w, w')
    ensures Good(w')
  {
    hide Good, Allowed, After;
    var ev :| Allowed(w, ev) && w' == After(w, ev);
    EventKeepsGood(w, ev);
  }

  // ---- what that means at every moment of a life ----

  /** Compaction is invisible: the log is numbered on from the boundary without a gap, the indexes are ordered, and
      from the boundary up every question about the log is answered as if nothing had been discarded. */
  lemma CompactionInvisible(run: seq<World>, i: nat, k: int)
    requires Life(run) && i < |run|
    ensures var s, full := run[i].s, run[i].full;
      && Numbered(s.logs, s.lastIncludedIndex + 1)
      && 0 <= s.lastIncludedIndex <= s.lastApplied == s.commitIndex <= LastLogIndex(s) == |full|
      && LastLogTerm(s) == LastTerm(full)
      && (k >= s.lastIncludedIndex ==> (HasLogAt(s, k) <==> k <= |full|) && LogTermAt(s, k) == TermAt(full, k))
  {
    hide Proper, Configured, Reflects, SoundEntries, SentSound;
    LifeIsGood(run, i);
    var s, full := run[i].s, run[i].full;
    CompactedAnswers(s, full, s.lastIncludedIndex);
    if k >= s.lastIncludedIndex {
      CompactedAnswers(s, full, k);
    }
  }

  /** The peer list is the active configuration without the node itself, and a leader's arrays fit it and its log. */
  lemma BooksBalance(run: seq<World>, i: nat)
    requires Life(run) && i < |run|
    ensures PeersMatch(run[i].s) && Tracks(run[i].s)
    ensures OnDisk(run[i].s)
  {
    hide Proper, Reflects, SoundEntries, SentSound, Represents, PeersMatch, Tracks, OnDisk;
    LifeIsGood(run, i);
  }

  /** The database is the fold of the committed sequence on every key the sequence does not write again after
      lastApplied; once lastApplied has caught up it is the fold. */
  lemma StoreIsReplay(run: seq<World>, i: nat)
    requires Life(run) && i < |run|
    ensures Reflects(run[i].s.store, run[i].done, run[i].s.lastApplied)
    ensures run[i].s.lastApplied == |run[i].done| ==> run[i].s.store == Protocol.Fold(run[i].done)
  {
    hide Proper, SoundEntries, SentSound, Represents, Configured, Reflects, Replay.Replays, Protocol.Fold;
    LifeIsGood(run, i);
    var w := run[i];
    if w.s.lastApplied == |w.done| {
      FullyReflects(w.s.store, w.done);
    }
  }

  lemma EventSettles(w: World, ev: Event)
    requires Good(w) && Allowed(w, ev) && Settled(w.s) && TermsKnown(After(w, ev).full)
    ensures Settled(After(w, ev).s)
  {
    hide AtRest, SentSound, TermsKnown, Settled, HandleAppendEntries, FullAfterAppend, Plausible, UpdateCommitIndex,
      Accepted, CommitAfter, HandleInstallSnapshot;
    if ev.Append? {
      AppendKeeps(w.s, w.full, w.done, ev.ae);
    } else if ev.Advance? {
      AdvanceKeeps(w.s, w.full, w.done);
    } else if ev.Install? {
      InOrder(w);
      InstallSettles(w.s, ev.snap);
    } else {
      if ev.Elect? || ev.TakeVote? || ev.Vote? {
        VotersKeepPace(w, ev);
      } else if ev.TakeReply? || ev.TakeSnapshotReply? {
        LeadersKeepPace(w, ev);
      } else {
        RestKeepsPace(w, ev);
      }
      PaceSettles(w.s, After(w, ev).s);
    }
  }

  /** What Settled depends on is the same, or nothing has been applied past the boundary. */
  predicate SamePace(s: NodeState, t: NodeState) {
    && t.snapshotThreshold == s.snapshotThreshold
    && ((t.lastApplied == s.lastApplied && t.lastIncludedIndex == s.lastIncludedIndex && t.configState == s.configState)
        || t.lastApplied == t.lastIncludedIndex)
  }

  lemma VotersKeepPace(w: World, ev: Event)
    requires ev.Elect? || ev.TakeVote? || ev.Vote?
    ensures SamePace(w.s, After(w, ev).s)
  {
    hide InVotingConfig, ElectionMajority, CandidateUpToDate, LastLogIndex, LastLogTerm;
  }

  lemma LeadersKeepPace(w: World, ev: Event)
    requires ev.TakeReply? || ev.TakeSnapshotReply?
    ensures SamePace(w.s, After(w, ev).s)
  {
  }

  lemma RestKeepsPace(w: World, ev: Event)
    requires ev.Own? || ev.Propose? || ev.PlanAddNode? || ev.PlanRemoveNode? || ev.Replicate? || ev.Crash? || ev.SetVoting? || ev.Committed?
    ensures SamePace(w.s, After(w, ev).s)
  {
    hide Node.After, LastLogIndex, BuildAppend;
  }

  lemma PaceSettles(s: NodeState, t: NodeState)
    requires Settled(s) && SamePace(s, t)
    ensures Settled(t)
  {
  }

  lemma InstallSettles(s: NodeState, snap: InstallSnapshotArgs)
    requires Settled(s) && s.lastIncludedIndex <= s.lastApplied
    ensures Settled(HandleInstallSnapshot(s, snap).0)
  {
    hide Node.After, Heed;
    if snap.term >= s.term {
      HeedPace(s, snap.term, snap.leaderId);
    }
  }

  lemma HeedPace(s: NodeState, term: int, leader: int)
    ensures var t := Heed(s, term, leader);
      && t.snapshotThreshold == s.snapshotThreshold && t.configState == s.configState
      && t.lastApplied == s.lastApplied && t.lastIncludedIndex == s.lastIncludedIndex
  {
  }

  lemma InOrder(w: World)
    requires Good(w)
    ensures w.s.lastIncludedIndex <= w.s.lastApplied
  {
    hide Represents, SoundEntries, Configured, Agree, Reflects, SentSound;
  }

  /** A node in the stable phase never stays as far ahead of its boundary as makes it compact. */
  lemma {:induction false} LifeIsSettled(run: seq<World>, i: nat)
    requires Life(run) && i < |run| && forall j | 0 <= j <= i :: TermsKnown(run[j].full)
    ensures Settled(run[i].s)
  {
    hide Good, Fresh, Follows, TermsKnown, Settled;
    if i == 0 {
      FreshIsSettled(run[0]);
    } else {
      LifeIsSettled(run, i - 1);
      LifeIsGood(run, i - 1);
      assert Follows(run[i - 1], run[i]);
      FollowsSettles(run[i - 1], run[i]);
    }
  }

  lemma FreshIsSettled(w: World)
    requires Fresh(w)
    ensures Settled(w.s)
  {
  }

  lemma FollowsSettles(w: World, w': World)
    requires Good(w) && Follows(w, w') && Settled(w.s) && TermsKnown(w'.full)
    ensures Settled(w'.s)
  {
    hide Good, Allowed, After, TermsKnown, Settled;
    var ev :| Allowed(w, ev) && w' == After(w, ev);
    EventSettles(w, ev);
  }
}
