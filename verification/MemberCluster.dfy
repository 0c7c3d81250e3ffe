/**
 A cluster of node objects in the middle of one addNode or removeNode. Each node applies the configuration entries
 when it comes to them, restarts with the members of its start-up file, and may be anywhere between the old and the
 new configuration. Logs, requests and replies are as arbitrary as they can be: only votes and leadership are claimed.
 */
module MemberCluster {
  import opened Types
  import opened Node
  import opened NodeConfig
  import opened NodeApply
  import opened NodeInvariant
  import opened NodeRules
  import opened NodeModes
  import opened MemberRefinement
  import Quorum
  import E = Election
  import Membership

  /** Requests carry their receiver only where it matters who was asked. */
  datatype Packet =
    | VoteRequest(req: RequestVoteArgs)
    | VoteReply(voter: Id, cand: Id, asked: int, vote: RequestVoteReply)
    | Entries(dst: Id, ae: AppendEntriesArgs)
    | Snapshot(dst: Id, snap: InstallSnapshotArgs)

  /** `granted` is the vote list of each node's election thread; `net` keeps every packet ever sent. */
  datatype World = World(
    oldCfg: set<Id>, newCfg: set<Id>, nodes: map<Id, NodeState>, granted: map<Id, seq<int>>, net: set<Packet>)

  datatype Move =
    | Elect(n: Id)
    | AnswerVote(n: Id, p: Packet)
    | TallyVote(n: Id, p: Packet)
    | Append(n: Id, e: LogEntry)
    | Send(n: Id, dst: Id, next: int)
    | SendBeat(n: Id, dst: Id)
    | SendSnapshot(n: Id, dst: Id)
    | Answer(n: Id, p: Packet)
    | TakeReply(n: Id, i: nat, a: AppendEntriesArgs, asked: int, r: AppendEntriesReply)
    | TakeSnapshotReply(n: Id, i: nat, asked: int, ack: InstallSnapshotReply)
    | TakeBeat(n: Id, asked: int, count: nat, r: AppendEntriesReply)
    | Advance(n: Id)
    | SetVoting(n: Id, voting: bool)
    | Crash(n: Id, store: map<string, string>, address: (string, int), others: seq<PeerInfo>)
    | CrashLearning(n: Id, term: int, store: map<string, string>, address: (string, int), others: seq<PeerInfo>)
    | CrashAnswering(n: Id, p: Packet, store: map<string, string>, address: (string, int), others: seq<PeerInfo>)

  ghost predicate File(w: World, n: Id, address: (string, int), others: seq<PeerInfo>) {
    FileOf(w.oldCfg, w.newCfg, [PeerInfo(n, address.0, address.1)] + others)
  }

  /** Node n goes to state t with vote list g, and sends. */
  ghost predicate Does(w: World, w': World, n: Id, t: NodeState, g: seq<int>, sent: set<Packet>) {
    w' == w.(nodes := w.nodes[n := t], granted := w.granted[n := g], net := w.net + sent)
  }

  ghost predicate ElectionMove(w: World, w': World, mv: Move)
    requires mv.Elect? || mv.AnswerVote? || mv.TallyVote?
  {
    && mv.n in w.nodes && mv.n in w.granted
    && var n := mv.n;
    && var s, g := w.nodes[n], w.granted[n];
    match mv
    case Elect(_) =>
      && s.role != Leader
      && var (t, r) := StartElection(s);
      Does(w, w', n, t, if r.Some? then [n] else g, if r.Some? then {VoteRequest(r.value)} else {})
    case AnswerVote(_, p) =>
      && p in w.net && p.VoteRequest? && p.req.candidateId != NOBODY
      && var (t, r) := HandleRequestVote(s, p.req);
      Does(w, w', n, t, g, {VoteReply(n, p.req.candidateId, p.req.term, r)})
    case TallyVote(_, p) =>
      && p in w.net && p.VoteReply? && p.cand == n
      && var (t, g', _) := CountVote(s, p.asked, g, p.voter, p.vote);
      Does(w, w', n, t, g', {})
  }

  /** What leaders do; replies may say anything. */
  ghost predicate LeaderMove(w: World, w': World, mv: Move)
    requires mv.Append? || mv.Send? || mv.SendBeat? || mv.SendSnapshot? || mv.TakeReply? || mv.TakeSnapshotReply? || mv.TakeBeat? || mv.Advance?
  {
    && mv.n in w.nodes && mv.n in w.granted
    && var n := mv.n;
    && var s, g := w.nodes[n], w.granted[n];
    match mv
    case Append(_, e) =>
      && s.role == Leader && EntryOf(w.oldCfg, w.newCfg, e)
      && Does(w, w', n, AppendOwn(s, e.op, e.key, e.value, e.oldConfig, e.newConfig), g, {})
    case Send(_, dst, next) =>
      && s.role == Leader && dst != n
      && Does(w, w', n, s, g, {Entries(dst, BuildAppend(s, next))})
    case SendBeat(_, dst) =>
      && s.role == Leader && dst != n
      && Does(w, w', n, s, g, {Entries(dst, BuildReadBeat(s))})
    case SendSnapshot(_, dst) =>
      && s.role == Leader && dst != n
      && Does(w, w', n, s, g, {Snapshot(dst, BuildInstall(s))})
    case TakeReply(_, i, a, asked, r) =>
      && i < |s.nextIndex| && i < |s.matchIndex|
      && Does(w, w', n, TakeAppendReply(s, i, a, asked, r), g, {})
    case TakeSnapshotReply(_, i, asked, ack) =>
      && i < |s.nextIndex| && i < |s.matchIndex|
      && Does(w, w', n, TakeInstallReply(s, i, asked, ack), g, {})
    case TakeBeat(_, asked, count, r) => Does(w, w', n, TakeBeatReply(s, asked, count, r).0, g, {})
    case Advance(_) => Does(w, w', n, UpdateCommitIndex(s), g, {})
  }

  /** A crash may come between two handlers, once a term is persisted, or once the entries of a request are; the
      database is as far as the apply loop had come. */
  ghost predicate OtherMove(w: World, w': World, mv: Move)
    requires mv.Answer? || mv.SetVoting? || mv.Crash? || mv.CrashLearning? || mv.CrashAnswering?
  {
    && mv.n in w.nodes && mv.n in w.granted
    && var n := mv.n;
    && var s, g := w.nodes[n], w.granted[n];
    match mv
    case Answer(_, p) =>
      && p in w.net && (p.Entries? || p.Snapshot?) && p.dst == n
      && Does(w, w', n, if p.Entries? then HandleAppendEntries(s, p.ae).0 else HandleInstallSnapshot(s, p.snap).0, g, {})
    case SetVoting(_, voting) => Does(w, w', n, s.(votingMember := voting), g, {})
    case Crash(_, store, address, others) =>
      && File(w, n, address, others)
      && Does(w, w', n, Restart(s.(store := store), address, others), [], {})
    case CrashLearning(_, term, store, address, others) =>
      && File(w, n, address, others) && term > s.term
      && Does(w, w', n, Restart(BecomeFollower(s, term).(store := store), address, others), [], {})
    case CrashAnswering(_, p, store, address, others) =>
      && File(w, n, address, others) && p in w.net && p.Entries? && p.dst == n && p.ae.term >= s.term
      && Does(w, w', n, Restart(Merged(Heed(s, p.ae.term, p.ae.leaderId), p.ae.entries).(store := store), address, others), [], {})
  }

  ghost predicate Moved(w: World, w': World, mv: Move) {
    if mv.Elect? || mv.AnswerVote? || mv.TallyVote? then ElectionMove(w, w', mv)
    else if mv.Answer? || mv.SetVoting? || mv.Crash? || mv.CrashLearning? || mv.CrashAnswering? then OtherMove(w, w', mv)
    else LeaderMove(w, w', mv)
  }

  ghost predicate Started(w: World, n: Id, s: NodeState) {
    exists address: (string, int), others: seq<PeerInfo>, threshold: int ::
      File(w, n, address, others) && s == Boot(n, address, others, threshold, map[], Saved(0, NOBODY, 0, 0, []))
  }

  /** One addNode or removeNode, or none. Every member of either configuration is a process. */
  ghost predicate Initial(w: World) {
    && (w.oldCfg == w.newCfg || Membership.OneChange(w.oldCfg, w.newCfg))
    && w.oldCfg + w.newCfg <= w.nodes.Keys && w.granted.Keys == w.nodes.Keys && w.net == {}
    && forall n | n in w.nodes :: Started(w, n, w.nodes[n])
  }

  ghost predicate MovesTo(w: World, w': World) {
    exists mv :: Moved(w, w', mv)
  }

  ghost predicate WorldRun(ws: seq<World>) {
    && |ws| > 0 && Initial(ws[0])
    && forall i, j | 0 <= i < j < |ws| && j == i + 1 :: MovesTo(ws[i], ws[j])
  }

  // ---- the matching state of the voting system ----

  ghost predicate Known(c: E.Cluster, p: Packet) {
    match p
    case VoteRequest(_) => true
    case VoteReply(voter, cand, asked, vote) => vote.voteGranted ==> asked >= 0 && E.Vote(voter, asked, cand) in c.votes
    case Entries(dst, ae) =>
      && ae.term >= 0 && ae.leaderId != NOBODY && E.Beat(ae.leaderId, ae.term, dst) in c.beats
      && AllOfChange(c, ae.entries)
    case Snapshot(dst, snap) => snap.term >= 0 && snap.leaderId != NOBODY && E.Beat(snap.leaderId, snap.term, dst) in c.beats
  }

  ghost predicate Mirror(c: E.Cluster, w: World) {
    && c.oldCfg == w.oldCfg && c.newCfg == w.newCfg
    && c.nodes.Keys == w.nodes.Keys == w.granted.Keys && w.oldCfg + w.newCfg <= w.nodes.Keys
    && (forall n | n in w.nodes :: Acts(c, n, w.nodes[n], w.granted[n]))
    && (forall p | p in w.net :: Known(c, p))
  }

  lemma KnownStays(c: E.Cluster, c': E.Cluster, n: Id, p: Packet)
    requires Known(c, p) && OnlyVoter(c, c', n)
    ensures Known(c', p)
  {
    hide AllOfChange;
    if p.Entries? {
      SameChange(c, c', p.ae.entries);
    }
  }

  lemma MirrorStep(c: E.Cluster, c': E.Cluster, w: World, w': World, n: Id, t: NodeState, g: seq<int>, sent: set<Packet>)
    requires Mirror(c, w) && n in w.nodes && OnlyVoter(c, c', n) && Acts(c', n, t, g)
    requires Does(w, w', n, t, g, sent) && forall p | p in sent :: Known(c', p)
    ensures Mirror(c', w')
  {
    hide Acts, Known;
    forall q | q in w'.nodes
      ensures Acts(c', q, w'.nodes[q], w'.granted[q])
    {
      if q != n {
        StillActs(c, c', n, q, w.nodes[q], w.granted[q]);
      }
    }
    forall p | p in w'.net
      ensures Known(c', p)
    {
      if p in w.net {
        KnownStays(c, c', n, p);
      }
    }
  }

  lemma MirrorAt(c: E.Cluster, w: World, n: Id)
    requires Mirror(c, w) && n in w.nodes
    ensures n in w.granted && n in c.nodes && Acts(c, n, w.nodes[n], w.granted[n])
    ensures c.oldCfg == w.oldCfg && c.newCfg == w.newCfg && c.oldCfg + c.newCfg <= c.nodes.Keys
    ensures forall p | p in w.net :: Known(c, p)
  {
    hide Acts, Known;
  }

  // ---- every move is matched ----

  lemma ElectionSim(c: E.Cluster, w: World, w': World, mv: Move) returns (c': E.Cluster)
    requires Mirror(c, w) && (mv.Elect? || mv.AnswerVote? || mv.TallyVote?) && ElectionMove(w, w', mv)
    ensures Reaches(c, c') && Mirror(c', w')
  {
    hide Mirror, Acts, Reaches, OnlyVoter, StartElection, HandleRequestVote, CountVote;
    var n := mv.n;
    MirrorAt(c, w, n);
    var s, g := w.nodes[n], w.granted[n];
    match mv
    case Elect(_) =>
      c' := ElectActs(c, n, s, g);
      var (t, r) := StartElection(s);
      MirrorStep(c, c', w, w', n, t, if r.Some? then [n] else g, if r.Some? then {VoteRequest(r.value)} else {});
    case AnswerVote(_, p) =>
      c' := VoteActs(c, n, s, g, p.req);
      var (t, r) := HandleRequestVote(s, p.req);
      MirrorStep(c, c', w, w', n, t, g, {VoteReply(n, p.req.candidateId, p.req.term, r)});
    case TallyVote(_, p) =>
      assert Known(c, p);
      TermOf(c, n, s, g);
      c' := CountActs(c, n, s, g, p.asked, p.voter, p.vote);
      var (t, g', _) := CountVote(s, p.asked, g, p.voter, p.vote);
      MirrorStep(c, c', w, w', n, t, g', {});
  }

  lemma TermOf(c: E.Cluster, n: Id, s: NodeState, g: seq<int>)
    requires Acts(c, n, s, g)
    ensures n in c.nodes && c.nodes[n].term == s.term && c.nodes[n].role == s.role && s.id == n
  {
    hide InMode, Stored, Seated;
  }

  ghost function WithBeat(c: E.Cluster, n: Id, dst: Id): E.Cluster
    requires n in c.nodes
  {
    c.(beats := c.beats + {E.Beat(n, c.nodes[n].term, dst)})
  }

  lemma BeatActs(c: E.Cluster, n: Id, s: NodeState, g: seq<int>, dst: Id) returns (c': E.Cluster)
    requires Acts(c, n, s, g) && s.role == Leader && dst != n
    ensures Reaches(c, c') && OnlyVoter(c, c', n) && Acts(c', n, s, g)
    ensures s.id == n && s.term >= 0 && E.Beat(n, s.term, dst) in c'.beats
    ensures AllOfChange(c', s.logs)
  {
    hide Reaches, InMode, AllOfChange;
    c' := WithBeat(c, n, dst);
    OneStep(c, c', E.Step.SendBeat(n, dst));
    ActsWith(c, c', n, s, s, g, g);
  }

  lemma {:induction false} SentIsPart(s: NodeState, next: int, last: int)
    ensures forall e | e in EntriesBetween(s, next, last) :: e in s.logs
    decreases last - next
  {
    if next <= last {
      SentIsPart(s, next, last - 1);
    }
  }

  lemma SendSim(c: E.Cluster, w: World, w': World, mv: Move) returns (c': E.Cluster)
    requires Mirror(c, w) && (mv.Send? || mv.SendBeat? || mv.SendSnapshot?) && LeaderMove(w, w', mv)
    ensures Reaches(c, c') && Mirror(c', w')
  {
    hide Mirror, Acts, Reaches, OnlyVoter, AllOfChange, LogTermAt, EntriesBetween;
    var n := mv.n;
    MirrorAt(c, w, n);
    var s, g := w.nodes[n], w.granted[n];
    c' := BeatActs(c, n, s, g, mv.dst);
    match mv
    case Send(_, dst, next) =>
      SentIsPart(s, next, LastLogIndex(s));
      PartOfChange(c', s.logs, BuildAppend(s, next).entries);
      MirrorStep(c, c', w, w', n, s, g, {Entries(dst, BuildAppend(s, next))});
    case SendBeat(_, dst) =>
      PartOfChange(c', s.logs, []);
      MirrorStep(c, c', w, w', n, s, g, {Entries(dst, BuildReadBeat(s))});
    case SendSnapshot(_, dst) =>
      MirrorStep(c, c', w, w', n, s, g, {Snapshot(dst, BuildInstall(s))});
  }

  lemma LeaderSim(c: E.Cluster, w: World, w': World, mv: Move) returns (c': E.Cluster)
    requires Mirror(c, w) && (mv.Append? || mv.TakeReply? || mv.TakeSnapshotReply? || mv.TakeBeat? || mv.Advance?)
    requires LeaderMove(w, w', mv)
    ensures Reaches(c, c') && Mirror(c', w')
  {
    hide Mirror, Acts, Reaches, OnlyVoter, AppendOwn, TakeAppendReply, TakeInstallReply, TakeBeatReply, UpdateCommitIndex;
    var n := mv.n;
    MirrorAt(c, w, n);
    var s, g := w.nodes[n], w.granted[n];
    match mv
    case Append(_, e) =>
      OwnActs(c, n, s, g, e);
      c' := c;
      NoStep(c);
      OnlySelf(c, n);
      MirrorStep(c, c', w, w', n, AppendOwn(s, e.op, e.key, e.value, e.oldConfig, e.newConfig), g, {});
    case TakeReply(_, i, a, asked, r) =>
      c' := ReplyActs(c, n, s, g, i, a, asked, r);
      MirrorStep(c, c', w, w', n, TakeAppendReply(s, i, a, asked, r), g, {});
    case TakeSnapshotReply(_, i, asked, ack) =>
      c' := InstallReplyActs(c, n, s, g, i, asked, ack);
      MirrorStep(c, c', w, w', n, TakeInstallReply(s, i, asked, ack), g, {});
    case TakeBeat(_, asked, count, r) =>
      c' := BeatReplyActs(c, n, s, g, asked, count, r);
      MirrorStep(c, c', w, w', n, TakeBeatReply(s, asked, count, r).0, g, {});
    case Advance(_) =>
      c' := AdvanceActs(c, n, s, g);
      MirrorStep(c, c', w, w', n, UpdateCommitIndex(s), g, {});
  }

  lemma OtherSim(c: E.Cluster, w: World, w': World, mv: Move) returns (c': E.Cluster)
    requires Mirror(c, w) && (mv.Answer? || mv.SetVoting? || mv.Crash? || mv.CrashLearning? || mv.CrashAnswering?)
    requires OtherMove(w, w', mv)
    ensures Reaches(c, c') && Mirror(c', w')
  {
    hide Mirror, Acts, Reaches, OnlyVoter, HandleAppendEntries, HandleInstallSnapshot, Restart, Merged, Heed, BecomeFollower,
      AllOfChange, Proper, Ids;
    var n := mv.n;
    MirrorAt(c, w, n);
    var s, g := w.nodes[n], w.granted[n];
    match mv
    case Answer(_, p) =>
      assert Known(c, p);
      if p.Entries? {
        c' := AppendActs(c, n, s, g, p.ae);
      } else {
        c' := InstallActs(c, n, s, g, p.snap);
      }
      MirrorStep(c, c', w, w', n, if p.Entries? then HandleAppendEntries(s, p.ae).0 else HandleInstallSnapshot(s, p.snap).0, g, {});
    case SetVoting(_, voting) =>
      VotingActs(c, n, s, g, voting);
      c' := c;
      NoStep(c);
      OnlySelf(c, n);
      MirrorStep(c, c', w, w', n, s.(votingMember := voting), g, {});
    case Crash(_, store, address, others) =>
      c' := RestartActs(c, n, s, g, store, address, others);
      MirrorStep(c, c', w, w', n, Restart(s.(store := store), address, others), [], {});
    case CrashLearning(_, term, store, address, others) =>
      var mid := StepsDown(c, n, s, g, term);
      ListsStay(c, mid, n, [PeerInfo(n, address.0, address.1)] + others);
      c' := RestartActs(mid, n, BecomeFollower(s, term), g, store, address, others);
      Onward(c, mid, c', n);
      MirrorStep(c, c', w, w', n, Restart(BecomeFollower(s, term).(store := store), address, others), [], {});
    case CrashAnswering(_, p, store, address, others) =>
      assert Known(c, p);
      var mid := HeedActs(c, n, s, g, p.ae.term, p.ae.leaderId);
      ListsStay(c, mid, n, [PeerInfo(n, address.0, address.1)] + others);
      EntriesStay(c, mid, n, p.ae.entries);
      var t := Heed(s, p.ae.term, p.ae.leaderId);
      MergedActs(mid, n, t, g, p.ae.entries);
      c' := RestartActs(mid, n, Merged(t, p.ae.entries), g, store, address, others);
      Onward(c, mid, c', n);
      MirrorStep(c, c', w, w', n, Restart(Merged(t, p.ae.entries).(store := store), address, others), [], {});
  }

  lemma ListsStay(c: E.Cluster, c': E.Cluster, n: Id, cfg: seq<PeerInfo>)
    requires Lists(c, cfg) && OnlyVoter(c, c', n)
    ensures Lists(c', cfg)
  {
  }

  /** A move of a node object, whatever configuration it is in, is a run of voting steps. */
  lemma MoveSim(c: E.Cluster, w: World, w': World) returns (c': E.Cluster)
    requires Mirror(c, w) && MovesTo(w, w')
    ensures Reaches(c, c') && Mirror(c', w')
  {
    hide Mirror, Reaches, ElectionMove, LeaderMove, OtherMove;
    var mv :| Moved(w, w', mv);
    if mv.Elect? || mv.AnswerVote? || mv.TallyVote? {
      c' := ElectionSim(c, w, w', mv);
    } else if mv.Answer? || mv.SetVoting? || mv.Crash? || mv.CrashLearning? || mv.CrashAnswering? {
      c' := OtherSim(c, w, w', mv);
    } else if mv.Send? || mv.SendBeat? || mv.SendSnapshot? {
      c' := SendSim(c, w, w', mv);
    } else {
      c' := LeaderSim(c, w, w', mv);
    }
  }

  // ---- runs ----

  /** run[at[i]] is the state of the voting system that matches ws[i]. */
  ghost predicate Matches(ws: seq<World>, run: seq<E.Cluster>, at: seq<nat>) {
    && |at| == |ws| > 0 && Membership.Run(run)
    && (forall i | 0 <= i < |at| :: at[i] < |run| && Mirror(run[at[i]], ws[i]))
    && at[|at| - 1] == |run| - 1
  }

  lemma InitialCluster(w: World) returns (c: E.Cluster)
    requires Initial(w)
    ensures E.Init(c) && Mirror(c, w)
  {
    hide Acts, Started, Known;
    if w.oldCfg == w.newCfg {
      Quorum.SelfMeets(w.oldCfg);
    } else {
      Membership.OneChangeMeets(w.oldCfg, w.newCfg);
    }
    c := E.Cluster(w.oldCfg, w.newCfg,
                   map n | n in w.nodes :: E.Voter(0, NOBODY, Follower, {}, if Ids(w.nodes[n].currentConfig) == w.oldCfg then E.OldStable else E.NewStable),
                   {}, {});
    forall n | n in w.nodes
      ensures Acts(c, n, w.nodes[n], w.granted[n])
    {
      assert Started(w, n, w.nodes[n]);
      BootActs(c, w, n, w.nodes[n], w.granted[n]);
    }
  }

  lemma BootActs(c: E.Cluster, w: World, n: Id, s: NodeState, g: seq<int>)
    requires Started(w, n, s) && n in c.nodes && c.oldCfg == w.oldCfg && c.newCfg == w.newCfg
    requires c.nodes[n] == E.Voter(0, NOBODY, Follower, {}, if Ids(s.currentConfig) == w.oldCfg then E.OldStable else E.NewStable)
    ensures Acts(c, n, s, g)
  {
    hide Proper, Ids, Contains;
    var address: (string, int), others: seq<PeerInfo>, threshold: int :|
      File(w, n, address, others) && s == Boot(n, address, others, threshold, map[], Saved(0, NOBODY, 0, 0, []));
    StartPeers([PeerInfo(n, address.0, address.1)] + others, PeerInfo(n, address.0, address.1), others);
    ProperIsDistinct(others);
  }

  lemma {:induction false} RunIsMatched(ws: seq<World>) returns (run: seq<E.Cluster>, at: seq<nat>)
    requires WorldRun(ws)
    ensures Matches(ws, run, at)
    decreases |ws|
  {
    hide Mirror, Reaches, E.Init, Initial, MovesTo, Membership.Next;
    if |ws| == 1 {
      var c := InitialCluster(ws[0]);
      run, at := [c], [0];
    } else {
      var last := |ws| - 2;
      assert MovesTo(ws[last], ws[last + 1]);
      run, at := RunIsMatched(ws[..last + 1]);
      var c := MoveSim(run[|run| - 1], ws[last], ws[last + 1]);
      run, at := Longer(ws, run, at, c);
    }
  }

  lemma Longer(ws: seq<World>, run: seq<E.Cluster>, at: seq<nat>, c: E.Cluster)
    returns (run': seq<E.Cluster>, at': seq<nat>)
    requires |ws| >= 2 && Matches(ws[..|ws| - 1], run, at)
    requires Reaches(run[|run| - 1], c) && Mirror(c, ws[|ws| - 1])
    ensures Matches(ws, run', at')
  {
    hide Mirror, E.Init, Membership.Next;
    var path: seq<E.Cluster> :| Path(path, run[|run| - 1], c);
    run' := run + path[1..];
    at' := at + [|run'| - 1];
    forall i | 0 <= i < |run'| - 1
      ensures Membership.Next(run'[i], run'[i + 1])
    {
      if i < |run| - 1 {
        assert run'[i] == run[i] && run'[i + 1] == run[i + 1];
      } else {
        var j := i - (|run| - 1);
        assert run'[i] == path[j] && run'[i + 1] == path[j + 1];
      }
    }
  }

  /** In any run of node objects through one addNode or removeNode, with every node anywhere between the two
      configurations, no term has two leaders. */
  lemma OneLeaderPerTerm(ws: seq<World>, i: nat, j: nat, a: Id, b: Id)
    requires WorldRun(ws) && i < |ws| && j < |ws| && a in ws[i].nodes && b in ws[j].nodes
    requires ws[i].nodes[a].role == Leader == ws[j].nodes[b].role && ws[i].nodes[a].term == ws[j].nodes[b].term
    ensures a == b
  {
    hide Acts, Known, Membership.Run, WorldRun;
    var run, at := RunIsMatched(ws);
    MirrorAt(run[at[i]], ws[i], a);
    MirrorAt(run[at[j]], ws[j], b);
    TermOf(run[at[i]], a, ws[i].nodes[a], ws[i].granted[a]);
    TermOf(run[at[j]], b, ws[j].nodes[b], ws[j].granted[b]);
    Membership.ElectionSafety(run, at[i], at[j], a, b);
  }

  /** Whoever stands or leads is a member of a configuration that has a say where it is, and its peers are the others. */
  lemma LeadersAreMembers(ws: seq<World>, i: nat, n: Id)
    requires WorldRun(ws) && i < |ws| && n in ws[i].nodes
    ensures ws[i].nodes[n].role != Follower ==> Belongs(ws[i].nodes[n], n)
    ensures PeersMatch(ws[i].nodes[n])
  {
    hide Known, Membership.Run, WorldRun, Stored, InMode, PeersMatch, Proper, InVotingConfig, Belongs;
    var run, at := RunIsMatched(ws);
    MirrorAt(run[at[i]], ws[i], n);
    ModeIsProper(run[at[i]], n, ws[i].nodes[n], ws[i].granted[n]);
    BelongsIs(ws[i].nodes[n], n);
  }

  lemma ModeIsProper(c: E.Cluster, n: Id, s: NodeState, g: seq<int>)
    requires Acts(c, n, s, g)
    ensures ProperConfigs(s)
  {
    hide Proper, Ids, Stored, Seated;
  }

  /** The leader a node names is the one its term has elected. */
  lemma LeaderIdIsElected(ws: seq<World>, i: nat, j: nat, n: Id, b: Id)
    requires WorldRun(ws) && i < |ws| && j < |ws| && n in ws[i].nodes && b in ws[j].nodes
    requires ws[i].nodes[n].leaderId != NOBODY && ws[i].nodes[n].leaderId != n
    requires ws[j].nodes[b].role == Leader && ws[j].nodes[b].term == ws[i].nodes[n].term
    ensures ws[i].nodes[n].leaderId == b
  {
    hide Known, Acts, Membership.Run, WorldRun, E.Inv;
    var run, at := RunIsMatched(ws);
    var c, d := run[at[i]], run[at[j]];
    MirrorAt(c, ws[i], n);
    MirrorAt(d, ws[j], b);
    NamesLeader(c, n, ws[i].nodes[n], ws[i].granted[n]);
    TermOf(d, b, ws[j].nodes[b], ws[j].granted[b]);
    var wins := Membership.RunHasWins(run);
    var t: nat := ws[j].nodes[b].term;
    BeatIsWin(c, wins[at[i]], E.Beat(ws[i].nodes[n].leaderId, t, n));
    LeaderIsWin(d, wins[at[j]], b);
    if at[i] <= at[j] {
      assert wins[at[j]][t] == wins[at[i]][t];
    } else {
      assert wins[at[i]][t] == wins[at[j]][t];
    }
  }

  lemma NamesLeader(c: E.Cluster, n: Id, s: NodeState, g: seq<int>)
    requires Acts(c, n, s, g) && s.leaderId != NOBODY && s.leaderId != n
    ensures s.term >= 0 && E.Beat(s.leaderId, s.term, n) in c.beats
  {
    hide InMode, Stored, Seated;
  }

  lemma BeatIsWin(c: E.Cluster, wins: E.Wins, beat: E.Beat)
    requires E.Inv(c, wins) && beat in c.beats
    ensures beat.term in wins && wins[beat.term].leader == beat.leader
  {
    hide E.VotesBounded, E.VotesFirm, E.VotesUnique, E.WinsSound, E.RolesSound;
  }

  lemma LeaderIsWin(c: E.Cluster, wins: E.Wins, b: Id)
    requires E.Inv(c, wins) && b in c.nodes && c.nodes[b].role == Leader
    ensures c.nodes[b].term in wins && wins[c.nodes[b].term].leader == b
  {
    hide E.VotesBounded, E.VotesFirm, E.VotesUnique, E.WinsSound, E.BeatsSound;
  }

  // ---- quorums across configurations ----

  /** Counting this reply makes the candidate leader. */
  predicate Wins(s: NodeState, asked: int, granted: seq<int>, voter: int, r: RequestVoteReply) {
    s.role == Candidate && CountVote(s, asked, granted, voter, r).0.role == Leader
  }

  lemma WinnersQuorum(c: E.Cluster, n: Id, s: NodeState, g: seq<int>, asked: int, granted: seq<int>, voter: int,
      r: RequestVoteReply) returns (mode: E.Mode)
    requires Acts(c, n, s, g) && Wins(s, asked, granted, voter, r)
    ensures E.HasElectionMajority(c, mode, GrantedIds(granted + [voter]))
  {
    hide Seated, Stored, ElectionMajority, GrantedIds;
    mode := c.nodes[n].mode;
    SameElectionRule(c, mode, s, granted + [voter]);
  }

  /** updateCommitIndex moves the commit index to entry e. */
  ghost predicate Commits(s: NodeState, e: LogEntry) {
    var c := UpdateCommitIndex(s).commitIndex;
    c > s.commitIndex && 0 <= Pos(s, c) < |s.logs| && s.logs[Pos(s, c)] == e
  }

  lemma CommitQuorum(c: E.Cluster, n: Id, s: NodeState, g: seq<int>, e: LogEntry) returns (mode: E.Mode)
    requires Acts(c, n, s, g) && Commits(s, e)
    ensures E.HasElectionMajority(c, mode, Matching(s, e.index))
  {
    hide ApplyCommitted, MajorityInConfig, Proper, Ids, Matching, PeersMatch, Quorum.Majority;
    var k := LargestCommittable(s, LastLogIndex(s));
    CommittedShape(s.(commitIndex := k));
    assert OfChange(c, e);
    mode := if e.op == CONFIG_JOINT then E.Joint else c.nodes[n].mode;
    MatchingMakesMajority(s, s.currentConfig, e.index);
    MatchingMakesMajority(s, s.oldConfig, e.index);
    MatchingMakesMajority(s, s.newConfig, e.index);
    if e.op == CONFIG_JOINT {
      MatchingMakesMajority(s, e.oldConfig, e.index);
      MatchingMakesMajority(s, e.newConfig, e.index);
    }
  }

  /** Whatever two configurations a leader and a candidate have come to, an entry the leader commits is held by one of
      the nodes the candidate needs to win: in the joint phase, for a joint entry, before and after. */
  lemma CommitMeetsElection(ws: seq<World>, i: nat, j: nat, n: Id, e: LogEntry, q: Id, asked: int, granted: seq<int>,
      voter: int, r: RequestVoteReply)
    returns (x: Id)
    requires WorldRun(ws) && i < |ws| && j < |ws| && n in ws[i].nodes && q in ws[j].nodes
    requires Commits(ws[i].nodes[n], e)
    requires Wins(ws[j].nodes[q], asked, granted, voter, r)
    ensures x in Matching(ws[i].nodes[n], e.index) && x in GrantedIds(granted + [voter])
  {
    hide Acts, Known, Membership.Run, WorldRun, Wins, Commits, E.HasElectionMajority, Matching, GrantedIds;
    var run, at := RunIsMatched(ws);
    var c, d := run[at[i]], run[at[j]];
    MirrorAt(c, ws[i], n);
    MirrorAt(d, ws[j], q);
    var m1 := CommitQuorum(c, n, ws[i].nodes[n], ws[i].granted[n], e);
    var m2 := WinnersQuorum(d, q, ws[j].nodes[q], ws[j].granted[q], asked, granted, voter, r);
    SameConfigs(ws, i, j);
    SameRule(c, d, m2, GrantedIds(granted + [voter]));
    x := E.ElectionQuorumsMeet(c, m1, Matching(ws[i].nodes[n], e.index), m2, GrantedIds(granted + [voter]));
  }

  lemma SameRule(c: E.Cluster, d: E.Cluster, mode: E.Mode, g: set<Id>)
    requires E.HasElectionMajority(d, mode, g) && c.oldCfg == d.oldCfg && c.newCfg == d.newCfg
    ensures E.HasElectionMajority(c, mode, g)
  {
  }

  lemma {:induction false} SameChangeAs(ws: seq<World>, i: nat)
    requires WorldRun(ws) && i < |ws|
    ensures ws[i].oldCfg == ws[0].oldCfg && ws[i].newCfg == ws[0].newCfg
  {
    hide Initial;
    if i > 0 {
      SameChangeAs(ws, i - 1);
      assert MovesTo(ws[i - 1], ws[i]);
      MoveKeepsChange(ws[i - 1], ws[i]);
    }
  }

  lemma MoveKeepsChange(w: World, w': World)
    requires MovesTo(w, w')
    ensures w'.oldCfg == w.oldCfg && w'.newCfg == w.newCfg
  {
    hide Restart, HandleAppendEntries, HandleInstallSnapshot, HandleRequestVote, CountVote, StartElection, UpdateCommitIndex,
      TakeAppendReply, TakeInstallReply, TakeBeatReply, AppendOwn, BuildAppend, BuildReadBeat, BuildInstall, File, EntryOf,
      Merged, Heed, BecomeFollower;
    var mv :| Moved(w, w', mv);
  }

  lemma SameConfigs(ws: seq<World>, i: nat, j: nat)
    requires WorldRun(ws) && i < |ws| && j < |ws|
    ensures ws[i].oldCfg == ws[j].oldCfg && ws[i].newCfg == ws[j].newCfg
    ensures Quorum.AlwaysMeet(ws[i].oldCfg, ws[i].newCfg)
  {
    hide MovesTo, Started;
    SameChangeAs(ws, i);
    SameChangeAs(ws, j);
    var w := ws[0];
    if w.oldCfg == w.newCfg {
      Quorum.SelfMeets(w.oldCfg);
    } else {
      Membership.OneChangeMeets(w.oldCfg, w.newCfg);
    }
  }

  /** The nodes that confirm a read, and the leader: more than half of its peers and itself. */
  ghost predicate Confirms(s: NodeState, acks: set<Id>) {
    acks <= Ids(s.peers) && |acks| + 1 > (|s.peers| + 1) / 2
  }

  /** Counting over the union of both configurations is enough: one of them is the union. */
  lemma ReadQuorum(c: E.Cluster, n: Id, s: NodeState, g: seq<int>, acks: set<Id>) returns (mode: E.Mode)
    requires Acts(c, n, s, g) && s.role == Leader && Confirms(s, acks)
    requires c.oldCfg == c.newCfg || Membership.OneChange(c.oldCfg, c.newCfg)
    ensures E.HasElectionMajority(c, mode, acks + {n})
  {
    hide Proper, Ids, Stored, PeersMatch, Contains;
    var all := if s.configState == STABLE then Ids(s.currentConfig) else Ids(s.oldConfig) + Ids(s.newConfig);
    PeersAre(s, all);
    mode := if all == c.oldCfg then E.OldStable else E.NewStable;
    assert all == c.oldCfg || all == c.newCfg;
    assert (acks + {n}) * all == acks + {n};
    assert |acks + {n}| == |acks| + 1;
  }

  lemma PeersAre(s: NodeState, all: set<Id>)
    requires PeersMatch(s) && ProperConfigs(s) && InVotingConfig(s, s.id)
    requires all == if s.configState == STABLE then Ids(s.currentConfig) else Ids(s.oldConfig) + Ids(s.newConfig)
    ensures Ids(s.peers) == all - {s.id} && s.id in all && |s.peers| + 1 == |all|
  {
    hide Proper, Ids, Contains;
    forall x: Id
      ensures x in Ids(s.peers) <==> x in all - {s.id}
      ensures InVotingConfig(s, x) <==> x in all
    {
      InIds(s.peers, x);
      InIds(s.currentConfig, x);
      InIds(s.oldConfig, x);
      InIds(s.newConfig, x);
    }
    PeersProper(s);
    SizeIsCardinality(s.peers);
    assert all == Ids(s.peers) + {s.id};
  }

  lemma PeersProper(s: NodeState)
    requires PeersMatch(s) && ProperConfigs(s)
    ensures Proper(s.peers)
  {
    hide Proper;
    forall i | 0 <= i < |s.peers|
      ensures s.peers[i].id != NOBODY
    {
      assert Contains(s.peers, s.peers[i].id);
      NobodyContained(s.currentConfig);
      NobodyContained(s.oldConfig);
      NobodyContained(s.newConfig);
    }
    MakesProper(s.peers);
  }

  lemma MakesProper(cfg: seq<PeerInfo>)
    requires Distinct(cfg) && forall i | 0 <= i < |cfg| :: cfg[i].id != NOBODY
    ensures Proper(cfg)
  {
  }

  /** A leader whose read is confirmed shares a node with every quorum that elects another, also in the joint phase,
      where it asks for a majority of the union only. */
  lemma ReadMeetsElection(ws: seq<World>, i: nat, j: nat, n: Id, acks: set<Id>, q: Id, asked: int, granted: seq<int>,
      voter: int, r: RequestVoteReply)
    returns (x: Id)
    requires WorldRun(ws) && i < |ws| && j < |ws| && n in ws[i].nodes && q in ws[j].nodes
    requires ws[i].nodes[n].role == Leader && Confirms(ws[i].nodes[n], acks)
    requires Wins(ws[j].nodes[q], asked, granted, voter, r)
    ensures x in acks + {n} && x in GrantedIds(granted + [voter])
  {
    hide Acts, Known, Membership.Run, MovesTo, Started, Wins, Confirms, E.HasElectionMajority, GrantedIds;
    var run, at := RunIsMatched(ws);
    var c, d := run[at[i]], run[at[j]];
    MirrorAt(c, ws[i], n);
    MirrorAt(d, ws[j], q);
    SameChangeAs(ws, i);
    SameConfigs(ws, i, j);
    var m1 := ReadQuorum(c, n, ws[i].nodes[n], ws[i].granted[n], acks);
    var m2 := WinnersQuorum(d, q, ws[j].nodes[q], ws[j].granted[q], asked, granted, voter, r);
    SameRule(c, d, m2, GrantedIds(granted + [voter]));
    x := E.ElectionQuorumsMeet(c, m1, acks + {n}, m2, GrantedIds(granted + [voter]));
  }
}
