/**
 A cluster of node objects: their states are those of the class, their moves are its methods. Every run of it is
 matched by a run of the protocol, so what is proved about the protocol holds of the objects. The cluster may go through
 one addNode or removeNode: its logs may hold the configuration entries of that change, each node takes them into effect
 when it comes to them, and a node starts with the members of its start-up file, the old ones or the new ones. Nodes
 compact their logs, send snapshots and install them, and crash between two methods, after persisting the term of a
 request, inside the apply loop and in the middle of an install. Four moves are left out: an AppendEntries that straddles
 its receiver's boundary; a snapshot whose receiver has another entry at its boundary, or has applied more than the
 sender's database had; the reply to a snapshot where the leader's boundary is above both what was sent and what it knows
 the peer to hold; and a reply that is taken after the slot it was asked for has gone to another peer.
 */
module NodeCluster {
  import opened Types
  import opened Node
  import opened NodeConfig
  import opened NodeLog
  import opened NodeApply
  import opened NodeInvariant
  import opened NodeModes
  import opened NodeRefinement
  import opened SnapshotRefinement
  import opened Protocol
  import RR = ReadRefinement
  import E = Election
  import Invariant
  import Theorems
  import ReadProof
  import Quorum
  import Membership

  /** `granted` is the vote list of each node's election thread; `net` keeps every message ever sent; `asked` is the
      peer list a read goes through. */
  datatype World = World(
    oldCfg: set<Id>, newCfg: set<Id>, nodes: map<Id, NodeState>, granted: map<Id, seq<int>>, net: set<Message>,
    calls: map<nat, Read>, asked: map<nat, seq<PeerInfo>>)

  datatype Move =
    | Elect(n: Id)
    | AnswerVote(n: Id, m: Message)
    | TallyVote(n: Id, m: Message)
    | Write(n: Id, op: CommandType, key: string, value: string)
    | Reconfigure(n: Id, e: LogEntry)
    | SetVoting(n: Id, voting: bool)
    | Send(n: Id, i: nat, a: Append)
    | Answer(n: Id, a: Append)
    | TakeReply(n: Id, m: Message, i: nat)
    | Advance(n: Id)
    | SendSnapshot(n: Id, i: nat, m: Message)
    | AnswerSnapshot(n: Id, m: Message)
    | TakeSnapshotReply(n: Id, m: Message, i: nat)
    | Crash(n: Id, address: (string, int), others: seq<PeerInfo>)
    | CrashLearning(n: Id, m: Message, address: (string, int), others: seq<PeerInfo>)
    | CrashAnswering(n: Id, a: Append, j: int, address: (string, int), others: seq<PeerInfo>)
    | CrashAdvancing(n: Id, j: int, address: (string, int), others: seq<PeerInfo>)
    | CrashInstalling(n: Id, m: Message, address: (string, int), others: seq<PeerInfo>)
    | Begin(n: Id, r: nat, key: string)
    | Check(n: Id, r: nat)
    | Noop(n: Id, r: nat)
    | CheckNoop(n: Id, r: nat)
    | TakeIndex(n: Id, r: nat)
    | Beat(n: Id, r: nat, a: Append)
    | TakeBeat(n: Id, r: nat, m: Message)
    | Confirm(n: Id, r: nat)
    | Wait(n: Id, r: nat)
    | Finish(n: Id, r: nat)
    | GiveUp(n: Id, r: nat)

  ghost predicate File(w: World, n: Id, address: (string, int), others: seq<PeerInfo>) {
    FileOf(w.oldCfg, w.newCfg, [PeerInfo(n, address.0, address.1)] + others)
  }

  /** Node n goes to state t with vote list g; messages are added, calls become `calls`. */
  ghost predicate Acts(w: World, w': World, n: Id, t: NodeState, g: seq<int>, sent: set<Message>,
      calls: map<nat, Read>) {
    w' == w.(nodes := w.nodes[n := t], granted := w.granted[n := g], net := w.net + sent, calls := calls)
  }

  ghost predicate ElectionMove(w: World, w': World, mv: Move)
    requires mv.Elect? || mv.AnswerVote? || mv.TallyVote?
  {
    && mv.n in w.nodes && mv.n in w.granted
    && var n := mv.n;
    && var s, g := w.nodes[n], w.granted[n];
    match mv
    case Elect(_) =>
      && var (t, r) := Node.StartElection(s);
      && s.role != Leader && (r.Some? ==> r.value.term >= 0 && r.value.lastLogIndex >= 0)
      && Acts(w, w', n, t, if r.Some? then [n] else g,
              if r.Some? then {RequestVote(n, r.value.term, r.value.lastLogIndex, r.value.lastLogTerm)} else {}, w.calls)
    case AnswerVote(_, m) =>
      && m in w.net && m.RequestVote? && m.cand != n && m.cand in w.nodes
      && var (t, r) := HandleRequestVote(s, RequestVoteArgs(m.term, m.cand, m.lastIndex, m.lastTerm));
      && r.term >= 0
      && Acts(w, w', n, t, g, {VoteReply(n, m.cand, m.term, r.term, r.voteGranted)}, w.calls)
    case TallyVote(_, m) =>
      && m in w.net && m.VoteReply? && m.cand == n && m.voter in w.nodes && s.role == Candidate && s.term == m.asked
      && var (t, g', _) := Node.CountVote(s, m.asked, g, m.voter, RequestVoteReply(m.term, m.granted));
      Acts(w, w', n, t, g', {}, w.calls)
  }

  predicate IsLog(mv: Move) {
    mv.Write? || mv.Reconfigure? || mv.SetVoting? || mv.Send? || mv.Answer? || mv.TakeReply? || mv.Advance?
  }

  ghost predicate LogMove(w: World, w': World, mv: Move)
    requires IsLog(mv)
  {
    && mv.n in w.nodes && mv.n in w.granted
    && var n := mv.n;
    && var s, g := w.nodes[n], w.granted[n];
    match mv
    case Write(_, op, key, value) =>
      && s.role == Leader && (op == PUT || op == DEL)
      && Acts(w, w', n, AppendOwn(s, op, key, value, [], []), g, {}, w.calls)
    case Reconfigure(_, e) =>
      && s.role == Leader && IsConfig(e) && EntryOf(w.oldCfg, w.newCfg, e)
      && Acts(w, w', n, AppendOwn(s, e.op, e.key, e.value, e.oldConfig, e.newConfig), g, {}, w.calls)
    case SetVoting(_, voting) => Acts(w, w', n, s.(votingMember := voting), g, {}, w.calls)
    case Send(_, i, a) =>
      && s.role == Leader && i < |s.peers| && i < |s.nextIndex| && s.nextIndex[i] > s.lastIncludedIndex
      && ToAppend(a) == BuildAppend(s, s.nextIndex[i]) && a.dst == s.peers[i].id && a.call == None
      && Acts(w, w', n, s, g, {AppendEntries(a)}, w.calls)
    case Answer(_, a) =>
      && AppendEntries(a) in w.net && a.dst == n
      && (a.prev >= s.lastIncludedIndex || a.prev + |a.entries| <= s.lastIncludedIndex)
      && var (t, r) := HandleAppendEntries(s, ToAppend(a));
      && r.term >= 0
      && Acts(w, w', n, t, g, {AppendReply(a, r.term, r.success)}, w.calls)
    case TakeReply(_, m, i) =>
      && m in w.net && m.AppendReply? && m.a.src == n && m.a.call == None && Leads(s, m.a.term)
      && i < |s.peers| && i < |s.nextIndex| && i < |s.matchIndex| && s.peers[i].id == m.a.dst
      && Acts(w, w', n, Node.TakeAppendReply(s, i, ToAppend(m.a), m.a.term, AppendEntriesReply(m.term, m.success)), g, {}, w.calls)
    case Advance(_) =>
      && s.role == Leader
      && Acts(w, w', n, UpdateCommitIndex(s), g, {}, w.calls)
  }

  ghost predicate OtherMove(w: World, w': World, mv: Move)
    requires mv.SendSnapshot? || mv.AnswerSnapshot? || mv.TakeSnapshotReply?
  {
    && mv.n in w.nodes && mv.n in w.granted
    && var n := mv.n;
    && var s, g := w.nodes[n], w.granted[n];
    match mv
    case SendSnapshot(_, i, m) =>
      && s.role == Leader && i < |s.peers| && i < |s.nextIndex| && s.nextIndex[i] <= s.lastIncludedIndex
      && m.Install? && m.src == n && m.dst == s.peers[i].id && m.upto == s.lastApplied && ToInstall(m) == BuildInstall(s)
      && Acts(w, w', n, s, g, {m}, w.calls)
    case AnswerSnapshot(_, m) =>
      && m in w.net && m.Install? && m.dst == n
      && (m.term < s.term || m.base <= s.lastIncludedIndex || Installable(s, m))
      && var (t, r) := HandleInstallSnapshot(s, ToInstall(m));
      && r.term >= 0
      && Acts(w, w', n, t, g, {InstallReply(m.src, n, m.term, r.term, m.base)}, w.calls)
    case TakeSnapshotReply(_, m, i) =>
      && m in w.net && m.InstallReply? && m.src == n && Leads(s, m.asked)
      && i < |s.peers| && i < |s.nextIndex| && i < |s.matchIndex| && s.peers[i].id == m.dst
      && (m.term > s.term || s.lastIncludedIndex <= m.base || s.lastIncludedIndex <= s.matchIndex[i])
      && Acts(w, w', n, Node.TakeInstallReply(s, i, m.asked, InstallSnapshotReply(m.term)), g, {}, w.calls)
  }

  predicate IsCrash(mv: Move) {
    mv.Crash? || mv.CrashLearning? || mv.CrashAnswering? || mv.CrashAdvancing? || mv.CrashInstalling?
  }

  /** A crash between two methods; once a handler has persisted the term of a request; with the entries of a request
      persisted and the apply loop come to j; in the apply loop of updateCommitIndex; with the database of a snapshot
      loaded and nothing else of it persisted. The node starts again. */
  ghost predicate CrashMove(w: World, w': World, mv: Move)
    requires IsCrash(mv)
  {
    && mv.n in w.nodes && mv.n in w.granted
    && var n, address, others := mv.n, mv.address, mv.others;
    && var s := w.nodes[n];
    && File(w, n, address, others)
    && match mv
       case Crash(_, _, _) => Acts(w, w', n, Node.Restart(s, address, others), [], {}, FailReads(w.calls, n))
       case CrashLearning(_, m, _, _) =>
         && m in w.net && (m.RequestVote? || (m.AppendEntries? && m.a.dst == n) || (m.Install? && m.dst == n))
         && Acts(w, w', n, Node.Restart(Learned(s, m), address, others), [], {}, FailReads(w.calls, n))
       case CrashAnswering(_, a, j, _, _) =>
         && AppendEntries(a) in w.net && a.dst == n && Accepted(s, ToAppend(a))
         && s.lastApplied <= j <= AnswerCommits(Stored(s, a), a.leaderCommit)
         && Acts(w, w', n, Node.Restart(AppliedUntil(Stored(s, a), j), address, others), [], {}, FailReads(w.calls, n))
       case CrashAdvancing(_, j, _, _) =>
         && s.role == Leader && s.lastApplied <= j <= LargestCommittable(s, LastLogIndex(s))
         && Acts(w, w', n, Node.Restart(AppliedUntil(s, j), address, others), [], {}, FailReads(w.calls, n))
       case CrashInstalling(_, m, _, _) =>
         && m in w.net && m.Install? && m.dst == n && m.term >= s.term && m.base > s.lastIncludedIndex && s.lastApplied <= m.upto
         && Acts(w, w', n, Node.Restart(Loaded(s, m), address, others), [], {}, FailReads(w.calls, n))
  }

  predicate IsRead(mv: Move) {
    mv.Check? || mv.Noop? || mv.CheckNoop? || mv.TakeIndex? || mv.Beat? || mv.TakeBeat? || mv.Confirm? || mv.Wait? || mv.Finish? || mv.GiveUp?
  }

  ghost predicate ReadMove(w: World, w': World, mv: Move)
    requires IsRead(mv)
  {
    && mv.n in w.nodes && mv.n in w.granted && mv.r in w.calls && w.calls[mv.r].node == mv.n
    && var n, r := mv.n, mv.r;
    && var s, g, rd := w.nodes[n], w.granted[n], w.calls[r];
    match mv
    case Check(_, _) =>
      && rd.phase == Checking && TermCommitted(s)
      && Acts(w, w', n, s, g, {}, w.calls[r := rd.(phase := Ensured)])
    case Noop(_, _) =>
      && rd.phase == Checking && s.role == Leader && LastLogIndex(s) >= 0
      && Acts(w, w', n, AppendOwn(s, NONE, "__noop__", "__noop__", [], []), g, {},
              w.calls[r := rd.(phase := Proposed, noop := LastLogIndex(s) + 1)])
    case CheckNoop(_, _) =>
      && rd.phase == Proposed && NoopCommitted(s, rd.noop)
      && Acts(w, w', n, s, g, {}, w.calls[r := rd.(phase := Ensured)])
    case TakeIndex(_, _) =>
      && rd.phase == Ensured && Leads(s, rd.term) && s.commitIndex >= 0
      && Acts(w.(asked := w.asked[r := s.peers]), w', n, s, g, {}, w.calls[r := rd.(phase := Confirming, index := s.commitIndex)])
    case Beat(_, _, a) =>
      && rd.phase == Confirming && Leads(s, rd.term)
      && ToAppend(a) == BuildReadBeat(s) && r in w.asked && a.dst in Ids(w.asked[r]) && a.call == Some(r)
      && Acts(w, w', n, s, g, {AppendEntries(a)}, w.calls)
    case TakeBeat(_, _, m) =>
      && rd.phase == Confirming && m in w.net && m.AppendReply? && m.a.src == n && m.a.call == Some(r)
      && r in w.asked && m.a.dst in Ids(w.asked[r])
      && var (t, c) := Node.TakeBeatReply(s, rd.term, 1 + |rd.acks|, AppendEntriesReply(m.term, m.success));
      Acts(w, w', n, t, g, {}, w.calls[r := if c.None? then rd.(phase := Failed)
                                             else if m.success then rd.(acks := rd.acks + {m.a.dst}) else rd])
    case Confirm(_, _) =>
      && rd.phase == Confirming && r in w.asked && |rd.acks| + 1 > (|w.asked[r]| + 1) / 2
      && Acts(w, w', n, s, g, {}, w.calls[r := rd.(phase := Confirmed)])
    case Wait(_, _) =>
      && rd.phase == Confirmed && Leads(s, rd.term) && s.lastApplied >= rd.index
      && Acts(w, w', n, s, g, {}, w.calls[r := rd.(phase := Applied)])
    case Finish(_, _) =>
      && rd.phase == Applied && Leads(s, rd.term)
      && Acts(w, w', n, s, g, {}, w.calls[r := rd.(phase := Done(RR.Result(FinishRead(s, rd.term, rd.key))))])
    case GiveUp(_, _) =>
      && !rd.phase.Done?
      && Acts(w, w', n, s, g, {}, w.calls[r := rd.(phase := Failed)])
  }

  ghost predicate BeginMove(w: World, w': World, mv: Move)
    requires mv.Begin?
  {
    && mv.n in w.nodes && mv.n in w.granted
    && var s := w.nodes[mv.n];
    && mv.r !in w.calls && s.role == Leader && s.term >= 0
    && Acts(w, w', mv.n, s, w.granted[mv.n], {}, w.calls[mv.r := Read(mv.n, s.term, mv.key, Checking, 0, 0, {})])
  }

  ghost predicate Moved(w: World, w': World, mv: Move) {
    if mv.Elect? || mv.AnswerVote? || mv.TallyVote? then ElectionMove(w, w', mv)
    else if IsLog(mv) then LogMove(w, w', mv)
    else if mv.SendSnapshot? || mv.AnswerSnapshot? || mv.TakeSnapshotReply? then OtherMove(w, w', mv)
    else if IsCrash(mv) then CrashMove(w, w', mv)
    else if mv.Begin? then BeginMove(w, w', mv)
    else ReadMove(w, w', mv)
  }

  ghost predicate Started(w: World, n: Id, s: NodeState, threshold: int) {
    exists address: (string, int), others: seq<PeerInfo> :: StartedAs(w, n, s, address, others, threshold)
  }

  ghost predicate StartedAs(w: World, n: Id, s: NodeState, address: (string, int), others: seq<PeerInfo>, threshold: int) {
    File(w, n, address, others) && s == Boot(n, address, others, threshold, map[], Saved(0, NOBODY, 0, 0, []))
  }

  /** One addNode or removeNode, or none. Every member of either configuration is a process. All start with one snapshot
      threshold. */
  ghost predicate InitialWith(w: World, threshold: int) {
    && (w.oldCfg == w.newCfg || Membership.OneChange(w.oldCfg, w.newCfg))
    && w.oldCfg + w.newCfg <= w.nodes.Keys && w.granted.Keys == w.nodes.Keys
    && (forall n | n in w.nodes :: Started(w, n, w.nodes[n], threshold))
    && w.net == {} && w.calls == map[] && w.asked == map[]
  }

  ghost predicate Initial(w: World) {
    exists threshold: int :: InitialWith(w, threshold)
  }

  ghost predicate MovesTo(w: World, w': World) {
    exists mv :: Moved(w, w', mv)
  }

  ghost predicate WorldRun(ws: seq<World>) {
    && |ws| > 0 && Initial(ws[0])
    && forall i, j | 0 <= i < j < |ws| && j == i + 1 :: MovesTo(ws[i], ws[j])
  }

  // ---- the matching protocol state ----

  /** No request holds entries of another change. */
  ghost predicate NetOfChange(c: E.Cluster, net: set<Message>) {
    forall m | m in net && m.AppendEntries? :: AllOfChange(c, m.a.entries)
  }

  /** The entries a snapshot stands for were sent with it. */
  ghost predicate Sliced(sys: Sys, m: Message, a: Append)
    requires m.Install?
  {
    SliceFor(m, a) && AppendEntries(a) in sys.net && AllOfChange(sys.e, a.entries)
  }

  ghost predicate HasSlice(sys: Sys, m: Message)
    requires m.Install?
  {
    exists a :: Sliced(sys, m, a)
  }

  ghost predicate SlicesSent(sys: Sys, net: set<Message>) {
    forall m | m in net && m.Install? :: HasSlice(sys, m)
  }

  ghost predicate NoInstall(net: set<Message>) {
    forall m | m in net :: !m.Install?
  }

  /** A read goes through the other members at one mode, and counts nobody else. */
  ghost predicate RoundOK(c: E.Cluster, n: Id, asked: seq<PeerInfo>, acks: set<Id>) {
    RR.Asks(c, n, asked) && acks <= Ids(asked)
  }

  predicate Early(rd: Read) {
    rd.phase == Checking || rd.phase == Proposed || rd.phase == Ensured
  }

  ghost predicate RoundsOK(c: E.Cluster, calls: map<nat, Read>, asked: map<nat, seq<PeerInfo>>) {
    && asked.Keys <= calls.Keys
    && (forall r | r in calls && r !in asked :: calls[r].acks == {})
    && (forall r | r in asked :: RoundOK(c, calls[r].node, asked[r], calls[r].acks) && !Early(calls[r]))
  }

  ghost predicate Mirror(sys: Sys, w: World, fulls: map<Id, seq<LogEntry>>) {
    && sys.e.oldCfg == w.oldCfg && sys.e.newCfg == w.newCfg
    && w.nodes.Keys == w.granted.Keys == fulls.Keys == sys.e.nodes.Keys == sys.reps.Keys
    && (forall n | n in w.nodes :: Plays(sys, n, w.nodes[n], fulls[n], w.granted[n]))
    && w.net <= sys.net && w.calls == sys.calls
    && NetOfChange(sys.e, w.net) && SlicesSent(sys, w.net)
    && RoundsOK(sys.e, w.calls, w.asked)
  }

  lemma MirrorStep(sys: Sys, sys': Sys, w: World, w': World, fulls: map<Id, seq<LogEntry>>, n: Id, t: NodeState,
      full: seq<LogEntry>, g: seq<int>, sent: set<Message>, calls: map<nat, Read>)
    requires Mirror(sys, w, fulls) && n in w.nodes && OnlyActor(sys, sys', n)
    requires Plays(sys', n, t, full, g)
    requires Acts(w.(asked := w'.asked), w', n, t, g, sent, calls) && sent <= sys'.net && NetOfChange(sys.e, sent) && calls == sys'.calls
    requires NoInstall(sent) || SlicesSent(sys', sent)
    requires RoundsOK(sys.e, calls, w'.asked)
    ensures Mirror(sys', w', fulls[n := full])
  {
    hide Plays, NetOfChange, RoundsOK, SlicesSent, NoInstall;
    forall q | q in w'.nodes
      ensures Plays(sys', q, w'.nodes[q], fulls[n := full][q], w'.granted[q])
    {
      if q != n {
        StillPlays(sys, sys', q, w.nodes[q], fulls[q], w.granted[q]);
      }
    }
    MoreSent(sys.e, w.net, sent);
    SameNet(sys.e, sys'.e, w'.net);
    MoreSlices(sys, sys', n, w.net, sent);
    SameRounds(sys.e, sys'.e, calls, w'.asked);
  }

  lemma MoreSent(c: E.Cluster, net: set<Message>, sent: set<Message>)
    requires NetOfChange(c, net) && NetOfChange(c, sent)
    ensures NetOfChange(c, net + sent)
  {
    hide AllOfChange;
  }

  lemma MoreSlices(sys: Sys, sys': Sys, n: Id, net: set<Message>, sent: set<Message>)
    requires SlicesSent(sys, net) && OnlyActor(sys, sys', n) && (NoInstall(sent) || SlicesSent(sys', sent))
    ensures SlicesSent(sys', net + sent)
  {
    hide AllOfChange, SliceFor;
    forall m | m in net && m.Install?
      ensures HasSlice(sys', m)
    {
      var a :| Sliced(sys, m, a);
      SameChange(sys.e, sys'.e, a.entries);
      assert Sliced(sys', m, a);
    }
  }

  lemma SliceOf(sys: Sys, net: set<Message>, m: Message) returns (a: Append)
    requires SlicesSent(sys, net) && m in net && m.Install?
    ensures SliceFor(m, a) && AppendEntries(a) in sys.net && AllOfChange(sys.e, a.entries)
  {
    hide SliceFor, AllOfChange;
    assert HasSlice(sys, m);
    a :| Sliced(sys, m, a);
  }

  lemma SameNet(c: E.Cluster, c': E.Cluster, net: set<Message>)
    requires NetOfChange(c, net) && SameSides(c, c')
    ensures NetOfChange(c', net)
  {
    hide AllOfChange;
    forall m | m in net && m.AppendEntries?
      ensures AllOfChange(c', m.a.entries)
    {
      SameChange(c, c', m.a.entries);
    }
  }

  lemma SameRounds(c: E.Cluster, c': E.Cluster, calls: map<nat, Read>, asked: map<nat, seq<PeerInfo>>)
    requires RoundsOK(c, calls, asked) && SameSides(c, c')
    ensures RoundsOK(c', calls, asked)
  {
    hide Proper, Ids;
    forall r | r in asked
      ensures RoundOK(c', calls[r].node, asked[r], calls[r].acks)
    {
      assert RoundOK(c, calls[r].node, asked[r], calls[r].acks);
      var mode :| RR.OtherMembers(c, calls[r].node, mode, Ids(asked[r]));
      assert RR.OtherMembers(c', calls[r].node, mode, Ids(asked[r]));
    }
  }

  /** A call moves on without counting anybody, or counts one it has asked. */
  lemma RoundMoves(c: E.Cluster, calls: map<nat, Read>, asked: map<nat, seq<PeerInfo>>, r: nat, rd: Read)
    requires RoundsOK(c, calls, asked) && r in calls && rd.node == calls[r].node && (Early(rd) ==> Early(calls[r]))
    requires rd.acks == calls[r].acks || (r in asked && rd.acks <= calls[r].acks + Ids(asked[r]))
    ensures RoundsOK(c, calls[r := rd], asked)
  {
    hide RR.Asks, Ids;
  }

  lemma RoundBegins(c: E.Cluster, calls: map<nat, Read>, asked: map<nat, seq<PeerInfo>>, r: nat, rd: Read)
    requires RoundsOK(c, calls, asked) && r !in calls && rd.acks == {}
    ensures RoundsOK(c, calls[r := rd], asked)
  {
    hide RR.Asks, Ids;
  }

  /** When a round starts, nobody has been counted yet. */
  lemma RoundAsks(c: E.Cluster, calls: map<nat, Read>, asked: map<nat, seq<PeerInfo>>, r: nat, rd: Read, peers: seq<PeerInfo>)
    requires RoundsOK(c, calls, asked) && r in calls && rd.acks == calls[r].acks && RR.Asks(c, rd.node, peers)
    requires Early(calls[r]) && !Early(rd)
    ensures RoundsOK(c, calls[r := rd], asked[r := peers])
  {
    hide RR.Asks, Ids;
  }

  lemma RoundsFail(c: E.Cluster, calls: map<nat, Read>, asked: map<nat, seq<PeerInfo>>, n: Id)
    requires RoundsOK(c, calls, asked)
    ensures RoundsOK(c, FailReads(calls, n), asked)
  {
    hide RR.Asks, Ids;
  }

  lemma NoneSent(c: E.Cluster)
    ensures NetOfChange(c, {}) && NoInstall({})
  {
  }

  lemma OneSent(c: E.Cluster, m: Message)
    ensures (m.AppendEntries? ==> AllOfChange(c, m.a.entries)) ==> NetOfChange(c, {m})
    ensures !m.Install? ==> NoInstall({m})
  {
    hide AllOfChange;
  }

  lemma MirrorAt(sys: Sys, w: World, fulls: map<Id, seq<LogEntry>>, n: Id)
    requires Mirror(sys, w, fulls) && n in w.nodes
    ensures n in w.granted && n in fulls && Plays(sys, n, w.nodes[n], fulls[n], w.granted[n])
    ensures w.net <= sys.net && w.calls == sys.calls && w.nodes.Keys == sys.e.nodes.Keys && NetOfChange(sys.e, w.net)
    ensures sys.e.oldCfg == w.oldCfg && sys.e.newCfg == w.newCfg && RoundsOK(sys.e, w.calls, w.asked) && SlicesSent(sys, w.net)
  {
    hide Plays, NetOfChange, RoundsOK, SlicesSent;
  }

  /** What a move does to the whole log of its node: a leader appends, an accepted request is merged, and nothing else
      touches it. Compaction does not show. */
  ghost function NewFull(s: NodeState, full: seq<LogEntry>, mv: Move): seq<LogEntry> {
    match mv
    case Write(_, op, key, value) => full + [LogEntry(s.term, |full| + 1, op, key, value, [], [])]
    case Reconfigure(_, e) => full + [OwnNext(s, full, e.op, e.key, e.value, e.oldConfig, e.newConfig)]
    case Noop(_, _) => full + [LogEntry(s.term, |full| + 1, NONE, "__noop__", "__noop__", [], [])]
    case Answer(_, a) => FullAfterAppend(s, full, ToAppend(a))
    case CrashAnswering(_, a, _, _, _) => FullAfterAppend(s, full, ToAppend(a))
    case _ => full
  }

  /** An install leaves what is past the boundary; at the boundary the entry is the sender's. */
  ghost predicate AfterSnapshot(full: seq<LogEntry>, m: Message, full': seq<LogEntry>)
    requires m.Install?
  {
    && |full'| >= m.base && TermAt(full', m.base) == m.baseTerm
    && full'[m.base..] == if |full| <= m.base then [] else full[m.base..]
  }

  ghost predicate FullMoves(s: NodeState, full: seq<LogEntry>, mv: Move, full': seq<LogEntry>) {
    if mv.AnswerSnapshot? && mv.m.Install? && mv.m.term >= s.term && mv.m.base > s.lastIncludedIndex
    then AfterSnapshot(full, mv.m, full')
    else full' == NewFull(s, full, mv)
  }

  ghost predicate Follows(w: World, mv: Move, fulls: map<Id, seq<LogEntry>>, fulls': map<Id, seq<LogEntry>>) {
    && mv.n in w.nodes && mv.n in fulls && mv.n in fulls'
    && fulls' == fulls[mv.n := fulls'[mv.n]]
    && FullMoves(w.nodes[mv.n], fulls[mv.n], mv, fulls'[mv.n])
  }

  ghost predicate Evolves(w: World, w': World, fulls: map<Id, seq<LogEntry>>, fulls': map<Id, seq<LogEntry>>) {
    exists mv :: Moved(w, w', mv) && Follows(w, mv, fulls, fulls')
  }

  // ---- every move is matched ----

  /** Standing, answering and counting. */
  lemma ElectionSim(sys: Sys, h: Invariant.History, w: World, w': World, mv: Move, fulls: map<Id, seq<LogEntry>>)
    returns (sys': Sys, fulls': map<Id, seq<LogEntry>>)
    requires Mirror(sys, w, fulls) && Invariant.LogInv(sys, h)
    requires (mv.Elect? || mv.AnswerVote? || mv.TallyVote?) && ElectionMove(w, w', mv)
    ensures Reaches(sys, sys') && Mirror(sys', w', fulls') && Follows(w, mv, fulls, fulls') && w'.calls == w.calls
  {
    hide Mirror, Plays, Reaches, OnlyActor, Invariant.LogInv, NetOfChange, RoundsOK, Node.StartElection, HandleRequestVote,
      Node.CountVote;
    var n := mv.n;
    MirrorAt(sys, w, fulls, n);
    var s, g, full := w.nodes[n], w.granted[n], fulls[n];
    fulls' := fulls[n := full];
    NoneSent(sys.e);
    match mv
    case Elect(_) =>
      sys' := StartElectionRefines(sys, n, s, full, g);
      var (t, r) := Node.StartElection(s);
      if r.Some? {
        OneSent(sys.e, RequestVote(n, t.term, |full|, LastTerm(full)));
        MirrorStep(sys, sys', w, w', fulls, n, t, full, [n], {RequestVote(n, t.term, |full|, LastTerm(full))}, w.calls);
      } else {
        MirrorStep(sys, sys', w, w', fulls, n, t, full, g, {}, w.calls);
      }
    case AnswerVote(_, m) =>
      sys' := RequestVoteRefines(sys, n, s, full, g, m);
      var (t, r) := HandleRequestVote(s, RequestVoteArgs(m.term, m.cand, m.lastIndex, m.lastTerm));
      var reply := VoteReply(n, m.cand, m.term, r.term, r.voteGranted);
      OneSent(sys.e, reply);
      MirrorStep(sys, sys', w, w', fulls, n, t, full, g, {reply}, w.calls);
    case TallyVote(_, m) =>
      GrantedIsVote(sys, h, m);
      sys' := CountVoteRefines(sys, n, s, full, g, m);
      var (t, g', _) := Node.CountVote(s, m.asked, g, m.voter, RequestVoteReply(m.term, m.granted));
      MirrorStep(sys, sys', w, w', fulls, n, t, full, g', {}, w.calls);
  }

  lemma GrantedIsVote(sys: Sys, h: Invariant.History, m: Message)
    requires Invariant.LogInv(sys, h) && m in sys.net && m.VoteReply?
    ensures m.granted ==> E.Vote(m.voter, m.asked, m.cand) in sys.e.votes
  {
    hide Invariant.LogInv, Invariant.LogsOK, Invariant.RolesOK, Invariant.Shape, Invariant.StoredOK,
      Invariant.PeersOK, Invariant.NodesKeep,
      Invariant.VotesKeep, Invariant.LeadersKeep, Invariant.PointsOK, Invariant.CommitsOK, Invariant.AppendOK, Invariant.ReplyOK;
    Invariant.LogParts(sys, h);
    assert Invariant.MessageOK(sys, h, m);
  }

  /** nextIndex never points past the end of the leader's log. */
  lemma NextWithin(sys: Sys, h: Invariant.History, n: Id, s: NodeState, full: seq<LogEntry>, g: seq<int>, i: nat)
    requires Invariant.LogInv(sys, h) && Plays(sys, n, s, full, g) && s.role == Leader && i < |s.peers| && i < |s.nextIndex|
    ensures s.nextIndex[i] <= |full| + 1
  {
    hide Invariant.LogInv, Invariant.LogsOK, Invariant.RolesOK, Invariant.Shape, Invariant.StoredOK, Invariant.NetOK,
      Invariant.NodesKeep,
      Invariant.VotesKeep, Invariant.LeadersKeep, Invariant.PointsOK, Invariant.CommitsOK, AllOfChange, InMode, Seated, Represents, E.Active;
    Invariant.LogParts(sys, h);
    PeerIsMember(sys, n, s, i);
    var p := s.peers[i].id as Id;
    assert p in sys.reps[n].next && sys.reps[n].next[p] == s.nextIndex[i];
  }

  lemma SentOfChange(c: E.Cluster, s: NodeState, full: seq<LogEntry>, next: int)
    requires Represents(s, full) && AllOfChange(c, full) && 0 <= s.lastIncludedIndex < next <= |full| + 1
    ensures AllOfChange(c, BuildAppend(s, next).entries)
  {
    hide OfChange, Represents, BuildAppend;
    BuildOnFull(s, full, next);
    PartOfChange(c, full, full[next - 1..]);
  }

  lemma OwnLogSim(sys: Sys, h: Invariant.History, w: World, w': World, mv: Move, fulls: map<Id, seq<LogEntry>>)
    returns (sys': Sys, fulls': map<Id, seq<LogEntry>>)
    requires Mirror(sys, w, fulls) && Invariant.LogInv(sys, h)
    requires (mv.Write? || mv.Reconfigure? || mv.SetVoting? || mv.Advance?) && LogMove(w, w', mv)
    ensures Reaches(sys, sys') && Mirror(sys', w', fulls') && Follows(w, mv, fulls, fulls') && w'.calls == w.calls
  {
    hide Mirror, Plays, Runs, Reaches, OnlyActor, Invariant.LogInv, RoundsOK, AllOfChange, OfChange, Represents, UpdateCommitIndex, AppendOwn;
    var n := mv.n;
    MirrorAt(sys, w, fulls, n);
    var s, g, full := w.nodes[n], w.granted[n], fulls[n];
    PlaysHere(sys, n, s, full, g);
    NoneSent(sys.e);
    match mv
    case Write(_, op, key, value) =>
      var full' := full + [OwnNext(s, full, op, key, value, [], [])];
      OrdinaryIsOfChange(sys.e, s, full, op, key, value);
      sys' := ProposeRefines(sys, n, s, full, g, op, key, value, [], []);
      fulls' := fulls[n := full'];
      MirrorStep(sys, sys', w, w', fulls, n, AppendOwn(s, op, key, value, [], []), full', g, {}, w.calls);
    case Reconfigure(_, e) =>
      var full' := full + [OwnNext(s, full, e.op, e.key, e.value, e.oldConfig, e.newConfig)];
      EntryIsOfChange(sys.e, w, s, full, e);
      sys' := ProposeRefines(sys, n, s, full, g, e.op, e.key, e.value, e.oldConfig, e.newConfig);
      fulls' := fulls[n := full'];
      MirrorStep(sys, sys', w, w', fulls, n, AppendOwn(s, e.op, e.key, e.value, e.oldConfig, e.newConfig), full', g, {}, w.calls);
    case SetVoting(_, voting) =>
      sys' := sys;
      NoStep(sys);
      VotingPlays(sys, n, s, full, g, voting);
      fulls' := fulls[n := full];
      OnlySelf(sys, n);
      MirrorStep(sys, sys', w, w', fulls, n, s.(votingMember := voting), full, g, {}, w.calls);
    case Advance(_) =>
      sys' := CommitStepRefines(sys, n, s, full, g);
      fulls' := fulls[n := full];
      MirrorStep(sys, sys', w, w', fulls, n, UpdateCommitIndex(s), full, g, {}, w.calls);
  }

  lemma MessageSim(sys: Sys, h: Invariant.History, w: World, w': World, mv: Move, fulls: map<Id, seq<LogEntry>>)
    returns (sys': Sys, fulls': map<Id, seq<LogEntry>>)
    requires Mirror(sys, w, fulls) && Invariant.LogInv(sys, h)
    requires (mv.Send? || mv.Answer? || mv.TakeReply?) && LogMove(w, w', mv)
    ensures Reaches(sys, sys') && Mirror(sys', w', fulls') && Follows(w, mv, fulls, fulls') && w'.calls == w.calls
  {
    hide Mirror, Plays, Runs, Reaches, OnlyActor, Invariant.LogInv, RoundsOK, AllOfChange, OfChange, Represents, HandleAppendEntries,
      Node.TakeAppendReply, BuildAppend, Deliverable, Merge;
    var n := mv.n;
    MirrorAt(sys, w, fulls, n);
    var s, g, full := w.nodes[n], w.granted[n], fulls[n];
    PlaysHere(sys, n, s, full, g);
    NoneSent(sys.e);
    match mv
    case Send(_, i, a) =>
      NextWithin(sys, h, n, s, full, g, i);
      var b: Append;
      sys', b := ReplicateRefines(sys, n, s, full, g, i);
      assert b == a;
      SentOfChange(sys.e, s, full, s.nextIndex[i]);
      OneSent(sys.e, AppendEntries(a));
      fulls' := fulls[n := full];
      MirrorStep(sys, sys', w, w', fulls, n, s, full, g, {AppendEntries(a)}, w.calls);
    case Answer(_, a) =>
      EntriesOfChange(sys.e, w.net, a);
      var (t, r) := HandleAppendEntries(s, ToAppend(a));
      if a.prev >= s.lastIncludedIndex {
        ReachableDelivers(sys, h, n, s, full, g, a);
        sys' := AppendRefines(sys, n, s, full, g, a);
      } else {
        sys' := CoveredAppendRefines(sys, h, n, s, full, g, a);
      }
      var full' := FullAfterAppend(s, full, ToAppend(a));
      fulls' := fulls[n := full'];
      OneSent(sys.e, AppendReply(a, r.term, r.success));
      MirrorStep(sys, sys', w, w', fulls, n, t, full', g, {AppendReply(a, r.term, r.success)}, w.calls);
    case TakeReply(_, m, i) =>
      sys' := ReplyRefines(sys, n, s, full, g, m, i);
      fulls' := fulls[n := full];
      MirrorStep(sys, sys', w, w', fulls, n, Node.TakeAppendReply(s, i, ToAppend(m.a), m.a.term, AppendEntriesReply(m.term, m.success)),
                 full, g, {}, w.calls);
  }

  lemma LogSim(sys: Sys, h: Invariant.History, w: World, w': World, mv: Move, fulls: map<Id, seq<LogEntry>>)
    returns (sys': Sys, fulls': map<Id, seq<LogEntry>>)
    requires Mirror(sys, w, fulls) && Invariant.LogInv(sys, h)
    requires IsLog(mv) && LogMove(w, w', mv)
    ensures Reaches(sys, sys') && Mirror(sys', w', fulls') && Follows(w, mv, fulls, fulls') && w'.calls == w.calls
  {
    hide Mirror, Reaches, LogMove, Invariant.LogInv, Follows;
    if mv.Send? || mv.Answer? || mv.TakeReply? {
      sys', fulls' := MessageSim(sys, h, w, w', mv, fulls);
    } else {
      sys', fulls' := OwnLogSim(sys, h, w, w', mv, fulls);
    }
  }

  lemma EntriesOfChange(c: E.Cluster, net: set<Message>, a: Append)
    requires NetOfChange(c, net) && AppendEntries(a) in net
    ensures AllOfChange(c, a.entries)
  {
    hide AllOfChange;
    assert AppendEntries(a).AppendEntries?;
  }

  lemma OrdinaryIsOfChange(c: E.Cluster, s: NodeState, full: seq<LogEntry>, op: CommandType, key: string, value: string)
    requires op != CONFIG_JOINT && op != CONFIG_NEW
    ensures OfChange(c, OwnNext(s, full, op, key, value, [], []))
  {
  }

  lemma EntryIsOfChange(c: E.Cluster, w: World, s: NodeState, full: seq<LogEntry>, e: LogEntry)
    requires EntryOf(w.oldCfg, w.newCfg, e) && c.oldCfg == w.oldCfg && c.newCfg == w.newCfg
    ensures OfChange(c, OwnNext(s, full, e.op, e.key, e.value, e.oldConfig, e.newConfig))
  {
    hide Proper, Ids;
  }

  lemma VotingPlays(sys: Sys, n: Id, s: NodeState, full: seq<LogEntry>, g: seq<int>, voting: bool)
    requires Plays(sys, n, s, full, g)
    ensures Plays(sys, n, s.(votingMember := voting), full, g)
  {
    hide AllOfChange, InMode, Seated, SameBooks, Represents;
    StillRepresents(s, s.(votingMember := voting), full);
    ConfigStays(sys, sys, n, s, s.(votingMember := voting));
  }

  lemma OtherSim(sys: Sys, h: Invariant.History, w: World, w': World, mv: Move, fulls: map<Id, seq<LogEntry>>)
    returns (sys': Sys, fulls': map<Id, seq<LogEntry>>)
    requires Mirror(sys, w, fulls) && Invariant.LogInv(sys, h)
    requires (mv.SendSnapshot? || mv.AnswerSnapshot? || mv.TakeSnapshotReply?) && OtherMove(w, w', mv)
    ensures Reaches(sys, sys') && Mirror(sys', w', fulls') && Follows(w, mv, fulls, fulls') && w'.calls == w.calls
  {
    hide Mirror, Plays, Reaches, OnlyActor, Invariant.LogInv, RoundsOK, AllOfChange, HandleInstallSnapshot, Node.TakeInstallReply,
      Represents, SlicesSent, NoInstall, NetOfChange, SliceFor, Installable, FullAfterSnapshot, AfterSnapshot, BuildInstall, ToInstall;
    var n := mv.n;
    MirrorAt(sys, w, fulls, n);
    var s, g, full := w.nodes[n], w.granted[n], fulls[n];
    PlaysHere(sys, n, s, full, g);
    fulls' := fulls[n := full];
    NoneSent(sys.e);
    match mv
    case SendSnapshot(_, i, m) =>
      var q: Message, a: Append;
      sys', q, a := SendInstallRefines(sys, n, s, full, g, i);
      SameInstall(m, q);
      OneSlice(sys', m, a);
      OneSent(sys.e, m);
      MirrorStep(sys, sys', w, w', fulls, n, s, full, g, {m}, w.calls);
    case AnswerSnapshot(_, m) =>
      var a := SliceOf(sys, w.net, m);
      sys' := InstallRefines(sys, h, n, s, full, g, m, a);
      var (t, r) := HandleInstallSnapshot(s, ToInstall(m));
      var full' := FullAfterSnapshot(s, full, m, a.entries);
      SnapshotMoves(sys, h, n, s, full, g, m, a);
      fulls' := fulls[n := full'];
      OneSent(sys.e, InstallReply(m.src, n, m.term, r.term, m.base));
      MirrorStep(sys, sys', w, w', fulls, n, t, full', g, {InstallReply(m.src, n, m.term, r.term, m.base)}, w.calls);
    case TakeSnapshotReply(_, m, i) =>
      sys' := InstallReplyRefines(sys, n, s, full, g, m, i);
      MirrorStep(sys, sys', w, w', fulls, n, Node.TakeInstallReply(s, i, m.asked, InstallSnapshotReply(m.term)), full, g, {}, w.calls);
  }

  lemma SameInstall(m: Message, q: Message)
    requires m.Install? && q.Install? && m.src == q.src && m.dst == q.dst && m.upto == q.upto && ToInstall(m) == ToInstall(q)
    ensures m == q
  {
  }

  lemma OneSlice(sys: Sys, m: Message, a: Append)
    requires m.Install? && SliceFor(m, a) && AppendEntries(a) in sys.net && AllOfChange(sys.e, a.entries)
    ensures SlicesSent(sys, {m})
  {
    hide SliceFor, AllOfChange;
    assert Sliced(sys, m, a);
    assert HasSlice(sys, m);
  }

  lemma SnapshotMoves(sys: Sys, h: Invariant.History, n: Id, s: NodeState, full: seq<LogEntry>, g: seq<int>, m: Message, a: Append)
    requires Invariant.LogInv(sys, h) && Plays(sys, n, s, full, g)
    requires m in sys.net && m.Install? && m.dst == n && SliceFor(m, a) && AppendEntries(a) in sys.net
    requires m.term < s.term || m.base <= s.lastIncludedIndex || Installable(s, m)
    ensures var full' := FullAfterSnapshot(s, full, m, a.entries);
      if m.term >= s.term && m.base > s.lastIncludedIndex then AfterSnapshot(full, m, full') else full' == full
  {
    hide Plays, Invariant.LogInv, Installable, Merge, SliceFor;
    if m.term >= s.term && m.base > s.lastIncludedIndex {
      SliceMerged(sys, h, n, s, full, g, m, a);
    }
  }

  lemma CrashSim(sys: Sys, h: Invariant.History, w: World, w': World, mv: Move, fulls: map<Id, seq<LogEntry>>)
    returns (sys': Sys, fulls': map<Id, seq<LogEntry>>)
    requires Mirror(sys, w, fulls) && Invariant.LogInv(sys, h)
    requires IsCrash(mv) && CrashMove(w, w', mv)
    ensures Reaches(sys, sys') && Mirror(sys', w', fulls') && Follows(w, mv, fulls, fulls')
    ensures w'.calls == FailReads(w.calls, mv.n)
  {
    hide Mirror, Plays, Reaches, OnlyActor, Invariant.LogInv, RoundsOK, AllOfChange, Represents, Proper, Ids, FailReads, Node.Restart,
      Learned, Loaded, SlicesSent, NoInstall, SliceFor, AppliedUntil, Stored, AnswerCommits, LargestCommittable, Accepted, Deliverable, Merge;
    var n, address, others := mv.n, mv.address, mv.others;
    MirrorAt(sys, w, fulls, n);
    var s, g, full := w.nodes[n], w.granted[n], fulls[n];
    fulls' := fulls[n := full];
    NoneSent(sys.e);
    RoundsFail(sys.e, w.calls, w.asked, n);
    match mv
    case Crash(_, _, _) =>
      sys' := RestartRefines(sys, n, s, full, g, address, others);
      MirrorStep(sys, sys', w, w', fulls, n, Node.Restart(s, address, others), full, [], {}, FailReads(w.calls, n));
    case CrashLearning(_, m, _, _) =>
      var heard := m;
      if m.Install? {
        var a := SliceOf(sys, w.net, m);
        heard := AppendEntries(a);
        SliceTeaches(s, m, a);
      }
      if heard.AppendEntries? {
        RequestIsBeat(sys, h, heard.a);
      }
      sys' := LearnCrashRefines(sys, n, s, full, g, heard, address, others);
      MirrorStep(sys, sys', w, w', fulls, n, Node.Restart(Learned(s, m), address, others), full, [], {}, FailReads(w.calls, n));
    case CrashAnswering(_, a, j, _, _) =>
      AcceptedIsTaken(sys, h, w, n, s, full, g, a);
      sys' := AppendCrashRefines(sys, n, s, full, g, a, j, address, others);
      fulls' := fulls[n := Merge(full, a.prev, a.entries)];
      MirrorStep(sys, sys', w, w', fulls, n, Node.Restart(AppliedUntil(Stored(s, a), j), address, others),
                 Merge(full, a.prev, a.entries), [], {}, FailReads(w.calls, n));
    case CrashAdvancing(_, j, _, _) =>
      sys' := AdvanceCrashRefines(sys, n, s, full, g, j, address, others);
      MirrorStep(sys, sys', w, w', fulls, n, Node.Restart(AppliedUntil(s, j), address, others), full, [], {}, FailReads(w.calls, n));
    case CrashInstalling(_, m, _, _) =>
      var a := SliceOf(sys, w.net, m);
      RequestIsBeat(sys, h, a);
      SliceTeaches(s, m, a);
      sys' := InstallCrashRefines(sys, n, s, full, g, m, a, address, others);
      MirrorStep(sys, sys', w, w', fulls, n, Node.Restart(Loaded(s, m), address, others), full, [], {}, FailReads(w.calls, n));
  }

  lemma SliceTeaches(s: NodeState, m: Message, a: Append)
    requires m.Install? && SliceFor(m, a)
    ensures Learned(s, m) == Learned(s, AppendEntries(a)) && a.dst == m.dst
  {
  }

  lemma RequestIsBeat(sys: Sys, h: Invariant.History, a: Append)
    requires Invariant.LogInv(sys, h) && AppendEntries(a) in sys.net
    ensures E.Beat(a.src, a.term, a.dst) in sys.e.beats
  {
    hide Invariant.LogInv, Invariant.LogsOK, Invariant.RolesOK, Invariant.Shape, Invariant.StoredOK,
      Invariant.PeersOK, Invariant.NodesKeep,
      Invariant.VotesKeep, Invariant.LeadersKeep, Invariant.PointsOK, Invariant.CommitsOK, Invariant.ReplyOK, Invariant.CommitOK;
    Invariant.LogParts(sys, h);
    assert Invariant.MessageOK(sys, h, AppendEntries(a));
  }

  lemma AcceptedIsTaken(sys: Sys, h: Invariant.History, w: World, n: Id, s: NodeState, full: seq<LogEntry>, g: seq<int>,
      a: Append)
    requires Invariant.LogInv(sys, h) && Plays(sys, n, s, full, g) && NetOfChange(sys.e, w.net) && w.net <= sys.net
    requires AppendEntries(a) in w.net && a.dst == n && Accepted(s, ToAppend(a))
    ensures Deliverable(sys, n, s, full, a) && n in sys.e.nodes && n in sys.reps && Taken(sys, n, a) && a.prev <= |full|
    ensures FullAfterAppend(s, full, ToAppend(a)) == Merge(full, a.prev, a.entries)
  {
    hide Invariant.LogInv, AllOfChange, NetOfChange, Represents, Merge, SameBooks, SameVoter, SameConfig, Deliverable;
    EntriesOfChange(sys.e, w.net, a);
    ReachableDelivers(sys, h, n, s, full, g, a);
    CompactedAnswers(s, full, a.prev);
    SameTerm(sys, n, s, full, g);
  }

  lemma SameTerm(sys: Sys, n: Id, s: NodeState, full: seq<LogEntry>, g: seq<int>)
    requires Plays(sys, n, s, full, g)
    ensures n in sys.e.nodes && n in sys.reps && sys.e.nodes[n].term == s.term && sys.reps[n].log == full
  {
    hide AllOfChange, Represents, SameBooks, SameConfig;
  }

  /** A read move touches its own call, and only Finish completes one. */
  ghost predicate OneCall(w: World, w': World, mv: Move)
    requires IsRead(mv)
  {
    && mv.r in w.calls
    && exists rd :: w'.calls == w.calls[mv.r := rd] && (mv.Finish? || !rd.phase.Done? || rd == w.calls[mv.r])
  }

  /** The moves that do no more than take their call along. */
  predicate OnlyTakes(mv: Move) {
    mv.Check? || mv.CheckNoop? || mv.TakeIndex? || mv.Confirm? || mv.Wait? || mv.Finish? || mv.GiveUp?
  }

  lemma CallTaken(w: World, w': World, mv: Move)
    requires OnlyTakes(mv) && ReadMove(w, w', mv)
    ensures mv.n in w.nodes && mv.n in w.granted && mv.r in w.calls && w.calls[mv.r].node == mv.n
    ensures var n, r := mv.n, mv.r;
      && Acts(w.(asked := w'.asked), w', n, w.nodes[n], w.granted[n], {}, w'.calls)
      && r in w'.calls && w'.calls == w.calls[r := w'.calls[r]]
      && w'.calls[r].node == n && w'.calls[r].acks == w.calls[r].acks
      && (Early(w'.calls[r]) ==> Early(w.calls[r]))
      && (if mv.TakeIndex? then Early(w.calls[r]) && !Early(w'.calls[r]) && Leads(w.nodes[n], w.calls[r].term) && w'.asked == w.asked[r := w.nodes[n].peers]
          else w'.asked == w.asked)
    ensures OneCall(w, w', mv)
  {
    hide TermCommitted, NoopCommitted, FinishRead, RR.Result;
  }

  lemma EarlyCallSim(sys: Sys, w: World, w': World, mv: Move, fulls: map<Id, seq<LogEntry>>)
    returns (sys': Sys, fulls': map<Id, seq<LogEntry>>)
    requires Mirror(sys, w, fulls) && (mv.Check? || mv.CheckNoop? || mv.TakeIndex?) && ReadMove(w, w', mv)
    ensures Reaches(sys, sys') && Mirror(sys', w', fulls') && Follows(w, mv, fulls, fulls')
    ensures OneCall(w, w', mv)
  {
    hide Mirror, Plays, Reaches, OnlyActor, RoundsOK, Represents, TermCommitted, NoopCommitted, OneCall, Follows;
    var n, r := mv.n, mv.r;
    MirrorAt(sys, w, fulls, n);
    CallTaken(w, w', mv);
    var s, g, full := w.nodes[n], w.granted[n], fulls[n];
    match mv {
      case Check(_, _) => sys' := RR.CheckRefines(sys, r, n, s, full, g);
      case CheckNoop(_, _) => sys' := RR.NoopCheckRefines(sys, r, n, s, full, g);
      case TakeIndex(_, _) => sys' := RR.TakeIndexRefines(sys, r, n, s, full, g);
    }
    fulls' := TakenAlong(sys, sys', w, w', mv, fulls);
  }

  lemma LateCallSim(sys: Sys, w: World, w': World, mv: Move, fulls: map<Id, seq<LogEntry>>)
    returns (sys': Sys, fulls': map<Id, seq<LogEntry>>)
    requires Mirror(sys, w, fulls) && (mv.Confirm? || mv.Wait? || mv.Finish? || mv.GiveUp?) && ReadMove(w, w', mv)
    ensures Reaches(sys, sys') && Mirror(sys', w', fulls') && Follows(w, mv, fulls, fulls')
    ensures mv.Finish? ==> NextStep(sys, sys', ReadFinish(mv.r))
    ensures OneCall(w, w', mv)
  {
    hide Mirror, Plays, Reaches, OnlyActor, RoundsOK, Represents, FinishRead, RR.Result, NextStep, RR.Asks, Ids, OneCall, Follows;
    var n, r := mv.n, mv.r;
    MirrorAt(sys, w, fulls, n);
    CallTaken(w, w', mv);
    var s, g, full := w.nodes[n], w.granted[n], fulls[n];
    match mv {
      case Confirm(_, _) =>
        RoundAt(sys.e, w.calls, w.asked, r);
        sys' := RR.ConfirmRefines(sys, r, n, s, full, g, w.asked[r]);
      case Wait(_, _) => sys' := RR.WaitRefines(sys, r, n, s, full, g);
      case Finish(_, _) => sys' := RR.FinishRefines(sys, r, n, s, full, g);
      case GiveUp(_, _) => sys' := RR.GiveUpRefines(sys, r, n, s, full, g);
    }
    fulls' := TakenAlong(sys, sys', w, w', mv, fulls);
  }

  lemma TakenAlong(sys: Sys, sys': Sys, w: World, w': World, mv: Move, fulls: map<Id, seq<LogEntry>>)
    returns (fulls': map<Id, seq<LogEntry>>)
    requires Mirror(sys, w, fulls) && OnlyTakes(mv) && ReadMove(w, w', mv) && mv.n in fulls && OnlyActor(sys, sys', mv.n)
    requires mv.n in w.nodes && mv.n in w.granted
    requires Plays(sys', mv.n, w.nodes[mv.n], fulls[mv.n], w.granted[mv.n]) && sys'.calls == w'.calls
    ensures Mirror(sys', w', fulls') && Follows(w, mv, fulls, fulls')
  {
    hide Mirror, Plays, OnlyActor, RoundsOK, ReadMove, RR.Asks, OneCall, Early;
    var n, r := mv.n, mv.r;
    MirrorAt(sys, w, fulls, n);
    CallTaken(w, w', mv);
    var s, g, full := w.nodes[n], w.granted[n], fulls[n];
    if mv.TakeIndex? {
      RR.LeaderAsks(sys, n, s, full, g);
      RoundAsks(sys.e, w.calls, w.asked, r, w'.calls[r], s.peers);
    } else {
      RoundMoves(sys.e, w.calls, w.asked, r, w'.calls[r]);
    }
    NoneSent(sys.e);
    MirrorStep(sys, sys', w, w', fulls, n, s, full, g, {}, w'.calls);
    fulls' := fulls[n := full];
  }

  lemma SendingReadSim(sys: Sys, w: World, w': World, mv: Move, fulls: map<Id, seq<LogEntry>>)
    returns (sys': Sys, fulls': map<Id, seq<LogEntry>>)
    requires Mirror(sys, w, fulls) && (mv.Noop? || mv.Beat?) && ReadMove(w, w', mv)
    ensures Reaches(sys, sys') && Mirror(sys', w', fulls') && Follows(w, mv, fulls, fulls')
    ensures OneCall(w, w', mv)
  {
    hide Mirror, Plays, Reaches, OnlyActor, RoundsOK, AllOfChange, Represents, BuildReadBeat, AppendOwn, NextStep, Ids;
    var n, r := mv.n, mv.r;
    MirrorAt(sys, w, fulls, n);
    var s, g, full, rd := w.nodes[n], w.granted[n], fulls[n], w.calls[r];
    RR.PlaysIn(sys, n, s, full, g);
    fulls' := fulls[n := full];
    NoneSent(sys.e);
    match mv {
      case Noop(_, _) =>
        LastOf(s, full);
        RoundMoves(sys.e, w.calls, w.asked, r, w'.calls[r]);
        sys' := RR.NoopRefines(sys, r, n, s, full, g);
        var full' := full + [LogEntry(s.term, |full| + 1, NONE, "__noop__", "__noop__", [], [])];
        fulls' := fulls[n := full'];
        MirrorStep(sys, sys', w, w', fulls, n, AppendOwn(s, NONE, "__noop__", "__noop__", [], []), full', g, {}, w'.calls);
      case Beat(_, _, a) =>
        var b: Append;
        AskedIsNode(sys.e, w.calls, w.asked, r, a.dst);
        sys', b := RR.BeatRefines(sys, r, n, s, full, g, a.dst);
        assert b == a;
        BeatOfChange(sys.e, s, a);
        OneSent(sys.e, AppendEntries(a));
        assert w'.calls == w.calls[r := rd];
        MirrorStep(sys, sys', w, w', fulls, n, s, full, g, {AppendEntries(a)}, w.calls);
    }
  }

  lemma BeatOfChange(c: E.Cluster, s: NodeState, a: Append)
    requires ToAppend(a) == BuildReadBeat(s)
    ensures AllOfChange(c, a.entries)
  {
    assert a.entries == [];
  }

  lemma BeatReplySim(sys: Sys, w: World, w': World, mv: Move, fulls: map<Id, seq<LogEntry>>)
    returns (sys': Sys, fulls': map<Id, seq<LogEntry>>)
    requires Mirror(sys, w, fulls) && mv.TakeBeat? && ReadMove(w, w', mv)
    ensures Reaches(sys, sys') && Mirror(sys', w', fulls') && Follows(w, mv, fulls, fulls')
    ensures OneCall(w, w', mv)
  {
    hide Mirror, Plays, Reaches, OnlyActor, RoundsOK, AllOfChange, Represents, Node.TakeBeatReply, Ids;
    var n, r, m := mv.n, mv.r, mv.m;
    MirrorAt(sys, w, fulls, n);
    var s, g, full, rd := w.nodes[n], w.granted[n], fulls[n], w.calls[r];
    fulls' := fulls[n := full];
    NoneSent(sys.e);
    RoundMoves(sys.e, w.calls, w.asked, r, w'.calls[r]);
    sys' := RR.BeatReplyRefines(sys, r, n, s, full, g, m, 1 + |rd.acks|);
    RR.PlaysIn(sys, n, s, full, g);
    var t := Node.TakeBeatReply(s, rd.term, 1 + |rd.acks|, AppendEntriesReply(m.term, m.success)).0;
    MirrorStep(sys, sys', w, w', fulls, n, t, full, g, {}, w'.calls);
  }

  lemma ReadSim(sys: Sys, w: World, w': World, mv: Move, fulls: map<Id, seq<LogEntry>>)
    returns (sys': Sys, fulls': map<Id, seq<LogEntry>>)
    requires Mirror(sys, w, fulls) && IsRead(mv) && ReadMove(w, w', mv)
    ensures Reaches(sys, sys') && Mirror(sys', w', fulls') && Follows(w, mv, fulls, fulls')
    ensures mv.Finish? ==> NextStep(sys, sys', ReadFinish(mv.r))
    ensures OneCall(w, w', mv)
  {
    hide Mirror, Reaches, ReadMove, OneCall, NextStep;
    if mv.Check? || mv.CheckNoop? || mv.TakeIndex? {
      sys', fulls' := EarlyCallSim(sys, w, w', mv, fulls);
    } else if OnlyTakes(mv) {
      sys', fulls' := LateCallSim(sys, w, w', mv, fulls);
    } else if mv.TakeBeat? {
      sys', fulls' := BeatReplySim(sys, w, w', mv, fulls);
    } else {
      sys', fulls' := SendingReadSim(sys, w, w', mv, fulls);
    }
  }

  lemma RoundAt(c: E.Cluster, calls: map<nat, Read>, asked: map<nat, seq<PeerInfo>>, r: nat)
    requires RoundsOK(c, calls, asked) && r in asked
    ensures r in calls && RR.Asks(c, calls[r].node, asked[r]) && calls[r].acks <= Ids(asked[r])
  {
    hide RR.Asks, Ids;
    assert RoundOK(c, calls[r].node, asked[r], calls[r].acks);
  }

  lemma AskedIsNode(c: E.Cluster, calls: map<nat, Read>, asked: map<nat, seq<PeerInfo>>, r: nat, p: Id)
    requires RoundsOK(c, calls, asked) && r in asked && p in Ids(asked[r])
    ensures r in calls && p in c.nodes && p != calls[r].node
  {
    RoundAt(c, calls, asked, r);
    hide Ids, Proper, E.Active;
    var mode :| RR.OtherMembers(c, calls[r].node, mode, Ids(asked[r]));
  }

  lemma BeginSim(sys: Sys, w: World, w': World, mv: Move, fulls: map<Id, seq<LogEntry>>)
    returns (sys': Sys, fulls': map<Id, seq<LogEntry>>)
    requires Mirror(sys, w, fulls) && mv.Begin? && BeginMove(w, w', mv)
    ensures Mirror(sys', w', fulls') && Follows(w, mv, fulls, fulls') && NextStep(sys, sys', Step.ReadBegin(mv.r, mv.n, mv.key))
  {
    hide Mirror, Plays, OnlyActor, NextStep, RoundsOK;
    var n := mv.n;
    MirrorAt(sys, w, fulls, n);
    RoundBegins(sys.e, w.calls, w.asked, mv.r, w'.calls[mv.r]);
    var s, g, full := w.nodes[n], w.granted[n], fulls[n];
    fulls' := fulls[n := full];
    NoneSent(sys.e);
    sys' := RR.BeginRefines(sys, mv.r, n, s, full, g, mv.key);
    MirrorStep(sys, sys', w, w', fulls, n, s, full, g, {}, w'.calls);
  }

  /** A read begins, or ends with a result. */
  ghost predicate ReadEdge(w: World, w': World) {
    || (exists r :: r !in w.calls && r in w'.calls)
    || (exists r :: r in w.calls && r in w'.calls && !w.calls[r].phase.Done? && w'.calls[r].phase.Done?)
  }

  lemma MoveSim(sys: Sys, h: Invariant.History, w: World, w': World, fulls: map<Id, seq<LogEntry>>)
    returns (sys': Sys, fulls': map<Id, seq<LogEntry>>)
    requires Mirror(sys, w, fulls) && Invariant.LogInv(sys, h) && MovesTo(w, w')
    ensures Reaches(sys, sys') && Mirror(sys', w', fulls') && Evolves(w, w', fulls, fulls')
    ensures ReadEdge(w, w') ==> Next(sys, sys')
  {
    hide Mirror, Reaches, Invariant.LogInv, ElectionMove, LogMove, OtherMove, CrashMove, ReadMove, BeginMove, NextStep,
      FailReads, Follows;
    var mv :| Moved(w, w', mv);
    if mv.Elect? || mv.AnswerVote? || mv.TallyVote? {
      sys', fulls' := ElectionSim(sys, h, w, w', mv, fulls);
    } else if IsLog(mv) {
      sys', fulls' := LogSim(sys, h, w, w', mv, fulls);
    } else if mv.SendSnapshot? || mv.AnswerSnapshot? || mv.TakeSnapshotReply? {
      sys', fulls' := OtherSim(sys, h, w, w', mv, fulls);
    } else if IsCrash(mv) {
      sys', fulls' := CrashSim(sys, h, w, w', mv, fulls);
      FailedNotDone(w.calls, mv.n);
    } else if mv.Begin? {
      sys', fulls' := BeginSim(sys, w, w', mv, fulls);
      OneStep(sys, sys', Step.ReadBegin(mv.r, mv.n, mv.key));
    } else {
      sys', fulls' := ReadSim(sys, w, w', mv, fulls);
    }
  }

  lemma FailedNotDone(calls: map<nat, Read>, n: Id)
    ensures FailReads(calls, n).Keys == calls.Keys
    ensures forall r | r in calls :: FailReads(calls, n)[r].phase.Done? ==> calls[r].phase.Done?
  {
  }

  // ---- runs ----

  /** run[at[i]] is the protocol state that matches ws[i]. */
  ghost predicate Matches(ws: seq<World>, run: seq<Sys>, at: seq<nat>, fulls: seq<map<Id, seq<LogEntry>>>) {
    && |at| == |fulls| == |ws| > 0
    && Run(run)
    && (forall i | 0 <= i < |at| :: at[i] < |run| && Mirror(run[at[i]], ws[i], fulls[i]))
    && (forall i, j | 0 <= i <= j < |at| :: at[i] <= at[j])
    && (forall n | n in fulls[0] :: fulls[0][n] == [])
    && (forall i, j | 0 <= i < j < |ws| && j == i + 1 :: Evolves(ws[i], ws[j], fulls[i], fulls[j]))
    && at[|at| - 1] == |run| - 1
    && (forall i | 0 <= i < |ws| - 1 && ReadEdge(ws[i], ws[i + 1]) :: at[i + 1] == at[i] + 1)
  }

  lemma InitialSys(w: World) returns (sys: Sys, fulls: map<Id, seq<LogEntry>>)
    requires Initial(w)
    ensures Protocol.Init(sys) && Mirror(sys, w, fulls) && forall n | n in fulls :: fulls[n] == []
  {
    hide Plays, Started, Ids, Quorum.AlwaysMeet, RoundsOK, NetOfChange;
    var threshold: int :| InitialWith(w, threshold);
    sys := FirstSys(w);
    fulls := map n | n in w.nodes :: [];
    QuorumsOf(w);
    forall n | n in w.nodes
      ensures Plays(sys, n, w.nodes[n], fulls[n], w.granted[n])
    {
      BootPlays(sys, w, n, w.nodes[n], w.granted[n], threshold);
    }
    NoneSent(sys.e);
    NoRounds(sys.e);
  }

  ghost function FirstSys(w: World): Sys {
    var nodes := map n | n in w.nodes ::
      E.Voter(0, NOBODY, Follower, {}, if Ids(w.nodes[n].currentConfig) == w.oldCfg then E.OldStable else E.NewStable);
    Sys(E.Cluster(w.oldCfg, w.newCfg, nodes, {}, {}), map n | n in w.nodes :: Replica([], 0, 0, 0, map[], map[], map[]), {}, map[])
  }

  lemma NoRounds(c: E.Cluster)
    ensures RoundsOK(c, map[], map[])
  {
  }

  lemma QuorumsOf(w: World)
    requires w.oldCfg == w.newCfg || Membership.OneChange(w.oldCfg, w.newCfg)
    ensures Quorum.AlwaysMeet(w.oldCfg, w.newCfg) && (w.oldCfg <= w.newCfg || w.newCfg <= w.oldCfg)
  {
    if w.oldCfg == w.newCfg {
      Quorum.SelfMeets(w.oldCfg);
    } else {
      Membership.OneChangeMeets(w.oldCfg, w.newCfg);
    }
  }

  lemma BootPlays(sys: Sys, w: World, n: Id, s: NodeState, g: seq<int>, threshold: int)
    requires n in sys.e.nodes && n in sys.reps && Started(w, n, s, threshold) && sys.e.oldCfg == w.oldCfg && sys.e.newCfg == w.newCfg
    requires E.Active(sys.e, E.Joint) <= sys.e.nodes.Keys
    requires sys.e.nodes[n] == E.Voter(0, NOBODY, Follower, {}, if Ids(s.currentConfig) == w.oldCfg then E.OldStable else E.NewStable)
    requires sys.reps[n] == Replica([], 0, 0, 0, map[], map[], map[])
    ensures Plays(sys, n, s, [], g)
  {
    hide Proper, Ids, Contains;
    var address: (string, int), others: seq<PeerInfo> :| StartedAs(w, n, s, address, others, threshold);
    RestartConfigured(s, address, others);
    BootAgain(n, address, others, threshold);
    NobodyIn();
  }

  /** Before it has persisted anything, a node starts again as it started. */
  lemma BootAgain(n: Id, address: (string, int), others: seq<PeerInfo>, threshold: int)
    ensures var s := Boot(n, address, others, threshold, map[], Saved(0, NOBODY, 0, 0, [])); Node.Restart(s, address, others) == s
  {
  }

  lemma {:induction false} RunIsMatched(ws: seq<World>) returns (run: seq<Sys>, at: seq<nat>,
      fulls: seq<map<Id, seq<LogEntry>>>)
    requires WorldRun(ws)
    ensures Matches(ws, run, at, fulls)
    decreases |ws|
  {
    hide Mirror, Reaches, Protocol.Init, Initial, MovesTo, ReadEdge, Next, Evolves;
    if |ws| == 1 {
      var sys, full := InitialSys(ws[0]);
      run, at, fulls := [sys], [0], [full];
    } else {
      var last := |ws| - 2;
      assert MovesTo(ws[last], ws[last + 1]);
      run, at, fulls := RunIsMatched(ws[..last + 1]);
      var h := ReachableInv(run);
      var sys', full := MoveSim(run[|run| - 1], h, ws[last], ws[last + 1], fulls[last]);
      run, at, fulls := Extend(ws, run, at, fulls, sys', full);
    }
  }

  lemma ReachableInv(run: seq<Sys>) returns (h: Invariant.History)
    requires Run(run)
    ensures Invariant.LogInv(run[|run| - 1], h)
  {
    hide Next, Protocol.Init, Theorems.Linked, Invariant.LogInv;
    var hs := Theorems.RunHasRecord(run);
    h := hs[|run| - 1];
    assert ReadProof.Inv(run[|run| - 1], h);
  }

  lemma Extend(ws: seq<World>, run: seq<Sys>, at: seq<nat>, fulls: seq<map<Id, seq<LogEntry>>>, sys': Sys,
      full: map<Id, seq<LogEntry>>)
    returns (run': seq<Sys>, at': seq<nat>, fulls': seq<map<Id, seq<LogEntry>>>)
    requires |ws| >= 2 && Matches(ws[..|ws| - 1], run, at, fulls)
    requires Reaches(run[|run| - 1], sys') && Mirror(sys', ws[|ws| - 1], full)
    requires ReadEdge(ws[|ws| - 2], ws[|ws| - 1]) ==> Next(run[|run| - 1], sys')
    requires Evolves(ws[|ws| - 2], ws[|ws| - 1], fulls[|ws| - 2], full)
    ensures Matches(ws, run', at', fulls')
  {
    hide Mirror, Reaches, Protocol.Init, ReadEdge, Next, Evolves;
    var path := PathTo(run[|run| - 1], sys');
    run' := run + path[1..];
    at', fulls' := at + [|run'| - 1], fulls + [full];
    LongerRun(run, path);
    forall i | 0 <= i < |ws| - 1 && ReadEdge(ws[i], ws[i + 1])
      ensures at'[i + 1] == at'[i] + 1
    {
      if i < |ws| - 2 {
        assert ws[..|ws| - 1][i] == ws[i] && ws[..|ws| - 1][i + 1] == ws[i + 1];
      }
    }
  }

  /** One step where one step is enough. */
  lemma PathTo(sys: Sys, sys': Sys) returns (path: seq<Sys>)
    requires Reaches(sys, sys')
    ensures Path(path, sys, sys') && (Next(sys, sys') ==> |path| == 2)
  {
    hide Next;
    if Next(sys, sys') {
      path := [sys, sys'];
    } else {
      path :| Path(path, sys, sys');
    }
  }

  lemma LongerRun(run: seq<Sys>, path: seq<Sys>)
    requires Run(run) && |path| > 0 && path[0] == run[|run| - 1]
    requires forall i | 0 <= i < |path| - 1 :: Next(path[i], path[i + 1])
    ensures Run(run + path[1..])
  {
    hide Protocol.Init, Next;
    var all := run + path[1..];
    forall i | 0 <= i < |all| - 1
      ensures Next(all[i], all[i + 1])
    {
      if i < |run| - 1 {
        assert all[i] == run[i] && all[i + 1] == run[i + 1];
      } else {
        var j := i - (|run| - 1);
        assert all[i] == path[j] && all[i + 1] == path[j + 1];
      }
    }
  }

  /** Runs get going: from the start any node can stand for election. */
  lemma AnyoneCanStand(w: World, n: Id) returns (w': World)
    requires Initial(w) && n in w.nodes
    ensures WorldRun([w, w']) && n in w'.nodes && w'.nodes[n].role == Candidate && w'.nodes[n].term == 1
  {
    hide Proper, Ids;
    var s := w.nodes[n];
    var threshold: int :| InitialWith(w, threshold);
    assert Started(w, n, s, threshold);
    var address: (string, int), others: seq<PeerInfo> :| StartedAs(w, n, s, address, others, threshold);
    assert s.currentConfig[0].id == n;
    var (t, r) := Node.StartElection(s);
    w' := w.(nodes := w.nodes[n := t], granted := w.granted[n := [n]], net := w.net + {RequestVote(n, 1, 0, 0)});
    assert Moved(w, w', Elect(n));
  }
}
