/**
 Why the cluster of node objects leaves this move out: a request that straddles its receiver's boundary is answered with
 success and not stored (Limits.SuccessMeansStored), and one such answer is enough to lose a committed entry. All nodes
 have the threshold of the code, 5.
 */
module LostEntry {
  import opened Types
  import opened Node
  import opened NodeConfig
  import opened NodeRefinement
  import opened Protocol
  import opened NodeCluster
  import opened ThreeNodes

  /** The move that is left out. */
  ghost predicate Straddles(w: World, w': World, n: Id, a: Append) {
    && n in w.nodes && n in w.granted
    && var s := w.nodes[n];
    && AppendEntries(a) in w.net && a.dst == n
    && a.prev < s.lastIncludedIndex < a.prev + |a.entries|
    && var (t, r) := HandleAppendEntries(s, ToAppend(a));
    && r.term >= 0
    && Acts(w, w', n, t, w.granted[n], {AppendReply(a, r.term, r.success)}, w.calls)
  }

  ghost predicate FreeMove(w: World, w': World) {
    MovesTo(w, w') || exists n, a :: Straddles(w, w', n, a)
  }

  ghost predicate FreeRun(ws: seq<World>, threshold: int) {
    && |ws| > 0 && InitialWith(ws[0], threshold)
    && forall i, j | 0 <= i < j < |ws| && j == i + 1 :: FreeMove(ws[i], ws[j])
  }

  // ---- twenty-seven moves ----

  function OneAt(k: nat): Brief {
    if k < 1 then Booted()
    else if k < 3 then Brief(1, 1, Candidate, NOBODY, 0, 0, 0, [], [])
    else if k < 9 then Leading(k - 3, 0, 0, [1, 1], [0, 0])
    else if k < 11 then Leading(5, 0, 0, [1, 1], [0, 0])
    else if k < 12 then Leading(5, 0, 0, [6, 1], [5, 0])
    else if k < 15 then Leading(6, 0, 0, [6, 1], [5, 0])
    else if k < 16 then Leading(6, 5, 5, [6, 1], [5, 0])
    else if k < 17 then Leading(6, 5, 5, [6, 7], [5, 6])
    else if k < 20 then Leading(6, 6, 5, [6, 7], [5, 6])
    else if k < 23 then Leading(7, 6, 5, [6, 7], [5, 6])
    else if k < 24 then Leading(7, 6, 5, [8, 7], [7, 6])
    else Leading(7, 7, 5, [8, 7], [7, 6])
  }

  function TwoAt(k: nat): Brief {
    if k < 10 then Booted()
    else if k < 19 then Brief(1, NOBODY, Follower, 1, 5, 0, 0, [], [])
    else if k < 25 then Brief(1, NOBODY, Follower, 1, 6, 6, 6, [], [])
    else if k < 27 then Brief(2, 2, Candidate, NOBODY, 6, 6, 6, [], [])
    else Brief(2, 2, Leader, 2, 6, 6, 6, [7, 7], [0, 0])
  }

  function ThreeAt(k: nat): Brief {
    if k < 2 then Booted()
    else if k < 14 then Brief(1, 1, Follower, NOBODY, 0, 0, 0, [], [])
    else if k < 26 then Brief(1, 1, Follower, 1, 6, 0, 0, [], [])
    else Brief(2, 2, Follower, NOBODY, 6, 0, 0, [], [])
  }

  function NodeAt(k: nat, id: Id): Brief {
    if id == 1 then OneAt(k) else if id == 2 then TwoAt(k) else ThreeAt(k)
  }

  lemma AllSized(k: nat, id: Id)
    ensures Sized(NodeAt(k, id))
  {
  }

  function FiveToTwo(): Append {
    Append(1, 2, 1, 0, 0, Puts(5)[0..], 0, None)
  }

  function SixToThree(): Append {
    Append(1, 3, 1, 0, 0, Puts(6)[0..], 0, None)
  }

  function SixthToTwo(): Append {
    Append(1, 2, 1, 5, 1, Puts(6)[5..], 6, None)
  }

  /** Sent before the answer to the request above has come back, so it starts where that one did. */
  function SeventhToTwo(): Append {
    Append(1, 2, 1, 5, 1, Puts(7)[5..], 6, None)
  }

  function RequestAt(k: nat): Append {
    if k < 12 then FiveToTwo() else if k < 18 then SixToThree() else if k < 20 then SixthToTwo() else SeventhToTwo()
  }

  predicate IsSend(k: nat) {
    k == 9 || k == 13 || k == 18 || k == 21
  }

  predicate IsAnswer(k: nat) {
    k == 10 || k == 14 || k == 19 || k == 22
  }

  predicate IsWrite(k: nat) {
    4 <= k <= 8 || k == 12 || k == 20
  }

  /** What the k-th move sends. */
  function SentAt(k: nat): set<Message> {
    if k == 1 then {RequestVote(1, 1, 0, 0)}
    else if k == 2 then {VoteReply(3, 1, 1, 1, true)}
    else if k == 25 then {RequestVote(2, 2, 6, 1)}
    else if k == 26 then {VoteReply(3, 2, 2, 2, true)}
    else if IsSend(k) then {AppendEntries(RequestAt(k))}
    else if IsAnswer(k) then {AppendReply(RequestAt(k), 1, true)}
    else {}
  }

  function NetAt(k: nat): set<Message> {
    if k == 0 then {} else NetAt(k - 1) + SentAt(k)
  }

  lemma {:induction false} NetKeeps(i: nat, k: nat)
    requires i <= k
    ensures SentAt(i) <= NetAt(k)
  {
    if i < k {
      hide SentAt;
      NetKeeps(i, k - 1);
    }
  }

  function GrantedAt(k: nat, id: Id): seq<int> {
    if id == 1 then (if k < 1 then [] else if k < 3 then [1] else [1, 3])
    else if id == 2 then (if k < 25 then [] else if k < 27 then [2] else [2, 3])
    else []
  }

  function At(k: nat): World {
    AllSized(k, 1); AllSized(k, 2); AllSized(k, 3);
    World({1, 2, 3}, {1, 2, 3}, map[1 := Full(1, NodeAt(k, 1)), 2 := Full(2, NodeAt(k, 2)), 3 := Full(3, NodeAt(k, 3))],
          map[1 := GrantedAt(k, 1), 2 := GrantedAt(k, 2), 3 := GrantedAt(k, 3)], NetAt(k), map[], map[])
  }

  /** Who makes the k-th move. */
  function Mover(k: nat): Id {
    if k == 2 || k == 14 || k == 26 then 3
    else if k == 10 || k == 19 || k == 22 || k == 25 || k == 27 then 2
    else 1
  }

  lemma OthersStay(k: nat, id: Id)
    requires 1 <= k <= 27 && (id == 1 || id == 2 || id == 3) && id != Mover(k)
    ensures NodeAt(k, id) == NodeAt(k - 1, id) && GrantedAt(k, id) == GrantedAt(k - 1, id)
  {
  }

  lemma Shape(k: nat)
    ensures At(k).nodes.Keys == At(k).granted.Keys == {1, 2, 3} && At(k).calls == map[] && At(k).net == NetAt(k)
    ensures At(k).oldCfg == At(k).newCfg == {1, 2, 3} && At(k).asked == map[]
    ensures forall id: Id | id == 1 || id == 2 || id == 3 ::
      Sized(NodeAt(k, id)) && At(k).nodes[id] == Full(id, NodeAt(k, id)) && At(k).granted[id] == GrantedAt(k, id)
  {
    hide Full, NodeAt, GrantedAt, NetAt;
    AllSized(k, 1);
    AllSized(k, 2);
    AllSized(k, 3);
  }

  /** The k-th move changes its node and the net and nothing else. */
  lemma ActsAt(k: nat)
    requires 1 <= k <= 27
    ensures var n := Mover(k);
      && n in At(k - 1).nodes && n in At(k - 1).granted && Sized(NodeAt(k, n)) && Sized(NodeAt(k - 1, n))
      && At(k - 1).nodes.Keys == {1, 2, 3} && At(k - 1).calls == map[]
      && At(k - 1).nodes[n] == Full(n, NodeAt(k - 1, n)) && At(k - 1).granted[n] == GrantedAt(k - 1, n)
      && Acts(At(k - 1), At(k), n, Full(n, NodeAt(k, n)), GrantedAt(k, n), SentAt(k), map[])
  {
    hide Full, SentAt, NodeAt, GrantedAt;
    Shape(k - 1);
    Shape(k);
    forall id: Id | (id == 1 || id == 2 || id == 3) && id != Mover(k)
      ensures NodeAt(k, id) == NodeAt(k - 1, id) && GrantedAt(k, id) == GrantedAt(k - 1, id)
    {
      OthersStay(k, id);
    }
    var n := Mover(k);
    assert At(k).nodes == At(k - 1).nodes[n := Full(n, NodeAt(k, n))];
    assert At(k).granted == At(k - 1).granted[n := GrantedAt(k, n)];
  }

  lemma SentBefore(i: nat, k: nat, m: Message)
    requires i <= k && SentAt(i) == {m}
    ensures m in At(k).net
  {
    hide SentAt, Full, NodeAt;
    Shape(k);
    NetKeeps(i, k);
  }

  // ---- every move ----

  lemma WriteFacts(k: nat)
    requires IsWrite(k)
    ensures var b := NodeAt(k - 1, 1);
      && Sized(b) && b.role == Leader && b.term == 1 && b.last < 7 && (b.last == 6 <==> k == 20)
      && NodeAt(k, 1) == b.(last := b.last + 1)
    ensures Mover(k) == 1 && SentAt(k) == {} && GrantedAt(k, 1) == GrantedAt(k - 1, 1)
  {
  }

  lemma RoleOf(id: Id, b: Brief)
    requires b.boundary <= b.last
    ensures var s := Full(id, b);
      && s.role == b.role && s.term == b.term && s.id == id && s.peers == Rest(id) && s.lastIncludedIndex == b.boundary
      && s.nextIndex == b.next && s.matchIndex == b.matched
  {
  }

  lemma WriteMoves(k: nat)
    requires IsWrite(k)
    ensures Moved(At(k - 1), At(k), Write(1, PUT, "k", if k == 20 then "last" else "first"))
  {
    hide Full, NodeAt, SentAt, NetAt, GrantedAt, At, Acts, Committed, Mover, ElectionMove, OtherMove, CrashMove, BeginMove, ReadMove,
      AppendOwn;
    WriteFacts(k);
    ActsAt(k);
    RoleOf(1, NodeAt(k - 1, 1));
    Writes(NodeAt(k - 1, 1));
  }

  /** Which slot of the leader a request goes to. */
  function SlotAt(k: nat): nat {
    if 12 <= k <= 17 then 1 else 0
  }

  lemma SendFacts(k: nat)
    requires IsSend(k)
    ensures var b, i, a := NodeAt(k - 1, 1), SlotAt(k), RequestAt(k);
      && Sized(b) && b.role == Leader && b.term == 1 && |b.next| == 2 && b.boundary < b.next[i] <= b.last + 1
      && ToAppend(a) == AppendEntriesArgs(1, 1, b.next[i] - 1, if b.next[i] == 1 then 0 else 1,
                                          Puts(b.last)[b.next[i] - 1..], b.applied)
      && a.dst == Rest(1)[i].id && a.call == None && NodeAt(k, 1) == b
    ensures Mover(k) == 1 && SentAt(k) == {AppendEntries(RequestAt(k))} && GrantedAt(k, 1) == GrantedAt(k - 1, 1)
  {
    hide Puts;
    SenderAt(k);
  }

  lemma SenderAt(k: nat)
    requires IsSend(k)
    ensures NodeAt(k, 1) == NodeAt(k - 1, 1)
    ensures NodeAt(k, 1) == if k == 9 then Leading(5, 0, 0, [1, 1], [0, 0]) else if k == 13 then Leading(6, 0, 0, [6, 1], [5, 0])
                            else if k == 18 then Leading(6, 6, 5, [6, 7], [5, 6]) else Leading(7, 6, 5, [6, 7], [5, 6])
  {
  }

  lemma SendMoves(k: nat)
    requires IsSend(k)
    ensures Moved(At(k - 1), At(k), Send(1, SlotAt(k), RequestAt(k)))
  {
    hide Full, NodeAt, SentAt, NetAt, GrantedAt, At, Acts, Committed, Mover, ElectionMove, OtherMove, CrashMove, BeginMove, ReadMove,
      BuildAppend, RequestAt, ToAppend, Puts;
    SendFacts(k);
    ActsAt(k);
    var b := NodeAt(k - 1, 1);
    RoleOf(1, b);
    Builds(b, b.next[SlotAt(k)]);
  }

  lemma AnswerFacts(k: nat)
    requires IsAnswer(k) && k != 22
    ensures var n, a := Mover(k), RequestAt(k);
      var b := NodeAt(k - 1, n);
      var last := a.prev + |a.entries|;
      && (n == 2 || n == 3) && a.dst == n && Sized(b) && b.role == Follower && b.term <= 1
      && b.boundary <= a.prev <= b.last <= last <= 7 && b.applied <= a.leaderCommit <= last
      && (a.leaderCommit == b.applied ==> a.leaderCommit - b.boundary < 5)
      && ToAppend(a) == AppendEntriesArgs(1, 1, a.prev, if a.prev == 0 then 0 else 1, Puts(last)[a.prev..], a.leaderCommit)
      && NodeAt(k, n) == Committed(Heeded1(b).(last := last), a.leaderCommit)
    ensures SentAt(k) == {AppendReply(RequestAt(k), 1, true)} && GrantedAt(k, Mover(k)) == GrantedAt(k - 1, Mover(k))
  {
  }

  lemma RequestSent(k: nat)
    requires IsAnswer(k)
    ensures AppendEntries(RequestAt(k)) in At(k - 1).net
  {
    hide At, NetAt, NodeAt, Full;
    var i := if k == 10 then 9 else if k == 14 then 13 else if k == 19 then 18 else 21;
    assert SentAt(i) == {AppendEntries(RequestAt(k))};
    hide SentAt, RequestAt;
    SentBefore(i, k - 1, AppendEntries(RequestAt(k)));
  }

  lemma AnswerMoves(k: nat)
    requires IsAnswer(k) && k != 22
    ensures Moved(At(k - 1), At(k), Answer(Mover(k), RequestAt(k)))
  {
    hide Full, NodeAt, SentAt, NetAt, GrantedAt, At, Acts, Committed, Mover, ElectionMove, OtherMove, CrashMove, BeginMove, ReadMove,
      HandleAppendEntries, RequestAt, ToAppend, Puts, Heeded1;
    AnswerFacts(k);
    RequestSent(k);
    ActsAt(k);
    var n, a := Mover(k), RequestAt(k);
    var b := NodeAt(k - 1, n);
    RoleOf(n, b);
    Accepts(n, b, a.prev, a.prev + |a.entries|, a.leaderCommit);
  }

  /** Node 2 has compacted through 6 and is sent 6 again, together with 7. */
  lemma Straddling()
    ensures Straddles(At(21), At(22), 2, SeventhToTwo())
  {
    RequestSent(22);
    ActsAt(22);
    StoresNothing();
    hide HandleAppendEntries, At, Acts, NetAt, GrantedAt;
  }

  lemma StoresNothing()
    ensures HandleAppendEntries(Full(2, TwoAt(21)), ToAppend(SeventhToTwo())) == (Full(2, TwoAt(22)), AppendEntriesReply(1, true))
  {
    MembersAre(2, 1);
    Heeds(2, TwoAt(21));
    hide Heed, InVotingConfig, HasLogAt, LogTermAt, Merged, Commit;
    assert Heeded1(TwoAt(21)) == TwoAt(22);
  }

  predicate IsCount(k: nat) {
    k == 11 || k == 16 || k == 23
  }

  lemma CountFacts(k: nat)
    requires IsCount(k)
    ensures var b, i, a := NodeAt(k - 1, 1), SlotAt(k), RequestAt(k);
      && Sized(b) && b.role == Leader && b.term == 1 && |b.next| == |b.matched| == 2 && b.matched[i] <= a.prev + |a.entries|
      && a.src == 1 && a.dst == Rest(1)[i].id && a.call == None && a.term == 1
      && NodeAt(k, 1) == b.(next := b.next[i := a.prev + |a.entries| + 1], matched := b.matched[i := a.prev + |a.entries|])
    ensures Mover(k) == 1 && SentAt(k) == {} && GrantedAt(k, 1) == GrantedAt(k - 1, 1)
  {
  }

  lemma ReplySent(k: nat)
    requires IsCount(k)
    ensures AppendReply(RequestAt(k), 1, true) in At(k - 1).net
  {
    hide At, NetAt, NodeAt, Full;
    var i := if k == 11 then 10 else if k == 16 then 14 else 22;
    assert SentAt(i) == {AppendReply(RequestAt(k), 1, true)};
    hide SentAt, RequestAt;
    SentBefore(i, k - 1, AppendReply(RequestAt(k), 1, true));
  }

  lemma CountMoves(k: nat)
    requires IsCount(k)
    ensures Moved(At(k - 1), At(k), TakeReply(1, AppendReply(RequestAt(k), 1, true), SlotAt(k)))
  {
    hide Full, NodeAt, SentAt, NetAt, GrantedAt, At, Acts, Committed, Mover, ElectionMove, OtherMove, CrashMove, BeginMove, ReadMove,
      Node.TakeAppendReply, RequestAt, Puts;
    CountFacts(k);
    ReplySent(k);
    ActsAt(k);
    var b, a := NodeAt(k - 1, 1), RequestAt(k);
    RoleOf(1, b);
    Counts(b, SlotAt(k), a.prev + |a.entries|);
    assert ToAppend(a).prevLogIndex + |ToAppend(a).entries| == a.prev + |a.entries|;
  }

  predicate IsAdvance(k: nat) {
    k == 15 || k == 17 || k == 24
  }

  lemma AdvanceFacts(k: nat)
    requires IsAdvance(k)
    ensures var b, c := NodeAt(k - 1, 1), NodeAt(k, 1).applied;
      && Sized(b) && b.role == Leader && b.term == 1 && |b.matched| == 2 && b.applied < c <= b.last
      && c == (if b.matched[0] >= b.matched[1] then b.matched[0] else b.matched[1])
      && NodeAt(k, 1) == Committed(b, c)
    ensures Mover(k) == 1 && SentAt(k) == {} && GrantedAt(k, 1) == GrantedAt(k - 1, 1)
  {
  }

  lemma AdvanceMoves(k: nat)
    requires IsAdvance(k)
    ensures Moved(At(k - 1), At(k), Advance(1))
  {
    hide Full, NodeAt, SentAt, NetAt, GrantedAt, At, Acts, Committed, Mover, ElectionMove, OtherMove, CrashMove, BeginMove, ReadMove,
      UpdateCommitIndex;
    AdvanceFacts(k);
    ActsAt(k);
    RoleOf(1, NodeAt(k - 1, 1));
    Advances(NodeAt(k - 1, 1), NodeAt(k, 1).applied);
  }

  lemma ElectMoves(k: nat)
    requires k == 1 || k == 25
    ensures Moved(At(k - 1), At(k), Elect(Mover(k)))
  {
    hide Full, NodeAt, SentAt, NetAt, GrantedAt, At, Acts, Committed, Mover, LogMove, OtherMove, CrashMove, BeginMove, ReadMove,
      Node.StartElection;
    ElectFacts(k);
    ActsAt(k);
    var n := Mover(k);
    var b := NodeAt(k - 1, n);
    RoleOf(n, b);
    Stands(n, b);
  }

  lemma ElectFacts(k: nat)
    requires k == 1 || k == 25
    ensures var n := Mover(k);
      var b := NodeAt(k - 1, n);
      && (n == 1 || n == 2) && Sized(b) && b.role == Follower && b.term >= 0
      && NodeAt(k, n) == b.(term := b.term + 1, votedFor := n, role := Candidate, leaderId := NOBODY)
      && SentAt(k) == {RequestVote(n, b.term + 1, b.last, if b.last == 0 then 0 else 1)} && GrantedAt(k, n) == [n as int]
  {
  }

  function CandidateAt(k: nat): Id {
    if k < 25 then 1 else 2
  }

  lemma VoteFacts(k: nat)
    requires k == 2 || k == 26
    ensures var b, c := NodeAt(k - 1, 3), CandidateAt(k);
      && Mover(k) == 3 && (c == 1 || c == 2) && Sized(b) && b.role == Follower && b.term >= 0
      && NodeAt(k, 3) == b.(term := b.term + 1, votedFor := c, leaderId := NOBODY)
      && SentAt(k) == {VoteReply(3, c, b.term + 1, b.term + 1, true)} && GrantedAt(k, 3) == GrantedAt(k - 1, 3)
      && SentAt(k - 1) == {RequestVote(c, b.term + 1, b.last, if b.last == 0 then 0 else 1)}
  {
  }

  function AskedOf(b: Brief, c: Id): Message
    requires b.term >= 0
  {
    RequestVote(c, b.term + 1, b.last, if b.last == 0 then 0 else 1)
  }

  lemma VoteMoves(k: nat)
    requires k == 2 || k == 26
    ensures NodeAt(k - 1, 3).term >= 0 && Moved(At(k - 1), At(k), AnswerVote(3, AskedOf(NodeAt(k - 1, 3), CandidateAt(k))))
  {
    hide Full, NodeAt, SentAt, NetAt, GrantedAt, At, Acts, Committed, Mover, LogMove, OtherMove, CrashMove, BeginMove, ReadMove,
      HandleRequestVote, CandidateAt;
    VoteFacts(k);
    var b, c := NodeAt(k - 1, 3), CandidateAt(k);
    SentBefore(k - 1, k - 1, AskedOf(b, c));
    ActsAt(k);
    RoleOf(3, b);
    Votes(b, c);
  }

  lemma TallyFacts(k: nat)
    requires k == 3 || k == 27
    ensures var n := Mover(k);
      var b := NodeAt(k - 1, n);
      && (n == 1 || n == 2) && Sized(b) && b.role == Candidate && b.term >= 0
      && NodeAt(k, n) == b.(role := Leader, leaderId := n, next := [b.last + 1, b.last + 1], matched := [0, 0])
      && SentAt(k) == {} && GrantedAt(k - 1, n) == [n as int] && GrantedAt(k, n) == [n as int, 3]
      && SentAt(k - 1) == {VoteReply(3, n, b.term, b.term, true)}
  {
  }

  lemma TallyMoves(k: nat)
    requires k == 3 || k == 27
    ensures NodeAt(k - 1, Mover(k)).term >= 0
    ensures var t := NodeAt(k - 1, Mover(k)).term; Moved(At(k - 1), At(k), TallyVote(Mover(k), VoteReply(3, Mover(k), t, t, true)))
  {
    hide Full, NodeAt, SentAt, NetAt, GrantedAt, At, Acts, Committed, Mover, LogMove, OtherMove, CrashMove, BeginMove, ReadMove,
      Node.CountVote;
    TallyFacts(k);
    var n := Mover(k);
    var b := NodeAt(k - 1, n);
    SentBefore(k - 1, k - 1, VoteReply(3, n, b.term, b.term, true));
    ActsAt(k);
    RoleOf(n, b);
    Wins(n, b);
  }

  // ---- the whole run ----

  lemma Starts()
    ensures InitialWith(At(0), 5)
  {
    hide Full, Started, At;
    Shape(0);
    forall n | n in At(0).nodes
      ensures Started(At(0), n, At(0).nodes[n], 5)
    {
      StartsOne(n);
    }
  }

  lemma StartsOne(n: Id)
    requires n == 1 || n == 2 || n == 3
    ensures Started(At(0), n, Full(n, Booted()), 5)
  {
    hide Ids, Proper, At;
    ThreeMembers(n);
    Shape(0);
    assert StartedAs(At(0), n, Full(n, Booted()), ("host", n), Rest(n), 5);
  }

  lemma ThreeMembers(n: Id)
    requires n == 1 || n == 2 || n == 3
    ensures var cfg := [Peer(n)] + Rest(n); Proper(cfg) && Ids(cfg) == {1, 2, 3}
  {
    var cfg := [Peer(n)] + Rest(n);
    assert cfg[0] in cfg && cfg[1] in cfg && cfg[2] in cfg;
    assert Ids(cfg) == {1, 2, 3};
  }

  lemma MovesFollow(k: nat)
    requires 1 <= k <= 27 && k != 22
    ensures MovesTo(At(k - 1), At(k))
  {
    hide Moved, At, RequestAt;
    if k == 1 || k == 25 {
      ElectMoves(k);
    } else if k == 2 || k == 26 {
      VoteMoves(k);
    } else if k == 3 || k == 27 {
      TallyMoves(k);
    } else if IsWrite(k) {
      WriteMoves(k);
    } else if IsSend(k) {
      SendMoves(k);
    } else if IsAnswer(k) {
      AnswerMoves(k);
    } else if IsCount(k) {
      CountMoves(k);
    } else {
      AdvanceMoves(k);
    }
  }

  /** Twenty-seven moves of three nodes, all but one of them moves of NodeCluster. Node 1, leader of term 1, commits entry
      7; node 2, which said it had stored it, becomes leader of term 2 with a log that ends at 6. The theorem that rules
      this out without the straddling request is NodeGuarantees.LeaderHoldsCommitted. */
  lemma CommittedEntryIsLost() returns (ws: seq<World>)
    ensures FreeRun(ws, 5) && |ws| == 28
    ensures forall k, l | 0 <= k < l < |ws| && l == k + 1 && k != 21 :: MovesTo(ws[k], ws[l])
    ensures Straddles(ws[21], ws[22], 2, SeventhToTwo())
    ensures 1 in ws[24].nodes && 2 in ws[27].nodes
    ensures var a, b := ws[24].nodes[1], ws[27].nodes[2];
      && a.role == Leader == b.role && a.term == 1 && b.term == 2
      && a.commitIndex == 7 && a.lastIncludedIndex == 5 && a.logs == [Put(6), Put(7)]
      && LastLogIndex(b) == 6
  {
    hide At, MovesTo, Straddles, InitialWith, Full, SeventhToTwo, Put;
    ws := seq(28, k requires 0 <= k => At(k));
    Starts();
    Straddling();
    forall k, l | 0 <= k < l < |ws| && l == k + 1
      ensures FreeMove(ws[k], ws[l]) && (k != 21 ==> MovesTo(ws[k], ws[l]))
    {
      if l != 22 {
        MovesFollow(l);
      }
    }
    LastStates();
    assert ws[24] == At(24) && ws[27] == At(27) && ws[21] == At(21) && ws[22] == At(22) && ws[0] == At(0);
  }

  lemma LastStates()
    ensures 1 in At(24).nodes && 2 in At(27).nodes
    ensures var a, b := At(24).nodes[1], At(27).nodes[2];
      && a.role == Leader == b.role && a.term == 1 && b.term == 2
      && a.commitIndex == 7 && a.lastIncludedIndex == 5 && a.logs == [Put(6), Put(7)]
      && LastLogIndex(b) == 6
  {
    hide At, Full, LastLogIndex;
    Shape(24);
    Shape(27);
    OneAtItsEnd();
    StandsFor(2, TwoAt(27));
    RoleOf(2, TwoAt(27));
  }

  lemma OneAtItsEnd()
    ensures var a := Full(1, OneAt(24));
      a.role == Leader && a.term == 1 && a.commitIndex == 7 && a.lastIncludedIndex == 5 && a.logs == [Put(6), Put(7)]
  {
    assert Puts(7)[5..] == [Put(6), Put(7)];
  }
}
