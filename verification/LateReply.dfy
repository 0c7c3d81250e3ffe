/**
 Two lives that show what the conditions of NodeBooks and NodeLives are for: a reply that comes after its slot has
 passed to another peer, and two proposals decided on before either is appended.
 */
module LateReply {
  import opened Types
  import opened Node
  import opened NodeConfig
  import opened NodeLog
  import opened NodeApply
  import opened NodeRun

  function Peer(i: int): PeerInfo {
    PeerInfo(i, "host", i)
  }

  lemma CountPair(a: PeerInfo, b: PeerInfo, test: int -> bool)
    ensures CountIf([a, b], test) == (if test(a.id) then 1 else 0) + (if test(b.id) then 1 else 0)
  {
    assert [a, b][..1] == [a];
    assert [a][..0] == [];
  }

  lemma CountTriple(a: PeerInfo, b: PeerInfo, c: PeerInfo, test: int -> bool)
    ensures CountIf([a, b, c], test) == CountIf([a, b], test) + (if test(c.id) then 1 else 0)
  {
    assert [a, b, c][..2] == [a, b];
  }

  // ---- a reply that comes late ----

  const OLD := [Peer(1), Peer(2), Peer(3)]
  const NEW := [Peer(1), Peer(3)]

  /** Removing node 2, and a write before that is through. */
  const ENTRIES := [LogEntry(1, 1, CONFIG_JOINT, JOINT_TEXT, JOINT_TEXT, OLD, NEW),
                    LogEntry(1, 2, CONFIG_NEW, "__config_new__", "__config_new__", [], NEW),
                    LogEntry(1, 3, PUT, "k", "v", [], [])]

  /** Node 1 with the first `last` entries, as many of them applied as `applied`. */
  function Leading(last: nat, applied: nat, next: seq<int>, matched: seq<int>): NodeState
    requires last <= 3
  {
    NodeState(1, 1, 1, ENTRIES[..last], applied, applied, Leader, 1, if applied < 2 then OLD[1..] else NEW[1..], next, matched,
              0, 0, 5, if applied == 1 then JOINT else STABLE, if applied < 2 then OLD else NEW,
              if applied == 1 then OLD else [], if applied == 1 then NEW else [], true, false, false, map[],
              Saved(1, 1, 0, 0, ENTRIES[..last]))
  }

  function StateAt(k: nat): NodeState {
    if k == 0 then Boot(1, ("host", 1), OLD[1..], 5, map[], Saved(0, NOBODY, 0, 0, []))
    else if k == 1 then BecomeCandidate(Boot(1, ("host", 1), OLD[1..], 5, map[], Saved(0, NOBODY, 0, 0, [])))
    else if k < 4 then Leading(0, 0, [1, 1], [0, 0])
    else if k < 6 then Leading(1, 0, [1, 1], [0, 0])
    else if k < 8 then Leading(1, 0, [1, 2], [0, 1])
    else if k < 9 then Leading(1, 1, [2, 2], [0, 0])
    else if k < 11 then Leading(2, 1, [2, 2], [0, 0])
    else if k < 13 then Leading(3, 1, [2, 2], [0, 0])
    else if k < 15 then Leading(3, 1, [2, 3], [0, 2])
    else if k < 16 then Leading(3, 2, [4], [0])
    else Leading(3, 2, [4], [3])
  }

  function Asked(slot: nat, prev: nat, last: nat, commit: nat): Sent
    requires prev <= last <= 3
  {
    Sent.Entries(1, slot, OLD[1..], AppendEntriesArgs(1, 1, prev, if prev == 0 then 0 else 1, ENTRIES[prev..last], commit))
  }

  function EventAt(k: nat): Event {
    if k == 0 then Elect
    else if k == 1 then TakeVote(1, [1], 2, RequestVoteReply(1, true))
    else if k == 2 then PlanRemoveNode(2)
    else if k == 3 then Propose((OLD, NEW))
    else if k == 4 then Replicate(1)
    else if k == 5 then TakeReply(Asked(1, 0, 1, 0), AppendEntriesReply(1, true))
    else if k == 6 then Committed(ENTRIES[..1])
    else if k == 7 then Advance
    else if k == 8 then Own(CONFIG_NEW, "__config_new__", "__config_new__", [], NEW)
    else if k == 9 then Replicate(1)
    else if k == 10 then Own(PUT, "k", "v", [], [])
    else if k == 11 then Replicate(0)
    else if k == 12 then TakeReply(Asked(1, 1, 2, 1), AppendEntriesReply(1, true))
    else if k == 13 then Committed(ENTRIES[1..2])
    else if k == 14 then Advance
    else TakeReply(Asked(0, 1, 3, 1), AppendEntriesReply(1, true))
  }

  function At(k: nat): World {
    var s := StateAt(k);
    World(s, ENTRIES[..if k < 4 then 0 else if k < 9 then 1 else if k < 11 then 2 else 3],
          ENTRIES[..if k < 7 then 0 else if k < 14 then 1 else 2],
          (if k < 5 then {} else {Asked(1, 0, 1, 0)}) + (if k < 10 then {} else {Asked(1, 1, 2, 1)})
          + (if k < 12 then {} else {Asked(0, 1, 3, 1)}),
          (if k < 6 then {} else {Ack(1, 3, 1)}) + (if k < 13 then {} else {Ack(1, 3, 2)}) + (if k < 16 then {} else {Ack(1, 2, 3)}),
          if k < 3 then {} else {(OLD, NEW)}, OLD, ENTRIES[..if k < 8 then 0 else if k < 15 then 1 else 2])
  }

  ghost predicate Happens(k: nat) {
    Allowed(At(k), EventAt(k)) && NodeRun.After(At(k), EventAt(k)) == At(k + 1)
  }

  lemma Stood()
    ensures Happens(0)
  {
    assert OLD[1..] == [Peer(2), Peer(3)];
    assert [PeerInfo(1, "host", 1)] + OLD[1..] == OLD;
    assert OLD[0].id == 1;
  }

  lemma Elected()
    ensures Happens(1)
  {
    assert OLD[1..] == [Peer(2), Peer(3)];
    assert [PeerInfo(1, "host", 1)] + OLD[1..] == OLD;
    CountPair(Peer(1), Peer(2), GrantedTest([1, 2]));
    CountTriple(Peer(1), Peer(2), Peer(3), GrantedTest([1, 2]));
    assert [1] + [2] == [1, 2];
    assert ENTRIES[..0] == [];
  }

  lemma OthersOf(a: PeerInfo, b: PeerInfo, c: PeerInfo, id: int)
    ensures Others([a, b, c], id) == (if a.id != id then [a] else []) + (if b.id != id then [b] else []) + (if c.id != id then [c] else [])
    ensures Others([a, b], id) == (if a.id != id then [a] else []) + (if b.id != id then [b] else [])
  {
    assert [a, b, c][..2] == [a, b];
    assert [a, b][..1] == [a];
    assert [a][..0] == [];
    assert Others([a], id) == Others([], id) + (if a.id != id then [a] else []);
  }

  lemma Planned()
    ensures Happens(2) && PlanRemove(StateAt(2), 2) == Some((OLD, NEW))
  {
    OthersOf(Peer(1), Peer(2), Peer(3), 2);
    assert OLD[1].id == 2;
    assert Others(OLD, 2) == NEW;
  }

  lemma Owned(last: nat, applied: nat, next: seq<int>, matched: seq<int>)
    requires last < 3
    ensures var e := ENTRIES[last];
      AppendOwn(Leading(last, applied, next, matched), e.op, e.key, e.value, e.oldConfig, e.newConfig)
      == Leading(last + 1, applied, next, matched)
    ensures ENTRIES[..last + 1] == ENTRIES[..last] + [ENTRIES[last]]
  {
    assert ENTRIES[..last + 1] == ENTRIES[..last] + [ENTRIES[last]];
    assert last > 0 ==> ENTRIES[..last][last - 1] == ENTRIES[last - 1];
  }

  lemma Proposed()
    ensures Happens(3)
  {
    hide AppendOwn, Leading;
    LeadingIs(0, 0, [1, 1], [0, 0]);
    Owned(0, 0, [1, 1], [0, 0]);
  }

  lemma FinalAppended()
    ensures Happens(8)
  {
    hide AppendOwn, Leading;
    LeadingIs(1, 1, [2, 2], [0, 0]);
    Owned(1, 1, [2, 2], [0, 0]);
  }

  lemma WriteAppended()
    ensures Happens(10)
  {
    hide AppendOwn, Leading;
    LeadingIs(2, 1, [2, 2], [0, 0]);
    Owned(2, 1, [2, 2], [0, 0]);
  }

  lemma Represented(last: nat, applied: nat, next: seq<int>, matched: seq<int>)
    requires last <= 3
    ensures Represents(Leading(last, applied, next, matched), ENTRIES[..last])
    ensures LastLogIndex(Leading(last, applied, next, matched)) == last
  {
    CompactedAnswers(Leading(last, applied, next, matched), ENTRIES[..last], 0);
  }

  /** The request to a peer whose nextIndex is prev + 1. */
  lemma Built(last: nat, applied: nat, next: seq<int>, matched: seq<int>, slot: nat, prev: nat)
    requires prev <= last <= 3 && slot < 2
    ensures Asked(slot, prev, last, applied).a == BuildAppend(Leading(last, applied, next, matched), prev + 1)
  {
    Represented(last, applied, next, matched);
    BuildOnFull(Leading(last, applied, next, matched), ENTRIES[..last], prev + 1);
    assert ENTRIES[..last][prev..] == ENTRIES[prev..last];
  }

  lemma FirstSent()
    ensures Happens(4)
  {
    hide BuildAppend, Leading;
    LeadingIs(1, 0, [1, 1], [0, 0]);
    Built(1, 0, [1, 1], [0, 0], 1, 0);
  }

  lemma SecondSent()
    ensures Happens(9)
  {
    hide BuildAppend, Leading;
    LeadingIs(2, 1, [2, 2], [0, 0]);
    Built(2, 1, [2, 2], [0, 0], 1, 1);
  }

  lemma LateSent()
    ensures Happens(11)
  {
    hide BuildAppend, Leading;
    LeadingIs(3, 1, [2, 2], [0, 0]);
    Built(3, 1, [2, 2], [0, 0], 0, 1);
  }

  lemma LeadingIs(last: nat, applied: nat, next: seq<int>, matched: seq<int>)
    requires last <= 3
    ensures var s := Leading(last, applied, next, matched);
      && s.role == Leader && s.term == 1 && s.nextIndex == next && s.matchIndex == matched && s.lastIncludedIndex == 0
      && s.peers == (if applied < 2 then OLD[1..] else NEW[1..]) && |OLD[1..]| == 2 && |NEW[1..]| == 1
  {
  }

  lemma Credits(last: nat, applied: nat, next: seq<int>, matched: seq<int>, slot: nat, prev: nat, upto: nat, commit: nat)
    requires prev <= upto <= last <= 3 && slot < |next| && slot < |matched| && matched[slot] <= upto
    ensures TakeAppendReply(Leading(last, applied, next, matched), slot, Asked(slot, prev, upto, commit).a, 1, AppendEntriesReply(1, true))
            == Leading(last, applied, next[slot := upto + 1], matched[slot := upto])
  {
  }

  lemma FirstAnswer()
    ensures Happens(5)
  {
    hide Leading, TakeAppendReply;
    LeadingIs(1, 0, [1, 1], [0, 0]);
    Credits(1, 0, [1, 1], [0, 0], 1, 0, 1, 0);
    assert [1, 1][1 := 2] == [1, 2] && [0, 0][1 := 1] == [0, 1];
    assert AckOf(Asked(1, 0, 1, 0)) == {Ack(1, 3, 1)};
  }

  lemma SecondAnswer()
    ensures Happens(12)
  {
    hide Leading, TakeAppendReply;
    LeadingIs(3, 1, [2, 2], [0, 0]);
    Credits(3, 1, [2, 2], [0, 0], 1, 1, 2, 1);
    assert [2, 2][1 := 3] == [2, 3] && [0, 0][1 := 2] == [0, 2];
    assert AckOf(Asked(1, 1, 2, 1)) == {Ack(1, 3, 2)};
  }

  lemma LateAnswer()
    ensures Happens(15)
  {
    hide Leading, TakeAppendReply;
    LeadingIs(3, 2, [4], [0]);
    Credits(3, 2, [4], [0], 0, 1, 3, 1);
    assert [4][0 := 4] == [4] && [0][0 := 3] == [3];
    assert AckOf(Asked(0, 1, 3, 1)) == {Ack(1, 2, 3)};
  }

  lemma FirstCommitted()
    ensures Happens(6)
  {
    hide Leading;
    assert ENTRIES[..1] == ENTRIES[..0] + ENTRIES[..1];
  }

  lemma SecondCommitted()
    ensures Happens(13)
  {
    hide Leading;
    assert ENTRIES[..2] == ENTRIES[..1] + ENTRIES[1..2];
  }

  // ---- what is committed ----

  lemma SlotOf(peers: seq<PeerInfo>, i: nat)
    requires i < |peers| && Distinct(peers)
    ensures PeerIndex(peers, peers[i].id) == i
  {
    assert Contains(peers, peers[i].id);
  }

  lemma Counted(s: NodeState, index: int)
    requires s.id == 1 && s.peers == OLD[1..] && |s.matchIndex| == 2
    ensures CountIf(OLD, HoldsTest(s, index)) == (if LastLogIndex(s) >= index then 1 else 0)
      + (if s.matchIndex[0] >= index then 1 else 0) + (if s.matchIndex[1] >= index then 1 else 0)
    ensures CountIf(NEW, HoldsTest(s, index)) == (if LastLogIndex(s) >= index then 1 else 0) + (if s.matchIndex[1] >= index then 1 else 0)
  {
    SlotOf(s.peers, 0);
    SlotOf(s.peers, 1);
    CountPair(Peer(1), Peer(2), HoldsTest(s, index));
    CountPair(Peer(1), Peer(3), HoldsTest(s, index));
    CountTriple(Peer(1), Peer(2), Peer(3), HoldsTest(s, index));
  }

  lemma AddOf(peers: seq<PeerInfo>, a: PeerInfo, b: PeerInfo, id: int)
    ensures AddUnique(peers, [a, b], id) == AddUnique(AddUnique(peers, [a], id), [b], id)
  {
    assert [a, b][..1] == [a];
    assert [b][..0] == [] && [a][..0] == [];
  }

  lemma AddThird(peers: seq<PeerInfo>, a: PeerInfo, b: PeerInfo, c: PeerInfo, id: int)
    ensures AddUnique(peers, [a, b, c], id) == AddUnique(AddUnique(peers, [a, b], id), [c], id)
  {
    assert [a, b, c][..2] == [a, b];
    assert [c][..0] == [];
  }

  lemma AddSingle(peers: seq<PeerInfo>, a: PeerInfo, id: int)
    ensures AddUnique(peers, [a], id) == if a.id == id || Contains(peers, a.id) then peers else peers + [a]
  {
    assert [a][..0] == [];
  }

  lemma PeersOf()
    ensures AddUnique(AddUnique([], OLD, 1), NEW, 1) == OLD[1..] && Others(NEW, 1) == NEW[1..]
  {
    hide AddUnique, Others;
    OthersOf(Peer(1), Peer(3), Peer(3), 1);
    assert [Peer(1), Peer(3)] == NEW && [Peer(3)] == NEW[1..] && [] + [Peer(3)] == [Peer(3)];
    AddThird([], Peer(1), Peer(2), Peer(3), 1);
    AddOf([], Peer(1), Peer(2), 1);
    AddOf(OLD[1..], Peer(1), Peer(3), 1);
    AddSingle([], Peer(1), 1);
    AddSingle([], Peer(2), 1);
    AddSingle([Peer(2)], Peer(3), 1);
    AddSingle(OLD[1..], Peer(1), 1);
    AddSingle(OLD[1..], Peer(3), 1);
    assert [] + [Peer(2)] == [Peer(2)] && [Peer(2)] + [Peer(3)] == OLD[1..];
    assert OLD[1..][1].id == 3 && [Peer(2)][0].id == 2;
    assert !Contains([Peer(2)], 3) && !Contains([], 2);
  }

  lemma JointApplies()
    ensures ApplyCommitted(Leading(1, 0, [1, 2], [0, 1]).(commitIndex := 1)) == Leading(1, 1, [2, 2], [0, 0])
  {
    hide AddUnique, CreateSnapshot;
    var s, t := Leading(1, 0, [1, 2], [0, 1]).(commitIndex := 1), Leading(1, 1, [2, 2], [0, 0]);
    PeersOf();
    assert s.logs[0] == ENTRIES[0] && NEW[0].id == 1;
    assert ApplyJoint(s, ENTRIES[0]).(lastApplied := 1) == t;
    assert ApplyNext(s) == Some(t);
    LoopUnfolds(s);
    LoopUnfolds(t);
  }

  lemma FinalApplies()
    ensures ApplyCommitted(Leading(3, 1, [2, 3], [0, 2]).(commitIndex := 2)) == Leading(3, 2, [4], [0])
  {
    hide Others, CreateSnapshot;
    var s, t := Leading(3, 1, [2, 3], [0, 2]).(commitIndex := 2), Leading(3, 2, [4], [0]);
    PeersOf();
    Represented(3, 1, [2, 3], [0, 2]);
    assert s.logs[1] == ENTRIES[1] && NEW[0].id == 1 && s.logs[2].index == 3;
    assert ApplyNew(s, ENTRIES[1]).(lastApplied := 2) == t;
    assert ApplyNext(s) == Some(t);
    LoopUnfolds(s);
    LoopUnfolds(t);
  }

  lemma JointCommits()
    ensures LargestCommittable(Leading(1, 0, [1, 2], [0, 1]), 1) == 1
    ensures UpdateCommitIndex(Leading(1, 0, [1, 2], [0, 1])) == Leading(1, 1, [2, 2], [0, 0])
  {
    hide CountIf, ApplyCommitted;
    var s := Leading(1, 0, [1, 2], [0, 1]);
    Represented(1, 0, [1, 2], [0, 1]);
    Counted(s, 1);
    assert s.logs[0] == ENTRIES[0];
    JointApplies();
  }

  lemma FinalCommits()
    ensures LargestCommittable(Leading(3, 1, [2, 3], [0, 2]), 3) == 2
    ensures UpdateCommitIndex(Leading(3, 1, [2, 3], [0, 2])) == Leading(3, 2, [4], [0])
  {
    hide CountIf, ApplyCommitted;
    var s := Leading(3, 1, [2, 3], [0, 2]);
    Represented(3, 1, [2, 3], [0, 2]);
    Counted(s, 2);
    Counted(s, 3);
    assert s.logs[1] == ENTRIES[1] && s.logs[2] == ENTRIES[2];
    assert !CanCommit(s, 3);
    assert CanCommit(s, 2);
    FinalApplies();
  }

  lemma JointAdvanced()
    ensures Happens(7)
  {
    hide UpdateCommitIndex, LargestCommittable, Leading;
    Represented(1, 0, [1, 2], [0, 1]);
    Progress(1, 0, [1, 2], [0, 1]);
    Progress(1, 1, [2, 2], [0, 0]);
    JointCommits();
    assert ENTRIES[..0] + ENTRIES[..1][0..1] == ENTRIES[..1];
  }

  lemma FinalAdvanced()
    ensures Happens(14)
  {
    hide UpdateCommitIndex, LargestCommittable, Leading;
    Represented(3, 1, [2, 3], [0, 2]);
    Progress(3, 1, [2, 3], [0, 2]);
    Progress(3, 2, [4], [0]);
    FinalCommits();
    assert ENTRIES[..1] + ENTRIES[..3][1..2] == ENTRIES[..2];
  }

  lemma Progress(last: nat, applied: nat, next: seq<int>, matched: seq<int>)
    requires last <= 3
    ensures Leading(last, applied, next, matched).lastApplied == applied
  {
  }

  lemma MomentsFollow(k: nat)
    requires k < 16
    ensures Happens(k)
  {
    hide Happens;
    Stood(); Elected(); Planned(); Proposed(); FirstSent(); FirstAnswer(); FirstCommitted(); JointAdvanced();
    FinalAppended(); SecondSent(); WriteAppended(); LateSent(); SecondAnswer(); SecondCommitted(); FinalAdvanced(); LateAnswer();
  }

  lemma StartsFresh()
    ensures Fresh(At(0))
  {
    assert [PeerInfo(1, "host", 1)] + OLD[1..] == OLD;
    assert ENTRIES[..0] == [];
    var id: Id := 1;
    assert Proper([PeerInfo(id, ("host", 1).0, ("host", 1).1)] + OLD[1..]);
    assert At(0).s == Boot(id, ("host", 1), OLD[1..], 5, map[], Saved(0, NOBODY, 0, 0, []));
  }

  function Story(): seq<World> {
    seq(17, k requires 0 <= k => At(k))
  }

  lemma StoryIsLife()
    ensures Life(Story())
  {
    forall i | 0 <= i < |Story()| - 1
      ensures Follows(Story()[i], Story()[i + 1])
    {
      hide NodeRun.After, Allowed, At, EventAt;
      MomentsFollow(i);
    }
    hide At, Fresh, Follows;
    StartsFresh();
  }

  /** A life of sixteen events. Node 1 leads 1, 2 and 3, and removes 2. A request with a client's write is still on its
      way to 2 when 2 leaves and 3 moves up into its slot. The answer of 2 is credited to 3, which has acknowledged less,
      and the next call of updateCommitIndex commits the write: nobody but the leader is known to hold it. */
  lemma LateReplyIsMiscredited() returns (run: seq<World>)
    ensures |run| == 17 && Life(run)
    ensures var w := run[16];
      && w.s.role == Leader && w.s.configState == STABLE && Ids(w.s.currentConfig) == {1, 3}
      && w.s.peers == [Peer(3)] && w.s.matchIndex == [3]
      && (forall ack | ack in w.acks && ack.peer == 3 :: ack.upto <= 2)
      && UpdateCommitIndex(w.s).commitIndex == 3
  {
    hide UpdateCommitIndex, Life, Ids;
    run := Story();
    StoryIsLife();
    WriteCommits();
  }

  lemma WriteCommits()
    ensures UpdateCommitIndex(Leading(3, 2, [4], [3])).commitIndex == 3
    ensures Ids(NEW) == {1, 3} && NEW[1..] == [Peer(3)]
  {
    hide CountIf, ApplyCommitted;
    var s := Leading(3, 2, [4], [3]);
    Represented(3, 2, [4], [3]);
    SlotOf(s.peers, 0);
    CountPair(Peer(1), Peer(3), HoldsTest(s, 3));
    assert s.logs[2] == ENTRIES[2];
    assert CanCommit(s, 3);
    CommittedShape(s.(commitIndex := 3));
    NewIds();
  }

  lemma NewIds()
    ensures Ids(NEW) == {1, 3} && NEW[1..] == [Peer(3)]
  {
    var one: Id, three: Id := 1, 3;
    assert NEW[0] in NEW && NEW[1] in NEW;
    assert forall p | p in NEW :: p == Peer(1) || p == Peer(3);
    assert Ids(NEW) == {one, three};
  }
}