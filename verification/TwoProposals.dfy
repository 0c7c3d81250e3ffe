/**
 A life in which two changes of membership overlap: addNode decides in one critical section and appends in another, so
 two calls can both find no change under way (NodeLives.AppendsInTurnIff says when that does no harm).
 */
module TwoProposals {
  import opened Types
  import opened Quorum
  import opened Node
  import opened NodeConfig
  import opened NodeLog
  import opened NodeRun
  import opened NodeLives
  import opened LateReply

  const PAIR := [Peer(1), Peer(2)]
  const WITH_THREE := [Peer(1), Peer(2), Peer(3)]
  const WITH_FOUR := [Peer(1), Peer(2), Peer(4)]

  const JOINTS := [LogEntry(1, 1, CONFIG_JOINT, JOINT_TEXT, JOINT_TEXT, PAIR, WITH_THREE),
                   LogEntry(1, 2, CONFIG_JOINT, JOINT_TEXT, JOINT_TEXT, PAIR, WITH_FOUR)]

  /** Node 1 with the first `last` of these entries; once the first is applied, its change is under way. */
  function Leads(last: nat, applied: bool, next: seq<int>, matched: seq<int>): NodeState
    requires last <= 2
  {
    NodeState(1, 1, 1, JOINTS[..last], if applied then 1 else 0, if applied then 1 else 0, Leader, 1,
              if applied then WITH_THREE[1..] else PAIR[1..], next, matched, 0, 0, 5, if applied then JOINT else STABLE,
              PAIR, if applied then PAIR else [], if applied then WITH_THREE else [], true, false, false, map[],
              Saved(1, 1, 0, 0, JOINTS[..last]))
  }

  function StateAt(k: nat): NodeState {
    if k == 0 then Boot(1, ("host", 1), PAIR[1..], 5, map[], Saved(0, NOBODY, 0, 0, []))
    else if k == 1 then BecomeCandidate(Boot(1, ("host", 1), PAIR[1..], 5, map[], Saved(0, NOBODY, 0, 0, [])))
    else if k < 5 then Leads(0, false, [1], [0])
    else if k < 7 then Leads(1, false, [1], [0])
    else if k < 9 then Leads(1, false, [2], [1])
    else if k < 10 then Leads(1, true, [2, 2], [0, 0])
    else Leads(2, true, [2, 2], [0, 0])
  }

  function FirstRequest(): Sent {
    Sent.Entries(1, 0, PAIR[1..], AppendEntriesArgs(1, 1, 0, 0, JOINTS[..1], 0))
  }

  function EventAt(k: nat): Event {
    if k == 0 then Elect
    else if k == 1 then TakeVote(1, [1], 2, RequestVoteReply(1, true))
    else if k == 2 then PlanAddNode(Peer(3))
    else if k == 3 then PlanAddNode(Peer(4))
    else if k == 4 then Propose((PAIR, WITH_THREE))
    else if k == 5 then Replicate(0)
    else if k == 6 then TakeReply(FirstRequest(), AppendEntriesReply(1, true))
    else if k == 7 then Committed(JOINTS[..1])
    else if k == 8 then Advance
    else Propose((PAIR, WITH_FOUR))
  }

  function At(k: nat): World {
    World(StateAt(k), JOINTS[..if k < 5 then 0 else if k < 10 then 1 else 2], JOINTS[..if k < 8 then 0 else 1],
          if k < 6 then {} else {FirstRequest()}, if k < 7 then {} else {Ack(1, 2, 1)},
          (if k < 3 then {} else {(PAIR, WITH_THREE)}) + (if k < 4 then {} else {(PAIR, WITH_FOUR)}),
          PAIR, JOINTS[..if k < 9 then 0 else 1])
  }

  ghost predicate Happens(k: nat) {
    Allowed(At(k), EventAt(k)) && NodeRun.After(At(k), EventAt(k)) == At(k + 1)
  }

  lemma Stood()
    ensures Happens(0)
  {
    assert [PeerInfo(1, "host", 1)] + PAIR[1..] == PAIR;
    assert PAIR[0].id == 1;
  }

  lemma Elected()
    ensures Happens(1)
  {
    assert PAIR[1..] == [Peer(2)];
    assert [PeerInfo(1, "host", 1)] + PAIR[1..] == PAIR;
    CountPair(Peer(1), Peer(2), GrantedTest([1, 2]));
    assert [1] + [2] == [1, 2];
    assert JOINTS[..0] == [];
  }

  lemma FirstPlanned()
    ensures Happens(2)
  {
    assert PAIR + [Peer(3)] == WITH_THREE;
  }

  lemma SecondPlanned()
    ensures Happens(3)
  {
    assert PAIR + [Peer(4)] == WITH_FOUR;
  }

  lemma Owned(last: nat, applied: bool, next: seq<int>, matched: seq<int>)
    requires last < 2
    ensures var e := JOINTS[last];
      AppendOwn(Leads(last, applied, next, matched), e.op, e.key, e.value, e.oldConfig, e.newConfig)
      == Leads(last + 1, applied, next, matched)
    ensures JOINTS[..last + 1] == JOINTS[..last] + [JOINTS[last]]
  {
    assert JOINTS[..last + 1] == JOINTS[..last] + [JOINTS[last]];
    assert last > 0 ==> JOINTS[..last][last - 1] == JOINTS[last - 1];
  }

  lemma LeadsIs(last: nat, applied: bool, next: seq<int>, matched: seq<int>)
    requires last <= 2
    ensures var s := Leads(last, applied, next, matched);
      && s.role == Leader && s.term == 1 && s.nextIndex == next && s.matchIndex == matched && s.lastIncludedIndex == 0
      && s.lastApplied == (if applied then 1 else 0)
      && s.peers == (if applied then WITH_THREE[1..] else PAIR[1..]) && |PAIR[1..]| == 1 && |WITH_THREE[1..]| == 2
  {
  }

  lemma FirstProposed()
    ensures Happens(4)
  {
    hide AppendOwn, Leads;
    LeadsIs(0, false, [1], [0]);
    Owned(0, false, [1], [0]);
  }

  lemma SecondProposed()
    ensures Happens(9)
  {
    hide AppendOwn, Leads;
    LeadsIs(1, true, [2, 2], [0, 0]);
    Owned(1, true, [2, 2], [0, 0]);
  }

  lemma Represented(last: nat, applied: bool, next: seq<int>, matched: seq<int>)
    requires last <= 2
    ensures Represents(Leads(last, applied, next, matched), JOINTS[..last])
    ensures LastLogIndex(Leads(last, applied, next, matched)) == last
  {
    CompactedAnswers(Leads(last, applied, next, matched), JOINTS[..last], 0);
  }

  lemma FirstSent()
    ensures Happens(5)
  {
    hide BuildAppend;
    BuiltIs();
  }

  lemma BuiltIs()
    ensures BuildAppend(Leads(1, false, [1], [0]), 1) == FirstRequest().a
  {
    Represented(1, false, [1], [0]);
    BuildOnFull(Leads(1, false, [1], [0]), JOINTS[..1], 1);
    assert JOINTS[..1][0..] == JOINTS[..1];
  }

  lemma Answered()
    ensures Happens(6)
  {
    assert [1][0 := 2] == [2] && [0][0 := 1] == [1];
    assert AckOf(FirstRequest()) == {Ack(1, 2, 1)};
  }

  lemma CommittedElsewhere()
    ensures Happens(7)
  {
    hide Leads;
    assert JOINTS[..1] == JOINTS[..0] + JOINTS[..1];
  }

  lemma PeersOf()
    ensures AddUnique(AddUnique([], PAIR, 1), WITH_THREE, 1) == WITH_THREE[1..]
  {
    hide AddUnique;
    AddOf([], Peer(1), Peer(2), 1);
    AddSingle([], Peer(1), 1);
    AddSingle([], Peer(2), 1);
    assert [] + [Peer(2)] == [Peer(2)];
    AddThird([Peer(2)], Peer(1), Peer(2), Peer(3), 1);
    AddOf([Peer(2)], Peer(1), Peer(2), 1);
    AddSingle([Peer(2)], Peer(1), 1);
    assert [Peer(2)][0].id == 2;
    AddSingle([Peer(2)], Peer(2), 1);
    AddSingle([Peer(2)], Peer(3), 1);
    assert !Contains([Peer(2)], 3) && !Contains([], 2);
    assert [Peer(2)] + [Peer(3)] == WITH_THREE[1..];
  }

  lemma JointApplies()
    ensures ApplyCommitted(Leads(1, false, [2], [1]).(commitIndex := 1)) == Leads(1, true, [2, 2], [0, 0])
  {
    hide AddUnique, CreateSnapshot;
    var s, t := Leads(1, false, [2], [1]).(commitIndex := 1), Leads(1, true, [2, 2], [0, 0]);
    PeersOf();
    assert s.logs[0] == JOINTS[0] && WITH_THREE[0].id == 1;
    assert ApplyJoint(s, JOINTS[0]).(lastApplied := 1) == t;
    assert ApplyNext(s) == Some(t);
    LoopUnfolds(s);
    LoopUnfolds(t);
  }

  lemma JointCommits()
    ensures LargestCommittable(Leads(1, false, [2], [1]), 1) == 1
    ensures UpdateCommitIndex(Leads(1, false, [2], [1])) == Leads(1, true, [2, 2], [0, 0])
  {
    hide CountIf, ApplyCommitted;
    var s := Leads(1, false, [2], [1]);
    Represented(1, false, [2], [1]);
    SlotOf(s.peers, 0);
    CountPair(Peer(1), Peer(2), HoldsTest(s, 1));
    CountTriple(Peer(1), Peer(2), Peer(3), HoldsTest(s, 1));
    assert s.logs[0] == JOINTS[0];
    JointApplies();
  }

  lemma Advanced()
    ensures Happens(8)
  {
    hide UpdateCommitIndex, LargestCommittable, Leads;
    Represented(1, false, [2], [1]);
    LeadsIs(1, false, [2], [1]);
    LeadsIs(1, true, [2, 2], [0, 0]);
    JointCommits();
    assert JOINTS[..0] + JOINTS[..1][0..1] == JOINTS[..1];
  }

  lemma MomentsFollow(k: nat)
    requires k < 10
    ensures Happens(k)
  {
    hide Happens;
    Stood(); Elected(); FirstPlanned(); SecondPlanned(); FirstProposed(); FirstSent(); Answered(); CommittedElsewhere(); Advanced();
    SecondProposed();
  }

  lemma StartsFresh()
    ensures Fresh(At(0))
  {
    assert [PeerInfo(1, "host", 1)] + PAIR[1..] == PAIR;
    assert JOINTS[..0] == [];
    var id: Id := 1;
    assert Proper([PeerInfo(id, ("host", 1).0, ("host", 1).1)] + PAIR[1..]);
    assert At(0).s == Boot(id, ("host", 1), PAIR[1..], 5, map[], Saved(0, NOBODY, 0, 0, []));
  }

  function Story(): seq<World> {
    seq(11, k requires 0 <= k => At(k))
  }

  lemma StoryIsLife()
    ensures Life(Story())
  {
    forall i | 0 <= i < |Story()| - 1
      ensures Follows(Story()[i], Story()[i + 1])
    {
      hide NodeRun.After, Allowed, At, EventAt;
      MomentsFollow(i);
    }
    hide At, Fresh, Follows;
    StartsFresh();
  }

  /** Two calls of addNode on a cluster of two. Both find no change under way; the first is applied, and then the second
      appends a joint entry of its own. The configurations they lead to have majorities without a common node. */
  lemma ProposalsOverlap() returns (run: seq<World>)
    ensures |run| == 11 && Life(run)
    ensures UnderWay(run[9].since) == Some(JOINTS[0])
    ensures run[10] == NodeRun.After(run[9], Propose((PAIR, WITH_FOUR))) && run[10].full == JOINTS
    ensures Majority({2, 3}, Ids(JOINTS[0].newConfig)) && Majority({1, 4}, Ids(JOINTS[1].newConfig))
  {
    hide Life, Ids, NodeRun.After, Allowed;
    run := Story();
    StoryIsLife();
    SecondProposed();
    assert JOINTS[..2] == JOINTS;
    assert JOINTS[..1][0] == JOINTS[0];
    Majorities();
  }

  lemma Majorities()
    ensures Majority({2, 3}, Ids(WITH_THREE)) && Majority({1, 4}, Ids(WITH_FOUR))
  {
    var a: set<Id>, b: set<Id>, g: set<Id>, h: set<Id> := {1, 2, 3}, {1, 2, 4}, {2, 3}, {1, 4};
    assert forall p | p in WITH_THREE :: p == Peer(1) || p == Peer(2) || p == Peer(3);
    assert forall p | p in WITH_FOUR :: p == Peer(1) || p == Peer(2) || p == Peer(4);
    assert WITH_THREE[0] in WITH_THREE && WITH_THREE[1] in WITH_THREE && WITH_THREE[2] in WITH_THREE;
    assert WITH_FOUR[0] in WITH_FOUR && WITH_FOUR[1] in WITH_FOUR && WITH_FOUR[2] in WITH_FOUR;
    assert Ids(WITH_THREE) == a && Ids(WITH_FOUR) == b;
    assert g * a == g && h * b == h;
  }
}
