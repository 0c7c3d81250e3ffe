/**
 The voting half of the protocol as a transition system: terms, votes and roles, with nothing
 said about logs. Each node is in one of three configurations (the old one, old and new jointly,
 or the new one) and may move between them at any time, so what is proved here covers a
 cluster in the middle of one membership change as well as a cluster whose configuration
 is fixed (take both configurations equal).
 */
module Election {
  import opened Types
  import opened Quorum

  datatype Mode = OldStable | Joint | NewStable

  /** `granted` is the vote list of the election thread; it means something only for a candidate. */
  datatype Voter = Voter(term: nat, votedFor: int, role: Role, granted: set<Id>, mode: Mode)

  datatype Vote = Vote(voter: Id, term: nat, cand: Id)

  /** A request that only a leader sends: AppendEntries or InstallSnapshot. */
  datatype Beat = Beat(leader: Id, term: nat, dst: Id)

  /** `votes` and `beats` only grow: a message may be lost, delayed or delivered again. */
  datatype Cluster = Cluster(
    oldCfg: set<Id>, newCfg: set<Id>, nodes: map<Id, Voter>, votes: set<Vote>, beats: set<Beat>)

  ghost predicate HasElectionMajority(c: Cluster, mode: Mode, g: set<Id>) {
    match mode
    case OldStable => Majority(g, c.oldCfg)
    case NewStable => Majority(g, c.newCfg)
    case Joint => Majority(g, c.oldCfg) && Majority(g, c.newCfg)
  }

  /** The members that have a say in a mode. */
  ghost function Active(c: Cluster, mode: Mode): set<Id> {
    match mode
    case OldStable => c.oldCfg
    case NewStable => c.newCfg
    case Joint => c.oldCfg + c.newCfg
  }

  /** A majority by the rule of some mode. */
  ghost predicate IsQuorum(c: Cluster, g: set<Id>) {
    exists mode :: HasElectionMajority(c, mode, g)
  }

  lemma QuorumGrows(c: Cluster, g: set<Id>, c': Cluster, g': set<Id>)
    requires IsQuorum(c, g) && g <= g' && c'.oldCfg == c.oldCfg && c'.newCfg == c.newCfg
    ensures IsQuorum(c', g')
  {
    hide Majority;
    var mode :| HasElectionMajority(c, mode, g);
    if mode != NewStable {
      MajorityGrows(g, g', c.oldCfg);
    }
    if mode != OldStable {
      MajorityGrows(g, g', c.newCfg);
    }
    assert HasElectionMajority(c', mode, g');
  }

  lemma QuorumsMeet(c: Cluster, g: set<Id>, h: set<Id>) returns (x: Id)
    requires AlwaysMeet(c.oldCfg, c.newCfg) && IsQuorum(c, g) && IsQuorum(c, h)
    ensures x in g && x in h
  {
    hide AlwaysMeet, HasElectionMajority;
    var m1 :| HasElectionMajority(c, m1, g);
    var m2 :| HasElectionMajority(c, m2, h);
    x := ElectionQuorumsMeet(c, m1, g, m2, h);
  }

  // ---- what one node does ----

  function BecomeFollower(v: Voter, newTerm: nat): Voter {
    v.(role := Follower, term := newTerm, votedFor := NOBODY)
  }

  function BecomeCandidate(id: Id, v: Voter): Voter {
    v.(role := Candidate, term := v.term + 1, votedFor := id, granted := {id})
  }

  /** The step-down rule shared by the two leader-to-follower handlers: it forgets the vote
      even when the term stays the same. */
  function Heed(v: Voter, term: nat): Voter {
    if term > v.term || v.role != Follower then BecomeFollower(v, term) else v
  }

  predicate CanVote(v: Voter, cand: Id) {
    v.votedFor == NOBODY || v.votedFor == cand
  }

  // ---- steps ----

  datatype Step =
    | StartElection(n: Id)
    | GrantVote(n: Id, cand: Id, term: nat)
    | LearnTerm(n: Id, term: nat)
    | CountVote(n: Id, from: Id)
    | SendBeat(n: Id, dst: Id)
    | HandleBeat(n: Id, beat: Beat)
    | ChangeMode(n: Id, mode: Mode, leave: bool)
    | Restart(n: Id, mode: Mode)
    | Idle

  ghost predicate SetNode(c: Cluster, c': Cluster, n: Id, v: Voter) {
    c' == c.(nodes := c.nodes[n := v])
  }

  ghost predicate NextStep(c: Cluster, c': Cluster, step: Step) {
    match step
    case StartElection(n) =>
      && n in c.nodes && c.nodes[n].role != Leader
      && var v := BecomeCandidate(n, c.nodes[n]);
      c' == c.(nodes := c.nodes[n := v], votes := c.votes + {Vote(n, v.term, n)})
    case GrantVote(n, cand, term) =>
      && n in c.nodes && cand in c.nodes && term >= c.nodes[n].term
      && var v := if term > c.nodes[n].term then BecomeFollower(c.nodes[n], term) else c.nodes[n];
      && CanVote(v, cand)
      && c' == c.(nodes := c.nodes[n := v.(votedFor := cand)], votes := c.votes + {Vote(n, term, cand)})
    case LearnTerm(n, term) =>
      && n in c.nodes && term > c.nodes[n].term
      && SetNode(c, c', n, BecomeFollower(c.nodes[n], term))
    case CountVote(n, from) =>
      && n in c.nodes && c.nodes[n].role == Candidate
      && Vote(from, c.nodes[n].term, n) in c.votes
      && var g := c.nodes[n].granted + {from};
      SetNode(c, c', n, c.nodes[n].(granted := g,
        role := if HasElectionMajority(c, c.nodes[n].mode, g) then Leader else Candidate))
    case SendBeat(n, dst) =>
      && n in c.nodes && c.nodes[n].role == Leader && dst != n
      && c' == c.(beats := c.beats + {Beat(n, c.nodes[n].term, dst)})
    case HandleBeat(n, beat) =>
      && n in c.nodes && beat in c.beats && beat.dst == n && beat.term >= c.nodes[n].term
      && SetNode(c, c', n, Heed(c.nodes[n], beat.term))
    case ChangeMode(n, mode, leave) =>
      && n in c.nodes
      && SetNode(c, c', n, c.nodes[n].(mode := mode,
        role := if leave then Follower else c.nodes[n].role))
    case Restart(n, mode) =>
      && n in c.nodes
      && SetNode(c, c', n, c.nodes[n].(role := Follower, granted := {}, mode := mode))
    case Idle => c' == c
  }

  /** A fresh cluster, whatever its two configurations are. */
  ghost predicate Fresh(c: Cluster) {
    && c.votes == {} && c.beats == {}
    && forall n | n in c.nodes ::
         c.nodes[n].term == 0 && c.nodes[n].votedFor == NOBODY && c.nodes[n].role == Follower
  }

  /** The quorums of the two configurations always meet, as they do one addNode or removeNode apart. */
  ghost predicate Init(c: Cluster) {
    AlwaysMeet(c.oldCfg, c.newCfg) && Fresh(c)
  }

  // ---- the invariant, relative to a record of who was elected by whom ----

  datatype Win = Win(leader: Id, voters: set<Id>, mode: Mode)

  type Wins = map<nat, Win>

  ghost predicate VotesBounded(c: Cluster) {
    forall q: Id, t: nat, x: Id | Vote(q, t, x) in c.votes :: q in c.nodes && x in c.nodes && t <= c.nodes[q].term
  }

  /** Until a term has a leader, a node in it stays with its vote. */
  ghost predicate VotesFirm(c: Cluster, w: Wins) {
    forall q: Id, t: nat, x: Id | Vote(q, t, x) in c.votes && t !in w ::
      q in c.nodes && c.nodes[q].term == t ==> c.nodes[q].votedFor == x
  }

  ghost predicate VotesUnique(c: Cluster, w: Wins) {
    forall q: Id, t: nat, x: Id, y: Id | Vote(q, t, x) in c.votes && Vote(q, t, y) in c.votes && t !in w :: x == y
  }

  /** A voter of an elected leader stays with that leader for as long as it is in the term. */
  ghost predicate Loyal(c: Cluster, t: nat, leader: Id, q: Id) {
    && q in c.nodes
    && Vote(q, t, leader) in c.votes
    && (forall x: Id | Vote(q, t, x) in c.votes :: x == leader)
    && c.nodes[q].term >= t
    && (c.nodes[q].term == t ==>
          && c.nodes[q].votedFor == leader
          && (if q == leader then c.nodes[q].role != Candidate else c.nodes[q].role == Follower))
  }

  ghost predicate WinsSound(c: Cluster, w: Wins) {
    forall t | t in w :: WinSound(c, t, w[t])
  }

  ghost predicate WinSound(c: Cluster, t: nat, win: Win) {
    && t > 0
    && win.leader in win.voters
    && HasElectionMajority(c, win.mode, win.voters)
    && forall q | q in win.voters :: Loyal(c, t, win.leader, q)
  }

  ghost predicate RolesSound(c: Cluster, w: Wins) {
    forall n | n in c.nodes ::
      && (c.nodes[n].role == Leader ==> c.nodes[n].term in w && w[c.nodes[n].term].leader == n)
      && (c.nodes[n].role == Candidate ==>
            && c.nodes[n].term > 0
            && c.nodes[n].votedFor == n && n in c.nodes[n].granted
            && forall q | q in c.nodes[n].granted :: Vote(q, c.nodes[n].term, n) in c.votes)
  }

  ghost predicate BeatsSound(c: Cluster, w: Wins) {
    forall b | b in c.beats :: b.term in w && w[b.term].leader == b.leader && b.dst != b.leader
  }

  ghost predicate Inv(c: Cluster, w: Wins) {
    && AlwaysMeet(c.oldCfg, c.newCfg)
    && VotesBounded(c)
    && VotesFirm(c, w)
    && VotesUnique(c, w)
    && WinsSound(c, w)
    && RolesSound(c, w)
    && BeatsSound(c, w)
  }

  lemma ElectionQuorumsMeet(c: Cluster, m1: Mode, g1: set<Id>, m2: Mode, g2: set<Id>) returns (x: Id)
    requires AlwaysMeet(c.oldCfg, c.newCfg)
    requires HasElectionMajority(c, m1, g1) && HasElectionMajority(c, m2, g2)
    ensures x in g1 && x in g2
  {
    var c1 := if m1 == NewStable then c.newCfg else c.oldCfg;
    var c2 := if m2 == NewStable then c.newCfg else c.oldCfg;
    if c1 == c2 {
      SelfMeets(c1);
    }
    assert g1 * g2 != {};
    x := Pick(g1 * g2);
  }

  /** A candidate whose votes reach a majority while its term has a leader would be that leader. */
  lemma OnlyTheLeaderCanWin(c: Cluster, w: Wins, n: Id, from: Id)
    requires Inv(c, w)
    requires n in c.nodes && c.nodes[n].role == Candidate
    requires Vote(from, c.nodes[n].term, n) in c.votes
    requires HasElectionMajority(c, c.nodes[n].mode, c.nodes[n].granted + {from})
    ensures c.nodes[n].term in w ==> w[c.nodes[n].term].leader == n
  {
    var t := c.nodes[n].term;
    var g := c.nodes[n].granted + {from};
    if t in w {
      var x := ElectionQuorumsMeet(c, w[t].mode, w[t].voters, c.nodes[n].mode, g);
      assert Loyal(c, t, w[t].leader, x);
      assert Vote(x, t, n) in c.votes;
    }
  }

  /** ... but the leader of a term is no longer a candidate in it, so the term had no leader. */
  lemma NoRival(c: Cluster, w: Wins, n: Id, from: Id)
    requires Inv(c, w)
    requires n in c.nodes && c.nodes[n].role == Candidate
    requires Vote(from, c.nodes[n].term, n) in c.votes
    requires HasElectionMajority(c, c.nodes[n].mode, c.nodes[n].granted + {from})
    ensures c.nodes[n].term !in w
  {
    OnlyTheLeaderCanWin(c, w, n, from);
  }

  ghost function Record(c: Cluster, w: Wins, step: Step): Wins {
    match step
    case CountVote(n, from) =>
      if n in c.nodes && HasElectionMajority(c, c.nodes[n].mode, c.nodes[n].granted + {from})
      then w[c.nodes[n].term := Win(n, c.nodes[n].granted + {from}, c.nodes[n].mode)]
      else w
    case _ => w
  }

  lemma StepKeepsVotes(c: Cluster, c': Cluster, w: Wins, step: Step)
    requires Inv(c, w) && NextStep(c, c', step)
    ensures VotesBounded(c')
    ensures VotesFirm(c', Record(c, w, step))
  {
  }

  lemma StepKeepsUnique(c: Cluster, c': Cluster, w: Wins, step: Step)
    requires Inv(c, w) && NextStep(c, c', step)
    ensures VotesUnique(c', Record(c, w, step))
  {
  }

  lemma StepKeepsRoles(c: Cluster, c': Cluster, w: Wins, step: Step)
    requires Inv(c, w) && NextStep(c, c', step)
    ensures RolesSound(c', Record(c, w, step))
    ensures BeatsSound(c', Record(c, w, step))
  {
    if step.CountVote? && HasElectionMajority(c, c.nodes[step.n].mode, c.nodes[step.n].granted + {step.from}) {
      NoRival(c, w, step.n, step.from);
    }
  }

  lemma StepKeepsLoyal(c: Cluster, c': Cluster, w: Wins, step: Step, t: nat, q: Id)
    requires Inv(c, w) && NextStep(c, c', step)
    requires t in w && q in w[t].voters
    ensures Loyal(c', t, w[t].leader, q)
  {
    assert Loyal(c, t, w[t].leader, q);
  }

  lemma WinIsLoyal(c: Cluster, c': Cluster, w: Wins, n: Id, from: Id, q: Id)
    requires Inv(c, w) && NextStep(c, c', CountVote(n, from))
    requires HasElectionMajority(c, c.nodes[n].mode, c.nodes[n].granted + {from})
    requires q in c.nodes[n].granted + {from}
    ensures Loyal(c', c.nodes[n].term, n, q)
  {
    NoRival(c, w, n, from);
    assert Vote(q, c.nodes[n].term, n) in c.votes;
  }

  lemma StepKeepsWin(c: Cluster, c': Cluster, w: Wins, step: Step, t: nat)
    requires Inv(c, w) && NextStep(c, c', step)
    requires t in Record(c, w, step)
    ensures WinSound(c', t, Record(c, w, step)[t])
  {
    var win := Record(c, w, step)[t];
    if t in w {
      if Record(c, w, step) != w {
        NoRival(c, w, step.n, step.from);
      }
      assert WinSound(c, t, win);
      forall q | q in win.voters
        ensures Loyal(c', t, win.leader, q)
      {
        StepKeepsLoyal(c, c', w, step, t, q);
      }
    } else {
      forall q | q in win.voters
        ensures Loyal(c', t, win.leader, q)
      {
        WinIsLoyal(c, c', w, step.n, step.from, q);
      }
    }
  }

  /** Every step keeps the invariant, and no recorded win is ever replaced. */
  lemma StepKeepsInv(c: Cluster, c': Cluster, w: Wins, step: Step)
    requires Inv(c, w) && NextStep(c, c', step)
    ensures Inv(c', Record(c, w, step))
    ensures forall t | t in w :: t in Record(c, w, step) && Record(c, w, step)[t] == w[t]
  {
    StepKeepsVotes(c, c', w, step);
    StepKeepsUnique(c, c', w, step);
    StepKeepsRoles(c, c', w, step);
    forall t | t in Record(c, w, step)
      ensures WinSound(c', t, Record(c, w, step)[t])
    {
      StepKeepsWin(c, c', w, step, t);
    }
    if Record(c, w, step) != w {
      NoRival(c, w, step.n, step.from);
    }
  }

  /** Terms, votes and messages are never taken back. */
  lemma StepGrows(c: Cluster, c': Cluster, step: Step)
    requires NextStep(c, c', step)
    ensures c'.nodes.Keys == c.nodes.Keys && c'.oldCfg == c.oldCfg && c'.newCfg == c.newCfg
    ensures forall q | q in c.nodes :: c.nodes[q].term <= c'.nodes[q].term
    ensures c.votes <= c'.votes && c.beats <= c'.beats
  {
  }
}
