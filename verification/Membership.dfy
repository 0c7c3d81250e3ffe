/**
 Election safety over whole runs of the voting system, with the nodes anywhere between two configurations whose quorums
 always meet, as they do one addNode or removeNode apart; and what the vote-clearing step-down does and does not break.
 */
module Membership {
  import opened Types
  import opened Quorum
  import opened Election

  ghost predicate Next(c: Cluster, c': Cluster) {
    exists step :: NextStep(c, c', step)
  }

  ghost predicate Run(run: seq<Cluster>) {
    && |run| > 0
    && Init(run[0])
    && forall i | 0 <= i < |run| - 1 :: Next(run[i], run[i + 1])
  }

  /** Configurations that addNode and removeNode can propose. */
  ghost predicate OneChange(oldCfg: set<Id>, newCfg: set<Id>) {
    || (exists x :: x !in oldCfg && newCfg == oldCfg + {x})
    || (exists x :: x in oldCfg && newCfg == oldCfg - {x})
  }

  lemma OneChangeMeets(oldCfg: set<Id>, newCfg: set<Id>)
    requires OneChange(oldCfg, newCfg)
    ensures AlwaysMeet(oldCfg, newCfg)
  {
    if x :| x !in oldCfg && newCfg == oldCfg + {x} {
      assert oldCfg - newCfg == {} && newCfg - oldCfg == {x};
    } else {
      var y :| y in oldCfg && newCfg == oldCfg - {y};
      assert newCfg - oldCfg == {} && oldCfg - newCfg == {y};
    }
    OneApartMeets(oldCfg, newCfg);
  }

  /** All three kinds of election quorum meet each other, whatever the candidates' configurations. */
  lemma AnyTwoQuorumsMeet(c: Cluster, m1: Mode, g1: set<Id>, m2: Mode, g2: set<Id>)
    requires OneChange(c.oldCfg, c.newCfg)
    requires HasElectionMajority(c, m1, g1) && HasElectionMajority(c, m2, g2)
    ensures exists x :: x in g1 && x in g2
  {
    OneChangeMeets(c.oldCfg, c.newCfg);
    var x := ElectionQuorumsMeet(c, m1, g1, m2, g2);
  }

  ghost predicate WasLed(run: seq<Cluster>, i: nat, t: nat) {
    exists j, n :: 0 <= j <= i && j < |run| && n in run[j].nodes && run[j].nodes[n].role == Leader && run[j].nodes[n].term == t
  }

  ghost predicate Recorded(run: seq<Cluster>, ws: seq<Wins>) {
    && |ws| == |run|
    && (forall i | 0 <= i < |run| :: Inv(run[i], ws[i]))
    && (forall i, j, t | 0 <= i <= j < |run| && t in ws[i] :: t in ws[j] && ws[j][t] == ws[i][t])
    && (forall i, t | 0 <= i < |run| && t in ws[i] :: WasLed(run, i, t))
  }

  lemma {:induction false} RunHasWins(run: seq<Cluster>) returns (ws: seq<Wins>)
    requires Run(run)
    ensures Recorded(run, ws)
    decreases |run|
  {
    hide Inv, NextStep, Record;
    if |run| == 1 {
      InitInv(run[0]);
      ws := [map[]];
    } else {
      var last := |run| - 2;
      var init := run[..last + 1];
      assert Run(init);
      var earlier := RunHasWins(init);
      assert Inv(run[last], earlier[last]) && Next(run[last], run[last + 1]);
      var step :| NextStep(run[last], run[last + 1], step);
      StepKeepsInv(run[last], run[last + 1], earlier[last], step);
      var w := Record(run[last], earlier[last], step);
      ws := earlier + [w];
      forall i, t | 0 <= i < |run| && t in ws[i]
        ensures WasLed(run, i, t)
      {
        if t in earlier[if i <= last then i else last] {
          WasLedBefore(init, run, if i <= last then i else last, i, t);
        } else {
          WinLeads(run[last], run[last + 1], earlier[last], step, t);
        }
      }
    }
  }

  lemma WasLedBefore(init: seq<Cluster>, run: seq<Cluster>, i: nat, i': nat, t: nat)
    requires init <= run && i < |init| && i <= i' && WasLed(init, i, t)
    ensures WasLed(run, i', t)
  {
    var j, n :| 0 <= j <= i && j < |init| && n in init[j].nodes && init[j].nodes[n].role == Leader && init[j].nodes[n].term == t;
    assert run[j] == init[j];
  }

  lemma WinLeads(c: Cluster, c': Cluster, w: Wins, step: Step, t: nat)
    requires NextStep(c, c', step) && t in Record(c, w, step) && t !in w
    ensures exists n :: n in c'.nodes && c'.nodes[n].role == Leader && c'.nodes[n].term == t
  {
    assert c'.nodes[step.n].role == Leader;
  }

  lemma InitInv(c: Cluster)
    requires Init(c)
    ensures Inv(c, map[])
  {
  }

  /** No term ever has two elected leaders, with the nodes in any mix of the old, joint and new configuration. */
  lemma ElectionSafety(run: seq<Cluster>, i: nat, j: nat, a: Id, b: Id)
    requires Run(run) && i < |run| && j < |run| && a in run[i].nodes && b in run[j].nodes
    requires run[i].nodes[a].role == Leader == run[j].nodes[b].role
    requires run[i].nodes[a].term == run[j].nodes[b].term
    ensures a == b
  {
    var ws := RunHasWins(run);
    assert Inv(run[i], ws[i]) && Inv(run[j], ws[j]);
    var t := run[i].nodes[a].term;
    assert t in ws[i] && t in ws[j];
    if i <= j {
      assert ws[j][t] == ws[i][t];
    } else {
      assert ws[i][t] == ws[j][t];
    }
  }

  // ---- one vote per term: not what the code guarantees ----

  /** A run together with the steps it takes. */
  ghost predicate Trace(run: seq<Cluster>, steps: seq<Step>) {
    && |steps| + 1 == |run|
    && Init(run[0])
    && forall i, j | 0 <= i < j < |run| && j == i + 1 :: NextStep(run[i], run[j], steps[i])
  }

  lemma TraceIsRun(run: seq<Cluster>, steps: seq<Step>)
    requires Trace(run, steps)
    ensures Run(run)
  {
    hide NextStep, Init;
    forall i | 0 <= i < |run| - 1
      ensures Next(run[i], run[i + 1])
    {
      assert NextStep(run[i], run[i + 1], steps[i]);
    }
  }

  /** A request of the node's own term reaches it while it stands or leads. */
  ghost predicate Reset(c: Cluster, step: Step, q: Id)
    requires q in c.nodes
  {
    step.HandleBeat? && step.n == q && step.beat.term == c.nodes[q].term && c.nodes[q].role != Follower
  }

  /** Within a term this, and nothing else, takes a vote back. */
  lemma VoteChangesIff(c: Cluster, c': Cluster, step: Step, q: Id)
    requires NextStep(c, c', step) && q in c.nodes && q in c'.nodes
    requires c'.nodes[q].term == c.nodes[q].term && c.nodes[q].votedFor != NOBODY
    ensures c'.nodes[q].votedFor != c.nodes[q].votedFor <==> Reset(c, step, q)
  {
  }

  lemma {:induction false} TermsRise(run: seq<Cluster>, steps: seq<Step>, i: nat, j: nat, q: Id)
    requires Trace(run, steps) && i <= j < |run| && q in run[i].nodes
    ensures q in run[j].nodes && run[i].nodes[q].term <= run[j].nodes[q].term
    decreases j - i
  {
    hide NextStep, Init;
    if i < j {
      TermsRise(run, steps, i, j - 1, q);
      assert NextStep(run[j - 1], run[j], steps[j - 1]);
      StepGrows(run[j - 1], run[j], steps[j - 1]);
    }
  }

  /** A node stays with the vote it has cast for as long as it is in the term if and only if no such request comes. */
  lemma {:induction false} VoteIsKeptIff(run: seq<Cluster>, steps: seq<Step>, i: nat, j: nat, q: Id)
    requires Trace(run, steps) && i <= j < |run| && q in run[i].nodes && q in run[j].nodes
    requires run[i].nodes[q].term == run[j].nodes[q].term && run[i].nodes[q].votedFor != NOBODY
    ensures forall k | i <= k <= j :: q in run[k].nodes
    ensures (forall k | i <= k <= j :: run[k].nodes[q].votedFor == run[i].nodes[q].votedFor)
            <==> (forall k | i <= k < j :: !Reset(run[k], steps[k], q))
    decreases j - i
  {
    hide NextStep, Init, Reset;
    if i < j {
      TermsRise(run, steps, i, j - 1, q);
      TermsRise(run, steps, j - 1, j, q);
      VoteIsKeptIff(run, steps, i, j - 1, q);
      assert NextStep(run[j - 1], run[j], steps[j - 1]);
      if run[j - 1].nodes[q].votedFor == run[i].nodes[q].votedFor {
        VoteChangesIff(run[j - 1], run[j], steps[j - 1], q);
      }
    }
  }

  /** All votes of q in term t are for one candidate, and q is with it for as long as it is in t. */
  ghost predicate Firm(c: Cluster, q: Id, t: nat) {
    && (forall x: Id, y: Id | Vote(q, t, x) in c.votes && Vote(q, t, y) in c.votes :: x == y)
    && (q in c.nodes && c.nodes[q].term == t ==> forall x: Id | Vote(q, t, x) in c.votes :: c.nodes[q].votedFor == x)
  }

  lemma StepKeepsFirm(c: Cluster, c': Cluster, w: Wins, step: Step, q: Id, t: nat)
    requires Inv(c, w) && NextStep(c, c', step) && Firm(c, q, t)
    requires q in c.nodes && c.nodes[q].term == t ==> !Reset(c, step, q)
    ensures Firm(c', q, t)
  {
    assert VotesBounded(c);
    hide VotesFirm, VotesUnique, WinsSound, RolesSound, BeatsSound;
  }

  /** In step k a request of term t reaches q while it stands or leads in t. */
  ghost predicate ResetAt(run: seq<Cluster>, steps: seq<Step>, k: nat, q: Id, t: nat) {
    && k < |steps| && k < |run| && q in run[k].nodes
    && run[k].nodes[q].term == t && Reset(run[k], steps[k], q)
  }

  lemma {:induction false} FirmWithoutReset(run: seq<Cluster>, steps: seq<Step>, i: nat, q: Id, t: nat)
    requires Trace(run, steps) && i < |run|
    requires forall k: nat | k < i :: !ResetAt(run, steps, k, q, t)
    ensures Firm(run[i], q, t)
  {
    hide Inv, NextStep, Reset;
    if i > 0 {
      FirmWithoutReset(run, steps, i - 1, q, t);
      TraceIsRun(run, steps);
      var ws := RunHasWins(run);
      assert Inv(run[i - 1], ws[i - 1]) && NextStep(run[i - 1], run[i], steps[i - 1]);
      assert !ResetAt(run, steps, i - 1, q, t);
      StepKeepsFirm(run[i - 1], run[i], ws[i - 1], steps[i - 1], q, t);
    }
  }

  /** A node gives its vote to two candidates in one term only where such a request came between, from a node that was
      elected in the term. */
  lemma RevoteNeedsReset(run: seq<Cluster>, steps: seq<Step>, i: nat, q: Id, t: nat, x: Id, y: Id) returns (k: nat)
    requires Trace(run, steps) && i < |run|
    requires Vote(q, t, x) in run[i].votes && Vote(q, t, y) in run[i].votes && x != y
    ensures k < i && ResetAt(run, steps, k, q, t) && WasLed(run, k, t)
  {
    hide Inv, NextStep, Reset, WasLed;
    if forall k: nat | k < i :: !ResetAt(run, steps, k, q, t) {
      FirmWithoutReset(run, steps, i, q, t);
      assert false;
    }
    k :| k < i && ResetAt(run, steps, k, q, t);
    TraceIsRun(run, steps);
    var ws := RunHasWins(run);
    assert Inv(run[k], ws[k]) && NextStep(run[k], run[k + 1], steps[k]);
    ResetIsFromLeader(run[k], run[k + 1], ws[k], steps[k], q);
  }

  lemma ResetIsFromLeader(c: Cluster, c': Cluster, w: Wins, step: Step, q: Id)
    requires Inv(c, w) && NextStep(c, c', step) && q in c.nodes && Reset(c, step, q)
    ensures c.nodes[q].term in w
  {
  }

  function Fresh(): Voter {
    Voter(0, NOBODY, Follower, {}, OldStable)
  }

  function Standing(id: Id): Voter {
    Voter(1, id, Candidate, {id}, OldStable)
  }

  /** Three nodes. 1 and 2 stand in term 1, 3 votes for 1, 1 wins, its heartbeat reaches 2, and only
      then does 1's vote request. */
  function Moment(k: nat): Cluster {
    var one := if k == 0 then Fresh() else if k < 4 then Standing(1) else Voter(1, 1, Leader, {1, 3}, OldStable);
    var two := if k < 2 then Fresh() else if k < 6 then Standing(2)
               else Voter(1, if k == 6 then NOBODY else 1, Follower, {2}, OldStable);
    var three := if k < 3 then Fresh() else Voter(1, 1, Follower, {}, OldStable);
    Cluster({1, 2, 3}, {1, 2, 3}, map[1 := one, 2 := two, 3 := three],
            (if k < 1 then {} else {Vote(1, 1, 1)}) + (if k < 2 then {} else {Vote(2, 1, 2)})
            + (if k < 3 then {} else {Vote(3, 1, 1)}) + (if k < 7 then {} else {Vote(2, 1, 1)}),
            if k < 5 then {} else {Beat(1, 1, 2)})
  }

  function Move(k: nat): Step {
    if k == 0 then StartElection(1)
    else if k == 1 then StartElection(2)
    else if k == 2 then GrantVote(3, 1, 1)
    else if k == 3 then CountVote(1, 3)
    else if k == 4 then SendBeat(1, 2)
    else if k == 5 then HandleBeat(2, Beat(1, 1, 2))
    else GrantVote(2, 1, 1)
  }

  lemma ThreeIsMajority()
    ensures Majority({1, 3}, {1, 2, 3})
  {
    var g: set<Id>, c: set<Id> := {1, 3}, {1, 2, 3};
    assert g * c == g;
    assert |g| == 2 && |c| == 3;
  }

  lemma TwoStandOneIsVotedFor()
    ensures NextStep(Moment(0), Moment(1), Move(0))
    ensures NextStep(Moment(1), Moment(2), Move(1))
    ensures NextStep(Moment(2), Moment(3), Move(2))
  {
    assert Moment(1).nodes == Moment(0).nodes[1 := Standing(1)];
    assert Moment(2).nodes == Moment(1).nodes[2 := Standing(2)];
    assert Moment(3).nodes == Moment(2).nodes[3 := Voter(1, 1, Follower, {}, OldStable)];
  }

  lemma OneWins()
    ensures NextStep(Moment(3), Moment(4), Move(3))
  {
    hide Majority;
    ThreeIsMajority();
    var g: set<Id> := {1, 3};
    assert {1} + {3} == g;
    assert HasElectionMajority(Moment(3), OldStable, g);
    assert Moment(4).nodes == Moment(3).nodes[1 := Voter(1, 1, Leader, {1, 3}, OldStable)];
  }

  lemma TwoIsResetAndVotesAgain()
    ensures NextStep(Moment(4), Moment(5), Move(4))
    ensures NextStep(Moment(5), Moment(6), Move(5))
    ensures NextStep(Moment(6), Moment(7), Move(6))
  {
    assert Moment(6).nodes == Moment(5).nodes[2 := Voter(1, NOBODY, Follower, {2}, OldStable)];
    assert Moment(7).nodes == Moment(6).nodes[2 := Voter(1, 1, Follower, {2}, OldStable)];
  }

  lemma MomentsFollow(k: nat)
    requires k < 7
    ensures NextStep(Moment(k), Moment(k + 1), Move(k))
  {
    hide NextStep, Moment, Move;
    TwoStandOneIsVotedFor();
    OneWins();
    TwoIsResetAndVotesAgain();
    assert k == 0 || k == 1 || k == 2 || k == 3 || k == 4 || k == 5 || k == 6;
  }

  /** "Each server votes for at most one candidate in a given term" (section 5.2 of the Raft paper)
      fails here: node 2 votes for itself and, once reset, for node 1, both in term 1. */
  lemma VotesTwiceInOneTerm() returns (run: seq<Cluster>)
    ensures Run(run)
    ensures Vote(2, 1, 2) in run[|run| - 1].votes && Vote(2, 1, 1) in run[|run| - 1].votes
  {
    run := seq(8, k requires 0 <= k => Moment(k));
    forall i | 0 <= i < |run| - 1
      ensures Next(run[i], run[i + 1])
    {
      hide NextStep, Moment, Move;
      MomentsFollow(i);
    }
    assert run[0] == Moment(0) && run[7] == Moment(7);
    SelfMeets(run[0].oldCfg);
  }
}
