/**
 How far apart the configurations of the nodes may be: election safety of the voting system holds for exactly those
 pairs of configurations whose majorities always meet.
 */
module TwoWinners {
  import opened Types
  import opened Quorum
  import opened MemberRefinement
  import E = Election
  import Membership

  /** A run from a fresh cluster, whatever its two configurations are. */
  ghost predicate FreeRun(run: seq<E.Cluster>) {
    && |run| > 0 && E.Fresh(run[0])
    && forall i | 0 <= i < |run| - 1 :: Membership.Next(run[i], run[i + 1])
  }

  ghost predicate Leads(c: E.Cluster, n: Id, term: nat) {
    n in c.nodes && c.nodes[n].role == Leader && c.nodes[n].term == term
  }

  ghost predicate OneLeader(run: seq<E.Cluster>) {
    forall i, j, a, b, t | 0 <= i < |run| && 0 <= j < |run| && Leads(run[i], a, t) && Leads(run[j], b, t) :: a == b
  }

  /** No run of nodes between the two configurations ever has two leaders in one term. */
  ghost predicate AlwaysSafe(oldCfg: set<Id>, newCfg: set<Id>) {
    forall run: seq<E.Cluster> | FreeRun(run) && run[0].oldCfg == oldCfg && run[0].newCfg == newCfg :: OneLeader(run)
  }

  // ---- winning with the smallest majority ----

  ghost predicate Untouched(v: E.Voter) {
    v.term == 0 && v.votedFor == NOBODY && v.role == Follower
  }

  ghost function ConfigOf(c: E.Cluster, mode: E.Mode): set<Id> {
    if mode == E.NewStable then c.newCfg else c.oldCfg
  }

  /** Nothing has changed but what the nodes of g are. */
  ghost predicate OnlyGroup(c: E.Cluster, c': E.Cluster, g: set<Id>) {
    && c'.oldCfg == c.oldCfg && c'.newCfg == c.newCfg && c'.nodes.Keys == c.nodes.Keys
    && forall q | q in c.nodes && q !in g :: c'.nodes[q] == c.nodes[q]
  }

  lemma ExactMajority(c: E.Cluster, mode: E.Mode, h: set<Id>)
    requires mode != E.Joint && h <= ConfigOf(c, mode)
    ensures E.HasElectionMajority(c, mode, h) <==> |h| > |ConfigOf(c, mode)| / 2
  {
    assert h * ConfigOf(c, mode) == h;
  }

  ghost predicate Standing(c: E.Cluster, n: Id, h: set<Id>) {
    n in c.nodes && var v := c.nodes[n]; v.role == Candidate && v.term == 1 && v.granted == h && v.mode != E.Joint
  }

  /** One more vote, asked for, granted and counted. */
  lemma GathersOne(c: E.Cluster, n: Id, h: set<Id>, q: Id) returns (c': E.Cluster)
    requires Standing(c, n, h) && q in c.nodes && q != n && Untouched(c.nodes[q])
    ensures Reaches(c, c') && OnlyGroup(c, c', {n, q})
    ensures if E.HasElectionMajority(c, c.nodes[n].mode, h + {q}) then Leads(c', n, 1)
            else Standing(c', n, h + {q}) && c'.nodes[n].mode == c.nodes[n].mode
  {
    hide Reaches, E.HasElectionMajority;
    var mode := c.nodes[n].mode;
    var mid := With(c, q, E.BecomeFollower(c.nodes[q], 1).(votedFor := n)).(votes := c.votes + {E.Vote(q, 1, n)});
    OneStep(c, mid, E.GrantVote(q, n, 1));
    var won := E.HasElectionMajority(mid, mode, h + {q});
    c' := With(mid, n, mid.nodes[n].(granted := h + {q}, role := if won then Leader else Candidate));
    ThenStep(c, mid, c', E.Step.CountVote(n, q));
    SameRule(c, mid, mode, h + {q});
  }

  lemma SameRule(c: E.Cluster, d: E.Cluster, mode: E.Mode, g: set<Id>)
    requires c.oldCfg == d.oldCfg && c.newCfg == d.newCfg
    ensures E.HasElectionMajority(c, mode, g) <==> E.HasElectionMajority(d, mode, g)
  {
  }

  /** A candidate of term 1 with the votes of h gathers those of the rest, and wins with the last one. */
  lemma {:induction false} Gathers(c: E.Cluster, n: Id, h: set<Id>, rest: set<Id>) returns (c': E.Cluster)
    requires Standing(c, n, h) && n in h && h + rest <= c.nodes.Keys && h !! rest && rest != {}
    requires h + rest <= ConfigOf(c, c.nodes[n].mode) && |h + rest| == |ConfigOf(c, c.nodes[n].mode)| / 2 + 1
    requires forall q | q in rest :: Untouched(c.nodes[q])
    ensures Reaches(c, c') && OnlyGroup(c, c', h + rest) && Leads(c', n, 1)
    decreases |rest|
  {
    hide Reaches, E.HasElectionMajority;
    var q := Pick(rest);
    var g, left := h + {q}, rest - {q};
    c' := GathersOne(c, n, h, q);
    ExactMajority(c, c.nodes[n].mode, g);
    assert h + rest == g + left && |h + rest| == |g| + |left|;
    if left != {} {
      var c'' := Gathers(c', n, g, left);
      ThenReaches(c, c', c'');
      c' := c'';
    }
  }

  /** The whole campaign of an untouched node among untouched voters. */
  lemma Campaigns(c: E.Cluster, n: Id, g: set<Id>) returns (c': E.Cluster)
    requires n in g && g <= c.nodes.Keys && c.nodes[n].mode != E.Joint
    requires g <= ConfigOf(c, c.nodes[n].mode) && |g| == |ConfigOf(c, c.nodes[n].mode)| / 2 + 1
    requires forall q | q in g :: Untouched(c.nodes[q])
    ensures Reaches(c, c') && OnlyGroup(c, c', g) && Leads(c', n, 1)
  {
    hide Reaches, E.HasElectionMajority;
    var v := E.BecomeCandidate(n, c.nodes[n]);
    var mid := With(c, n, v).(votes := c.votes + {E.Vote(n, 1, n)});
    OneStep(c, mid, E.Step.StartElection(n));
    if g == {n} {
      ExactMajority(mid, v.mode, g);
      assert v.granted + {n} == g;
      c' := With(mid, n, v.(granted := g, role := Leader));
      ThenStep(c, mid, c', E.Step.CountVote(n, n));
    } else {
      assert {n} + (g - {n}) == g;
      c' := Gathers(mid, n, {n}, g - {n});
      ThenReaches(c, mid, c');
    }
  }

  ghost function Start(oldCfg: set<Id>, newCfg: set<Id>, byOld: set<Id>): E.Cluster {
    E.Cluster(oldCfg, newCfg,
              map q | q in oldCfg + newCfg :: E.Voter(0, NOBODY, Follower, {}, if q in byOld then E.OldStable else E.NewStable),
              {}, {})
  }

  /** Configurations whose smallest majorities fit side by side: one candidate goes by the old, one by the new, and both
      win term 1. */
  lemma BothWin(oldCfg: set<Id>, newCfg: set<Id>) returns (run: seq<E.Cluster>, x: Id, y: Id)
    requires oldCfg != {} && newCfg != {} && |oldCfg| / 2 + |newCfg| / 2 + 2 <= |oldCfg + newCfg|
    ensures FreeRun(run) && run[0].oldCfg == oldCfg && run[0].newCfg == newCfg
    ensures x != y && Leads(run[|run| - 1], x, 1) && Leads(run[|run| - 1], y, 1)
  {
    hide Reaches, E.NextStep;
    var a, b := Apart(oldCfg, newCfg);
    x := Pick(a);
    y := Pick(b);
    var c := Start(oldCfg, newCfg, a);
    forall q | q in b
      ensures q !in a
    {
      assert q in a ==> q in a * b;
    }
    var c1 := Campaigns(c, x, a);
    var c2 := Campaigns(c1, y, b);
    ThenReaches(c, c1, c2);
    run := PathOf(c, c2);
  }

  lemma PathOf(c: E.Cluster, c': E.Cluster) returns (run: seq<E.Cluster>)
    requires Reaches(c, c')
    ensures Path(run, c, c')
  {
    run :| Path(run, c, c');
  }

  /** One leader per term, in every run, if and only if the smallest majorities of the two configurations do not fit
      side by side. One addNode or removeNode always meets that; two in a row, with a node still or again at the first
      configuration, need not. */
  lemma ElectionIsSafeIff(oldCfg: set<Id>, newCfg: set<Id>)
    requires oldCfg != {} && newCfg != {}
    ensures AlwaysSafe(oldCfg, newCfg) <==> |oldCfg| / 2 + |newCfg| / 2 + 2 > |oldCfg + newCfg|
  {
    hide Membership.Next, E.Fresh;
    MajoritiesMeetIff(oldCfg, newCfg);
    if |oldCfg| / 2 + |newCfg| / 2 + 2 > |oldCfg + newCfg| {
      forall run: seq<E.Cluster> | FreeRun(run) && run[0].oldCfg == oldCfg && run[0].newCfg == newCfg
        ensures OneLeader(run)
      {
        hide AlwaysMeet;
        forall i, j, a, b, t | 0 <= i < |run| && 0 <= j < |run| && Leads(run[i], a, t) && Leads(run[j], b, t)
          ensures a == b
        {
          Membership.ElectionSafety(run, i, j, a, b);
        }
      }
    } else {
      var run, x, y := BothWin(oldCfg, newCfg);
      assert !OneLeader(run);
    }
  }
}
