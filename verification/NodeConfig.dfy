/** Configurations: the counting loops against sets of ids, and the peer list against the active configuration. */
module NodeConfig {
  import opened Types
  import opened Quorum
  import opened Node
  import Membership

  /** No id occurs twice. */
  ghost predicate Distinct(cfg: seq<PeerInfo>) {
    forall i, j | 0 <= i < j < |cfg| :: cfg[i].id != cfg[j].id
  }

  ghost predicate Proper(cfg: seq<PeerInfo>) {
    Distinct(cfg) && forall i | 0 <= i < |cfg| :: cfg[i].id != NOBODY
  }

  ghost function Ids(cfg: seq<PeerInfo>): set<Id> {
    set p | p in cfg && p.id != NOBODY :: p.id as Id
  }

  ghost function IdsWith(cfg: seq<PeerInfo>, test: int -> bool): set<Id> {
    set p | p in cfg && p.id != NOBODY && test(p.id) :: p.id as Id
  }

  lemma InIds(cfg: seq<PeerInfo>, id: Id)
    ensures id in Ids(cfg) <==> Contains(cfg, id)
  {
  }

  // ---- counting ----

  /** In a configuration without duplicates the counting loop computes a cardinality. */
  lemma {:induction false} CountIsCardinality(cfg: seq<PeerInfo>, test: int -> bool)
    requires Proper(cfg)
    ensures CountIf(cfg, test) == |IdsWith(cfg, test)|
    decreases |cfg|
  {
    if cfg != [] {
      var init, p := cfg[..|cfg| - 1], cfg[|cfg| - 1];
      CountIsCardinality(init, test);
      assert p.id as Id !in IdsWith(init, test);
      assert forall q :: q in cfg <==> q in init || q == p;
      assert IdsWith(cfg, test) == IdsWith(init, test) + (if test(p.id) then {p.id as Id} else {});
    } else {
      assert IdsWith(cfg, test) == {};
    }
  }

  lemma SizeIsCardinality(cfg: seq<PeerInfo>)
    requires Proper(cfg)
    ensures |Ids(cfg)| == |cfg|
  {
    var all := (id: int) => true;
    CountIsCardinality(cfg, all);
    assert IdsWith(cfg, all) == Ids(cfg);
    CountAll(cfg, all);
  }

  lemma {:induction false} CountAll(cfg: seq<PeerInfo>, test: int -> bool)
    requires forall i | 0 <= i < |cfg| :: test(cfg[i].id)
    ensures CountIf(cfg, test) == |cfg|
    decreases |cfg|
  {
    if cfg != [] {
      CountAll(cfg[..|cfg| - 1], test);
    }
  }

  ghost function GrantedIds(granted: seq<int>): set<Id> {
    set g | g in granted && g != NOBODY :: g as Id
  }

  /** The vote count is the size of the set of granting members: a grant that is repeated, or comes from
      outside the configuration, does not raise it. */
  lemma GrantsMakeMajority(cfg: seq<PeerInfo>, granted: seq<int>)
    requires Proper(cfg)
    ensures MajorityByIds(cfg, granted) <==> Majority(GrantedIds(granted), Ids(cfg))
  {
    CountIsCardinality(cfg, GrantedTest(granted));
    SizeIsCardinality(cfg);
    var with := IdsWith(cfg, GrantedTest(granted));
    assert with == GrantedIds(granted) * Ids(cfg);
  }

  ghost function HoldingIds(s: NodeState, cfg: seq<PeerInfo>, index: int): set<Id> {
    set id | id in Ids(cfg) && HoldsEntry(s, index, id)
  }

  lemma MatchesMakeMajority(s: NodeState, cfg: seq<PeerInfo>, index: int)
    requires Proper(cfg)
    ensures MajorityInConfig(s, cfg, index) <==> Majority(HoldingIds(s, cfg, index), Ids(cfg))
  {
    CountIsCardinality(cfg, HoldsTest(s, index));
    SizeIsCardinality(cfg);
    var with := IdsWith(cfg, HoldsTest(s, index));
    assert with == HoldingIds(s, cfg, index) * Ids(cfg);
  }

  // ---- the peer list ----

  /** Exactly the ids of the active configuration other than the node's own, each once. */
  ghost predicate PeersMatch(s: NodeState) {
    && Distinct(s.peers)
    && forall id :: Contains(s.peers, id) <==> id != s.id && InVotingConfig(s, id)
  }

  lemma {:induction false} OthersAre(cfg: seq<PeerInfo>, id: int)
    ensures forall x :: Contains(Others(cfg, id), x) <==> Contains(cfg, x) && x != id
    ensures Distinct(cfg) ==> Distinct(Others(cfg, id))
    decreases |cfg|
  {
    if cfg != [] {
      var init, p := cfg[..|cfg| - 1], cfg[|cfg| - 1];
      OthersAre(init, id);
      ContainsSnoc(init, p);
      assert init + [p] == cfg;
      var rest := Others(init, id);
      ContainsSnoc(rest, p);
      assert Others(cfg, id) == if p.id != id then rest + [p] else rest;
      if Distinct(cfg) && p.id != id {
        assert !Contains(init, p.id);
        assert !Contains(rest, p.id);
      }
    }
  }

  lemma ContainsSnoc(cfg: seq<PeerInfo>, p: PeerInfo)
    ensures forall x :: Contains(cfg + [p], x) <==> Contains(cfg, x) || x == p.id
    ensures Distinct(cfg) && !Contains(cfg, p.id) ==> Distinct(cfg + [p])
  {
    forall x
      ensures Contains(cfg + [p], x) <==> Contains(cfg, x) || x == p.id
    {
      assert (cfg + [p])[|cfg|] == p;
      if Contains(cfg, x) {
        var i :| 0 <= i < |cfg| && cfg[i].id == x;
        assert (cfg + [p])[i] == cfg[i];
      }
    }
  }

  lemma {:induction false} AddUniqueIs(peers: seq<PeerInfo>, cfg: seq<PeerInfo>, id: int)
    ensures forall x :: Contains(AddUnique(peers, cfg, id), x) <==> Contains(peers, x) || (Contains(cfg, x) && x != id)
    ensures Distinct(peers) ==> Distinct(AddUnique(peers, cfg, id))
    decreases |cfg|
  {
    if cfg != [] {
      var init, p := cfg[..|cfg| - 1], cfg[|cfg| - 1];
      AddUniqueIs(peers, init, id);
      assert init + [p] == cfg;
      ContainsSnoc(init, p);
      ContainsSnoc(AddUnique(peers, init, id), p);
    }
  }

  // ---- membership changes ----

  /** What addNode proposes adds exactly one id, and keeps the configuration free of duplicates. */
  lemma AddPlanIsOneChange(s: NodeState, p: PeerInfo)
    requires Proper(s.currentConfig) && PlanAdd(s, p).Some? && p.id != NOBODY
    ensures var (oldCfg, newCfg) := PlanAdd(s, p).value;
      Proper(newCfg) && Membership.OneChange(Ids(oldCfg), Ids(newCfg)) && p.id as Id in Ids(newCfg)
  {
    var (oldCfg, newCfg) := PlanAdd(s, p).value;
    ContainsSnoc(oldCfg, p);
    assert newCfg[|oldCfg|] == p;
    assert p.id as Id !in Ids(oldCfg);
    assert forall q :: q in newCfg <==> q in oldCfg || q == p;
    assert Ids(newCfg) == Ids(oldCfg) + {p.id as Id};
  }

  /** What removeNode proposes drops exactly one id and leaves at least one node. */
  lemma RemovePlanIsOneChange(s: NodeState, id: Id)
    requires Proper(s.currentConfig) && PlanRemove(s, id).Some?
    ensures var (oldCfg, newCfg) := PlanRemove(s, id).value;
      Proper(newCfg) && newCfg != [] && Membership.OneChange(Ids(oldCfg), Ids(newCfg)) && id !in Ids(newCfg)
  {
    var (oldCfg, newCfg) := PlanRemove(s, id).value;
    OthersAre(oldCfg, id);
    InIds(oldCfg, id);
    forall x: Id
      ensures x in Ids(newCfg) <==> x in Ids(oldCfg) - {id}
    {
      InIds(oldCfg, x);
      InIds(newCfg, x);
    }
    assert Ids(newCfg) == Ids(oldCfg) - {id};
    forall i | 0 <= i < |newCfg|
      ensures newCfg[i].id != NOBODY
    {
      assert Contains(newCfg, newCfg[i].id);
      assert Contains(oldCfg, newCfg[i].id);
    }
  }
}
