/** The configurations a node decides by, against the modes of a voter in the middle of one membership change. */
module NodeModes {
  import opened Types
  import opened Quorum
  import opened Node
  import opened NodeConfig
  import opened NodeApply
  import opened NodeRules
  import E = Election

  /** The node decides by the configurations of the mode. */
  ghost predicate InMode(c: E.Cluster, mode: E.Mode, s: NodeState) {
    && ProperConfigs(s)
    && match mode
       case OldStable => s.configState == STABLE && Ids(s.currentConfig) == c.oldCfg
       case NewStable => s.configState == STABLE && Ids(s.currentConfig) == c.newCfg
       case Joint => s.configState == JOINT && Ids(s.oldConfig) == c.oldCfg && Ids(s.newConfig) == c.newCfg
  }

  /** An ordinary entry, or a configuration entry of the one change from the old to the new configuration. */
  ghost predicate EntryOf(oldCfg: set<Id>, newCfg: set<Id>, e: LogEntry) {
    && (e.op == CONFIG_JOINT ==> Proper(e.oldConfig) && Proper(e.newConfig) && Ids(e.oldConfig) == oldCfg && Ids(e.newConfig) == newCfg)
    && (e.op == CONFIG_NEW ==> Proper(e.newConfig) && Ids(e.newConfig) == newCfg)
  }

  ghost predicate OfChange(c: E.Cluster, e: LogEntry) {
    EntryOf(c.oldCfg, c.newCfg, e)
  }

  ghost predicate AllOfChange(c: E.Cluster, log: seq<LogEntry>) {
    forall e | e in log :: OfChange(c, e)
  }

  lemma SameChange(c: E.Cluster, c': E.Cluster, log: seq<LogEntry>)
    requires AllOfChange(c, log) && c'.oldCfg == c.oldCfg && c'.newCfg == c.newCfg
    ensures AllOfChange(c', log)
  {
    hide Proper, Ids;
  }

  lemma PartOfChange(c: E.Cluster, log: seq<LogEntry>, part: seq<LogEntry>)
    requires AllOfChange(c, log) && forall e | e in part :: e in log
    ensures AllOfChange(c, part)
  {
    hide OfChange;
  }

  lemma MoreOfChange(c: E.Cluster, log: seq<LogEntry>, e: LogEntry)
    requires AllOfChange(c, log) && OfChange(c, e)
    ensures AllOfChange(c, log + [e])
  {
    hide OfChange;
  }

  /** A start-up file lists the old members or the new ones. */
  ghost predicate FileOf(oldCfg: set<Id>, newCfg: set<Id>, cfg: seq<PeerInfo>) {
    Proper(cfg) && (Ids(cfg) == oldCfg || Ids(cfg) == newCfg)
  }

  ghost predicate Lists(c: E.Cluster, cfg: seq<PeerInfo>) {
    FileOf(c.oldCfg, c.newCfg, cfg)
  }

  /** The members that have a say are those of the mode. */
  lemma ActiveIs(c: E.Cluster, mode: E.Mode, s: NodeState, id: int)
    requires InMode(c, mode, s)
    ensures InVotingConfig(s, id) <==> id != NOBODY && id as Id in E.Active(c, mode)
  {
    hide Proper, Ids, Contains;
    BelongsIs(s, id);
    BelongsMeans(s, id);
  }

  /** The majority the node counts is the election majority of its mode. */
  lemma SameElectionRule(c: E.Cluster, mode: E.Mode, s: NodeState, granted: seq<int>)
    requires InMode(c, mode, s)
    ensures ElectionMajority(s, granted) <==> E.HasElectionMajority(c, mode, GrantedIds(granted))
  {
    hide Proper, MajorityByIds, GrantedIds, Ids, Majority;
    GrantsMakeMajority(s.currentConfig, granted);
    GrantsMakeMajority(s.oldConfig, granted);
    GrantsMakeMajority(s.newConfig, granted);
  }

  lemma GrantedOne(n: Id, more: seq<int>, x: Id)
    ensures GrantedIds([n]) == {n}
    ensures GrantedIds(more + [x]) == GrantedIds(more) + {x}
  {
    assert (more + [x])[|more|] == x && [n][0] == n;
    forall q: Id
      ensures q in GrantedIds([n]) <==> q == n
      ensures q in GrantedIds(more + [x]) <==> q in GrantedIds(more) || q == x
    {
      InGranted([n], q);
      InGranted(more, q);
      InGranted(more + [x], q);
    }
    assert GrantedIds([n]) == {n};
    assert GrantedIds(more + [x]) == GrantedIds(more) + {x};
  }

  lemma InGranted(granted: seq<int>, q: Id)
    ensures q in GrantedIds(granted) <==> q in granted
  {
    var g: int := q;
    assert g in granted ==> g as Id in GrantedIds(granted);
  }

  // ---- configuration entries ----

  /** The peers are the other members, and a node that stands or leads is a member itself. */
  ghost predicate Seated(s: NodeState) {
    PeersMatch(s) && (s.role != Follower ==> InVotingConfig(s, s.id))
  }

  /** Where an entry takes a node. */
  function ModeAfter(mode: E.Mode, e: LogEntry): E.Mode {
    if e.op == CONFIG_JOINT then E.Joint else if e.op == CONFIG_NEW then E.NewStable else mode
  }

  lemma EntryModeIs(c: E.Cluster, mode: E.Mode, s: NodeState, e: LogEntry)
    requires InMode(c, mode, s) && OfChange(c, e)
    ensures InMode(c, ModeAfter(mode, e), ApplyEntry(s, e))
  {
    hide Proper, Ids, ApplyEntry;
    EntryConfigs(s, e);
    NobodyIn();
  }

  lemma EntrySeats(c: E.Cluster, mode: E.Mode, s: NodeState, e: LogEntry)
    requires InMode(c, mode, s) && Seated(s) && OfChange(c, e)
    ensures Seated(ApplyEntry(s, e))
  {
    hide Rebuild, AddUnique, Others, Contains, Ids, Proper, PeersMatch;
    var n := s.id;
    EntryPeers(s, e);
    EntryConfigs(s, e);
    ApplyShape(s, e);
    InIds(e.oldConfig, n);
    InIds(e.newConfig, n);
    InIds(s.currentConfig, n);
    InIds(s.oldConfig, n);
    InIds(s.newConfig, n);
    JointDecidesStanding(s, e);
    NewDecidesStanding(s, e);
  }
}
