/**
 The decisions of a node in every phase of a membership change, on the ids of the configurations that have a say and
 on the whole log: whom it votes for, when it has won, what it may commit, what it proposes.
 */
module NodeRules {
  import opened Types
  import opened Quorum
  import opened Node
  import opened NodeConfig
  import opened NodeLog
  import opened NodeApply

  /** The configurations a majority of each of which must agree. */
  ghost function Deciding(s: NodeState): set<set<Id>> {
    match s.configState
    case STABLE => {Ids(s.currentConfig)}
    case JOINT => {Ids(s.oldConfig), Ids(s.newConfig)}
  }

  ghost predicate MajorityOfEach(g: set<Id>, cfgs: set<set<Id>>) {
    forall cfg | cfg in cfgs :: Majority(g, cfg)
  }

  /** A member of a configuration that has a say. */
  ghost predicate Belongs(s: NodeState, id: int) {
    id != NOBODY && exists cfg | cfg in Deciding(s) :: id as Id in cfg
  }

  ghost predicate ProperConfigs(s: NodeState) {
    Proper(s.currentConfig) && Proper(s.oldConfig) && Proper(s.newConfig)
  }

  lemma BelongsIs(s: NodeState, id: int)
    requires ProperConfigs(s)
    ensures InVotingConfig(s, id) <==> Belongs(s, id)
  {
    if id == NOBODY {
      NobodyContained(s.currentConfig);
      NobodyContained(s.oldConfig);
      NobodyContained(s.newConfig);
    } else {
      hide Contains, Ids;
      InIds(s.currentConfig, id);
      InIds(s.oldConfig, id);
      InIds(s.newConfig, id);
      BelongsMeans(s, id);
    }
  }

  lemma BelongsMeans(s: NodeState, id: int)
    ensures Belongs(s, id) <==> (id != NOBODY && if s.configState == STABLE then id as Id in Ids(s.currentConfig)
                                                  else id as Id in Ids(s.oldConfig) || id as Id in Ids(s.newConfig))
  {
    hide Ids;
    assert s.configState == STABLE ==> Ids(s.currentConfig) in Deciding(s);
    assert s.configState == JOINT ==> Ids(s.oldConfig) in Deciding(s) && Ids(s.newConfig) in Deciding(s);
  }

  lemma NobodyContained(cfg: seq<PeerInfo>)
    requires Proper(cfg)
    ensures !Contains(cfg, NOBODY)
  {
  }

  // ---- elections ----

  /** A candidate becomes leader with exactly those votes that are a majority of every configuration that has a say:
      of the old and of the new one while the change is under way. */
  lemma WinsIff(s: NodeState, asked: int, granted: seq<int>, voter: int, r: RequestVoteReply)
    requires ProperConfigs(s)
    ensures var (t, g, done) := CountVote(s, asked, granted, voter, r);
      var standing := s.role == Candidate && s.term == asked;
      && (t.role == Leader && s.role != Leader <==>
            standing && r.term <= asked && r.voteGranted && MajorityOfEach(GrantedIds(granted + [voter]), Deciding(s)))
      && (done <==> !standing || t.role != Candidate)
      && (t.role == Leader && s.role != Leader ==> FreshBooks(t) && t.term == s.term && t.votedFor == s.votedFor)
      && (if standing && r.term > asked then t.role == Follower && t.term == r.term && t.votedFor == NOBODY else t.term == s.term)
      && g == if standing && r.term <= asked && r.voteGranted then granted + [voter] else granted
  {
    hide Proper, MajorityByIds, GrantedIds, Ids, Majority;
    GrantsMakeMajority(s.currentConfig, granted + [voter]);
    GrantsMakeMajority(s.oldConfig, granted + [voter]);
    GrantsMakeMajority(s.newConfig, granted + [voter]);
  }

  /** What a vote request does: it is heard from a member, by a voting node that is not ahead of its term; it is granted
      if moreover no vote for another stands in that term and the candidate's last entry is not behind the node's
      whole log. A request that is not heard changes nothing. */
  lemma VoteIs(s: NodeState, full: seq<LogEntry>, a: RequestVoteArgs)
    requires Represents(s, full) && ProperConfigs(s)
    ensures var (t, r) := HandleRequestVote(s, a);
      var heard := s.votingMember && Belongs(s, a.candidateId) && a.term >= s.term;
      var free := a.term > s.term || s.votedFor == NOBODY || s.votedFor == a.candidateId;
      var recent := a.lastLogTerm > LastTerm(full) || (a.lastLogTerm == LastTerm(full) && a.lastLogIndex >= |full|);
      && (r.voteGranted <==> heard && free && recent)
      && r.term == (if r.voteGranted then a.term else s.term)
      && (!heard ==> t == s)
      && (heard ==>
            && t.term == a.term && t.role == (if a.term > s.term then Follower else s.role)
            && t.votedFor == (if r.voteGranted then a.candidateId else if a.term > s.term then NOBODY else s.votedFor))
      && (r.voteGranted ==> t.disk.term == a.term && t.disk.votedFor == a.candidateId)
      && t.logs == s.logs && t.commitIndex == s.commitIndex && t.configState == s.configState
  {
    hide Proper, InVotingConfig, Belongs;
    BelongsIs(s, a.candidateId);
    CompactedAnswers(s, full, s.lastIncludedIndex);
  }

  /** Who stands: a voting member that is neither leaving nor removed. It asks with the end of its whole log. */
  lemma StandsIff(s: NodeState, full: seq<LogEntry>)
    requires Represents(s, full) && ProperConfigs(s)
    ensures var (t, r) := StartElection(s);
      && (r.Some? <==> s.votingMember && !s.leaving && !s.removed && Belongs(s, s.id))
      && (r.Some? ==> t.role == Candidate && t.term == s.term + 1 && t.votedFor == s.id
                      && r.value == RequestVoteArgs(t.term, s.id, |full|, LastTerm(full)))
      && (r.None? ==> t == s.(votingMember := t.votingMember) && (t.votingMember <==> s.votingMember && (s.leaving || s.removed)))
  {
    hide Proper, InVotingConfig, Belongs;
    BelongsIs(s, s.id);
    CompactedAnswers(s, full, s.lastIncludedIndex);
  }

  /** AppendEntries is heard from members only. Whoever hears it follows in its term. */
  lemma AppendHeard(s: NodeState, a: AppendEntriesArgs)
    requires ProperConfigs(s)
    ensures var (t, r) := HandleAppendEntries(s, a);
      if Belongs(s, a.leaderId) && a.term >= s.term
      then t.term == a.term && t.role == Follower
           && t.votedFor == (if a.term > s.term || s.role != Follower then NOBODY else s.votedFor)
      else t == s && r == AppendEntriesReply(s.term, false)
  {
    hide Proper, InVotingConfig, Belongs, ApplyCommitted, Changes, MergeAll;
    BelongsIs(s, a.leaderId);
    var t := Heed(s, a.term, a.leaderId);
    var m := Merged(t, a.entries);
    CommittedShape(m.(commitIndex := if a.leaderCommit < LastLogIndex(m) then a.leaderCommit else LastLogIndex(m)));
  }

  // ---- commitment ----

  /** The ids this leader counts as holding the entry: its own by its last index, a peer's by its matchIndex. */
  ghost function Matching(s: NodeState, index: int): set<Id> {
    (set i | 0 <= i < |s.peers| && i < |s.matchIndex| && s.peers[i].id != NOBODY && s.matchIndex[i] >= index :: s.peers[i].id as Id)
    + (if LastLogIndex(s) >= index then {s.id} else {})
  }

  /** The configurations that must agree to an entry: a joint entry names them itself. */
  ghost function CommitDeciding(s: NodeState, e: LogEntry): set<set<Id>> {
    if e.op == CONFIG_JOINT then {Ids(e.oldConfig), Ids(e.newConfig)} else Deciding(s)
  }

  /** An entry of the leader's own term, not yet committed, that a majority of each of those configurations holds. */
  ghost predicate Due(s: NodeState, full: seq<LogEntry>, k: int) {
    && s.role == Leader && s.commitIndex < k <= |full| && k >= 1 && full[k - 1].term == s.term
    && MajorityOfEach(Matching(s, k), CommitDeciding(s, full[k - 1]))
  }

  /** The commit index moves to the largest index that is due, and stays where none is. */
  lemma CommitsLargestDue(s: NodeState, full: seq<LogEntry>)
    requires Represents(s, full) && SoundEntries(full) && Configured(s) && s.lastIncludedIndex <= s.commitIndex <= |full|
    ensures var c := UpdateCommitIndex(s).commitIndex;
      && (c == s.commitIndex || Due(s, full, c))
      && forall k | Due(s, full, k) :: k <= c
  {
    hide Configured, SoundEntries, Due, CanCommit, ApplyCommitted;
    CompactedAnswers(s, full, s.lastIncludedIndex);
    if s.role == Leader {
      forall k | s.commitIndex < k <= |full|
        ensures CanCommit(s, k) <==> Due(s, full, k)
      {
        DueIff(s, full, k);
      }
      var c := LargestCommittable(s, LastLogIndex(s));
      CommittedShape(s.(commitIndex := c));
      forall k | Due(s, full, k)
        ensures k <= c
      {
        DueWithin(s, full, k);
      }
    } else {
      forall k
        ensures !Due(s, full, k)
      {
        if Due(s, full, k) {
          DueWithin(s, full, k);
        }
      }
    }
  }

  lemma DueWithin(s: NodeState, full: seq<LogEntry>, k: int)
    requires Due(s, full, k)
    ensures s.role == Leader && s.commitIndex < k <= |full|
  {
  }

  lemma DueIff(s: NodeState, full: seq<LogEntry>, k: int)
    requires Represents(s, full) && SoundEntries(full) && Configured(s)
    requires s.role == Leader && s.lastIncludedIndex <= s.commitIndex < k <= |full|
    ensures CanCommit(s, k) <==> Due(s, full, k)
  {
    hide Proper, MajorityInConfig, Matching, Majority, Ids, PeersMatch, Tracks;
    CompactedAnswers(s, full, k);
    var e := full[k - 1];
    assert s.logs[Pos(s, k)] == e && e.index == k;
    assert SoundEntry(e);
    MatchingMakesMajority(s, s.currentConfig, k);
    MatchingMakesMajority(s, s.oldConfig, k);
    MatchingMakesMajority(s, s.newConfig, k);
    MatchingMakesMajority(s, e.oldConfig, k);
    MatchingMakesMajority(s, e.newConfig, k);
  }

  lemma MatchingMakesMajority(s: NodeState, cfg: seq<PeerInfo>, k: int)
    requires Proper(cfg) && PeersMatch(s)
    ensures MajorityInConfig(s, cfg, k) <==> Majority(Matching(s, k), Ids(cfg))
  {
    hide MajorityInConfig, Proper, PeersMatch, Matching;
    MatchesMakeMajority(s, cfg, k);
    forall id: Id
      ensures HoldsEntry(s, k, id) <==> id in Matching(s, k)
    {
      HoldsIffMatching(s, k, id);
    }
    assert Matching(s, k) * Ids(cfg) == HoldingIds(s, cfg, k) * Ids(cfg);
  }

  lemma HoldsIffMatching(s: NodeState, k: int, id: Id)
    requires PeersMatch(s)
    ensures HoldsEntry(s, k, id) <==> id in Matching(s, k)
  {
    if id == s.id {
      assert !Contains(s.peers, id);
    } else {
      var i := PeerIndex(s.peers, id);
      forall j | 0 <= j < |s.peers| && s.peers[j].id == id
        ensures j == i
      {
        assert Contains(s.peers, id);
      }
    }
  }

  // ---- membership proposals ----

  /** addNode proposes on a leader with no change under way, for an id that is not a member yet; removeNode for a
      member that is not the last one. What they propose starts from the configuration in force. */
  lemma ProposesIff(s: NodeState, p: PeerInfo, id: Id)
    requires Proper(s.currentConfig) && p.id != NOBODY
    ensures PlanAdd(s, p).Some? <==> s.role == Leader && s.configState == STABLE && p.id as Id !in Ids(s.currentConfig)
    ensures PlanRemove(s, id).Some? <==>
      s.role == Leader && s.configState == STABLE && id in Ids(s.currentConfig) && Ids(s.currentConfig) != {id}
    ensures PlanAdd(s, p).Some? ==>
      PlanAdd(s, p).value.0 == s.currentConfig && Ids(PlanAdd(s, p).value.1) == Ids(s.currentConfig) + {p.id as Id}
    ensures PlanRemove(s, id).Some? ==>
      PlanRemove(s, id).value.0 == s.currentConfig && Ids(PlanRemove(s, id).value.1) == Ids(s.currentConfig) - {id}
  {
    var cfg, rest := s.currentConfig, Others(s.currentConfig, id);
    InIds(cfg, p.id);
    InIds(cfg, id);
    AddedIds(cfg, p);
    RestIds(cfg, id);
    hide Contains, Proper;
    EmptyIff(rest);
  }

  lemma AddedIds(cfg: seq<PeerInfo>, p: PeerInfo)
    requires p.id != NOBODY
    ensures Ids(cfg + [p]) == Ids(cfg) + {p.id as Id}
  {
    assert (cfg + [p])[|cfg|] == p;
    assert forall q :: q in cfg + [p] <==> q in cfg || q == p;
  }

  lemma RestIds(cfg: seq<PeerInfo>, id: Id)
    requires Proper(cfg)
    ensures Ids(Others(cfg, id)) == Ids(cfg) - {id} && Proper(Others(cfg, id))
  {
    var rest := Others(cfg, id);
    OthersAre(cfg, id);
    forall x: Id
      ensures x in Ids(rest) <==> x in Ids(cfg) - {id}
    {
      InIds(cfg, x);
      InIds(rest, x);
    }
    forall i | 0 <= i < |rest|
      ensures rest[i].id != NOBODY
    {
      assert Contains(rest, rest[i].id);
      assert Contains(cfg, rest[i].id);
    }
  }

  lemma EmptyIff(cfg: seq<PeerInfo>)
    requires forall i | 0 <= i < |cfg| :: cfg[i].id != NOBODY
    ensures cfg == [] <==> Ids(cfg) == {}
  {
    if cfg != [] {
      assert cfg[0] in cfg && cfg[0].id as Id in Ids(cfg);
    }
  }
}
