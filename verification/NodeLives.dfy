/**
 What holds at every moment of every life of a node while the membership of its cluster changes: whom it listens to,
 what its configuration and its proposals are, what a leader knows of its peers, what it compacts.
 */
module NodeLives {
  import opened Types
  import opened Node
  import opened NodeConfig
  import opened NodeLog
  import opened NodeApply
  import opened NodeInvariant
  import opened NodeRules
  import opened NodeRun
  import Protocol

  // ---- who is heard ----

  /** A vote request that comes from outside, from an older term, or to a node that does not vote; an AppendEntries
      request that comes from outside or from an older term. */
  ghost predicate Unheard(s: NodeState, ev: Event) {
    match ev
    case Vote(rv) => !s.votingMember || !Belongs(s, rv.candidateId) || rv.term < s.term
    case Append(ae) => !Belongs(s, ae.leaderId) || ae.term < s.term
    case _ => false
  }

  lemma ProperAt(w: World)
    requires Good(w)
    ensures ProperConfigs(w.s) && Represents(w.s, w.full)
  {
    hide Proper, Represents, Agree, Reflects, SoundEntries, PeersMatch, Tracks, SentSound, PlansSound;
  }

  /** Such a request leaves everything as it is, and is refused in the node's own term. */
  lemma UnheardChangesNothing(w: World, ev: Event)
    requires Good(w) && Unheard(w.s, ev)
    ensures NodeRun.After(w, ev) == w
    ensures ev.Vote? ==> HandleRequestVote(w.s, ev.rv).1 == RequestVoteReply(w.s.term, false)
    ensures ev.Append? ==> HandleAppendEntries(w.s, ev.ae).1 == AppendEntriesReply(w.s.term, false)
  {
    ProperAt(w);
    hide Good, Belongs, Represents, Proper, HandleAppendEntries, HandleRequestVote, Contains;
    var s := w.s;
    if ev.Vote? {
      VoteIs(s, w.full, ev.rv);
    } else {
      AppendHeard(s, ev.ae);
      BelongsIs(s, ev.ae.leaderId);
      assert !Accepted(s, ev.ae);
      NothingApplied(w.full, s);
      assert w.since + [] == w.since;
    }
  }

  lemma NothingApplied(full: seq<LogEntry>, s: NodeState)
    ensures Applied(full, s, s) == []
  {
  }

  /** However often such requests come, a node stays as it was: a removed node cannot make it step down or move on. */
  lemma {:induction false} DeafToOutsiders(run: seq<World>, evs: seq<Event>, i: nat, j: nat)
    requires Life(run) && i <= j < |run| && |evs| == |run|
    requires forall k | i <= k < j :: Unheard(run[k].s, evs[k]) && run[k + 1] == NodeRun.After(run[k], evs[k])
    ensures run[j] == run[i]
    decreases j - i
  {
    hide Life, Unheard, NodeRun.After;
    if i < j {
      DeafToOutsiders(run, evs, i, j - 1);
      LifeIsGood(run, j - 1);
      UnheardChangesNothing(run[j - 1], evs[j - 1]);
      assert run[(j - 1) + 1] == run[j];
    }
  }

  /** The vote rule at any moment of a life, on the log the node stands for. */
  lemma VotesFor(run: seq<World>, i: nat, a: RequestVoteArgs)
    requires Life(run) && i < |run|
    ensures var s, full := run[i].s, run[i].full;
      HandleRequestVote(s, a).1.voteGranted <==>
        && s.votingMember && Belongs(s, a.candidateId)
        && (a.term > s.term || (a.term == s.term && (s.votedFor == NOBODY || s.votedFor == a.candidateId)))
        && (a.lastLogTerm > LastTerm(full) || (a.lastLogTerm == LastTerm(full) && a.lastLogIndex >= |full|))
  {
    hide Good, Belongs, Represents, Proper, HandleRequestVote;
    LifeIsGood(run, i);
    ProperAt(run[i]);
    VoteIs(run[i].s, run[i].full, a);
  }

  // ---- the configuration ----

  /** The members by the last final configuration applied since the start, or else by the start-up file. */
  function InForce(boot: seq<PeerInfo>, since: seq<LogEntry>): seq<PeerInfo> {
    if since == [] then boot
    else if since[|since| - 1].op == CONFIG_NEW then since[|since| - 1].newConfig
    else InForce(boot, since[..|since| - 1])
  }

  /** The last joint configuration applied since the start that no final one has followed. */
  function UnderWay(since: seq<LogEntry>): Option<LogEntry> {
    if since == [] || since[|since| - 1].op == CONFIG_NEW then None
    else if since[|since| - 1].op == CONFIG_JOINT then Some(since[|since| - 1])
    else UnderWay(since[..|since| - 1])
  }

  ghost predicate ConfigIs(s: NodeState, boot: seq<PeerInfo>, since: seq<LogEntry>) {
    && s.currentConfig == InForce(boot, since)
    && match UnderWay(since)
       case None => s.configState == STABLE && s.oldConfig == [] && s.newConfig == []
       case Some(e) => s.configState == JOINT && s.oldConfig == e.oldConfig && s.newConfig == e.newConfig
  }

  lemma EntryConfig(s: NodeState, boot: seq<PeerInfo>, since: seq<LogEntry>, e: LogEntry)
    requires ConfigIs(s, boot, since)
    ensures ConfigIs(ApplyEntry(s, e).(lastApplied := s.lastApplied + 1), boot, since + [e])
  {
    hide Contains, Rebuild, AddUnique, Others;
    assert (since + [e])[..|since|] == since;
    EntryConfigs(s, e);
  }

  lemma {:induction false} LoopConfig(s: NodeState, full: seq<LogEntry>, boot: seq<PeerInfo>, since: seq<LogEntry>)
    requires Represents(s, full) && 0 <= s.lastIncludedIndex <= s.lastApplied <= s.commitIndex <= |full|
    requires ConfigIs(s, boot, since)
    ensures ApplyLoop(s).lastApplied == s.commitIndex
    ensures ConfigIs(ApplyLoop(s), boot, since + full[s.lastApplied..s.commitIndex])
    decreases s.commitIndex - s.lastApplied
  {
    hide ApplyEntry, Represents, ConfigIs;
    if s.lastApplied < s.commitIndex {
      var e := full[s.lastApplied];
      var t := ApplyEntry(s, e).(lastApplied := s.lastApplied + 1);
      LoopTakes(s, full);
      EntryConfig(s, boot, since, e);
      LoopConfig(t, full, boot, since + [e]);
      assert since + full[s.lastApplied..s.commitIndex] == since + [e] + full[t.lastApplied..t.commitIndex];
    } else {
      assert since + full[s.lastApplied..s.commitIndex] == since;
    }
  }

  ghost predicate SameConfiguration(s: NodeState, t: NodeState) {
    && t.configState == s.configState && t.currentConfig == s.currentConfig && t.oldConfig == s.oldConfig
    && t.newConfig == s.newConfig
  }

  lemma SameConfigIs(s: NodeState, t: NodeState, boot: seq<PeerInfo>, since: seq<LogEntry>)
    requires ConfigIs(s, boot, since) && SameConfiguration(s, t)
    ensures ConfigIs(t, boot, since)
  {
  }

  lemma CommittedConfig(s: NodeState, full: seq<LogEntry>, boot: seq<PeerInfo>, since: seq<LogEntry>)
    requires Represents(s, full) && 0 <= s.lastIncludedIndex <= s.lastApplied <= s.commitIndex <= |full|
    requires ConfigIs(s, boot, since)
    ensures var t := ApplyCommitted(s);
      t.lastApplied == s.commitIndex && ConfigIs(t, boot, since + full[s.lastApplied..s.commitIndex])
  {
    hide Represents, ConfigIs, MaybeCreateSnapshot, ApplyLoop;
    LoopConfig(s, full, boot, since);
    SnapshotShape(ApplyLoop(s));
    SameConfigIs(ApplyLoop(s), ApplyCommitted(s), boot, since + full[s.lastApplied..s.commitIndex]);
  }

  ghost predicate Configuration(w: World) {
    ConfigIs(w.s, w.boot, w.since)
  }

  lemma AppliedPart(full: seq<LogEntry>, s: NodeState, t: NodeState)
    ensures t.lastApplied == s.lastApplied ==> Applied(full, s, t) == []
    ensures 0 <= s.lastApplied <= t.lastApplied <= |full| ==> Applied(full, s, t) == full[s.lastApplied..t.lastApplied]
  {
  }

  /** Raising the commit index and applying, seen from the configuration. */
  lemma RaiseConfig(w: World, c: int)
    requires AtRest(w.s, w.full, w.done) && Configuration(w) && w.s.commitIndex <= c <= |w.full|
    ensures var t := ApplyCommitted(w.s.(commitIndex := c));
      && ConfigIs(t, w.boot, w.since + Applied(w.full, w.s, t)) && t.lastApplied == c
      && (t.configState == JOINT ==> t.lastIncludedIndex == w.s.lastIncludedIndex && t.logs == w.s.logs)
  {
    hide Proper, Contains, Agree, Reflects, SoundEntries, Configured, ApplyCommitted, ConfigIs;
    var u := w.s.(commitIndex := c);
    SameConfigIs(w.s, u, w.boot, w.since);
    CommittedConfig(u, w.full, w.boot, w.since);
    AppliedPart(w.full, w.s, ApplyCommitted(u));
    JointKeepsLog(u);
  }

  /** A node that comes out of the loop in the joint phase has not compacted. */
  lemma JointKeepsLog(s: NodeState)
    ensures var t := ApplyCommitted(s);
      t.configState == JOINT ==> t.lastIncludedIndex == s.lastIncludedIndex && t.logs == s.logs && t.lastIncludedTerm == s.lastIncludedTerm
  {
    hide ApplyLoop, CreateSnapshot;
    LoopShape(s);
    SnapshotShape(ApplyLoop(s));
  }

  /** The state between storing the entries of a request and committing. */
  ghost function Stores(w: World, a: AppendEntriesArgs): World {
    w.(s := Merged(Heed(w.s, a.term, a.leaderId), a.entries), full := FullAfterAppend(w.s, w.full, a))
  }

  lemma StoresGood(w: World, a: AppendEntriesArgs)
    requires Good(w) && Plausible(w.s, w.full, w.done, a) && Accepted(w.s, a)
    ensures var m := Stores(w, a);
      && AtRest(m.s, m.full, m.done) && m.s.role == Follower && m.s.term == a.term && m.s.commitIndex == w.s.commitIndex
      && m.s.lastIncludedIndex == w.s.lastIncludedIndex && SameConfiguration(w.s, m.s)
      && m.s.lastApplied == w.s.lastApplied
      && HandleAppendEntries(w.s, a).0 == Commit(m.s, a.leaderCommit)
  {
    hide AtRest, SentSound, PlansSound, Agree, InVotingConfig, MergeAll, Changes, Commit, Protocol.Merge, Numbered, SoundEntries,
      Heed, Merged, BecomeFollower, LogTermAt, HasLogAt;
    var s, full, done := w.s, w.full, w.done;
    var t := Heed(s, a.term, a.leaderId);
    HeedKeeps(s, full, done, a.term, a.leaderId);
    SameAnswers(s, t, full, done, a);
    LastIs(t, full, done);
    var full' := FullAfterAppend(s, full, a);
    ShorterAgrees(full', done, s.commitIndex);
    MergeKeeps(t, full, done, a.prevLogIndex, a.entries);
    HeedShape(s, a.term, a.leaderId);
  }

  lemma HeedShape(s: NodeState, term: int, leader: int)
    ensures var t := Heed(s, term, leader);
      SameConfiguration(s, t) && t.lastApplied == s.lastApplied && t.commitIndex == s.commitIndex
      && t.lastIncludedIndex == s.lastIncludedIndex && t.logs == s.logs
  {
  }

  /** The configuration goes by what is applied, and a joint one is never compacted under. */
  ghost predicate Configures(w: World, w': World) {
    Configuration(w') && (w'.s.configState == JOINT ==> w'.s.lastIncludedIndex == w.s.lastIncludedIndex)
  }

  lemma AppendConfigures(w: World, a: AppendEntriesArgs)
    requires Good(w) && Plausible(w.s, w.full, w.done, a) && Configuration(w)
    ensures Configures(w, NodeRun.After(w, Append(a)))
  {
    hide Good, AtRest, Plausible, FullAfterAppend, SentSound, PlansSound, Belongs, InVotingConfig, Accepted, HandleAppendEntries, ConfigIs, Applied,
      ApplyCommitted;
    var t := HandleAppendEntries(w.s, a).0;
    if Accepted(w.s, a) {
      StoresGood(w, a);
      var m := Stores(w, a);
      LastIs(m.s, m.full, m.done);
      SameConfigIs(w.s, m.s, w.boot, w.since);
      CommitConfigures(m, a.leaderCommit);
      AppliedFrom(m.full, w.s, m.s, t);
    } else {
      NotAccepted(w, a);
      SameConfigIs(w.s, t, w.boot, w.since);
      AppliedPart(NodeRun.After(w, Append(a)).full, w.s, t);
      assert w.since + [] == w.since;
    }
  }

  lemma AppliedFrom(full: seq<LogEntry>, s: NodeState, m: NodeState, t: NodeState)
    requires m.lastApplied == s.lastApplied
    ensures Applied(full, m, t) == Applied(full, s, t)
  {
  }

  lemma NotAccepted(w: World, a: AppendEntriesArgs)
    requires Good(w) && !Accepted(w.s, a)
    ensures var t := HandleAppendEntries(w.s, a).0;
      SameConfiguration(w.s, t) && t.lastApplied == w.s.lastApplied && t.lastIncludedIndex == w.s.lastIncludedIndex
  {
    hide Good, InVotingConfig, Heed, Commit, Merged;
    HeedShape(w.s, a.term, a.leaderId);
    HeedLog(w.s, a.term, a.leaderId);
  }

  lemma HeedLog(s: NodeState, term: int, leader: int)
    ensures Heed(s, term, leader).lastIncludedTerm == s.lastIncludedTerm
  {
  }

  lemma CommitConfigures(w: World, leaderCommit: int)
    requires AtRest(w.s, w.full, w.done) && Configuration(w)
    ensures var t := Commit(w.s, leaderCommit);
      && ConfigIs(t, w.boot, w.since + Applied(w.full, w.s, t))
      && (t.configState == JOINT ==> t.lastIncludedIndex == w.s.lastIncludedIndex)
  {
    hide AtRest, ConfigIs, ApplyCommitted, Applied;
    LastIs(w.s, w.full, w.done);
    if leaderCommit > w.s.commitIndex {
      RaiseConfig(w, if leaderCommit < |w.full| then leaderCommit else |w.full|);
    } else {
      NothingApplied(w.full, w.s);
      assert w.since + [] == w.since;
    }
  }

  lemma AdvanceConfigures(w: World)
    requires Good(w) && Configuration(w)
    ensures Configures(w, NodeRun.After(w, Advance))
  {
    hide AtRest, ConfigIs, ApplyCommitted, Applied, CanCommit, SentSound, PlansSound;
    LastIs(w.s, w.full, w.done);
    if UpdateCommitIndex(w.s) != w.s {
      RaiseConfig(w, LargestCommittable(w.s, LastLogIndex(w.s)));
    } else {
      NothingApplied(w.full, w.s);
      assert w.since + [] == w.since;
    }
  }

  /** The critical sections that neither apply nor install nor restart. */
  predicate Applies(ev: Event) {
    ev.Append? || ev.Advance? || ev.Install? || ev.Crash?
  }

  ghost predicate Stays(w: World, w': World) {
    && SameConfiguration(w.s, w'.s) && w'.boot == w.boot && w'.since == w.since
    && w'.s.lastIncludedIndex == w.s.lastIncludedIndex && w'.s.commitIndex == w.s.commitIndex && w'.s.lastApplied == w.s.lastApplied
  }

  lemma RestStays(w: World, ev: Event)
    requires !Applies(ev)
    ensures Stays(w, NodeRun.After(w, ev))
  {
    hide NodeRun.After;
    if ev.Elect? || ev.TakeVote? || ev.Vote? {
      VotersStay(w, ev);
    } else if ev.TakeReply? || ev.TakeSnapshotReply? {
      RepliesStay(w, ev);
    } else {
      OwnersStay(w, ev);
    }
  }

  lemma RepliesStay(w: World, ev: Event)
    requires ev.TakeReply? || ev.TakeSnapshotReply?
    ensures Stays(w, NodeRun.After(w, ev))
  {
    hide AckOf, TakeAppendReply, TakeInstallReply;
    var x := if ev.TakeReply? then ev.x else ev.y;
    if Current(w.s, x) {
      if ev.TakeReply? && x.Entries? {
        ReplyStays(w.s, x.slot, x.a, x.asked, ev.reply);
      } else if ev.TakeSnapshotReply? {
        SnapshotReplyStays(w.s, x.slot, x.asked, ev.ack);
      }
    }
  }

  ghost predicate SameProgress(s: NodeState, t: NodeState) {
    && SameConfiguration(s, t)
    && t.lastIncludedIndex == s.lastIncludedIndex && t.commitIndex == s.commitIndex && t.lastApplied == s.lastApplied
  }

  lemma ReplyStays(s: NodeState, i: nat, a: AppendEntriesArgs, asked: int, r: AppendEntriesReply)
    requires i < |s.nextIndex| && i < |s.matchIndex|
    ensures SameProgress(s, TakeAppendReply(s, i, a, asked, r))
  {
  }

  lemma SnapshotReplyStays(s: NodeState, i: nat, asked: int, r: InstallSnapshotReply)
    requires i < |s.nextIndex| && i < |s.matchIndex|
    ensures SameProgress(s, TakeInstallReply(s, i, asked, r))
  {
  }

  lemma OwnersStay(w: World, ev: Event)
    requires ev.Own? || ev.Propose? || ev.PlanAddNode? || ev.PlanRemoveNode? || ev.Replicate? || ev.SetVoting? || ev.Committed?
    ensures Stays(w, NodeRun.After(w, ev))
  {
    hide LastLogIndex, BuildAppend, PlanAdd, PlanRemove;
  }

  lemma VotersStay(w: World, ev: Event)
    requires ev.Elect? || ev.TakeVote? || ev.Vote?
    ensures Stays(w, NodeRun.After(w, ev))
  {
    hide StartElection, CountVote, HandleRequestVote;
    match ev {
      case Elect => StandingStays(w.s);
      case TakeVote(asked, granted, voter, vote) => CountStays(w.s, asked, granted, voter, vote);
      case Vote(rv) => VoteStays(w.s, rv);
    }
  }

  lemma StandingStays(s: NodeState)
    ensures SameProgress(s, StartElection(s).0)
  {
    hide InVotingConfig, LastLogIndex, LastLogTerm;
  }

  lemma CountStays(s: NodeState, asked: int, granted: seq<int>, voter: int, r: RequestVoteReply)
    ensures SameProgress(s, CountVote(s, asked, granted, voter, r).0)
  {
    hide ElectionMajority, LastLogIndex;
  }

  lemma VoteStays(s: NodeState, a: RequestVoteArgs)
    ensures SameProgress(s, HandleRequestVote(s, a).0)
  {
    hide InVotingConfig, CandidateUpToDate;
  }

  lemma InstallStays(s: NodeState, a: InstallSnapshotArgs)
    ensures SameConfiguration(s, HandleInstallSnapshot(s, a).0)
  {
    hide Node.After, Heed;
    HeedShape(s, a.term, a.leaderId);
  }

  lemma EventConfigures(w: World, ev: Event)
    requires Good(w) && Allowed(w, ev) && Configuration(w)
    ensures Configuration(NodeRun.After(w, ev))
    ensures !ev.Install? ==> Configures(w, NodeRun.After(w, ev))
  {
    if ev.Append? {
      hide Good, ConfigIs, NodeRun.After, Plausible;
      AppendConfigures(w, ev.ae);
    } else if ev.Advance? {
      hide Good, ConfigIs, NodeRun.After;
      AdvanceConfigures(w);
    } else if ev.Install? {
      hide Good, ConfigIs, HandleInstallSnapshot, SnapshotOf;
      InstallStays(w.s, ev.snap);
      SameConfigIs(w.s, NodeRun.After(w, ev).s, w.boot, w.since);
    } else if ev.Crash? {
      hide Good, Node.After, Proper;
    } else {
      hide Good, ConfigIs, NodeRun.After, Allowed;
      RestStays(w, ev);
      SameConfigIs(w.s, NodeRun.After(w, ev).s, w.boot, w.since);
    }
  }

  lemma {:induction false} LifeConfigures(run: seq<World>, i: nat)
    requires Life(run) && i < |run|
    ensures Configuration(run[i])
  {
    hide Fresh, Follows, Configuration;
    if i == 0 {
      FreshConfigures(run[0]);
    } else {
      LifeConfigures(run, i - 1);
      LifeIsGood(run, i - 1);
      assert Follows(run[i - 1], run[i]);
      FollowsConfigures(run[i - 1], run[i]);
    }
  }

  lemma FreshConfigures(w: World)
    requires Fresh(w)
    ensures Configuration(w)
  {
    hide Proper, Node.After;
  }

  lemma FollowsConfigures(w: World, w': World)
    requires Good(w) && Follows(w, w') && Configuration(w)
    ensures Configuration(w')
  {
    hide Good, Allowed, NodeRun.After, Configuration;
    var ev :| Allowed(w, ev) && w' == NodeRun.After(w, ev);
    EventConfigures(w, ev);
  }

  /** The configuration a node decides by is the log it has applied since it started: the last final configuration,
      or its start-up file, and on top of it the last joint one that no final one has followed. */
  lemma ConfigurationIsApplied(run: seq<World>, i: nat)
    requires Life(run) && i < |run|
    ensures var s := run[i].s;
      && s.currentConfig == InForce(run[i].boot, run[i].since)
      && (s.configState == JOINT <==> UnderWay(run[i].since).Some?)
      && (s.configState == JOINT ==> s.oldConfig == UnderWay(run[i].since).value.oldConfig && s.newConfig == UnderWay(run[i].since).value.newConfig)
  {
    hide Life;
    LifeConfigures(run, i);
  }

  /** Whatever a step other than installing a snapshot does, it does not move the boundary of a node it leaves in the
      joint phase. */
  lemma JointDoesNotCompact(run: seq<World>, i: nat, ev: Event)
    requires Life(run) && i < |run| && Allowed(run[i], ev) && !ev.Install?
    ensures NodeRun.After(run[i], ev).s.configState == JOINT ==>
      NodeRun.After(run[i], ev).s.lastIncludedIndex == run[i].s.lastIncludedIndex
  {
    hide Life, Good, Allowed, NodeRun.After, Configuration;
    LifeIsGood(run, i);
    LifeConfigures(run, i);
    EventConfigures(run[i], ev);
  }

  // ---- proposals ----

  /** A proposal is decided on exactly by a leader with no joint configuration under way, and starts from the
      configuration in force: none comes between applying a joint configuration and the final one or a restart. */
  lemma ProposesInTurn(run: seq<World>, i: nat, p: PeerInfo, id: Id)
    requires Life(run) && i < |run| && p.id != NOBODY
    ensures var s, cfg, free := run[i].s, InForce(run[i].boot, run[i].since), UnderWay(run[i].since).None?;
      && (PlanAdd(s, p).Some? <==> s.role == Leader && free && p.id as Id !in Ids(cfg))
      && (PlanRemove(s, id).Some? <==> s.role == Leader && free && id in Ids(cfg) && Ids(cfg) != {id})
      && (PlanAdd(s, p).Some? ==> PlanAdd(s, p).value.0 == cfg && Ids(PlanAdd(s, p).value.1) == Ids(cfg) + {p.id as Id})
      && (PlanRemove(s, id).Some? ==> PlanRemove(s, id).value.0 == cfg && Ids(PlanRemove(s, id).value.1) == Ids(cfg) - {id})
  {
    hide Life, Good, Proper, Ids, PlanAdd, PlanRemove;
    LifeIsGood(run, i);
    ProperAt(run[i]);
    ConfigurationIsApplied(run, i);
    ProposesIff(run[i].s, p, id);
  }

  lemma {:induction false} InForceOver(boot: seq<PeerInfo>, since: seq<LogEntry>, more: seq<LogEntry>)
    ensures InForce(boot, since + more) == InForce(InForce(boot, since), more)
    ensures UnderWay(since).None? ==> UnderWay(since + more) == UnderWay(more)
    decreases |more|
  {
    if more == [] {
      assert since + more == since;
    } else {
      var init := more[..|more| - 1];
      assert (since + more)[..|since + more| - 1] == since + init;
      InForceOver(boot, since, init);
    }
  }

  /** addNode decides in one critical section and appends in another. The entry it appends starts from the
      configuration in force, with none under way, if and only if the same is true of what was applied in between. */
  lemma AppendsInTurnIff(run: seq<World>, i: nat, j: nat, plan: Plan, more: seq<LogEntry>)
    requires Life(run) && i < |run| && j < |run|
    requires (exists p :: PlanAdd(run[i].s, p) == Some(plan)) || (exists id :: PlanRemove(run[i].s, id) == Some(plan))
    requires run[j].boot == run[i].boot && run[j].since == run[i].since + more
    ensures run[j].s.configState == STABLE && run[j].s.currentConfig == plan.0
            <==> UnderWay(more).None? && InForce(plan.0, more) == plan.0
  {
    hide Life;
    ConfigurationIsApplied(run, i);
    ConfigurationIsApplied(run, j);
    InForceOver(run[i].boot, run[i].since, more);
  }

  // ---- indexes never fall ----

  ghost predicate Rises(s: NodeState, t: NodeState) {
    t.lastIncludedIndex >= s.lastIncludedIndex && t.commitIndex >= s.commitIndex && t.lastApplied >= s.lastApplied
  }

  lemma CommittedRises(s: NodeState, full: seq<LogEntry>, c: int)
    requires Represents(s, full) && 0 <= s.lastIncludedIndex <= s.lastApplied <= s.commitIndex <= c <= |full|
    ensures Rises(s, ApplyCommitted(s.(commitIndex := c)))
  {
    hide Numbered, MaybeCreateSnapshot, ApplyLoop;
    var u := s.(commitIndex := c);
    LoopEnds(u, full);
    LoopShape(u);
    SnapshotShape(ApplyLoop(u));
  }

  lemma {:induction false} LoopEnds(s: NodeState, full: seq<LogEntry>)
    requires Represents(s, full) && 0 <= s.lastIncludedIndex <= s.lastApplied <= s.commitIndex <= |full|
    ensures ApplyLoop(s).lastApplied == s.commitIndex
    decreases s.commitIndex - s.lastApplied
  {
    hide ApplyEntry, Represents;
    if s.lastApplied < s.commitIndex {
      LoopTakes(s, full);
      LoopEnds(ApplyEntry(s, full[s.lastApplied]).(lastApplied := s.lastApplied + 1), full);
    }
  }

  lemma RestsInOrder(w: World)
    requires Good(w)
    ensures 0 <= w.s.lastIncludedIndex <= w.s.lastApplied == w.s.commitIndex <= |w.full| && Represents(w.s, w.full)
  {
    hide Represents, SoundEntries, Configured, Agree, Reflects, SentSound, PlansSound;
  }

  lemma AppendRises(w: World, a: AppendEntriesArgs)
    requires Good(w) && Plausible(w.s, w.full, w.done, a)
    ensures Rises(w.s, HandleAppendEntries(w.s, a).0)
  {
    hide AtRest, Plausible, FullAfterAppend, SentSound, PlansSound, Accepted, HandleAppendEntries, ApplyCommitted;
    var s, t := w.s, HandleAppendEntries(w.s, a).0;
    if Accepted(s, a) {
      StoresGood(w, a);
      var m := Stores(w, a);
      LastIs(m.s, m.full, m.done);
      InOrderAt(m.s, m.full, m.done);
      if a.leaderCommit > m.s.commitIndex {
        CommittedRises(m.s, m.full, if a.leaderCommit < |m.full| then a.leaderCommit else |m.full|);
      }
    } else {
      NotAccepted(w, a);
      NotAcceptedCommit(w, a);
    }
  }

  lemma InOrderAt(s: NodeState, full: seq<LogEntry>, done: seq<LogEntry>)
    requires AtRest(s, full, done)
    ensures 0 <= s.lastIncludedIndex <= s.lastApplied == s.commitIndex <= |full|
  {
    hide Represents, SoundEntries, Configured, Agree, Reflects;
  }

  lemma NotAcceptedCommit(w: World, a: AppendEntriesArgs)
    requires Good(w) && !Accepted(w.s, a)
    ensures HandleAppendEntries(w.s, a).0.commitIndex == w.s.commitIndex
  {
    hide Good, InVotingConfig, Heed, Commit, Merged;
    HeedShape(w.s, a.term, a.leaderId);
    HeedLog(w.s, a.term, a.leaderId);
  }

  /** The commit index, lastApplied and the boundary never fall, whatever arrives; only a restart takes the first two
      back, to the boundary. */
  lemma IndexesRise(run: seq<World>, i: nat, ev: Event)
    requires Life(run) && i < |run| && Allowed(run[i], ev)
    ensures var s, t := run[i].s, NodeRun.After(run[i], ev).s;
      && t.lastIncludedIndex >= s.lastIncludedIndex
      && if ev.Crash? then t.commitIndex == t.lastApplied == t.lastIncludedIndex == s.lastIncludedIndex
         else t.commitIndex >= s.commitIndex && t.lastApplied >= s.lastApplied
  {
    hide Life, Good, Configured;
    LifeIsGood(run, i);
    var w := run[i];
    RestsInOrder(w);
    if ev.Append? {
      hide NodeRun.After, Plausible, HandleAppendEntries;
      AppendRises(w, ev.ae);
      AppendsTo(w, ev.ae);
    } else if ev.Advance? {
      hide Allowed, ApplyCommitted, CanCommit;
      ReadyToRise(w);
      if UpdateCommitIndex(w.s) != w.s {
        CommittedRises(w.s, w.full, LargestCommittable(w.s, LastLogIndex(w.s)));
      }
    } else if ev.Install? {
      hide Allowed, Node.After, Heed;
      HeedShape(w.s, ev.snap.term, ev.snap.leaderId);
    } else if ev.Crash? {
      hide Allowed, Node.After;
      DiskAt(w);
    } else {
      hide Allowed, NodeRun.After;
      RestStays(w, ev);
    }
  }

  lemma AppendsTo(w: World, a: AppendEntriesArgs)
    ensures NodeRun.After(w, Append(a)).s == HandleAppendEntries(w.s, a).0
  {
    hide HandleAppendEntries, FullAfterAppend;
  }

  lemma ReadyToRise(w: World)
    requires Good(w)
    ensures LastLogIndex(w.s) == |w.full|
  {
    hide AtRest, SentSound, PlansSound;
    LastIs(w.s, w.full, w.done);
  }

  lemma DiskAt(w: World)
    requires Good(w)
    ensures OnDisk(w.s)
  {
    hide Represents, SoundEntries, Configured, Agree, Reflects, SentSound, PlansSound;
  }
}
