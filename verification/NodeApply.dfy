/** The apply loop: what it computes, what it leaves alone, and what configuration entries do to a node. */
module NodeApply {
  import opened Types
  import opened Node
  import opened NodeConfig
  import opened NodeLog
  import Protocol
  import Replay

  ghost predicate SoundEntry(e: LogEntry) {
    Proper(e.oldConfig) && Proper(e.newConfig)
  }

  ghost predicate SoundEntries(log: seq<LogEntry>) {
    forall i | 0 <= i < |log| :: SoundEntry(log[i])
  }

  /** A leader tracks every peer, within the bounds of its log. */
  ghost predicate Tracks(s: NodeState) {
    s.role == Leader ==>
      && |s.nextIndex| == |s.peers| == |s.matchIndex|
      && (forall i | 0 <= i < |s.nextIndex| :: 0 <= s.nextIndex[i] <= LastLogIndex(s) + 1)
      && (forall i | 0 <= i < |s.matchIndex| :: 0 <= s.matchIndex[i] <= LastLogIndex(s))
  }

  ghost predicate Configured(s: NodeState) {
    && Proper(s.currentConfig) && Proper(s.oldConfig) && Proper(s.newConfig)
    && PeersMatch(s)
    && Tracks(s)
  }

  /** Nothing but the configuration, the role and what is applied may differ. */
  ghost predicate SameLog(s: NodeState, t: NodeState) {
    && t.id == s.id && t.term == s.term && t.votedFor == s.votedFor && t.logs == s.logs
    && t.lastIncludedIndex == s.lastIncludedIndex && t.lastIncludedTerm == s.lastIncludedTerm
    && t.commitIndex == s.commitIndex && t.snapshotThreshold == s.snapshotThreshold && t.disk == s.disk
    && (t.role == s.role || t.role == Follower)
  }

  lemma ApplyShape(s: NodeState, e: LogEntry)
    ensures SameLog(s, ApplyEntry(s, e))
  {
    hide Contains, Others, AddUnique, Rebuild;
    var t := s.(configState := JOINT, oldConfig := e.oldConfig, newConfig := e.newConfig);
    RebuildShape(t, AddUnique(AddUnique([], e.oldConfig, s.id), e.newConfig, s.id));
    var u := s.(configState := STABLE, currentConfig := e.newConfig, oldConfig := [], newConfig := []);
    RebuildShape(u, Others(e.newConfig, s.id));
  }

  lemma RebuildShape(s: NodeState, peers: seq<PeerInfo>)
    ensures var t := Rebuild(s, peers);
      t == s.(peers := peers, nextIndex := t.nextIndex, matchIndex := t.matchIndex)
  {
  }

  lemma {:induction false} LoopShape(s: NodeState)
    ensures SameLog(s, ApplyLoop(s))
    decreases s.commitIndex - s.lastApplied
  {
    hide ApplyEntry;
    match ApplyNext(s) {
      case None =>
      case Some(t) =>
        if s.lastApplied + 1 > s.lastIncludedIndex {
          ApplyShape(s, s.logs[Pos(s, s.lastApplied + 1)]);
        }
        LoopShape(t);
    }
  }

  /** Committing and compacting never touch the term, the vote or the commit index. */
  lemma CommittedShape(s: NodeState)
    ensures var t := ApplyCommitted(s);
      && t.id == s.id && t.term == s.term && t.votedFor == s.votedFor && t.commitIndex == s.commitIndex
      && (t.role == s.role || t.role == Follower)
  {
    hide ApplyLoop, LogTermAt, Node.After;
    LoopShape(s);
  }

  ghost function ApplyAll(store: map<string, string>, log: seq<LogEntry>, lo: nat, hi: nat): map<string, string>
    requires hi <= |log|
    decreases hi
  {
    if lo >= hi then store else ApplyToStore(ApplyAll(store, log, lo, hi - 1), log[hi - 1])
  }

  lemma RebuildKeeps(s: NodeState, peers: seq<PeerInfo>)
    requires LastLogIndex(s) >= 0
    ensures var t := Rebuild(s, peers);
      t == s.(peers := peers, nextIndex := t.nextIndex, matchIndex := t.matchIndex) && Tracks(t)
  {
  }

  lemma JointKeeps(s: NodeState, e: LogEntry)
    requires Configured(s) && SoundEntry(e) && LastLogIndex(s) >= 0
    ensures var t := ApplyJoint(s, e);
      SameLog(s, t) && Configured(t) && t.lastApplied == s.lastApplied && t.store == s.store
  {
    hide Contains, Rebuild, Proper;
    AddUniqueIs([], e.oldConfig, s.id);
    AddUniqueIs(AddUnique([], e.oldConfig, s.id), e.newConfig, s.id);
    var u := s.(configState := JOINT, oldConfig := e.oldConfig, newConfig := e.newConfig);
    RebuildKeeps(u, AddUnique(AddUnique([], e.oldConfig, s.id), e.newConfig, s.id));
    NobodyIn();
  }

  lemma NobodyIn()
    ensures Proper([]) && forall x :: !Contains([], x)
  {
  }

  lemma NewKeeps(s: NodeState, e: LogEntry)
    requires Configured(s) && SoundEntry(e) && LastLogIndex(s) >= 0
    ensures var t := ApplyNew(s, e);
      SameLog(s, t) && Configured(t) && t.lastApplied == s.lastApplied && t.store == s.store
  {
    hide Contains, Rebuild, Distinct;
    OthersAre(e.newConfig, s.id);
    NobodyIn();
    var u := s.(configState := STABLE, currentConfig := e.newConfig, oldConfig := [], newConfig := []);
    RebuildKeeps(u, Others(e.newConfig, s.id));
  }

  /** After any entry the peers are the members of the active configuration other than the node, each once. */
  lemma EntryPeers(s: NodeState, e: LogEntry)
    requires PeersMatch(s) && (e.op == CONFIG_NEW ==> Proper(e.newConfig))
    ensures PeersMatch(ApplyEntry(s, e))
  {
    hide Contains, Rebuild, Distinct;
    RebuildShape(s.(configState := JOINT, oldConfig := e.oldConfig, newConfig := e.newConfig),
                 AddUnique(AddUnique([], e.oldConfig, s.id), e.newConfig, s.id));
    RebuildShape(s.(configState := STABLE, currentConfig := e.newConfig, oldConfig := [], newConfig := []),
                 Others(e.newConfig, s.id));
    AddUniqueIs([], e.oldConfig, s.id);
    AddUniqueIs(AddUnique([], e.oldConfig, s.id), e.newConfig, s.id);
    OthersAre(e.newConfig, s.id);
    NobodyIn();
  }

  /** What an entry does to the configuration. */
  lemma EntryConfigs(s: NodeState, e: LogEntry)
    ensures var t := ApplyEntry(s, e);
      if e.op == CONFIG_JOINT then t.configState == JOINT && t.currentConfig == s.currentConfig
                                   && t.oldConfig == e.oldConfig && t.newConfig == e.newConfig
      else if e.op == CONFIG_NEW then t.configState == STABLE && t.currentConfig == e.newConfig && t.oldConfig == [] && t.newConfig == []
      else t.configState == s.configState && t.currentConfig == s.currentConfig && t.oldConfig == s.oldConfig && t.newConfig == s.newConfig
  {
    hide Contains, Rebuild, AddUnique, Others;
    RebuildShape(s.(configState := JOINT, oldConfig := e.oldConfig, newConfig := e.newConfig),
                 AddUnique(AddUnique([], e.oldConfig, s.id), e.newConfig, s.id));
    RebuildShape(s.(configState := STABLE, currentConfig := e.newConfig, oldConfig := [], newConfig := []),
                 Others(e.newConfig, s.id));
  }

  /** Whether the node can stand for election. */
  predicate MayStand(s: NodeState) {
    StartElection(s).1.Some?
  }

  /** A final configuration decides alone who may stand and vote. A node it leaves out gives up its role; a node it
      keeps stays in its role, a leader in its leadership. */
  lemma NewDecidesStanding(s: NodeState, e: LogEntry)
    ensures var t := ApplyNew(s, e);
      && (MayStand(t) <==> Contains(e.newConfig, s.id)) && (t.votingMember <==> Contains(e.newConfig, s.id))
      && if Contains(e.newConfig, s.id) then t.role == s.role && t.leaderId == s.leaderId
         else t.role == Follower && t.leaderId == NOBODY && t.removed && !InVotingConfig(t, s.id)
  {
    hide Contains, Rebuild, Others;
    RebuildShape(s.(configState := STABLE, currentConfig := e.newConfig, oldConfig := [], newConfig := []), Others(e.newConfig, s.id));
    assert ApplyNew(s, e).currentConfig == e.newConfig && ApplyNew(s, e).id == s.id && ApplyNew(s, e).configState == STABLE;
  }

  /** A joint configuration stops a node that is about to leave; the others stay in their role, and may stand and vote
      as before. */
  lemma JointDecidesStanding(s: NodeState, e: LogEntry)
    ensures var t := ApplyJoint(s, e);
      && t.leaderId == s.leaderId
      && if Contains(e.oldConfig, s.id) && !Contains(e.newConfig, s.id)
         then !MayStand(t) && !t.votingMember && t.role == Follower && t.leaving
         else t.role == s.role && t.votingMember == s.votingMember
              && (MayStand(t) <==> !s.removed && !s.leaving && s.votingMember && Contains(e.newConfig, s.id))
  {
    hide Contains, Rebuild, AddUnique;
    RebuildShape(s.(configState := JOINT, oldConfig := e.oldConfig, newConfig := e.newConfig),
                 AddUnique(AddUnique([], e.oldConfig, s.id), e.newConfig, s.id));
    var t := ApplyJoint(s, e);
    assert t.oldConfig == e.oldConfig && t.newConfig == e.newConfig && t.id == s.id && t.configState == JOINT;
  }

  /** What a new leader knows of its peers: nothing. */
  ghost predicate FreshBooks(s: NodeState) {
    && |s.nextIndex| == |s.peers| == |s.matchIndex|
    && (forall i | 0 <= i < |s.nextIndex| :: s.nextIndex[i] == LastLogIndex(s) + 1)
    && (forall i | 0 <= i < |s.matchIndex| :: s.matchIndex[i] == 0)
  }

  predicate IsConfig(e: LogEntry) {
    e.op == CONFIG_JOINT || e.op == CONFIG_NEW
  }

  /** A leader that takes a configuration into effect starts over: every peer is tried from the end of the log, and
      none is known to hold anything. */
  lemma ConfigResetsBooks(s: NodeState, e: LogEntry)
    requires s.role == Leader && IsConfig(e)
    ensures FreshBooks(ApplyEntry(s, e))
  {
    hide Contains, Others, AddUnique, Rebuild;
    var t := s.(configState := JOINT, oldConfig := e.oldConfig, newConfig := e.newConfig);
    RebuildResets(t, AddUnique(AddUnique([], e.oldConfig, s.id), e.newConfig, s.id));
    var u := s.(configState := STABLE, currentConfig := e.newConfig, oldConfig := [], newConfig := []);
    RebuildResets(u, Others(e.newConfig, s.id));
  }

  lemma RebuildResets(s: NodeState, peers: seq<PeerInfo>)
    requires s.role == Leader
    ensures FreshBooks(Rebuild(s, peers)) && LastLogIndex(Rebuild(s, peers)) == LastLogIndex(s)
    ensures Rebuild(s, peers).logs == s.logs && Rebuild(s, peers).lastIncludedIndex == s.lastIncludedIndex
  {
  }

  /** One entry: the store moves on by it, or the configuration does; the log and the votes stay. */
  lemma ApplyEntryKeeps(s: NodeState, e: LogEntry)
    requires Configured(s) && SoundEntry(e) && LastLogIndex(s) >= 0
    ensures var t := ApplyEntry(s, e);
      SameLog(s, t) && Configured(t) && t.lastApplied == s.lastApplied && t.store == ApplyToStore(s.store, e)
  {
    hide Contains, PeersMatch, Tracks, ApplyJoint, ApplyNew;
    if e.op == CONFIG_JOINT {
      hide Configured;
      JointKeeps(s, e);
    } else if e.op == CONFIG_NEW {
      hide Configured;
      NewKeeps(s, e);
    } else {
      SameTracking(s, s.(store := ApplyToStore(s.store, e)));
    }
  }

  lemma SameTracking(s: NodeState, t: NodeState)
    requires Configured(s)
    requires s.(store := t.store, lastApplied := t.lastApplied) == t
    ensures Configured(t)
  {
  }

  /** Under the index ordering the loop never stops early: it ends with everything committed applied, in log
      order, once each. */
  lemma {:induction false} ApplyLoopIs(s: NodeState, full: seq<LogEntry>)
    requires Represents(s, full) && SoundEntries(full) && Configured(s)
    requires s.lastIncludedIndex <= s.lastApplied <= s.commitIndex <= |full|
    ensures var t := ApplyLoop(s);
      && SameLog(s, t) && Configured(t)
      && t.lastApplied == s.commitIndex
      && t.store == ApplyAll(s.store, full, s.lastApplied, s.commitIndex)
    decreases s.commitIndex - s.lastApplied
  {
    hide Configured, SoundEntry, ApplyEntry;
    if s.lastApplied < s.commitIndex {
      CompactedAnswers(s, full, s.lastApplied);
      ApplyEntryKeeps(s, full[s.lastApplied]);
      var t := ApplyEntry(s, full[s.lastApplied]);
      var u := t.(lastApplied := s.lastApplied + 1);
      SameTracking(t, u);
      assert ApplyNext(s) == Some(u);
      ApplyLoopIs(u, full);
      ApplyAllFirst(s.store, full, s.lastApplied, s.commitIndex);
    }
  }

  lemma {:induction false} ApplyAllFirst(store: map<string, string>, log: seq<LogEntry>, lo: nat, hi: nat)
    requires lo < hi <= |log|
    ensures ApplyAll(store, log, lo, hi) == ApplyAll(ApplyToStore(store, log[lo]), log, lo + 1, hi)
    decreases hi
  {
    if lo + 1 < hi {
      ApplyAllFirst(store, log, lo, hi - 1);
    }
  }

  // ---- the loop and what it comes across ----

  /** The loop takes the next entry of the whole log, and goes on. */
  lemma LoopTakes(s: NodeState, full: seq<LogEntry>)
    requires Represents(s, full) && s.lastIncludedIndex <= s.lastApplied < s.commitIndex <= |full|
    ensures var t := ApplyEntry(s, full[s.lastApplied]).(lastApplied := s.lastApplied + 1);
      ApplyLoop(s) == ApplyLoop(t) && SameLog(s, t) && Represents(t, full)
  {
    hide ApplyEntry;
    CompactedAnswers(s, full, s.lastApplied);
    ApplyShape(s, full[s.lastApplied]);
  }

  ghost predicate HasConfig(log: seq<LogEntry>) {
    exists i | 0 <= i < |log| :: IsConfig(log[i])
  }

  ghost predicate SameArrays(s: NodeState, t: NodeState) {
    t.peers == s.peers && t.nextIndex == s.nextIndex && t.matchIndex == s.matchIndex
  }

  /** A leader's arrays change in the loop only where it comes across a configuration, and then it starts over. */
  lemma {:induction false} LoopBooks(s: NodeState, full: seq<LogEntry>)
    requires Represents(s, full) && 0 <= s.lastIncludedIndex <= s.lastApplied <= s.commitIndex <= |full|
    ensures var t := ApplyLoop(s);
      t.role == Leader ==>
        && s.role == Leader
        && (HasConfig(full[s.lastApplied..s.commitIndex]) || FreshBooks(s) ==> FreshBooks(t))
        && (HasConfig(full[s.lastApplied..s.commitIndex]) || SameArrays(s, t))
    decreases s.commitIndex - s.lastApplied
  {
    hide ApplyEntry, Represents, HasConfig, IsConfig, FreshBooks;
    HasConfigFrom(full, s.lastApplied, s.commitIndex);
    if s.lastApplied < s.commitIndex {
      var e := full[s.lastApplied];
      var t := ApplyEntry(s, e).(lastApplied := s.lastApplied + 1);
      LoopTakes(s, full);
      LoopBooks(t, full);
      EntryBooks(s, e);
    }
  }

  lemma HasConfigFrom(full: seq<LogEntry>, lo: nat, hi: nat)
    requires lo <= hi <= |full|
    ensures HasConfig(full[lo..hi]) <==> lo < hi && (IsConfig(full[lo]) || HasConfig(full[lo + 1..hi]))
  {
    hide IsConfig;
    var all := full[lo..hi];
    if lo < hi {
      var rest := full[lo + 1..hi];
      assert forall i | 0 <= i < |rest| :: rest[i] == all[i + 1];
      assert forall i | 0 < i < |all| :: all[i] == rest[i - 1];
      assert all[0] == full[lo];
    }
  }

  lemma EntryBooks(s: NodeState, e: LogEntry)
    ensures var t := ApplyEntry(s, e).(lastApplied := s.lastApplied + 1);
      s.role == Leader ==> (IsConfig(e) || FreshBooks(s) ==> FreshBooks(t)) && (IsConfig(e) || SameArrays(s, t))
  {
    if s.role == Leader && IsConfig(e) {
      hide ApplyEntry;
      ConfigResetsBooks(s, e);
    }
  }

  // ---- the store against the committed sequence ----

  /** The database has been through some prefix of `done` and is right, up to what is still to be replayed. */
  ghost predicate Reflects(store: map<string, string>, done: seq<LogEntry>, applied: int) {
    exists h :: applied <= h <= |done| && StoreAt(store, done, h, applied)
  }

  ghost predicate StoreAt(store: map<string, string>, done: seq<LogEntry>, h: int, applied: int) {
    0 <= applied <= h <= |done| && Replay.Replays(store, done[..h], applied)
  }

  lemma ApplyKeepsReflects(store: map<string, string>, done: seq<LogEntry>, applied: nat)
    requires Reflects(store, done, applied) && applied < |done|
    ensures Reflects(ApplyToStore(store, done[applied]), done, applied + 1)
  {
    hide ApplyToStore, Replay.Replays;
    var h :| applied <= h <= |done| && StoreAt(store, done, h, applied);
    if applied < h {
      Replay.ApplyKeepsReplay(store, done[..h], applied);
      assert StoreAt(ApplyToStore(store, done[applied]), done, h, applied + 1);
    } else {
      Replay.ApplyNew(store, done[..h], done[h]);
      assert done[..h] + [done[h]] == done[..h + 1];
      assert StoreAt(ApplyToStore(store, done[applied]), done, h + 1, applied + 1);
    }
  }

  lemma {:induction false} ApplyAllKeepsReflects(store: map<string, string>, done: seq<LogEntry>, lo: nat, hi: nat)
    requires Reflects(store, done, lo) && lo <= hi <= |done|
    ensures Reflects(ApplyAll(store, done, lo, hi), done, hi)
    decreases hi
  {
    hide Reflects, ApplyToStore;
    if lo < hi {
      ApplyAllKeepsReflects(store, done, lo, hi - 1);
      ApplyKeepsReflects(ApplyAll(store, done, lo, hi - 1), done, hi - 1);
    }
  }

  lemma {:induction false} ApplyAllAgrees(store: map<string, string>, a: seq<LogEntry>, b: seq<LogEntry>, lo: nat,
      hi: nat)
    requires Agree(a, b, hi)
    ensures ApplyAll(store, a, lo, hi) == ApplyAll(store, b, lo, hi)
    decreases hi
  {
    if lo < hi {
      ApplyAllAgrees(store, a, b, lo, hi - 1);
    }
  }

  lemma RewindReflects(store: map<string, string>, done: seq<LogEntry>, applied: nat, hi: nat)
    requires Reflects(store, done, applied) && hi <= applied
    ensures Reflects(store, done, hi)
  {
    var h :| applied <= h <= |done| && StoreAt(store, done, h, applied);
    Replay.RewindKeepsReplay(store, done[..h], applied, hi);
    assert StoreAt(store, done, h, hi);
  }

  lemma LongerReflects(store: map<string, string>, done: seq<LogEntry>, more: seq<LogEntry>, applied: nat)
    requires Reflects(store, done, applied) && Agree(done, more, |done|)
    ensures Reflects(store, more, applied)
  {
    var h :| applied <= h <= |done| && StoreAt(store, done, h, applied);
    assert done[..h] == more[..h];
    assert StoreAt(store, more, h, applied);
  }

  /** Nothing left to replay: the database is the fold. */
  lemma FullyReflects(store: map<string, string>, done: seq<LogEntry>)
    requires Reflects(store, done, |done|)
    ensures store == Protocol.Fold(done)
  {
    hide Protocol.Fold, Replay.Replays;
    var h :| |done| <= h <= |done| && StoreAt(store, done, h, |done|);
    assert done[..h] == done;
    Replay.CaughtUp(store, done);
  }
}
