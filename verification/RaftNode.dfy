/** The node object: its fields, and its handlers as they run, one critical section each. */
module Raft {
  import opened Types
  import Node
  import opened KvStore

  /** ClusterConfig::contains. */
  method ConfigContains(cfg: seq<PeerInfo>, id: int) returns (found: bool)
    ensures found <==> Node.Contains(cfg, id)
  {
    for i := 0 to |cfg|
      invariant forall j | 0 <= j < i :: cfg[j].id != id
    {
      if cfg[i].id == id {
        return true;
      }
    }
    return false;
  }

  method HasMajorityInConfigByIds(cfg: seq<PeerInfo>, granted: seq<int>) returns (majority: bool)
    ensures majority <==> Node.MajorityByIds(cfg, granted)
  {
    var count := 0;
    for i := 0 to |cfg|
      invariant count == Node.CountIf(cfg[..i], Node.GrantedTest(granted))
    {
      assert cfg[..i + 1][..i] == cfg[..i];
      if cfg[i].id in granted {
        count := count + 1;
      }
    }
    assert cfg[..|cfg|] == cfg;
    majority := count > |cfg| / 2;
  }

  /** The loop that copies the entries a snapshot does not cover. */
  method Remaining(logs: seq<LogEntry>, index: int) returns (rest: seq<LogEntry>)
    ensures rest == Node.After(logs, index)
  {
    rest := [];
    for i := 0 to |logs|
      invariant rest == Node.After(logs[..i], index)
    {
      assert logs[..i + 1][..i] == logs[..i];
      if logs[i].index > index {
        rest := rest + [logs[i]];
      }
    }
    assert logs[..|logs|] == logs;
  }

  method AllBut(cfg: seq<PeerInfo>, id: int) returns (rest: seq<PeerInfo>)
    ensures rest == Node.Others(cfg, id)
  {
    rest := [];
    for i := 0 to |cfg|
      invariant rest == Node.Others(cfg[..i], id)
    {
      assert cfg[..i + 1][..i] == cfg[..i];
      if cfg[i].id != id {
        rest := rest + [cfg[i]];
      }
    }
    assert cfg[..|cfg|] == cfg;
  }

  class RaftNode {
    const id: Id
    const snapshotThreshold: int
    const kvStore: KVStore

    var currentTerm: int
    var votedFor: int
    var logs: seq<LogEntry>
    var commitIndex: int
    var lastApplied: int
    var role: Role
    var leaderId: int
    var peers: seq<PeerInfo>
    var nextIndex: seq<int>
    var matchIndex: seq<int>
    var lastIncludedIndex: int
    var lastIncludedTerm: int
    var configState: Node.ConfigState
    var currentConfig: seq<PeerInfo>
    var oldConfig: seq<PeerInfo>
    var newConfig: seq<PeerInfo>
    var votingMember: bool
    var removed: bool
    var leaving: bool
    var storage: Node.Saved

    ghost function View(): Node.NodeState
      reads this, kvStore
    {
      Node.NodeState(id, currentTerm, votedFor, logs, commitIndex, lastApplied, role, leaderId, peers, nextIndex,
                matchIndex, lastIncludedIndex, lastIncludedTerm, snapshotThreshold, configState, currentConfig,
                oldConfig, newConfig, votingMember, removed, leaving, kvStore.db, storage)
    }

    /** Construction, loadPersistentState and setPeers. */
    constructor (id: Id, ip: string, port: int, peers: seq<PeerInfo>, threshold: int, kvStore: KVStore, saved: Node.Saved)
      ensures View() == Node.Boot(id, (ip, port), peers, threshold, kvStore.db, saved)
      ensures this.kvStore == kvStore
    {
      this.id, this.snapshotThreshold, this.kvStore := id, threshold, kvStore;
      role, leaderId := Follower, NOBODY;
      nextIndex, matchIndex := [], [];
      votingMember, removed, leaving := true, false, false;
      configState, oldConfig, newConfig := Node.STABLE, [], [];
      storage := saved;
      currentTerm, votedFor := saved.term, saved.votedFor;
      lastIncludedIndex, lastIncludedTerm := saved.lastIncludedIndex, saved.lastIncludedTerm;
      commitIndex, lastApplied := saved.lastIncludedIndex, saved.lastIncludedIndex;
      this.peers := peers;
      currentConfig := [PeerInfo(id, ip, port)] + peers;
      new;
      logs := Remaining(saved.logs, lastIncludedIndex);
    }

    // ---- reading the log ----

    function GetLastLogIndex(): int
      reads this
    {
      if logs == [] then lastIncludedIndex else logs[|logs| - 1].index
    }

    function GetLastLogTerm(): int
      reads this
    {
      if logs == [] then lastIncludedTerm else logs[|logs| - 1].term
    }

    function LogIndexToPos(index: int): int
      reads this
    {
      index - lastIncludedIndex - 1
    }

    function GetLogTermAt(index: int): int
      reads this
    {
      if index == 0 then 0
      else if index == lastIncludedIndex then lastIncludedTerm
      else
        var pos := LogIndexToPos(index);
        if pos < 0 || pos >= |logs| then -1 else logs[pos].term
    }

    function HasLogAt(index: int): bool
      reads this
    {
      index == lastIncludedIndex || (LogIndexToPos(index) >= 0 && LogIndexToPos(index) < |logs|)
    }

    // ---- configurations ----

    method IsNodeInCurrentVotingConfig(nodeId: int) returns (found: bool)
      ensures found <==> Node.InVotingConfig(View(), nodeId)
    {
      if configState == Node.STABLE {
        found := ConfigContains(currentConfig, nodeId);
      } else {
        found := ConfigContains(oldConfig, nodeId);
        if !found {
          found := ConfigContains(newConfig, nodeId);
        }
      }
    }

    method HasElectionMajority(granted: seq<int>) returns (majority: bool)
      ensures majority <==> Node.ElectionMajority(View(), granted)
    {
      if configState == Node.STABLE {
        majority := HasMajorityInConfigByIds(currentConfig, granted);
      } else {
        majority := HasMajorityInConfigByIds(oldConfig, granted);
        if majority {
          majority := HasMajorityInConfigByIds(newConfig, granted);
        }
      }
    }

    method FindPeerIndexById(nodeId: int) returns (index: int)
      ensures index == Node.PeerIndex(peers, nodeId)
    {
      for i := 0 to |peers|
        invariant forall j | 0 <= j < i :: peers[j].id != nodeId
      {
        if peers[i].id == nodeId {
          return i;
        }
      }
      return -1;
    }

    method IsMajorityInConfig(cfg: seq<PeerInfo>, logIndex: int) returns (majority: bool)
      ensures majority <==> Node.MajorityInConfig(View(), cfg, logIndex)
    {
      var count := 0;
      for i := 0 to |cfg|
        invariant count == Node.CountIf(cfg[..i], Node.HoldsTest(View(), logIndex))
      {
        assert cfg[..i + 1][..i] == cfg[..i];
        if cfg[i].id == id {
          if GetLastLogIndex() >= logIndex {
            count := count + 1;
          }
        } else {
          var peerIdx := FindPeerIndexById(cfg[i].id);
          if peerIdx >= 0 && peerIdx < |matchIndex| && matchIndex[peerIdx] >= logIndex {
            count := count + 1;
          }
        }
      }
      assert cfg[..|cfg|] == cfg;
      majority := count > |cfg| / 2;
    }

    method IsMajorityMatchedForEntry(entry: LogEntry) returns (majority: bool)
      ensures majority <==> Node.MajorityMatched(View(), entry)
    {
      if entry.op == CONFIG_JOINT {
        majority := IsMajorityInConfig(entry.oldConfig, entry.index);
        if majority {
          majority := IsMajorityInConfig(entry.newConfig, entry.index);
        }
      } else if configState == Node.JOINT {
        majority := IsMajorityInConfig(oldConfig, entry.index);
        if majority {
          majority := IsMajorityInConfig(newConfig, entry.index);
        }
      } else {
        majority := IsMajorityInConfig(currentConfig, entry.index);
      }
    }

    method SetVotingMember(voting: bool)
      modifies this`votingMember
      ensures View() == old(View()).(votingMember := voting)
    {
      votingMember := voting;
    }

    // ---- roles ----

    method Persist()
      modifies this`storage
      ensures View() == Node.Persist(old(View()))
    {
      storage := Node.Saved(currentTerm, votedFor, lastIncludedIndex, lastIncludedTerm, logs);
    }

    method SetRole(newRole: Role, leader: int)
      modifies this`role, this`leaderId
      ensures View() == old(View()).(role := newRole, leaderId := leader)
    {
      role := newRole;
      leaderId := leader;
    }

    method BecomeFollower(newTerm: int)
      modifies this
      ensures View() == Node.BecomeFollower(old(View()), newTerm)
    {
      SetRole(Follower, NOBODY);
      currentTerm := newTerm;
      votedFor := NOBODY;
      Persist();
    }

    method InitLeaderState()
      modifies this`nextIndex, this`matchIndex
      ensures View() == Node.InitLeaderState(old(View()))
    {
      var lastIndex := GetLastLogIndex();
      nextIndex := seq(|peers|, _ => lastIndex + 1);
      matchIndex := seq(|peers|, _ => 0);
      assert nextIndex == Node.InitLeaderState(old(View())).nextIndex;
    }

    method BecomeCandidate()
      modifies this
      ensures View() == Node.BecomeCandidate(old(View()))
    {
      SetRole(Candidate, NOBODY);
      currentTerm := currentTerm + 1;
      votedFor := id;
      Persist();
    }

    method BecomeLeader()
      modifies this
      ensures View() == Node.BecomeLeader(old(View()))
    {
      SetRole(Leader, id);
      InitLeaderState();
    }

    method StartElection() returns (request: Option<RequestVoteArgs>)
      modifies this
      ensures (View(), request) == Node.StartElection(old(View()))
    {
      if removed || leaving || !votingMember {
        return None;
      }
      var known := IsNodeInCurrentVotingConfig(id);
      if !known {
        votingMember := false;
        return None;
      }
      BecomeCandidate();
      request := Some(RequestVoteArgs(currentTerm, id, GetLastLogIndex(), GetLastLogTerm()));
    }

    method CountVote(asked: int, granted: seq<int>, voter: int, reply: RequestVoteReply) returns (granted': seq<int>,
        done: bool)
      modifies this
      ensures (View(), granted', done) == Node.CountVote(old(View()), asked, granted, voter, reply)
    {
      granted' := granted;
      if role != Candidate || currentTerm != asked {
        return granted', true;
      }
      if reply.term > currentTerm {
        BecomeFollower(reply.term);
        return granted', true;
      }
      done := false;
      if reply.voteGranted {
        granted' := granted' + [voter];
        var won := HasElectionMajority(granted');
        if won {
          BecomeLeader();
          done := true;
        }
      }
    }

    method HandleRequestVote(a: RequestVoteArgs) returns (reply: RequestVoteReply)
      modifies this
      ensures (View(), reply) == Node.HandleRequestVote(old(View()), a)
    {
      reply := RequestVoteReply(currentTerm, false);
      if !votingMember {
        return;
      }
      var known := IsNodeInCurrentVotingConfig(a.candidateId);
      if !known {
        return;
      }
      if a.term < currentTerm {
        return;
      }
      if a.term > currentTerm {
        BecomeFollower(a.term);
      }
      var canVote := votedFor == NOBODY || votedFor == a.candidateId;
      var logOk := if a.lastLogTerm != GetLastLogTerm() then a.lastLogTerm > GetLastLogTerm()
                   else a.lastLogIndex >= GetLastLogIndex();
      if canVote && logOk {
        votedFor := a.candidateId;
        reply := RequestVoteReply(currentTerm, true);
        Persist();
      }
    }

    // ---- applying ----

    method RebuildPeersFromCurrentConfig()
      modifies this`peers, this`nextIndex, this`matchIndex
      ensures View() == Node.Rebuild(old(View()), Node.Others(currentConfig, id))
    {
      peers := AllBut(currentConfig, id);
      if role == Leader {
        InitLeaderState();
      }
    }

    /** Appends the members of one configuration that are neither this node nor listed already. */
    method AddPeers(cfg: seq<PeerInfo>)
      modifies this`peers
      ensures peers == Node.AddUnique(old(peers), cfg, id)
    {
      for i := 0 to |cfg|
        invariant peers == Node.AddUnique(old(peers), cfg[..i], id)
      {
        assert cfg[..i + 1][..i] == cfg[..i];
        if cfg[i].id != id {
          var listed := ConfigContains(peers, cfg[i].id);
          if !listed {
            peers := peers + [cfg[i]];
          }
        }
      }
      assert cfg[..|cfg|] == cfg;
    }

    method RebuildPeersFromJointConfig()
      modifies this`peers, this`nextIndex, this`matchIndex
      ensures View() == Node.Rebuild(old(View()), Node.AddUnique(Node.AddUnique([], oldConfig, id), newConfig, id))
    {
      peers := [];
      AddPeers(oldConfig);
      AddPeers(newConfig);
      if role == Leader {
        InitLeaderState();
      }
    }

    method ApplyConfigEntry(entry: LogEntry)
      modifies this
      ensures View() == Node.ApplyConfig(old(View()), entry)
    {
      if entry.op == CONFIG_JOINT {
        ApplyConfigJoint(entry);
      } else if entry.op == CONFIG_NEW {
        ApplyConfigNew(entry);
      }
    }

    method SetConfig(state: Node.ConfigState, current: seq<PeerInfo>, oldCfg: seq<PeerInfo>, newCfg: seq<PeerInfo>)
      modifies this`configState, this`currentConfig, this`oldConfig, this`newConfig
      ensures View() == old(View()).(configState := state, currentConfig := current, oldConfig := oldCfg, newConfig := newCfg)
    {
      configState := state;
      currentConfig := current;
      oldConfig := oldCfg;
      newConfig := newCfg;
    }

    method SetMembership(voting: bool, isLeaving: bool, isRemoved: bool)
      modifies this`votingMember, this`leaving, this`removed
      ensures View() == old(View()).(votingMember := voting, leaving := isLeaving, removed := isRemoved)
    {
      votingMember := voting;
      leaving := isLeaving;
      removed := isRemoved;
    }

    method ApplyConfigJoint(entry: LogEntry)
      modifies this
      ensures View() == Node.ApplyJoint(old(View()), entry)
    {
      hide Node.Rebuild, Node.AddUnique;
      SetConfig(Node.JOINT, currentConfig, entry.oldConfig, entry.newConfig);
      RebuildPeersFromJointConfig();
      var inOld := ConfigContains(oldConfig, id);
      var inNew := ConfigContains(newConfig, id);
      if inOld && !inNew {
        SetMembership(false, true, removed);
        role := Follower;
      }
    }

    method ApplyConfigNew(entry: LogEntry)
      modifies this
      ensures View() == Node.ApplyNew(old(View()), entry)
    {
      hide Node.Rebuild, Node.Others;
      SetConfig(Node.STABLE, entry.newConfig, [], []);
      RebuildPeersFromCurrentConfig();
      var member := ConfigContains(currentConfig, id);
      if member {
        SetMembership(true, false, false);
      } else {
        SetMembership(false, false, true);
        SetRole(Follower, NOBODY);
      }
    }

    method ApplyCommittedLogs()
      modifies this, kvStore
      ensures View() == Node.ApplyCommitted(old(View()))
    {
      hide Node.ApplyConfig, ApplyToStore, Node.MaybeCreateSnapshot, Node.ApplyLoop;
      while lastApplied < commitIndex
        invariant Node.ApplyLoop(View()) == Node.ApplyLoop(old(View()))
        decreases commitIndex - lastApplied
      {
        Node.LoopUnfolds(View());
        var nextApplyIndex := lastApplied + 1;
        if nextApplyIndex <= lastIncludedIndex {
          lastApplied := nextApplyIndex;
          continue;
        }
        var pos := LogIndexToPos(nextApplyIndex);
        if pos < 0 || pos >= |logs| {
          break;
        }
        var entry := logs[pos];
        if entry.op == CONFIG_JOINT || entry.op == CONFIG_NEW {
          ApplyConfigEntry(entry);
        } else {
          kvStore.Apply(entry);
        }
        lastApplied := nextApplyIndex;
      }
      Node.LoopUnfolds(View());
      MaybeCreateSnapshot();
    }

    method MaybeCreateSnapshot()
      modifies this
      ensures View() == Node.MaybeCreateSnapshot(old(View()))
    {
      if configState == Node.JOINT {
        return;
      }
      if lastApplied - lastIncludedIndex >= snapshotThreshold {
        CreateSnapshot(lastApplied);
      }
    }

    method CreateSnapshot(uptoIndex: int)
      modifies this
      ensures View() == Node.CreateSnapshot(old(View()), uptoIndex)
    {
      if uptoIndex <= lastIncludedIndex || uptoIndex > lastApplied || configState == Node.JOINT {
        return;
      }
      var term := GetLogTermAt(uptoIndex);
      if term < 0 {
        return;
      }
      DiscardThrough(uptoIndex, term);
      Persist();
    }

    /** Moves the snapshot boundary and drops the entries it covers. */
    method DiscardThrough(index: int, term: int)
      modifies this`logs, this`lastIncludedIndex, this`lastIncludedTerm
      ensures View() == old(View()).(logs := Node.After(old(logs), index), lastIncludedIndex := index, lastIncludedTerm := term)
    {
      logs := Remaining(logs, index);
      lastIncludedIndex := index;
      lastIncludedTerm := term;
    }

    // ---- the follower's side ----

    method HandleAppendEntries(a: AppendEntriesArgs) returns (reply: AppendEntriesReply)
      modifies this, kvStore
      ensures (View(), reply) == Node.HandleAppendEntries(old(View()), a)
    {
      hide Node.Merged, Node.Commit, Node.InVotingConfig, Node.BecomeFollower;
      reply := AppendEntriesReply(currentTerm, false);
      var known := IsNodeInCurrentVotingConfig(a.leaderId);
      if !known {
        return;
      }
      if a.term < currentTerm {
        return;
      }
      if a.term > currentTerm || role != Follower {
        BecomeFollower(a.term);
      }
      leaderId := a.leaderId;
      if a.prevLogIndex < lastIncludedIndex {
        reply := AppendEntriesReply(currentTerm, true);
        return;
      }
      if !HasLogAt(a.prevLogIndex) || GetLogTermAt(a.prevLogIndex) != a.prevLogTerm {
        return;
      }
      MergeEntries(a.entries);
      CommitUpTo(a.leaderCommit);
      reply := AppendEntriesReply(currentTerm, true);
    }

    method CommitUpTo(leaderCommit: int)
      modifies this, kvStore
      ensures View() == Node.Commit(old(View()), leaderCommit)
    {
      hide Node.ApplyCommitted;
      if leaderCommit > commitIndex {
        commitIndex := if leaderCommit < GetLastLogIndex() then leaderCommit else GetLastLogIndex();
        ApplyCommittedLogs();
      }
    }

    /** Truncates at an entry whose term differs, appends what is missing, leaves the rest alone. */
    method MergeEntries(entries: seq<LogEntry>)
      modifies this
      ensures View() == Node.Merged(old(View()), entries)
    {
      var logChanged := false;
      for i := 0 to |entries|
        invariant View() == old(View()).(logs := logs)
        invariant logs == Node.MergeAll(old(logs), lastIncludedIndex, entries[..i])
        invariant logChanged == Node.Changes(old(logs), lastIncludedIndex, entries[..i])
        invariant !logChanged ==> logs == old(logs)
      {
        assert entries[..i + 1][..i] == entries[..i];
        var newEntry := entries[i];
        if newEntry.index <= lastIncludedIndex {
          continue;
        }
        var localPos := LogIndexToPos(newEntry.index);
        if localPos < |logs| {
          if logs[localPos].term != newEntry.term {
            assert (logs[..localPos] + [newEntry])[localPos] != logs[localPos];
            logs := logs[..localPos];
            logs := logs + [newEntry];
            logChanged := true;
          }
        } else {
          assert |logs + [newEntry]| != |logs|;
          logs := logs + [newEntry];
          logChanged := true;
        }
      }
      assert entries[..|entries|] == entries;
      if logChanged {
        Persist();
      }
    }

    // ---- the leader's side ----

    /** The part that leaderPut, leaderDelete, the read no-op and both configuration appends share. */
    method AppendEntry(op: CommandType, key: string, value: string, oldCfg: seq<PeerInfo>,
        newCfg: seq<PeerInfo>) returns (accepted: bool)
      modifies this
      ensures accepted <==> old(role) == Leader
      ensures View() == if accepted then Node.AppendOwn(old(View()), op, key, value, oldCfg, newCfg) else old(View())
    {
      if role != Leader {
        return false;
      }
      var newIndex := GetLastLogIndex() + 1;
      logs := logs + [LogEntry(currentTerm, newIndex, op, key, value, oldCfg, newCfg)];
      Persist();
      return true;
    }

    method PlanAddNode(p: PeerInfo) returns (plan: Option<(seq<PeerInfo>, seq<PeerInfo>)>)
      ensures plan == Node.PlanAdd(View(), p)
    {
      if role != Leader || configState != Node.STABLE {
        return None;
      }
      var known := ConfigContains(currentConfig, p.id);
      if known {
        return None;
      }
      plan := Some((currentConfig, currentConfig + [p]));
    }

    method PlanRemoveNode(nodeId: int) returns (plan: Option<(seq<PeerInfo>, seq<PeerInfo>)>)
      ensures plan == Node.PlanRemove(View(), nodeId)
    {
      if role != Leader || configState != Node.STABLE {
        return None;
      }
      var known := ConfigContains(currentConfig, nodeId);
      if !known {
        return None;
      }
      var newCfg := AllBut(currentConfig, nodeId);
      plan := if newCfg == [] then None else Some((currentConfig, newCfg));
    }

    method BuildAppendFor(next: int) returns (a: AppendEntriesArgs)
      ensures a == Node.BuildAppend(View(), next)
    {
      var entries: seq<LogEntry> := [];
      var index := next;
      while index <= GetLastLogIndex()
        invariant index >= next
        invariant index <= GetLastLogIndex() + 1 || index == next
        invariant entries == Node.EntriesBetween(View(), next, index - 1)
      {
        var pos := LogIndexToPos(index);
        if pos >= 0 && pos < |logs| {
          entries := entries + [logs[pos]];
        }
        index := index + 1;
      }
      a := AppendEntriesArgs(currentTerm, id, next - 1, GetLogTermAt(next - 1), entries, commitIndex);
      if next > GetLastLogIndex() + 1 {
        assert entries == Node.EntriesBetween(View(), next, GetLastLogIndex());
      }
    }

    method TakeAppendReply(peerIdx: nat, a: AppendEntriesArgs, asked: int, reply: AppendEntriesReply)
      requires peerIdx < |nextIndex| && peerIdx < |matchIndex|
      modifies this
      ensures View() == Node.TakeAppendReply(old(View()), peerIdx, a, asked, reply)
    {
      if role != Leader || currentTerm != asked {
        return;
      }
      if reply.term > currentTerm {
        BecomeFollower(reply.term);
        return;
      }
      if reply.success {
        var lastSentIndex := a.prevLogIndex + |a.entries|;
        matchIndex := matchIndex[peerIdx := if matchIndex[peerIdx] >= lastSentIndex then matchIndex[peerIdx] else lastSentIndex];
        nextIndex := nextIndex[peerIdx := matchIndex[peerIdx] + 1];
      } else {
        if nextIndex[peerIdx] > lastIncludedIndex + 1 {
          nextIndex := nextIndex[peerIdx := nextIndex[peerIdx] - 1];
        } else {
          nextIndex := nextIndex[peerIdx := lastIncludedIndex];
        }
      }
    }

    method UpdateCommitIndex()
      modifies this, kvStore
      ensures View() == Node.UpdateCommitIndex(old(View()))
    {
      hide Node.ApplyCommitted, Node.CanCommit;
      if role != Leader {
        return;
      }
      var n := GetLastLogIndex();
      while n > commitIndex
        invariant View() == old(View())
        invariant Node.LargestCommittable(old(View()), GetLastLogIndex()) == Node.LargestCommittable(old(View()), n)
        decreases n - commitIndex
      {
        var matched := IsCommittable(n);
        if matched {
          commitIndex := n;
          ApplyCommittedLogs();
          return;
        }
        n := n - 1;
      }
    }

    /** The tests of one turn of the loop above. */
    method IsCommittable(n: int) returns (matched: bool)
      ensures matched <==> Node.CanCommit(View(), n)
    {
      hide Node.MajorityMatched;
      var pos := LogIndexToPos(n);
      if GetLogTermAt(n) != currentTerm || pos < 0 || pos >= |logs| {
        return false;
      }
      matched := IsMajorityMatchedForEntry(logs[pos]);
    }

    // ---- reads: the locked sections of linearizableGet ----

    method IsTermCommitted() returns (yes: bool)
      ensures yes <==> Node.TermCommitted(View())
    {
      if role != Leader {
        return false;
      }
      yes := commitIndex > lastIncludedIndex && GetLogTermAt(commitIndex) == currentTerm;
    }

    method IsNoopCommitted(noop: int) returns (yes: bool)
      ensures yes <==> Node.NoopCommitted(View(), noop)
    {
      yes := commitIndex >= noop && GetLogTermAt(commitIndex) == currentTerm;
    }

    method TakeReadIndex(asked: int) returns (readIndex: Option<int>)
      ensures readIndex == if Node.Leads(View(), asked) then Some(commitIndex) else None
    {
      if role != Leader || currentTerm != asked {
        return None;
      }
      readIndex := Some(commitIndex);
    }

    method BuildReadHeartbeat(asked: int) returns (a: Option<AppendEntriesArgs>)
      ensures a == if Node.Leads(View(), asked) then Some(Node.BuildReadBeat(View())) else None
    {
      if role != Leader || currentTerm != asked {
        return None;
      }
      a := Some(AppendEntriesArgs(currentTerm, id, GetLastLogIndex(), GetLastLogTerm(), [], commitIndex));
    }

    method TakeBeatReply(asked: int, successCount: nat, reply: AppendEntriesReply) returns (count: Option<nat>)
      modifies this
      ensures (View(), count) == Node.TakeBeatReply(old(View()), asked, successCount, reply)
    {
      if reply.term > currentTerm {
        BecomeFollower(reply.term);
        return None;
      }
      if role != Leader || currentTerm != asked {
        return None;
      }
      count := Some(if reply.success then successCount + 1 else successCount);
    }

    /** One turn of the wait loop: None while it has to go on. */
    method HasAppliedTo(readIndex: int, asked: int) returns (done: Option<bool>)
      ensures done == if !Node.Leads(View(), asked) then Some(false) else if lastApplied >= readIndex then Some(true) else None
    {
      if role != Leader || currentTerm != asked {
        return Some(false);
      }
      done := if lastApplied >= readIndex then Some(true) else None;
    }

    method FinishRead(asked: int, key: string) returns (result: Node.ReadResult)
      ensures result == Node.FinishRead(View(), asked, key)
    {
      if role != Leader || currentTerm != asked {
        return Node.NotLeader;
      }
      var found, value := kvStore.Get(key);
      result := if found then Node.Found(value) else Node.NoKey;
    }

    // ---- snapshots ----

    method BuildInstallRequest() returns (a: InstallSnapshotArgs)
      ensures a == Node.BuildInstall(View())
    {
      var data := kvStore.Dump();
      a := InstallSnapshotArgs(currentTerm, id, lastIncludedIndex, lastIncludedTerm, data);
    }

    method HandleInstallSnapshot(a: InstallSnapshotArgs) returns (reply: InstallSnapshotReply)
      modifies this, kvStore
      ensures (View(), reply) == Node.HandleInstallSnapshot(old(View()), a)
    {
      hide Node.After, Node.BecomeFollower;
      reply := InstallSnapshotReply(currentTerm);
      if a.term < currentTerm {
        return;
      }
      if a.term > currentTerm || role != Follower {
        BecomeFollower(a.term);
      }
      leaderId := a.leaderId;
      reply := InstallSnapshotReply(currentTerm);
      if a.lastIncludedIndex <= lastIncludedIndex {
        return;
      }
      kvStore.LoadFromSnapshot(a.kvData);
      DiscardThrough(a.lastIncludedIndex, a.lastIncludedTerm);
      SkipToBoundary();
      Persist();
    }

    /** What the snapshot covers counts as committed and applied. */
    method SkipToBoundary()
      modifies this`commitIndex, this`lastApplied
      ensures View() == old(View()).(
        commitIndex := if old(commitIndex) >= lastIncludedIndex then old(commitIndex) else lastIncludedIndex,
        lastApplied := if old(lastApplied) >= lastIncludedIndex then old(lastApplied) else lastIncludedIndex)
    {
      commitIndex := if commitIndex >= lastIncludedIndex then commitIndex else lastIncludedIndex;
      lastApplied := if lastApplied >= lastIncludedIndex then lastApplied else lastIncludedIndex;
    }

    method TakeInstallReply(peerIdx: nat, asked: int, reply: InstallSnapshotReply)
      requires peerIdx < |nextIndex| && peerIdx < |matchIndex|
      modifies this
      ensures View() == Node.TakeInstallReply(old(View()), peerIdx, asked, reply)
    {
      if role != Leader || currentTerm != asked {
        return;
      }
      if reply.term > currentTerm {
        BecomeFollower(reply.term);
        return;
      }
      matchIndex := matchIndex[peerIdx := if matchIndex[peerIdx] >= lastIncludedIndex then matchIndex[peerIdx] else lastIncludedIndex];
      nextIndex := nextIndex[peerIdx := lastIncludedIndex + 1];
    }
  }
}
