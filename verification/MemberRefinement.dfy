/**
 A node in any phase of a membership change is a voter of the voting system: whatever it has applied, each of its
 handlers is a run of voting steps, and the configurations it decides by are those of the voter's mode.
 */
module MemberRefinement {
  import opened Types
  import opened Node
  import opened NodeConfig
  import opened NodeApply
  import opened NodeInvariant
  import opened NodeRules
  import opened NodeModes
  import E = Election
  import Membership

  // ---- the relation ----

  ghost predicate Votes(c: E.Cluster, n: Id, s: NodeState, granted: seq<int>) {
    && n in c.nodes && s.id == n
    && var v := c.nodes[n];
    && v.term == s.term && v.votedFor == s.votedFor && v.role == s.role
    && (s.role == Candidate ==> v.granted == GrantedIds(granted))
    && InMode(c, v.mode, s)
  }

  /** A leader names itself, and any other node that is named has sent a request in the term. */
  ghost predicate Led(c: E.Cluster, s: NodeState) {
    && (s.role == Leader ==> s.leaderId == s.id)
    && (s.leaderId != NOBODY && s.leaderId != s.id ==> s.term >= 0 && E.Beat(s.leaderId, s.term, s.id) in c.beats)
  }

  /** The vote and the term are on disk, and the logs hold no other change. */
  ghost predicate Stored(c: E.Cluster, s: NodeState) {
    && s.disk.term == s.term && s.disk.votedFor == s.votedFor
    && AllOfChange(c, s.logs) && AllOfChange(c, s.disk.logs)
  }

  /** Node n of the voting system is the object in state s. */
  ghost predicate Acts(c: E.Cluster, n: Id, s: NodeState, granted: seq<int>) {
    Votes(c, n, s, granted) && Seated(s) && Led(c, s) && Stored(c, s)
  }

  /** Only node n moves, and no message disappears. */
  ghost predicate OnlyVoter(c: E.Cluster, c': E.Cluster, n: Id) {
    && c'.oldCfg == c.oldCfg && c'.newCfg == c.newCfg && c'.nodes.Keys == c.nodes.Keys
    && (forall q | q in c.nodes && q != n :: c'.nodes[q] == c.nodes[q])
    && c.votes <= c'.votes && c.beats <= c'.beats
  }

  ghost predicate Path(run: seq<E.Cluster>, c: E.Cluster, c': E.Cluster) {
    && |run| > 0 && run[0] == c && run[|run| - 1] == c'
    && forall i | 0 <= i < |run| - 1 :: Membership.Next(run[i], run[i + 1])
  }

  ghost predicate Reaches(c: E.Cluster, c': E.Cluster) {
    exists run: seq<E.Cluster> :: Path(run, c, c')
  }

  lemma NoStep(c: E.Cluster)
    ensures Reaches(c, c)
  {
    assert Path([c], c, c);
  }

  lemma ThenStep(c: E.Cluster, mid: E.Cluster, c': E.Cluster, step: E.Step)
    requires Reaches(c, mid) && E.NextStep(mid, c', step)
    ensures Reaches(c, c')
  {
    hide E.NextStep;
    var run: seq<E.Cluster> :| Path(run, c, mid);
    assert Membership.Next(mid, c');
    assert Path(run + [c'], c, c');
  }

  lemma ThenReaches(a: E.Cluster, b: E.Cluster, c: E.Cluster)
    requires Reaches(a, b) && Reaches(b, c)
    ensures Reaches(a, c)
  {
    hide Membership.Next;
    var r1: seq<E.Cluster> :| Path(r1, a, b);
    var r2: seq<E.Cluster> :| Path(r2, b, c);
    var run := r1 + r2[1..];
    forall i | 0 <= i < |run| - 1
      ensures Membership.Next(run[i], run[i + 1])
    {
      if i < |r1| - 1 {
        assert run[i] == r1[i] && run[i + 1] == r1[i + 1];
      } else {
        var j := i - (|r1| - 1);
        assert run[i] == r2[j] && run[i + 1] == r2[j + 1];
      }
    }
    assert Path(run, a, c);
  }

  lemma OneStep(c: E.Cluster, c': E.Cluster, step: E.Step)
    requires E.NextStep(c, c', step)
    ensures Reaches(c, c')
  {
    hide E.NextStep;
    NoStep(c);
    ThenStep(c, c, c', step);
  }

  ghost function With(c: E.Cluster, n: Id, v: E.Voter): E.Cluster {
    c.(nodes := c.nodes[n := v])
  }

  lemma OnlyTwice(a: E.Cluster, b: E.Cluster, c: E.Cluster, n: Id)
    requires OnlyVoter(a, b, n) && OnlyVoter(b, c, n)
    ensures OnlyVoter(a, c, n)
  {
  }

  /** A node is affected by its own moves only. */
  lemma StillActs(c: E.Cluster, c': E.Cluster, n: Id, q: Id, s: NodeState, granted: seq<int>)
    requires Acts(c, q, s, granted) && OnlyVoter(c, c', n) && q != n
    ensures Acts(c', q, s, granted)
  {
    hide Proper, Ids, AllOfChange, Seated;
    SameChange(c, c', s.logs);
    SameChange(c, c', s.disk.logs);
  }

  /** What a step that does not touch the configurations has to say. */
  lemma ActsWith(c: E.Cluster, c': E.Cluster, n: Id, s: NodeState, t: NodeState, granted: seq<int>, granted': seq<int>)
    requires Acts(c, n, s, granted) && OnlyVoter(c, c', n)
    requires t.id == s.id && t.configState == s.configState && t.currentConfig == s.currentConfig
    requires t.oldConfig == s.oldConfig && t.newConfig == s.newConfig && t.peers == s.peers
    requires t.role == Follower || s.role != Follower || InVotingConfig(s, n)
    requires Stored(c, t) && Led(c', t)
    requires var v := c'.nodes[n];
      && v.term == t.term && v.votedFor == t.votedFor && v.role == t.role && v.mode == c.nodes[n].mode
      && (t.role == Candidate ==> v.granted == GrantedIds(granted'))
    ensures Acts(c', n, t, granted')
  {
    hide Proper, Ids, AllOfChange, Contains;
    SameChange(c, c', t.logs);
    SameChange(c, c', t.disk.logs);
  }

  // ---- elections ----

  lemma ElectActs(c: E.Cluster, n: Id, s: NodeState, granted: seq<int>) returns (c': E.Cluster)
    requires Acts(c, n, s, granted) && s.role != Leader
    ensures var (t, r) := StartElection(s);
      && Reaches(c, c') && OnlyVoter(c, c', n)
      && Acts(c', n, t, if r.Some? then [n] else granted)
      && (r.Some? ==> r.value.candidateId == n && r.value.term == t.term >= 0)
  {
    hide Reaches, InMode, AllOfChange, InVotingConfig, LastLogIndex, LastLogTerm;
    var (t, r) := StartElection(s);
    if r.Some? {
      var v := E.BecomeCandidate(n, c.nodes[n]);
      c' := With(c, n, v).(votes := c.votes + {E.Vote(n, v.term, n)});
      OneStep(c, c', E.Step.StartElection(n));
      GrantedOne(n, [], n);
      ActsWith(c, c', n, s, t, granted, [n]);
    } else {
      c' := c;
      NoStep(c);
      ActsWith(c, c, n, s, t, granted, granted);
    }
  }

  lemma BelongsInMode(c: E.Cluster, n: Id, s: NodeState, granted: seq<int>, id: int)
    requires Acts(c, n, s, granted) && InVotingConfig(s, id)
    ensures id != NOBODY && id as Id in c.oldCfg + c.newCfg
  {
    hide Proper, Ids, Stored, Contains, Seated;
    BelongsIs(s, id);
    BelongsMeans(s, id);
  }

  /** A vote is cast only for a node of one of the two configurations, and at most a new term is learnt otherwise. */
  lemma VoteActs(c: E.Cluster, n: Id, s: NodeState, granted: seq<int>, a: RequestVoteArgs) returns (c': E.Cluster)
    requires Acts(c, n, s, granted) && c.oldCfg + c.newCfg <= c.nodes.Keys
    ensures var (t, r) := HandleRequestVote(s, a);
      && Reaches(c, c') && OnlyVoter(c, c', n) && Acts(c', n, t, granted)
      && (r.voteGranted ==> a.term >= 0 && a.candidateId != NOBODY && E.Vote(n, a.term, a.candidateId) in c'.votes)
  {
    hide Reaches, InMode, AllOfChange, InVotingConfig, CandidateUpToDate;
    var (t, r) := HandleRequestVote(s, a);
    var v := c.nodes[n];
    if r.voteGranted {
      BelongsInMode(c, n, s, granted, a.candidateId);
      var u := if a.term > s.term then E.BecomeFollower(v, a.term) else v;
      c' := With(c, n, u.(votedFor := a.candidateId)).(votes := c.votes + {E.Vote(n, a.term, a.candidateId)});
      OneStep(c, c', E.GrantVote(n, a.candidateId, a.term));
    } else if t != s {
      c' := With(c, n, E.BecomeFollower(v, a.term));
      OneStep(c, c', E.LearnTerm(n, a.term));
    } else {
      c' := c;
      NoStep(c);
    }
    ActsWith(c, c', n, s, t, granted, granted);
  }

  lemma StepsDown(c: E.Cluster, n: Id, s: NodeState, granted: seq<int>, term: int) returns (c': E.Cluster)
    requires Acts(c, n, s, granted) && term > s.term
    ensures Reaches(c, c') && OnlyVoter(c, c', n) && Acts(c', n, BecomeFollower(s, term), granted)
  {
    hide Reaches, InMode, AllOfChange;
    c' := With(c, n, E.BecomeFollower(c.nodes[n], term));
    OneStep(c, c', E.LearnTerm(n, term));
    ActsWith(c, c', n, s, BecomeFollower(s, term), granted, granted);
  }

  lemma CountActs(c: E.Cluster, n: Id, s: NodeState, granted: seq<int>, asked: int, voter: Id, r: RequestVoteReply)
    returns (c': E.Cluster)
    requires Acts(c, n, s, granted)
    requires r.voteGranted && asked == s.term ==> E.Vote(voter, c.nodes[n].term, n) in c.votes
    ensures var (t, g, _) := CountVote(s, asked, granted, voter, r);
      Reaches(c, c') && OnlyVoter(c, c', n) && Acts(c', n, t, g)
  {
    hide Reaches, InMode, AllOfChange, ElectionMajority, LastLogIndex, E.HasElectionMajority, GrantedIds;
    if s.role == Candidate && s.term == asked && r.term > s.term {
      c' := StepsDown(c, n, s, granted, r.term);
    } else if s.role == Candidate && s.term == asked && r.voteGranted {
      var v := c.nodes[n];
      GrantedOne(n, granted, voter);
      SameElectionRule(c, v.mode, s, granted + [voter]);
      var won := E.HasElectionMajority(c, v.mode, v.granted + {voter});
      c' := With(c, n, v.(granted := v.granted + {voter}, role := if won then Leader else Candidate));
      OneStep(c, c', E.Step.CountVote(n, voter));
      ActsWith(c, c', n, s, CountVote(s, asked, granted, voter, r).0, granted, granted + [voter]);
    } else {
      c' := c;
      NoStep(c);
    }
  }

  // ---- applying ----

  lemma EntryModes(c: E.Cluster, n: Id, s: NodeState, granted: seq<int>, e: LogEntry) returns (c': E.Cluster)
    requires Acts(c, n, s, granted) && OfChange(c, e)
    ensures Reaches(c, c') && OnlyVoter(c, c', n) && Acts(c', n, ApplyEntry(s, e), granted)
  {
    hide Reaches, AllOfChange, Contains, Rebuild, AddUnique, Others, Proper, Ids, Seated;
    ApplyShape(s, e);
    var v, t := c.nodes[n], ApplyEntry(s, e);
    var mode := ModeAfter(v.mode, e);
    EntrySeats(c, v.mode, s, e);
    EntryModeIs(c, v.mode, s, e);
    EntryLed(s, e);
    var leave := t.role != s.role;
    c' := With(c, n, v.(mode := mode, role := if leave then Follower else v.role));
    OneStep(c, c', E.ChangeMode(n, mode, leave));
    SameChange(c, c', t.logs);
    SameChange(c, c', t.disk.logs);
  }

  lemma EntryLed(s: NodeState, e: LogEntry)
    ensures var t := ApplyEntry(s, e);
      (t.leaderId == s.leaderId || t.leaderId == NOBODY) && (t.role == Leader ==> t.leaderId == s.leaderId)
  {
    hide Contains, Rebuild, AddUnique, Others;
    JointDecidesStanding(s, e);
    NewDecidesStanding(s, e);
  }

  /** The apply loop changes mode once for every configuration entry it comes to. */
  lemma {:induction false} LoopModes(c: E.Cluster, n: Id, s: NodeState, granted: seq<int>) returns (c': E.Cluster)
    requires Acts(c, n, s, granted)
    ensures Reaches(c, c') && OnlyVoter(c, c', n) && Acts(c', n, ApplyLoop(s), granted)
    decreases s.commitIndex - s.lastApplied
  {
    hide Reaches, Acts, OnlyVoter, ApplyConfig;
    c' := c;
    NoStep(c);
    OnlySelf(c, n);
    match ApplyNext(s) {
      case None =>
      case Some(t) =>
        c' := NextModes(c, n, s, granted);
        var c'' := LoopModes(c', n, t, granted);
        Onward(c, c', c'', n);
        c' := c'';
    }
  }

  lemma OnlySelf(c: E.Cluster, n: Id)
    ensures OnlyVoter(c, c, n)
  {
  }

  lemma Onward(a: E.Cluster, b: E.Cluster, c: E.Cluster, n: Id)
    requires Reaches(a, b) && Reaches(b, c) && OnlyVoter(a, b, n) && OnlyVoter(b, c, n)
    ensures Reaches(a, c) && OnlyVoter(a, c, n)
  {
    hide Reaches;
    OnlyTwice(a, b, c, n);
    ThenReaches(a, b, c);
  }

  lemma NextModes(c: E.Cluster, n: Id, s: NodeState, granted: seq<int>) returns (c': E.Cluster)
    requires Acts(c, n, s, granted) && ApplyNext(s).Some?
    ensures Reaches(c, c') && OnlyVoter(c, c', n) && Acts(c', n, ApplyNext(s).value, granted)
  {
    hide Reaches, InMode, OfChange, ApplyEntry;
    var i := s.lastApplied + 1;
    if i <= s.lastIncludedIndex {
      c' := c;
      NoStep(c);
      OnlySelf(c, n);
      AppliedActs(c, n, s, granted, i);
    } else {
      c' := EntryModes(c, n, s, granted, s.logs[Pos(s, i)]);
      AppliedActs(c', n, ApplyEntry(s, s.logs[Pos(s, i)]), granted, i);
    }
  }

  lemma AppliedActs(c: E.Cluster, n: Id, t: NodeState, granted: seq<int>, i: int)
    requires Acts(c, n, t, granted)
    ensures Acts(c, n, t.(lastApplied := i), granted)
    ensures forall k :: Acts(c, n, t.(commitIndex := k), granted)
  {
    hide AllOfChange, Proper, Ids, Contains;
  }

  lemma {:induction false} AfterIsPart(logs: seq<LogEntry>, index: int)
    ensures forall e | e in Node.After(logs, index) :: e in logs
    decreases |logs|
  {
    if logs != [] {
      AfterIsPart(logs[..|logs| - 1], index);
    }
  }

  lemma CommittedActs(c: E.Cluster, n: Id, s: NodeState, granted: seq<int>) returns (c': E.Cluster)
    requires Acts(c, n, s, granted)
    ensures Reaches(c, c') && OnlyVoter(c, c', n) && Acts(c', n, ApplyCommitted(s), granted)
  {
    hide Reaches, InMode, ApplyLoop, MaybeCreateSnapshot, AllOfChange, OnlyVoter, Node.After, LogTermAt;
    c' := LoopModes(c, n, s, granted);
    var u := ApplyLoop(s);
    var t := MaybeCreateSnapshot(u);
    SnapshotShape(u);
    SnapshotIsPart(u);
    PartOfChange(c', u.logs, t.logs);
    OnlySelf(c', n);
    ActsWith(c', c', n, u, t, granted, granted);
  }

  lemma SnapshotIsPart(s: NodeState)
    ensures var t := MaybeCreateSnapshot(s);
      && (forall e | e in t.logs :: e in s.logs)
      && (t.disk == s.disk || (t.disk.term == s.term && t.disk.votedFor == s.votedFor && t.disk.logs == t.logs))
  {
    hide Node.After, LogTermAt;
    AfterIsPart(s.logs, s.lastApplied);
  }

  // ---- AppendEntries and snapshots ----

  lemma HeedActs(c: E.Cluster, n: Id, s: NodeState, granted: seq<int>, term: int, leader: int) returns (c': E.Cluster)
    requires Acts(c, n, s, granted) && term >= s.term && leader != NOBODY && E.Beat(leader, term, n) in c.beats
    ensures Reaches(c, c') && OnlyVoter(c, c', n) && Acts(c', n, Heed(s, term, leader), granted)
  {
    hide Reaches, InMode, AllOfChange;
    c' := With(c, n, E.Heed(c.nodes[n], term));
    OneStep(c, c', E.HandleBeat(n, E.Beat(leader, term, n)));
    ActsWith(c, c', n, s, Heed(s, term, leader), granted, granted);
  }

  lemma {:induction false} MergeIsPart(logs: seq<LogEntry>, boundary: int, entries: seq<LogEntry>)
    ensures forall e | e in MergeAll(logs, boundary, entries) :: e in logs || e in entries
    decreases |entries|
  {
    if entries != [] {
      MergeIsPart(logs, boundary, entries[..|entries| - 1]);
    }
  }

  lemma MergedActs(c: E.Cluster, n: Id, s: NodeState, granted: seq<int>, entries: seq<LogEntry>)
    requires Acts(c, n, s, granted) && AllOfChange(c, entries)
    ensures Acts(c, n, Merged(s, entries), granted)
  {
    hide InMode, MergeAll, Changes, OfChange;
    MergeIsPart(s.logs, s.lastIncludedIndex, entries);
    OnlySelf(c, n);
    ActsWith(c, c, n, s, Merged(s, entries), granted, granted);
  }

  lemma AppendActs(c: E.Cluster, n: Id, s: NodeState, granted: seq<int>, a: AppendEntriesArgs) returns (c': E.Cluster)
    requires Acts(c, n, s, granted) && AllOfChange(c, a.entries)
    requires a.term >= 0 && a.leaderId != NOBODY && E.Beat(a.leaderId, a.term, n) in c.beats
    ensures Reaches(c, c') && OnlyVoter(c, c', n) && Acts(c', n, HandleAppendEntries(s, a).0, granted)
  {
    hide Reaches, Acts, AllOfChange, OnlyVoter, InVotingConfig, Merged, Heed, Commit, LogTermAt, HasLogAt;
    OnlySelf(c, n);
    NoStep(c);
    c' := c;
    if InVotingConfig(s, a.leaderId) && a.term >= s.term {
      c' := HeedActs(c, n, s, granted, a.term, a.leaderId);
      var t := Heed(s, a.term, a.leaderId);
      if HandleAppendEntries(s, a).0 != t {
        EntriesStay(c, c', n, a.entries);
        MergedActs(c', n, t, granted, a.entries);
        var c'' := CommitActs(c', n, Merged(t, a.entries), granted, a.leaderCommit);
        Onward(c, c', c'', n);
        c' := c'';
      }
    }
  }

  lemma EntriesStay(c: E.Cluster, c': E.Cluster, n: Id, entries: seq<LogEntry>)
    requires AllOfChange(c, entries) && OnlyVoter(c, c', n)
    ensures AllOfChange(c', entries)
  {
    SameChange(c, c', entries);
  }

  lemma CommitActs(c: E.Cluster, n: Id, s: NodeState, granted: seq<int>, leaderCommit: int) returns (c': E.Cluster)
    requires Acts(c, n, s, granted)
    ensures Reaches(c, c') && OnlyVoter(c, c', n) && Acts(c', n, Commit(s, leaderCommit), granted)
  {
    hide Reaches, Acts, OnlyVoter, ApplyCommitted, LastLogIndex;
    OnlySelf(c, n);
    NoStep(c);
    c' := c;
    if leaderCommit > s.commitIndex {
      AppliedActs(c, n, s, granted, 0);
      c' := CommittedActs(c, n, s.(commitIndex := if leaderCommit < LastLogIndex(s) then leaderCommit else LastLogIndex(s)), granted);
    }
  }

  lemma InstallActs(c: E.Cluster, n: Id, s: NodeState, granted: seq<int>, a: InstallSnapshotArgs) returns (c': E.Cluster)
    requires Acts(c, n, s, granted)
    requires a.term >= 0 && a.leaderId != NOBODY && E.Beat(a.leaderId, a.term, n) in c.beats
    ensures Reaches(c, c') && OnlyVoter(c, c', n) && Acts(c', n, HandleInstallSnapshot(s, a).0, granted)
  {
    hide Reaches, AllOfChange, OnlyVoter, Heed, Node.After, InMode;
    OnlySelf(c, n);
    NoStep(c);
    c' := c;
    if a.term >= s.term {
      c' := HeedActs(c, n, s, granted, a.term, a.leaderId);
      var t := Heed(s, a.term, a.leaderId);
      if a.lastIncludedIndex > t.lastIncludedIndex {
        AfterIsPart(t.logs, a.lastIncludedIndex);
        PartOfChange(c', t.logs, Node.After(t.logs, a.lastIncludedIndex));
        OnlySelf(c', n);
        ActsWith(c', c', n, t, HandleInstallSnapshot(s, a).0, granted, granted);
      }
    }
  }

  // ---- the leader's side, and restarts ----

  lemma OwnActs(c: E.Cluster, n: Id, s: NodeState, granted: seq<int>, e: LogEntry)
    requires Acts(c, n, s, granted) && OfChange(c, e)
    ensures Acts(c, n, AppendOwn(s, e.op, e.key, e.value, e.oldConfig, e.newConfig), granted)
  {
    hide InMode, Proper, Ids;
    OnlySelf(c, n);
    ActsWith(c, c, n, s, AppendOwn(s, e.op, e.key, e.value, e.oldConfig, e.newConfig), granted, granted);
  }

  lemma ReplyActs(c: E.Cluster, n: Id, s: NodeState, granted: seq<int>, i: nat, a: AppendEntriesArgs, asked: int,
      r: AppendEntriesReply)
    returns (c': E.Cluster)
    requires Acts(c, n, s, granted) && i < |s.nextIndex| && i < |s.matchIndex|
    ensures Reaches(c, c') && OnlyVoter(c, c', n) && Acts(c', n, TakeAppendReply(s, i, a, asked, r), granted)
  {
    hide Reaches, InMode, AllOfChange;
    if s.role == Leader && s.term == asked && r.term > s.term {
      c' := StepsDown(c, n, s, granted, r.term);
    } else {
      c' := c;
      NoStep(c);
      ActsWith(c, c, n, s, TakeAppendReply(s, i, a, asked, r), granted, granted);
    }
  }

  lemma InstallReplyActs(c: E.Cluster, n: Id, s: NodeState, granted: seq<int>, i: nat, asked: int, r: InstallSnapshotReply)
    returns (c': E.Cluster)
    requires Acts(c, n, s, granted) && i < |s.nextIndex| && i < |s.matchIndex|
    ensures Reaches(c, c') && OnlyVoter(c, c', n) && Acts(c', n, TakeInstallReply(s, i, asked, r), granted)
  {
    hide Reaches, InMode, AllOfChange;
    if s.role == Leader && s.term == asked && r.term > s.term {
      c' := StepsDown(c, n, s, granted, r.term);
    } else {
      c' := c;
      NoStep(c);
      ActsWith(c, c, n, s, TakeInstallReply(s, i, asked, r), granted, granted);
    }
  }

  lemma BeatReplyActs(c: E.Cluster, n: Id, s: NodeState, granted: seq<int>, asked: int, count: nat, r: AppendEntriesReply)
    returns (c': E.Cluster)
    requires Acts(c, n, s, granted)
    ensures Reaches(c, c') && OnlyVoter(c, c', n) && Acts(c', n, TakeBeatReply(s, asked, count, r).0, granted)
  {
    hide Reaches, Acts, OnlyVoter, BecomeFollower;
    if r.term > s.term {
      c' := StepsDown(c, n, s, granted, r.term);
    } else {
      c' := c;
      NoStep(c);
      OnlySelf(c, n);
    }
  }

  lemma AdvanceActs(c: E.Cluster, n: Id, s: NodeState, granted: seq<int>) returns (c': E.Cluster)
    requires Acts(c, n, s, granted)
    ensures Reaches(c, c') && OnlyVoter(c, c', n) && Acts(c', n, UpdateCommitIndex(s), granted)
  {
    hide Reaches, Acts, OnlyVoter, ApplyCommitted, CanCommit;
    c' := c;
    NoStep(c);
    OnlySelf(c, n);
    if UpdateCommitIndex(s) != s {
      AppliedActs(c, n, s, granted, 0);
      c' := CommittedActs(c, n, s.(commitIndex := LargestCommittable(s, LastLogIndex(s))), granted);
    }
  }

  lemma VotingActs(c: E.Cluster, n: Id, s: NodeState, granted: seq<int>, voting: bool)
    requires Acts(c, n, s, granted)
    ensures Acts(c, n, s.(votingMember := voting), granted)
  {
    hide InMode, AllOfChange;
    OnlySelf(c, n);
    ActsWith(c, c, n, s, s.(votingMember := voting), granted, granted);
  }

  /** A restart takes the term, the vote and the log from the disk, and the configuration from the start-up file. */
  lemma RestartActs(c: E.Cluster, n: Id, s: NodeState, granted: seq<int>, store: map<string, string>,
      address: (string, int), others: seq<PeerInfo>)
    returns (c': E.Cluster)
    requires Acts(c, n, s, granted) && Lists(c, [PeerInfo(n, address.0, address.1)] + others)
    ensures Reaches(c, c') && OnlyVoter(c, c', n) && Acts(c', n, Restart(s.(store := store), address, others), [])
  {
    hide Reaches, AllOfChange, Node.After, Proper, Ids, Contains;
    var t := Restart(s.(store := store), address, others);
    var mode := if Ids(t.currentConfig) == c.oldCfg then E.OldStable else E.NewStable;
    c' := With(c, n, c.nodes[n].(role := Follower, granted := {}, mode := mode));
    OneStep(c, c', E.Step.Restart(n, mode));
    AfterIsPart(s.disk.logs, s.disk.lastIncludedIndex);
    PartOfChange(c, s.disk.logs, t.logs);
    RestartConfigured(s.(store := store), address, others);
    SameChange(c, c', t.logs);
    SameChange(c, c', t.disk.logs);
    NobodyIn();
  }
}
