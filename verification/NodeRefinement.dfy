/**
 The handlers of one node are steps of the protocol. Whatever it has compacted, and whichever configuration it has come
 to, a node looks to the cluster like the replica of its whole log; each critical section then is one protocol step,
 followed by one ApplyOne step for every entry it applies and one ChangeMode step for every configuration among them.
 */
module NodeRefinement {
  import opened Types
  import opened Quorum
  import opened Node
  import opened NodeConfig
  import opened NodeLog
  import opened NodeApply
  import opened NodeInvariant
  import opened NodeRules
  import opened NodeModes
  import opened Protocol
  import E = Election
  import Merging
  import Invariant
  import Safety
  import CommitProof
  import StoreProof

  // ---- the relation ----

  ghost predicate SameBooks(m: map<Id, int>, peers: seq<PeerInfo>, xs: seq<int>) {
    && |xs| == |peers|
    && m.Keys == Ids(peers)
    && forall i | 0 <= i < |peers| && peers[i].id != NOBODY :: peers[i].id as Id in m && m[peers[i].id as Id] == xs[i]
  }

  ghost predicate SameVoter(v: E.Voter, s: NodeState, granted: seq<int>) {
    && v.term == s.term && v.votedFor == s.votedFor && v.role == s.role
    && (s.role == Candidate ==> v.granted == GrantedIds(granted))
  }

  ghost predicate SameReplica(r: Replica, s: NodeState, full: seq<LogEntry>) {
    && r.log == full && r.commit == s.commitIndex && r.applied == s.lastApplied && r.boundary == s.lastIncludedIndex && r.store == s.store
    && (s.role == Leader ==> SameBooks(r.next, s.peers, s.nextIndex) && SameBooks(r.matched, s.peers, s.matchIndex))
  }

  /** The configurations the node decides by are those of its mode. */
  ghost predicate SameConfig(sys: Sys, n: Id, s: NodeState) {
    && s.id == n && n in sys.e.nodes && InMode(sys.e, sys.e.nodes[n].mode, s) && Seated(s)
    && E.Active(sys.e, E.Joint) <= sys.e.nodes.Keys
  }

  /** Node `n` of the cluster is the object in state `s`. */
  ghost predicate Plays(sys: Sys, n: Id, s: NodeState, full: seq<LogEntry>, granted: seq<int>) {
    Runs(sys, n, s, full, granted) && s.lastApplied == s.commitIndex
  }

  /** The same in the middle of its apply loop. */
  ghost predicate Runs(sys: Sys, n: Id, s: NodeState, full: seq<LogEntry>, granted: seq<int>) {
    && n in sys.e.nodes && n in sys.reps
    && SameVoter(sys.e.nodes[n], s, granted)
    && SameReplica(sys.reps[n], s, full)
    && SameConfig(sys, n, s)
    && Represents(s, full) && AllOfChange(sys.e, full) && Ordered(s, full)
    && OnDisk(s)
  }

  ghost predicate SameSides(c: E.Cluster, c': E.Cluster) {
    c'.oldCfg == c.oldCfg && c'.newCfg == c.newCfg && c'.nodes.Keys == c.nodes.Keys
  }

  /** Nothing else in the cluster changes but what node n does to its own calls, and no message disappears. */
  ghost predicate OnlyActor(sys: Sys, sys': Sys, n: Id) {
    && SameSides(sys.e, sys'.e) && sys'.reps.Keys == sys.reps.Keys
    && (forall q | q in sys.e.nodes && q != n :: sys'.e.nodes[q] == sys.e.nodes[q])
    && (forall q | q in sys.reps && q != n :: sys'.reps[q] == sys.reps[q])
    && sys.net <= sys'.net
  }

  ghost predicate OnlyNode(sys: Sys, sys': Sys, n: Id) {
    OnlyActor(sys, sys', n) && sys'.calls == sys.calls
  }

  ghost predicate Reaches(sys: Sys, sys': Sys) {
    exists run: seq<Sys> :: Path(run, sys, sys')
  }

  ghost predicate Path(run: seq<Sys>, sys: Sys, sys': Sys) {
    && |run| > 0 && run[0] == sys && run[|run| - 1] == sys'
    && forall i | 0 <= i < |run| - 1 :: Next(run[i], run[i + 1])
  }

  lemma OneStep(sys: Sys, sys': Sys, step: Step)
    requires NextStep(sys, sys', step)
    ensures Reaches(sys, sys')
  {
    hide NextStep;
    assert Next(sys, sys');
    assert Path([sys, sys'], sys, sys');
  }

  lemma ThenStep(sys: Sys, mid: Sys, sys': Sys, step: Step)
    requires Reaches(sys, mid) && NextStep(mid, sys', step)
    ensures Reaches(sys, sys')
  {
    hide NextStep;
    var run: seq<Sys> :| Path(run, sys, mid);
    assert Next(mid, sys');
    assert Path(run + [sys'], sys, sys');
  }

  lemma NoStep(sys: Sys)
    ensures Reaches(sys, sys)
  {
    assert Path([sys], sys, sys);
  }

  lemma ThenReaches(a: Sys, b: Sys, c: Sys)
    requires Reaches(a, b) && Reaches(b, c)
    ensures Reaches(a, c)
  {
    hide Next;
    var r1: seq<Sys> :| Path(r1, a, b);
    var r2: seq<Sys> :| Path(r2, b, c);
    var run := r1 + r2[1..];
    forall i | 0 <= i < |run| - 1
      ensures Next(run[i], run[i + 1])
    {
      if i < |r1| - 1 {
        assert run[i] == r1[i] && run[i + 1] == r1[i + 1];
      } else {
        var j := i - (|r1| - 1);
        assert run[i] == r2[j] && run[i + 1] == r2[j + 1];
      }
    }
    assert Path(run, a, c);
  }

  // ---- configurations ----

  lemma Members(sys: Sys, n: Id, s: NodeState, id: Id)
    requires SameConfig(sys, n, s)
    ensures InVotingConfig(s, id) <==> id in E.Active(sys.e, sys.e.nodes[n].mode)
    ensures Ids(s.peers) == E.Active(sys.e, sys.e.nodes[n].mode) - {n} && Proper(s.peers)
    ensures E.Active(sys.e, sys.e.nodes[n].mode) <= sys.e.nodes.Keys
  {
    hide Proper, Contains, Ids, InVotingConfig, InMode;
    var mode := sys.e.nodes[n].mode;
    forall x: Id
      ensures x in Ids(s.peers) <==> x in E.Active(sys.e, mode) - {n}
    {
      InIds(s.peers, x);
      ActiveIs(sys.e, mode, s, x);
    }
    ActiveIs(sys.e, mode, s, id);
    PeersAreProper(sys.e, mode, s);
  }

  lemma PeersAreProper(c: E.Cluster, mode: E.Mode, s: NodeState)
    requires InMode(c, mode, s) && PeersMatch(s)
    ensures Proper(s.peers)
  {
    hide InMode, InVotingConfig, E.Active;
    forall i | 0 <= i < |s.peers|
      ensures s.peers[i].id != NOBODY
    {
      assert Contains(s.peers, s.peers[i].id);
      ActiveIs(c, mode, s, s.peers[i].id);
    }
  }

  lemma SameHolders(sys: Sys, n: Id, s: NodeState, full: seq<LogEntry>, granted: seq<int>, k: int)
    requires Plays(sys, n, s, full, granted) && s.role == Leader
    ensures Matching(s, k) == Holders(sys.reps[n], n, sys.e.nodes.Keys, k)
  {
    hide PeerIndex, Represents, AllOfChange, PeersMatch, Proper, InMode, InVotingConfig, Contains;
    LastOf(s, full);
    Members(sys, n, s, n);
    PeersDistinct(s);
    forall q: Id
      ensures q in Matching(s, k) <==> q in Holders(sys.reps[n], n, sys.e.nodes.Keys, k)
    {
      HeldByPeer(sys.reps[n].matched, s, q, k);
    }
  }

  lemma HeldByPeer(m: map<Id, int>, s: NodeState, q: Id, k: int)
    requires SameBooks(m, s.peers, s.matchIndex) && Proper(s.peers)
    ensures (exists i | 0 <= i < |s.peers| && i < |s.matchIndex| :: s.peers[i].id == q && s.matchIndex[i] >= k) <==> q in m && m[q] >= k
  {
    InIds(s.peers, q);
  }

  lemma PeersDistinct(s: NodeState)
    requires PeersMatch(s)
    ensures Distinct(s.peers)
  {
  }

  /** Only the log and the boundary decide which whole log a node stands for. */
  lemma StillRepresents(s: NodeState, t: NodeState, full: seq<LogEntry>)
    requires Represents(s, full)
    requires t.logs == s.logs && t.lastIncludedIndex == s.lastIncludedIndex && t.lastIncludedTerm == s.lastIncludedTerm
    ensures Represents(t, full)
  {
  }

  lemma LastOf(s: NodeState, full: seq<LogEntry>)
    requires Represents(s, full)
    ensures LastLogIndex(s) == |full| && LastLogTerm(s) == LastTerm(full)
  {
    CompactedAnswers(s, full, s.lastIncludedIndex);
  }

  /** The commit rule of the node is the commit rule of the protocol, by the configurations the node is at, or by both for
      a joint entry. */
  lemma SameCommitRule(sys: Sys, n: Id, s: NodeState, full: seq<LogEntry>, granted: seq<int>, k: int)
    requires Plays(sys, n, s, full, granted) && s.role == Leader && k > s.commitIndex
    ensures CanCommit(s, k) <==> Committable(sys.reps[n], n, sys.e, sys.e.nodes[n].mode, s.term, k)
  {
    hide MajorityInConfig, Holders, Matching, PeersMatch, SameBooks, Proper, Majority, Contains, Ids, InVotingConfig;
    if k <= |full| {
      SameHolders(sys, n, s, full, granted, k);
      CompactedAnswers(s, full, k);
      var e := full[k - 1];
      assert s.logs[Pos(s, k)] == e && e.index == k;
      assert e in full && OfChange(sys.e, e);
      MatchingMakesMajority(s, s.currentConfig, k);
      MatchingMakesMajority(s, s.oldConfig, k);
      MatchingMakesMajority(s, s.newConfig, k);
      if e.op == CONFIG_JOINT {
        MatchingMakesMajority(s, e.oldConfig, k);
        MatchingMakesMajority(s, e.newConfig, k);
      }
    }
  }

  // ---- applying ----

  lemma SnapshotStands(s: NodeState, full: seq<LogEntry>)
    requires Represents(s, full) && s.lastApplied <= |full|
    ensures Represents(MaybeCreateSnapshot(s), full)
  {
    hide Represents, CreateSnapshot;
    SnapshotOnFull(s, full, s.lastApplied);
  }

  ghost function WithReplica(sys: Sys, n: Id, r: Replica): Sys {
    sys.(reps := sys.reps[n := r])
  }

  lemma OnlyNodeTwice(a: Sys, b: Sys, c: Sys, n: Id)
    requires OnlyNode(a, b, n) && OnlyNode(b, c, n)
    ensures OnlyNode(a, c, n)
  {
  }

  /** Applying up to k is k - applied steps of the protocol. */
  lemma {:induction false} ApplySteps(sys: Sys, n: Id, k: nat) returns (sys': Sys)
    requires n in sys.e.nodes && n in sys.reps
    requires sys.reps[n].applied <= k <= sys.reps[n].commit <= |sys.reps[n].log|
    ensures var r := sys.reps[n];
      && sys' == WithReplica(sys, n, r.(applied := k, store := ApplyAll(r.store, r.log, r.applied, k)))
      && Reaches(sys, sys')
    decreases k
  {
    hide Reaches, ApplyToStore;
    var r := sys.reps[n];
    if r.applied == k {
      assert sys.reps[n := r] == sys.reps;
      sys' := sys;
      NoStep(sys);
    } else {
      var mid := ApplySteps(sys, n, k - 1);
      sys' := WithReplica(sys, n, r.(applied := k, store := ApplyAll(r.store, r.log, r.applied, k)));
      assert sys'.reps == mid.reps[n := sys'.reps[n]];
      ApplyOneStep(mid, sys', n);
      ThenStep(sys, mid, sys', ApplyOne(n));
    }
  }

  lemma ApplyOneStep(sys: Sys, sys': Sys, n: Id)
    requires n in sys.e.nodes && n in sys.reps
    requires sys.reps[n].applied < sys.reps[n].commit && sys.reps[n].applied < |sys.reps[n].log|
    requires var r := sys.reps[n];
      sys' == WithReplica(sys, n, r.(applied := r.applied + 1, store := ApplyToStore(r.store, r.log[r.applied])))
    ensures NextStep(sys, sys', ApplyOne(n))
  {
    hide ApplyToStore;
  }

  // ---- the loop, with the configurations it comes across ----

  ghost function Changed(sys: Sys, n: Id, mode: E.Mode, leave: bool): Sys
    requires n in sys.e.nodes && n in sys.reps
  {
    var v := sys.e.nodes[n];
    sys.(e := WithVoter(sys.e, n, v.(mode := mode, role := if leave then Follower else v.role)),
         reps := if v.role == Leader then sys.reps[n := NewLeader(sys.reps[n], E.Active(sys.e, mode) - {n})] else sys.reps)
  }

  lemma ChangePermitted(sys: Sys, n: Id, mode: E.Mode, leave: bool)
    requires n in sys.e.nodes && n in sys.reps
    ensures NextStep(sys, Changed(sys, n, mode, leave), ChangeMode(n, mode, leave))
    ensures OnlyNode(sys, Changed(sys, n, mode, leave), n) && Changed(sys, n, mode, leave).net == sys.net
  {
    hide NewLeader;
  }

  /** Where the protocol is after an entry: one applied, and for a configuration one change of mode. */
  ghost function AfterEntry(sys: Sys, n: Id, s: NodeState, e: LogEntry): Sys
    requires n in sys.e.nodes && n in sys.reps
  {
    var r := sys.reps[n];
    var mid := WithReplica(sys, n, r.(applied := r.applied + 1, store := ApplyToStore(r.store, e)));
    if IsConfig(e) then Changed(mid, n, ModeAfter(sys.e.nodes[n].mode, e), ApplyEntry(s, e).role != s.role) else mid
  }

  lemma EntryPermitted(sys: Sys, n: Id, s: NodeState, e: LogEntry)
    requires n in sys.e.nodes && n in sys.reps
    requires var r := sys.reps[n]; r.applied < r.commit && r.applied < |r.log| && e == r.log[r.applied]
    ensures var sys' := AfterEntry(sys, n, s, e);
      Reaches(sys, sys') && OnlyNode(sys, sys', n) && sys'.net == sys.net
  {
    hide ApplyToStore, ApplyEntry, NextStep, Changed, Reaches, IsConfig;
    var r := sys.reps[n];
    var mid := WithReplica(sys, n, r.(applied := r.applied + 1, store := ApplyToStore(r.store, e)));
    ApplyOneStep(sys, mid, n);
    OneStep(sys, mid, ApplyOne(n));
    if IsConfig(e) {
      var mode, leave := ModeAfter(sys.e.nodes[n].mode, e), ApplyEntry(s, e).role != s.role;
      ChangePermitted(mid, n, mode, leave);
      ThenStep(sys, mid, Changed(mid, n, mode, leave), ChangeMode(n, mode, leave));
    }
  }

  /** One turn of the apply loop. */
  lemma EntryRuns(sys: Sys, n: Id, s: NodeState, full: seq<LogEntry>, granted: seq<int>)
    requires Runs(sys, n, s, full, granted) && s.lastApplied < s.commitIndex
    ensures var e := full[s.lastApplied];
      Runs(AfterEntry(sys, n, s, e), n, ApplyEntry(s, e).(lastApplied := s.lastApplied + 1), full, granted)
  {
    hide ApplyEntry, AllOfChange, InMode, Seated, SameBooks, FreshBooks, ApplyToStore, Represents;
    var e := full[s.lastApplied];
    assert e in full;
    var sys', t := AfterEntry(sys, n, s, e), ApplyEntry(s, e).(lastApplied := s.lastApplied + 1);
    LoopTakes(s, full);
    ApplyShape(s, e);
    EntryStore(s, e);
    SameChange(sys.e, sys'.e, full);
    EntryConfigured(sys, sys', n, s, full, e);
    EntryBooks(s, e);
    if t.role == Leader && IsConfig(e) {
      FreshBooksAre(sys', n, t, full, sys.reps[n].(applied := sys.reps[n].applied + 1, store := ApplyToStore(sys.reps[n].store, e)));
    }
  }

  lemma EntryStore(s: NodeState, e: LogEntry)
    ensures ApplyEntry(s, e).store == ApplyToStore(s.store, e)
    ensures !IsConfig(e) ==> ApplyEntry(s, e).role == s.role
  {
    hide Contains, Others, AddUnique, Rebuild;
    var t := s.(configState := JOINT, oldConfig := e.oldConfig, newConfig := e.newConfig);
    RebuildShape(t, AddUnique(AddUnique([], e.oldConfig, s.id), e.newConfig, s.id));
    var u := s.(configState := STABLE, currentConfig := e.newConfig, oldConfig := [], newConfig := []);
    RebuildShape(u, Others(e.newConfig, s.id));
  }

  lemma EntryConfigured(sys: Sys, sys': Sys, n: Id, s: NodeState, full: seq<LogEntry>, e: LogEntry)
    requires SameConfig(sys, n, s) && AllOfChange(sys.e, full) && e in full && SameSides(sys.e, sys'.e)
    requires sys'.e.nodes[n].mode == ModeAfter(sys.e.nodes[n].mode, e)
    ensures SameConfig(sys', n, ApplyEntry(s, e).(lastApplied := s.lastApplied + 1))
  {
    hide ApplyEntry, Proper, Ids, Contains, PeersMatch;
    assert OfChange(sys.e, e);
    EntrySeats(sys.e, sys.e.nodes[n].mode, s, e);
    EntryModeIs(sys.e, sys.e.nodes[n].mode, s, e);
    ApplyShape(s, e);
    SamePeers(ApplyEntry(s, e), ApplyEntry(s, e).(lastApplied := s.lastApplied + 1));
  }

  lemma SamePeers(s: NodeState, t: NodeState)
    requires PeersMatch(s) && SameMembership(s, t)
    ensures PeersMatch(t)
  {
  }

  /** The apply loop takes the protocol through every entry it comes to. */
  lemma {:induction false} LoopRuns(sys: Sys, n: Id, s: NodeState, full: seq<LogEntry>, granted: seq<int>)
    returns (sys': Sys)
    requires Runs(sys, n, s, full, granted)
    ensures Reaches(sys, sys') && OnlyNode(sys, sys', n) && sys'.net == sys.net
    ensures Plays(sys', n, ApplyLoop(s), full, granted)
    decreases s.commitIndex - s.lastApplied
  {
    hide Reaches, OnlyNode, Runs, ApplyEntry, AfterEntry, Represents;
    PlaysHere(sys, n, s, full, granted);
    if s.lastApplied == s.commitIndex {
      sys' := sys;
      NoStep(sys);
      OnlySelf(sys, n);
    } else {
      var e := full[s.lastApplied];
      var mid := AfterEntry(sys, n, s, e);
      var t := ApplyEntry(s, e).(lastApplied := s.lastApplied + 1);
      EntryRuns(sys, n, s, full, granted);
      EntryPermitted(sys, n, s, e);
      LoopTakes(s, full);
      sys' := LoopRuns(mid, n, t, full, granted);
      ThenReaches(sys, mid, sys');
      OnlyNodeTwice(sys, mid, sys', n);
    }
  }

  lemma OnlySelf(sys: Sys, n: Id)
    ensures OnlyNode(sys, sys, n)
  {
  }

  /** Applying all that is committed, and compacting. */
  lemma CommittedRuns(sys: Sys, n: Id, s: NodeState, full: seq<LogEntry>, granted: seq<int>) returns (sys': Sys)
    requires Runs(sys, n, s, full, granted)
    ensures Reaches(sys, sys') && OnlyNode(sys, sys', n) && sys'.net == sys.net
    ensures Plays(sys', n, ApplyCommitted(s), full, granted)
  {
    hide Reaches, OnlyNode, Plays, Runs, ApplyLoop, MaybeCreateSnapshot;
    var mid := LoopRuns(sys, n, s, full, granted);
    sys' := CompactRefines(mid, n, ApplyLoop(s), full, granted);
    ThenReaches(sys, mid, sys');
    OnlyNodeTwice(sys, mid, sys', n);
  }

  /** Creating a snapshot is Compact; where none is due it is nothing. */
  lemma CompactRefines(sys: Sys, n: Id, s: NodeState, full: seq<LogEntry>, granted: seq<int>) returns (sys': Sys)
    requires Plays(sys, n, s, full, granted)
    ensures Reaches(sys, sys') && OnlyNode(sys, sys', n) && sys'.net == sys.net
    ensures Plays(sys', n, MaybeCreateSnapshot(s), full, granted)
  {
    hide Reaches, OnlyNode, Plays, MaybeCreateSnapshot;
    PlaysHere(sys, n, s, full, granted);
    SnapshotShape(s);
    CompactedPlays(sys, n, s, full, granted);
    sys' := Compacted(sys, n, MaybeCreateSnapshot(s).lastIncludedIndex);
    if sys'.reps[n].boundary == sys.reps[n].boundary {
      assert sys' == sys;
      NoStep(sys);
      OnlySelf(sys, n);
    } else {
      CompactPermitted(sys, n, s, full, granted);
      OneStep(sys, sys', Step.Compact(n));
    }
  }

  ghost function Compacted(sys: Sys, n: Id, boundary: nat): Sys
    requires n in sys.reps
  {
    WithReplica(sys, n, sys.reps[n].(boundary := boundary))
  }

  lemma CompactPermitted(sys: Sys, n: Id, s: NodeState, full: seq<LogEntry>, granted: seq<int>)
    requires Plays(sys, n, s, full, granted)
    ensures s.lastApplied >= 0 && n in sys.reps
    ensures var sys' := Compacted(sys, n, s.lastApplied);
      NextStep(sys, sys', Step.Compact(n)) && OnlyNode(sys, sys', n)
  {
    hide AllOfChange, InMode, Seated, SameBooks, Represents;
  }

  lemma CompactedPlays(sys: Sys, n: Id, s: NodeState, full: seq<LogEntry>, granted: seq<int>)
    requires Plays(sys, n, s, full, granted)
    ensures n in sys.reps && MaybeCreateSnapshot(s).lastIncludedIndex >= 0
    ensures var t := MaybeCreateSnapshot(s);
      Plays(Compacted(sys, n, t.lastIncludedIndex), n, t, full, granted)
  {
    hide Represents, AllOfChange, InMode, Seated, SameBooks, MaybeCreateSnapshot;
    var t := MaybeCreateSnapshot(s);
    SnapshotStands(s, full);
    SnapshotShape(s);
    ConfigStays(sys, Compacted(sys, n, t.lastIncludedIndex), n, s, t);
  }

  ghost predicate SameMembership(s: NodeState, t: NodeState) {
    && t.id == s.id && t.configState == s.configState && t.currentConfig == s.currentConfig
    && t.oldConfig == s.oldConfig && t.newConfig == s.newConfig && t.peers == s.peers
  }

  lemma ConfigStays(sys: Sys, sys': Sys, n: Id, s: NodeState, t: NodeState)
    requires SameConfig(sys, n, s) && SameMembership(s, t) && SameSides(sys.e, sys'.e)
    requires sys'.e.nodes[n].mode == sys.e.nodes[n].mode
    requires t.role == Follower || s.role != Follower || InVotingConfig(s, n)
    ensures SameConfig(sys', n, t)
    ensures forall log | AllOfChange(sys.e, log) :: AllOfChange(sys'.e, log)
  {
    hide Proper, Contains, Ids, AllOfChange, PeersMatch;
    SamePeers(s, t);
    forall log | AllOfChange(sys.e, log)
      ensures AllOfChange(sys'.e, log)
    {
      SameChange(sys.e, sys'.e, log);
    }
  }

  // ---- elections ----

  ghost function WithVoter(e: E.Cluster, n: Id, v: E.Voter): E.Cluster {
    e.(nodes := e.nodes[n := v])
  }

  ghost function AfterStanding(sys: Sys, n: Id, log: seq<LogEntry>): Sys
    requires n in sys.e.nodes
  {
    var v := E.BecomeCandidate(n, sys.e.nodes[n]);
    Sys(WithVoter(sys.e, n, v).(votes := sys.e.votes + {E.Vote(n, v.term, n)}), sys.reps,
        sys.net + {RequestVote(n, v.term, |log|, LastTerm(log))}, sys.calls)
  }

  lemma StandPermitted(sys: Sys, n: Id)
    requires n in sys.e.nodes && n in sys.reps && sys.e.nodes[n].role != Leader
    ensures var sys' := AfterStanding(sys, n, sys.reps[n].log);
      NextStep(sys, sys', Step.StartElection(n)) && OnlyNode(sys, sys', n)
  {
  }

  /** A node that may not stand stays what it is to the cluster. */
  lemma StartElectionRefines(sys: Sys, n: Id, s: NodeState, full: seq<LogEntry>, granted: seq<int>) returns (sys': Sys)
    requires Plays(sys, n, s, full, granted) && s.role != Leader
    ensures var (t, r) := Node.StartElection(s);
      && Reaches(sys, sys') && OnlyNode(sys, sys', n)
      && Plays(sys', n, t, full, if r.Some? then [n] else granted)
      && (r.Some? ==>
            && r == Some(RequestVoteArgs(t.term, n, |full|, LastTerm(full)))
            && t.term >= 0 && RequestVote(n, t.term, |full|, LastTerm(full)) in sys'.net)
  {
    hide Reaches, AllOfChange, InMode, Seated, SameBooks, Represents, InVotingConfig, LastLogIndex, LastLogTerm;
    if Node.StartElection(s).1.Some? {
      sys' := AfterStanding(sys, n, full);
      StandPermitted(sys, n);
      OneStep(sys, sys', Step.StartElection(n));
      GrantedOne(n, [], n);
      StillRepresents(s, Node.StartElection(s).0, full);
      ConfigStays(sys, sys', n, s, Node.StartElection(s).0);
      LastOf(BecomeCandidate(s), full);
    } else {
      sys' := sys;
      NoStep(sys);
      StillRepresents(s, Node.StartElection(s).0, full);
      ConfigStays(sys, sys, n, s, Node.StartElection(s).0);
    }
  }

  ghost function AfterVote(sys: Sys, n: Id, m: Message): Sys
    requires n in sys.e.nodes && n in sys.reps && m.RequestVote?
  {
    var v := sys.e.nodes[n];
    var u := if m.term > v.term then E.BecomeFollower(v, m.term) else v;
    var grant := Grants(v, sys.reps[n].log, m.cand, m.term, m.lastIndex, m.lastTerm);
    var e := if grant then WithVoter(sys.e, n, u.(votedFor := m.cand)).(votes := sys.e.votes + {E.Vote(n, m.term, m.cand)})
             else if m.term > v.term then WithVoter(sys.e, n, u) else sys.e;
    Sys(e, sys.reps, sys.net + {VoteReply(n, m.cand, m.term, if grant then m.term else v.term, grant)}, sys.calls)
  }

  lemma VotePermitted(sys: Sys, n: Id, m: Message)
    requires n in sys.e.nodes && n in sys.reps
    requires m in sys.net && m.RequestVote? && m.cand != n && m.cand in sys.e.nodes
    ensures NextStep(sys, AfterVote(sys, n, m), HandleVote(n, m))
    ensures OnlyNode(sys, AfterVote(sys, n, m), n)
  {
    hide UpToDate;
  }

  ghost function AfterIgnoredVote(sys: Sys, n: Id, m: Message): Sys
    requires n in sys.e.nodes && m.RequestVote?
  {
    sys.(net := sys.net + {VoteReply(n, m.cand, m.term, sys.e.nodes[n].term, false)})
  }

  lemma IgnoreVotePermitted(sys: Sys, n: Id, m: Message)
    requires n in sys.e.nodes && n in sys.reps && m in sys.net && m.RequestVote?
    ensures NextStep(sys, AfterIgnoredVote(sys, n, m), IgnoreVote(n, m))
    ensures OnlyNode(sys, AfterIgnoredVote(sys, n, m), n)
  {
  }

  /** The vote handler, refusals included: a node that does not vote, or does not know the candidate as a member, does
      nothing else. */
  lemma RequestVoteRefines(sys: Sys, n: Id, s: NodeState, full: seq<LogEntry>, granted: seq<int>,
      m: Message) returns (sys': Sys)
    requires Plays(sys, n, s, full, granted)
    requires m in sys.net && m.RequestVote? && m.cand != n && m.cand in sys.e.nodes
    ensures var (t, r) := HandleRequestVote(s, RequestVoteArgs(m.term, m.cand, m.lastIndex, m.lastTerm));
      && Reaches(sys, sys') && OnlyNode(sys, sys', n)
      && Plays(sys', n, t, full, granted)
      && r.term >= 0 && VoteReply(n, m.cand, m.term, r.term, r.voteGranted) in sys'.net
  {
    hide Reaches, OnlyNode, NextStep, Plays, UpToDate;
    PlaysHere(sys, n, s, full, granted);
    if s.votingMember && InVotingConfig(s, m.cand) {
      sys' := AfterVote(sys, n, m);
      VotePermitted(sys, n, m);
      OneStep(sys, sys', HandleVote(n, m));
      VoterPlays(sys, n, s, full, granted, m);
    } else {
      sys' := AfterIgnoredVote(sys, n, m);
      IgnoreVotePermitted(sys, n, m);
      OneStep(sys, sys', IgnoreVote(n, m));
      StillPlays(sys, sys', n, s, full, granted);
    }
  }

  lemma PlaysHere(sys: Sys, n: Id, s: NodeState, full: seq<LogEntry>, granted: seq<int>)
    requires Runs(sys, n, s, full, granted) || Plays(sys, n, s, full, granted)
    ensures n in sys.e.nodes && n in sys.reps && s.id == n
    ensures sys.e.nodes[n].role == s.role && sys.e.nodes[n].term == s.term && sys.reps[n].log == full
    ensures sys.reps[n].commit == s.commitIndex && sys.reps[n].applied == s.lastApplied && sys.reps[n].store == s.store
    ensures sys.reps[n].boundary == s.lastIncludedIndex
    ensures Represents(s, full) && Ordered(s, full) && AllOfChange(sys.e, full) && OnDisk(s)
  {
    hide SameBooks, InMode, Seated, Represents, AllOfChange;
  }

  lemma VoterPlays(sys: Sys, n: Id, s: NodeState, full: seq<LogEntry>, granted: seq<int>, m: Message)
    requires Plays(sys, n, s, full, granted) && m.RequestVote? && s.votingMember && InVotingConfig(s, m.cand)
    ensures var (t, r) := HandleRequestVote(s, RequestVoteArgs(m.term, m.cand, m.lastIndex, m.lastTerm));
      && Plays(AfterVote(sys, n, m), n, t, full, granted)
      && r.term >= 0 && VoteReply(n, m.cand, m.term, r.term, r.voteGranted) in AfterVote(sys, n, m).net
  {
    hide AllOfChange, InMode, PeersMatch, Represents, CandidateUpToDate, UpToDate, SameBooks, InVotingConfig;
    var a := RequestVoteArgs(m.term, m.cand, m.lastIndex, m.lastTerm);
    var t := HandleRequestVote(s, a).0;
    StillRepresents(s, BecomeFollower(s, m.term), full);
    UpToDateOnFull(s, full, m.lastIndex, m.lastTerm);
    UpToDateOnFull(BecomeFollower(s, m.term), full, m.lastIndex, m.lastTerm);
    VotedRepresents(s, t, full, a);
    ConfigStays(sys, AfterVote(sys, n, m), n, s, t);
  }

  lemma VotedRepresents(s: NodeState, t: NodeState, full: seq<LogEntry>, a: RequestVoteArgs)
    requires Represents(s, full) && t == HandleRequestVote(s, a).0
    ensures Represents(t, full)
  {
    hide InVotingConfig, CandidateUpToDate;
  }

  ghost function AfterCount(sys: Sys, n: Id, m: Message): Sys
    requires n in sys.e.nodes && n in sys.reps && m.VoteReply?
  {
    var v := sys.e.nodes[n];
    var g := v.granted + {m.voter};
    var won := E.HasElectionMajority(sys.e, v.mode, g);
    if m.term > v.term then sys.(e := WithVoter(sys.e, n, E.BecomeFollower(v, m.term)))
    else if !m.granted then sys
    else sys.(e := WithVoter(sys.e, n, v.(granted := g, role := if won then Leader else Candidate)),
              reps := if won then sys.reps[n := NewLeader(sys.reps[n], E.Active(sys.e, v.mode) - {n})] else sys.reps)
  }

  lemma CountPermitted(sys: Sys, n: Id, m: Message)
    requires n in sys.e.nodes && n in sys.reps && sys.e.nodes[n].role == Candidate
    requires m in sys.net && m.VoteReply? && m.cand == n && m.voter in sys.e.nodes && m.asked == sys.e.nodes[n].term
    requires m.granted ==> E.Vote(m.voter, m.asked, n) in sys.e.votes
    ensures NextStep(sys, AfterCount(sys, n, m), Step.CountVote(n, m))
    ensures OnlyNode(sys, AfterCount(sys, n, m), n)
  {
    hide Majority;
  }

  lemma NewBooks(m: map<Id, int>, peers: seq<PeerInfo>, xs: seq<int>, x: int)
    requires Proper(peers) && |xs| == |peers| && m.Keys == Ids(peers)
    requires forall i | 0 <= i < |xs| :: xs[i] == x
    requires forall q | q in m :: m[q] == x
    ensures SameBooks(m, peers, xs)
  {
    forall i | 0 <= i < |peers| && peers[i].id != NOBODY
      ensures peers[i].id as Id in m
    {
      InIds(peers, peers[i].id as Id);
    }
  }

  /** The books of a node that starts to lead, or starts over with other peers. */
  lemma FreshBooksAre(sys: Sys, n: Id, t: NodeState, full: seq<LogEntry>, r: Replica)
    requires SameConfig(sys, n, t) && Represents(t, full) && FreshBooks(t) && r.log == full
    ensures var r' := NewLeader(r, E.Active(sys.e, sys.e.nodes[n].mode) - {n});
      SameBooks(r'.next, t.peers, t.nextIndex) && SameBooks(r'.matched, t.peers, t.matchIndex)
  {
    hide Proper, Ids, SameBooks, InMode, Seated, Represents;
    Members(sys, n, t, n);
    LastOf(t, full);
    var r' := NewLeader(r, E.Active(sys.e, sys.e.nodes[n].mode) - {n});
    NewBooks(r'.next, t.peers, t.nextIndex, |full| + 1);
    NewBooks(r'.matched, t.peers, t.matchIndex, 0);
  }

  lemma LeaderRepresents(s: NodeState, full: seq<LogEntry>)
    requires Represents(s, full)
    ensures Represents(BecomeLeader(s), full) && FreshBooks(BecomeLeader(s))
  {
  }

  /** Counting a vote, and becoming leader exactly when the protocol says a majority has granted. */
  lemma CountVoteRefines(sys: Sys, n: Id, s: NodeState, full: seq<LogEntry>, granted: seq<int>,
      m: Message) returns (sys': Sys)
    requires Plays(sys, n, s, full, granted) && s.role == Candidate
    requires m in sys.net && m.VoteReply? && m.cand == n && m.voter in sys.e.nodes && m.asked == s.term
    requires m.granted ==> E.Vote(m.voter, m.asked, n) in sys.e.votes
    ensures var (t, g, _) := Node.CountVote(s, m.asked, granted, m.voter, RequestVoteReply(m.term, m.granted));
      && Reaches(sys, sys') && OnlyNode(sys, sys', n)
      && Plays(sys', n, t, full, g)
  {
    hide Reaches, AllOfChange, InMode, PeersMatch, InVotingConfig, Represents, SameBooks, NextStep, OnlyNode, E.HasElectionMajority,
      ElectionMajority, InitLeaderState, FreshBooks;
    sys' := AfterCount(sys, n, m);
    CountPermitted(sys, n, m);
    OneStep(sys, sys', Step.CountVote(n, m));
    var t := Node.CountVote(s, m.asked, granted, m.voter, RequestVoteReply(m.term, m.granted)).0;
    GrantedOne(n, granted, m.voter);
    SameElectionRule(sys.e, sys.e.nodes[n].mode, s, granted + [m.voter]);
    LeaderRepresents(s, full);
    StillRepresents(s, BecomeFollower(s, m.term), full);
    LeaderMembership(s);
    ConfigStays(sys, sys', n, s, t);
    if t.role == Leader {
      FreshBooksAre(sys', n, t, full, sys.reps[n]);
    }
  }

  lemma LeaderMembership(s: NodeState)
    ensures var t := BecomeLeader(s);
      && SameMembership(s, t) && t.role == Leader && t.term == s.term && t.votedFor == s.votedFor
      && t.commitIndex == s.commitIndex && t.lastApplied == s.lastApplied && t.store == s.store
      && t.lastIncludedIndex == s.lastIncludedIndex && (OnDisk(s) ==> OnDisk(t))
  {
  }

  // ---- the leader appends and sends ----

  /** The entry a leader appends next. */
  function OwnNext(s: NodeState, full: seq<LogEntry>, op: CommandType, key: string, value: string, oldCfg: seq<PeerInfo>,
      newCfg: seq<PeerInfo>): LogEntry {
    LogEntry(s.term, |full| + 1, op, key, value, oldCfg, newCfg)
  }

  lemma ProposeRefines(sys: Sys, n: Id, s: NodeState, full: seq<LogEntry>, granted: seq<int>, op: CommandType,
      key: string, value: string, oldCfg: seq<PeerInfo>, newCfg: seq<PeerInfo>)
    returns (sys': Sys)
    requires Plays(sys, n, s, full, granted) && s.role == Leader
    requires OfChange(sys.e, OwnNext(s, full, op, key, value, oldCfg, newCfg))
    ensures var t := AppendOwn(s, op, key, value, oldCfg, newCfg);
      && Reaches(sys, sys') && OnlyNode(sys, sys', n)
      && Plays(sys', n, t, full + [OwnNext(s, full, op, key, value, oldCfg, newCfg)], granted)
  {
    hide Reaches, Plays, NextStep, OfChange;
    PlaysHere(sys, n, s, full, granted);
    sys' := WithReplica(sys, n, Propose(sys.reps[n], sys.e.nodes[n].term, op, key, value, oldCfg, newCfg));
    AppendPermits(sys, sys', n, op, key, value, oldCfg, newCfg);
    OneStep(sys, sys', ClientAppend(n, op, key, value, oldCfg, newCfg));
    AppendedPlays(sys, sys', n, s, full, granted, op, key, value, oldCfg, newCfg);
  }

  lemma AppendPermits(sys: Sys, sys': Sys, n: Id, op: CommandType, key: string, value: string, oldCfg: seq<PeerInfo>,
      newCfg: seq<PeerInfo>)
    requires n in sys.e.nodes && n in sys.reps && sys.e.nodes[n].role == Leader
    requires sys' == WithReplica(sys, n, Propose(sys.reps[n], sys.e.nodes[n].term, op, key, value, oldCfg, newCfg))
    ensures NextStep(sys, sys', ClientAppend(n, op, key, value, oldCfg, newCfg)) && OnlyNode(sys, sys', n)
  {
    hide Propose;
  }

  lemma AppendedPlays(sys: Sys, sys': Sys, n: Id, s: NodeState, full: seq<LogEntry>, granted: seq<int>, op: CommandType,
      key: string, value: string, oldCfg: seq<PeerInfo>, newCfg: seq<PeerInfo>)
    requires Plays(sys, n, s, full, granted) && s.role == Leader && n in sys'.reps
    requires sys'.e == sys.e && sys'.reps[n] == Propose(sys.reps[n], sys.e.nodes[n].term, op, key, value, oldCfg, newCfg)
    requires OfChange(sys.e, OwnNext(s, full, op, key, value, oldCfg, newCfg))
    ensures Plays(sys', n, AppendOwn(s, op, key, value, oldCfg, newCfg),
                  full + [OwnNext(s, full, op, key, value, oldCfg, newCfg)], granted)
  {
    hide InMode, PeersMatch, InVotingConfig, SameBooks, OfChange, Represents, AllOfChange, LastLogIndex;
    AppendOnFull(s, full, op, key, value, oldCfg, newCfg);
    MoreOfChange(sys.e, full, OwnNext(s, full, op, key, value, oldCfg, newCfg));
    ConfigStays(sys, sys', n, s, AppendOwn(s, op, key, value, oldCfg, newCfg));
  }

  function ToAppend(a: Append): AppendEntriesArgs {
    AppendEntriesArgs(a.term, a.src, a.prev, a.prevTerm, a.entries, a.leaderCommit)
  }

  lemma PeerIsMember(sys: Sys, n: Id, s: NodeState, i: nat)
    requires SameConfig(sys, n, s) && i < |s.peers|
    ensures s.peers[i].id != NOBODY && s.peers[i].id as Id in E.Active(sys.e, sys.e.nodes[n].mode) - {n}
  {
    hide InMode, Seated, E.Active;
    Members(sys, n, s, n);
    InIds(s.peers, s.peers[i].id);
    assert s.peers[i].id as Id in Ids(s.peers);
  }

  ghost function AfterSend(sys: Sys, n: Id, p: Id): Sys
    requires n in sys.e.nodes && n in sys.reps && p in sys.reps[n].next && sys.reps[n].next[p] >= 1
  {
    Sys(sys.e.(beats := sys.e.beats + {E.Beat(n, sys.e.nodes[n].term, p)}), sys.reps,
        sys.net + {AppendEntries(MakeAppend(sys.reps[n], n, p, sys.e.nodes[n].term))}, sys.calls)
  }

  lemma SendPermitted(sys: Sys, n: Id, p: Id)
    requires n in sys.e.nodes && n in sys.reps && sys.e.nodes[n].role == Leader
    requires p in sys.reps[n].next && sys.reps[n].next[p] >= 1 && p in E.Active(sys.e, sys.e.nodes[n].mode) - {n}
    ensures NextStep(sys, AfterSend(sys, n, p), SendAppend(n, p))
    ensures OnlyNode(sys, AfterSend(sys, n, p), n)
  {
    hide MakeAppend;
  }

  /** The request the node builds from its compacted log is the one the protocol sends from the whole log. */
  lemma ReplicateRefines(sys: Sys, n: Id, s: NodeState, full: seq<LogEntry>, granted: seq<int>,
      i: nat) returns (sys': Sys, a: Append)
    requires Plays(sys, n, s, full, granted) && s.role == Leader
    requires i < |s.peers| && i < |s.nextIndex| && s.lastIncludedIndex < s.nextIndex[i] <= |full| + 1
    ensures Reaches(sys, sys') && OnlyNode(sys, sys', n) && Plays(sys', n, s, full, granted)
    ensures AppendEntries(a) in sys'.net && a.dst == s.peers[i].id && a.call == None && ToAppend(a) == BuildAppend(s, s.nextIndex[i])
  {
    hide *;
    var p := SendFacts(sys, n, s, full, granted, i);
    a := MakeAppend(sys.reps[n], n, p, sys.e.nodes[n].term);
    sys' := AfterSend(sys, n, p);
    SendPermitted(sys, n, p);
    OneStep(sys, sys', SendAppend(n, p));
    SendChanges(sys, n, s, full, granted, p);
    SameRequest(sys.reps[n], sys.e.nodes[n].term, n, p, s, full, s.nextIndex[i]);
  }

  lemma SendFacts(sys: Sys, n: Id, s: NodeState, full: seq<LogEntry>, granted: seq<int>, i: nat) returns (p: Id)
    requires Plays(sys, n, s, full, granted) && s.role == Leader && i < |s.peers| && i < |s.nextIndex| && s.lastIncludedIndex < s.nextIndex[i]
    ensures p == s.peers[i].id && n in sys.e.nodes && p in E.Active(sys.e, sys.e.nodes[n].mode) - {n}
    ensures n in sys.reps && sys.e.nodes[n].role == Leader && p in sys.reps[n].next && sys.reps[n].next[p] == s.nextIndex[i]
    ensures sys.reps[n].log == full && sys.reps[n].commit == s.commitIndex && sys.e.nodes[n].term == s.term && s.id == n
    ensures Represents(s, full) && s.lastIncludedIndex >= 0
  {
    hide AllOfChange, InMode, PeersMatch, InVotingConfig, Represents;
    PeerIsMember(sys, n, s, i);
    p := s.peers[i].id as Id;
  }

  lemma SendChanges(sys: Sys, n: Id, s: NodeState, full: seq<LogEntry>, granted: seq<int>, p: Id)
    requires Plays(sys, n, s, full, granted) && p in sys.reps[n].next && sys.reps[n].next[p] >= 1
    ensures var sys' := AfterSend(sys, n, p);
      Plays(sys', n, s, full, granted) && AppendEntries(MakeAppend(sys.reps[n], n, p, sys.e.nodes[n].term)) in sys'.net
  {
    hide MakeAppend, SameVoter, SameReplica, AllOfChange, Represents;
    StillPlays(sys, AfterSend(sys, n, p), n, s, full, granted);
  }

  lemma SameRequest(r: Replica, term: nat, n: Id, p: Id, s: NodeState, full: seq<LogEntry>, next: int)
    requires Represents(s, full) && 0 <= s.lastIncludedIndex < next <= |full| + 1
    requires r.log == full && r.commit == s.commitIndex && term == s.term && s.id == n && p in r.next && r.next[p] == next
    ensures ToAppend(MakeAppend(r, n, p, term)) == BuildAppend(s, next) && MakeAppend(r, n, p, term).dst == p && MakeAppend(r, n, p, term).call == None
  {
    hide Represents, EntriesBetween, LogTermAt, LastLogIndex;
    BuildOnFull(s, full, next);
  }

  // ---- the follower stores ----

  ghost function Heeded(sys: Sys, n: Id, term: nat): Sys
    requires n in sys.e.nodes
  {
    if term >= sys.e.nodes[n].term then sys.(e := WithVoter(sys.e, n, E.Heed(sys.e.nodes[n], term))) else sys
  }

  predicate Taken(sys: Sys, n: Id, a: Append)
    requires n in sys.e.nodes && n in sys.reps
  {
    a.term >= sys.e.nodes[n].term && PrevMatches(sys.reps[n].log, a)
  }

  ghost function AfterAppend(sys: Sys, n: Id, a: Append): Sys
    requires n in sys.e.nodes && n in sys.reps
  {
    var ok := Taken(sys, n, a);
    Heeded(sys, n, a.term).(
      reps := if ok then sys.reps[n := Receive(sys.reps[n], a)] else sys.reps,
      net := sys.net + {AppendReply(a, if ok then a.term else sys.e.nodes[n].term, ok)})
  }

  lemma AppendPermitted(sys: Sys, n: Id, a: Append)
    requires n in sys.e.nodes && n in sys.reps && AppendEntries(a) in sys.net && a.dst == n
    requires E.Beat(a.src, a.term, n) in sys.e.beats
    ensures NextStep(sys, AfterAppend(sys, n, a), HandleAppend(n, a))
    ensures OnlyNode(sys, AfterAppend(sys, n, a), n)
  {
    hide Receive, PrevMatches;
  }

  /** A request of the kind leaders send, not cutting into what this node has committed or compacted. */
  ghost predicate Deliverable(sys: Sys, n: Id, s: NodeState, full: seq<LogEntry>, a: Append) {
    && AppendEntries(a) in sys.net && a.dst == n
    && E.Beat(a.src, a.term, n) in sys.e.beats
    && Numbered(a.entries, a.prev + 1) && AllOfChange(sys.e, a.entries)
    && a.prev >= s.lastIncludedIndex
    && (PrevMatches(full, a) && a.term >= s.term ==> s.commitIndex <= |Merge(full, a.prev, a.entries)|)
  }

  lemma HeedPlays(sys: Sys, n: Id, s: NodeState, full: seq<LogEntry>, granted: seq<int>, term: nat, leader: int)
    requires Plays(sys, n, s, full, granted) && term >= s.term
    ensures Plays(Heeded(sys, n, term), n, Node.Heed(s, term, leader), full, granted)
    ensures Node.Heed(s, term, leader).role == Follower && Node.Heed(s, term, leader).term == term
    ensures Heeded(sys, n, term).reps == sys.reps && SameSides(sys.e, Heeded(sys, n, term).e)
    ensures Node.Heed(s, term, leader).lastIncludedIndex == s.lastIncludedIndex && Node.Heed(s, term, leader).commitIndex == s.commitIndex
  {
    hide AllOfChange, InMode, Seated, SameBooks, Represents;
    HeedHere(s, term, leader, full);
    ConfigStays(sys, Heeded(sys, n, term), n, s, Node.Heed(s, term, leader));
  }

  lemma StillPlays(sys: Sys, sys': Sys, n: Id, s: NodeState, full: seq<LogEntry>, granted: seq<int>)
    requires Plays(sys, n, s, full, granted)
    requires SameSides(sys.e, sys'.e) && n in sys'.reps
    requires sys'.e.nodes[n] == sys.e.nodes[n] && sys'.reps[n] == sys.reps[n]
    ensures Plays(sys', n, s, full, granted)
  {
    hide AllOfChange, InMode, Seated, SameVoter, SameReplica, Represents;
    ConfigStays(sys, sys', n, s, s);
  }

  /** The replica of a node may take another log, commit index and store while the rest stays. */
  lemma NowRuns(sys: Sys, sys': Sys, n: Id, s: NodeState, t: NodeState, full: seq<LogEntry>, full': seq<LogEntry>,
      granted: seq<int>)
    requires Plays(sys, n, s, full, granted) && s.role != Leader
    requires SameSides(sys.e, sys'.e) && n in sys'.reps && sys'.e.nodes[n] == sys.e.nodes[n]
    requires t == s.(commitIndex := t.commitIndex, lastApplied := t.lastApplied, store := t.store, logs := t.logs,
                     lastIncludedIndex := t.lastIncludedIndex, lastIncludedTerm := t.lastIncludedTerm, disk := t.disk)
    requires Represents(t, full') && AllOfChange(sys.e, full') && Ordered(t, full') && OnDisk(t)
    requires var r := sys'.reps[n]; r.log == full' && r.commit == t.commitIndex && r.applied == t.lastApplied && r.boundary == t.lastIncludedIndex && r.store == t.store
    ensures Runs(sys', n, t, full', granted)
  {
    hide AllOfChange, InMode, Seated, Represents;
    ConfigStays(sys, sys', n, s, t);
  }

  lemma MergeChanges(c: E.Cluster, s: NodeState, full: seq<LogEntry>, prev: nat, entries: seq<LogEntry>)
    requires Represents(s, full) && s.lastIncludedIndex <= prev <= |full| && Numbered(entries, prev + 1)
    requires AllOfChange(c, full) && AllOfChange(c, entries)
    ensures var m := Merged(s, entries);
      && m == s.(logs := m.logs, disk := m.disk) && (OnDisk(s) ==> OnDisk(m))
      && Represents(m, Merge(full, prev, entries)) && LastLogIndex(m) == |Merge(full, prev, entries)|
      && AllOfChange(c, Merge(full, prev, entries))
  {
    hide AllOfChange, MergeAll, Changes, Merge, Numbered;
    MergedOnFull(s, full, prev, entries);
    LastOf(Merged(s, entries), Merge(full, prev, entries));
    MergeOfChange(c, full, prev, entries);
  }

  lemma MergeOfChange(c: E.Cluster, full: seq<LogEntry>, prev: nat, entries: seq<LogEntry>)
    requires prev <= |full| && AllOfChange(c, full) && AllOfChange(c, entries)
    ensures AllOfChange(c, Merge(full, prev, entries))
  {
    hide OfChange, Merge;
    Merging.MergeIs(full, prev, entries);
    var r, k := Merge(full, prev, entries), Merging.FirstConflict(full, prev, entries);
    forall i | 0 <= i < |r|
      ensures OfChange(c, r[i])
    {
      if i < |full| && (k == |entries| || i < prev + k) {
        assert r[i] == full[i];
      } else {
        assert r[i] == entries[i - prev];
      }
    }
  }

  /** The merged log with the commit index raised, before anything is applied. */
  function Raised(t: NodeState, a: Append): NodeState {
    var m := Merged(t, a.entries);
    if a.leaderCommit <= m.commitIndex then m
    else m.(commitIndex := if a.leaderCommit < LastLogIndex(m) then a.leaderCommit else LastLogIndex(m))
  }

  lemma ReceivedRuns(sys: Sys, n: Id, t: NodeState, full: seq<LogEntry>, granted: seq<int>, a: Append)
    requires n in sys.e.nodes && n in sys.reps && Taken(sys, n, a) && a.term >= t.term
    requires Plays(Heeded(sys, n, a.term), n, t, full, granted) && t.role == Follower && SameSides(sys.e, Heeded(sys, n, a.term).e)
    requires Deliverable(sys, n, t, full, a)
    ensures a.prev <= |full| && Runs(AfterAppend(sys, n, a), n, Raised(t, a), Merge(full, a.prev, a.entries), granted)
  {
    hide AllOfChange, InMode, Seated, SameBooks, Represents, Merged, Merge, Numbered, E.Heed, LastLogIndex;
    var full' := Merge(full, a.prev, a.entries);
    SameChange(sys.e, Heeded(sys, n, a.term).e, a.entries);
    MergeChanges(Heeded(sys, n, a.term).e, t, full, a.prev, a.entries);
    StillRepresents(Merged(t, a.entries), Raised(t, a), full');
    NowRuns(Heeded(sys, n, a.term), AfterAppend(sys, n, a), n, t, Raised(t, a), full, full', granted);
  }

  lemma CommitRefines(sys: Sys, mid: Sys, n: Id, t: NodeState, full: seq<LogEntry>, granted: seq<int>,
      a: Append) returns (sys': Sys)
    requires n in sys.e.nodes && n in sys.reps && Taken(sys, n, a) && mid == AfterAppend(sys, n, a) && a.term >= t.term
    requires Plays(Heeded(sys, n, a.term), n, t, full, granted) && t.role == Follower && SameSides(sys.e, Heeded(sys, n, a.term).e)
    requires Deliverable(sys, n, t, full, a)
    ensures var u := Commit(Merged(t, a.entries), a.leaderCommit);
      && a.prev <= |full| && Reaches(mid, sys') && OnlyNode(mid, sys', n) && sys'.net == mid.net
      && Plays(sys', n, u, Merge(full, a.prev, a.entries), granted)
      && u.term == t.term
  {
    hide Reaches, Plays, Runs, OnlyNode, Deliverable, Merge, ApplyCommitted, AfterAppend, Taken, Changes, MergeAll, Heeded;
    ReceivedRuns(sys, n, t, full, granted, a);
    var full', m := Merge(full, a.prev, a.entries), Merged(t, a.entries);
    if a.leaderCommit <= m.commitIndex {
      sys' := mid;
      NoStep(mid);
      OnlySelf(mid, n);
      AppliedPlays(Heeded(sys, n, a.term), mid, n, t, m, full, full', granted);
    } else {
      sys' := CommittedRuns(mid, n, Raised(t, a), full', granted);
      CommittedShape(Raised(t, a));
    }
  }

  lemma AppliedPlays(sys: Sys, mid: Sys, n: Id, t: NodeState, m: NodeState, full: seq<LogEntry>, full': seq<LogEntry>,
      granted: seq<int>)
    requires Plays(sys, n, t, full, granted) && Runs(mid, n, m, full', granted)
    requires m.lastApplied == t.lastApplied && m.commitIndex == t.commitIndex
    ensures Plays(mid, n, m, full', granted)
  {
  }

  ghost function AfterIgnoredAppend(sys: Sys, n: Id, a: Append): Sys
    requires n in sys.e.nodes
  {
    sys.(net := sys.net + {AppendReply(a, sys.e.nodes[n].term, false)})
  }

  lemma IgnoreAppendPermitted(sys: Sys, n: Id, a: Append)
    requires n in sys.e.nodes && n in sys.reps && AppendEntries(a) in sys.net && a.dst == n
    ensures NextStep(sys, AfterIgnoredAppend(sys, n, a), IgnoreAppend(n, a))
    ensures OnlyNode(sys, AfterIgnoredAppend(sys, n, a), n)
  {
  }

  /** A request that is not heard, because its sender is no member or is behind, is refused. */
  lemma UnheardRefines(sys: Sys, n: Id, s: NodeState, full: seq<LogEntry>, granted: seq<int>, a: Append) returns (sys': Sys)
    requires Plays(sys, n, s, full, granted) && AppendEntries(a) in sys.net && a.dst == n
    requires !InVotingConfig(s, a.src) || a.term < s.term
    ensures Reaches(sys, sys') && OnlyNode(sys, sys', n) && Plays(sys', n, s, full, granted)
    ensures s.term >= 0 && AppendReply(a, s.term, false) in sys'.net
  {
    hide Reaches, Plays, OnlyNode, NextStep;
    PlaysHere(sys, n, s, full, granted);
    sys' := AfterIgnoredAppend(sys, n, a);
    IgnoreAppendPermitted(sys, n, a);
    OneStep(sys, sys', IgnoreAppend(n, a));
    StillPlays(sys, sys', n, s, full, granted);
  }

  /** The AppendEntries handler is HandleAppend, and then one ApplyOne for each entry newly committed and one ChangeMode
      for each configuration among them; or IgnoreAppend. */
  lemma AppendRefines(sys: Sys, n: Id, s: NodeState, full: seq<LogEntry>, granted: seq<int>,
      a: Append) returns (sys': Sys)
    requires Plays(sys, n, s, full, granted)
    requires Deliverable(sys, n, s, full, a)
    ensures var (t, r) := HandleAppendEntries(s, ToAppend(a));
      && Reaches(sys, sys') && OnlyNode(sys, sys', n)
      && Plays(sys', n, t, FullAfterAppend(s, full, ToAppend(a)), granted)
      && r.success == Accepted(s, ToAppend(a))
      && r.term >= 0 && AppendReply(a, r.term, r.success) in sys'.net
  {
    hide Reaches, Plays, NextStep, OnlyNode, Represents, Receive, Commit, Merged, Node.Heed, Heeded, Merge, Numbered,
      InVotingConfig, AllOfChange, AfterAppend;
    PlaysHere(sys, n, s, full, granted);
    CompactedAnswers(s, full, a.prev);
    if !InVotingConfig(s, a.src) || a.term < s.term {
      sys' := UnheardRefines(sys, n, s, full, granted, a);
    } else {
      var mid, t := AfterAppend(sys, n, a), Node.Heed(s, a.term, a.src);
      AppendPermitted(sys, n, a);
      OneStep(sys, mid, HandleAppend(n, a));
      HeedPlays(sys, n, s, full, granted, a.term, a.src);
      HeedHere(s, a.term, a.src, full);
      CompactedAnswers(t, full, a.prev);
      AppendAnswers(sys, n, a);
      if Taken(sys, n, a) {
        sys' := CommitRefines(sys, mid, n, t, full, granted, a);
        ThenReaches(sys, mid, sys');
        OnlyNodeTwice(sys, mid, sys', n);
      } else {
        sys' := mid;
        RefusedPlays(sys, n, t, full, granted, a);
      }
    }
  }

  lemma HeedHere(s: NodeState, term: int, leader: int, full: seq<LogEntry>)
    ensures var t := Node.Heed(s, term, leader);
      && t.logs == s.logs && t.lastIncludedIndex == s.lastIncludedIndex && t.lastIncludedTerm == s.lastIncludedTerm
      && (Represents(s, full) ==> Represents(t, full))
  {
  }

  lemma AppendAnswers(sys: Sys, n: Id, a: Append)
    requires n in sys.e.nodes && n in sys.reps
    ensures var ok := Taken(sys, n, a);
      AppendReply(a, if ok then a.term else sys.e.nodes[n].term, ok) in AfterAppend(sys, n, a).net
  {
    hide Receive;
  }

  lemma RefusedPlays(sys: Sys, n: Id, t: NodeState, full: seq<LogEntry>, granted: seq<int>, a: Append)
    requires n in sys.e.nodes && n in sys.reps && !Taken(sys, n, a)
    requires Plays(Heeded(sys, n, a.term), n, t, full, granted)
    ensures Plays(AfterAppend(sys, n, a), n, t, full, granted)
  {
    hide Plays, Taken;
    PlaysHere(Heeded(sys, n, a.term), n, t, full, granted);
    StillPlays(Heeded(sys, n, a.term), AfterAppend(sys, n, a), n, t, full, granted);
  }

  // ---- the leader hears back and commits ----

  ghost function AfterReply(sys: Sys, n: Id, m: Message): Sys
    requires n in sys.e.nodes && n in sys.reps && m.AppendReply?
    requires m.a.dst in sys.reps[n].next && m.a.dst in sys.reps[n].matched
  {
    var v, r := sys.e.nodes[n], sys.reps[n];
    if m.term > v.term then sys.(e := WithVoter(sys.e, n, E.BecomeFollower(v, m.term)))
    else WithReplica(sys, n, if m.success then TakeSuccess(r, m.a) else TakeFailure(r, m.a))
  }

  lemma ReplyPermitted(sys: Sys, n: Id, m: Message)
    requires n in sys.e.nodes && n in sys.reps && sys.e.nodes[n].role == Leader
    requires m in sys.net && m.AppendReply? && m.a.src == n && m.a.call == None && m.a.term == sys.e.nodes[n].term
    requires m.a.dst in sys.reps[n].next && m.a.dst in sys.reps[n].matched && sys.reps[n].boundary <= |sys.reps[n].log|
    ensures NextStep(sys, AfterReply(sys, n, m), Step.TakeAppendReply(n, m))
    ensures OnlyNode(sys, AfterReply(sys, n, m), n)
  {
    hide TakeSuccess, TakeFailure;
  }

  lemma UpdateBooks(m: map<Id, int>, peers: seq<PeerInfo>, xs: seq<int>, i: nat, x: int)
    requires SameBooks(m, peers, xs) && Proper(peers) && i < |peers|
    ensures peers[i].id != NOBODY && peers[i].id as Id in m && m[peers[i].id as Id] == xs[i]
    ensures SameBooks(m[peers[i].id as Id := x], peers, xs[i := x])
  {
    var p := peers[i].id as Id;
    assert m[p := x].Keys == m.Keys;
    assert forall j | 0 <= j < |peers| && j != i :: peers[j].id != peers[i].id;
  }

  /** What the leader's arrays say of the peer in slot i. */
  lemma SlotIs(sys: Sys, n: Id, s: NodeState, full: seq<LogEntry>, granted: seq<int>, i: nat)
    requires Plays(sys, n, s, full, granted) && s.role == Leader && i < |s.peers|
    ensures n in sys.e.nodes && n in sys.reps && s.peers[i].id != NOBODY && |s.nextIndex| == |s.peers| == |s.matchIndex|
    ensures var p, r := s.peers[i].id as Id, sys.reps[n];
      && p in E.Active(sys.e, sys.e.nodes[n].mode) - {n}
      && p in r.next && p in r.matched && r.next[p] == s.nextIndex[i] && r.matched[p] == s.matchIndex[i]
  {
    hide AllOfChange, InMode, Seated, SameBooks, Represents, Proper, E.Active;
    Members(sys, n, s, n);
    PeerIsMember(sys, n, s, i);
    UpdateBooks(sys.reps[n].next, s.peers, s.nextIndex, i, 0);
    UpdateBooks(sys.reps[n].matched, s.peers, s.matchIndex, i, 0);
    BooksSize(sys.reps[n].next, s.peers, s.nextIndex);
    BooksSize(sys.reps[n].matched, s.peers, s.matchIndex);
  }

  lemma BooksSize(m: map<Id, int>, peers: seq<PeerInfo>, xs: seq<int>)
    requires SameBooks(m, peers, xs)
    ensures |xs| == |peers|
  {
  }

  /** A leader that writes down something new about the peer in slot i. */
  lemma SlotPlays(sys: Sys, n: Id, s: NodeState, full: seq<LogEntry>, granted: seq<int>, i: nat, x: int, y: int)
    requires Plays(sys, n, s, full, granted) && s.role == Leader && i < |s.peers| && |s.nextIndex| == |s.peers| == |s.matchIndex|
    requires s.peers[i].id != NOBODY
    ensures var p, r := s.peers[i].id as Id, sys.reps[n];
      Plays(WithReplica(sys, n, r.(next := r.next[p := x], matched := r.matched[p := y])), n,
            s.(nextIndex := s.nextIndex[i := x], matchIndex := s.matchIndex[i := y]), full, granted)
  {
    hide AllOfChange, InMode, Seated, SameBooks, Represents, Proper;
    Members(sys, n, s, n);
    var p, r := s.peers[i].id as Id, sys.reps[n];
    var sys' := WithReplica(sys, n, r.(next := r.next[p := x], matched := r.matched[p := y]));
    var t := s.(nextIndex := s.nextIndex[i := x], matchIndex := s.matchIndex[i := y]);
    UpdateBooks(r.next, s.peers, s.nextIndex, i, x);
    UpdateBooks(r.matched, s.peers, s.matchIndex, i, y);
    StillRepresents(s, t, full);
    ConfigStays(sys, sys', n, s, t);
  }

  lemma FollowerPlays(sys: Sys, sys': Sys, n: Id, s: NodeState, full: seq<LogEntry>, granted: seq<int>, term: nat)
    requires Plays(sys, n, s, full, granted)
    requires SameSides(sys.e, sys'.e) && n in sys'.reps && sys'.reps[n] == sys.reps[n]
    requires sys'.e.nodes[n] == E.BecomeFollower(sys.e.nodes[n], term)
    ensures Plays(sys', n, BecomeFollower(s, term), full, granted)
  {
    hide AllOfChange, InMode, Seated, SameBooks, Represents;
    StillRepresents(s, BecomeFollower(s, term), full);
    ConfigStays(sys, sys', n, s, BecomeFollower(s, term));
  }

  /** A reply moves nextIndex and matchIndex as the protocol does: a refusal steps nextIndex back, but not below the
      boundary. */
  lemma ReplyRefines(sys: Sys, n: Id, s: NodeState, full: seq<LogEntry>, granted: seq<int>, m: Message,
      i: nat) returns (sys': Sys)
    requires Plays(sys, n, s, full, granted) && s.role == Leader
    requires m in sys.net && m.AppendReply? && m.a.src == n && m.a.call == None && m.a.term == s.term
    requires i < |s.peers| && i < |s.nextIndex| && i < |s.matchIndex| && s.peers[i].id == m.a.dst
    ensures var t := Node.TakeAppendReply(s, i, ToAppend(m.a), m.a.term, AppendEntriesReply(m.term, m.success));
      Reaches(sys, sys') && OnlyNode(sys, sys', n) && Plays(sys', n, t, full, granted)
  {
    hide Reaches, Plays, NextStep, OnlyNode;
    PlaysHere(sys, n, s, full, granted);
    SlotIs(sys, n, s, full, granted, i);
    sys' := AfterReply(sys, n, m);
    ReplyPermitted(sys, n, m);
    OneStep(sys, sys', Step.TakeAppendReply(n, m));
    var t := Node.TakeAppendReply(s, i, ToAppend(m.a), m.a.term, AppendEntriesReply(m.term, m.success));
    if m.term > s.term {
      FollowerPlays(sys, sys', n, s, full, granted, m.term);
    } else {
      SlotPlays(sys, n, s, full, granted, i, t.nextIndex[i], t.matchIndex[i]);
      assert t == s.(nextIndex := s.nextIndex[i := t.nextIndex[i]], matchIndex := s.matchIndex[i := t.matchIndex[i]]);
      var r := sys.reps[n];
      assert r.matched[m.a.dst := r.matched[m.a.dst]] == r.matched;
    }
  }

  /** updateCommitIndex is AdvanceCommit, which takes the largest index the commit rule allows, and then one
      ApplyOne for each entry and one ChangeMode for each configuration; where there is no such index it is nothing. */
  lemma CommitStepRefines(sys: Sys, n: Id, s: NodeState, full: seq<LogEntry>, granted: seq<int>) returns (sys': Sys)
    requires Plays(sys, n, s, full, granted) && s.role == Leader
    ensures Reaches(sys, sys') && OnlyNode(sys, sys', n) && Plays(sys', n, UpdateCommitIndex(s), full, granted)
    ensures n in sys.e.nodes && n in sys.reps && s.term >= 0
    ensures var c := UpdateCommitIndex(s).commitIndex;
      && (c == s.commitIndex || (s.commitIndex < c && Committable(sys.reps[n], n, sys.e, sys.e.nodes[n].mode, s.term, c)))
      && forall k :: Committable(sys.reps[n], n, sys.e, sys.e.nodes[n].mode, s.term, k) ==> k <= c
  {
    hide Reaches, OnlyNode, Plays, Runs, Committable, CanCommit, ApplyCommitted, LargestCommittable, LastLogIndex, Represents;
    PlaysHere(sys, n, s, full, granted);
    var c := LargestCommittable(s, LastLogIndex(s));
    LargestIsCommittable(sys, n, s, full, granted);
    if c > s.commitIndex {
      var mid := WithReplica(sys, n, sys.reps[n].(commit := c));
      AdvancePermitted(sys, n, c);
      OneStep(sys, mid, AdvanceCommit(n, c));
      AdvancedRuns(sys, n, s, full, granted, c);
      sys' := CommittedRuns(mid, n, s.(commitIndex := c), full, granted);
      ThenReaches(sys, mid, sys');
      OnlyReplica(sys, n, sys.reps[n].(commit := c));
      OnlyNodeTwice(sys, mid, sys', n);
      CommittedShape(s.(commitIndex := c));
    } else {
      sys' := sys;
      NoStep(sys);
      OnlySelf(sys, n);
    }
  }

  lemma OnlyReplica(sys: Sys, n: Id, r: Replica)
    requires n in sys.reps
    ensures OnlyNode(sys, WithReplica(sys, n, r), n)
  {
  }

  lemma LargestIsCommittable(sys: Sys, n: Id, s: NodeState, full: seq<LogEntry>, granted: seq<int>)
    requires Plays(sys, n, s, full, granted) && s.role == Leader
    ensures n in sys.e.nodes && n in sys.reps && s.term >= 0
    ensures var c := LargestCommittable(s, LastLogIndex(s));
      && s.commitIndex <= c <= |full|
      && (c > s.commitIndex ==> Committable(sys.reps[n], n, sys.e, sys.e.nodes[n].mode, s.term, c))
      && forall k :: Committable(sys.reps[n], n, sys.e, sys.e.nodes[n].mode, s.term, k) ==> k <= c
  {
    hide Plays, Runs, Committable, CanCommit, Represents;
    PlaysHere(sys, n, s, full, granted);
    LastOf(s, full);
    hide LastLogIndex, LargestCommittable;
    var c := LargestCommittable(s, LastLogIndex(s));
    if c > s.commitIndex {
      SameCommitRule(sys, n, s, full, granted, c);
    }
    forall k | Committable(sys.reps[n], n, sys.e, sys.e.nodes[n].mode, s.term, k)
      ensures k <= c
    {
      CommittableWithin(sys.reps[n], n, sys.e, sys.e.nodes[n].mode, s.term, k);
      SameCommitRule(sys, n, s, full, granted, k);
    }
  }

  lemma CommittableWithin(r: Replica, n: Id, c: E.Cluster, mode: E.Mode, term: nat, k: int)
    requires Committable(r, n, c, mode, term, k)
    ensures r.commit < k <= |r.log|
  {
  }

  lemma AdvancedRuns(sys: Sys, n: Id, s: NodeState, full: seq<LogEntry>, granted: seq<int>, c: nat)
    requires Plays(sys, n, s, full, granted) && s.commitIndex <= c <= |full|
    ensures Runs(WithReplica(sys, n, sys.reps[n].(commit := c)), n, s.(commitIndex := c), full, granted)
  {
    hide AllOfChange, InMode, Seated, SameBooks, Represents;
    StillRepresents(s, s.(commitIndex := c), full);
    ConfigStays(sys, WithReplica(sys, n, sys.reps[n].(commit := c)), n, s, s.(commitIndex := c));
  }

  lemma AdvancePermitted(sys: Sys, n: Id, c: nat)
    requires n in sys.e.nodes && n in sys.reps && sys.e.nodes[n].role == Leader
    requires Committable(sys.reps[n], n, sys.e, sys.e.nodes[n].mode, sys.e.nodes[n].term, c)
    requires forall k :: Committable(sys.reps[n], n, sys.e, sys.e.nodes[n].mode, sys.e.nodes[n].term, k) ==> k <= c
    ensures NextStep(sys, WithReplica(sys, n, sys.reps[n].(commit := c)), AdvanceCommit(n, c))
  {
    hide Committable;
  }

  // ---- restart ----

  /** What a restart finds of node `n`: its durable record and its database. What it knew of commits and how far it had
      come in applying are past. */
  ghost predicate Durable(sys: Sys, n: Id, s: NodeState, full: seq<LogEntry>) {
    && n in sys.e.nodes && n in sys.reps && s.id == n && E.Active(sys.e, E.Joint) <= sys.e.nodes.Keys
    && sys.e.nodes[n].term == s.term && sys.e.nodes[n].votedFor == s.votedFor
    && sys.reps[n].log == full && sys.reps[n].store == s.store
    && s.lastIncludedIndex == sys.reps[n].boundary <= sys.reps[n].applied && sys.reps[n].boundary <= sys.reps[n].commit
    && Represents(s, full) && AllOfChange(sys.e, full) && OnDisk(s)
  }

  /** The mode of a node that starts from this file. */
  ghost function FileMode(c: E.Cluster, cfg: seq<PeerInfo>): E.Mode {
    if Ids(cfg) == c.oldCfg then E.OldStable else E.NewStable
  }

  lemma DurableRestarts(sys: Sys, n: Id, s: NodeState, full: seq<LogEntry>, address: (string, int), others: seq<PeerInfo>)
    returns (sys': Sys)
    requires Durable(sys, n, s, full) && Lists(sys.e, [PeerInfo(n, address.0, address.1)] + others)
    ensures Reaches(sys, sys') && OnlyActor(sys, sys', n) && Plays(sys', n, Node.Restart(s, address, others), full, [])
    ensures sys'.calls == FailReads(sys.calls, n)
  {
    hide Reaches, AllOfChange, SameConfig, SameBooks, NextStep, OnlyActor, Ids, Proper, FailReads, FileMode;
    AfterIsSuffix(s.logs, s.lastIncludedIndex, s.lastIncludedIndex);
    var mode := FileMode(sys.e, [PeerInfo(n, address.0, address.1)] + others);
    sys' := AfterRestart(sys, n, mode);
    RestartPermitted(sys, n, mode);
    OneStep(sys, sys', Step.Restart(n, mode));
    SameChange(sys.e, sys'.e, full);
    RestartConfig(sys, sys', n, s, address, others);
  }

  lemma PlaysDurable(sys: Sys, n: Id, s: NodeState, full: seq<LogEntry>, granted: seq<int>)
    requires Plays(sys, n, s, full, granted)
    ensures Durable(sys, n, s, full)
  {
    hide AllOfChange, InMode, Seated, SameBooks, Represents;
  }

  /** A restart from the durable record, applied and committed back at the boundary and in the configuration of the
      start-up file, is the protocol's restart. */
  lemma RestartRefines(sys: Sys, n: Id, s: NodeState, full: seq<LogEntry>, granted: seq<int>, address: (string, int),
      others: seq<PeerInfo>)
    returns (sys': Sys)
    requires Plays(sys, n, s, full, granted) && Lists(sys.e, [PeerInfo(n, address.0, address.1)] + others)
    ensures Reaches(sys, sys') && OnlyActor(sys, sys', n) && Plays(sys', n, Node.Restart(s, address, others), full, [])
    ensures sys'.calls == FailReads(sys.calls, n)
  {
    hide Reaches, Plays, Durable, OnlyActor, Lists, FailReads;
    PlaysDurable(sys, n, s, full, granted);
    sys' := DurableRestarts(sys, n, s, full, address, others);
  }

  // ---- crashes in the middle of a method ----

  lemma ThenActs(a: Sys, b: Sys, c: Sys, n: Id)
    requires OnlyNode(a, b, n) && OnlyActor(b, c, n)
    ensures OnlyActor(a, c, n)
  {
  }

  lemma ThenRestarts(sys: Sys, mid: Sys, n: Id, s: NodeState, full: seq<LogEntry>, address: (string, int),
      others: seq<PeerInfo>)
    returns (sys': Sys)
    requires Reaches(sys, mid) && OnlyNode(sys, mid, n) && Durable(mid, n, s, full)
    requires Lists(sys.e, [PeerInfo(n, address.0, address.1)] + others)
    ensures Reaches(sys, sys') && OnlyActor(sys, sys', n) && Plays(sys', n, Node.Restart(s, address, others), full, [])
    ensures sys'.calls == FailReads(sys.calls, n)
  {
    assert mid.calls == sys.calls && Lists(mid.e, [PeerInfo(n, address.0, address.1)] + others) by { hide Proper, Ids; }
    hide *;
    sys' := DurableRestarts(mid, n, s, full, address, others);
    ThenReaches(sys, mid, sys');
    ThenActs(sys, mid, sys', n);
  }

  /** The apply loop when it has come to j. */
  function AppliedUntil(s: NodeState, j: int): NodeState {
    ApplyLoop(s.(commitIndex := j))
  }

  lemma AppliedUntilIs(s: NodeState, full: seq<LogEntry>, j: int)
    requires Represents(s, full) && 0 <= s.lastIncludedIndex <= s.lastApplied <= j <= |full|
    ensures var t := AppliedUntil(s, j);
      && SameLog(s.(commitIndex := j), t) && t.store == ApplyAll(s.store, full, s.lastApplied, j)
      && Represents(t, full) && (OnDisk(s) ==> OnDisk(t))
  {
    hide ApplyAll, ApplyLoop;
    LoopStores(s.(commitIndex := j), full);
    LoopShape(s.(commitIndex := j));
  }

  lemma {:induction false} LoopStores(s: NodeState, full: seq<LogEntry>)
    requires Represents(s, full) && 0 <= s.lastIncludedIndex <= s.lastApplied <= s.commitIndex <= |full|
    ensures ApplyLoop(s).store == ApplyAll(s.store, full, s.lastApplied, s.commitIndex)
    decreases s.commitIndex - s.lastApplied
  {
    hide ApplyEntry, Represents, ApplyToStore;
    if s.lastApplied < s.commitIndex {
      LoopTakes(s, full);
      EntryStore(s, full[s.lastApplied]);
      LoopStores(ApplyEntry(s, full[s.lastApplied]).(lastApplied := s.lastApplied + 1), full);
      ApplyAllFirst(s.store, full, s.lastApplied, s.commitIndex);
    }
  }

  /** What a handler has persisted once it has taken over the term of a request, and nothing else yet. */
  function Learned(s: NodeState, m: Message): NodeState
    requires m.RequestVote? || m.AppendEntries? || m.Install?
  {
    match m
    case RequestVote(_, term, _, _) => if term > s.term then BecomeFollower(s, term) else s
    case AppendEntries(a) => if a.term >= s.term then Node.Heed(s, a.term, a.src) else s
    case Install(src, _, term, _, _, _, _) => if term >= s.term then Node.Heed(s, term, src) else s
  }

  /** A crash right after that is OnlyLearnTerm and a restart. */
  lemma LearnCrashRefines(sys: Sys, n: Id, s: NodeState, full: seq<LogEntry>, granted: seq<int>, m: Message,
      address: (string, int), others: seq<PeerInfo>)
    returns (sys': Sys)
    requires Plays(sys, n, s, full, granted) && m in sys.net
    requires m.RequestVote? || (m.AppendEntries? && m.a.dst == n && E.Beat(m.a.src, m.a.term, n) in sys.e.beats)
    requires Lists(sys.e, [PeerInfo(n, address.0, address.1)] + others)
    ensures Reaches(sys, sys') && OnlyActor(sys, sys', n)
    ensures Plays(sys', n, Node.Restart(Learned(s, m), address, others), full, [])
    ensures sys'.calls == FailReads(sys.calls, n)
  {
    hide Reaches, Plays, Durable, OnlyActor, OnlyNode, Ids, Proper, FailReads, Node.Heed, BecomeFollower, Node.Restart;
    var mid := Learns(sys, n, s, full, granted, m);
    PlaysDurable(mid, n, Learned(s, m), full, granted);
    sys' := ThenRestarts(sys, mid, n, Learned(s, m), full, address, others);
  }

  lemma Learns(sys: Sys, n: Id, s: NodeState, full: seq<LogEntry>, granted: seq<int>, m: Message) returns (mid: Sys)
    requires Plays(sys, n, s, full, granted) && m in sys.net
    requires m.RequestVote? || (m.AppendEntries? && m.a.dst == n && E.Beat(m.a.src, m.a.term, n) in sys.e.beats)
    ensures Reaches(sys, mid) && OnlyNode(sys, mid, n) && Plays(mid, n, Learned(s, m), full, granted)
  {
    hide Reaches, AllOfChange, InMode, PeersMatch, InVotingConfig, SameBooks, Represents;
    mid := sys;
    if m.RequestVote? {
      if m.term > s.term {
        mid := sys.(e := WithVoter(sys.e, n, E.BecomeFollower(sys.e.nodes[n], m.term)));
        LearnPermitted(sys, mid, n, m);
        OneStep(sys, mid, OnlyLearnTerm(n, m));
        ConfigStays(sys, mid, n, s, BecomeFollower(s, m.term));
        StillRepresents(s, BecomeFollower(s, m.term), full);
      } else {
        NoStep(sys);
      }
    } else if m.a.term >= s.term {
      mid := Heeded(sys, n, m.a.term);
      LearnPermitted(sys, mid, n, m);
      OneStep(sys, mid, OnlyLearnTerm(n, m));
      HeedPlays(sys, n, s, full, granted, m.a.term, m.a.src);
    } else {
      NoStep(sys);
    }
  }

  lemma LearnPermitted(sys: Sys, mid: Sys, n: Id, m: Message)
    requires n in sys.e.nodes && n in sys.reps && m in sys.net
    requires m.RequestVote? || (m.AppendEntries? && m.a.dst == n && E.Beat(m.a.src, m.a.term, n) in sys.e.beats)
    requires m.RequestVote? ==>
      m.term > sys.e.nodes[n].term && mid == sys.(e := WithVoter(sys.e, n, E.BecomeFollower(sys.e.nodes[n], m.term)))
    requires m.AppendEntries? ==> m.a.term >= sys.e.nodes[n].term && mid == Heeded(sys, n, m.a.term)
    ensures NextStep(sys, mid, OnlyLearnTerm(n, m))
  {
  }

  /** A crash in the apply loop of updateCommitIndex, after entry j, is AdvanceCommit, ApplyOne up to j and a restart. */
  lemma AdvanceCrashRefines(sys: Sys, n: Id, s: NodeState, full: seq<LogEntry>, granted: seq<int>, j: int,
      address: (string, int), others: seq<PeerInfo>)
    returns (sys': Sys)
    requires Plays(sys, n, s, full, granted) && s.role == Leader
    requires s.lastApplied <= j <= LargestCommittable(s, LastLogIndex(s))
    requires Lists(sys.e, [PeerInfo(n, address.0, address.1)] + others)
    ensures Reaches(sys, sys') && OnlyActor(sys, sys', n)
    ensures Plays(sys', n, Node.Restart(AppliedUntil(s, j), address, others), full, [])
    ensures sys'.calls == FailReads(sys.calls, n)
  {
    hide Reaches, Plays, Durable, OnlyActor, OnlyNode, Ids, Proper, FailReads, Node.Restart, AppliedUntil, LargestCommittable;
    var mid := AdvancesUntil(sys, n, s, full, granted, j);
    sys' := ThenRestarts(sys, mid, n, AppliedUntil(s, j), full, address, others);
  }

  lemma AdvancesUntil(sys: Sys, n: Id, s: NodeState, full: seq<LogEntry>, granted: seq<int>, j: int) returns (mid: Sys)
    requires Plays(sys, n, s, full, granted) && s.role == Leader
    requires s.lastApplied <= j <= LargestCommittable(s, LastLogIndex(s))
    ensures Reaches(sys, mid) && OnlyNode(sys, mid, n) && Durable(mid, n, AppliedUntil(s, j), full)
  {
    hide Reaches, OnlyNode, Durable, Plays, Runs, Committable, LargestCommittable, LastLogIndex, ApplyLoop, Represents, ApplyAll;
    PlaysHere(sys, n, s, full, granted);
    LargestIsCommittable(sys, n, s, full, granted);
    var c := LargestCommittable(s, LastLogIndex(s));
    var up: Sys := sys;
    if c > s.commitIndex {
      up := WithReplica(sys, n, sys.reps[n].(commit := c));
      AdvancePermitted(sys, n, c);
      OneStep(sys, up, AdvanceCommit(n, c));
      AdvancedRuns(sys, n, s, full, granted, c);
      OnlyReplica(sys, n, sys.reps[n].(commit := c));
    } else {
      NoStep(sys);
      OnlySelf(sys, n);
    }
    assert Runs(up, n, s.(commitIndex := c), full, granted) by {
      if c == s.commitIndex {
        assert s.(commitIndex := c) == s;
        PlaysRuns(sys, n, s, full, granted);
      }
    }
    mid := AppliesUntil(up, n, s.(commitIndex := c), full, granted, j);
    ThenReaches(sys, up, mid);
    OnlyNodeTwice(sys, up, mid, n);
  }

  lemma PlaysRuns(sys: Sys, n: Id, s: NodeState, full: seq<LogEntry>, granted: seq<int>)
    requires Plays(sys, n, s, full, granted)
    ensures Runs(sys, n, s, full, granted)
  {
  }

  /** Applying up to j only, as a crash in the loop leaves it behind. */
  lemma AppliesUntil(sys: Sys, n: Id, s: NodeState, full: seq<LogEntry>, granted: seq<int>, j: int) returns (mid: Sys)
    requires Runs(sys, n, s, full, granted) && s.lastApplied <= j <= s.commitIndex
    ensures Reaches(sys, mid) && OnlyNode(sys, mid, n) && Durable(mid, n, AppliedUntil(s, j), full)
  {
    hide Reaches, AllOfChange, InMode, Seated, SameBooks, Represents, AppliedUntil, ApplyAll;
    AppliedUntilIs(s, full, j);
    mid := ApplySteps(sys, n, j);
    AppliesOnly(sys, mid, n);
  }

  /** How far the apply loop of an accepted request may come. */
  function AnswerCommits(m: NodeState, leaderCommit: int): int {
    if leaderCommit <= m.commitIndex then m.commitIndex
    else if leaderCommit < LastLogIndex(m) then leaderCommit else LastLogIndex(m)
  }

  /** The log of a follower that has persisted the entries of a request. */
  function Stored(s: NodeState, a: Append): NodeState {
    Merged(Node.Heed(s, a.term, a.src), a.entries)
  }

  /** A crash of a follower that has persisted the entries of a request and applied up to j is HandleAppend, ApplyOne up
      to j and a restart; the reply is never sent. */
  lemma AppendCrashRefines(sys: Sys, n: Id, s: NodeState, full: seq<LogEntry>, granted: seq<int>, a: Append, j: int,
      address: (string, int), others: seq<PeerInfo>)
    returns (sys': Sys)
    requires Plays(sys, n, s, full, granted) && Deliverable(sys, n, s, full, a) && Taken(sys, n, a)
    requires s.lastApplied <= j <= AnswerCommits(Stored(s, a), a.leaderCommit)
    requires Lists(sys.e, [PeerInfo(n, address.0, address.1)] + others)
    ensures a.prev <= |full| && Reaches(sys, sys') && OnlyActor(sys, sys', n)
    ensures Plays(sys', n, Node.Restart(AppliedUntil(Stored(s, a), j), address, others), Merge(full, a.prev, a.entries), [])
    ensures sys'.calls == FailReads(sys.calls, n)
  {
    hide Reaches, Plays, Durable, OnlyActor, OnlyNode, Ids, Proper, FailReads, Node.Restart, AppliedUntil, Deliverable, Merge,
      Stored, AnswerCommits, Taken;
    var mid := StoresUntil(sys, n, s, full, granted, a, j);
    sys' := ThenRestarts(sys, mid, n, AppliedUntil(Stored(s, a), j), Merge(full, a.prev, a.entries), address, others);
  }

  lemma StoresUntil(sys: Sys, n: Id, s: NodeState, full: seq<LogEntry>, granted: seq<int>, a: Append, j: int)
    returns (mid: Sys)
    requires Plays(sys, n, s, full, granted) && Deliverable(sys, n, s, full, a) && Taken(sys, n, a)
    requires s.lastApplied <= j <= AnswerCommits(Stored(s, a), a.leaderCommit)
    ensures a.prev <= |full| && Reaches(sys, mid) && OnlyNode(sys, mid, n)
    ensures Durable(mid, n, AppliedUntil(Stored(s, a), j), Merge(full, a.prev, a.entries))
  {
    hide Reaches, OnlyNode, Durable, Plays, Runs, Deliverable, Merged, Node.Heed, Merge, AppliedUntil, AfterAppend, Heeded,
      LastLogIndex, NextStep;
    PlaysHere(sys, n, s, full, granted);
    DeliveredHere(sys, n, s, full, a);
    var t, up := Node.Heed(s, a.term, a.src), AfterAppend(sys, n, a);
    AppendPermitted(sys, n, a);
    OneStep(sys, up, HandleAppend(n, a));
    HeedPlays(sys, n, s, full, granted, a.term, a.src);
    DeliveredStill(sys, n, s, t, full, a);
    ReceivedRuns(sys, n, t, full, granted, a);
    RaisedIs(s, a);
    mid := AppliesUntil(up, n, Raised(t, a), Merge(full, a.prev, a.entries), granted, j);
    ThenReaches(sys, up, mid);
    OnlyNodeTwice(sys, up, mid, n);
  }

  lemma DeliveredHere(sys: Sys, n: Id, s: NodeState, full: seq<LogEntry>, a: Append)
    requires Deliverable(sys, n, s, full, a)
    ensures AppendEntries(a) in sys.net && a.dst == n && E.Beat(a.src, a.term, n) in sys.e.beats
  {
    hide AllOfChange, Numbered, Merge;
  }

  lemma DeliveredStill(sys: Sys, n: Id, s: NodeState, t: NodeState, full: seq<LogEntry>, a: Append)
    requires Deliverable(sys, n, s, full, a) && t == Node.Heed(s, a.term, a.src) && a.term >= s.term
    ensures Deliverable(sys, n, t, full, a)
  {
    hide AllOfChange, Numbered, Merge;
  }

  lemma RaisedIs(s: NodeState, a: Append)
    ensures var t := Node.Heed(s, a.term, a.src);
      && Raised(t, a).commitIndex == AnswerCommits(Stored(s, a), a.leaderCommit)
      && Raised(t, a).lastApplied == s.lastApplied
      && forall j :: AppliedUntil(Raised(t, a), j) == AppliedUntil(Stored(s, a), j)
  {
    hide ApplyLoop, Changes, MergeAll;
  }

  lemma AppliesOnly(sys: Sys, sys': Sys, n: Id)
    requires n in sys.reps && exists r :: sys' == WithReplica(sys, n, r)
    ensures OnlyNode(sys, sys', n)
  {
  }

  lemma RestartConfig(sys: Sys, sys': Sys, n: Id, s: NodeState, address: (string, int), others: seq<PeerInfo>)
    requires s.id == n && SameSides(sys.e, sys'.e) && n in sys.e.nodes && E.Active(sys.e, E.Joint) <= sys.e.nodes.Keys
    requires var cfg := [PeerInfo(n, address.0, address.1)] + others;
      Lists(sys.e, cfg) && sys'.e.nodes[n].mode == FileMode(sys.e, cfg)
    ensures SameConfig(sys', n, Node.Restart(s, address, others))
  {
    hide Ids, Contains, Proper, Node.After;
    RestartConfigured(s, address, others);
    NobodyIn();
  }

  ghost function AfterRestart(sys: Sys, n: Id, mode: E.Mode): Sys
    requires n in sys.e.nodes && n in sys.reps
  {
    var r := sys.reps[n];
    Sys(WithVoter(sys.e, n, sys.e.nodes[n].(role := Follower, granted := {}, mode := mode)),
        sys.reps[n := r.(commit := r.boundary, applied := r.boundary, next := map[], matched := map[])], sys.net,
        FailReads(sys.calls, n))
  }

  lemma RestartPermitted(sys: Sys, n: Id, mode: E.Mode)
    requires n in sys.e.nodes && n in sys.reps
    requires sys.reps[n].boundary <= sys.reps[n].commit && sys.reps[n].boundary <= sys.reps[n].applied
    ensures NextStep(sys, AfterRestart(sys, n, mode), Step.Restart(n, mode))
    ensures OnlyActor(sys, AfterRestart(sys, n, mode), n)
  {
    hide FailReads;
  }

  // ---- reachable states only send what can be delivered ----

  /** In every reachable state, an AppendEntries request in flight meets the conditions above for its receiver,
      except that the receiver may have compacted past it and that its entries may be of another change. */
  lemma ReachableDelivers(sys: Sys, h: Invariant.History, n: Id, s: NodeState, full: seq<LogEntry>, granted: seq<int>,
      a: Append)
    requires Invariant.LogInv(sys, h) && Plays(sys, n, s, full, granted)
    requires AppendEntries(a) in sys.net && a.dst == n && a.prev >= s.lastIncludedIndex && AllOfChange(sys.e, a.entries)
    ensures Deliverable(sys, n, s, full, a)
  {
    hide AllOfChange, InMode, PeersMatch, InVotingConfig, SameBooks, NextStep, OnlyNode, OnlyActor, Represents, Merge,
      Invariant.LogInv, Invariant.AllParts;
    RequestFacts(sys, h, a);
    if Taken(sys, n, a) {
      AcceptedLength(sys, h, n, a);
    }
  }

  lemma RequestFacts(sys: Sys, h: Invariant.History, a: Append)
    requires Invariant.LogInv(sys, h) && AppendEntries(a) in sys.net
    ensures E.Beat(a.src, a.term, a.dst) in sys.e.beats && a.src in sys.e.nodes && Numbered(a.entries, a.prev + 1)
  {
    hide Invariant.LogInv, Invariant.CommitOK, Invariant.RolesOK, Invariant.StoredOK, Invariant.PeersOK,
      Invariant.NodesKeep, Invariant.VotesKeep, Invariant.LeadersKeep,
      Invariant.PointsOK, Invariant.CommitsOK, Invariant.LogOK, E.Inv, Agree;
    Invariant.LogParts(sys, h);
    assert Invariant.MessageOK(sys, h, AppendEntries(a));
    var log := h.logs[a.term].log;
    forall i: nat | i < |a.entries|
      ensures a.entries[i].index == a.prev + 1 + i
    {
      assert Invariant.TermLogOK(h, a.term);
      assert Invariant.EntryOK(h, a.term, a.prev + i);
    }
  }

  /** What a node has committed lies within its log after any request it takes. */
  lemma AcceptedLength(sys: Sys, h: Invariant.History, n: Id, a: Append)
    requires Invariant.LogInv(sys, h) && n in sys.e.nodes && n in sys.reps && Taken(sys, n, a)
    requires AppendEntries(a) in sys.net && a.dst == n && E.Beat(a.src, a.term, n) in sys.e.beats
    ensures sys.reps[n].commit <= |Merge(sys.reps[n].log, a.prev, a.entries)|
  {
    hide Invariant.LogInv, Merge, Invariant.RolesOK, Invariant.LogsOK, Invariant.StoredOK, Invariant.PeersOK,
      Invariant.NodesKeep, Invariant.VotesKeep, Invariant.LeadersKeep,
      Invariant.PointsOK, Invariant.NetOK, Invariant.Shape, NextStep, Invariant.Record;
    var sys' := AfterAppend(sys, n, a);
    AppendPermitted(sys, n, a);
    Safety.LogInvStep(sys, h, sys', HandleAppend(n, a));
    StoreProof.CommitGrows(sys, h, sys', HandleAppend(n, a), n);
  }

  /** A request that ends within what the receiver has committed finds all of it there, and asks for nothing new. */
  lemma CommittedRequest(sys: Sys, h: Invariant.History, n: Id, a: Append)
    requires Invariant.LogInv(sys, h) && n in sys.e.nodes && n in sys.reps && a.term >= sys.e.nodes[n].term
    requires AppendEntries(a) in sys.net && a.dst == n && a.prev + |a.entries| <= sys.reps[n].commit
    ensures PrevMatches(sys.reps[n].log, a) && Receive(sys.reps[n], a) == sys.reps[n]
  {
    hide Invariant.LogInv, Merge, Invariant.CommitOK, Invariant.PointsOK, Invariant.LeadersKeep, Invariant.LogsOK, Invariant.NetOK,
      Invariant.TermLogOK, Invariant.RolesOK, Invariant.StoredOK, Invariant.PeersOK, Invariant.NodesKeep,
      Invariant.VotesKeep, Invariant.CommitsOK, Invariant.Shape;
    var rep, v := sys.reps[n], sys.e.nodes[n];
    Invariant.LogParts(sys, h);
    CommitProof.CommitOf(sys, h, n);
    SentIsCut(sys, h, a);
    CommitProof.TermLogIs(sys, h, a.term);
    CommitProof.CommittedInLeader(sys, h, rep.log, rep.commit, v.term, a.term);
    Merging.StaleRequestChangesNothing(rep.log, a.prev, a.entries, h.logs[a.term].log, rep.commit);
  }

  lemma SentIsCut(sys: Sys, h: Invariant.History, a: Append)
    requires Invariant.NetOK(sys, h) && AppendEntries(a) in sys.net
    ensures a.term in h.logs && a.prevTerm == TermAt(h.logs[a.term].log, a.prev) && a.leaderCommit <= a.prev + |a.entries|
    ensures Merging.CutFrom(a.entries, h.logs[a.term].log, a.prev)
  {
    hide Invariant.CommitOK;
    assert Invariant.MessageOK(sys, h, AppendEntries(a));
  }

  /** A request that lies below the receiver's boundary altogether: answering success without looking at it is what
      the protocol would do with it. */
  lemma CoveredAppendRefines(sys: Sys, h: Invariant.History, n: Id, s: NodeState, full: seq<LogEntry>, granted: seq<int>,
      a: Append) returns (sys': Sys)
    requires Invariant.LogInv(sys, h) && Plays(sys, n, s, full, granted)
    requires AppendEntries(a) in sys.net && a.dst == n
    requires a.prev < s.lastIncludedIndex && a.prev + |a.entries| <= s.lastIncludedIndex
    ensures var (t, r) := HandleAppendEntries(s, ToAppend(a));
      && Reaches(sys, sys') && OnlyNode(sys, sys', n)
      && Plays(sys', n, t, full, granted)
      && (r.success <==> InVotingConfig(s, a.src) && a.term >= s.term)
      && r.term >= 0 && AppendReply(a, r.term, r.success) in sys'.net
  {
    hide Reaches, Plays, NextStep, OnlyNode, Represents, Receive, Commit, Merged, Node.Heed, Heeded, Merge, Numbered,
      InVotingConfig, AllOfChange, AfterAppend, Invariant.LogInv;
    PlaysHere(sys, n, s, full, granted);
    if !InVotingConfig(s, a.src) || a.term < s.term {
      sys' := UnheardRefines(sys, n, s, full, granted, a);
    } else {
      RequestFacts(sys, h, a);
      sys' := AfterAppend(sys, n, a);
      AppendPermitted(sys, n, a);
      OneStep(sys, sys', HandleAppend(n, a));
      CommittedRequest(sys, h, n, a);
      HeedPlays(sys, n, s, full, granted, a.term, a.src);
      HeedHere(s, a.term, a.src, full);
      AppendAnswers(sys, n, a);
      SamePlays(sys, n, Node.Heed(s, a.term, a.src), full, granted, a);
    }
  }

  lemma SamePlays(sys: Sys, n: Id, t: NodeState, full: seq<LogEntry>, granted: seq<int>, a: Append)
    requires n in sys.e.nodes && n in sys.reps && Taken(sys, n, a) && Receive(sys.reps[n], a) == sys.reps[n]
    requires Plays(Heeded(sys, n, a.term), n, t, full, granted)
    ensures Plays(AfterAppend(sys, n, a), n, t, full, granted)
  {
    hide Plays, Taken, Receive;
    PlaysHere(Heeded(sys, n, a.term), n, t, full, granted);
    StillPlays(Heeded(sys, n, a.term), AfterAppend(sys, n, a), n, t, full, granted);
  }
}
