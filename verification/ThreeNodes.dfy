/** Three nodes whose logs are beginnings of one log, and what the methods of a node do to them, in closed form. */
module ThreeNodes {
  import opened Types
  import opened Node
  import opened NodeLog
  import opened NodeApply
  import opened NodeInvariant
  import opened NodeRefinement
  import opened Protocol
  import Merging

  function Peer(i: int): PeerInfo {
    PeerInfo(i, "host", i)
  }

  function Rest(id: int): seq<PeerInfo> {
    if id == 1 then [Peer(2), Peer(3)] else if id == 2 then [Peer(1), Peer(3)] else [Peer(1), Peer(2)]
  }

  function Put(i: int): LogEntry {
    LogEntry(1, i, PUT, "k", if i == 7 then "last" else "first", [], [])
  }

  function Puts(n: nat): (r: seq<LogEntry>)
    ensures |r| == n && forall i | 0 <= i < n :: r[i] == Put(i + 1)
  {
    seq(n, i => Put(i + 1))
  }

  function Database(applied: nat): map<string, string> {
    if applied == 0 then map[] else map["k" := if applied == 7 then "last" else "first"]
  }

  /** What changes during the story. The log has `last` entries, those through `boundary` compacted; everything committed
      is applied. */
  datatype Brief = Brief(term: int, votedFor: int, role: Role, leaderId: int, last: nat, applied: nat, boundary: nat,
    next: seq<int>, matched: seq<int>)

  function Full(id: Id, b: Brief): NodeState
    requires b.boundary <= b.last
  {
    var lastTerm := if b.boundary == 0 then 0 else 1;
    var logs := Puts(b.last)[b.boundary..];
    NodeState(id, b.term, b.votedFor, logs, b.applied, b.applied, b.role, b.leaderId, Rest(id), b.next, b.matched,
              b.boundary, lastTerm, 5, STABLE, [Peer(id)] + Rest(id), [], [], true, false, false,
              Database(b.applied), Saved(b.term, b.votedFor, b.boundary, lastTerm, logs))
  }

  predicate Sized(b: Brief) {
    b.boundary <= b.applied <= b.last <= 7
  }

  lemma StandsFor(id: Id, b: Brief)
    requires Sized(b)
    ensures Represents(Full(id, b), Puts(b.last)) && OnDisk(Full(id, b))
    ensures LastLogIndex(Full(id, b)) == b.last && LastLogTerm(Full(id, b)) == if b.last == 0 then 0 else 1
  {
    CompactedAnswers(Full(id, b), Puts(b.last), b.boundary);
  }

  // ---- what the methods do to such a node ----

  lemma {:induction false} Replays(n: nat, lo: nat, hi: nat)
    requires lo <= hi <= n <= 7
    ensures ApplyAll(Database(lo), Puts(n), lo, hi) == Database(hi)
    decreases hi
  {
    if lo < hi {
      Replays(n, lo, hi - 1);
      assert Puts(n)[hi - 1] == Put(hi);
    }
  }

  lemma {:induction false} LoopOnPuts(s: NodeState, full: seq<LogEntry>)
    requires Represents(s, full) && forall i | 0 <= i < |full| :: full[i].op == PUT
    requires 0 <= s.lastIncludedIndex <= s.lastApplied <= s.commitIndex <= |full|
    ensures ApplyLoop(s) == s.(lastApplied := s.commitIndex, store := ApplyAll(s.store, full, s.lastApplied, s.commitIndex))
    decreases s.commitIndex - s.lastApplied
  {
    hide ApplyToStore;
    if s.lastApplied < s.commitIndex {
      var e := full[s.lastApplied];
      var u := s.(store := ApplyToStore(s.store, e), lastApplied := s.lastApplied + 1);
      assert ApplyNext(s) == Some(u);
      LoopOnPuts(u, full);
      ApplyAllFirst(s.store, full, s.lastApplied, s.commitIndex);
    }
  }

  /** Committing through c applies through c, and compacts if that is 5 or more past the boundary. */
  function Committed(b: Brief, c: nat): Brief {
    b.(applied := c, boundary := if c - b.boundary >= 5 then c else b.boundary)
  }

  lemma Commits(id: Id, b: Brief, c: nat)
    requires Sized(b) && b.applied <= c <= b.last
    ensures ApplyCommitted(Full(id, b).(commitIndex := c)) == Full(id, Committed(b, c))
  {
    var s, full := Full(id, b), Puts(b.last);
    StandsFor(id, b);
    var u := s.(commitIndex := c);
    LoopOnPuts(u, full);
    Replays(b.last, b.applied, c);
    SnapshotShape(ApplyLoop(u));
    SnapshotStands(ApplyLoop(u), full);
    CompactsAt(ApplyLoop(u), full);
    hide ApplyLoop, MaybeCreateSnapshot, ApplyAll;
  }

  lemma CompactsAt(s: NodeState, full: seq<LogEntry>)
    requires Represents(s, full) && s.configState == STABLE && s.snapshotThreshold == 5
    requires 0 <= s.lastIncludedIndex <= s.lastApplied <= |full| && forall i | 0 <= i < |full| :: full[i].term == 1
    ensures MaybeCreateSnapshot(s).lastIncludedIndex ==
            if s.lastApplied - s.lastIncludedIndex >= 5 then s.lastApplied else s.lastIncludedIndex
  {
    hide Node.After;
    CompactedAnswers(s, full, s.lastApplied);
  }

  lemma MergedPuts(last: nat, prev: nat, n: nat)
    requires prev <= last && prev <= n
    ensures Merge(Puts(last), prev, Puts(n)[prev..]) == Puts(if n > last then n else last)
  {
    hide Merge, Puts, Merging.FirstConflict;
    var log, more := Puts(last), Puts(n)[prev..];
    assert forall k | 0 <= k < |more| && prev + k < |log| :: log[prev + k] == more[k];
    Merging.MergeIs(log, prev, more);
    assert Merging.FirstConflict(log, prev, more) == |more|;
    var r := Merge(log, prev, more);
    assert |r| == if n > last then n else last;
    assert forall i | 0 <= i < |r| :: r[i] == Put(i + 1);
  }

  lemma Merges(id: Id, b: Brief, prev: nat, n: nat)
    requires Sized(b) && b.boundary <= prev <= b.last && prev <= n <= 7
    ensures Merged(Full(id, b), Puts(n)[prev..]) == Full(id, b.(last := if n > b.last then n else b.last))
  {
    StandsFor(id, b);
    MergedPuts(b.last, prev, n);
    MergedOnFull(Full(id, b), Puts(b.last), prev, Puts(n)[prev..]);
    MergedShape(Full(id, b), Puts(n)[prev..]);
    hide Merge, Merged;
  }

  lemma MergedShape(s: NodeState, entries: seq<LogEntry>)
    ensures var m := Merged(s, entries);
      m == s.(logs := m.logs, disk := m.disk) && (OnDisk(s) ==> OnDisk(m))
  {
    hide MergeAll, Changes;
  }

  lemma HandlesAccepted(s: NodeState, a: AppendEntriesArgs, h: NodeState)
    requires h == Heed(s, a.term, a.leaderId) && InVotingConfig(s, a.leaderId) && a.term >= s.term
    requires a.prevLogIndex >= h.lastIncludedIndex && HasLogAt(h, a.prevLogIndex) && LogTermAt(h, a.prevLogIndex) == a.prevLogTerm
    ensures HandleAppendEntries(s, a).0 == Commit(Merged(h, a.entries), a.leaderCommit) && HandleAppendEntries(s, a).1.success
    ensures HandleAppendEntries(s, a).1.term == Commit(Merged(h, a.entries), a.leaderCommit).term
  {
    hide Heed, InVotingConfig, HasLogAt, LogTermAt, Merged, Commit;
  }

  lemma Heeds(id: Id, b: Brief)
    requires Sized(b) && b.role == Follower && b.term <= 1
    ensures Heed(Full(id, b), 1, 1) == Full(id, Heeded1(b))
  {
  }

  function Heeded1(b: Brief): Brief {
    b.(term := 1, votedFor := if b.term < 1 then NOBODY else b.votedFor, leaderId := 1)
  }

  lemma HasPrev(id: Id, b: Brief, prev: nat)
    requires Sized(b) && b.boundary <= prev <= b.last
    ensures HasLogAt(Full(id, b), prev) && LogTermAt(Full(id, b), prev) == if prev == 0 then 0 else 1
  {
    StandsFor(id, b);
    CompactedAnswers(Full(id, b), Puts(b.last), prev);
    hide HasLogAt, LogTermAt;
  }

  /** A follower takes entries prev + 1 .. n and the commit index c. */
  lemma Accepts(id: Id, b: Brief, prev: nat, n: nat, c: nat)
    requires Sized(b) && b.boundary <= prev <= b.last <= n <= 7 && b.applied <= c <= n
    requires c == b.applied ==> c - b.boundary < 5
    requires b.role == Follower && b.term <= 1 && (id == 2 || id == 3)
    ensures HandleAppendEntries(Full(id, b), AppendEntriesArgs(1, 1, prev, if prev == 0 then 0 else 1, Puts(n)[prev..], c))
            == (Full(id, Committed(Heeded1(b).(last := n), c)), AppendEntriesReply(1, true))
  {
    var h := Heeded1(b);
    var a := AppendEntriesArgs(1, 1, prev, if prev == 0 then 0 else 1, Puts(n)[prev..], c);
    Heeds(id, b);
    HasPrev(id, h, prev);
    MembersAre(id, 1);
    HandlesAccepted(Full(id, b), a, Full(id, h));
    Merges(id, h, prev, n);
    CommitIs(id, h.(last := n), c);
    hide Merged, Commit, Heed, HasLogAt, LogTermAt, HandleAppendEntries;
  }

  lemma CommitIs(id: Id, b: Brief, c: nat)
    requires Sized(b) && b.applied <= c <= b.last
    ensures Commit(Full(id, b), c) == Full(id, if c > b.applied then Committed(b, c) else b)
    ensures c == b.applied && c - b.boundary < 5 ==> Committed(b, c) == b
  {
    StandsFor(id, b);
    Commits(id, b, c);
    hide ApplyCommitted, Committed;
  }

  lemma MembersAre(id: Id, x: int)
    requires id == 1 || id == 2 || id == 3
    ensures Contains([Peer(id)] + Rest(id), x) <==> x == 1 || x == 2 || x == 3
  {
    var cfg := [Peer(id)] + Rest(id);
    assert cfg[0].id == id && cfg[1].id == Rest(id)[0].id && cfg[2].id == Rest(id)[1].id;
  }

  lemma Stands(id: Id, b: Brief)
    requires Sized(b) && (id == 1 || id == 2)
    ensures var t := b.(term := b.term + 1, votedFor := id, role := Candidate, leaderId := NOBODY);
      Node.StartElection(Full(id, b)) ==
      (Full(id, t), Some(RequestVoteArgs(t.term, id, b.last, if b.last == 0 then 0 else 1)))
  {
    MembersAre(id, id);
    StandsFor(id, b.(term := b.term + 1, votedFor := id, role := Candidate, leaderId := NOBODY));
    hide LastLogIndex, LastLogTerm;
  }

  /** Node 3 votes for a candidate of a later term whose log is as long. */
  lemma Votes(b: Brief, cand: Id)
    requires Sized(b) && b.role == Follower && (cand == 1 || cand == 2)
    ensures var t := b.(term := b.term + 1, votedFor := cand, leaderId := NOBODY);
      HandleRequestVote(Full(3, b), RequestVoteArgs(b.term + 1, cand, b.last, if b.last == 0 then 0 else 1))
      == (Full(3, t), RequestVoteReply(b.term + 1, true))
  {
    MembersAre(3, cand);
    StandsFor(3, b.(term := b.term + 1, votedFor := NOBODY, leaderId := NOBODY));
    hide LastLogIndex, LastLogTerm;
  }

  lemma TwoGrants(id: Id)
    requires id == 1 || id == 2
    ensures MajorityByIds([Peer(id)] + Rest(id), [id as int, 3])
  {
    var cfg, test := [Peer(id)] + Rest(id), GrantedTest([id as int, 3]);
    assert cfg[..2][..1] == [Peer(id)] && cfg[..1] == [Peer(id)] && cfg[..1][..0] == [];
    assert CountIf(cfg[..1], test) == 1;
    assert cfg[..2][..1] == cfg[..1];
    assert CountIf(cfg[..2], test) >= 1;
  }

  function Elected(id: Id, b: Brief): Brief {
    b.(role := Leader, leaderId := id, next := [b.last + 1, b.last + 1], matched := [0, 0])
  }

  lemma BecomesLeader(id: Id, b: Brief)
    requires Sized(b)
    ensures BecomeLeader(Full(id, b)) == Full(id, Elected(id, b))
  {
    hide LastLogIndex, LastLogTerm, Represents, OnDisk, Puts, Database;
    StandsFor(id, b.(role := Leader, leaderId := id));
    assert seq(2, _ => b.last + 1) == [b.last + 1, b.last + 1] && seq(2, _ => 0) == [0, 0];
  }

  lemma Wins(id: Id, b: Brief)
    requires Sized(b) && (id == 1 || id == 2) && b.role == Candidate
    ensures Node.CountVote(Full(id, b), b.term, [id as int], 3, RequestVoteReply(b.term, true))
            == (Full(id, Elected(id, b)), [id as int, 3], true)
  {
    assert [id as int] + [3] == [id as int, 3];
    BecomesLeader(id, b);
    TwoGrant(Full(id, b), id);
    hide BecomeLeader, ElectionMajority, Elected;
  }

  lemma TwoGrant(s: NodeState, id: Id)
    requires (id == 1 || id == 2) && s.configState == STABLE && s.currentConfig == [Peer(id)] + Rest(id)
    ensures ElectionMajority(s, [id as int, 3])
  {
    TwoGrants(id);
  }

  lemma Writes(b: Brief)
    requires Sized(b) && b.last < 7 && b.term == 1
    ensures AppendOwn(Full(1, b), PUT, "k", if b.last == 6 then "last" else "first", [], []) == Full(1, b.(last := b.last + 1))
  {
    hide LastLogIndex, LastLogTerm, Represents, OnDisk, Puts, Database, Rest, Peer;
    StandsFor(1, b);
    assert Puts(b.last)[b.boundary..] + [Put(b.last + 1)] == Puts(b.last + 1)[b.boundary..];
  }

  lemma Builds(b: Brief, next: nat)
    requires Sized(b) && b.term == 1 && b.boundary < next <= b.last + 1
    ensures BuildAppend(Full(1, b), next) ==
            AppendEntriesArgs(1, 1, next - 1, if next == 1 then 0 else 1, Puts(b.last)[next - 1..], b.applied)
  {
    StandsFor(1, b);
    BuildOnFull(Full(1, b), Puts(b.last), next);
    hide EntriesBetween, LogTermAt, LastLogIndex;
  }

  /** The leader and one of the other two are a majority. */
  lemma Majorities(b: Brief, i: nat)
    requires Sized(b) && |b.matched| == 2 && 1 <= i <= b.last
    ensures var s := Full(1, b); MajorityInConfig(s, s.currentConfig, i) <==> b.matched[0] >= i || b.matched[1] >= i
  {
    var s := Full(1, b);
    StandsFor(1, b);
    hide LastLogIndex;
    var cfg, test := s.currentConfig, HoldsTest(s, i);
    assert s.peers[..1] == [Peer(2)] && s.peers[..1][..0] == [] && s.peers[..2] == s.peers;
    assert PeerIndex(s.peers[..1], 2) == 0 && PeerIndex(s.peers[..1], 3) == -1;
    assert PeerIndex(s.peers, 2) == 0 && PeerIndex(s.peers, 3) == 1;
    assert cfg[..1] == [Peer(1)] && cfg[..1][..0] == [] && cfg[..2][..1] == cfg[..1] && cfg[..3] == cfg;
    assert CountIf(cfg[..1], test) == 1;
    assert CountIf(cfg[..2], test) == if b.matched[0] >= i then 2 else 1;
    assert CountIf(cfg, test) == CountIf(cfg[..2], test) + if b.matched[1] >= i then 1 else 0;
  }

  lemma CanCommitAt(b: Brief, i: nat)
    requires Sized(b) && b.term == 1 && |b.matched| == 2 && b.boundary < i <= b.last
    ensures CanCommit(Full(1, b), i) <==> b.matched[0] >= i || b.matched[1] >= i
  {
    var s := Full(1, b);
    StandsFor(1, b);
    CompactedAnswers(s, Puts(b.last), i);
    Majorities(b, i);
    assert s.logs[Pos(s, i)] == Put(i);
    hide MajorityInConfig, Full, Puts, LogTermAt;
  }

  /** updateCommitIndex takes the larger of what the two others are known to hold. */
  lemma Advances(b: Brief, c: nat)
    requires Sized(b) && b.role == Leader && b.term == 1 && |b.matched| == 2 && b.applied < c <= b.last
    requires c == if b.matched[0] >= b.matched[1] then b.matched[0] else b.matched[1]
    ensures UpdateCommitIndex(Full(1, b)) == Full(1, Committed(b, c))
  {
    var s := Full(1, b);
    StandsFor(1, b);
    CanCommitAt(b, c);
    Commits(1, b, c);
    var l := LargestCommittable(s, b.last);
    if l > c {
      CanCommitAt(b, l);
    }
    assert l == c by { hide CanCommit, ApplyCommitted; }
    hide CanCommit, ApplyCommitted, LargestCommittable, LastLogIndex, Committed;
  }

  lemma Counts(b: Brief, i: nat, sent: nat)
    requires Sized(b) && b.role == Leader && b.term == 1 && |b.next| == |b.matched| == 2 && i < 2 && b.matched[i] <= sent
    ensures forall a: AppendEntriesArgs | a.prevLogIndex + |a.entries| == sent ::
      Node.TakeAppendReply(Full(1, b), i, a, 1, AppendEntriesReply(1, true))
      == Full(1, b.(next := b.next[i := sent + 1], matched := b.matched[i := sent]))
  {
  }

  function Booted(): Brief {
    Brief(0, NOBODY, Follower, NOBODY, 0, 0, 0, [], [])
  }

  function Leading(last: nat, applied: nat, boundary: nat, next: seq<int>, matched: seq<int>): Brief {
    Brief(1, 1, Leader, 1, last, applied, boundary, next, matched)
  }
}
