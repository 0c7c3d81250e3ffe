/** Repeated replication to one follower: how many refusals there can be, and what holds after the first success. */
module Repair {
  import opened Types
  import opened Node
  import opened NodeLog
  import opened NodeApply
  import opened NodeInvariant
  import opened Merging
  import Protocol

  /** One replicateToPeer with its reply: leader s, follower f in slot i of its peer list. */
  ghost function Round(s: NodeState, f: NodeState, i: nat): (NodeState, NodeState)
    requires i < |s.nextIndex| && i < |s.matchIndex|
  {
    var a := BuildAppend(s, s.nextIndex[i]);
    var (f', reply) := HandleAppendEntries(f, a);
    (TakeAppendReply(s, i, a, s.term, reply), f')
  }

  /** The outcome of k rounds in a row. */
  ghost predicate After(s: NodeState, f: NodeState, i: nat, k: nat, s': NodeState, f': NodeState)
    requires i < |s.nextIndex| && i < |s.matchIndex|
    decreases k
  {
    if k == 0 then s' == s && f' == f
    else
      var (s1, f1) := Round(s, f, i);
      i < |s1.nextIndex| && i < |s1.matchIndex| && After(s1, f1, i, k - 1, s', f')
  }

  /** A stable leader with log `lead`, nothing compacted, and a follower with log `full` that matches it as logs of one
      cluster do; what is committed is in the leader's log. */
  ghost predicate Stable(s: NodeState, lead: seq<LogEntry>, f: NodeState, full: seq<LogEntry>, done: seq<LogEntry>,
      i: nat) {
    && s.role == Leader && Represents(s, lead) && s.lastIncludedIndex == 0 && SoundEntries(lead)
    && i < |s.nextIndex| && i < |s.matchIndex| && 1 <= s.nextIndex[i] <= |lead| + 1 && 0 <= s.matchIndex[i] <= |lead|
    && AtRest(f, full, done) && f.lastIncludedIndex == 0
    && f.term <= s.term && InVotingConfig(f, s.id)
    && TermsDecide(full, lead)
    && Agree(done, lead, |done|) && 0 <= s.commitIndex <= |done|
  }

  ghost predicate Agreeing(f: NodeState, full: seq<LogEntry>, lead: seq<LogEntry>, done: seq<LogEntry>) {
    AtRest(f, full, done) && Agree(full, lead, |lead|)
  }

  /** Where the terms at prevLogIndex match, the round succeeds: the follower then agrees with the leader through the
      leader's last entry, and the leader knows it. */
  lemma MatchingRound(s: NodeState, lead: seq<LogEntry>, f: NodeState, full: seq<LogEntry>, done: seq<LogEntry>, i: nat)
    requires Stable(s, lead, f, full, done, i)
    requires s.nextIndex[i] - 1 <= |full| && TermAt(full, s.nextIndex[i] - 1) == TermAt(lead, s.nextIndex[i] - 1)
    ensures var (s', f') := Round(s, f, i);
      && i < |s'.nextIndex| && i < |s'.matchIndex|
      && s'.matchIndex[i] == |lead| && s'.nextIndex[i] == |lead| + 1
      && Agreeing(f', Protocol.Merge(full, s.nextIndex[i] - 1, lead[s.nextIndex[i] - 1..]), lead, done)
  {
    hide Stable, HandleAppendEntries, BuildAppend, TakeAppendReply, Protocol.Merge, Agreeing, TermAt;
    StableBounds(s, lead, f, full, done, i);
    var a := BuildAppend(s, s.nextIndex[i]);
    FollowerTakes(s, lead, f, full, done, i);
    SentThrough(s, lead, f, full, done, i);
    SuccessCounts(s, |lead|, i, a, HandleAppendEntries(f, a).1);
  }

  lemma SentThrough(s: NodeState, lead: seq<LogEntry>, f: NodeState, full: seq<LogEntry>, done: seq<LogEntry>, i: nat)
    requires Stable(s, lead, f, full, done, i)
    ensures s.role == Leader && i < |s.nextIndex| && i < |s.matchIndex| && s.matchIndex[i] <= |lead|
    ensures var a := BuildAppend(s, s.nextIndex[i]);
      && a.prevLogIndex == s.nextIndex[i] - 1 && a.prevLogTerm == TermAt(lead, a.prevLogIndex)
      && a.entries == lead[a.prevLogIndex..] && a.prevLogIndex + |a.entries| == |lead|
      && a.term == s.term && a.leaderId == s.id && a.leaderCommit == s.commitIndex
  {
    hide AtRest, InVotingConfig, SoundEntries, EntriesBetween, TermsDecide, Agree, LogTermAt, TermAt, Represents,
      LastLogIndex;
    BuildOnFull(s, lead, s.nextIndex[i]);
  }

  lemma FollowerTakes(s: NodeState, lead: seq<LogEntry>, f: NodeState, full: seq<LogEntry>, done: seq<LogEntry>, i: nat)
    requires Stable(s, lead, f, full, done, i)
    requires s.nextIndex[i] - 1 <= |full| && TermAt(full, s.nextIndex[i] - 1) == TermAt(lead, s.nextIndex[i] - 1)
    ensures var (f', r) := HandleAppendEntries(f, BuildAppend(s, s.nextIndex[i]));
      && r.success && r.term == s.term
      && Agreeing(f', Protocol.Merge(full, s.nextIndex[i] - 1, lead[s.nextIndex[i] - 1..]), lead, done)
  {
    hide HandleAppendEntries, BuildAppend, AtRest, Protocol.Merge, InVotingConfig, SoundEntries, TermsDecide,
      Numbered, Agree, Represents,
      TermAt, Plausible, Accepted, CommitAfter, FullAfterAppend;
    var a := BuildAppend(s, s.nextIndex[i]);
    SentThrough(s, lead, f, full, done, i);
    NumberedOf(s, lead);
    RequestIsPlausible(lead, f, full, done, a);
    MergeReaches(lead, full, done, s.nextIndex[i] - 1);
    AppendKeeps(f, full, done, a);
    AcceptedSucceeds(f, a);
  }

  lemma AcceptedSucceeds(f: NodeState, a: AppendEntriesArgs)
    requires Accepted(f, a)
    ensures InVotingConfig(f, a.leaderId) && a.term >= f.term
  {
  }

  lemma NumberedOf(s: NodeState, lead: seq<LogEntry>)
    requires Represents(s, lead)
    ensures Numbered(lead, 1)
  {
  }

  lemma SuccessCounts(s: NodeState, last: nat, i: nat, a: AppendEntriesArgs, r: AppendEntriesReply)
    requires s.role == Leader && i < |s.nextIndex| && i < |s.matchIndex| && s.matchIndex[i] <= last
    requires r.success && r.term == s.term && a.prevLogIndex + |a.entries| == last
    ensures var t := TakeAppendReply(s, i, a, s.term, r);
      i < |t.nextIndex| && i < |t.matchIndex| && t.matchIndex[i] == last && t.nextIndex[i] == last + 1
  {
  }

  lemma RequestIsPlausible(lead: seq<LogEntry>, f: NodeState, full: seq<LogEntry>, done: seq<LogEntry>,
      a: AppendEntriesArgs)
    requires AtRest(f, full, done) && f.lastIncludedIndex == 0 && Numbered(lead, 1) && SoundEntries(lead)
    requires TermsDecide(full, lead) && Agree(done, lead, |done|)
    requires 0 <= a.prevLogIndex <= |full| && a.prevLogIndex <= |lead| && TermAt(full, a.prevLogIndex) == TermAt(lead, a.prevLogIndex)
    requires a.prevLogTerm == TermAt(lead, a.prevLogIndex) && a.entries == lead[a.prevLogIndex..] && 0 <= a.leaderCommit <= |done|
    requires InVotingConfig(f, a.leaderId) && a.term >= f.term
    ensures Accepted(f, a) && Plausible(f, full, done, a)
    ensures FullAfterAppend(f, full, a) == Protocol.Merge(full, a.prevLogIndex, a.entries)
  {
    hide AtRest, Protocol.Merge, InVotingConfig, SoundEntries, Numbered;
    LastIs(f, full, done);
    CommitWithin(f, full, done);
    CompactedAnswers(f, full, a.prevLogIndex);
    MergeReaches(lead, full, done, a.prevLogIndex);
    CutIsSound(lead, a.prevLogIndex);
  }

  lemma CommitWithin(f: NodeState, full: seq<LogEntry>, done: seq<LogEntry>)
    requires AtRest(f, full, done)
    ensures 0 <= f.commitIndex <= |done|
  {
  }

  lemma CutIsSound(lead: seq<LogEntry>, prev: nat)
    requires prev <= |lead| && Numbered(lead, 1) && SoundEntries(lead)
    ensures Numbered(lead[prev..], prev + 1) && SoundEntries(lead[prev..])
  {
    hide SoundEntry;
  }

  lemma MergeReaches(lead: seq<LogEntry>, full: seq<LogEntry>, done: seq<LogEntry>, prev: nat)
    requires TermsDecide(full, lead) && prev <= |full| && prev <= |lead| && TermAt(full, prev) == TermAt(lead, prev)
    requires Agree(done, lead, |done|)
    ensures Agree(Protocol.Merge(full, prev, lead[prev..]), lead, |lead|)
    ensures forall c :: 0 <= c <= |done| ==> Agree(Protocol.Merge(full, prev, lead[prev..]), done, c)
  {
    if prev > 0 {
      assert full[prev - 1].term == lead[prev - 1].term;
    }
    assert Agree(full, lead, prev);
    MergeAgrees(full, prev, lead[prev..], lead);
  }

  /** Where they do not, the round costs the leader one step back and the follower nothing. */
  lemma RefusedRound(s: NodeState, lead: seq<LogEntry>, f: NodeState, full: seq<LogEntry>, done: seq<LogEntry>, i: nat)
    requires Stable(s, lead, f, full, done, i)
    requires !(s.nextIndex[i] - 1 <= |full| && TermAt(full, s.nextIndex[i] - 1) == TermAt(lead, s.nextIndex[i] - 1))
    ensures s.nextIndex[i] > 1
    ensures var (s', f') := Round(s, f, i);
      Stable(s', lead, f', full, done, i) && s' == s.(nextIndex := s.nextIndex[i := s.nextIndex[i] - 1])
  {
    hide AtRest, InVotingConfig, SoundEntries, EntriesBetween, TermsDecide, Agree, Heed;
    var prev := s.nextIndex[i] - 1;
    BuildOnFull(s, lead, s.nextIndex[i]);
    LastIs(f, full, done);
    CompactedAnswers(f, full, prev);
    HeedKeeps(f, full, done, s.term, s.id);
    HeedSees(f, full, done, s.term, s.id, prev);
  }

  lemma HeedSees(f: NodeState, full: seq<LogEntry>, done: seq<LogEntry>, term: int, leader: int, prev: int)
    requires AtRest(f, full, done)
    ensures var t := Heed(f, term, leader);
      && HasLogAt(t, prev) == HasLogAt(f, prev) && LogTermAt(t, prev) == LogTermAt(f, prev)
      && InVotingConfig(t, leader) == InVotingConfig(f, leader)
  {
  }

  /** Within the initial nextIndex rounds a round succeeds; from then on the follower agrees with the leader at every
      index up to the leader's last. */
  lemma {:induction false} RepairTerminates(s: NodeState, lead: seq<LogEntry>, f: NodeState, full: seq<LogEntry>,
      done: seq<LogEntry>, i: nat)
    returns (k: nat, s': NodeState, f': NodeState, full': seq<LogEntry>)
    requires Stable(s, lead, f, full, done, i)
    ensures 1 <= k <= s.nextIndex[i]
    ensures After(s, f, i, k, s', f')
    ensures i < |s'.nextIndex| && i < |s'.matchIndex| && s'.matchIndex[i] == |lead| && s'.nextIndex[i] == |lead| + 1
    ensures Agreeing(f', full', lead, done)
    decreases s.nextIndex[i]
  {
    hide Stable, Round, Agreeing, AtRest, Protocol.Merge;
    StableBounds(s, lead, f, full, done, i);
    var prev := s.nextIndex[i] - 1;
    if prev <= |full| && TermAt(full, prev) == TermAt(lead, prev) {
      MatchingRound(s, lead, f, full, done, i);
      k, full' := 1, Protocol.Merge(full, prev, lead[prev..]);
      s', f' := Round(s, f, i).0, Round(s, f, i).1;
      assert After(s', f', i, 0, s', f');
    } else {
      RefusedRound(s, lead, f, full, done, i);
      var (s1, f1) := Round(s, f, i);
      var j;
      j, s', f', full' := RepairTerminates(s1, lead, f1, full, done, i);
      k := j + 1;
    }
  }

  lemma StableBounds(s: NodeState, lead: seq<LogEntry>, f: NodeState, full: seq<LogEntry>, done: seq<LogEntry>, i: nat)
    requires Stable(s, lead, f, full, done, i)
    ensures i < |s.nextIndex| && i < |s.matchIndex| && 1 <= s.nextIndex[i] <= |lead| + 1
  {
  }

  // ---- a follower that is behind the boundary ----

  /** One sendSnapshotToPeer with its reply. */
  ghost function SnapshotRound(s: NodeState, f: NodeState, i: nat): (NodeState, NodeState)
    requires i < |s.nextIndex| && i < |s.matchIndex|
  {
    var (f', reply) := HandleInstallSnapshot(f, BuildInstall(s));
    (TakeInstallReply(s, i, s.term, reply), f')
  }

  function Larger(a: int, b: int): int {
    if a >= b then a else b
  }

  /** What the follower makes of a snapshot, and the term it answers. */
  lemma FollowerInstalls(f: NodeState, a: InstallSnapshotArgs)
    ensures var (f', r) := HandleInstallSnapshot(f, a);
      && r.term == Larger(f.term, a.term)
      && (f.term > a.term ==> f' == f)
      && (f.term <= a.term ==>
            && f'.role == Follower && f'.term == a.term && f'.leaderId == a.leaderId
            && f'.lastIncludedIndex == Larger(f.lastIncludedIndex, a.lastIncludedIndex)
            && (if f.lastIncludedIndex < a.lastIncludedIndex
                then f'.store == a.kvData && f'.lastIncludedTerm == a.lastIncludedTerm
                     && f'.commitIndex == Larger(f.commitIndex, a.lastIncludedIndex)
                     && f'.lastApplied == Larger(f.lastApplied, a.lastIncludedIndex) && OnDisk(f')
                else f'.store == f.store && f'.logs == f.logs && f'.commitIndex == f.commitIndex && f'.lastApplied == f.lastApplied))
  {
    hide Node.After, Heed;
    HeedIs(f, a.term, a.leaderId);
  }

  lemma HeedIs(f: NodeState, term: int, leader: int)
    ensures var t := Heed(f, term, leader);
      && t.store == f.store && t.logs == f.logs && t.commitIndex == f.commitIndex && t.lastApplied == f.lastApplied
      && t.lastIncludedIndex == f.lastIncludedIndex && t.leaderId == leader && t.role == Follower
      && (term >= f.term ==> t.term == term)
  {
  }

  /** Only a follower in a later term deposes the leader by its answer. Otherwise it follows in the leader's term, has
      the leader's boundary or a later one, and goes by the leader's database where it was behind; the leader goes on
      behind its boundary, with entries and not with the snapshot again, and counts the peer for no less. */
  lemma SnapshotRepairs(s: NodeState, f: NodeState, i: nat)
    requires s.role == Leader && i < |s.nextIndex| && i < |s.matchIndex|
    ensures HandleInstallSnapshot(f, BuildInstall(s)).1.term == Larger(f.term, s.term)
    ensures var (s', f') := SnapshotRound(s, f, i); f.term > s.term ==> s' == BecomeFollower(s, f.term) && f' == f
    ensures var (s', f') := SnapshotRound(s, f, i);
      f.term <= s.term ==>
        && s'.role == Leader && s'.term == s.term
        && s'.nextIndex == s.nextIndex[i := s.lastIncludedIndex + 1] && s'.nextIndex[i] > s'.lastIncludedIndex
        && s'.matchIndex == s.matchIndex[i := Larger(s.matchIndex[i], s.lastIncludedIndex)]
        && f'.role == Follower && f'.term == s.term && f'.leaderId == s.id
        && f'.lastIncludedIndex == Larger(f.lastIncludedIndex, s.lastIncludedIndex)
        && (if f.lastIncludedIndex < s.lastIncludedIndex
            then f'.store == s.store && f'.lastIncludedTerm == s.lastIncludedTerm
                 && f'.commitIndex == Larger(f.commitIndex, s.lastIncludedIndex)
                 && f'.lastApplied == Larger(f.lastApplied, s.lastIncludedIndex) && OnDisk(f')
            else f'.store == f.store && f'.logs == f.logs && f'.commitIndex == f.commitIndex && f'.lastApplied == f.lastApplied)
  {
    hide HandleInstallSnapshot, OnDisk;
    FollowerInstalls(f, BuildInstall(s));
  }
}
