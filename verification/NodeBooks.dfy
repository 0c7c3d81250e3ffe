/**
 What a leader counts for its peers, at every moment of every life of a node: through changes of configuration, which
 renumber the slots of its arrays, and with replies that come late.
 */
module NodeBooks {
  import opened Types
  import opened Node
  import opened NodeConfig
  import opened NodeLog
  import opened NodeApply
  import opened NodeInvariant
  import opened NodeRules
  import opened NodeRun
  import opened NodeLives

  // ---- what a leader knows of its peers ----

  ghost predicate Acknowledged(acks: set<Ack>, term: int, peer: int, k: int) {
    exists upto :: Ack(term, peer, upto) in acks && upto >= k
  }

  /** The peer in the slot has acknowledged, in this leadership, what the leader counts it for. */
  ghost predicate Credited(w: World, i: nat) {
    i < |w.s.peers| && i < |w.s.matchIndex| && w.s.matchIndex[i] != 0 ==>
      Acknowledged(w.acks, w.s.term, w.s.peers[i].id, w.s.matchIndex[i])
  }

  ghost predicate AllCredited(w: World) {
    w.s.role == Leader ==> forall i :: Credited(w, i)
  }

  /** The reply is taken for the peer that was asked; and for a snapshot, the boundary has not moved meanwhile, or the
      peer was known to be past it. */
  ghost predicate InPlace(w: World, ev: Event) {
    match ev
    case TakeReply(x, _) => SameSlot(w.s, x)
    case TakeSnapshotReply(y, _) =>
      && SameSlot(w.s, y)
      && (y.Snapshot? && Current(w.s, y) ==> y.boundary >= w.s.lastIncludedIndex || w.s.matchIndex[y.slot] >= w.s.lastIncludedIndex)
    case _ => true
  }

  ghost predicate SameSlot(s: NodeState, x: Sent) {
    Current(s, x) && x.slot < |s.peers| ==> x.slot < |x.peers| && x.peers[x.slot].id == s.peers[x.slot].id
  }

  /** A leader's matchIndex stays as it is, or starts over. */
  ghost predicate KeepsBooks(s: NodeState, t: NodeState) {
    t.role == Leader ==>
      || (s.role == Leader && t.term == s.term && SameArrays(s, t))
      || (forall i | 0 <= i < |t.matchIndex| :: t.matchIndex[i] == 0)
  }

  lemma CreditStays(w: World, w': World)
    requires AllCredited(w) && KeepsBooks(w.s, w'.s) && w'.acks == w.acks
    ensures AllCredited(w')
  {
    hide Acknowledged;
    if w'.s.role == Leader {
      forall i: nat
        ensures Credited(w', i)
      {
        assert w.s.role == Leader ==> Credited(w, i);
      }
    }
  }

  lemma ElectionsKeepBooks(w: World, ev: Event)
    requires ev.Elect? || ev.TakeVote? || ev.Vote?
    ensures KeepsBooks(w.s, NodeRun.After(w, ev).s)
  {
    hide InVotingConfig, ElectionMajority, CandidateUpToDate, LastLogIndex, LastLogTerm;
  }

  lemma AppendKeepsBooks(w: World, a: AppendEntriesArgs)
    requires Good(w) && Plausible(w.s, w.full, w.done, a)
    ensures KeepsBooks(w.s, HandleAppendEntries(w.s, a).0)
  {
    hide AtRest, SentSound, PlansSound, Plausible, HandleAppendEntries, FullAfterAppend, Accepted, CommitAfter, InVotingConfig, Settled,
      TermsKnown;
    AppendKeeps(w.s, w.full, w.done, a);
  }

  /** Advancing touches a leader's arrays only where it takes a configuration into effect, and then starts over. */
  lemma AdvanceBooks(w: World)
    requires Good(w)
    ensures var s, t := w.s, UpdateCommitIndex(w.s);
      t.role == Leader ==>
        && s.role == Leader && t.term == s.term
        && (if HasConfig(Applied(w.full, s, t)) then FreshBooks(t) else SameArrays(s, t))
  {
    hide AtRest, SentSound, PlansSound, CanCommit, ApplyCommitted, HasConfig, FreshBooks;
    var s, t := w.s, UpdateCommitIndex(w.s);
    LastIs(s, w.full, w.done);
    AppliedPart(w.full, s, t);
    if t != s {
      var u := s.(commitIndex := LargestCommittable(s, LastLogIndex(s)));
      RestsInOrder(w);
      CommittedBooks(u, w.full);
      CommittedShape(u);
      AppliedPart(w.full, s, t);
    } else {
      NothingApplied(w.full, s);
      NoConfig();
    }
  }

  lemma NoConfig()
    ensures !HasConfig([])
  {
  }

  lemma CommittedBooks(s: NodeState, full: seq<LogEntry>)
    requires Represents(s, full) && 0 <= s.lastIncludedIndex <= s.lastApplied <= s.commitIndex <= |full|
    ensures var t := ApplyCommitted(s);
      && t.lastApplied == s.commitIndex
      && (t.role == Leader ==>
            && s.role == Leader
            && (if HasConfig(full[s.lastApplied..s.commitIndex]) then FreshBooks(t) else SameArrays(s, t)))
  {
    hide Represents, MaybeCreateSnapshot, ApplyLoop, HasConfig;
    LoopBooks(s, full);
    LoopEnds(s, full);
    var u := ApplyLoop(s);
    SnapshotShape(u);
    LoopShape(s);
    StandsStill(s, u, full);
    SnapshotEnd(u, full);
  }

  lemma StandsStill(s: NodeState, u: NodeState, full: seq<LogEntry>)
    requires Represents(s, full) && SameLog(s, u)
    ensures Represents(u, full)
  {
  }

  lemma SnapshotEnd(s: NodeState, full: seq<LogEntry>)
    requires Represents(s, full) && s.lastApplied <= |full|
    ensures LastLogIndex(MaybeCreateSnapshot(s)) == LastLogIndex(s)
  {
    hide CreateSnapshot;
    SnapshotOnFull(s, full, s.lastApplied);
    CompactedAnswers(s, full, s.lastIncludedIndex);
    var t := MaybeCreateSnapshot(s);
    CompactedAnswers(t, full, t.lastIncludedIndex);
  }

  lemma MoreAcks(acks: set<Ack>, acks': set<Ack>, term: int, peer: int, k: int)
    requires Acknowledged(acks, term, peer, k) && acks <= acks'
    ensures Acknowledged(acks', term, peer, k)
  {
    var upto :| Ack(term, peer, upto) in acks && upto >= k;
    assert Ack(term, peer, upto) in acks';
  }

  lemma HasAck(acks: set<Ack>, term: int, peer: int, upto: int, m: int)
    requires Ack(term, peer, upto) in acks && upto >= m
    ensures Acknowledged(acks, term, peer, m)
  {
  }

  /** The leader goes on, at most one slot rises, and what it rises to has been acknowledged. */
  lemma CreditRaised(w: World, w': World, slot: nat, m: int)
    requires AllCredited(w) && w.s.role == Leader && slot < |w.s.matchIndex| && slot < |w.s.peers|
    requires w'.s.matchIndex == w.s.matchIndex[slot := m] && w'.s.peers == w.s.peers && w'.s.term == w.s.term
    requires w.acks <= w'.acks
    requires m == w.s.matchIndex[slot] || Acknowledged(w'.acks, w.s.term, w.s.peers[slot].id, m)
    ensures AllCredited(w')
  {
    hide Acknowledged;
    if w'.s.role == Leader {
      forall i: nat
        ensures Credited(w', i)
      {
        assert Credited(w, i);
        if !(i == slot && m != w.s.matchIndex[slot]) && i < |w.s.peers| && i < |w.s.matchIndex| && w.s.matchIndex[i] != 0 {
          MoreAcks(w.acks, w'.acks, w.s.term, w.s.peers[i].id, w.s.matchIndex[i]);
        }
      }
    }
  }

  lemma ReplyCredits(w: World, x: Sent, reply: AppendEntriesReply)
    requires AllCredited(w) && SameSlot(w.s, x) && |w.s.peers| == |w.s.matchIndex|
    ensures AllCredited(NodeRun.After(w, TakeReply(x, reply)))
  {
    var w' := NodeRun.After(w, TakeReply(x, reply));
    if w' != w && w'.s.role == Leader {
      hide AllCredited, Acknowledged;
      var m := w'.s.matchIndex[x.slot];
      if m != w.s.matchIndex[x.slot] {
        HasAck(w'.acks, w.s.term, w.s.peers[x.slot].id, m, m);
      }
      CreditRaised(w, w', x.slot, m);
    }
  }

  lemma SnapshotReplyCredits(w: World, y: Sent, ack: InstallSnapshotReply)
    requires AllCredited(w) && InPlace(w, TakeSnapshotReply(y, ack)) && |w.s.peers| == |w.s.matchIndex|
    ensures AllCredited(NodeRun.After(w, TakeSnapshotReply(y, ack)))
  {
    var w' := NodeRun.After(w, TakeSnapshotReply(y, ack));
    if w' != w && w'.s.role == Leader {
      hide AllCredited, Acknowledged;
      var m := w'.s.matchIndex[y.slot];
      if m != w.s.matchIndex[y.slot] {
        HasAck(w'.acks, w.s.term, w.s.peers[y.slot].id, y.boundary, m);
      }
      CreditRaised(w, w', y.slot, m);
    }
  }

  lemma TracksAt(w: World)
    requires Good(w) && w.s.role == Leader
    ensures |w.s.nextIndex| == |w.s.peers| == |w.s.matchIndex|
  {
    hide Proper, Represents, Agree, Reflects, SoundEntries, PeersMatch, SentSound, PlansSound;
  }

  lemma OthersKeepBooks(w: World, ev: Event)
    requires ev.Own? || ev.Propose? || ev.PlanAddNode? || ev.PlanRemoveNode? || ev.Replicate? || ev.SetVoting? || ev.Committed?
    ensures KeepsBooks(w.s, NodeRun.After(w, ev).s) && NodeRun.After(w, ev).acks == w.acks
  {
    hide LastLogIndex, BuildAppend, PlanAdd, PlanRemove;
  }

  lemma OutsideKeepsBooks(w: World, ev: Event)
    requires ev.Install? || ev.Crash?
    ensures KeepsBooks(w.s, NodeRun.After(w, ev).s) && NodeRun.After(w, ev).acks == w.acks
  {
    hide Node.After;
    if ev.Install? {
      InstalledStands(w.s, ev.snap);
      hide HandleInstallSnapshot;
    }
  }

  lemma EventCredits(w: World, ev: Event)
    requires Good(w) && Allowed(w, ev) && AllCredited(w) && InPlace(w, ev)
    ensures AllCredited(NodeRun.After(w, ev))
  {
    hide Good, AllCredited, KeepsBooks;
    if ev.TakeReply? || ev.TakeSnapshotReply? {
      if w.s.role == Leader {
        TracksAt(w);
        if ev.TakeReply? {
          hide NodeRun.After;
          ReplyCredits(w, ev.x, ev.reply);
        } else {
          hide NodeRun.After;
          SnapshotReplyCredits(w, ev.y, ev.ack);
        }
      }
    } else if ev.Elect? || ev.TakeVote? || ev.Vote? {
      ElectionsKeepBooks(w, ev);
      CreditStays(w, NodeRun.After(w, ev));
    } else if ev.Append? {
      AppendKeepsBooks(w, ev.ae);
      CreditStays(w, NodeRun.After(w, ev));
    } else if ev.Advance? {
      AdvanceKeepsBooks(w);
      CreditStays(w, NodeRun.After(w, ev));
    } else {
      hide NodeRun.After;
      if ev.Install? || ev.Crash? {
        OutsideKeepsBooks(w, ev);
      } else {
        OthersKeepBooks(w, ev);
      }
      CreditStays(w, NodeRun.After(w, ev));
    }
  }

  lemma AdvanceKeepsBooks(w: World)
    requires Good(w)
    ensures KeepsBooks(w.s, UpdateCommitIndex(w.s))
  {
    hide Good, HasConfig, UpdateCommitIndex;
    AdvanceBooks(w);
  }

  ghost predicate FollowsInPlace(w: World, w': World) {
    exists ev :: Allowed(w, ev) && InPlace(w, ev) && w' == NodeRun.After(w, ev)
  }

  /** A life in which every reply is taken for the peer that was asked. */
  ghost predicate LifeInPlace(run: seq<World>) {
    && |run| > 0 && Fresh(run[0])
    && forall i | 0 <= i < |run| - 1 :: FollowsInPlace(run[i], run[i + 1])
  }

  lemma IsLife(run: seq<World>)
    requires LifeInPlace(run)
    ensures Life(run)
  {
    hide Fresh, NodeRun.After, Allowed, InPlace;
    forall i | 0 <= i < |run| - 1
      ensures Follows(run[i], run[i + 1])
    {
      assert FollowsInPlace(run[i], run[i + 1]);
    }
  }

  lemma {:induction false} LifeCredits(run: seq<World>, i: nat)
    requires LifeInPlace(run) && i < |run|
    ensures AllCredited(run[i])
  {
    hide Fresh, FollowsInPlace, AllCredited, Life;
    if i == 0 {
      FreshCredits(run[0]);
    } else {
      LifeCredits(run, i - 1);
      IsLife(run);
      LifeIsGood(run, i - 1);
      assert FollowsInPlace(run[i - 1], run[i]);
      FollowsCredits(run[i - 1], run[i]);
    }
  }

  lemma FreshCredits(w: World)
    requires Fresh(w)
    ensures AllCredited(w)
  {
    hide Proper, Node.After;
  }

  lemma FollowsCredits(w: World, w': World)
    requires Good(w) && AllCredited(w) && FollowsInPlace(w, w')
    ensures AllCredited(w')
  {
    hide Good, Allowed, InPlace, NodeRun.After, AllCredited;
    var ev :| Allowed(w, ev) && InPlace(w, ev) && w' == NodeRun.After(w, ev);
    EventCredits(w, ev);
  }

  /** Through any change of configuration: what a leader counts for a peer is nothing, or what that very peer has
      acknowledged to it in this leadership. */
  lemma MatchIndexIsAcknowledged(run: seq<World>, i: nat, slot: nat)
    requires LifeInPlace(run) && i < |run| && run[i].s.role == Leader && slot < |run[i].s.peers|
    ensures var s := run[i].s;
      && slot < |s.matchIndex|
      && (s.matchIndex[slot] == 0
          || exists upto :: Ack(s.term, s.peers[slot].id, upto) in run[i].acks && upto >= s.matchIndex[slot])
  {
    hide LifeInPlace, Life, Good;
    IsLife(run);
    LifeIsGood(run, i);
    TracksAt(run[i]);
    LifeCredits(run, i);
    assert Credited(run[i], slot);
  }

  /** A leader that comes across a configuration entry while it advances starts over with every peer. */
  lemma ConfigurationStartsOver(run: seq<World>, i: nat)
    requires Life(run) && i < |run|
    ensures var s, t := run[i].s, UpdateCommitIndex(run[i].s);
      t.role == Leader && HasConfig(Applied(run[i].full, s, t)) ==>
        && |t.nextIndex| == |t.peers| == |t.matchIndex|
        && (forall slot | 0 <= slot < |t.peers| :: t.nextIndex[slot] == LastLogIndex(t) + 1 && t.matchIndex[slot] == 0)
  {
    hide Life, Good, UpdateCommitIndex, HasConfig;
    LifeIsGood(run, i);
    AdvanceBooks(run[i]);
  }

  /** What a leader commits has been acknowledged to it, in its term and through that index, by a majority of every
      configuration that must agree; only itself it counts by its own log. */
  lemma CommitIsAcknowledged(run: seq<World>, i: nat) returns (g: set<Id>)
    requires LifeInPlace(run) && i < |run|
    requires UpdateCommitIndex(run[i].s).commitIndex > run[i].s.commitIndex
    ensures var s, full, c := run[i].s, run[i].full, UpdateCommitIndex(run[i].s).commitIndex;
      && 1 <= c <= |full| && full[c - 1].term == s.term
      && MajorityOfEach(g, CommitDeciding(s, full[c - 1]))
      && forall x | x in g :: x == s.id || exists upto :: Ack(s.term, x, upto) in run[i].acks && upto >= c
  {
    hide LifeInPlace, Life, Good, UpdateCommitIndex, CommitDeciding, MajorityOfEach;
    var s, full, c := run[i].s, run[i].full, UpdateCommitIndex(run[i].s).commitIndex;
    IsLife(run);
    LifeIsGood(run, i);
    LifeCredits(run, i);
    CommitReady(run[i]);
    CommitsLargestDue(s, full);
    assert Due(s, full, c);
    g := Matching(s, c);
    forall x | x in g && x != s.id
      ensures exists upto :: Ack(s.term, x, upto) in run[i].acks && upto >= c
    {
      var slot :| 0 <= slot < |s.peers| && slot < |s.matchIndex| && s.peers[slot].id == x && s.matchIndex[slot] >= c;
      assert Credited(run[i], slot);
    }
  }

  lemma CommitReady(w: World)
    requires Good(w)
    ensures Represents(w.s, w.full) && SoundEntries(w.full) && Configured(w.s) && w.s.lastIncludedIndex <= w.s.commitIndex <= |w.full|
  {
    hide Represents, SoundEntries, Configured, Agree, Reflects, SentSound, PlansSound;
  }

  // ---- exactly when a reply is credited to the right peer ----

  /** A leader with peers `now`, which counts m for the peer in the slot, with good reason. */
  ghost predicate Counts(w: World, now: seq<PeerInfo>, slot: nat, m: int) {
    && w.s.role == Leader && w.s.peers == now && |w.s.nextIndex| == |now| == |w.s.matchIndex| && AllCredited(w)
    && slot < |now| && w.s.matchIndex[slot] == m
  }

  /** Whatever else it knows, a successful reply of the peer in the slot of `asked`, through `upto`, leaves it so. */
  ghost predicate AlwaysCredits(asked: seq<PeerInfo>, now: seq<PeerInfo>, slot: nat, m: int, upto: int) {
    forall w: World, a: AppendEntriesArgs, reply: AppendEntriesReply | Counts(w, now, slot, m) && a.prevLogIndex + |a.entries| == upto && reply.success ::
      AllCredited(NodeRun.After(w, TakeReply(Entries(w.s.term, slot, asked, a), reply)))
  }

  /** A reply is credited to the slot it was asked for, whoever is in it when it comes. That is right if and only if the
      same peer still is, or the leader counted as much already. */
  lemma ReplyIsCreditedIff(asked: seq<PeerInfo>, now: seq<PeerInfo>, slot: nat, m: nat, upto: nat)
    requires slot < |asked| && slot < |now|
    ensures AlwaysCredits(asked, now, slot, m, upto) <==> asked[slot].id == now[slot].id || upto <= m
  {
    hide AllCredited;
    if asked[slot].id == now[slot].id || upto <= m {
      forall w: World, a: AppendEntriesArgs, reply: AppendEntriesReply | Counts(w, now, slot, m) && a.prevLogIndex + |a.entries| == upto && reply.success
        ensures AllCredited(NodeRun.After(w, TakeReply(Entries(w.s.term, slot, asked, a), reply)))
      {
        var x := Entries(w.s.term, slot, asked, a);
        var w' := NodeRun.After(w, TakeReply(x, reply));
        if w'.s.role != Leader {
          NotLeading(w');
        } else if upto <= m {
          CreditRaised(w, w', slot, m);
        } else {
          HasAck(w'.acks, w.s.term, now[slot].id, upto, upto);
          CreditRaised(w, w', slot, upto);
        }
      }
    } else {
      var w := Counting(now, slot, m);
      var a := AppendEntriesArgs(1, 0, upto, 0, [], 0);
      CountingCounts(now, slot, m);
      var w' := NodeRun.After(w, TakeReply(Entries(1, slot, asked, a), AppendEntriesReply(1, true)));
      Miscredited(now, slot, upto, w');
      assert !AlwaysCredits(asked, now, slot, m, upto);
    }
  }

  lemma NotLeading(w: World)
    requires w.s.role != Leader
    ensures AllCredited(w)
  {
  }

  /** A leader of term 1 that counts m for one slot, by an acknowledgement of the peer in it, and nothing for the others. */
  ghost function Counting(now: seq<PeerInfo>, slot: nat, m: nat): World
    requires slot < |now|
  {
    var s := NodeState(0, 1, 0, [], 0, 0, Leader, 0, now, seq(|now|, _ => 1), seq(|now|, i => if i == slot then m else 0),
                       0, 0, 5, STABLE, [], [], [], true, false, false, map[], Saved(1, 0, 0, 0, []));
    World(s, [], [], {}, {Ack(1, now[slot].id, m)}, {}, [], [])
  }

  lemma CountingCounts(now: seq<PeerInfo>, slot: nat, m: nat)
    requires slot < |now|
    ensures Counts(Counting(now, slot, m), now, slot, m)
  {
    var w := Counting(now, slot, m);
    HasAck(w.acks, 1, now[slot].id, m, m);
  }

  lemma Miscredited(now: seq<PeerInfo>, slot: nat, upto: nat, w: World)
    requires slot < |now| && upto > 0
    requires w.s.role == Leader && w.s.peers == now && slot < |w.s.matchIndex| && w.s.matchIndex[slot] == upto && w.s.term == 1
    requires forall ack | ack in w.acks && ack.peer == now[slot].id :: ack.upto < upto
    ensures !AllCredited(w)
  {
    assert !Acknowledged(w.acks, 1, now[slot].id, upto);
    assert !Credited(w, slot);
  }

  /** The same for the reply to a snapshot of boundary `sent`, taken when the leader's boundary is `upto`. */
  ghost predicate SnapshotAlwaysCredits(asked: seq<PeerInfo>, now: seq<PeerInfo>, slot: nat, m: int, sent: int, upto: int) {
    forall w: World, ack: InstallSnapshotReply | Counts(w, now, slot, m) && w.s.lastIncludedIndex == upto && ack.term <= w.s.term ::
      AllCredited(NodeRun.After(w, TakeSnapshotReply(Snapshot(w.s.term, slot, asked, sent), ack)))
  }

  /** The leader counts its boundary of the moment: right if and only if it counted that much already, or the peer asked
      is still in the slot and was sent no less. */
  lemma SnapshotReplyIsCreditedIff(asked: seq<PeerInfo>, now: seq<PeerInfo>, slot: nat, m: nat, sent: nat, upto: nat)
    requires slot < |asked| && slot < |now|
    ensures SnapshotAlwaysCredits(asked, now, slot, m, sent, upto)
            <==> upto <= m || (asked[slot].id == now[slot].id && upto <= sent)
  {
    hide AllCredited;
    if upto <= m || (asked[slot].id == now[slot].id && upto <= sent) {
      forall w: World, ack: InstallSnapshotReply | Counts(w, now, slot, m) && w.s.lastIncludedIndex == upto && ack.term <= w.s.term
        ensures AllCredited(NodeRun.After(w, TakeSnapshotReply(Snapshot(w.s.term, slot, asked, sent), ack)))
      {
        var w' := NodeRun.After(w, TakeSnapshotReply(Snapshot(w.s.term, slot, asked, sent), ack));
        if upto <= m {
          CreditRaised(w, w', slot, m);
        } else {
          HasAck(w'.acks, w.s.term, now[slot].id, sent, upto);
          CreditRaised(w, w', slot, upto);
        }
      }
    } else {
      var w := Counting(now, slot, m).(s := Counting(now, slot, m).s.(lastIncludedIndex := upto));
      CountingCounts(now, slot, m);
      CreditStays(Counting(now, slot, m), w);
      var w' := NodeRun.After(w, TakeSnapshotReply(Snapshot(1, slot, asked, sent), InstallSnapshotReply(1)));
      Miscredited(now, slot, upto, w');
      assert !SnapshotAlwaysCredits(asked, now, slot, m, sent, upto);
    }
  }
}
