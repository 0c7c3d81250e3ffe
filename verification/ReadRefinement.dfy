/** The locked sections of a linearizable read are the protocol's read steps. */
module ReadRefinement {
  import opened Types
  import opened Quorum
  import opened Node
  import opened NodeConfig
  import opened NodeLog
  import opened NodeModes
  import opened NodeRefinement
  import opened Protocol
  import E = Election

  /** Call r runs on node n, which is the object in state s. */
  ghost predicate Reading(sys: Sys, r: nat, n: Id, s: NodeState, full: seq<LogEntry>, granted: seq<int>) {
    Plays(sys, n, s, full, granted) && r in sys.calls && sys.calls[r].node == n
  }

  ghost function WithCall(sys: Sys, r: nat, rd: Read): Sys {
    sys.(calls := sys.calls[r := rd])
  }

  lemma CallMoves(sys: Sys, r: nat, n: Id, s: NodeState, full: seq<LogEntry>, granted: seq<int>, rd: Read)
    requires Reading(sys, r, n, s, full, granted) && rd.node == n
    ensures Reading(WithCall(sys, r, rd), r, n, s, full, granted) && OnlyActor(sys, WithCall(sys, r, rd), n)
  {
    hide Plays;
    PlaysIn(sys, n, s, full, granted);
    StillPlays(sys, WithCall(sys, r, rd), n, s, full, granted);
  }

  lemma PlaysIn(sys: Sys, n: Id, s: NodeState, full: seq<LogEntry>, granted: seq<int>)
    requires Plays(sys, n, s, full, granted)
    ensures n in sys.e.nodes && n in sys.reps && s.id == n
    ensures sys.e.nodes[n].role == s.role && sys.e.nodes[n].term == s.term && sys.reps[n].commit == s.commitIndex
    ensures sys.reps[n].applied == s.lastApplied && sys.reps[n].store == s.store && sys.reps[n].log == full
    ensures Represents(s, full) && 0 <= s.lastIncludedIndex <= s.commitIndex <= |full|
    ensures s.lastApplied == s.commitIndex
  {
    hide Runs, Represents;
    PlaysHere(sys, n, s, full, granted);
  }

  /** What the two checks know of the whole log: an entry of the leader's term is committed past the boundary, or with
      the no-op at or below the last committed entry, which is of the term. */
  lemma ChecksOnFull(s: NodeState, full: seq<LogEntry>, noop: nat)
    requires Represents(s, full) && s.lastIncludedIndex <= s.commitIndex <= |full| && noop > 0
    ensures TermCommitted(s) <==> s.role == Leader && s.commitIndex > s.lastIncludedIndex && full[s.commitIndex - 1].term == s.term
    ensures NoopCommitted(s, noop) <==> s.commitIndex >= noop && full[s.commitIndex - 1].term == s.term
  {
    CompactedAnswers(s, full, s.commitIndex);
  }

  /** Where the node finds an entry of its own term committed, the protocol does. */
  lemma CheckRefines(sys: Sys, r: nat, n: Id, s: NodeState, full: seq<LogEntry>, granted: seq<int>) returns (sys': Sys)
    requires Reading(sys, r, n, s, full, granted) && sys.calls[r].phase == Checking && TermCommitted(s)
    ensures Reaches(sys, sys') && OnlyActor(sys, sys', n) && Reading(sys', r, n, s, full, granted)
    ensures sys'.calls == sys.calls[r := sys.calls[r].(phase := Ensured)]
  {
    hide Plays, Reaches;
    PlaysIn(sys, n, s, full, granted);
    CompactedAnswers(s, full, s.commitIndex);
    var rd := sys.calls[r].(phase := Ensured);
    sys' := WithCall(sys, r, rd);
    CallMoves(sys, r, n, s, full, granted, rd);
    assert NextStep(sys, sys', ReadEnsure(r));
    OneStep(sys, sys', ReadEnsure(r));
  }

  lemma NoopCheckRefines(sys: Sys, r: nat, n: Id, s: NodeState, full: seq<LogEntry>,
      granted: seq<int>) returns (sys': Sys)
    requires Reading(sys, r, n, s, full, granted) && sys.calls[r].phase == Proposed && NoopCommitted(s, sys.calls[r].noop)
    ensures Reaches(sys, sys') && OnlyActor(sys, sys', n) && Reading(sys', r, n, s, full, granted)
    ensures sys'.calls == sys.calls[r := sys.calls[r].(phase := Ensured)]
  {
    hide Plays, Reaches;
    PlaysIn(sys, n, s, full, granted);
    CompactedAnswers(s, full, s.commitIndex);
    var rd := sys.calls[r].(phase := Ensured);
    sys' := WithCall(sys, r, rd);
    CallMoves(sys, r, n, s, full, granted, rd);
    assert NextStep(sys, sys', ReadCheckProposed(r));
    OneStep(sys, sys', ReadCheckProposed(r));
  }

  lemma TakeIndexRefines(sys: Sys, r: nat, n: Id, s: NodeState, full: seq<LogEntry>,
      granted: seq<int>) returns (sys': Sys)
    requires Reading(sys, r, n, s, full, granted) && sys.calls[r].phase == Ensured && Leads(s, sys.calls[r].term)
    ensures Reaches(sys, sys') && OnlyActor(sys, sys', n) && Reading(sys', r, n, s, full, granted)
    ensures s.commitIndex >= 0 && sys'.calls == sys.calls[r := sys.calls[r].(phase := Confirming, index := s.commitIndex)]
  {
    hide Plays, Reaches;
    PlaysIn(sys, n, s, full, granted);
    var rd := sys.calls[r].(phase := Confirming, index := s.commitIndex);
    sys' := WithCall(sys, r, rd);
    CallMoves(sys, r, n, s, full, granted, rd);
    assert NextStep(sys, sys', ReadTakeIndex(r));
    OneStep(sys, sys', ReadTakeIndex(r));
  }

  /** The empty request the node builds is the protocol's, though its log may be compacted. */
  lemma BeatRefines(sys: Sys, r: nat, n: Id, s: NodeState, full: seq<LogEntry>, granted: seq<int>,
      p: Id) returns (sys': Sys, a: Append)
    requires Reading(sys, r, n, s, full, granted) && sys.calls[r].phase == Confirming && Leads(s, sys.calls[r].term)
    requires p in sys.e.nodes && p != n
    ensures Reaches(sys, sys') && OnlyActor(sys, sys', n) && Reading(sys', r, n, s, full, granted)
    ensures AppendEntries(a) in sys'.net && a.dst == p && a.call == Some(r) && ToAppend(a) == BuildReadBeat(s)
    ensures sys'.calls == sys.calls
  {
    hide Plays, Reaches;
    PlaysIn(sys, n, s, full, granted);
    LastOf(s, full);
    a := MakeReadBeat(sys.reps[n], n, p, sys.e.nodes[n].term, r);
    sys' := Sys(sys.e.(beats := sys.e.beats + {E.Beat(n, sys.e.nodes[n].term, p)}), sys.reps, sys.net + {AppendEntries(a)}, sys.calls);
    assert NextStep(sys, sys', ReadBeat(r, p));
    OneStep(sys, sys', ReadBeat(r, p));
    StillPlays(sys, sys', n, s, full, granted);
  }

  /** A reply to that request: a higher term ends both the read and the leadership, a success counts its sender, once. */
  lemma BeatReplyRefines(sys: Sys, r: nat, n: Id, s: NodeState, full: seq<LogEntry>, granted: seq<int>, m: Message,
      count: nat) returns (sys': Sys)
    requires Reading(sys, r, n, s, full, granted) && sys.calls[r].phase == Confirming
    requires m in sys.net && m.AppendReply? && m.a.src == n && m.a.call == Some(r)
    ensures var (t, c) := Node.TakeBeatReply(s, sys.calls[r].term, count, AppendEntriesReply(m.term, m.success));
      && Reaches(sys, sys') && OnlyActor(sys, sys', n) && Reading(sys', r, n, t, full, granted)
      && sys'.calls == sys.calls[r := if c.None? then sys.calls[r].(phase := Failed)
                                      else if m.success then sys.calls[r].(acks := sys.calls[r].acks + {m.a.dst}) else sys.calls[r]]
  {
    hide Plays, Reaches;
    PlaysIn(sys, n, s, full, granted);
    var v, rd := sys.e.nodes[n], sys.calls[r];
    var rd' := if m.term > v.term || v.role != Leader || v.term != rd.term then rd.(phase := Failed)
               else if m.success then rd.(acks := rd.acks + {m.a.dst}) else rd;
    var e := if m.term > v.term then WithVoter(sys.e, n, E.BecomeFollower(v, m.term)) else sys.e;
    sys' := Sys(e, sys.reps, sys.net, sys.calls[r := rd']);
    assert NextStep(sys, sys', ReadAck(r, m));
    OneStep(sys, sys', ReadAck(r, m));
    if m.term > v.term {
      FollowerPlays(sys, sys', n, s, full, granted, m.term);
    } else {
      StillPlays(sys, sys', n, s, full, granted);
    }
  }

  function Result(result: ReadResult): Option<string> {
    match result
    case Found(value) => Some(value)
    case _ => None
  }

  /** The value the node returns is the one the protocol's read ends with. */
  lemma FinishRefines(sys: Sys, r: nat, n: Id, s: NodeState, full: seq<LogEntry>, granted: seq<int>) returns (sys': Sys)
    requires Reading(sys, r, n, s, full, granted) && sys.calls[r].phase == Applied && Leads(s, sys.calls[r].term)
    ensures Reaches(sys, sys') && OnlyActor(sys, sys', n) && Reading(sys', r, n, s, full, granted)
    ensures NextStep(sys, sys', ReadFinish(r))
    ensures sys'.calls == sys.calls[r := sys.calls[r].(phase := Done(Result(FinishRead(s, sys.calls[r].term, sys.calls[r].key))))]
  {
    hide Plays, Reaches;
    PlaysIn(sys, n, s, full, granted);
    var rd := sys.calls[r].(phase := Done(Get(s.store, sys.calls[r].key)));
    sys' := WithCall(sys, r, rd);
    CallMoves(sys, r, n, s, full, granted, rd);
    assert NextStep(sys, sys', ReadFinish(r));
    OneStep(sys, sys', ReadFinish(r));
  }

  lemma BeginRefines(sys: Sys, r: nat, n: Id, s: NodeState, full: seq<LogEntry>, granted: seq<int>,
      key: string) returns (sys': Sys)
    requires Plays(sys, n, s, full, granted) && r !in sys.calls && s.role == Leader
    ensures OnlyActor(sys, sys', n) && Plays(sys', n, s, full, granted)
    ensures NextStep(sys, sys', ReadBegin(r, n, key))
    ensures s.term >= 0 && sys'.calls == sys.calls[r := Read(n, s.term, key, Checking, 0, 0, {})]
  {
    hide Plays, Reaches;
    PlaysIn(sys, n, s, full, granted);
    sys' := WithCall(sys, r, Read(n, s.term, key, Checking, 0, 0, {}));
    StillPlays(sys, sys', n, s, full, granted);
  }

  lemma NoopRefines(sys: Sys, r: nat, n: Id, s: NodeState, full: seq<LogEntry>, granted: seq<int>) returns (sys': Sys)
    requires Reading(sys, r, n, s, full, granted) && sys.calls[r].phase == Checking && s.role == Leader
    ensures Reaches(sys, sys') && OnlyActor(sys, sys', n)
    ensures Plays(sys', n, AppendOwn(s, NONE, "__noop__", "__noop__", [], []),
                  full + [LogEntry(s.term, |full| + 1, NONE, "__noop__", "__noop__", [], [])], granted)
    ensures sys'.calls == sys.calls[r := sys.calls[r].(phase := Proposed, noop := |full| + 1)]
  {
    hide Plays, Reaches;
    PlaysIn(sys, n, s, full, granted);
    var reps := sys.reps[n := Propose(sys.reps[n], sys.e.nodes[n].term, NONE, "__noop__", "__noop__", [], [])];
    sys' := Sys(sys.e, reps, sys.net, sys.calls[r := sys.calls[r].(phase := Proposed, noop := |full| + 1)]);
    assert NextStep(sys, sys', ReadPropose(r));
    OneStep(sys, sys', ReadPropose(r));
    AppendedPlays(sys, sys', n, s, full, granted, NONE, "__noop__", "__noop__", [], []);
  }

  /** The peers a round asks: all members but the leader, at the configurations of one mode. */
  ghost predicate Asks(c: E.Cluster, n: Id, asked: seq<PeerInfo>) {
    Proper(asked) && exists mode :: OtherMembers(c, n, mode, Ids(asked))
  }

  ghost predicate OtherMembers(c: E.Cluster, n: Id, mode: E.Mode, ids: set<Id>) {
    n in E.Active(c, mode) && ids == E.Active(c, mode) - {n} && E.Active(c, mode) <= c.nodes.Keys
  }

  lemma LeaderAsks(sys: Sys, n: Id, s: NodeState, full: seq<LogEntry>, granted: seq<int>)
    requires Plays(sys, n, s, full, granted) && s.role == Leader
    ensures Asks(sys.e, n, s.peers)
  {
    hide AllOfChange, InMode, Represents, SameBooks, Proper, Ids, E.Active, PeersMatch;
    Members(sys, n, s, n);
    assert OtherMembers(sys.e, n, sys.e.nodes[n].mode, Ids(s.peers));
  }

  /** The node counts against the number of peers it asks, and itself: a majority of the members of that mode. */
  lemma ConfirmRefines(sys: Sys, r: nat, n: Id, s: NodeState, full: seq<LogEntry>, granted: seq<int>,
      asked: seq<PeerInfo>) returns (sys': Sys)
    requires Reading(sys, r, n, s, full, granted) && sys.calls[r].phase == Confirming
    requires Asks(sys.e, n, asked) && sys.calls[r].acks <= Ids(asked) && |sys.calls[r].acks| + 1 > (|asked| + 1) / 2
    ensures Reaches(sys, sys') && OnlyActor(sys, sys', n) && Reading(sys', r, n, s, full, granted)
    ensures sys'.calls == sys.calls[r := sys.calls[r].(phase := Confirmed)]
  {
    hide Plays, Reaches, Proper, Ids, Majority, E.Active;
    PlaysIn(sys, n, s, full, granted);
    var mode := AskedMajority(sys.e, n, asked, sys.calls[r].acks);
    var rd := sys.calls[r].(phase := Confirmed);
    sys' := WithCall(sys, r, rd);
    CallMoves(sys, r, n, s, full, granted, rd);
    assert NextStep(sys, sys', ReadConfirm(r, mode));
    OneStep(sys, sys', ReadConfirm(r, mode));
  }

  lemma AskedMajority(c: E.Cluster, n: Id, asked: seq<PeerInfo>, acks: set<Id>) returns (mode: E.Mode)
    requires Asks(c, n, asked) && acks <= Ids(asked) && |acks| + 1 > (|asked| + 1) / 2
    ensures Majority(acks + {n}, E.Active(c, mode))
  {
    hide Proper, Ids, E.Active;
    mode :| OtherMembers(c, n, mode, Ids(asked));
    var all := E.Active(c, mode);
    SizeIsCardinality(asked);
    assert all == Ids(asked) + {n} && (acks + {n}) * all == acks + {n};
  }

  lemma WaitRefines(sys: Sys, r: nat, n: Id, s: NodeState, full: seq<LogEntry>, granted: seq<int>) returns (sys': Sys)
    requires Reading(sys, r, n, s, full, granted) && sys.calls[r].phase == Confirmed
    requires Leads(s, sys.calls[r].term) && s.lastApplied >= sys.calls[r].index
    ensures Reaches(sys, sys') && OnlyActor(sys, sys', n) && Reading(sys', r, n, s, full, granted)
    ensures sys'.calls == sys.calls[r := sys.calls[r].(phase := Applied)]
  {
    hide Plays, Reaches;
    PlaysIn(sys, n, s, full, granted);
    var rd := sys.calls[r].(phase := Applied);
    sys' := WithCall(sys, r, rd);
    CallMoves(sys, r, n, s, full, granted, rd);
    assert NextStep(sys, sys', ReadWait(r));
    OneStep(sys, sys', ReadWait(r));
  }

  lemma GiveUpRefines(sys: Sys, r: nat, n: Id, s: NodeState, full: seq<LogEntry>, granted: seq<int>) returns (sys': Sys)
    requires Reading(sys, r, n, s, full, granted) && !sys.calls[r].phase.Done?
    ensures Reaches(sys, sys') && OnlyActor(sys, sys', n) && Reading(sys', r, n, s, full, granted)
    ensures sys'.calls == sys.calls[r := sys.calls[r].(phase := Failed)]
  {
    hide Plays, Reaches;
    PlaysIn(sys, n, s, full, granted);
    var rd := sys.calls[r].(phase := Failed);
    sys' := WithCall(sys, r, rd);
    CallMoves(sys, r, n, s, full, granted, rd);
    assert NextStep(sys, sys', ReadGiveUp(r));
    OneStep(sys, sys', ReadGiveUp(r));
  }
}
