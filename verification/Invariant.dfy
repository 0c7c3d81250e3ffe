/** The inductive invariant of the cluster, stated against a record of what has happened. */
module Invariant {
  import opened Types
  import opened Quorum
  import opened Protocol
  import E = Election
  import Replay

  /** `base` is the log a leader was elected with, `log` what it has grown to. */
  datatype TermLog = TermLog(base: seq<LogEntry>, log: seq<LogEntry>)

  /** The entry at (1-based) `index` that the leader of `term` appended itself. */
  datatype Point = Point(term: nat, index: nat)

  /** What held when a read began. */
  datatype Mark = Mark(terms: map<Id, nat>, elected: set<nat>, points: set<Point>, commit: nat)

  /** stored[q, t] is how much of term t's log q had accepted while in term t; points are the
      places up to which some leader advanced its commit index; applied[n] is the longest
      sequence of entries n's store has ever been through. */
  datatype History = History(
    wins: E.Wins, logs: map<nat, TermLog>, cand: map<(nat, Id), seq<LogEntry>>,
    stored: map<(Id, nat), nat>, points: set<Point>, applied: map<Id, seq<LogEntry>>, marks: map<nat, Mark>)

  ghost function Stored(h: History, q: Id, t: nat): nat {
    if (q, t) in h.stored then h.stored[(q, t)] else 0
  }

  // ---- points: chosen, or no longer choosable ----

  ghost predicate IsPoint(h: History, p: Point) {
    && p.term in h.logs
    && 1 <= p.index <= |h.logs[p.term].log|
    && h.logs[p.term].log[p.index - 1].term == p.term
  }

  ghost function Accepters(s: Sys, h: History, p: Point): set<Id> {
    set q | q in s.e.nodes && Stored(h, q, p.term) >= p.index
  }

  ghost predicate Chosen(s: Sys, h: History, p: Point) {
    E.IsQuorum(s.e, Accepters(s, h, p))
  }

  ghost function Refusers(s: Sys, h: History, p: Point): set<Id> {
    set q | q in s.e.nodes && s.e.nodes[q].term > p.term && Stored(h, q, p.term) < p.index
  }

  ghost predicate Blocked(s: Sys, h: History, p: Point) {
    E.IsQuorum(s.e, Refusers(s, h, p))
  }

  ghost predicate Has(h: History, log: seq<LogEntry>, p: Point)
    requires IsPoint(h, p)
  {
    Agree(log, h.logs[p.term].log, p.index)
  }

  ghost predicate Kept(s: Sys, h: History, log: seq<LogEntry>, p: Point)
    requires IsPoint(h, p)
  {
    Has(h, log, p) || Blocked(s, h, p)
  }

  // ---- the parts of the invariant ----

  ghost predicate Shape(s: Sys, h: History) {
    && s.e.nodes.Keys == s.reps.Keys == h.applied.Keys
    && E.Active(s.e, E.Joint) <= s.e.nodes.Keys && Nested(s.e)
    && h.wins.Keys == h.logs.Keys
    && h.marks.Keys == s.calls.Keys
    && E.Inv(s.e, h.wins)
  }

  /** A log is a prefix of the log of the leader that appended its last entry. */
  ghost predicate LogOK(h: History, log: seq<LogEntry>) {
    log != [] ==>
      && LastTerm(log) > 0
      && LastTerm(log) in h.logs
      && Agree(log, h.logs[LastTerm(log)].log, |log|)
  }

  ghost predicate EntryOK(h: History, t: nat, i: nat)
    requires t in h.logs && i < |h.logs[t].log|
  {
    var log := h.logs[t].log;
    && log[i].index == i + 1
    && 0 < log[i].term <= t
    && (i < |h.logs[t].base| <==> log[i].term < t)
    && log[i].term in h.logs
    && Agree(log, h.logs[log[i].term].log, i + 1)
  }

  ghost predicate TermLogOK(h: History, t: nat)
    requires t in h.logs
  {
    && Agree(h.logs[t].base, h.logs[t].log, |h.logs[t].base|)
    && forall i: nat | i < |h.logs[t].log| :: EntryOK(h, t, i)
  }

  ghost predicate LogsOK(s: Sys, h: History) {
    && (forall t | t in h.logs :: TermLogOK(h, t))
    && (forall n | n in s.reps && n in s.e.nodes :: LogOK(h, s.reps[n].log) && LastTerm(s.reps[n].log) <= s.e.nodes[n].term)
    && (forall k | k in h.cand ::
          && k.1 in s.e.nodes && k.0 <= s.e.nodes[k.1].term
          && LogOK(h, h.cand[k]) && LastTerm(h.cand[k]) < k.0)
  }

  /** A leader's log is its term's log; a candidate's log is the one it asked for votes with. */
  ghost predicate RolesOK(s: Sys, h: History) {
    forall n | n in s.reps && n in s.e.nodes ::
      && (s.e.nodes[n].role == Leader ==> s.e.nodes[n].term in h.logs && h.logs[s.e.nodes[n].term].log == s.reps[n].log)
      && (s.e.nodes[n].role == Candidate ==>
            (s.e.nodes[n].term, n) in h.cand && h.cand[(s.e.nodes[n].term, n)] == s.reps[n].log)
  }

  ghost predicate StoredOK(s: Sys, h: History) {
    forall q, t | (q, t) in h.stored && h.stored[(q, t)] > 0 ::
      && q in s.e.nodes && q in s.reps && t in h.logs && t <= s.e.nodes[q].term
      && h.stored[(q, t)] <= |h.logs[t].log|
      && (t == s.e.nodes[q].term ==> Agree(s.reps[q].log, h.logs[t].log, h.stored[(q, t)]))
  }

  /** The entries a commit index covers are those of some chosen point. */
  ghost predicate Covered(h: History, log: seq<LogEntry>, c: nat, p: Point) {
    && p in h.points && p.term in h.logs
    && c <= p.index && Agree(log, h.logs[p.term].log, c)
  }

  ghost predicate CommitOK(h: History, log: seq<LogEntry>, c: nat, term: nat) {
    && c <= |log|
    && (c > 0 ==> exists p :: Covered(h, log, c, p) && p.term <= term)
  }

  ghost predicate AppendOK(s: Sys, h: History, a: Append) {
    && a.term in h.logs
    && a.dst in s.e.nodes && a.src in s.e.nodes
    && E.Beat(a.src, a.term, a.dst) in s.e.beats
    && var log := h.logs[a.term].log;
    && a.prev + |a.entries| <= |log|
    && a.prevTerm == TermAt(log, a.prev)
    && (forall i | 0 <= i < |a.entries| :: a.entries[i] == log[a.prev + i])
    && a.leaderCommit <= a.prev + |a.entries|
    && CommitOK(h, log, a.leaderCommit, a.term)
  }

  ghost predicate ReplyOK(s: Sys, h: History, a: Append, success: bool) {
    AppendOK(s, h, a) && (success ==> Stored(h, a.dst, a.term) >= a.prev + |a.entries|)
  }

  ghost predicate MessageOK(s: Sys, h: History, m: Message) {
    match m
    case RequestVote(cand, term, lastIndex, lastTerm) =>
      && (term, cand) in h.cand
      && lastIndex == |h.cand[(term, cand)]| && lastTerm == LastTerm(h.cand[(term, cand)])
    case VoteReply(voter, cand, asked, _, granted) => granted ==> E.Vote(voter, asked, cand) in s.e.votes
    case AppendEntries(a) => AppendOK(s, h, a)
    case AppendReply(a, _, success) => ReplyOK(s, h, a, success)
    case Install(src, dst, term, base, baseTerm, _, _) =>
      && term in h.logs && E.Beat(src, term, dst) in s.e.beats
      && var log := h.logs[term].log;
      && base <= |log| && baseTerm == TermAt(log, base) && AppendEntries(Slice(src, dst, term, log, base)) in s.net
    case InstallReply(_, dst, asked, term, base) => term <= asked ==> Stored(h, dst, asked) >= base
  }

  ghost predicate NetOK(s: Sys, h: History) {
    forall m | m in s.net :: MessageOK(s, h, m)
  }

  /** `nextIndex_` stays within reach of the log, and `matchIndex_` is sound. */
  ghost predicate PeersOK(s: Sys, h: History) {
    forall n | n in s.reps && n in s.e.nodes && s.e.nodes[n].role == Leader ::
      && s.reps[n].next.Keys == E.Active(s.e, s.e.nodes[n].mode) - {n} == s.reps[n].matched.Keys
      && (forall p | p in s.reps[n].next :: 0 <= s.reps[n].next[p] <= |s.reps[n].log| + 1)
      && (forall p | p in s.reps[n].matched :: 0 <= s.reps[n].matched[p] <= Stored(h, p, s.e.nodes[n].term))
      && Stored(h, n, s.e.nodes[n].term) == |s.reps[n].log|
  }

  /** What a node accepted stays in its log, unless it can no longer be chosen. */
  ghost predicate NodesKeep(s: Sys, h: History) {
    forall n, p: Point | n in s.reps && IsPoint(h, p) && p.index <= Stored(h, n, p.term) ::
      Kept(s, h, s.reps[n].log, p)
  }

  /** ... and is in the log of every later candidate the node voted for ... */
  ghost predicate VotesKeep(s: Sys, h: History) {
    forall q: Id, t: nat, c: Id, p: Point |
      E.Vote(q, t, c) in s.e.votes && p.term < t && IsPoint(h, p) && p.index <= Stored(h, q, p.term) ::
      (t, c) in h.cand && Kept(s, h, h.cand[(t, c)], p)
  }

  /** ... and in the log every later leader was elected with. */
  ghost predicate LeadersKeep(s: Sys, h: History) {
    forall t, p: Point | t in h.logs && p.term < t && IsPoint(h, p) :: Kept(s, h, h.logs[t].base, p)
  }

  ghost predicate PointsOK(s: Sys, h: History) {
    && AlwaysMeet(s.e.oldCfg, s.e.newCfg)
    && (forall p | p in h.points :: IsPoint(h, p) && Chosen(s, h, p))
    && (forall n, p | n in s.e.nodes && n in s.reps && p in h.points && s.LeaderIn(n, p.term) :: p.index <= s.reps[n].commit)
  }

  ghost predicate CommitsOK(s: Sys, h: History) {
    forall n | n in s.reps && n in s.e.nodes :: CommitOK(h, s.reps[n].log, s.reps[n].commit, s.e.nodes[n].term)
  }

  ghost predicate AllParts(s: Sys, h: History) {
    && Shape(s, h)
    && LogsOK(s, h)
    && RolesOK(s, h)
    && StoredOK(s, h)
    && NetOK(s, h)
    && PeersOK(s, h)
    && NodesKeep(s, h)
    && VotesKeep(s, h)
    && LeadersKeep(s, h)
    && PointsOK(s, h)
    && CommitsOK(s, h)
  }

  /** Stated as an equation so that proofs hand it on as one fact, not part by part. */
  ghost predicate LogInv(s: Sys, h: History) {
    AllParts(s, h) == true
  }

  lemma LogParts(s: Sys, h: History)
    requires LogInv(s, h)
    ensures LogsOK(s, h) && RolesOK(s, h) && Shape(s, h) && StoredOK(s, h) && NetOK(s, h) && PeersOK(s, h)
    ensures NodesKeep(s, h) && VotesKeep(s, h) && LeadersKeep(s, h) && PointsOK(s, h) && CommitsOK(s, h)
  {
    hide LogsOK, RolesOK, Shape, StoredOK, NetOK, PeersOK, NodesKeep, VotesKeep, LeadersKeep, PointsOK, CommitsOK;
  }

  // ---- how a step extends the record ----

  ghost predicate WinsNow(s: Sys, n: Id, m: Message)
    requires n in s.e.nodes && m.VoteReply?
  {
    var v := s.e.nodes[n];
    m.term <= v.term && m.granted && E.HasElectionMajority(s.e, v.mode, v.granted + {m.voter})
  }

  ghost predicate Accepts(s: Sys, n: Id, a: Append)
    requires n in s.e.nodes && n in s.reps
  {
    a.term >= s.e.nodes[n].term && PrevMatches(s.reps[n].log, a)
  }

  ghost function RecordWin(h: History, n: Id, t: nat, win: E.Win, log: seq<LogEntry>): History {
    h.(wins := h.wins[t := win], logs := h.logs[t := TermLog(log, log)], stored := h.stored[(n, t) := |log|])
  }

  ghost function RecordPropose(h: History, n: Id, t: nat, log: seq<LogEntry>): History {
    if t in h.logs then h.(logs := h.logs[t := h.logs[t].(log := log)], stored := h.stored[(n, t) := |log|]) else h
  }

  ghost function RecordAccept(h: History, n: Id, t: nat, upto: nat): History {
    h.(stored := h.stored[(n, t) := if Stored(h, n, t) >= upto then Stored(h, n, t) else upto])
  }

  ghost function RecordApply(h: History, n: Id, k: nat, e: LogEntry): History {
    if n in h.applied && k == |h.applied[n]| then h.(applied := h.applied[n := h.applied[n] + [e]]) else h
  }

  /** What a node's database has been through, once it has taken that of a snapshot. */
  ghost function RecordDump(h: History, n: Id, m: Message): History
    requires m.Install?
  {
    if exists past :: DumpOf(h, m, past)
    then var past :| DumpOf(h, m, past); h.(applied := h.applied[n := past])
    else h
  }

  /** The database of the snapshot went through `past`, which was committed, and has been replayed up to `upto`. */
  ghost predicate DumpOf(h: History, m: Message, past: seq<LogEntry>)
    requires m.Install?
  {
    m.base <= m.upto <= |past| && CommitOK(h, past, |past|, m.term) && Replay.Replays(m.store, past, m.upto)
  }

  ghost function RecordStart(s: Sys, h: History, r: nat, commit: nat): History {
    h.(marks := h.marks[r := Mark(map q | q in s.e.nodes :: s.e.nodes[q].term, h.wins.Keys, h.points, commit)])
  }

  /** Which node of the cluster a step of a read belongs to. */
  ghost function Actor(s: Sys, step: Step): Id {
    match step
    case StartElection(n) => n
    case HandleVote(n, _) => n
    case CountVote(n, _) => n
    case ClientAppend(n, _, _, _, _, _) => n
    case SendAppend(n, _) => n
    case HandleAppend(n, _) => n
    case TakeAppendReply(n, _) => n
    case AdvanceCommit(n, _) => n
    case ApplyOne(n) => n
    case Compact(n) => n
    case SendSnapshot(n, _) => n
    case TakeDump(n, _, _) => n
    case AnswerInstall(n, _, _) => n
    case TakeInstallReply(n, _) => n
    case OnlyLearnTerm(n, _) => n
    case Restart(n, _) => n
    case ChangeMode(n, _, _) => n
    case IgnoreVote(n, _) => n
    case IgnoreAppend(n, _) => n
    case ReadBegin(_, n, _) => n
    case _ => if step.r in s.calls then s.calls[step.r].node else 0
  }

  ghost function Record(s: Sys, h: History, step: Step): History {
    var n := Actor(s, step);
    if !(n in s.e.nodes && n in s.reps) then h else
    var v, rep := s.e.nodes[n], s.reps[n];
    match step
    case StartElection(_) => h.(cand := h.cand[(v.term + 1, n) := rep.log])
    case CountVote(_, m) =>
      if m.VoteReply? && WinsNow(s, n, m)
      then RecordWin(h, n, v.term, E.Win(n, v.granted + {m.voter}, v.mode), rep.log) else h
    case ClientAppend(_, op, key, value, oldCfg, newCfg) =>
      RecordPropose(h, n, v.term, Propose(rep, v.term, op, key, value, oldCfg, newCfg).log)
    case ReadPropose(_) => RecordPropose(h, n, v.term, Propose(rep, v.term, NONE, "__noop__", "__noop__", [], []).log)
    case HandleAppend(_, a) => if Accepts(s, n, a) then RecordAccept(h, n, a.term, a.prev + |a.entries|) else h
    case AdvanceCommit(_, i) => h.(points := h.points + {Point(v.term, i)})
    case ApplyOne(_) => if rep.applied < |rep.log| then RecordApply(h, n, rep.applied, rep.log[rep.applied]) else h
    case TakeDump(_, m, _) => if m.Install? then RecordDump(h, n, m) else h
    case ReadBegin(r, _, _) => RecordStart(s, h, r, rep.commit)
    case _ => h
  }

  /** What every step does to the record: terms and logs grow, and what a node accepted in a
      term it has left is settled. */
  ghost predicate Grows(s: Sys, h: History, s': Sys, h': History) {
    && s'.e.nodes.Keys == s.e.nodes.Keys && s'.e.oldCfg == s.e.oldCfg && s'.e.newCfg == s.e.newCfg
    && (forall q | q in s.e.nodes :: s.e.nodes[q].term <= s'.e.nodes[q].term)
    && LogsGrow(h, h')
    && (forall q: Id, t: nat :: Stored(h, q, t) <= Stored(h', q, t))
    && (forall q: Id, t: nat | q in s.e.nodes && t < s.e.nodes[q].term :: Stored(h', q, t) == Stored(h, q, t))
    && h.points <= h'.points
    && (forall r | r in h.marks :: r in h'.marks && h'.marks[r] == h.marks[r])
  }

  ghost predicate LogsGrow(h: History, h': History) {
    && (forall t | t in h.logs ::
          && t in h'.logs && h'.logs[t].base == h.logs[t].base
          && Agree(h.logs[t].log, h'.logs[t].log, |h.logs[t].log|))
    && (forall k | k in h.cand :: k in h'.cand && h'.cand[k] == h.cand[k])
  }
}
