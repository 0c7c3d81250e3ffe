/**
 One node as it is, compaction and configuration entries included: its state as a value, and what each
 handler does to it. The class in RaftNode.dfy is verified against these functions.
 `logs` holds the entries after the snapshot boundary `lastIncludedIndex`.
 */
module Node {
  import opened Types

  datatype ConfigState = STABLE | JOINT

  /** The durable record that `persist` writes. */
  datatype Saved = Saved(term: int, votedFor: int, lastIncludedIndex: int, lastIncludedTerm: int, logs: seq<LogEntry>)

  datatype NodeState = NodeState(
    id: Id, term: int, votedFor: int, logs: seq<LogEntry>, commitIndex: int, lastApplied: int,
    role: Role, leaderId: int, peers: seq<PeerInfo>, nextIndex: seq<int>, matchIndex: seq<int>,
    lastIncludedIndex: int, lastIncludedTerm: int, snapshotThreshold: int,
    configState: ConfigState, currentConfig: seq<PeerInfo>, oldConfig: seq<PeerInfo>, newConfig: seq<PeerInfo>,
    votingMember: bool, removed: bool, leaving: bool,
    store: map<string, string>, disk: Saved)

  // ---- log access ----

  function LastLogIndex(s: NodeState): int {
    if s.logs == [] then s.lastIncludedIndex else s.logs[|s.logs| - 1].index
  }

  function LastLogTerm(s: NodeState): int {
    if s.logs == [] then s.lastIncludedTerm else s.logs[|s.logs| - 1].term
  }

  function Pos(s: NodeState, index: int): int {
    index - s.lastIncludedIndex - 1
  }

  predicate HasLogAt(s: NodeState, index: int) {
    index == s.lastIncludedIndex || 0 <= Pos(s, index) < |s.logs|
  }

  function LogTermAt(s: NodeState, index: int): int {
    if index == 0 then 0
    else if index == s.lastIncludedIndex then s.lastIncludedTerm
    else if 0 <= Pos(s, index) < |s.logs| then s.logs[Pos(s, index)].term
    else -1
  }

  predicate CandidateUpToDate(s: NodeState, lastIndex: int, lastTerm: int) {
    if lastTerm != LastLogTerm(s) then lastTerm > LastLogTerm(s) else lastIndex >= LastLogIndex(s)
  }

  // ---- configurations ----

  predicate Contains(cfg: seq<PeerInfo>, id: int) {
    exists i | 0 <= i < |cfg| :: cfg[i].id == id
  }

  predicate InVotingConfig(s: NodeState, id: int) {
    if s.configState == STABLE then Contains(s.currentConfig, id)
    else Contains(s.oldConfig, id) || Contains(s.newConfig, id)
  }

  /** How many members satisfy the test. */
  function CountIf(cfg: seq<PeerInfo>, test: int -> bool): (n: nat)
    ensures n <= |cfg|
  {
    if cfg == [] then 0
    else CountIf(cfg[..|cfg| - 1], test) + (if test(cfg[|cfg| - 1].id) then 1 else 0)
  }

  function GrantedTest(granted: seq<int>): int -> bool {
    id => id in granted
  }

  predicate MajorityByIds(cfg: seq<PeerInfo>, granted: seq<int>) {
    CountIf(cfg, GrantedTest(granted)) > |cfg| / 2
  }

  predicate ElectionMajority(s: NodeState, granted: seq<int>) {
    if s.configState == STABLE then MajorityByIds(s.currentConfig, granted)
    else MajorityByIds(s.oldConfig, granted) && MajorityByIds(s.newConfig, granted)
  }

  function PeerIndex(peers: seq<PeerInfo>, id: int): (i: int)
    ensures -1 <= i < |peers|
    ensures i >= 0 ==> peers[i].id == id && forall j | 0 <= j < i :: peers[j].id != id
    ensures i == -1 ==> !Contains(peers, id)
  {
    if peers == [] then -1
    else
      var i := PeerIndex(peers[..|peers| - 1], id);
      assert forall j | 0 <= j < |peers| - 1 :: peers[j] == peers[..|peers| - 1][j];
      if i >= 0 then i else if peers[|peers| - 1].id == id then |peers| - 1 else -1
  }

  /** Whether this leader counts node `id` as holding entry `index`. */
  predicate HoldsEntry(s: NodeState, index: int, id: int) {
    if id == s.id then LastLogIndex(s) >= index
    else var i := PeerIndex(s.peers, id); 0 <= i < |s.matchIndex| && s.matchIndex[i] >= index
  }

  function HoldsTest(s: NodeState, index: int): int -> bool {
    id => HoldsEntry(s, index, id)
  }

  predicate MajorityInConfig(s: NodeState, cfg: seq<PeerInfo>, index: int) {
    CountIf(cfg, HoldsTest(s, index)) > |cfg| / 2
  }

  predicate MajorityMatched(s: NodeState, e: LogEntry) {
    if e.op == CONFIG_JOINT then MajorityInConfig(s, e.oldConfig, e.index) && MajorityInConfig(s, e.newConfig, e.index)
    else if s.configState == JOINT then MajorityInConfig(s, s.oldConfig, e.index) && MajorityInConfig(s, s.newConfig, e.index)
    else MajorityInConfig(s, s.currentConfig, e.index)
  }

  // ---- roles ----

  function Persist(s: NodeState): NodeState {
    s.(disk := Saved(s.term, s.votedFor, s.lastIncludedIndex, s.lastIncludedTerm, s.logs))
  }

  function BecomeFollower(s: NodeState, newTerm: int): NodeState {
    Persist(s.(role := Follower, term := newTerm, votedFor := NOBODY, leaderId := NOBODY))
  }

  function BecomeCandidate(s: NodeState): NodeState {
    Persist(s.(role := Candidate, term := s.term + 1, votedFor := s.id, leaderId := NOBODY))
  }

  function InitLeaderState(s: NodeState): NodeState {
    s.(nextIndex := seq(|s.peers|, _ => LastLogIndex(s) + 1), matchIndex := seq(|s.peers|, _ => 0))
  }

  function BecomeLeader(s: NodeState): NodeState {
    InitLeaderState(s.(role := Leader, leaderId := s.id))
  }

  // ---- applying ----

  function Others(cfg: seq<PeerInfo>, id: int): seq<PeerInfo> {
    if cfg == [] then []
    else Others(cfg[..|cfg| - 1], id) + (if cfg[|cfg| - 1].id != id then [cfg[|cfg| - 1]] else [])
  }

  /** Appends the members of `cfg` that are neither `id` nor listed already. */
  function AddUnique(peers: seq<PeerInfo>, cfg: seq<PeerInfo>, id: int): seq<PeerInfo> {
    if cfg == [] then peers
    else
      var sofar := AddUnique(peers, cfg[..|cfg| - 1], id);
      var p := cfg[|cfg| - 1];
      if p.id == id || Contains(sofar, p.id) then sofar else sofar + [p]
  }

  function Rebuild(s: NodeState, peers: seq<PeerInfo>): NodeState {
    var t := s.(peers := peers);
    if t.role == Leader then InitLeaderState(t) else t
  }

  function ApplyJoint(s: NodeState, e: LogEntry): NodeState {
    var t := Rebuild(s.(configState := JOINT, oldConfig := e.oldConfig, newConfig := e.newConfig),
                     AddUnique(AddUnique([], e.oldConfig, s.id), e.newConfig, s.id));
    if Contains(e.oldConfig, s.id) && !Contains(e.newConfig, s.id)
    then t.(leaving := true, votingMember := false, role := Follower) else t
  }

  function ApplyNew(s: NodeState, e: LogEntry): NodeState {
    var t := Rebuild(s.(configState := STABLE, currentConfig := e.newConfig, oldConfig := [], newConfig := []),
                     Others(e.newConfig, s.id));
    if Contains(e.newConfig, s.id) then t.(votingMember := true, leaving := false, removed := false)
    else t.(votingMember := false, leaving := false, removed := true, role := Follower, leaderId := NOBODY)
  }

  function ApplyConfig(s: NodeState, e: LogEntry): (r: NodeState)
    ensures r.commitIndex == s.commitIndex && r.lastApplied == s.lastApplied
  {
    if e.op == CONFIG_JOINT then ApplyJoint(s, e)
    else if e.op == CONFIG_NEW then ApplyNew(s, e)
    else s
  }

  function ApplyEntry(s: NodeState, e: LogEntry): NodeState {
    if e.op == CONFIG_JOINT || e.op == CONFIG_NEW then ApplyConfig(s, e) else s.(store := ApplyToStore(s.store, e))
  }

  /** One turn of the apply loop; None where the loop stops. */
  function ApplyNext(s: NodeState): Option<NodeState> {
    var i := s.lastApplied + 1;
    if s.lastApplied >= s.commitIndex then None
    else if i <= s.lastIncludedIndex then Some(s.(lastApplied := i))
    else if !(0 <= Pos(s, i) < |s.logs|) then None
    else Some(ApplyEntry(s, s.logs[Pos(s, i)]).(lastApplied := i))
  }

  function ApplyLoop(s: NodeState): NodeState
    decreases s.commitIndex - s.lastApplied
  {
    match ApplyNext(s)
    case None => s
    case Some(t) => ApplyLoop(t)
  }

  lemma LoopUnfolds(s: NodeState)
    ensures ApplyLoop(s) == match ApplyNext(s) case None => s case Some(t) => ApplyLoop(t)
  {
  }

  /** Entries past `index`, in order. */
  function After(logs: seq<LogEntry>, index: int): seq<LogEntry> {
    if logs == [] then []
    else After(logs[..|logs| - 1], index) + (if logs[|logs| - 1].index > index then [logs[|logs| - 1]] else [])
  }

  function CreateSnapshot(s: NodeState, upto: int): NodeState {
    if upto <= s.lastIncludedIndex || upto > s.lastApplied || s.configState == JOINT || LogTermAt(s, upto) < 0 then s
    else Persist(s.(logs := After(s.logs, upto), lastIncludedIndex := upto, lastIncludedTerm := LogTermAt(s, upto)))
  }

  function MaybeCreateSnapshot(s: NodeState): NodeState {
    if s.configState == JOINT then s
    else if s.lastApplied - s.lastIncludedIndex >= s.snapshotThreshold then CreateSnapshot(s, s.lastApplied)
    else s
  }

  function ApplyCommitted(s: NodeState): NodeState {
    MaybeCreateSnapshot(ApplyLoop(s))
  }

  // ---- elections ----

  function StartElection(s: NodeState): (NodeState, Option<RequestVoteArgs>) {
    if s.removed || s.leaving || !s.votingMember then (s, None)
    else if !InVotingConfig(s, s.id) then (s.(votingMember := false), None)
    else
      var t := BecomeCandidate(s);
      (t, Some(RequestVoteArgs(t.term, t.id, LastLogIndex(t), LastLogTerm(t))))
  }

  /** One reply of the vote loop; the loop goes on while the last component is false. */
  function CountVote(s: NodeState, asked: int, granted: seq<int>, voter: int,
      r: RequestVoteReply): (NodeState, seq<int>, bool) {
    if s.role != Candidate || s.term != asked then (s, granted, true)
    else if r.term > s.term then (BecomeFollower(s, r.term), granted, true)
    else if !r.voteGranted then (s, granted, false)
    else if ElectionMajority(s, granted + [voter]) then (BecomeLeader(s), granted + [voter], true)
    else (s, granted + [voter], false)
  }

  /** The old and new configuration of a joint entry that adds one node. */
  function PlanAdd(s: NodeState, p: PeerInfo): Option<(seq<PeerInfo>, seq<PeerInfo>)> {
    if s.role != Leader || s.configState != STABLE || Contains(s.currentConfig, p.id) then None
    else Some((s.currentConfig, s.currentConfig + [p]))
  }

  function PlanRemove(s: NodeState, id: int): Option<(seq<PeerInfo>, seq<PeerInfo>)> {
    if s.role != Leader || s.configState != STABLE || !Contains(s.currentConfig, id) then None
    else if Others(s.currentConfig, id) == [] then None
    else Some((s.currentConfig, Others(s.currentConfig, id)))
  }

  // ---- handlers ----

  function HandleRequestVote(s: NodeState, a: RequestVoteArgs): (NodeState, RequestVoteReply) {
    if !s.votingMember || !InVotingConfig(s, a.candidateId) || a.term < s.term then (s, RequestVoteReply(s.term, false))
    else
      var t := if a.term > s.term then BecomeFollower(s, a.term) else s;
      if (t.votedFor == NOBODY || t.votedFor == a.candidateId) && CandidateUpToDate(t, a.lastLogIndex, a.lastLogTerm)
      then (Persist(t.(votedFor := a.candidateId)), RequestVoteReply(t.term, true))
      else (t, RequestVoteReply(s.term, false))
  }

  /** One entry of an AppendEntries request. */
  function MergeOne(logs: seq<LogEntry>, boundary: int, e: LogEntry): seq<LogEntry> {
    if e.index <= boundary then logs
    else
      var pos := e.index - boundary - 1;
      if pos < |logs| then (if logs[pos].term != e.term then logs[..pos] + [e] else logs)
      else logs + [e]
  }

  function MergeAll(logs: seq<LogEntry>, boundary: int, entries: seq<LogEntry>): seq<LogEntry> {
    if entries == [] then logs
    else MergeOne(MergeAll(logs, boundary, entries[..|entries| - 1]), boundary, entries[|entries| - 1])
  }

  function Heed(s: NodeState, term: int, leader: int): NodeState {
    (if term > s.term || s.role != Follower then BecomeFollower(s, term) else s).(leaderId := leader)
  }

  function HandleAppendEntries(s: NodeState, a: AppendEntriesArgs): (NodeState, AppendEntriesReply) {
    if !InVotingConfig(s, a.leaderId) || a.term < s.term then (s, AppendEntriesReply(s.term, false))
    else
      var t := Heed(s, a.term, a.leaderId);
      if a.prevLogIndex < t.lastIncludedIndex then (t, AppendEntriesReply(t.term, true))
      else if !HasLogAt(t, a.prevLogIndex) || LogTermAt(t, a.prevLogIndex) != a.prevLogTerm
      then (t, AppendEntriesReply(s.term, false))
      else
        var u := Commit(Merged(t, a.entries), a.leaderCommit);
        (u, AppendEntriesReply(u.term, true))
  }

  /** Whether some entry of the request changed the log; only then is it persisted. */
  predicate Changes(logs: seq<LogEntry>, boundary: int, entries: seq<LogEntry>) {
    && entries != []
    && var init := entries[..|entries| - 1];
    || Changes(logs, boundary, init)
    || MergeAll(logs, boundary, entries) != MergeAll(logs, boundary, init)
  }

  function Merged(s: NodeState, entries: seq<LogEntry>): NodeState {
    if Changes(s.logs, s.lastIncludedIndex, entries)
    then Persist(s.(logs := MergeAll(s.logs, s.lastIncludedIndex, entries))) else s
  }

  function Commit(s: NodeState, leaderCommit: int): NodeState {
    if leaderCommit <= s.commitIndex then s
    else ApplyCommitted(s.(commitIndex := if leaderCommit < LastLogIndex(s) then leaderCommit else LastLogIndex(s)))
  }

  // ---- the leader's side ----

  function AppendOwn(s: NodeState, op: CommandType, key: string, value: string, oldCfg: seq<PeerInfo>,
      newCfg: seq<PeerInfo>): NodeState {
    Persist(s.(logs := s.logs + [LogEntry(s.term, LastLogIndex(s) + 1, op, key, value, oldCfg, newCfg)]))
  }

  /** The entries at indexes next .. last that are still in `logs`. */
  function EntriesBetween(s: NodeState, next: int, last: int): seq<LogEntry>
    decreases last - next
  {
    if next > last then []
    else EntriesBetween(s, next, last - 1) + (if 0 <= Pos(s, last) < |s.logs| then [s.logs[Pos(s, last)]] else [])
  }

  function BuildAppend(s: NodeState, next: int): AppendEntriesArgs {
    AppendEntriesArgs(s.term, s.id, next - 1, LogTermAt(s, next - 1), EntriesBetween(s, next, LastLogIndex(s)), s.commitIndex)
  }

  function TakeAppendReply(s: NodeState, i: nat, a: AppendEntriesArgs, asked: int, r: AppendEntriesReply): NodeState
    requires i < |s.nextIndex| && i < |s.matchIndex|
  {
    if s.role != Leader || s.term != asked then s
    else if r.term > s.term then BecomeFollower(s, r.term)
    else if r.success then
      var sent := a.prevLogIndex + |a.entries|;
      var m := if s.matchIndex[i] >= sent then s.matchIndex[i] else sent;
      s.(matchIndex := s.matchIndex[i := m], nextIndex := s.nextIndex[i := m + 1])
    else
      s.(nextIndex := s.nextIndex[i := if s.nextIndex[i] > s.lastIncludedIndex + 1 then s.nextIndex[i] - 1 else s.lastIncludedIndex])
  }

  predicate CanCommit(s: NodeState, n: int) {
    && LogTermAt(s, n) == s.term
    && 0 <= Pos(s, n) < |s.logs|
    && MajorityMatched(s, s.logs[Pos(s, n)])
  }

  /** The largest index in (commitIndex, n] that can be committed, or commitIndex. */
  function LargestCommittable(s: NodeState, n: int): (c: int)
    ensures c == s.commitIndex || (s.commitIndex < c <= n && CanCommit(s, c))
    ensures forall j | c < j <= n && s.commitIndex < j :: !CanCommit(s, j)
    decreases n - s.commitIndex
  {
    if n <= s.commitIndex then s.commitIndex else if CanCommit(s, n) then n else LargestCommittable(s, n - 1)
  }

  function UpdateCommitIndex(s: NodeState): NodeState {
    if s.role != Leader then s
    else
      var c := LargestCommittable(s, LastLogIndex(s));
      if c > s.commitIndex then ApplyCommitted(s.(commitIndex := c)) else s
  }

  // ---- reads ----

  /** Some entry of the leader's own term is committed, as far as the uncompacted log can tell. */
  predicate TermCommitted(s: NodeState) {
    s.role == Leader && s.commitIndex > s.lastIncludedIndex && LogTermAt(s, s.commitIndex) == s.term
  }

  predicate NoopCommitted(s: NodeState, noop: int) {
    s.commitIndex >= noop && LogTermAt(s, s.commitIndex) == s.term
  }

  predicate Leads(s: NodeState, asked: int) {
    s.role == Leader && s.term == asked
  }

  /** The empty request that confirms leadership. */
  function BuildReadBeat(s: NodeState): AppendEntriesArgs {
    AppendEntriesArgs(s.term, s.id, LastLogIndex(s), LastLogTerm(s), [], s.commitIndex)
  }

  /** One reply of the confirmation round: the new count, or None where the round fails. */
  function TakeBeatReply(s: NodeState, asked: int, count: nat, r: AppendEntriesReply): (NodeState, Option<nat>) {
    if r.term > s.term then (BecomeFollower(s, r.term), None)
    else if !Leads(s, asked) then (s, None)
    else (s, Some(if r.success then count + 1 else count))
  }

  datatype ReadResult = Found(value: string) | NoKey | NotLeader

  function FinishRead(s: NodeState, asked: int, key: string): ReadResult {
    if !Leads(s, asked) then NotLeader else if key in s.store then Found(s.store[key]) else NoKey
  }

  // ---- snapshots and restart ----

  function HandleInstallSnapshot(s: NodeState, a: InstallSnapshotArgs): (NodeState, InstallSnapshotReply) {
    if a.term < s.term then (s, InstallSnapshotReply(s.term))
    else
      var t := Heed(s, a.term, a.leaderId);
      if a.lastIncludedIndex <= t.lastIncludedIndex then (t, InstallSnapshotReply(t.term))
      else
        (Persist(t.(store := a.kvData, logs := After(t.logs, a.lastIncludedIndex),
                    lastIncludedIndex := a.lastIncludedIndex, lastIncludedTerm := a.lastIncludedTerm,
                    commitIndex := if t.commitIndex >= a.lastIncludedIndex then t.commitIndex else a.lastIncludedIndex,
                    lastApplied := if t.lastApplied >= a.lastIncludedIndex then t.lastApplied else a.lastIncludedIndex)),
         InstallSnapshotReply(t.term))
  }

  function BuildInstall(s: NodeState): InstallSnapshotArgs {
    InstallSnapshotArgs(s.term, s.id, s.lastIncludedIndex, s.lastIncludedTerm, s.store)
  }

  function TakeInstallReply(s: NodeState, i: nat, asked: int, r: InstallSnapshotReply): NodeState
    requires i < |s.nextIndex| && i < |s.matchIndex|
  {
    if s.role != Leader || s.term != asked then s
    else if r.term > s.term then BecomeFollower(s, r.term)
    else s.(matchIndex := s.matchIndex[i := if s.matchIndex[i] >= s.lastIncludedIndex then s.matchIndex[i] else s.lastIncludedIndex],
            nextIndex := s.nextIndex[i := s.lastIncludedIndex + 1])
  }

  /** A new process over a durable record and a database, with the peers of its start-up file. */
  function Boot(id: Id, address: (string, int), others: seq<PeerInfo>, threshold: int, store: map<string, string>,
      d: Saved): NodeState {
    NodeState(id, d.term, d.votedFor, After(d.logs, d.lastIncludedIndex), d.lastIncludedIndex, d.lastIncludedIndex,
              Follower, NOBODY, others, [], [], d.lastIncludedIndex, d.lastIncludedTerm, threshold,
              STABLE, [PeerInfo(id, address.0, address.1)] + others, [], [], true, false, false, store, d)
  }

  function Restart(s: NodeState, address: (string, int), others: seq<PeerInfo>): NodeState {
    Boot(s.id, address, others, s.snapshotThreshold, s.store, s.disk)
  }
}
