/** The records exchanged and stored by the nodes, and the store they drive. */
module Types {
  datatype Option<+T> = None | Some(value: T)

  /** A node id. -1 is what `votedFor_` holds when no vote was cast, so no node may carry it. */
  type Id = i: int | i != NOBODY witness 0

  const NOBODY := -1

  datatype CommandType = PUT | GET | DEL | NONE | CONFIG_JOINT | CONFIG_NEW

  datatype Role = Follower | Candidate | Leader

  datatype PeerInfo = PeerInfo(id: int, ip: string, port: int)

  /** Log positions are 1-based in `index` and 0-based in sequences. */
  datatype LogEntry = LogEntry(
    term: int, index: int, op: CommandType, key: string, value: string,
    oldConfig: seq<PeerInfo>, newConfig: seq<PeerInfo>)

  datatype RequestVoteArgs = RequestVoteArgs(
    term: int, candidateId: int, lastLogIndex: int, lastLogTerm: int)

  datatype RequestVoteReply = RequestVoteReply(term: int, voteGranted: bool)

  datatype AppendEntriesArgs = AppendEntriesArgs(
    term: int, leaderId: int, prevLogIndex: int, prevLogTerm: int,
    entries: seq<LogEntry>, leaderCommit: int)

  datatype AppendEntriesReply = AppendEntriesReply(term: int, success: bool)

  datatype InstallSnapshotArgs = InstallSnapshotArgs(
    term: int, leaderId: int, lastIncludedIndex: int, lastIncludedTerm: int,
    kvData: map<string, string>)

  datatype InstallSnapshotReply = InstallSnapshotReply(term: int)

  /** What applying an entry does to the database; only PUT and DEL touch it. */
  function ApplyToStore(store: map<string, string>, e: LogEntry): map<string, string> {
    if e.op == PUT then store[e.key := e.value]
    else if e.op == DEL then store - {e.key}
    else store
  }

  /** The first `k` entries of both logs exist and are equal. */
  ghost predicate Agree<T>(a: seq<T>, b: seq<T>, k: int) {
    && 0 <= k <= |a|
    && k <= |b|
    && forall i | 0 <= i < k :: a[i] == b[i]
  }

  function LastTerm(log: seq<LogEntry>): int {
    if log == [] then 0 else log[|log| - 1].term
  }

  /** The term stored at 1-based position `i`: 0 before the log, -1 outside it. */
  function TermAt(log: seq<LogEntry>, i: int): int {
    if i == 0 then 0 else if 1 <= i <= |log| then log[i - 1].term else -1
  }
}
