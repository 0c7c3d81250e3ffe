/** The text protocol between nodes: what is written for each record, and what is read back from any text. */
module Codec {
  import opened Types
  import opened Text
  import Quorum

  // ---- writing; each text function takes what follows it ----

  /** A word and the space after it. */
  function W(w: string, k: string): string {
    w + (" " + k)
  }

  function OpCode(op: CommandType): int {
    match op
    case PUT => 0
    case GET => 1
    case DEL => 2
    case NONE => 3
    case CONFIG_JOINT => 4
    case CONFIG_NEW => 5
  }

  function PeersText(cfg: seq<PeerInfo>, k: string): string {
    if cfg == [] then k
    else " " + W(Str(cfg[0].id), W(cfg[0].ip, Str(cfg[0].port) + PeersText(cfg[1..], k)))
  }

  function ConfigText(cfg: seq<PeerInfo>, k: string): string {
    Str(|cfg|) + PeersText(cfg, k)
  }

  function EntryText(e: LogEntry, k: string): string {
    W(Str(e.index), W(Str(e.term), W(Str(OpCode(e.op)), W(e.key, W(e.value, ConfigText(e.oldConfig, " " + ConfigText(e.newConfig, k)))))))
  }

  function EntriesText(es: seq<LogEntry>, k: string): string {
    if es == [] then k else EntryText(es[0], "\n" + EntriesText(es[1..], k))
  }

  function AppendHeader(a: AppendEntriesArgs, k: string): string {
    W("AE", W(Str(a.term), W(Str(a.leaderId), W(Str(a.prevLogIndex), W(Str(a.prevLogTerm), W(Str(a.leaderCommit),
      Str(|a.entries|) + ("\n" + k)))))))
  }

  function AppendText(a: AppendEntriesArgs): string {
    AppendHeader(a, EntriesText(a.entries, ""))
  }

  function VoteText(a: RequestVoteArgs): string {
    W("RV", W(Str(a.term), W(Str(a.candidateId), W(Str(a.lastLogIndex), Str(a.lastLogTerm)))))
  }

  function ReplyText(kind: string, term: int, yes: bool): string {
    W(kind, W(Str(term), Str(if yes then 1 else 0)))
  }

  function PairsText(data: map<string, string>, keys: seq<string>, k: string): string
    requires forall i | 0 <= i < |keys| :: keys[i] in data
  {
    if keys == [] then k else W(keys[0], data[keys[0]] + ("\n" + PairsText(data, keys[1..], k)))
  }

  /** The keys in the order they are written. */
  ghost predicate Lists(keys: seq<string>, data: map<string, string>) {
    && (forall i | 0 <= i < |keys| :: keys[i] in data)
    && (forall i, j | 0 <= i < j < |keys| :: keys[i] != keys[j])
    && |keys| == |data|
    && forall x | x in data :: x in keys
  }

  /** A text for the record, with its pairs in some order. */
  ghost predicate Renders(a: InstallSnapshotArgs, text: string) {
    exists keys :: Lists(keys, a.kvData) && text == InstallHeader(a, PairsText(a.kvData, keys, ""))
  }

  function InstallHeader(a: InstallSnapshotArgs, k: string): string {
    W("IS", W(Str(a.term), W(Str(a.leaderId), W(Str(a.lastIncludedIndex), W(Str(a.lastIncludedTerm), Str(|a.kvData|) + ("\n" + k))))))
  }

  // ---- reading ----

  /** A code outside 0..5 behaves as NONE does: no case of the apply step matches it. */
  function OpOf(code: int): CommandType {
    if code == 0 then PUT else if code == 1 then GET else if code == 2 then DEL
    else if code == 4 then CONFIG_JOINT else if code == 5 then CONFIG_NEW else NONE
  }

  function GetPeer(st: Stream): (PeerInfo, Stream) {
    var (id, s1) := GetInt(st, -1);
    var (ip, s2) := GetWord(s1, "");
    var (port, s3) := GetInt(s2, 0);
    (PeerInfo(id, ip, port), s3)
  }

  function GetPeers(st: Stream, count: nat, got: seq<PeerInfo>): (seq<PeerInfo>, Stream)
    decreases count
  {
    if count == 0 then (got, st)
    else
      var (p, s) := GetPeer(st);
      GetPeers(s, count - 1, got + [p])
  }

  /** decodeConfig: it does not look at the fail bit. */
  function GetConfig(st: Stream): (seq<PeerInfo>, Stream) {
    var (count, s) := GetCount(st, 0);
    GetPeers(s, count, [])
  }

  function GetEntry(st: Stream): Option<(LogEntry, Stream)> {
    var (index, s1) := GetInt(st, 0);
    var (term, s2) := GetInt(s1, 0);
    var (code, s3) := GetInt(s2, 0);
    var (key, s4) := GetWord(s3, "");
    var (value, s5) := GetWord(s4, "");
    if s5.fail then None
    else
      var (oldCfg, s6) := GetConfig(s5);
      var (newCfg, s7) := GetConfig(s6);
      Some((LogEntry(term, index, OpOf(code), key, value, oldCfg, newCfg), s7))
  }

  function GetEntries(st: Stream, count: nat, got: seq<LogEntry>): Option<seq<LogEntry>>
    decreases count
  {
    if count == 0 then Some(got)
    else
      match GetEntry(st)
      case None => None
      case Some((e, s)) => GetEntries(s, count - 1, got + [e])
  }

  function ParseAppend(req: string): Option<AppendEntriesArgs> {
    var (kind, s0) := GetWord(Stream(req, false), "");
    if kind != "AE" then None
    else
      var (term, s1) := GetInt(s0, 0);
      var (leaderId, s2) := GetInt(s1, -1);
      var (prev, s3) := GetInt(s2, 0);
      var (prevTerm, s4) := GetInt(s3, 0);
      var (commit, s5) := GetInt(s4, 0);
      var (count, s6) := GetCount(s5, 0);
      if s6.fail then None
      else
        match GetEntries(s6, count, [])
        case None => None
        case Some(es) => Some(AppendEntriesArgs(term, leaderId, prev, prevTerm, es, commit))
  }

  function ParseVote(req: string): Option<RequestVoteArgs> {
    var (kind, s0) := GetWord(Stream(req, false), "");
    if kind != "RV" then None
    else
      var (term, s1) := GetInt(s0, 0);
      var (cand, s2) := GetInt(s1, -1);
      var (lastIndex, s3) := GetInt(s2, 0);
      var (lastTerm, s4) := GetInt(s3, 0);
      if s4.fail then None else Some(RequestVoteArgs(term, cand, lastIndex, lastTerm))
  }

  /** Both boolean replies: `kind` and the answer are read before either is judged. */
  function ParseReply(kind: string, resp: string): Option<(int, bool)> {
    var (got, s0) := GetWord(Stream(resp, false), "");
    var (term, s1) := GetInt(s0, 0);
    var (yes, s2) := GetInt(s1, 0);
    if got != kind || s2.fail then None else Some((term, yes == 1))
  }

  function GetPairs(st: Stream, count: nat, got: map<string, string>): Option<map<string, string>>
    decreases count
  {
    if count == 0 then Some(got)
    else
      var (key, s1) := GetWord(st, "");
      var (value, s2) := GetWord(s1, "");
      if s2.fail then None else GetPairs(s2, count - 1, got[key := value])
  }

  function ParseInstall(req: string): Option<InstallSnapshotArgs> {
    var (kind, s0) := GetWord(Stream(req, false), "");
    if kind != "IS" then None
    else
      var (term, s1) := GetInt(s0, 0);
      var (leaderId, s2) := GetInt(s1, -1);
      var (index, s3) := GetInt(s2, 0);
      var (lastTerm, s4) := GetInt(s3, 0);
      var (count, s5) := GetCount(s4, 0);
      if s5.fail then None
      else
        match GetPairs(s5, count, map[])
        case None => None
        case Some(data) => Some(InstallSnapshotArgs(term, leaderId, index, lastTerm, data))
  }

  // ---- which records can be written ----

  ghost predicate WritablePeers(cfg: seq<PeerInfo>) {
    && |cfg| < TWO_64
    && forall i | 0 <= i < |cfg| :: Int32(cfg[i].id) && Word(cfg[i].ip) && Int32(cfg[i].port)
  }

  ghost predicate WritableEntry(e: LogEntry) {
    && Int32(e.index) && Int32(e.term) && Word(e.key) && Word(e.value)
    && WritablePeers(e.oldConfig) && WritablePeers(e.newConfig)
  }

  ghost predicate WritableAppend(a: AppendEntriesArgs) {
    && Int32(a.term) && Int32(a.leaderId) && Int32(a.prevLogIndex) && Int32(a.prevLogTerm) && Int32(a.leaderCommit)
    && |a.entries| < TWO_64
    && forall i | 0 <= i < |a.entries| :: WritableEntry(a.entries[i])
  }

  ghost predicate WritableInstall(a: InstallSnapshotArgs) {
    && Int32(a.term) && Int32(a.leaderId) && Int32(a.lastIncludedIndex) && Int32(a.lastIncludedTerm)
    && |a.kvData| < TWO_64
    && forall x | x in a.kvData :: Word(x) && Word(a.kvData[x])
  }

  // ---- round trips ----

  lemma IntThen(gap: string, n: int, k: string, prior: int)
    requires Blank(gap) && Int32(n)
    ensures GetInt(Stream(gap + W(Str(n), k), false), prior) == (n, Stream(" " + k, false))
  {
    IntRead(gap, n, " " + k, prior);
  }

  lemma WordThen(gap: string, w: string, k: string, prior: string)
    requires Blank(gap) && Word(w)
    ensures GetWord(Stream(gap + W(w, k), false), prior) == (w, Stream(" " + k, false))
  {
    WordRead(gap, w, " " + k, prior);
  }

  lemma PeersEnd(cfg: seq<PeerInfo>, k: string)
    requires Ends(k)
    ensures Ends(PeersText(cfg, k))
  {
  }

  lemma {:induction false} PeersRead(cfg: seq<PeerInfo>, k: string, got: seq<PeerInfo>)
    requires WritablePeers(cfg) && Ends(k)
    ensures GetPeers(Stream(PeersText(cfg, k), false), |cfg|, got) == (got + cfg, Stream(k, false))
    decreases |cfg|
  {
    hide GetInt, GetWord, W, Str, Word;
    if cfg == [] {
      assert got + cfg == got;
    } else {
      var p, rest := cfg[0], PeersText(cfg[1..], k);
      IntThen(" ", p.id, W(p.ip, Str(p.port) + rest), -1);
      WordThen(" ", p.ip, Str(p.port) + rest, "");
      PeersEnd(cfg[1..], k);
      IntRead(" ", p.port, rest, 0);
      PeersRead(cfg[1..], k, got + [p]);
      assert got + [p] + cfg[1..] == got + cfg;
    }
  }

  lemma ConfigRead(gap: string, cfg: seq<PeerInfo>, k: string)
    requires Blank(gap) && WritablePeers(cfg) && Ends(k)
    ensures GetConfig(Stream(gap + ConfigText(cfg, k), false)) == (cfg, Stream(k, false))
  {
    hide GetPeers, GetCount, PeersText, Str;
    PeersEnd(cfg, k);
    CountRead(gap, |cfg|, PeersText(cfg, k), 0);
    PeersRead(cfg, k, []);
    assert [] + cfg == cfg;
  }

  lemma EntryRead(gap: string, e: LogEntry, k: string)
    requires Blank(gap) && WritableEntry(e) && Ends(k)
    ensures GetEntry(Stream(gap + EntryText(e, k), false)) == Some((e, Stream(k, false)))
  {
    hide GetInt, GetWord, GetConfig, W, Str, ConfigText, Word, WritablePeers;
    var t5 := ConfigText(e.oldConfig, " " + ConfigText(e.newConfig, k));
    var t4 := W(e.value, t5);
    var t3 := W(e.key, t4);
    var t2 := W(Str(OpCode(e.op)), t3);
    IntThen(gap, e.index, W(Str(e.term), t2), 0);
    IntThen(" ", e.term, t2, 0);
    IntThen(" ", OpCode(e.op), t3, 0);
    WordThen(" ", e.key, t4, "");
    WordThen(" ", e.value, t5, "");
    ConfigRead(" ", e.oldConfig, " " + ConfigText(e.newConfig, k));
    ConfigRead(" ", e.newConfig, k);
  }

  lemma {:induction false} EntriesRead(es: seq<LogEntry>, got: seq<LogEntry>)
    requires forall i | 0 <= i < |es| :: WritableEntry(es[i])
    ensures GetEntries(Stream("\n" + EntriesText(es, ""), false), |es|, got) == Some(got + es)
    decreases |es|
  {
    hide GetEntry, EntryText, WritableEntry;
    if es == [] {
      assert got + es == got;
    } else {
      EntryRead("\n", es[0], "\n" + EntriesText(es[1..], ""));
      EntriesRead(es[1..], got + [es[0]]);
      assert got + [es[0]] + es[1..] == got + es;
    }
  }

  lemma KindRead(kind: string, k: string)
    requires Word(kind)
    ensures GetWord(Stream(W(kind, k), false), "") == (kind, Stream(" " + k, false))
  {
    WordThen("", kind, k, "");
    assert "" + W(kind, k) == W(kind, k);
  }

  /** Parsing a built AppendEntries, with any number of entries and both configurations of each, returns it. */
  lemma AppendRoundTrip(a: AppendEntriesArgs)
    requires WritableAppend(a)
    ensures ParseAppend(AppendText(a)) == Some(a)
  {
    hide GetInt, GetWord, GetCount, GetEntries, W, Str, WritableEntry, EntriesText;
    var t6 := Str(|a.entries|) + ("\n" + EntriesText(a.entries, ""));
    var t5 := W(Str(a.leaderCommit), t6);
    var t4 := W(Str(a.prevLogTerm), t5);
    var t3 := W(Str(a.prevLogIndex), t4);
    var t2 := W(Str(a.leaderId), t3);
    KindRead("AE", W(Str(a.term), t2));
    IntThen(" ", a.term, t2, 0);
    IntThen(" ", a.leaderId, t3, -1);
    IntThen(" ", a.prevLogIndex, t4, 0);
    IntThen(" ", a.prevLogTerm, t5, 0);
    IntThen(" ", a.leaderCommit, t6, 0);
    CountRead(" ", |a.entries|, "\n" + EntriesText(a.entries, ""), 0);
    EntriesRead(a.entries, []);
    assert [] + a.entries == a.entries;
  }

  lemma VoteRoundTrip(a: RequestVoteArgs)
    requires Int32(a.term) && Int32(a.candidateId) && Int32(a.lastLogIndex) && Int32(a.lastLogTerm)
    ensures ParseVote(VoteText(a)) == Some(a)
  {
    hide GetInt, GetWord, W, Str;
    var t4 := Str(a.lastLogTerm);
    var t3 := W(Str(a.lastLogIndex), t4);
    var t2 := W(Str(a.candidateId), t3);
    KindRead("RV", W(Str(a.term), t2));
    IntThen(" ", a.term, t2, 0);
    IntThen(" ", a.candidateId, t3, -1);
    IntThen(" ", a.lastLogIndex, t4, 0);
    IntRead(" ", a.lastLogTerm, "", 0);
    assert t4 + "" == t4;
  }

  lemma ReplyRoundTrip(kind: string, term: int, yes: bool)
    requires Word(kind) && Int32(term)
    ensures ParseReply(kind, ReplyText(kind, term, yes)) == Some((term, yes))
  {
    hide GetInt, GetWord, W, Str;
    var flag := if yes then 1 else 0;
    KindRead(kind, W(Str(term), Str(flag)));
    IntThen(" ", term, Str(flag), 0);
    IntRead(" ", flag, "", 0);
    assert Str(flag) + "" == Str(flag);
  }

  lemma {:induction false} PairsRead(data: map<string, string>, keys: seq<string>,
      got: map<string, string>) returns (all: map<string, string>)
    requires forall i | 0 <= i < |keys| :: keys[i] in data && Word(keys[i]) && Word(data[keys[i]])
    ensures GetPairs(Stream("\n" + PairsText(data, keys, ""), false), |keys|, got) == Some(all)
    ensures forall x :: x in all <==> x in got || x in keys
    ensures forall x | x in all :: all[x] == if x in keys then data[x] else got[x]
    decreases |keys|
  {
    hide GetWord, W, Word;
    if keys == [] {
      all := got;
    } else {
      var x, rest := keys[0], keys[1..];
      var tail := "\n" + PairsText(data, rest, "");
      WordThen("\n", x, data[x] + tail, "");
      WordRead(" ", data[x], tail, "");
      all := PairsRead(data, rest, got[x := data[x]]);
      assert forall y :: y in keys <==> y == x || y in rest;
    }
  }

  /** ... and so does parsing a built InstallSnapshot, in whatever order its pairs were written. */
  lemma InstallRoundTrip(a: InstallSnapshotArgs, text: string)
    requires WritableInstall(a) && Renders(a, text)
    ensures ParseInstall(text) == Some(a)
  {
    hide ParseInstall, InstallHeader, PairsText;
    var keys :| Lists(keys, a.kvData) && text == InstallHeader(a, PairsText(a.kvData, keys, ""));
    InstallRead(a, keys);
  }

  lemma InstallRead(a: InstallSnapshotArgs, keys: seq<string>)
    requires WritableInstall(a) && Lists(keys, a.kvData)
    ensures ParseInstall(InstallHeader(a, PairsText(a.kvData, keys, ""))) == Some(a)
  {
    assert Word("IS");
    hide GetInt, GetWord, GetCount, GetPairs, W, Str, PairsText, Word, Lists;
    PairsInData(keys, a.kvData);
    var body := PairsText(a.kvData, keys, "");
    var t5 := Str(|a.kvData|) + ("\n" + body);
    var t4 := W(Str(a.lastIncludedTerm), t5);
    var t3 := W(Str(a.lastIncludedIndex), t4);
    var t2 := W(Str(a.leaderId), t3);
    KindRead("IS", W(Str(a.term), t2));
    IntThen(" ", a.term, t2, 0);
    IntThen(" ", a.leaderId, t3, -1);
    IntThen(" ", a.lastIncludedIndex, t4, 0);
    IntThen(" ", a.lastIncludedTerm, t5, 0);
    CountRead(" ", |a.kvData|, "\n" + body, 0);
    AllPairsRead(a.kvData, keys);
  }

  lemma PairsInData(keys: seq<string>, data: map<string, string>)
    requires Lists(keys, data)
    ensures forall i | 0 <= i < |keys| :: keys[i] in data
  {
  }

  lemma AllPairsRead(data: map<string, string>, keys: seq<string>)
    requires Lists(keys, data) && forall x | x in data :: Word(x) && Word(data[x])
    ensures GetPairs(Stream("\n" + PairsText(data, keys, ""), false), |data|, map[]) == Some(data)
  {
    hide GetPairs, PairsText, Word;
    var all := PairsRead(data, keys, map[]);
    assert all == data;
  }

  // ---- the same as loops over streams ----

  lemma Cat(a: string, b: string, c: string)
    ensures (a + b) + c == a + (b + c)
  {
  }

  lemma CatW(w: string, t: string, k: string)
    ensures W(w, t) + k == W(w, t + k)
  {
    Cat(w, " " + t, k);
    Cat(" ", t, k);
  }

  lemma {:induction false} PeersCat(cfg: seq<PeerInfo>, t: string, k: string)
    ensures PeersText(cfg, t) + k == PeersText(cfg, t + k)
    decreases |cfg|
  {
    if cfg != [] {
      var rest := PeersText(cfg[1..], t);
      PeersCat(cfg[1..], t, k);
      PeerCat(cfg[0], rest, k);
    }
  }

  function PeerText(p: PeerInfo, k: string): string {
    " " + W(Str(p.id), W(p.ip, Str(p.port) + k))
  }

  lemma PeerCat(p: PeerInfo, t: string, k: string)
    ensures PeerText(p, t) + k == PeerText(p, t + k)
  {
    var port := Str(p.port);
    Cat(port, t, k);
    CatW(p.ip, port + t, k);
    CatW(Str(p.id), W(p.ip, port + t), k);
    Cat(" ", W(Str(p.id), W(p.ip, port + t)), k);
  }

  lemma ConfigCat(cfg: seq<PeerInfo>, t: string, k: string)
    ensures ConfigText(cfg, t) + k == ConfigText(cfg, t + k)
  {
    PeersCat(cfg, t, k);
    Cat(Str(|cfg|), PeersText(cfg, t), k);
  }

  method EncodeConfig(nodes: seq<PeerInfo>) returns (oss: string)
    ensures oss == ConfigText(nodes, "")
  {
    oss := Str(|nodes|);
    for i := 0 to |nodes|
      invariant oss + PeersText(nodes[i..], "") == ConfigText(nodes, "")
    {
      var n := nodes[i];
      assert nodes[i..][0] == n && nodes[i..][1..] == nodes[i + 1..];
      PeerCat(n, "", PeersText(nodes[i + 1..], ""));
      Cat(oss, PeerText(n, ""), PeersText(nodes[i + 1..], ""));
      assert "" + PeersText(nodes[i + 1..], "") == PeersText(nodes[i + 1..], "");
      oss := oss + PeerText(n, "");
    }
    assert nodes[|nodes|..] == [];
  }

  method DecodeConfig(iss: Stream) returns (nodes: seq<PeerInfo>, rest: Stream)
    ensures (nodes, rest) == GetConfig(iss)
  {
    hide GetPeer, GetCount;
    var (count, st) := GetCount(iss, 0);
    nodes, rest := [], st;
    for i := 0 to count
      invariant GetPeers(rest, count - i, nodes) == GetConfig(iss)
    {
      var (p, next) := GetPeer(rest);
      nodes, rest := nodes + [p], next;
    }
  }

  lemma EntryCat(e: LogEntry, t: string, k: string)
    ensures EntryText(e, t) + k == EntryText(e, t + k)
  {
    hide W, ConfigText, Str;
    var newText := ConfigText(e.newConfig, t);
    ConfigCat(e.newConfig, t, k);
    Cat(" ", newText, k);
    ConfigCat(e.oldConfig, " " + newText, k);
    var t5 := ConfigText(e.oldConfig, " " + newText);
    var t4 := W(e.value, t5);
    var t3 := W(e.key, t4);
    var t2 := W(Str(OpCode(e.op)), t3);
    CatW(e.value, t5, k);
    CatW(e.key, t4, k);
    CatW(Str(OpCode(e.op)), t3, k);
    CatW(Str(e.term), t2, k);
    CatW(Str(e.index), W(Str(e.term), t2), k);
  }

  lemma AppendHeaderCat(a: AppendEntriesArgs, t: string, k: string)
    ensures AppendHeader(a, t) + k == AppendHeader(a, t + k)
  {
    hide W, Str;
    Cat("\n", t, k);
    var t6 := Str(|a.entries|) + ("\n" + t);
    Cat(Str(|a.entries|), "\n" + t, k);
    var t5 := W(Str(a.leaderCommit), t6);
    var t4 := W(Str(a.prevLogTerm), t5);
    var t3 := W(Str(a.prevLogIndex), t4);
    var t2 := W(Str(a.leaderId), t3);
    CatW(Str(a.leaderCommit), t6, k);
    CatW(Str(a.prevLogTerm), t5, k);
    CatW(Str(a.prevLogIndex), t4, k);
    CatW(Str(a.leaderId), t3, k);
    CatW(Str(a.term), t2, k);
    CatW("AE", W(Str(a.term), t2), k);
  }

  /** One entry, both its configurations written by the loop above. */
  method EncodeEntry(e: LogEntry) returns (s: string)
    ensures s == EntryText(e, "")
  {
    var oldText := EncodeConfig(e.oldConfig);
    var newText := EncodeConfig(e.newConfig);
    ConfigCat(e.oldConfig, "", " " + newText);
    assert "" + (" " + newText) == " " + newText;
    s := W(Str(e.index), W(Str(e.term), W(Str(OpCode(e.op)), W(e.key, W(e.value, oldText + (" " + newText))))));
  }

  method BuildAppendEntriesRpc(a: AppendEntriesArgs) returns (oss: string)
    ensures oss == AppendText(a)
  {
    oss := AppendHeader(a, "");
    AppendHeaderCat(a, "", EntriesText(a.entries, ""));
    assert "" + EntriesText(a.entries, "") == EntriesText(a.entries, "");
    assert a.entries[0..] == a.entries;
    for i := 0 to |a.entries|
      invariant oss + EntriesText(a.entries[i..], "") == AppendText(a)
    {
      var line := EncodeEntry(a.entries[i]);
      assert a.entries[i..][0] == a.entries[i] && a.entries[i..][1..] == a.entries[i + 1..];
      EntryLine(oss, a.entries[i], EntriesText(a.entries[i + 1..], ""));
      oss := oss + (line + "\n");
    }
    assert a.entries[|a.entries|..] == [];
    assert oss + "" == oss;
  }

  lemma EntryLine(oss: string, e: LogEntry, k: string)
    ensures (oss + (EntryText(e, "") + "\n")) + k == oss + EntryText(e, "\n" + k)
  {
    hide EntryText;
    EntryCat(e, "", "\n");
    assert "" + "\n" == "\n";
    EntryCat(e, "\n", k);
    Cat(oss, EntryText(e, "\n"), k);
  }

  method ParseAppendEntriesRpc(req: string) returns (args: Option<AppendEntriesArgs>)
    ensures args == ParseAppend(req)
  {
    hide GetInt, GetWord, GetCount, GetEntry;
    var (kind, s0) := GetWord(Stream(req, false), "");
    if kind != "AE" {
      return None;
    }
    var (term, s1) := GetInt(s0, 0);
    var (leaderId, s2) := GetInt(s1, -1);
    var (prev, s3) := GetInt(s2, 0);
    var (prevTerm, s4) := GetInt(s3, 0);
    var (commit, s5) := GetInt(s4, 0);
    var (count, iss) := GetCount(s5, 0);
    if iss.fail {
      return None;
    }
    ghost var start := iss;
    var entries: seq<LogEntry> := [];
    for i := 0 to count
      invariant GetEntries(iss, count - i, entries) == GetEntries(start, count, [])
    {
      var got := GetEntry(iss);
      if got.None? {
        return None;
      }
      entries := entries + [got.value.0];
      iss := got.value.1;
    }
    args := Some(AppendEntriesArgs(term, leaderId, prev, prevTerm, entries, commit));
  }

  method ParseInstallSnapshotRpc(req: string) returns (args: Option<InstallSnapshotArgs>)
    ensures args == ParseInstall(req)
  {
    hide GetInt, GetWord, GetCount;
    var (kind, s0) := GetWord(Stream(req, false), "");
    if kind != "IS" {
      return None;
    }
    var (term, s1) := GetInt(s0, 0);
    var (leaderId, s2) := GetInt(s1, -1);
    var (index, s3) := GetInt(s2, 0);
    var (lastTerm, s4) := GetInt(s3, 0);
    var (count, iss) := GetCount(s4, 0);
    if iss.fail {
      return None;
    }
    ghost var start := iss;
    var data: map<string, string> := map[];
    for i := 0 to count
      invariant GetPairs(iss, count - i, data) == GetPairs(start, count, map[])
    {
      var (key, t1) := GetWord(iss, "");
      var (value, t2) := GetWord(t1, "");
      if t2.fail {
        return None;
      }
      data := data[key := value];
      iss := t2;
    }
    args := Some(InstallSnapshotArgs(term, leaderId, index, lastTerm, data));
  }

  lemma {:induction false} PairsSnoc(data: map<string, string>, keys: seq<string>, x: string, k: string)
    requires x in data && forall i | 0 <= i < |keys| :: keys[i] in data
    ensures forall i | 0 <= i < |keys + [x]| :: (keys + [x])[i] in data
    ensures PairsText(data, keys, "") + (W(x, data[x] + "\n") + k) == PairsText(data, keys + [x], k)
    decreases |keys|
  {
    hide W;
    if keys == [] {
      CatW(x, data[x] + "\n", k);
      Cat(data[x], "\n", k);
      assert ([] + [x])[1..] == [];
      assert "" + (W(x, data[x] + "\n") + k) == W(x, data[x] + "\n") + k;
    } else {
      var y, rest, line := keys[0], keys[1..], W(x, data[x] + "\n") + k;
      PairsSnoc(data, rest, x, k);
      assert (keys + [x])[1..] == rest + [x] && (keys + [x])[0] == y;
      CatW(y, data[y] + ("\n" + PairsText(data, rest, "")), line);
      Cat(data[y], "\n" + PairsText(data, rest, ""), line);
      Cat("\n", PairsText(data, rest, ""), line);
    }
  }

  lemma InstallHeaderCat(a: InstallSnapshotArgs, t: string, k: string)
    ensures InstallHeader(a, t) + k == InstallHeader(a, t + k)
  {
    hide W, Str;
    Cat("\n", t, k);
    Cat(Str(|a.kvData|), "\n" + t, k);
    var t5 := Str(|a.kvData|) + ("\n" + t);
    var t4 := W(Str(a.lastIncludedTerm), t5);
    var t3 := W(Str(a.lastIncludedIndex), t4);
    var t2 := W(Str(a.leaderId), t3);
    CatW(Str(a.lastIncludedTerm), t5, k);
    CatW(Str(a.lastIncludedIndex), t4, k);
    CatW(Str(a.leaderId), t3, k);
    CatW(Str(a.term), t2, k);
    CatW("IS", W(Str(a.term), t2), k);
  }

  /** The pairs go out in the order the map is walked. */
  method BuildInstallSnapshotRpc(a: InstallSnapshotArgs) returns (oss: string)
    ensures Renders(a, oss)
  {
    hide InstallHeader, W;
    ghost var keys: seq<string> := [];
    oss := InstallHeader(a, "");
    var rest := a.kvData.Keys;
    while rest != {}
      invariant rest <= a.kvData.Keys
      invariant forall i | 0 <= i < |keys| :: keys[i] in a.kvData && keys[i] !in rest
      invariant forall i, j | 0 <= i < j < |keys| :: keys[i] != keys[j]
      invariant |keys| + |rest| == |a.kvData|
      invariant forall x | x in a.kvData :: x in rest || x in keys
      invariant oss == InstallHeader(a, PairsText(a.kvData, keys, ""))
      decreases |rest|
    {
      ghost var some := Quorum.Pick(rest);
      assert some in rest;
      var x :| x in rest;
      var line := W(x, a.kvData[x] + "\n");
      PairsSnoc(a.kvData, keys, x, "");
      assert line + "" == line;
      InstallHeaderCat(a, PairsText(a.kvData, keys, ""), line);
      oss, keys, rest := oss + line, keys + [x], rest - {x};
    }
  }
}
