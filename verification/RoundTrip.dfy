/**
 Exactly which records survive being written and read: those whose numbers fit the 32-bit target and whose keys,
 values and addresses are words, however many entries and members there are.
 */
module RoundTrip {
  import opened Types
  import opened Text
  import opened Codec

  // ---- one field ----

  /** What is read of a number that does not fit is one of the two limits. */
  lemma NumberIsRead(text: string, rest: string, n: int, prior: int)
    requires SkipWhite(text) == rest && rest != "" && Number(rest).1 == Some(n)
    ensures GetInt(Stream(text, false), prior).0 == if n > INT_MAX then INT_MAX else if n < INT_MIN then INT_MIN else n
  {
    hide SkipWhite, Number;
  }

  lemma IntBack(gap: string, n: int, k: string, prior: int)
    requires Blank(gap) && Ends(k)
    ensures GetInt(Stream(gap + (Str(n) + k), false), prior).0 == n ==> Int32(n)
  {
    hide SkipWhite, Number, Str, GetInt, White;
    NumberRead(n, k);
    StrIsThere(n, k);
    SkipGap(gap, Str(n) + k);
    NumberIsRead(gap + (Str(n) + k), Str(n) + k, n, prior);
  }

  lemma StrIsThere(n: int, k: string)
    ensures Str(n) + k != ""
  {
  }

  lemma FieldBack(gap: string, n: int, k: string, prior: int)
    requires Blank(gap)
    ensures GetInt(Stream(gap + W(Str(n), k), false), prior).0 == n ==> Int32(n)
  {
    IntBack(gap, n, " " + k, prior);
  }

  lemma CountBack(gap: string, n: nat, k: string, prior: nat)
    requires Blank(gap) && Ends(k)
    ensures n >= TWO_64 ==>
      var r := GetCount(Stream(gap + (Str(n) + k), false), prior); r.1.fail && r.0 == TWO_64 - 1
  {
    hide Number, Digits, SkipWhite, Value;
    NumberRead(n, k);
    SkipGap(gap, Str(n) + k);
  }

  lemma FailStays(st: Stream, prior: string)
    ensures st.fail ==> GetWord(st, prior).1.fail
  {
  }

  // ---- configurations ----

  lemma {:induction false} PeersPrefix(st: Stream, count: nat, got: seq<PeerInfo>)
    ensures |GetPeers(st, count, got).0| == |got| + count && got <= GetPeers(st, count, got).0
    decreases count
  {
    hide GetPeer;
    if count > 0 {
      PeersPrefix(GetPeer(st).1, count - 1, got + [GetPeer(st).0]);
    }
  }

  /** What is read for an address is the address only if that is a word: an empty one would be passed over. */
  lemma AddressBack(ip: string, port: int, k: string)
    requires Ends(k) && GetWord(Stream(" " + W(ip, Str(port) + k), false), "").0 == ip
    ensures Word(ip)
  {
    if ip == "" {
      hide Str, Word, Number;
      NumberRead(port, k);
      assert " " + W(ip, Str(port) + k) == "  " + (Str(port) + k);
      SkipGap("  ", Str(port) + k);
      assert false;
    }
  }

  lemma {:induction false} PeersBack(cfg: seq<PeerInfo>, k: string, got: seq<PeerInfo>)
    requires |cfg| < TWO_64 && Ends(k) && GetPeers(Stream(PeersText(cfg, k), false), |cfg|, got).0 == got + cfg
    ensures WritablePeers(cfg)
    decreases |cfg|
  {
    hide GetInt, GetWord, W, Str, Word;
    if cfg != [] {
      var p, rest := cfg[0], PeersText(cfg[1..], k);
      var (q, s) := GetPeer(Stream(PeersText(cfg, k), false));
      PeersPrefix(s, |cfg| - 1, got + [q]);
      assert (got + cfg)[|got|] == p;
      PeersEnd(cfg[1..], k);
      FieldBack(" ", p.id, W(p.ip, Str(p.port) + rest), -1);
      IntThen(" ", p.id, W(p.ip, Str(p.port) + rest), -1);
      AddressBack(p.ip, p.port, rest);
      WordThen(" ", p.ip, Str(p.port) + rest, "");
      IntBack(" ", p.port, rest, 0);
      IntRead(" ", p.port, rest, 0);
      assert got + cfg == got + [p] + cfg[1..];
      PeersBack(cfg[1..], k, got + [p]);
    }
  }

  lemma ConfigBack(gap: string, cfg: seq<PeerInfo>, k: string)
    requires Blank(gap) && Ends(k) && GetConfig(Stream(gap + ConfigText(cfg, k), false)).0 == cfg
    ensures WritablePeers(cfg)
  {
    hide GetPeers, GetCount, PeersText, Str;
    PeersEnd(cfg, k);
    CountBack(gap, |cfg|, PeersText(cfg, k), 0);
    var (count, s) := GetCount(Stream(gap + ConfigText(cfg, k), false), 0);
    PeersPrefix(s, count, []);
    assert |cfg| == count < TWO_64;
    CountRead(gap, |cfg|, PeersText(cfg, k), 0);
    assert [] + cfg == cfg;
    PeersBack(cfg, k, []);
  }

  // ---- entries ----

  lemma EntryBack(gap: string, e: LogEntry, k: string)
    requires Blank(gap) && Ends(k)
    requires var r := GetEntry(Stream(gap + EntryText(e, k), false)); r.Some? && r.value.0 == e
    ensures WritableEntry(e)
  {
    hide GetInt, GetWord, GetConfig, W, Str, ConfigText, Word, WritablePeers;
    var t5 := ConfigText(e.oldConfig, " " + ConfigText(e.newConfig, k));
    var t4 := W(e.value, t5);
    var t3 := W(e.key, t4);
    var t2 := W(Str(OpCode(e.op)), t3);
    FieldBack(gap, e.index, W(Str(e.term), t2), 0);
    IntThen(gap, e.index, W(Str(e.term), t2), 0);
    FieldBack(" ", e.term, t2, 0);
    IntThen(" ", e.term, t2, 0);
    IntThen(" ", OpCode(e.op), t3, 0);
    FailStays(GetWord(Stream(" " + t3, false), "").1, "");
    WordThen(" ", e.key, t4, "");
    WordThen(" ", e.value, t5, "");
    ConfigBack(" ", e.oldConfig, " " + ConfigText(e.newConfig, k));
    ConfigRead(" ", e.oldConfig, " " + ConfigText(e.newConfig, k));
    ConfigBack(" ", e.newConfig, k);
  }

  lemma {:induction false} EntriesPrefix(st: Stream, count: nat, got: seq<LogEntry>)
    ensures var r := GetEntries(st, count, got); r.Some? ==> |r.value| == |got| + count && got <= r.value
    decreases count
  {
    hide GetEntry;
    if count > 0 {
      match GetEntry(st) {
        case None =>
        case Some((e, s)) => EntriesPrefix(s, count - 1, got + [e]);
      }
    }
  }

  lemma {:induction false} EntriesBack(es: seq<LogEntry>, got: seq<LogEntry>)
    requires GetEntries(Stream("\n" + EntriesText(es, ""), false), |es|, got) == Some(got + es)
    ensures forall i | 0 <= i < |es| :: WritableEntry(es[i])
    decreases |es|
  {
    hide GetEntry, EntryText, WritableEntry;
    if es != [] {
      var k := "\n" + EntriesText(es[1..], "");
      var r := GetEntry(Stream("\n" + EntryText(es[0], k), false));
      EntriesPrefix(r.value.1, |es| - 1, got + [r.value.0]);
      assert (got + es)[|got|] == es[0];
      EntryBack("\n", es[0], k);
      EntryRead("\n", es[0], k);
      assert got + es == got + [es[0]] + es[1..];
      EntriesBack(es[1..], got + [es[0]]);
    }
  }

  lemma AppendBack(a: AppendEntriesArgs)
    requires ParseAppend(AppendText(a)) == Some(a)
    ensures WritableAppend(a)
  {
    hide GetInt, GetWord, GetCount, GetEntries, W, Str, WritableEntry, EntriesText;
    var body := "\n" + EntriesText(a.entries, "");
    var t6 := Str(|a.entries|) + body;
    var t5 := W(Str(a.leaderCommit), t6);
    var t4 := W(Str(a.prevLogTerm), t5);
    var t3 := W(Str(a.prevLogIndex), t4);
    var t2 := W(Str(a.leaderId), t3);
    KindRead("AE", W(Str(a.term), t2));
    FieldBack(" ", a.term, t2, 0);
    IntThen(" ", a.term, t2, 0);
    FieldBack(" ", a.leaderId, t3, -1);
    IntThen(" ", a.leaderId, t3, -1);
    FieldBack(" ", a.prevLogIndex, t4, 0);
    IntThen(" ", a.prevLogIndex, t4, 0);
    FieldBack(" ", a.prevLogTerm, t5, 0);
    IntThen(" ", a.prevLogTerm, t5, 0);
    FieldBack(" ", a.leaderCommit, t6, 0);
    IntThen(" ", a.leaderCommit, t6, 0);
    CountBack(" ", |a.entries|, body, 0);
    CountRead(" ", |a.entries|, body, 0);
    assert [] + a.entries == a.entries;
    EntriesBack(a.entries, []);
  }

  /** An AppendEntries request comes back as it was built if and only if all its numbers fit and all its keys, values and
      addresses are words. (What a client can send is read by the same operator, so a client cannot store any other key
      or value.) */
  lemma AppendRoundTripIff(a: AppendEntriesArgs)
    ensures ParseAppend(AppendText(a)) == Some(a) <==> WritableAppend(a)
  {
    hide ParseAppend, AppendText, WritableAppend;
    if WritableAppend(a) {
      AppendRoundTrip(a);
    }
    if ParseAppend(AppendText(a)) == Some(a) {
      AppendBack(a);
    }
  }

  // ---- the other records ----

  lemma VoteRoundTripIff(a: RequestVoteArgs)
    ensures ParseVote(VoteText(a)) == Some(a)
            <==> Int32(a.term) && Int32(a.candidateId) && Int32(a.lastLogIndex) && Int32(a.lastLogTerm)
  {
    if Int32(a.term) && Int32(a.candidateId) && Int32(a.lastLogIndex) && Int32(a.lastLogTerm) {
      VoteRoundTrip(a);
    } else {
      hide GetInt, GetWord, W, Str;
      var t4 := Str(a.lastLogTerm);
      var t3 := W(Str(a.lastLogIndex), t4);
      var t2 := W(Str(a.candidateId), t3);
      KindRead("RV", W(Str(a.term), t2));
      FieldBack(" ", a.term, t2, 0);
      if Int32(a.term) {
        IntThen(" ", a.term, t2, 0);
        FieldBack(" ", a.candidateId, t3, -1);
        if Int32(a.candidateId) {
          IntThen(" ", a.candidateId, t3, -1);
          FieldBack(" ", a.lastLogIndex, t4, 0);
          if Int32(a.lastLogIndex) {
            IntThen(" ", a.lastLogIndex, t4, 0);
            IntBack(" ", a.lastLogTerm, "", 0);
            assert t4 + "" == t4;
          }
        }
      }
    }
  }

  lemma {:induction false} PairsAreWords(st: Stream, count: nat, got: map<string, string>)
    requires forall x | x in got :: Word(x) && Word(got[x])
    ensures var r := GetPairs(st, count, got); r.Some? ==> forall x | x in r.value :: Word(x) && Word(r.value[x])
    decreases count
  {
    hide GetWord, Word;
    if count > 0 {
      var (key, s1) := GetWord(st, "");
      var (value, s2) := GetWord(s1, "");
      FailStays(s1, "");
      if !s2.fail {
        PairsAreWords(s2, count - 1, got[key := value]);
      }
    }
  }

  lemma InstallBack(a: InstallSnapshotArgs, body: string)
    requires ParseInstall(InstallHeader(a, body)) == Some(a)
    ensures Int32(a.term) && Int32(a.leaderId) && Int32(a.lastIncludedIndex) && Int32(a.lastIncludedTerm)
    ensures |a.kvData| < TWO_64
  {
    assert Word("IS");
    hide GetInt, GetWord, GetCount, GetPairs, W, Str, Word;
    var t5 := Str(|a.kvData|) + ("\n" + body);
    var t4 := W(Str(a.lastIncludedTerm), t5);
    var t3 := W(Str(a.lastIncludedIndex), t4);
    var t2 := W(Str(a.leaderId), t3);
    KindRead("IS", W(Str(a.term), t2));
    FieldBack(" ", a.term, t2, 0);
    IntThen(" ", a.term, t2, 0);
    FieldBack(" ", a.leaderId, t3, -1);
    IntThen(" ", a.leaderId, t3, -1);
    FieldBack(" ", a.lastIncludedIndex, t4, 0);
    IntThen(" ", a.lastIncludedIndex, t4, 0);
    FieldBack(" ", a.lastIncludedTerm, t5, 0);
    IntThen(" ", a.lastIncludedTerm, t5, 0);
    CountBack(" ", |a.kvData|, "\n" + body, 0);
  }

  lemma ParsedPairsAreWords(text: string)
    ensures var r := ParseInstall(text);
      r.Some? ==> forall x | x in r.value.kvData :: Word(x) && Word(r.value.kvData[x])
  {
    hide GetInt, GetWord, GetCount, GetPairs, Word;
    var s1 := GetInt(GetWord(Stream(text, false), "").1, 0).1;
    var s3 := GetInt(GetInt(s1, -1).1, 0).1;
    var (count, s5) := GetCount(GetInt(s3, 0).1, 0);
    PairsAreWords(s5, count, map[]);
  }

  /** ... and the same for InstallSnapshot, in whatever order its pairs were written. */
  lemma InstallRoundTripIff(a: InstallSnapshotArgs, text: string)
    requires Renders(a, text)
    ensures ParseInstall(text) == Some(a) <==> WritableInstall(a)
  {
    hide ParseInstall, InstallHeader, PairsText, Word;
    if WritableInstall(a) {
      InstallRoundTrip(a, text);
    }
    if ParseInstall(text) == Some(a) {
      var keys :| Lists(keys, a.kvData) && text == InstallHeader(a, PairsText(a.kvData, keys, ""));
      InstallBack(a, PairsText(a.kvData, keys, ""));
      ParsedPairsAreWords(text);
    }
  }
}
