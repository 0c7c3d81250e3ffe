/** The state file: what save writes, and what load makes of any text. */
module Storage {
  import opened Types
  import opened Text
  import opened Codec
  import Node

  function Line(word: string, n: int, k: string): string {
    W(word, Str(n) + ("\n" + k))
  }

  function LinesText(es: seq<LogEntry>): string {
    if es == [] then "" else EntryText(es[0], "") + ("\n" + LinesText(es[1..]))
  }

  function SaveHeader(d: Node.Saved, k: string): string {
    Line("currentTerm", d.term, Line("votedFor", d.votedFor, Line("lastIncludedIndex", d.lastIncludedIndex,
      Line("lastIncludedTerm", d.lastIncludedTerm, Line("logCount", |d.logs|, k)))))
  }

  function SaveText(d: Node.Saved): string {
    SaveHeader(d, LinesText(d.logs))
  }

  /** `>> label >> n`, and the checks after it. */
  function GetField(st: Stream, word: string): Option<(int, Stream)> {
    var (got, s1) := GetWord(st, "");
    var (n, s2) := GetInt(s1, 0);
    if s2.fail || got != word then None else Some((n, s2))
  }

  function GetCountField(st: Stream, word: string): Option<(nat, Stream)> {
    var (got, s1) := GetWord(st, "");
    var (n, s2) := GetCount(s1, 0);
    if s2.fail || got != word then None else Some((n, s2))
  }

  lemma LineShortens(st: Stream)
    ensures !GetLine(st).1.fail ==> |GetLine(st).1.rest| < |st.rest|
  {
  }

  /** One log line per entry; empty lines do not count. */
  function GetLines(st: Stream, count: nat, got: seq<LogEntry>): Option<seq<LogEntry>>
    decreases count, |st.rest|
  {
    if count == 0 then Some(got)
    else
      var (line, next) := GetLine(st);
      LineShortens(st);
      if next.fail then None
      else if line == "" then GetLines(next, count, got)
      else
        match GetEntry(Stream(line, false))
        case None => None
        case Some((e, _)) => GetLines(next, count - 1, got + [e])
  }

  function LoadText(text: string): Option<Node.Saved> {
    match GetField(Stream(text, false), "currentTerm")
    case None => None
    case Some((term, s1)) =>
      match GetField(s1, "votedFor")
      case None => None
      case Some((vote, s2)) =>
        match GetField(s2, "lastIncludedIndex")
        case None => None
        case Some((index, s3)) =>
          match GetField(s3, "lastIncludedTerm")
          case None => None
          case Some((lastTerm, s4)) =>
            match GetCountField(s4, "logCount")
            case None => None
            case Some((count, s5)) =>
              match GetLines(GetLine(s5).1, count, [])
              case None => None
              case Some(logs) => Some(Node.Saved(term, vote, index, lastTerm, logs))
  }

  ghost predicate Writable(d: Node.Saved) {
    && Int32(d.term) && Int32(d.votedFor) && Int32(d.lastIncludedIndex) && Int32(d.lastIncludedTerm)
    && |d.logs| < TWO_64
    && forall i | 0 <= i < |d.logs| :: WritableEntry(d.logs[i])
  }

  // ---- round trip ----

  lemma FieldRead(gap: string, word: string, n: int, k: string)
    requires Blank(gap) && Word(word) && Int32(n)
    ensures GetField(Stream(gap + Line(word, n, k), false), word) == Some((n, Stream("\n" + k, false)))
  {
    hide GetWord, GetInt, W, Str, Word;
    WordThen(gap, word, Str(n) + ("\n" + k), "");
    IntRead(" ", n, "\n" + k, 0);
  }

  lemma CountFieldRead(gap: string, word: string, n: nat, k: string)
    requires Blank(gap) && Word(word) && n < TWO_64
    ensures GetCountField(Stream(gap + Line(word, n, k), false), word) == Some((n, Stream("\n" + k, false)))
  {
    hide GetWord, GetCount, W, Str, Word;
    WordThen(gap, word, Str(n) + ("\n" + k), "");
    CountRead(" ", n, "\n" + k, 0);
  }

  lemma WOneLine(w: string, k: string)
    requires OneLine(w) && OneLine(k)
    ensures OneLine(W(w, k))
  {
  }

  lemma IntOneLine(n: int)
    ensures OneLine(Str(n))
  {
    StrIsWord(n);
    WordIsOneLine(Str(n));
  }

  lemma {:induction false} PeersOneLine(cfg: seq<PeerInfo>, k: string)
    requires WritablePeers(cfg) && OneLine(k)
    ensures OneLine(PeersText(cfg, k))
    decreases |cfg|
  {
    hide W, Str, Word;
    if cfg != [] {
      var p, rest := cfg[0], PeersText(cfg[1..], k);
      PeersOneLine(cfg[1..], k);
      IntOneLine(p.id);
      IntOneLine(p.port);
      WordIsOneLine(p.ip);
      WOneLine(p.ip, Str(p.port) + rest);
      WOneLine(Str(p.id), W(p.ip, Str(p.port) + rest));
    }
  }

  lemma EntryOneLine(e: LogEntry)
    requires WritableEntry(e)
    ensures OneLine(EntryText(e, "")) && EntryText(e, "") != ""
  {
    hide W, Str, Word, PeersText, WritablePeers;
    PeersOneLine(e.newConfig, "");
    IntOneLine(|e.newConfig|);
    PeersOneLine(e.oldConfig, " " + ConfigText(e.newConfig, ""));
    IntOneLine(|e.oldConfig|);
    var t5 := ConfigText(e.oldConfig, " " + ConfigText(e.newConfig, ""));
    WordIsOneLine(e.value);
    WordIsOneLine(e.key);
    IntOneLine(OpCode(e.op));
    IntOneLine(e.term);
    IntOneLine(e.index);
    WOneLine(e.value, t5);
    WOneLine(e.key, W(e.value, t5));
    WOneLine(Str(OpCode(e.op)), W(e.key, W(e.value, t5)));
    WOneLine(Str(e.term), W(Str(OpCode(e.op)), W(e.key, W(e.value, t5))));
    WOneLine(Str(e.index), W(Str(e.term), W(Str(OpCode(e.op)), W(e.key, W(e.value, t5)))));
    WNotEmpty(Str(e.index), W(Str(e.term), W(Str(OpCode(e.op)), W(e.key, W(e.value, t5)))));
  }

  lemma WNotEmpty(w: string, k: string)
    ensures W(w, k) != ""
  {
    assert |W(w, k)| >= 1;
  }

  lemma {:induction false} LinesRead(es: seq<LogEntry>, got: seq<LogEntry>)
    requires forall i | 0 <= i < |es| :: WritableEntry(es[i])
    ensures GetLines(Stream(LinesText(es), false), |es|, got) == Some(got + es)
    decreases |es|
  {
    hide GetEntry, EntryText, WritableEntry, GetLine;
    if es == [] {
      assert got + es == got;
    } else {
      var line := EntryText(es[0], "");
      EntryOneLine(es[0]);
      LineRead(line, LinesText(es[1..]));
      EntryRead("", es[0], "");
      assert "" + line == line;
      LinesRead(es[1..], got + [es[0]]);
      assert got + [es[0]] + es[1..] == got + es;
    }
  }

  lemma LabelsAreWords()
    ensures Word("currentTerm") && Word("votedFor") && Word("lastIncludedIndex") && Word("lastIncludedTerm") && Word("logCount")
  {
  }

  /** load after save returns the same term, vote, boundary and log. */
  lemma LoadAfterSave(d: Node.Saved)
    requires Writable(d)
    ensures LoadText(SaveText(d)) == Some(d)
  {
    LabelsAreWords();
    hide GetField, GetCountField, GetLines, GetLine, Line, LinesText, Word, WritableEntry;
    var lines := LinesText(d.logs);
    var t5 := Line("logCount", |d.logs|, lines);
    var t4 := Line("lastIncludedTerm", d.lastIncludedTerm, t5);
    var t3 := Line("lastIncludedIndex", d.lastIncludedIndex, t4);
    var t2 := Line("votedFor", d.votedFor, t3);
    FieldRead("", "currentTerm", d.term, t2);
    assert "" + SaveText(d) == SaveText(d);
    FieldRead("\n", "votedFor", d.votedFor, t3);
    FieldRead("\n", "lastIncludedIndex", d.lastIncludedIndex, t4);
    FieldRead("\n", "lastIncludedTerm", d.lastIncludedTerm, t5);
    CountFieldRead("\n", "logCount", |d.logs|, lines);
    LineRead("", lines);
    assert "" + ("\n" + lines) == "\n" + lines;
    LinesRead(d.logs, []);
    assert [] + d.logs == d.logs;
  }

  // ---- the object ----

  lemma LineCat(word: string, n: int, t: string, k: string)
    ensures Line(word, n, t) + k == Line(word, n, t + k)
  {
    Cat("\n", t, k);
    Cat(Str(n), "\n" + t, k);
    CatW(word, Str(n) + ("\n" + t), k);
  }

  lemma HeaderCat(d: Node.Saved, k: string)
    ensures SaveHeader(d, "") + k == SaveHeader(d, k)
  {
    hide Line;
    assert "" + k == k;
    var t5 := Line("logCount", |d.logs|, "");
    var t4 := Line("lastIncludedTerm", d.lastIncludedTerm, t5);
    var t3 := Line("lastIncludedIndex", d.lastIncludedIndex, t4);
    LineCat("logCount", |d.logs|, "", k);
    LineCat("lastIncludedTerm", d.lastIncludedTerm, t5, k);
    LineCat("lastIncludedIndex", d.lastIncludedIndex, t4, k);
    LineCat("votedFor", d.votedFor, t3, k);
    LineCat("currentTerm", d.term, Line("votedFor", d.votedFor, t3), k);
  }

  /** The file of one node. */
  class PersistentStorage {
    var file: Option<string>

    constructor ()
      ensures file == None
    {
      file := None;
    }

    method Save(d: Node.Saved)
      modifies this
      ensures file == Some(SaveText(d))
    {
      hide SaveHeader, EntryText;
      var ofs := SaveHeader(d, "");
      HeaderCat(d, LinesText(d.logs));
      assert d.logs[0..] == d.logs;
      for i := 0 to |d.logs|
        invariant ofs + LinesText(d.logs[i..]) == SaveText(d)
      {
        assert d.logs[i..][0] == d.logs[i] && d.logs[i..][1..] == d.logs[i + 1..];
        var line := EncodeEntry(d.logs[i]);
        Cat(line, "\n", LinesText(d.logs[i + 1..]));
        Cat(ofs, line + "\n", LinesText(d.logs[i + 1..]));
        ofs := ofs + (line + "\n");
      }
      assert d.logs[|d.logs|..] == [];
      assert ofs + "" == ofs;
      file := Some(ofs);
    }

    method Load() returns (r: Option<Node.Saved>)
      ensures r == if file.None? then None else LoadText(file.value)
    {
      hide GetField, GetCountField, GetLine, GetEntry;
      if file.None? {
        return None;
      }
      var term := GetField(Stream(file.value, false), "currentTerm");
      if term.None? { return None; }
      var vote := GetField(term.value.1, "votedFor");
      if vote.None? { return None; }
      var index := GetField(vote.value.1, "lastIncludedIndex");
      if index.None? { return None; }
      var lastTerm := GetField(index.value.1, "lastIncludedTerm");
      if lastTerm.None? { return None; }
      var count := GetCountField(lastTerm.value.1, "logCount");
      if count.None? { return None; }
      var logs := LoadLines(GetLine(count.value.1).1, count.value.0);
      if logs.None? { return None; }
      r := Some(Node.Saved(term.value.0, vote.value.0, index.value.0, lastTerm.value.0, logs.value));
    }

    method LoadLines(ifs: Stream, logCount: nat) returns (logs: Option<seq<LogEntry>>)
      ensures logs == GetLines(ifs, logCount, [])
    {
      hide GetEntry, GetLine;
      var st, got, i := ifs, [], 0;
      while i < logCount
        invariant i <= logCount
        invariant GetLines(st, logCount - i, got) == GetLines(ifs, logCount, [])
        decreases logCount - i, |st.rest|
      {
        var (line, next) := GetLine(st);
        LineShortens(st);
        if next.fail {
          return None;
        }
        st := next;
        if line == "" {
          continue;
        }
        var e := GetEntry(Stream(line, false));
        if e.None? {
          return None;
        }
        got := got + [e.value.0];
        i := i + 1;
      }
      logs := Some(got);
    }
  }

  /** What a node has saved is what it loads. */
  method SavedThenLoaded(d: Node.Saved) returns (r: Option<Node.Saved>)
    requires Writable(d)
    ensures r == Some(d)
  {
    var storage := new PersistentStorage();
    storage.Save(d);
    LoadAfterSave(d);
    r := storage.Load();
  }
}
