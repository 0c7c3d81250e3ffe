/**
 What a cluster of node objects guarantees, about every run of it: the theorems of the protocol carried over the
 matching run, and read off the objects.
 */
module NodeGuarantees {
  import opened Types
  import opened Node
  import opened NodeLog
  import opened NodeRefinement
  import opened Protocol
  import opened NodeCluster
  import RR = ReadRefinement
  import opened Merging
  import Theorems
  import Acknowledge

  lemma Placed(ws: seq<World>, run: seq<Sys>, at: seq<nat>, fulls: seq<map<Id, seq<LogEntry>>>, i: nat, n: Id)
    requires Matches(ws, run, at, fulls) && i < |ws| && n in ws[i].nodes
    ensures i < |at| && i < |fulls| && at[i] < |run| && Run(run) && n in ws[i].granted && n in fulls[i]
    ensures Plays(run[at[i]], n, ws[i].nodes[n], fulls[i][n], ws[i].granted[n]) && ws[i].calls == run[at[i]].calls
    ensures ws[i].nodes.Keys == run[at[i]].reps.Keys
  {
    hide Plays, Run, ReadEdge, NetOfChange, RoundsOK, SlicesSent, Evolves;
    assert Mirror(run[at[i]], ws[i], fulls[i]);
  }

  /** What the protocol knows of a node. */
  lemma PlacedFacts(ws: seq<World>, run: seq<Sys>, at: seq<nat>, fulls: seq<map<Id, seq<LogEntry>>>, i: nat, n: Id)
    requires Matches(ws, run, at, fulls) && i < |ws| && n in ws[i].nodes
    ensures i < |at| && i < |fulls| && at[i] < |run| && Run(run) && n in fulls[i]
    ensures n in run[at[i]].reps && n in run[at[i]].e.nodes
    ensures var s, rep, v := ws[i].nodes[n], run[at[i]].reps[n], run[at[i]].e.nodes[n];
      && Represents(s, fulls[i][n]) && rep.log == fulls[i][n]
      && rep.commit == s.commitIndex == s.lastApplied == rep.applied <= |fulls[i][n]|
      && v.role == s.role && v.term == s.term
  {
    hide Matches, Plays, Run, Represents;
    Placed(ws, run, at, fulls, i, n);
    RR.PlaysIn(run[at[i]], n, ws[i].nodes[n], fulls[i][n], ws[i].granted[n]);
  }

  lemma Sizes(ws: seq<World>, run: seq<Sys>, at: seq<nat>, fulls: seq<map<Id, seq<LogEntry>>>)
    requires Matches(ws, run, at, fulls)
    ensures |at| == |fulls| == |ws| && Run(run)
  {
    hide Mirror, Run, ReadEdge, Evolves;
  }

  lemma TimesInOrder(ws: seq<World>, run: seq<Sys>, at: seq<nat>, fulls: seq<map<Id, seq<LogEntry>>>, i: nat, j: nat)
    requires Matches(ws, run, at, fulls) && i <= j < |ws|
    ensures j < |at| && at[i] <= at[j] < |run|
  {
    hide Mirror, Run, ReadEdge, Evolves;
  }

  /** No term has two leaders. */
  lemma OneLeaderPerTerm(ws: seq<World>, i: nat, j: nat, a: Id, b: Id)
    requires WorldRun(ws) && i < |ws| && j < |ws| && a in ws[i].nodes && b in ws[j].nodes
    requires ws[i].nodes[a].role == Leader == ws[j].nodes[b].role && ws[i].nodes[a].term == ws[j].nodes[b].term
    ensures a == b
  {
    hide WorldRun, Matches, Represents, Run;
    var run, at, fulls := RunIsMatched(ws);
    PlacedFacts(ws, run, at, fulls, i, a);
    PlacedFacts(ws, run, at, fulls, j, b);
    Theorems.ElectionSafety(run, at[i], at[j], a, b, ws[i].nodes[a].term);
  }

  /** A whole log for every node at every time: it starts empty, it moves with the moves, and the node's compacted log
      and boundary are what they should be for it. */
  ghost predicate WholeLogs(ws: seq<World>, fulls: seq<map<Id, seq<LogEntry>>>) {
    && |fulls| == |ws| > 0
    && (forall n | n in fulls[0] :: fulls[0][n] == [])
    && (forall i, j | 0 <= i < j < |ws| && j == i + 1 :: Evolves(ws[i], ws[j], fulls[i], fulls[j]))
    && (forall i | 0 <= i < |ws| :: fulls[i].Keys == ws[i].nodes.Keys)
    && (forall i, n | 0 <= i < |ws| && n in ws[i].nodes :: Represents(ws[i].nodes[n], fulls[i][n]))
  }

  /** Everything a node considers committed, compacted or not, is in the other log. */
  ghost predicate Held(s: NodeState, full: seq<LogEntry>, other: seq<LogEntry>) {
    Agree(full, other, s.commitIndex)
  }

  /** Two nodes, at whatever times, agree up to the smaller of their commit indexes. */
  ghost predicate CommitsAgree(ws: seq<World>, fulls: seq<map<Id, seq<LogEntry>>>)
    requires WholeLogs(ws, fulls)
  {
    forall i, j, a, b | 0 <= i < |ws| && 0 <= j < |ws| && a in ws[i].nodes && b in ws[j].nodes ::
      Held(ws[i].nodes[a], fulls[i][a], fulls[j][b]) || Held(ws[j].nodes[b], fulls[j][b], fulls[i][a])
  }

  /** A leader of a later term holds everything committed in an earlier one. */
  ghost predicate LeadersComplete(ws: seq<World>, fulls: seq<map<Id, seq<LogEntry>>>)
    requires WholeLogs(ws, fulls)
  {
    forall i, j, a, b |
      && 0 <= i < |ws| && 0 <= j < |ws| && a in ws[i].nodes && b in ws[j].nodes
      && ws[j].nodes[b].role == Leader && ws[i].nodes[a].term < ws[j].nodes[b].term ::
      Held(ws[i].nodes[a], fulls[i][a], fulls[j][b])
  }

  /** A leader never gives up part of its log while it leads. */
  ghost predicate LeadersAppend(ws: seq<World>, fulls: seq<map<Id, seq<LogEntry>>>)
    requires WholeLogs(ws, fulls)
  {
    forall i, j, n |
      && 0 <= i <= j < |ws| && n in ws[i].nodes && n in ws[j].nodes
      && ws[i].nodes[n].role == Leader && Leads(ws[j].nodes[n], ws[i].nodes[n].term) ::
      fulls[i][n] <= fulls[j][n]
  }

  /** Log Matching: where two whole logs have the same term at an index, they are the same up to it. */
  ghost predicate LogsMatch(ws: seq<World>, fulls: seq<map<Id, seq<LogEntry>>>)
    requires WholeLogs(ws, fulls)
  {
    forall i, j, a, b | 0 <= i < |ws| && 0 <= j < |ws| && a in ws[i].nodes && b in ws[j].nodes ::
      TermsDecide(fulls[i][a], fulls[j][b])
  }

  /** A former leader is never left with a shorter beginning of its log and all of it committed. */
  ghost predicate LeadersNotCut(ws: seq<World>, fulls: seq<map<Id, seq<LogEntry>>>)
    requires WholeLogs(ws, fulls)
  {
    forall i, j, n |
      && 0 <= i <= j < |ws| && n in ws[i].nodes && n in ws[j].nodes && ws[i].nodes[n].role == Leader
      && ws[j].nodes[n].commitIndex == |fulls[j][n]| < |fulls[i][n]| ::
      !(fulls[j][n] <= fulls[i][n])
  }

  /** The log `full`, applied so far, has everything that any node considered committed at any time up to i. */
  ghost predicate CoversAll(ws: seq<World>, fulls: seq<map<Id, seq<LogEntry>>>, i: int, full: seq<LogEntry>, applied: int)
    requires WholeLogs(ws, fulls) && i < |ws|
  {
    forall k, a | 0 <= k <= i && a in ws[k].nodes ::
      ws[k].nodes[a].commitIndex <= applied && Held(ws[k].nodes[a], fulls[k][a], full)
  }

  /** Call r begins in move i and returns v in move j. */
  ghost predicate Reads(ws: seq<World>, i: int, j: int, r: nat, v: Option<string>) {
    && 0 <= i < j < |ws| - 1
    && r !in ws[i].calls && r in ws[i + 1].calls
    && r in ws[j].calls && !ws[j].calls[r].phase.Done?
    && r in ws[j + 1].calls && ws[j + 1].calls[r].phase == Done(v)
  }

  /** What a read returns is what the log of its node through lastApplied gives to the key, and that covers everything
      committed anywhere when the read began or before. */
  ghost predicate ReadIsRight(ws: seq<World>, fulls: seq<map<Id, seq<LogEntry>>>, i: int, j: int, r: nat,
      v: Option<string>)
    requires WholeLogs(ws, fulls) && Reads(ws, i, j, r, v)
  {
    var n, key := ws[j].calls[r].node, ws[j].calls[r].key;
    && n in ws[j].nodes
    && 0 <= ws[j].nodes[n].lastApplied <= |fulls[j][n]|
    && v == Get(Fold(fulls[j][n][..ws[j].nodes[n].lastApplied]), key)
    && CoversAll(ws, fulls, i, fulls[j][n], ws[j].nodes[n].lastApplied)
  }

  ghost predicate ReadsRight(ws: seq<World>, fulls: seq<map<Id, seq<LogEntry>>>)
    requires WholeLogs(ws, fulls)
  {
    forall i, j, r, v | Reads(ws, i, j, r, v) :: ReadIsRight(ws, fulls, i, j, r, v)
  }

  /** The guarantees of a cluster of node objects, about the logs the nodes stand for: compaction takes nothing away. */
  lemma WholeLogsAreSafe(ws: seq<World>) returns (fulls: seq<map<Id, seq<LogEntry>>>)
    requires WorldRun(ws)
    ensures WholeLogs(ws, fulls)
    ensures CommitsAgree(ws, fulls) && LeadersComplete(ws, fulls) && LeadersAppend(ws, fulls) && ReadsRight(ws, fulls)
    ensures LogsMatch(ws, fulls) && LeadersNotCut(ws, fulls)
  {
    hide WorldRun, Matches, WholeLogs, Held, Leads, Reads, ReadIsRight, Represents, TermsDecide;
    var run, at, logs := RunIsMatched(ws);
    fulls := logs;
    LogsAreWhole(ws, run, at, fulls);
    forall i, j, a, b | 0 <= i < |ws| && 0 <= j < |ws| && a in ws[i].nodes && b in ws[j].nodes
      ensures Held(ws[i].nodes[a], fulls[i][a], fulls[j][b]) || Held(ws[j].nodes[b], fulls[j][b], fulls[i][a])
    {
      TwoAgree(ws, run, at, fulls, i, j, a, b);
    }
    forall i, j, a, b |
      && 0 <= i < |ws| && 0 <= j < |ws| && a in ws[i].nodes && b in ws[j].nodes
      && ws[j].nodes[b].role == Leader && ws[i].nodes[a].term < ws[j].nodes[b].term
      ensures Held(ws[i].nodes[a], fulls[i][a], fulls[j][b])
    {
      LeaderHolds(ws, run, at, fulls, i, j, a, b);
    }
    forall i, j, n |
      && 0 <= i <= j < |ws| && n in ws[i].nodes && n in ws[j].nodes
      && ws[i].nodes[n].role == Leader && Leads(ws[j].nodes[n], ws[i].nodes[n].term)
      ensures fulls[i][n] <= fulls[j][n]
    {
      LeaderAppends(ws, run, at, fulls, i, j, n);
    }
    forall i, j, a, b | 0 <= i < |ws| && 0 <= j < |ws| && a in ws[i].nodes && b in ws[j].nodes
      ensures TermsDecide(fulls[i][a], fulls[j][b])
    {
      TwoMatch(ws, run, at, fulls, i, j, a, b);
    }
    forall i, j, n |
      && 0 <= i <= j < |ws| && n in ws[i].nodes && n in ws[j].nodes && ws[i].nodes[n].role == Leader
      && ws[j].nodes[n].commitIndex == |fulls[j][n]| < |fulls[i][n]|
      ensures !(fulls[j][n] <= fulls[i][n])
    {
      LeaderNotCut(ws, run, at, fulls, i, j, n);
    }
    forall i, j, r, v | Reads(ws, i, j, r, v)
      ensures ReadIsRight(ws, fulls, i, j, r, v)
    {
      OneReadIsRight(ws, run, at, fulls, i, j, r, v);
    }
  }

  lemma LogsAreWhole(ws: seq<World>, run: seq<Sys>, at: seq<nat>, fulls: seq<map<Id, seq<LogEntry>>>)
    requires Matches(ws, run, at, fulls)
    ensures WholeLogs(ws, fulls)
    ensures |fulls| == |ws| && forall i, n | 0 <= i < |ws| && n in ws[i].nodes :: n in fulls[i]
  {
    hide Plays, Represents, Run, ReadEdge, NetOfChange, RoundsOK, SlicesSent, Evolves;
    forall i | 0 <= i < |ws|
      ensures fulls[i].Keys == ws[i].nodes.Keys
    {
      assert Mirror(run[at[i]], ws[i], fulls[i]);
    }
    forall i, n | 0 <= i < |ws| && n in ws[i].nodes
      ensures Represents(ws[i].nodes[n], fulls[i][n])
    {
      PlacedFacts(ws, run, at, fulls, i, n);
    }
  }

  lemma TwoAgree(ws: seq<World>, run: seq<Sys>, at: seq<nat>, fulls: seq<map<Id, seq<LogEntry>>>, i: nat, j: nat, a: Id,
      b: Id)
    requires Matches(ws, run, at, fulls) && i < |ws| && j < |ws| && a in ws[i].nodes && b in ws[j].nodes
    ensures |fulls| == |ws| && a in fulls[i] && b in fulls[j]
    ensures Held(ws[i].nodes[a], fulls[i][a], fulls[j][b]) || Held(ws[j].nodes[b], fulls[j][b], fulls[i][a])
  {
    hide Matches, Represents, Run;
    Sizes(ws, run, at, fulls);
    PlacedFacts(ws, run, at, fulls, i, a);
    PlacedFacts(ws, run, at, fulls, j, b);
    Theorems.StateMachineSafety(run, at[i], at[j], a, b);
  }

  lemma LeaderHolds(ws: seq<World>, run: seq<Sys>, at: seq<nat>, fulls: seq<map<Id, seq<LogEntry>>>, i: nat, j: nat,
      a: Id, b: Id)
    requires Matches(ws, run, at, fulls) && i < |ws| && j < |ws| && a in ws[i].nodes && b in ws[j].nodes
    requires ws[j].nodes[b].role == Leader && ws[i].nodes[a].term < ws[j].nodes[b].term
    ensures |fulls| == |ws| && a in fulls[i] && b in fulls[j] && Held(ws[i].nodes[a], fulls[i][a], fulls[j][b])
  {
    hide Matches, Represents, Run;
    Sizes(ws, run, at, fulls);
    PlacedFacts(ws, run, at, fulls, i, a);
    PlacedFacts(ws, run, at, fulls, j, b);
    Theorems.LeaderCompleteness(run, at[i], at[j], a, b);
  }

  lemma LeaderAppends(ws: seq<World>, run: seq<Sys>, at: seq<nat>, fulls: seq<map<Id, seq<LogEntry>>>, i: nat, j: nat,
      n: Id)
    requires Matches(ws, run, at, fulls) && i <= j < |ws| && n in ws[i].nodes && n in ws[j].nodes
    requires ws[i].nodes[n].role == Leader && Leads(ws[j].nodes[n], ws[i].nodes[n].term)
    ensures |fulls| == |ws| && n in fulls[i] && n in fulls[j] && fulls[i][n] <= fulls[j][n]
  {
    hide Matches, Represents, Run;
    Sizes(ws, run, at, fulls);
    PlacedFacts(ws, run, at, fulls, i, n);
    PlacedFacts(ws, run, at, fulls, j, n);
    TimesInOrder(ws, run, at, fulls, i, j);
    Theorems.LeaderAppendOnly(run, at[i], at[j], n, ws[i].nodes[n].term);
  }

  lemma TwoMatch(ws: seq<World>, run: seq<Sys>, at: seq<nat>, fulls: seq<map<Id, seq<LogEntry>>>, i: nat, j: nat, a: Id,
      b: Id)
    requires Matches(ws, run, at, fulls) && i < |ws| && j < |ws| && a in ws[i].nodes && b in ws[j].nodes
    ensures |fulls| == |ws| && a in fulls[i] && b in fulls[j] && TermsDecide(fulls[i][a], fulls[j][b])
  {
    hide Matches, Represents, Run;
    Sizes(ws, run, at, fulls);
    PlacedFacts(ws, run, at, fulls, i, a);
    PlacedFacts(ws, run, at, fulls, j, b);
    forall k: nat | k < |fulls[i][a]| && k < |fulls[j][b]| && fulls[i][a][k].term == fulls[j][b][k].term
      ensures Agree(fulls[i][a], fulls[j][b], k + 1)
    {
      Theorems.LogMatching(run, at[i], at[j], a, b, k);
    }
  }

  lemma LeaderNotCut(ws: seq<World>, run: seq<Sys>, at: seq<nat>, fulls: seq<map<Id, seq<LogEntry>>>, i: nat, j: nat,
      n: Id)
    requires Matches(ws, run, at, fulls) && i <= j < |ws| && n in ws[i].nodes && n in ws[j].nodes
    requires |fulls| == |ws| && n in fulls[i] && n in fulls[j] && ws[i].nodes[n].role == Leader
    requires ws[j].nodes[n].commitIndex == |fulls[j][n]| < |fulls[i][n]|
    ensures !(fulls[j][n] <= fulls[i][n])
  {
    hide Matches, Represents, Run;
    Sizes(ws, run, at, fulls);
    PlacedFacts(ws, run, at, fulls, i, n);
    PlacedFacts(ws, run, at, fulls, j, n);
    TimesInOrder(ws, run, at, fulls, i, j);
    Acknowledge.NotLeftBehind(run, at[i], at[j], n, ws[i].nodes[n].term);
  }

  lemma OneReadIsRight(ws: seq<World>, run: seq<Sys>, at: seq<nat>, fulls: seq<map<Id, seq<LogEntry>>>, i: int, j: int,
      r: nat, v: Option<string>)
    requires Matches(ws, run, at, fulls) && WholeLogs(ws, fulls) && Reads(ws, i, j, r, v)
    ensures ReadIsRight(ws, fulls, i, j, r, v)
  {
    hide Matches, Run, Represents, Fold, Held, CoversAll, WholeLogs;
    ReadOnRun(ws, run, at, fulls, i, j, r, v);
    Theorems.LinearizableRead(run, at[i], at[j], r, v);
    var n := ws[j].calls[r].node;
    PlacedFacts(ws, run, at, fulls, j, n);
    ReadCovers(ws, run, at, fulls, i, run[at[j]].reps[n]);
  }

  /** The read of the objects is one of the protocol's run: its first and its last move are single steps there. */
  lemma ReadOnRun(ws: seq<World>, run: seq<Sys>, at: seq<nat>, fulls: seq<map<Id, seq<LogEntry>>>, i: int, j: int,
      r: nat, v: Option<string>)
    requires Matches(ws, run, at, fulls) && Reads(ws, i, j, r, v)
    ensures |fulls| == |ws| == |at| && Run(run) && at[i] < at[j] < |run| - 1
    ensures r !in run[at[i]].calls && r in run[at[i] + 1].calls
    ensures r in run[at[j]].calls && r in run[at[j] + 1].calls && run[at[j]].calls[r] == ws[j].calls[r]
    ensures !run[at[j]].calls[r].phase.Done? && run[at[j] + 1].calls[r].phase == Done(v)
    ensures ws[j].nodes.Keys == run[at[j]].reps.Keys
  {
    hide Matches, Run, ReadEdge;
    EdgesOf(ws, i, j, r, v);
    SingleStep(ws, run, at, fulls, i);
    SingleStep(ws, run, at, fulls, j);
    TimesInOrder(ws, run, at, fulls, i + 1, j);
    SameCalls(ws, run, at, fulls, i);
    SameCalls(ws, run, at, fulls, i + 1);
    SameCalls(ws, run, at, fulls, j);
    SameCalls(ws, run, at, fulls, j + 1);
  }

  lemma EdgesOf(ws: seq<World>, i: int, j: int, r: nat, v: Option<string>)
    requires Reads(ws, i, j, r, v)
    ensures ReadEdge(ws[i], ws[i + 1]) && ReadEdge(ws[j], ws[j + 1])
  {
  }

  lemma SingleStep(ws: seq<World>, run: seq<Sys>, at: seq<nat>, fulls: seq<map<Id, seq<LogEntry>>>, i: nat)
    requires Matches(ws, run, at, fulls) && i < |ws| - 1 && ReadEdge(ws[i], ws[i + 1])
    ensures |at| == |fulls| == |ws| && Run(run) && at[i + 1] == at[i] + 1
  {
    hide Mirror, Run, ReadEdge, Evolves;
  }

  lemma SameCalls(ws: seq<World>, run: seq<Sys>, at: seq<nat>, fulls: seq<map<Id, seq<LogEntry>>>, i: nat)
    requires Matches(ws, run, at, fulls) && i < |ws|
    ensures |at| == |ws| && at[i] < |run| && ws[i].calls == run[at[i]].calls && ws[i].nodes.Keys == run[at[i]].reps.Keys
  {
    hide Run, ReadEdge, Plays, NetOfChange, RoundsOK, SlicesSent, Evolves;
    assert Mirror(run[at[i]], ws[i], fulls[i]);
  }

  lemma ReadCovers(ws: seq<World>, run: seq<Sys>, at: seq<nat>, fulls: seq<map<Id, seq<LogEntry>>>, i: nat,
      rep: Replica)
    requires Matches(ws, run, at, fulls) && WholeLogs(ws, fulls) && i < |ws| && |at| == |ws| && at[i] < |run|
    requires forall k, a | 0 <= k <= at[i] && a in run[k].reps ::
      run[k].reps[a].commit <= rep.applied && Agree(run[k].reps[a].log, rep.log, run[k].reps[a].commit)
    ensures CoversAll(ws, fulls, i, rep.log, rep.applied)
  {
    hide Matches, Represents, Agree, WholeLogs, Run;
    Sizes(ws, run, at, fulls);
    forall k, a | 0 <= k <= i && a in ws[k].nodes
      ensures a in fulls[k] && ws[k].nodes[a].commitIndex <= rep.applied && Held(ws[k].nodes[a], fulls[k][a], rep.log)
    {
      PlacedFacts(ws, run, at, fulls, k, a);
      TimesInOrder(ws, run, at, fulls, k, i);
    }
  }

  // ---- in terms of what the nodes still hold ----

  /** The entry at index k, where the node still has it. */
  ghost predicate HasEntry(s: NodeState, k: int) {
    0 <= Pos(s, k) < |s.logs|
  }

  lemma EntryIs(s: NodeState, full: seq<LogEntry>, k: int)
    requires Represents(s, full) && HasEntry(s, k)
    ensures 1 <= k <= |full| && s.logs[Pos(s, k)] == full[k - 1]
  {
  }

  lemma HasEntryAt(s: NodeState, full: seq<LogEntry>, k: int)
    requires Represents(s, full) && s.lastIncludedIndex < k <= |full|
    ensures HasEntry(s, k)
  {
  }

  lemma WholeLogOf(ws: seq<World>, fulls: seq<map<Id, seq<LogEntry>>>, i: nat, n: Id)
    requires WholeLogs(ws, fulls) && i < |ws| && n in ws[i].nodes
    ensures |fulls| == |ws| && n in fulls[i] && Represents(ws[i].nodes[n], fulls[i][n])
  {
    hide Evolves, Represents;
  }

  lemma HeldAt(s: NodeState, full: seq<LogEntry>, other: seq<LogEntry>, k: int)
    requires Held(s, full, other) && 1 <= k <= s.commitIndex
    ensures k <= |full| && k <= |other| && full[k - 1] == other[k - 1] && s.commitIndex <= |other|
  {
  }

  /** Two nodes, at whatever times, hold the same entry at every index both consider committed and neither has
      compacted away. */
  lemma CommittedEntriesAgree(ws: seq<World>, i: nat, j: nat, a: Id, b: Id, k: int)
    requires WorldRun(ws) && i < |ws| && j < |ws| && a in ws[i].nodes && b in ws[j].nodes
    requires HasEntry(ws[i].nodes[a], k) && k <= ws[i].nodes[a].commitIndex
    requires HasEntry(ws[j].nodes[b], k) && k <= ws[j].nodes[b].commitIndex
    ensures var sa, sb := ws[i].nodes[a], ws[j].nodes[b]; sa.logs[Pos(sa, k)] == sb.logs[Pos(sb, k)]
  {
    hide WorldRun, WholeLogs, Represents, HasEntry, Held, ReadsRight, LeadersComplete, LeadersAppend, LogsMatch,
      LeadersNotCut;
    var fulls := WholeLogsAreSafe(ws);
    WholeLogOf(ws, fulls, i, a);
    WholeLogOf(ws, fulls, j, b);
    var sa, sb, fa, fb := ws[i].nodes[a], ws[j].nodes[b], fulls[i][a], fulls[j][b];
    EntryIs(sa, fa, k);
    EntryIs(sb, fb, k);
    if Held(sa, fa, fb) {
      HeldAt(sa, fa, fb, k);
    } else {
      HeldAt(sb, fb, fa, k);
    }
  }

  /** A leader of a later term holds everything committed in an earlier one, except what it has compacted itself. */
  lemma LeaderHoldsCommitted(ws: seq<World>, i: nat, j: nat, a: Id, b: Id, k: int)
    requires WorldRun(ws) && i < |ws| && j < |ws| && a in ws[i].nodes && b in ws[j].nodes
    requires ws[j].nodes[b].role == Leader && ws[i].nodes[a].term < ws[j].nodes[b].term
    requires HasEntry(ws[i].nodes[a], k) && k <= ws[i].nodes[a].commitIndex
    ensures var sa, sb := ws[i].nodes[a], ws[j].nodes[b];
      && sa.commitIndex <= LastLogIndex(sb)
      && (k > sb.lastIncludedIndex ==> HasEntry(sb, k) && sa.logs[Pos(sa, k)] == sb.logs[Pos(sb, k)])
  {
    hide WorldRun, WholeLogs, Represents, LastLogIndex, HasEntry, Held, ReadsRight, CommitsAgree, LeadersAppend,
      LogsMatch, LeadersNotCut;
    var fulls := WholeLogsAreSafe(ws);
    WholeLogOf(ws, fulls, i, a);
    WholeLogOf(ws, fulls, j, b);
    var sa, sb, fa, fb := ws[i].nodes[a], ws[j].nodes[b], fulls[i][a], fulls[j][b];
    EntryIs(sa, fa, k);
    HeldAt(sa, fa, fb, k);
    LastOf(sb, fb);
    if k > sb.lastIncludedIndex {
      HasEntryAt(sb, fb, k);
      EntryIs(sb, fb, k);
    }
  }

  /** Linearizable reads, of the objects: a read that begins in move i and returns in move j returns the value that the
      log of its leader, through lastApplied, gives to the key; and that covers everything any node had committed at
      any time until the read began, whatever crashes made the nodes forget since. */
  lemma ReadIsLinearizable(ws: seq<World>, i: nat, j: nat, r: nat, v: Option<string>)
    returns (fulls: seq<map<Id, seq<LogEntry>>>)
    requires WorldRun(ws) && Reads(ws, i, j, r, v)
    ensures WholeLogs(ws, fulls)
    ensures var n, key := ws[j].calls[r].node, ws[j].calls[r].key;
      && n in ws[j].nodes
      && var s, full := ws[j].nodes[n], fulls[j][n];
      && 0 <= s.lastApplied <= |full|
      && v == Get(Fold(full[..s.lastApplied]), key)
      && forall k, a | 0 <= k <= i && a in ws[k].nodes ::
           ws[k].nodes[a].commitIndex <= s.lastApplied && Agree(fulls[k][a], full, ws[k].nodes[a].commitIndex)
  {
    hide WorldRun, WholeLogs, CommitsAgree, LeadersComplete, LeadersAppend, Agree, LogsMatch, LeadersNotCut;
    fulls := WholeLogsAreSafe(ws);
    assert ReadIsRight(ws, fulls, i, j, r, v);
  }

  /** Reads do not go back: a read that begins after another one has returned has applied at least as much, and the first
      one's log through its lastApplied is the beginning of the second one's. */
  lemma ReadsAreMonotone(ws: seq<World>, i: nat, j: nat, r: nat, v: Option<string>, i': nat, j': nat, r': nat,
      v': Option<string>)
    returns (fulls: seq<map<Id, seq<LogEntry>>>)
    requires WorldRun(ws) && Reads(ws, i, j, r, v) && Reads(ws, i', j', r', v') && j <= i'
    ensures WholeLogs(ws, fulls)
    ensures var n, n' := ws[j].calls[r].node, ws[j'].calls[r'].node;
      && n in ws[j].nodes && n' in ws[j'].nodes
      && var s, s', full, full' := ws[j].nodes[n], ws[j'].nodes[n'], fulls[j][n], fulls[j'][n'];
      && 0 <= s.lastApplied <= s'.lastApplied <= |full'| && s.lastApplied <= |full|
      && full[..s.lastApplied] <= full'[..s'.lastApplied]
      && v == Get(Fold(full[..s.lastApplied]), ws[j].calls[r].key)
      && v' == Get(Fold(full'[..s'.lastApplied]), ws[j'].calls[r'].key)
  {
    hide *;
    fulls := WholeLogsAreSafe(ws);
    ReadValue(ws, fulls, i, j, r, v);
    ReadValue(ws, fulls, i', j', r', v');
    var n, n' := ws[j].calls[r].node, ws[j'].calls[r'].node;
    AppliedIsCommitted(ws, j, n);
    LaterCovers(ws, fulls, j, n, i', j', r', v');
    PrefixesNest(fulls[j][n], fulls[j'][n'], ws[j].nodes[n], ws[j'].nodes[n'].lastApplied);
  }

  lemma PrefixesNest(full: seq<LogEntry>, full': seq<LogEntry>, s: NodeState, applied: int)
    requires Held(s, full, full') && s.lastApplied == s.commitIndex <= applied <= |full'|
    ensures 0 <= s.lastApplied <= |full| && full[..s.lastApplied] <= full'[..applied]
  {
  }

  lemma ReadValue(ws: seq<World>, fulls: seq<map<Id, seq<LogEntry>>>, i: int, j: int, r: nat, v: Option<string>)
    requires WholeLogs(ws, fulls) && Reads(ws, i, j, r, v) && ReadsRight(ws, fulls)
    ensures 0 <= i < j < |ws| - 1 && |fulls| == |ws| && r in ws[j].calls
    ensures var n := ws[j].calls[r].node;
      && n in ws[j].nodes && n in fulls[j] && 0 <= ws[j].nodes[n].lastApplied <= |fulls[j][n]|
      && v == Get(Fold(fulls[j][n][..ws[j].nodes[n].lastApplied]), ws[j].calls[r].key)
  {
    hide Fold, CoversAll, Represents;
    assert ReadIsRight(ws, fulls, i, j, r, v);
    WholeLogOf(ws, fulls, j, ws[j].calls[r].node);
    hide WholeLogs;
  }

  lemma LaterCovers(ws: seq<World>, fulls: seq<map<Id, seq<LogEntry>>>, k: nat, a: Id, i: int, j: int, r: nat,
      v: Option<string>)
    requires WholeLogs(ws, fulls) && Reads(ws, i, j, r, v) && ReadsRight(ws, fulls)
    requires k <= i && k < |ws| && a in ws[k].nodes
    ensures |fulls| == |ws| && r in ws[j].calls && ws[j].calls[r].node in ws[j].nodes && a in fulls[k]
    ensures var n := ws[j].calls[r].node;
      n in fulls[j] && ws[k].nodes[a].commitIndex <= ws[j].nodes[n].lastApplied && Held(ws[k].nodes[a], fulls[k][a], fulls[j][n])
  {
    hide Fold, Represents, Held;
    assert ReadIsRight(ws, fulls, i, j, r, v);
    WholeLogOf(ws, fulls, j, ws[j].calls[r].node);
    WholeLogOf(ws, fulls, k, a);
    hide WholeLogs;
  }

  /** Between two moves a node has applied what it considers committed. */
  lemma AppliedIsCommitted(ws: seq<World>, i: nat, n: Id)
    requires WorldRun(ws) && i < |ws| && n in ws[i].nodes
    ensures ws[i].nodes[n].lastApplied == ws[i].nodes[n].commitIndex
  {
    hide WorldRun, Matches, Represents, Run;
    var run, at, fulls := RunIsMatched(ws);
    PlacedFacts(ws, run, at, fulls, i, n);
  }

  /** A write that is acknowledged by either test, its node still leading in the term of the write, is in the log of every read that
      begins then or later, and the read returns its effect unless a later entry writes the key. */
  lemma AcknowledgedWriteIsRead(ws: seq<World>, w: nat, k: nat, i: nat, j: nat, n: Id, op: CommandType, key: string,
      value: string, r: nat, v: Option<string>)
    returns (fulls: seq<map<Id, seq<LogEntry>>>)
    requires WorldRun(ws) && w < k <= i && Reads(ws, i, j, r, v)
    requires Moved(ws[w], ws[w + 1], Write(n, op, key, value))
    requires n in ws[w].nodes && n in ws[k].nodes && Leads(ws[k].nodes[n], ws[w].nodes[n].term)
    requires ws[k].nodes[n].commitIndex >= LastLogIndex(ws[k].nodes[n]) ||
             ws[k].nodes[n].commitIndex > LastLogIndex(ws[w].nodes[n])
    ensures WholeLogs(ws, fulls)
    ensures var rd, s := ws[j].calls[r], ws[w].nodes[n];
      && rd.node in ws[j].nodes
      && 0 <= ws[j].nodes[rd.node].lastApplied <= |fulls[j][rd.node]|
      && Acknowledge.Visible(LogEntry(s.term, LastLogIndex(s) + 1, op, key, value, [], []), fulls[j][rd.node],
                          ws[j].nodes[rd.node].lastApplied, v, rd.key)
  {
    fulls := WholeLogsAreSafe(ws);
    hide WorldRun, Moved, WholeLogs, LeadersAppend, ReadIsRight, Acknowledge.Visible, LastLogIndex, CommitsAgree,
      LeadersComplete, LogsMatch, LeadersNotCut;
    var e := WriteStays(ws, fulls, w, k, n, op, key, value);
    assert ReadIsRight(ws, fulls, i, j, r, v);
    ReadFinds(ws, fulls, k, i, j, n, e, r, v);
  }

  /** ... and without the leadership exactly where the node's whole log still has an entry of the term of the write at its
      index. */
  lemma AcknowledgementIsRightIff(ws: seq<World>, w: nat, k: nat, i: nat, j: nat, n: Id, op: CommandType, key: string,
      value: string, r: nat, v: Option<string>)
    returns (fulls: seq<map<Id, seq<LogEntry>>>)
    requires WorldRun(ws) && w < k <= i && Reads(ws, i, j, r, v)
    requires Moved(ws[w], ws[w + 1], Write(n, op, key, value)) && n in ws[w].nodes && n in ws[k].nodes
    requires ws[k].nodes[n].commitIndex >= LastLogIndex(ws[k].nodes[n]) ||
             ws[k].nodes[n].commitIndex > LastLogIndex(ws[w].nodes[n])
    ensures WholeLogs(ws, fulls)
    ensures var rd, s := ws[j].calls[r], ws[w].nodes[n];
      && rd.node in ws[j].nodes
      && 0 <= ws[j].nodes[rd.node].lastApplied <= |fulls[j][rd.node]|
      && (Acknowledge.Visible(LogEntry(s.term, LastLogIndex(s) + 1, op, key, value, [], []), fulls[j][rd.node],
                              ws[j].nodes[rd.node].lastApplied, v, rd.key)
          <==> 0 <= LastLogIndex(s) < |fulls[k][n]| && fulls[k][n][LastLogIndex(s)].term == s.term)
  {
    hide *;
    fulls := WholeLogsAreSafe(ws);
    ReadValue(ws, fulls, i, j, r, v);
    LaterCovers(ws, fulls, k, n, i, j, r, v);
    var e := WriteIs(ws, fulls, w, n, op, key, value);
    var rd := ws[j].calls[r];
    WholeLogOf(ws, fulls, k, n);
    LastOf(ws[k].nodes[n], fulls[k][n]);
    MatchAndCut(ws, fulls, w + 1, k, j, n, rd.node);
    AnswerIsRightIff(e, fulls[w + 1][n], fulls[k][n], ws[k].nodes[n], fulls[j][rd.node], ws[j].nodes[rd.node].lastApplied, v,
                     rd.key);
  }

  /** The whole log of a writer ends with the entry it has just written. */
  lemma WriteIs(ws: seq<World>, fulls: seq<map<Id, seq<LogEntry>>>, w: nat, n: Id, op: CommandType, key: string,
      value: string)
    returns (e: LogEntry)
    requires WholeLogs(ws, fulls) && w < |ws| - 1 && Moved(ws[w], ws[w + 1], Write(n, op, key, value)) && n in ws[w].nodes
    ensures e == LogEntry(ws[w].nodes[n].term, LastLogIndex(ws[w].nodes[n]) + 1, op, key, value, [], [])
    ensures (op == PUT || op == DEL) && ws[w].nodes[n].role == Leader
    ensures n in ws[w + 1].nodes && ws[w + 1].nodes[n].role == Leader && ws[w + 1].nodes[n].term == ws[w].nodes[n].term
    ensures |fulls| == |ws| && n in fulls[w + 1]
    ensures 1 <= e.index == |fulls[w + 1][n]| && fulls[w + 1][n][e.index - 1] == e
  {
    e := Written(ws[w], ws[w + 1], n, op, key, value);
    WholeLogOf(ws, fulls, w, n);
    WholeLogOf(ws, fulls, w + 1, n);
    AppendedIs(ws[w].nodes[n], ws[w + 1].nodes[n], e, fulls[w][n], fulls[w + 1][n]);
    hide Moved, WholeLogs, Represents, LastLogIndex;
  }

  lemma MatchAndCut(ws: seq<World>, fulls: seq<map<Id, seq<LogEntry>>>, w: nat, k: nat, j: nat, n: Id, m: Id)
    requires WholeLogs(ws, fulls) && LogsMatch(ws, fulls) && LeadersNotCut(ws, fulls)
    requires w <= k < |ws| && j < |ws| && n in ws[w].nodes && n in ws[k].nodes && m in ws[j].nodes
    requires ws[w].nodes[n].role == Leader
    ensures |fulls| == |ws| && n in fulls[w] && n in fulls[k] && m in fulls[j]
    ensures TermsDecide(fulls[w][n], fulls[k][n]) && TermsDecide(fulls[w][n], fulls[j][m])
    ensures ws[k].nodes[n].commitIndex == |fulls[k][n]| < |fulls[w][n]| ==> !(fulls[k][n] <= fulls[w][n])
  {
    WholeLogOf(ws, fulls, w, n);
    WholeLogOf(ws, fulls, k, n);
    WholeLogOf(ws, fulls, j, m);
    hide WholeLogs, TermsDecide;
  }

  /** The same on the four logs: the writer's when it wrote and when it answered, and the reader's. */
  lemma AnswerIsRightIff(e: LogEntry, written: seq<LogEntry>, held: seq<LogEntry>, s: NodeState, log: seq<LogEntry>,
      applied: nat, v: Option<string>, key: string)
    requires e.op == PUT || e.op == DEL
    requires 1 <= e.index == |written| && written[e.index - 1] == e
    requires s.commitIndex <= applied <= |log| && Held(s, held, log) && v == Get(Fold(log[..applied]), key)
    requires s.commitIndex >= |held| || s.commitIndex >= e.index
    requires TermsDecide(written, held) && TermsDecide(written, log)
    requires s.commitIndex == |held| < |written| ==> !(held <= written)
    ensures Acknowledge.Visible(e, log, applied, v, key) <==> e.index <= |held| && held[e.index - 1].term == e.term
  {
    hide Fold;
    var c := s.commitIndex;
    if e.index <= |held| {
      assert held[e.index - 1] == log[e.index - 1];
      if held[e.index - 1].term == e.term {
        assert Agree(written, held, e.index);
        Acknowledge.ReadSees(e, held, c, log, applied, v, key);
      }
    } else {
      ThenHeldIsBeginning(e, written, held, c, log, applied);
    }
  }

  lemma ThenHeldIsBeginning(e: LogEntry, written: seq<LogEntry>, held: seq<LogEntry>, c: int, log: seq<LogEntry>,
      applied: nat)
    requires 1 <= e.index == |written| && written[e.index - 1] == e && |held| < e.index && TermsDecide(written, log)
    requires c <= applied <= |log| && Agree(held, log, c) && (c >= |held| || c >= e.index)
    ensures e.index <= applied && log[e.index - 1] == e ==> c == |held| && held <= written
  {
    if e.index <= applied && log[e.index - 1] == e {
      assert Agree(written, log, e.index);
    }
  }

  /** The entry is where it was put, and committed. */
  lemma WriteStays(ws: seq<World>, fulls: seq<map<Id, seq<LogEntry>>>, w: nat, k: nat, n: Id, op: CommandType,
      key: string, value: string)
    returns (e: LogEntry)
    requires WholeLogs(ws, fulls) && LeadersAppend(ws, fulls) && w < k < |ws|
    requires Moved(ws[w], ws[w + 1], Write(n, op, key, value))
    requires n in ws[w].nodes && n in ws[k].nodes && Leads(ws[k].nodes[n], ws[w].nodes[n].term)
    requires ws[k].nodes[n].commitIndex >= LastLogIndex(ws[k].nodes[n]) ||
             ws[k].nodes[n].commitIndex > LastLogIndex(ws[w].nodes[n])
    ensures e == LogEntry(ws[w].nodes[n].term, LastLogIndex(ws[w].nodes[n]) + 1, op, key, value, [], [])
    ensures op == PUT || op == DEL
    ensures |fulls| == |ws| && n in fulls[k]
    ensures 1 <= e.index <= ws[k].nodes[n].commitIndex && e.index <= |fulls[k][n]| && fulls[k][n][e.index - 1] == e
  {
    e := WriteIs(ws, fulls, w, n, op, key, value);
    WholeLogOf(ws, fulls, k, n);
    LastOf(ws[k].nodes[n], fulls[k][n]);
    hide Moved, WholeLogs, Represents, LastLogIndex;
    assert fulls[w + 1][n] <= fulls[k][n];
  }

  lemma ReadFinds(ws: seq<World>, fulls: seq<map<Id, seq<LogEntry>>>, k: nat, i: int, j: int, n: Id, e: LogEntry, r: nat,
      v: Option<string>)
    requires WholeLogs(ws, fulls) && k <= i && Reads(ws, i, j, r, v) && ReadIsRight(ws, fulls, i, j, r, v)
    requires |fulls| == |ws| && n in ws[k].nodes && n in fulls[k] && (e.op == PUT || e.op == DEL)
    requires 1 <= e.index <= ws[k].nodes[n].commitIndex && e.index <= |fulls[k][n]| && fulls[k][n][e.index - 1] == e
    ensures var rd := ws[j].calls[r];
      && rd.node in ws[j].nodes && rd.node in fulls[j]
      && 0 <= ws[j].nodes[rd.node].lastApplied <= |fulls[j][rd.node]|
      && Acknowledge.Visible(e, fulls[j][rd.node], ws[j].nodes[rd.node].lastApplied, v, rd.key)
  {
    var rd := ws[j].calls[r];
    WholeLogOf(ws, fulls, j, rd.node);
    hide WholeLogs, Fold, Acknowledge.Visible;
    var held, s := ws[k].nodes[n], ws[j].nodes[rd.node];
    assert Held(held, fulls[k][n], fulls[j][rd.node]) && held.commitIndex <= s.lastApplied;
    Acknowledge.ReadSees(e, fulls[k][n], held.commitIndex, fulls[j][rd.node], s.lastApplied, v, rd.key);
  }

  lemma Written(w: World, w': World, n: Id, op: CommandType, key: string, value: string) returns (e: LogEntry)
    requires Moved(w, w', Write(n, op, key, value))
    ensures n in w.nodes && n in w'.nodes
    ensures var s := w.nodes[n];
      && s.role == Leader && (op == PUT || op == DEL)
      && e == LogEntry(s.term, LastLogIndex(s) + 1, op, key, value, [], [])
      && w'.nodes[n] == Persist(s.(logs := s.logs + [e]))
  {
    hide LastLogIndex;
    e := LogEntry(w.nodes[n].term, LastLogIndex(w.nodes[n]) + 1, op, key, value, [], []);
  }

  lemma AppendedIs(s: NodeState, t: NodeState, e: LogEntry, full: seq<LogEntry>, full': seq<LogEntry>)
    requires Represents(s, full) && Represents(t, full') && t == Persist(s.(logs := s.logs + [e]))
    requires e.index == LastLogIndex(s) + 1
    ensures |full'| == |full| + 1 == e.index && full'[|full|] == e
  {
  }
}
