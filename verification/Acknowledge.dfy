/** What the answer to a write is worth: a write is acknowledged by comparing indexes some time after it was appended. */
module Acknowledge {
  import opened Types
  import opened Protocol
  import opened Invariant
  import opened Replay
  import opened Theorems
  import opened EndProof
  import ReadProof

  /** What a client is told of entry `e` by log `log` through `applied`: it is there, and unless a later entry writes the
      same key, its effect is what a read of the key returns. */
  ghost predicate Visible(e: LogEntry, log: seq<LogEntry>, applied: nat, v: Option<string>, key: string)
    requires applied <= |log|
  {
    && 1 <= e.index <= applied && log[e.index - 1] == e
    && (e.key == key && !WrittenFrom(log[..applied], e.index, key) ==> v == if e.op == PUT then Some(e.value) else None)
  }

  lemma ReadSees(e: LogEntry, held: seq<LogEntry>, c: int, log: seq<LogEntry>, applied: nat, v: Option<string>, key: string)
    requires e.op == PUT || e.op == DEL
    requires 1 <= e.index <= c <= applied <= |log| && Agree(held, log, c) && held[e.index - 1] == e
    requires v == Get(Fold(log[..applied]), key)
    ensures Visible(e, log, applied, v, key)
  {
    hide Fold, WrittenFrom;
    assert held[e.index - 1] == log[e.index - 1];
    if e.key == key && !WrittenFrom(log[..applied], e.index, key) {
      LastWriteIsRead(log[..applied], e.index - 1, key);
    }
  }

  lemma WriteFacts(s: Sys, s': Sys, n: Id, op: CommandType, key: string, value: string)
    requires n in s.e.nodes && n in s.reps && NextStep(s, s', ClientAppend(n, op, key, value, [], []))
    ensures s'.LeaderIn(n, s.e.nodes[n].term) && n in s'.reps
    ensures s'.reps[n].log == s.reps[n].log + [OwnEntry(s.reps[n], s.e.nodes[n].term, op, key, value, [], [])]
  {
  }

  /** Once the commit index has reached the write, and its node still leads in the term of the write, every read that
      begins then or later sees it. (For such a node this follows from either test that is made: a put is answered by
      comparing with the last index of the moment, a delete by comparing with the index of the write.) */
  lemma AcknowledgedWriteIsRead(run: seq<Sys>, w: nat, k: nat, i: nat, j: nat, n: Id, op: CommandType, key: string,
      value: string, r: nat, v: Option<string>)
    requires Run(run) && w < k <= i < j < |run| - 1
    requires n in run[w].e.nodes && n in run[w].reps
    requires NextStep(run[w], run[w + 1], ClientAppend(n, op, key, value, [], [])) && (op == PUT || op == DEL)
    requires run[k].LeaderIn(n, run[w].e.nodes[n].term) && n in run[k].reps
    requires run[k].reps[n].commit >= |run[k].reps[n].log| || run[k].reps[n].commit > |run[w].reps[n].log|
    requires r !in run[i].calls && r in run[i + 1].calls
    requires r in run[j].calls && !run[j].calls[r].phase.Done? && r in run[j + 1].calls && run[j + 1].calls[r].phase == Done(v)
    ensures var rd := run[j].calls[r];
      && rd.node in run[j].reps && run[j].reps[rd.node].applied <= |run[j].reps[rd.node].log|
      && Visible(OwnEntry(run[w].reps[n], run[w].e.nodes[n].term, op, key, value, [], []), run[j].reps[rd.node].log,
                 run[j].reps[rd.node].applied, v, rd.key)
  {
    hide Run, NextStep, Fold, Visible, Agree;
    var e := OwnEntry(run[w].reps[n], run[w].e.nodes[n].term, op, key, value, [], []);
    WriteFacts(run[w], run[w + 1], n, op, key, value);
    LeaderAppendOnly(run, w + 1, k, n, run[w].e.nodes[n].term);
    LinearizableRead(run, i, j, r, v);
    var rep := run[j].reps[run[j].calls[r].node];
    ReadSees(e, run[k].reps[n].log, run[k].reps[n].commit, rep.log, rep.applied, v, run[j].calls[r].key);
  }

  /** Both tests are made without looking at the leadership. Whichever is met, the answer is right exactly when the node's
      log still has, at the index of the write, an entry of the term it was written in. */
  lemma AcknowledgementIsRightIff(run: seq<Sys>, w: nat, k: nat, i: nat, j: nat, n: Id, op: CommandType, key: string,
      value: string, r: nat, v: Option<string>)
    requires Run(run) && w < k <= i < j < |run| - 1
    requires n in run[w].e.nodes && n in run[w].reps && n in run[k].reps
    requires NextStep(run[w], run[w + 1], ClientAppend(n, op, key, value, [], [])) && (op == PUT || op == DEL)
    requires run[k].reps[n].commit >= |run[k].reps[n].log| || run[k].reps[n].commit > |run[w].reps[n].log|
    requires r !in run[i].calls && r in run[i + 1].calls
    requires r in run[j].calls && !run[j].calls[r].phase.Done? && r in run[j + 1].calls && run[j + 1].calls[r].phase == Done(v)
    ensures var rd, at := run[j].calls[r], |run[w].reps[n].log|;
      && rd.node in run[j].reps && run[j].reps[rd.node].applied <= |run[j].reps[rd.node].log|
      && (Visible(OwnEntry(run[w].reps[n], run[w].e.nodes[n].term, op, key, value, [], []), run[j].reps[rd.node].log,
                  run[j].reps[rd.node].applied, v, rd.key)
          <==> at < |run[k].reps[n].log| && run[k].reps[n].log[at].term == run[w].e.nodes[n].term)
  {
    hide Run, NextStep, Fold;
    var e := OwnEntry(run[w].reps[n], run[w].e.nodes[n].term, op, key, value, [], []);
    WriteFacts(run[w], run[w + 1], n, op, key, value);
    LinearizableRead(run, i, j, r, v);
    var held, rep := run[k].reps[n], run[j].reps[run[j].calls[r].node];
    assert held.commit <= rep.applied && Agree(held.log, rep.log, held.commit);
    if |held.log| >= e.index {
      assert held.log[e.index - 1] == rep.log[e.index - 1];
      if held.log[e.index - 1].term == e.term {
        LogMatching(run, w + 1, k, n, n, e.index - 1);
        ReadSees(e, held.log, held.commit, rep.log, rep.applied, v, run[j].calls[r].key);
      }
    } else if rep.applied >= e.index && rep.log[e.index - 1] == e {
      LogMatching(run, w + 1, j, n, run[j].calls[r].node, e.index - 1);
      assert held.log <= run[w + 1].reps[n].log;
      NotLeftBehind(run, w + 1, k, n, run[w].e.nodes[n].term);
    }
  }

  /** The log of a former leader is never cut back to a shorter beginning of itself that is committed to its end. */
  lemma NotLeftBehind(run: seq<Sys>, i: nat, k: nat, n: Id, term: nat)
    requires Run(run) && i <= k < |run| && run[i].LeaderIn(n, term) && n in run[i].reps && n in run[k].reps
    requires run[k].reps[n].commit == |run[k].reps[n].log| < |run[i].reps[n].log|
    ensures !(run[k].reps[n].log <= run[i].reps[n].log)
  {
    hide Run, Chain, ReadProof.Inv, LogInv, EndsKnown, Trail;
    var hs := RunHasRecord(run);
    ChainEnds(run, hs, k);
    TrailBegins(run, hs, i, n, term);
    ChainTrail(run, hs, i, k, n, term, run[i].reps[n].log);
    PartsAt(run, hs, k);
    TrailNode(run[k], hs[k], n, term, run[i].reps[n].log);
    NeverBehind(run[k], hs[k], n, term, run[i].reps[n].log);
  }

  lemma TrailNode(s: Sys, h: History, n: Id, t: nat, past: seq<LogEntry>)
    requires Trail(s, h, n, t, past)
    ensures n in s.reps && n in s.e.nodes
  {
  }

  lemma PartsAt(run: seq<Sys>, hs: seq<History>, k: nat)
    requires Chain(run, hs) && k < |run|
    ensures |hs| == |run| && ReadProof.Inv(run[k], hs[k]) && LogInv(run[k], hs[k])
  {
    hide ReadProof.Inv, Linked, LogInv;
    Parts(run[k], hs[k]);
  }

  lemma StepAt(run: seq<Sys>, hs: seq<History>, k: nat) returns (step: Step)
    requires Chain(run, hs) && k < |run| - 1
    ensures |hs| == |run| && NextStep(run[k], run[k + 1], step) && hs[k + 1] == Record(run[k], hs[k], step)
  {
    hide ReadProof.Inv, NextStep, Record;
    assert Linked(run[k], hs[k], run[k + 1], hs[k + 1]);
    step :| NextStep(run[k], run[k + 1], step) && hs[k + 1] == Record(run[k], hs[k], step);
  }

  lemma {:induction false} ChainEnds(run: seq<Sys>, hs: seq<History>, k: nat)
    requires Run(run) && Chain(run, hs) && k < |run|
    ensures |hs| == |run| && EndsKnown(run[k], hs[k])
  {
    hide Chain, EndsKnown, LogInv, NextStep, Record, Init, Next;
    PartsAt(run, hs, k);
    if k == 0 {
      InitEnds(run[0], hs[0]);
    } else {
      ChainEnds(run, hs, k - 1);
      PartsAt(run, hs, k - 1);
      var step := StepAt(run, hs, k - 1);
      EndsStep(run[k - 1], hs[k - 1], run[k], step);
    }
  }

  lemma InitEnds(s: Sys, h: History)
    requires Init(s)
    ensures EndsKnown(s, h)
  {
  }

  lemma TrailBegins(run: seq<Sys>, hs: seq<History>, i: nat, n: Id, term: nat)
    requires Chain(run, hs) && i < |run| && run[i].LeaderIn(n, term) && n in run[i].reps
    ensures |hs| == |run| && Trail(run[i], hs[i], n, term, run[i].reps[n].log)
  {
    hide Chain, LogInv;
    PartsAt(run, hs, i);
    hide ReadProof.Inv;
    LeaderIsWinner(run[i], hs[i], n, term);
  }

  lemma {:induction false} ChainTrail(run: seq<Sys>, hs: seq<History>, i: nat, k: nat, n: Id, t: nat, past: seq<LogEntry>)
    requires Chain(run, hs) && i <= k < |run| && |hs| == |run| && Trail(run[i], hs[i], n, t, past)
    ensures Trail(run[k], hs[k], n, t, past)
    decreases k - i
  {
    hide Chain, Trail, LogInv, NextStep, Record;
    if i < k {
      ChainTrail(run, hs, i, k - 1, n, t, past);
      PartsAt(run, hs, k - 1);
      var step := StepAt(run, hs, k - 1);
      TrailStep(run[k - 1], hs[k - 1], run[k], step, n, t, past);
    }
  }
}
