/**
 Replaying a committed sequence over a database that may already hold later effects. A restart
 resets `lastApplied_` but not the database, so between a restart and catching up the database
 is ahead on some keys: exactly those the remaining entries write.
 */
module Replay {
  import opened Types
  import opened Protocol

  predicate Writes(e: LogEntry, key: string) {
    (e.op == PUT || e.op == DEL) && e.key == key
  }

  /** Some entry from position k on writes the key. */
  predicate WrittenFrom(log: seq<LogEntry>, k: nat, key: string) {
    exists i | 0 <= i < |log| :: k <= i && Writes(log[i], key)
  }

  /** The database went through all of `log` and has been replayed up to k: it is right on every
      key that the rest does not write again. */
  ghost predicate Replays(store: map<string, string>, log: seq<LogEntry>, k: nat) {
    k <= |log| && forall key :: !WrittenFrom(log, k, key) ==> Get(store, key) == Get(Fold(log[..k]), key)
  }

  /** Once the replay has caught up, the database is the fold of the log. */
  lemma CaughtUp(store: map<string, string>, log: seq<LogEntry>)
    requires Replays(store, log, |log|)
    ensures store == Fold(log)
  {
    assert log[..|log|] == log;
    forall key
      ensures key in store <==> key in Fold(log)
      ensures key in store ==> store[key] == Fold(log)[key]
    {
      assert !WrittenFrom(log, |log|, key);
    }
  }

  lemma FoldSnoc(log: seq<LogEntry>, k: nat)
    requires k < |log|
    ensures Fold(log[..k + 1]) == ApplyToStore(Fold(log[..k]), log[k])
  {
    assert log[..k + 1][..k] == log[..k];
  }

  /** Applying the next entry keeps the relation, whether it is new or being replayed. */
  lemma ApplyKeepsReplay(store: map<string, string>, log: seq<LogEntry>, k: nat)
    requires k < |log| && Replays(store, log, k)
    ensures Replays(ApplyToStore(store, log[k]), log, k + 1)
  {
    FoldSnoc(log, k);
    forall key | !WrittenFrom(log, k + 1, key)
      ensures Get(ApplyToStore(store, log[k]), key) == Get(Fold(log[..k + 1]), key)
    {
      if !Writes(log[k], key) {
        assert !WrittenFrom(log, k, key);
      }
    }
  }

  /** Applying an entry beyond everything seen so far extends the sequence. */
  lemma ApplyNew(store: map<string, string>, log: seq<LogEntry>, e: LogEntry)
    requires Replays(store, log, |log|)
    ensures Replays(ApplyToStore(store, e), log + [e], |log| + 1)
  {
    CaughtUp(store, log);
    assert (log + [e])[..|log| + 1] == log + [e] && (log + [e])[..|log|] == log;
    FoldSnoc(log + [e], |log|);
  }

  lemma {:induction false} UnwrittenIsAbsent(log: seq<LogEntry>, key: string)
    requires !WrittenFrom(log, 0, key)
    ensures key !in Fold(log)
    decreases |log|
  {
    if log != [] {
      var init := log[..|log| - 1];
      assert forall i | 0 <= i < |init| :: init[i] == log[i] && !Writes(log[i], key);
      UnwrittenIsAbsent(init, key);
      assert !Writes(log[|log| - 1], key);
    }
  }

  /** A key holds what the last entry that writes it says. */
  lemma {:induction false} LastWriteIsRead(log: seq<LogEntry>, p: nat, key: string)
    requires p < |log| && Writes(log[p], key) && !WrittenFrom(log, p + 1, key)
    ensures Get(Fold(log), key) == if log[p].op == PUT then Some(log[p].value) else None
    decreases |log|
  {
    if p < |log| - 1 {
      var init := log[..|log| - 1];
      assert forall i | 0 <= i < |init| :: init[i] == log[i] && (p + 1 <= i ==> !Writes(log[i], key));
      LastWriteIsRead(init, p, key);
      assert !Writes(log[|log| - 1], key);
    }
  }

  /** Going back to an earlier point (a restart goes back to the snapshot boundary) keeps it too. */
  lemma {:induction false} RewindKeepsReplay(store: map<string, string>, log: seq<LogEntry>, k: nat, j: nat)
    requires Replays(store, log, k) && j <= k
    ensures Replays(store, log, j)
    decreases k
  {
    if j < k {
      FoldSnoc(log, k - 1);
      forall key | !WrittenFrom(log, k - 1, key)
        ensures Get(store, key) == Get(Fold(log[..k - 1]), key)
      {
        assert !WrittenFrom(log, k, key);
        assert !Writes(log[k - 1], key);
      }
      RewindKeepsReplay(store, log, k - 1, j);
    }
  }
}
