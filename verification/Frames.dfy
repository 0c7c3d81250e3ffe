/** What stays true of a log, a message or a point when the record grows. */
module Frames {
  import opened Types
  import Quorum
  import E = Election
  import opened Protocol
  import opened Invariant

  lemma LogOKStays(h: History, h': History, log: seq<LogEntry>)
    requires LogsGrow(h, h') && LogOK(h, log)
    ensures LogOK(h', log)
  {
  }

  lemma TermLogStays(h: History, h': History, t: nat)
    requires LogsGrow(h, h') && t in h.logs && TermLogOK(h, t) && h'.logs[t] == h.logs[t]
    ensures TermLogOK(h', t)
  {
    forall i: nat | i < |h'.logs[t].log|
      ensures EntryOK(h', t, i)
    {
      assert EntryOK(h, t, i);
    }
  }

  lemma PointStays(h: History, h': History, p: Point)
    requires LogsGrow(h, h') && IsPoint(h, p)
    ensures IsPoint(h', p)
  {
  }

  lemma ChosenStays(s: Sys, h: History, s': Sys, h': History, p: Point)
    requires Grows(s, h, s', h') && Chosen(s, h, p)
    ensures Chosen(s', h', p)
  {
    E.QuorumGrows(s.e, Accepters(s, h, p), s'.e, Accepters(s', h', p));
  }

  lemma BlockedStays(s: Sys, h: History, s': Sys, h': History, p: Point)
    requires Grows(s, h, s', h') && Blocked(s, h, p)
    ensures Blocked(s', h', p)
  {
    E.QuorumGrows(s.e, Refusers(s, h, p), s'.e, Refusers(s', h', p));
  }

  lemma KeptStays(s: Sys, h: History, s': Sys, h': History, log: seq<LogEntry>, p: Point)
    requires Grows(s, h, s', h') && IsPoint(h, p) && Kept(s, h, log, p)
    ensures IsPoint(h', p) && Kept(s', h', log, p)
  {
    if Blocked(s, h, p) {
      BlockedStays(s, h, s', h', p);
    }
  }

  lemma CommitOKStays(h: History, h': History, log: seq<LogEntry>, log': seq<LogEntry>, c: nat, term: nat, term': nat)
    requires LogsGrow(h, h') && h.points <= h'.points
    requires CommitOK(h, log, c, term) && term <= term' && Agree(log, log', c)
    ensures CommitOK(h', log', c, term')
  {
    if c > 0 {
      var p :| Covered(h, log, c, p) && p.term <= term;
      assert Covered(h', log', c, p);
    }
  }

  /** A chosen point cannot be blocked, so whoever keeps it has it. */
  lemma ChosenIsHad(s: Sys, h: History, log: seq<LogEntry>, p: Point)
    requires IsPoint(h, p) && Chosen(s, h, p) && Kept(s, h, log, p) && Quorum.AlwaysMeet(s.e.oldCfg, s.e.newCfg)
    ensures Has(h, log, p)
  {
    if Blocked(s, h, p) {
      var q := E.QuorumsMeet(s.e, Accepters(s, h, p), Refusers(s, h, p));
    }
  }
}
