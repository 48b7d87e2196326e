/** The sweep that closes sessions past their deadline, in batches. */
module Reaper {
  import opened Prelude
  import opened Rows
  import opened Tables
  import opened Ledger
  import opened Store

  function Deadline(): Session -> int { (s: Session) => s.expiresAt }

  /** One batch: the rows its inner query picked. */
  function SweepBatch(db: DB, picked: seq<nat>, now: int): DB
  {
    CloseAll(db, picked, Expired, DeleteUser, now)
  }

  /** Everything overdue expired in one sweep, `ids` listing it in deadline order. */
  ghost predicate SingleSweep(db: DB, db': DB, ids: seq<nat>, now: int)
  {
    && Lists(ids, db.sessions, Overdue(now))
    && (forall a, b | 0 <= a < b < |ids| :: db.sessions[ids[a]].expiresAt <= db.sessions[ids[b]].expiresAt)
    && db' == SweepBatch(db, ids, now)
  }

  /** What a single sweep amounts to, row by row, and nothing overdue is left. */
  lemma SweepExpiresExactlyOverdue(db: DB, db': DB, ids: seq<nat>, now: int)
    requires SingleSweep(db, db', ids, now)
    ensures db' == db.(sessions := db'.sessions, ops := db'.ops)
    ensures ClosesExactly(db, db', Overdue(now), Expired, DeleteUser, now)
    ensures forall i | 0 <= i < |db.sessions| :: db'.sessions[i] != db.sessions[i] <==>
              db.sessions[i].status in {Provisioning, Active, Limited} && db.sessions[i].expiresAt <= now
    ensures forall i | 0 <= i < |db'.sessions| :: !Overdue(now)(db'.sessions[i])
  {
    CloseAllClosesExactly(db, ids, Overdue(now), Expired, DeleteUser, now);
  }

  /** The rows swept so far: the earliest deadlines of those overdue at the beginning. */
  ghost predicate SweptSoFar(begin: DB, db: DB, ids: seq<nat>, now: int)
  {
    && TopRows(ids, begin.sessions, Overdue(now), Deadline(), Some(|ids|))
    && db == SweepBatch(begin, ids, now)
  }

  ghost function OverdueRows(sessions: seq<Session>, now: int): set<nat>
  {
    set i: nat | i < |sessions| && Overdue(now)(sessions[i])
  }

  /** What one batch leaves for the next: rows it did not pick, unchanged. */
  lemma BatchLeaves(begin: DB, ids: seq<nat>, now: int)
    ensures var db := SweepBatch(begin, ids, now);
            forall i | 0 <= i < |begin.sessions| ::
              Overdue(now)(db.sessions[i]) <==> Overdue(now)(begin.sessions[i]) && i !in ids
  {}

  lemma BatchesCompose(begin: DB, ids: seq<nat>, picked: seq<nat>, now: int)
    ensures SweepBatch(SweepBatch(begin, ids, now), picked, now) == SweepBatch(begin, ids + picked, now)
  {}

  /** The next earliest deadlines after the earliest are, together, the earliest. */
  lemma TopsCompose(begin: DB, ids: seq<nat>, picked: seq<nat>, now: int, limit: nat)
    requires TopRows(ids, begin.sessions, Overdue(now), Deadline(), Some(|ids|))
    requires TopRows(picked, SweepBatch(begin, ids, now).sessions, Overdue(now), Deadline(), Some(limit))
    ensures TopRows(ids + picked, begin.sessions, Overdue(now), Deadline(), Some(|ids + picked|))
    ensures |picked| < limit ==> Lists(ids + picked, begin.sessions, Overdue(now))
  {
    BatchLeaves(begin, ids, now);
    var all, swept := ids + picked, SweepBatch(begin, ids, now).sessions;
    forall a | 0 <= a < |picked|
      ensures picked[a] < |begin.sessions| && picked[a] !in ids && Overdue(now)(begin.sessions[picked[a]])
      ensures swept[picked[a]] == begin.sessions[picked[a]]
    {}
    forall i: nat | i < |begin.sessions| && Overdue(now)(begin.sessions[i]) && i !in all
      ensures i !in ids && i !in picked && swept[i] == begin.sessions[i]
    {}
  }

  /** One more batch continues the sweep; a short one completes it. */
  lemma BatchExtendsSweep(begin: DB, db: DB, ids: seq<nat>, picked: seq<nat>, now: int, limit: nat)
    requires SweptSoFar(begin, db, ids, now)
    requires TopRows(picked, db.sessions, Overdue(now), Deadline(), Some(limit))
    ensures var db' := SweepBatch(db, picked, now);
            && SweptSoFar(begin, db', ids + picked, now)
            && (|picked| < limit ==> SingleSweep(begin, db', ids + picked, now))
            && (picked != [] ==> OverdueRows(db'.sessions, now) < OverdueRows(db.sessions, now))
  {
    var db' := SweepBatch(db, picked, now);
    BatchesCompose(begin, ids, picked, now);
    TopsCompose(begin, ids, picked, now, limit);
    BatchLeaves(db, picked, now);
    if picked != [] {
      assert picked[0] in OverdueRows(db.sessions, now) && picked[0] !in OverdueRows(db'.sessions, now);
    }
  }

  class ReaperWorker {
    const reapBatch: nat
    const db: Database
    var running: bool
    var shuttingDown: bool

    constructor (reapBatch: nat, db: Database)
      ensures this.reapBatch == reapBatch && this.db == db && !running && !shuttingDown
    {
      this.reapBatch, this.db := reapBatch, db;
      running, shuttingDown := false, false;
    }

    method SweepOnce(now: int) returns (reaped: nat, ghost picked: seq<nat>)
      modifies db
      ensures TopRows(picked, old(db.sessions), Overdue(now), Deadline(), Some(reapBatch)) && reaped == |picked|
      ensures db.Rows() == SweepBatch(old(db.Rows()), picked, now)
    {
      var due := SelectTop(db.sessions, Overdue(now), Deadline(), Some(reapBatch));
      picked := due;
      db.SetStatuses(due, Expired);
      db.EnqueueEach(due, DeleteUser, now);
      reaped := |due|;
    }

    /** The batch loop, at a fixed clock with no row locked elsewhere. */
    method Drain(now: int) returns (total: nat, ghost ids: seq<nat>)
      requires 1 <= reapBatch
      modifies db
      ensures SingleSweep(old(db.Rows()), db.Rows(), ids, now) && total == |ids|
    {
      total, ids := 0, [];
      ghost var begin := db.Rows();
      while true
        invariant SweptSoFar(begin, db.Rows(), ids, now) && total == |ids|
        decreases OverdueRows(db.sessions, now)
      {
        ghost var before := db.Rows();
        var n: nat;
        ghost var picked: seq<nat>;
        n, picked := SweepOnce(now);
        BatchExtendsSweep(begin, before, ids, picked, now, reapBatch);
        total, ids := total + n, ids + picked;
        if n < reapBatch { break; }
      }
    }

    method Reap(now: int) returns (total: nat)
      requires 1 <= reapBatch
      modifies this`running, db
      ensures running == old(running)
      ensures old(running || shuttingDown) ==> total == 0 && db.Rows() == old(db.Rows())
      ensures !old(running || shuttingDown) ==>
                exists ids :: SingleSweep(old(db.Rows()), db.Rows(), ids, now) && total == |ids|
    {
      if running || shuttingDown { return 0; }
      running := true;
      ghost var ids;
      total, ids := Drain(now);
      running := false;
    }
  }
}
