/**
 * The invariant that ties sessions, nodes and the panel outbox together, and the
 * lemmas that each elementary change of these tables keeps it.
 */
module Ledger {
  import opened Sums
  import opened Rows
  import opened Tables

  /** An extend never promises the panel more than the session has; a removal only names a closed session. */
  ghost predicate OpOk(db: DB, op: Op)
  {
    && op.session < |db.sessions|
    && (op.work.ExtendUser? ==> 1 <= op.work.epoch && op.work.epoch * 1000 <= db.sessions[op.session].expiresAt)
    && (op.work.Reclaims() ==> !db.sessions[op.session].Live())
  }

  ghost predicate SessionOk(p: Settings, db: DB, i: nat)
    requires i < |db.sessions|
  {
    var s := db.sessions[i];
    && !s.status.Limited? && !s.status.Closed?
    && 1000 <= s.expiresAt
    && (s.tier.Free? ==> s.expiresAt <= s.createdAt + p.maxSessionMs)
    && s.node < |db.nodes|
    && (s.tier.Free? ==> db.nodes[s.node].tier.Free?)
    && (s.status.Expired? || s.status.Revoked? ==> Reclaims(db.ops, i) == 1)
  }

  /** The partial unique index on device_id over live rows. */
  ghost predicate OneLivePerDevice(sessions: seq<Session>)
  {
    forall i, j | 0 <= i < j < |sessions| && sessions[i].Live() && sessions[j].Live() ::
      sessions[i].device != sessions[j].device
  }

  ghost predicate LedgerOk(p: Settings, db: DB)
  {
    && (forall k | 0 <= k < |db.ops| :: OpOk(db, db.ops[k]))
    && (forall i | 0 <= i < |db.sessions| :: SessionOk(p, db, i))
    && OneLivePerDevice(db.sessions)
  }

  /** No removal was ever queued for a live session. */
  lemma LiveHasNoReclaim(p: Settings, db: DB, i: nat)
    requires LedgerOk(p, db) && i < |db.sessions| && db.sessions[i].Live()
    ensures Reclaims(db.ops, i) == 0
  {
    forall k | 0 <= k < |db.ops| ensures !ReclaimOf(i)(db.ops[k]) {
      assert OpOk(db, db.ops[k]);
    }
    SumZero(db.ops, Indicator(ReclaimOf(i)));
  }

  // ---- closing --------------------------------------------------------------

  ghost predicate Closable(db: DB, ids: seq<nat>)
  {
    Distinct(ids) && forall i | i in ids :: i < |db.sessions| && db.sessions[i].Live()
  }

  lemma CloseAllEvolves(db: DB, ids: seq<nat>, status: SessionStatus, work: Work, now: int)
    requires Closable(db, ids) && status in {Expired, Revoked}
    ensures Evolves(db, CloseAll(db, ids, status, work, now))
  {}

  lemma CloseAllKeepsLedger(p: Settings, db: DB, ids: seq<nat>, status: SessionStatus, work: Work, now: int)
    requires LedgerOk(p, db) && Closable(db, ids) && status in {Expired, Revoked} && work.Reclaims()
    ensures LedgerOk(p, CloseAll(db, ids, status, work, now))
  {
    var db' := CloseAll(db, ids, status, work, now);
    forall k | 0 <= k < |db'.ops| ensures OpOk(db', db'.ops[k]) {
      if k < |db.ops| {
        assert db'.ops[k] == db.ops[k] && OpOk(db, db.ops[k]);
      } else {
        var i := ids[k - |db.ops|];
        assert db'.ops[k] == Op(i, work, Queued, 0, now) && i in ids;
      }
    }
    forall i | 0 <= i < |db'.sessions| ensures SessionOk(p, db', i) {
      assert SessionOk(p, db, i);
      CloseAllCounts(p, db, ids, status, work, now, i);
    }
  }

  /** Closing gives each listed session its one removal and no other session any. */
  lemma CloseAllCounts(p: Settings, db: DB, ids: seq<nat>, status: SessionStatus, work: Work, now: int, i: nat)
    requires LedgerOk(p, db) && Closable(db, ids) && work.Reclaims() && i < |db.sessions|
    ensures Reclaims(CloseAll(db, ids, status, work, now).ops, i)
         == if i in ids then 1 else Reclaims(db.ops, i)
  {
    SumConcat(db.ops, Enqueued(ids, work, now), Indicator(ReclaimOf(i)));
    EnqueuedCounts(ids, work, now, i);
    if i in ids {
      LiveHasNoReclaim(p, db, i);
    }
  }

  /**
   * Exactly the sessions satisfying f get the closed status, and one operation of this kind each;
   * nothing else of sessions and queue is different.
   */
  ghost predicate ClosesExactly(db: DB, db': DB, f: Session -> bool, status: SessionStatus, work: Work, now: int)
  {
    && |db'.sessions| == |db.sessions| && db.ops <= db'.ops
    && (forall i | 0 <= i < |db.sessions| ::
          db'.sessions[i] == if f(db.sessions[i]) then db.sessions[i].(status := status) else db.sessions[i])
    && |db'.ops| == |db.ops| + Sum(db.sessions, Indicator(f))
    && (forall k | |db.ops| <= k < |db'.ops| :: db'.ops[k] == Op(db'.ops[k].session, work, Queued, 0, now))
    && forall i | 0 <= i < |db.sessions| ::
         Reclaims(db'.ops, i) == Reclaims(db.ops, i) + if f(db.sessions[i]) then 1 else 0
  }

  lemma CloseAllClosesExactly(db: DB, ids: seq<nat>, f: Session -> bool, status: SessionStatus, work: Work, now: int)
    requires Lists(ids, db.sessions, f) && work.Reclaims()
    ensures ClosesExactly(db, CloseAll(db, ids, status, work, now), f, status, work, now)
  {
    var db' := CloseAll(db, ids, status, work, now);
    ListingCounts(ids, db.sessions, f);
    forall i | 0 <= i < |db.sessions|
      ensures Reclaims(db'.ops, i) == Reclaims(db.ops, i) + if f(db.sessions[i]) then 1 else 0
    {
      SumConcat(db.ops, Enqueued(ids, work, now), Indicator(ReclaimOf(i)));
      EnqueuedCounts(ids, work, now, i);
    }
  }

  // ---- operation bookkeeping -------------------------------------------------

  /** Only status, attempts and due times of operations differ. */
  ghost predicate OpsTouched(db: DB, db': DB)
  {
    && db' == db.(ops := db'.ops)
    && |db'.ops| == |db.ops|
    && forall k | 0 <= k < |db.ops| :: OpEvolves(db.ops[k], db'.ops[k])
  }

  lemma OpsTouchedKeepsLedger(p: Settings, db: DB, db': DB)
    requires LedgerOk(p, db) && OpsTouched(db, db')
    ensures LedgerOk(p, db') && Evolves(db, db')
  {
    forall k | 0 <= k < |db'.ops| ensures OpOk(db', db'.ops[k]) {
      assert OpOk(db, db.ops[k]);
    }
    forall i | 0 <= i < |db'.sessions| ensures SessionOk(p, db', i) {
      assert SessionOk(p, db, i);
      SumSame(db.ops, db'.ops, Indicator(ReclaimOf(i)));
    }
  }

  // ---- one more session --------------------------------------------------------

  lemma InsertKeepsLedger(p: Settings, db: DB, s: Session)
    requires LedgerOk(p, db)
    requires s.status in {Provisioning, Active} && 1000 <= s.expiresAt
    requires s.tier.Free? ==> s.expiresAt <= s.createdAt + p.maxSessionMs
    requires s.node < |db.nodes| && (s.tier.Free? ==> db.nodes[s.node].tier.Free?)
    requires forall i | 0 <= i < |db.sessions| && db.sessions[i].Live() :: db.sessions[i].device != s.device
    ensures LedgerOk(p, db.(sessions := db.sessions + [s]))
    ensures Evolves(db, db.(sessions := db.sessions + [s]))
  {
    var db' := db.(sessions := db.sessions + [s]);
    forall k | 0 <= k < |db'.ops| ensures OpOk(db', db'.ops[k]) {
      assert OpOk(db, db.ops[k]);
    }
    forall i | 0 <= i < |db'.sessions| ensures SessionOk(p, db', i) {
      if i < |db.sessions| {
        assert SessionOk(p, db, i);
      }
    }
  }

  // ---- a longer session ---------------------------------------------------------

  lemma LengthenKeepsLedger(p: Settings, db: DB, i: nat, s': Session, op: Op)
    requires LedgerOk(p, db) && i < |db.sessions| && db.sessions[i].Live()
    requires SessionEvolves(db.sessions[i], s') && s'.status in {Provisioning, Active}
    requires s'.tier.Free? ==> s'.expiresAt <= s'.createdAt + p.maxSessionMs
    requires op.session == i && op.work == ExtendUser(s'.expiresAt / 1000)
    ensures LedgerOk(p, db.(sessions := db.sessions[i := s'], ops := db.ops + [op]))
    ensures Evolves(db, db.(sessions := db.sessions[i := s'], ops := db.ops + [op]))
  {
    var db' := db.(sessions := db.sessions[i := s'], ops := db.ops + [op]);
    assert SessionOk(p, db, i);
    forall k | 0 <= k < |db'.ops| ensures OpOk(db', db'.ops[k]) {
      if k < |db.ops| {
        assert OpOk(db, db.ops[k]);
      }
    }
    forall j | 0 <= j < |db'.sessions| ensures SessionOk(p, db', j) {
      assert SessionOk(p, db, j);
      SumPush(db.ops, op, Indicator(ReclaimOf(j)));
    }
  }

  // ---- a failed provisioning ------------------------------------------------------

  lemma FailKeepsLedger(p: Settings, db: DB, i: nat)
    requires LedgerOk(p, db) && i < |db.sessions|
    ensures var db' := db.(sessions := db.sessions[i := db.sessions[i].(status := Failed)]);
            LedgerOk(p, db') && Evolves(db, db')
  {
    var db' := db.(sessions := db.sessions[i := db.sessions[i].(status := Failed)]);
    forall k | 0 <= k < |db'.ops| ensures OpOk(db', db'.ops[k]) {
      assert OpOk(db, db.ops[k]);
    }
    forall j | 0 <= j < |db'.sessions| ensures SessionOk(p, db', j) {
      assert SessionOk(p, db, j);
    }
  }

  lemma EnqueueDeleteKeepsLedger(p: Settings, db: DB, i: nat, now: int)
    requires LedgerOk(p, db) && i < |db.sessions| && db.sessions[i].status.Failed?
    ensures var db' := db.(ops := db.ops + Enqueued([i], DeleteUser, now));
            LedgerOk(p, db') && Evolves(db, db')
  {
    var op := Op(i, DeleteUser, Queued, 0, now);
    assert Enqueued([i], DeleteUser, now) == [op];
    var db' := db.(ops := db.ops + [op]);
    forall k | 0 <= k < |db'.ops| ensures OpOk(db', db'.ops[k]) {
      if k < |db.ops| {
        assert OpOk(db, db.ops[k]);
      }
    }
    forall j | 0 <= j < |db'.sessions| ensures SessionOk(p, db', j) {
      assert SessionOk(p, db, j);
      SumPush(db.ops, op, Indicator(ReclaimOf(j)));
    }
  }

  // ---- everything else ---------------------------------------------------------------

  lemma OtherTablesKeepLedger(p: Settings, db: DB, db': DB)
    requires LedgerOk(p, db)
    requires db'.sessions == db.sessions && db'.ops == db.ops && |db'.nodes| == |db.nodes|
    requires forall n | 0 <= n < |db.nodes| :: NodeEvolves(db.nodes[n], db'.nodes[n])
    ensures LedgerOk(p, db') && Evolves(db, db')
  {
    forall k | 0 <= k < |db'.ops| ensures OpOk(db', db'.ops[k]) {
      assert OpOk(db, db.ops[k]);
    }
    forall i | 0 <= i < |db'.sessions| ensures SessionOk(p, db', i) {
      assert SessionOk(p, db, i);
    }
  }

  // ---- composing changes -----------------------------------------------------------

  lemma EvolvesTransitive(a: DB, b: DB, c: DB)
    requires Evolves(a, b) && Evolves(b, c)
    ensures Evolves(a, c)
  {}

  /** A user's live sessions become more only by an insert. */
  lemma LiveCountOnlyShrinks(db: DB, db': DB, user: nat)
    requires Evolves(db, db') && |db'.sessions| == |db.sessions|
    ensures LiveCount(db'.sessions, user) <= LiveCount(db.sessions, user)
  {
    forall i | 0 <= i < |db.sessions|
      ensures Indicator(LiveOf(user))(db'.sessions[i]) <= Indicator(LiveOf(user))(db.sessions[i])
    {
      assert SessionEvolves(db.sessions[i], db'.sessions[i]);
    }
    SumMonotone(db'.sessions, db.sessions, Indicator(LiveOf(user)), Indicator(LiveOf(user)));
  }
}
