/** The database as the services see it: tables that statements update in place. */
module Store {
  import opened Tables

  class Database {
    var sessions: seq<Session>
    var grants: seq<Grant>
    var rewards: seq<Reward>
    var ops: seq<Op>
    var nodes: seq<Node>
    var audits: seq<Audit>
    var banned: set<nat>

    function Rows(): DB
      reads this
    {
      DB(sessions, grants, rewards, ops, nodes, audits, banned)
    }

    constructor (db: DB)
      ensures Rows() == db
    {
      sessions, grants, rewards, ops := db.sessions, db.grants, db.rewards, db.ops;
      nodes, audits, banned := db.nodes, db.audits, db.banned;
    }

    /** What a transaction's rollback does: every table is again as it was at `begin`. */
    method Rollback(begin: DB)
      modifies this
      ensures Rows() == begin
    {
      sessions, grants, rewards, ops := begin.sessions, begin.grants, begin.rewards, begin.ops;
      nodes, audits, banned := begin.nodes, begin.audits, begin.banned;
    }

    /** The loop every closer runs over the rows its bulk update returned. */
    method EnqueueEach(ids: seq<nat>, work: Work, now: int)
      modifies this`ops
      ensures ops == old(ops) + Enqueued(ids, work, now)
    {
      for j := 0 to |ids|
        invariant ops == old(ops) + Enqueued(ids[..j], work, now)
      {
        ops := ops + [Op(ids[j], work, Queued, 0, now)];
        assert Enqueued(ids[..j + 1], work, now) == Enqueued(ids[..j], work, now) + [Op(ids[j], work, Queued, 0, now)];
      }
      assert ids[..|ids|] == ids;
    }

    /** `update vpn_sessions set status = ... where id in ids`. */
    method SetStatuses(ids: seq<nat>, status: SessionStatus)
      modifies this`sessions
      ensures Rows() == old(CloseAll(Rows(), ids, status, RevokeUser, 0)).(ops := old(ops))
    {
      sessions := seq(|sessions|, i requires 0 <= i < |sessions| reads this =>
                      if i in ids then sessions[i].(status := status) else sessions[i]);
    }
  }
}
