/**
 * The durable tables. A table is the sequence of its rows in insertion order and
 * a row's id is its position: no code path deletes a row. The ephemeral panel
 * username of a session and the nonce of a grant are fresh values, so they are
 * identified with the number of the row that holds them. Columns that are written
 * but never read back by the code modelled here (audit timestamps, close reasons,
 * error texts) are not part of the rows.
 */
module Tables {
  import opened Prelude
  import opened Sums
  import opened Rows

  datatype Tier = Free | Premium

  datatype SessionStatus = Provisioning | Active | Limited | Expired | Revoked | Closed | Failed

  datatype Session = Session(
    user: nat, device: nat, node: nat, tier: Tier, status: SessionStatus,
    expiresAt: int, createdAt: int, extensions: nat, lastGrant: Option<nat>)
  {
    predicate Live() { status in {Provisioning, Active, Limited} }
  }

  datatype Purpose = Connect | Extend | Disconnect

  /** `WindowLapsed` is the column value 'expired', `Withdrawn` is 'revoked'. */
  datatype GrantStatus = Pending | Fulfilled | Consumed | WindowLapsed | Withdrawn

  datatype Grant = Grant(
    user: nat, device: nat, session: Option<nat>, purpose: Purpose,
    requiredAds: nat, verifiedAds: nat, minutes: nat, status: GrantStatus, expiresAt: int)

  /** A verified ad; the network column is always 'admob'. */
  datatype Reward = Reward(grant: nat, transaction: nat)

  /** The operation and its payload; the panel username is the session's. */
  datatype Work = ExtendUser(epoch: int) | RevokeUser | DeleteUser
  {
    /** Whether the operation removes the panel user. */
    predicate Reclaims() { !ExtendUser? }
  }

  /** The column values 'pending', 'in_flight', 'succeeded', 'failed' and 'dead'. */
  datatype OpStatus = Queued | InFlight | Succeeded | Retrying | Dead
  {
    predicate Open() { this in {Queued, InFlight, Retrying} }
  }

  datatype Op = Op(session: nat, work: Work, status: OpStatus, attempts: nat, nextAt: int)

  /** The column values 'active', 'draining' and 'disabled'. */
  datatype NodeStatus = Up | Draining | Disabled

  /** An inbound of a node; `reachable`: some endpoint of it is active. */
  datatype Inbound = Inbound(tag: nat, protocol: nat, tier: Tier, reachable: bool)

  datatype Node = Node(
    tier: Tier, status: NodeStatus, isActive: bool, errorStreak: nat,
    load: real, weight: int, inbounds: seq<Inbound>)

  datatype Audit = BanUser(user: nat, revoked: nat) | PanicFree(revoked: nat) | ForceMigrate(node: nat, evicted: nat)

  datatype DB = DB(
    sessions: seq<Session>, grants: seq<Grant>, rewards: seq<Reward>, ops: seq<Op>,
    nodes: seq<Node>, audits: seq<Audit>, banned: set<nat>)

  /** Deployment settings. */
  datatype Settings = Settings(
    tokenWindowMs: int, maxSessionMs: int, freeTtlMs: int, premiumTtlMs: int,
    connectAds: nat, connectMinutes: nat,
    batch: nat, leaseMs: int, maxAttempts: nat, reapBatch: nat)
  {
    predicate Valid() {
      && 0 <= freeTtlMs <= maxSessionMs && 0 <= premiumTtlMs
      && 1 <= connectAds && 1 <= batch && 1 <= maxAttempts && 1 <= reapBatch
    }
  }

  // ---- conditions and weights of rows --------------------------------------

  function LiveOf(user: nat): Session -> bool { (s: Session) => s.Live() && s.user == user }

  function LiveOn(node: nat): Session -> bool { (s: Session) => s.Live() && s.node == node }

  function LiveFree(): Session -> bool { (s: Session) => s.Live() && s.tier.Free? }

  function Overdue(now: int): Session -> bool { (s: Session) => s.Live() && s.expiresAt <= now }

  /** The number of live sessions a user holds. */
  function LiveCount(sessions: seq<Session>, user: nat): int { Sum(sessions, Indicator(LiveOf(user))) }

  function ReclaimOf(session: nat): Op -> bool { (o: Op) => o.session == session && o.work.Reclaims() }

  /** The number of operations queued, over all time, to remove a session's panel user. */
  function Reclaims(ops: seq<Op>, session: nat): int { Sum(ops, Indicator(ReclaimOf(session))) }

  function Funds(session: nat): Grant -> bool {
    (g: Grant) => g.status.Consumed? && g.session == Some(session) && 0 < g.minutes
  }

  function FundedMinutes(session: nat): Grant -> int {
    (g: Grant) => if g.status.Consumed? && g.session == Some(session) then g.minutes else 0
  }

  function RewardFor(grant: nat): Reward -> bool { (r: Reward) => r.grant == grant }

  // ---- closing sessions ----------------------------------------------------

  function Enqueued(ids: seq<nat>, work: Work, now: int): (r: seq<Op>)
    ensures |r| == |ids|
  {
    seq(|ids|, j requires 0 <= j < |ids| => Op(ids[j], work, Queued, 0, now))
  }

  /** Gives the listed sessions a closed status and queues one operation for each. */
  function CloseAll(db: DB, ids: seq<nat>, status: SessionStatus, work: Work, now: int): DB
  {
    db.(sessions := seq(|db.sessions|, i requires 0 <= i < |db.sessions| =>
                        if i in ids then db.sessions[i].(status := status) else db.sessions[i]),
        ops := db.ops + Enqueued(ids, work, now))
  }

  lemma {:induction false} EnqueuedCounts(ids: seq<nat>, work: Work, now: int, session: nat)
    requires Distinct(ids) && work.Reclaims()
    ensures Reclaims(Enqueued(ids, work, now), session) == if session in ids then 1 else 0
  {
    if ids != [] {
      var n := |ids| - 1;
      var init := ids[..n];
      assert ids == init + [ids[n]];
      assert Enqueued(ids, work, now)[..n] == Enqueued(init, work, now);
      EnqueuedCounts(init, work, now, session);
    }
  }

  // ---- how rows may change -------------------------------------------------

  /** What no statement of the backend ever changes in a session row. */
  predicate SessionEvolves(s: Session, s': Session)
  {
    && s'.user == s.user && s'.device == s.device && s'.node == s.node && s'.tier == s.tier
    && s'.createdAt == s.createdAt
    && s.expiresAt <= s'.expiresAt
    && (!s.Live() ==> !s'.Live() && (s'.status == s.status || s'.status.Failed?))
  }

  predicate OpEvolves(o: Op, o': Op)
  {
    && o'.session == o.session && o'.work == o.work
    && (o.work.Reclaims() && !o.status.Open() ==> o'.status == o.status)
  }

  predicate NodeEvolves(n: Node, n': Node)
  {
    n'.tier == n.tier
  }

  /** Rows are only ever added, and change only within the bounds above. */
  predicate Evolves(db: DB, db': DB)
  {
    && |db.sessions| <= |db'.sessions| && |db.ops| <= |db'.ops| && |db.nodes| == |db'.nodes|
    && (forall i | 0 <= i < |db.sessions| :: SessionEvolves(db.sessions[i], db'.sessions[i]))
    && (forall k | 0 <= k < |db.ops| :: OpEvolves(db.ops[k], db'.ops[k]))
    && (forall n | 0 <= n < |db.nodes| :: NodeEvolves(db.nodes[n], db'.nodes[n]))
  }
}
