/** The administrative closers of sessions, the drain flag of nodes, and the node sync that must not touch it. */
module Admin {
  import opened Prelude
  import opened Sums
  import opened Rows
  import opened Tables
  import opened Ledger
  import opened Funding
  import opened Store
  import opened Subscriptions
  import Connection

  datatype AdminError = UserNotFound | SessionNotFound | NodeNotFound

  function Kick(db: DB, i: nat, now: int): Result<DB, AdminError>
  {
    if |db.sessions| <= i then Err(SessionNotFound)
    else if !db.sessions[i].Live() then Ok(db)
    else Ok(CloseAll(db, [i], Revoked, RevokeUser, now))
  }

  /** `ids`: the rows the bulk update returned. */
  function Ban(db: DB, user: nat, ids: seq<nat>, now: int): DB
  {
    CloseAll(db, ids, Revoked, RevokeUser, now).(banned := db.banned + {user},
                                                 audits := db.audits + [BanUser(user, |ids|)])
  }

  function Unban(db: DB, user: nat): DB { db.(banned := db.banned - {user}) }

  function Panic(db: DB, ids: seq<nat>, now: int): DB
  {
    CloseAll(db, ids, Revoked, RevokeUser, now).(audits := db.audits + [PanicFree(|ids|)])
  }

  function SetNodeActive(db: DB, n: nat, isActive: bool): Result<DB, AdminError>
  {
    if |db.nodes| <= n then Err(NodeNotFound)
    else Ok(db.(nodes := db.nodes[n := db.nodes[n].(isActive := isActive)]))
  }

  function Migrate(db: DB, n: nat, ids: seq<nat>, now: int): Result<DB, AdminError>
  {
    if |db.nodes| <= n then Err(NodeNotFound)
    else
      var drained := db.(nodes := db.nodes[n := db.nodes[n].(isActive := false)]);
      Ok(CloseAll(drained, ids, Revoked, RevokeUser, now).(audits := db.audits + [ForceMigrate(n, |ids|)]))
  }

  /** One node of a sync pass; a panel node without a row is only logged. */
  function SyncNode(db: DB, n: nat, online: bool): DB
  {
    if |db.nodes| <= n then db
    else
      var node := db.nodes[n];
      db.(nodes := db.nodes[n := node.(status := if online then Up else Disabled,
                                       errorStreak := if online then 0 else node.errorStreak)])
  }

  // ---- what they keep ---------------------------------------------------------------------

  lemma CloseListedKeeps(p: Settings, db: DB, ids: seq<nat>, status: SessionStatus, work: Work, now: int)
    requires LedgerOk(p, db) && FundingOk(db)
    requires Closable(db, ids) && status in {Expired, Revoked} && work.Reclaims()
    ensures var db' := CloseAll(db, ids, status, work, now);
            LedgerOk(p, db') && FundingOk(db') && Evolves(db, db')
  {
    CloseAllKeepsLedger(p, db, ids, status, work, now);
    CloseAllEvolves(db, ids, status, work, now);
    NeutralKeepsFunding(db, CloseAll(db, ids, status, work, now));
  }

  /** Tables that neither invariant mentions, and drain or health flags of nodes, may change freely. */
  lemma FlagsKeep(p: Settings, db: DB, db': DB)
    requires LedgerOk(p, db) && FundingOk(db)
    requires db' == db.(nodes := db'.nodes, audits := db'.audits, banned := db'.banned)
    requires |db'.nodes| == |db.nodes| && forall n | 0 <= n < |db.nodes| :: NodeEvolves(db.nodes[n], db'.nodes[n])
    ensures LedgerOk(p, db') && FundingOk(db') && Evolves(db, db')
  {
    OtherTablesKeepLedger(p, db, db');
    NeutralKeepsFunding(db, db');
  }

  lemma KickKeeps(p: Settings, db: DB, i: nat, now: int)
    requires LedgerOk(p, db) && FundingOk(db) && Kick(db, i, now).Ok?
    ensures var db' := Kick(db, i, now).value; LedgerOk(p, db') && FundingOk(db') && Evolves(db, db')
  {
    if db.sessions[i].Live() {
      CloseListedKeeps(p, db, [i], Revoked, RevokeUser, now);
    } else {
      FlagsKeep(p, db, db);
    }
  }

  lemma BanKeeps(p: Settings, db: DB, user: nat, ids: seq<nat>, now: int)
    requires LedgerOk(p, db) && FundingOk(db) && Lists(ids, db.sessions, LiveOf(user))
    ensures var db' := Ban(db, user, ids, now); LedgerOk(p, db') && FundingOk(db') && Evolves(db, db')
  {
    var closed := CloseAll(db, ids, Revoked, RevokeUser, now);
    CloseListedKeeps(p, db, ids, Revoked, RevokeUser, now);
    FlagsKeep(p, closed, Ban(db, user, ids, now));
    EvolvesTransitive(db, closed, Ban(db, user, ids, now));
  }

  lemma PanicKeeps(p: Settings, db: DB, ids: seq<nat>, now: int)
    requires LedgerOk(p, db) && FundingOk(db) && Lists(ids, db.sessions, LiveFree())
    ensures var db' := Panic(db, ids, now); LedgerOk(p, db') && FundingOk(db') && Evolves(db, db')
  {
    var closed := CloseAll(db, ids, Revoked, RevokeUser, now);
    CloseListedKeeps(p, db, ids, Revoked, RevokeUser, now);
    FlagsKeep(p, closed, Panic(db, ids, now));
    EvolvesTransitive(db, closed, Panic(db, ids, now));
  }

  lemma MigrateKeeps(p: Settings, db: DB, n: nat, ids: seq<nat>, now: int)
    requires LedgerOk(p, db) && FundingOk(db) && Lists(ids, db.sessions, LiveOn(n)) && n < |db.nodes|
    ensures var db' := Migrate(db, n, ids, now).value; LedgerOk(p, db') && FundingOk(db') && Evolves(db, db')
  {
    var drained := db.(nodes := db.nodes[n := db.nodes[n].(isActive := false)]);
    var closed, db' := CloseAll(drained, ids, Revoked, RevokeUser, now), Migrate(db, n, ids, now).value;
    FlagsKeep(p, db, drained);
    CloseListedKeeps(p, drained, ids, Revoked, RevokeUser, now);
    FlagsKeep(p, closed, db');
    EvolvesTransitive(db, drained, closed);
    EvolvesTransitive(db, closed, db');
  }

  // ---- what they achieve ------------------------------------------------------------------

  /** A kick revokes a live session and queues its one removal; of a closed one it changes nothing. */
  lemma KickRevokesOne(p: Settings, db: DB, i: nat, now: int)
    requires LedgerOk(p, db)
    ensures Kick(db, i, now).Ok? <==> i < |db.sessions|
    ensures i < |db.sessions| ==>
              var db' := Kick(db, i, now).value;
              && db' == db.(sessions := db.sessions[i := db'.sessions[i]], ops := db'.ops)
              && !db'.sessions[i].Live()
              && (if db.sessions[i].Live() then
                    db'.sessions[i] == db.sessions[i].(status := Revoked)
                    && db'.ops == db.ops + [Op(i, RevokeUser, Queued, 0, now)] && Reclaims(db'.ops, i) == 1
                  else db' == db)
  {
    if i < |db.sessions| && db.sessions[i].Live() {
      var db' := Kick(db, i, now).value;
      CloseAllCounts(p, db, [i], Revoked, RevokeUser, now, i);
      assert db'.sessions == db.sessions[i := db'.sessions[i]];
      assert Enqueued([i], RevokeUser, now) == [Op(i, RevokeUser, Queued, 0, now)];
    }
  }

  lemma NoneLiveOnceClosed(db: DB, db': DB, user: nat, now: int)
    requires ClosesExactly(db, db', LiveOf(user), Revoked, RevokeUser, now)
    ensures LiveCount(db'.sessions, user) == 0
    ensures forall i | 0 <= i < |db.sessions| :: db'.sessions[i] != db.sessions[i] <==>
              db.sessions[i].user == user && db.sessions[i].status in {Provisioning, Active, Limited}
  {
    SumZero(db'.sessions, Indicator(LiveOf(user)));
  }

  /**
   * The moment a ban commits the user has no live session: exactly those they had are revoked, with
   * one removal each, and the audit counts them.
   */
  lemma BanLeavesNoLiveSession(db: DB, user: nat, ids: seq<nat>, now: int)
    requires Lists(ids, db.sessions, LiveOf(user))
    ensures var db' := Ban(db, user, ids, now);
            && db' == db.(sessions := db'.sessions, ops := db'.ops, audits := db'.audits, banned := db'.banned)
            && db'.banned == db.banned + {user} && LiveCount(db'.sessions, user) == 0
            && ClosesExactly(db, db', LiveOf(user), Revoked, RevokeUser, now)
            && (forall i | 0 <= i < |db.sessions| :: db'.sessions[i] != db.sessions[i] <==>
                  db.sessions[i].user == user && db.sessions[i].status in {Provisioning, Active, Limited})
            && db'.audits == db.audits + [BanUser(user, LiveCount(db.sessions, user))]
  {
    var db' := Ban(db, user, ids, now);
    ListingCounts(ids, db.sessions, LiveOf(user));
    CloseAllClosesExactly(db, ids, LiveOf(user), Revoked, RevokeUser, now);
    NoneLiveOnceClosed(db, db', user, now);
  }

  /** Lifting a ban clears that user's flag and changes nothing else. */
  lemma UnbanClearsOneFlag(db: DB, user: nat)
    ensures Unban(db, user) == db.(banned := Unban(db, user).banned)
    ensures forall u :: u in Unban(db, user).banned <==> u in db.banned && u != user
  {}

  /** A panic closes every live free session and no premium one. */
  lemma PanicClosesExactlyFree(db: DB, ids: seq<nat>, now: int)
    requires Lists(ids, db.sessions, LiveFree())
    ensures var db' := Panic(db, ids, now);
            && db' == db.(sessions := db'.sessions, ops := db'.ops, audits := db'.audits)
            && ClosesExactly(db, db', LiveFree(), Revoked, RevokeUser, now)
            && (forall i | 0 <= i < |db.sessions| :: db'.sessions[i] != db.sessions[i] <==>
                  db.sessions[i].tier == Free && db.sessions[i].status in {Provisioning, Active, Limited})
            && db'.audits == db.audits + [PanicFree(Sum(db.sessions, Indicator(LiveFree())))]
  {
    ListingCounts(ids, db.sessions, LiveFree());
    CloseAllClosesExactly(db, ids, LiveFree(), Revoked, RevokeUser, now);
  }

  /** A drained node without live sessions. */
  ghost predicate Evacuated(db: DB, n: nat)
  {
    && n < |db.nodes| && !db.nodes[n].isActive
    && forall i | 0 <= i < |db.sessions| && db.sessions[i].Live() :: db.sessions[i].node != n
  }

  /**
   * An evacuation leaves the node drained and empty: exactly its live sessions are revoked, with one
   * removal each, which its audit row counts; an unknown node is refused.
   */
  lemma MigrateEvacuates(db: DB, n: nat, ids: seq<nat>, now: int)
    requires Lists(ids, db.sessions, LiveOn(n))
    ensures Migrate(db, n, ids, now).Ok? <==> n < |db.nodes|
    ensures n < |db.nodes| ==>
              var db' := Migrate(db, n, ids, now).value;
              && Evacuated(db', n)
              && db' == db.(sessions := db'.sessions, ops := db'.ops, audits := db'.audits, nodes := db'.nodes)
              && db'.nodes == db.nodes[n := db.nodes[n].(isActive := false)]
              && ClosesExactly(db, db', LiveOn(n), Revoked, RevokeUser, now)
              && (forall i | 0 <= i < |db.sessions| :: db'.sessions[i] != db.sessions[i] <==>
                    db.sessions[i].node == n && db.sessions[i].status in {Provisioning, Active, Limited})
              && db'.audits == db.audits + [ForceMigrate(n, |db'.ops| - |db.ops|)]
  {
    ListingCounts(ids, db.sessions, LiveOn(n));
    CloseAllClosesExactly(db, ids, LiveOn(n), Revoked, RevokeUser, now);
  }

  // ---- nodes -------------------------------------------------------------------------------

  /**
   * After a sync a node takes sessions exactly if the panel has it online, no administrator has
   * drained it and it has an inbound for them; an online one is forgiven its failures, an offline
   * one keeps them.
   */
  lemma SyncDecidesPlacement(db: DB, n: nat, online: bool, tier: Tier)
    ensures |db.nodes| <= n ==> SyncNode(db, n, online) == db
    ensures n < |db.nodes| ==>
              var db', node := SyncNode(db, n, online), db.nodes[n];
              && db' == db.(nodes := db.nodes[n := db'.nodes[n]])
              && (Connection.TakesSessions(db'.nodes[n], tier) <==>
                    online && Connection.TakesSessions(node.(status := Up, errorStreak := 0), tier))
              && db'.nodes[n].errorStreak == (if online then 0 else node.errorStreak)
              && db'.nodes[n].isActive == node.isActive && (db'.nodes[n].status.Up? <==> online)
  {}

  /** Draining shuts a node out of placement; lifting it lets it in again exactly if nothing else is amiss. */
  lemma DrainingDecidesPlacement(db: DB, n: nat, isActive: bool, tier: Tier)
    ensures SetNodeActive(db, n, isActive).Ok? <==> n < |db.nodes|
    ensures n < |db.nodes| ==>
              var db' := SetNodeActive(db, n, isActive).value;
              && db' == db.(nodes := db.nodes[n := db.nodes[n].(isActive := isActive)])
              && (Connection.TakesSessions(db'.nodes[n], tier) <==>
                    isActive && Connection.TakesSessions(db.nodes[n].(isActive := true), tier))
  {}

  // ---- the service ---------------------------------------------------------------------------

  class AdminService {
    const db: Database
    const grantMs: int
    var users: nat
    var subscriptions: seq<SubRow>

    /** `users`: how many user rows there are. */
    constructor (db: Database, grantMs: int, users: nat)
      ensures this.db == db && this.grantMs == grantMs && this.users == users && subscriptions == []
    {
      this.db, this.grantMs, this.users, subscriptions := db, grantMs, users, [];
    }

    method KickSession(i: nat, now: int) returns (r: Result<(), AdminError>)
      modifies db
      ensures match Kick(old(db.Rows()), i, now)
              case Ok(after) => r.Ok? && db.Rows() == after
              case Err(e) => r == Err(e) && db.Rows() == old(db.Rows())
    {
      if |db.sessions| <= i { return Err(SessionNotFound); }
      if !db.sessions[i].Live() { return Ok(()); }
      db.sessions := db.sessions[i := db.sessions[i].(status := Revoked)];
      db.EnqueueEach([i], RevokeUser, now);
      r := Ok(());
    }

    /** Either change, both or none; `ids`: the sessions a ban closes. */
    method MutateUser(user: nat, tier: Option<Tier>, isBanned: Option<bool>, now: int)
      returns (r: Result<nat, AdminError>, ghost ids: seq<nat>)
      modifies db, this`subscriptions
      ensures Lists(ids, old(db.sessions), LiveOf(user))
      ensures users <= user ==>
                r == Err(UserNotFound) && db.Rows() == old(db.Rows()) && subscriptions == old(subscriptions)
      ensures user < users ==>
                && r == Ok(if isBanned == Some(true) then |ids| else 0)
                && (isBanned == None ==> db.Rows() == old(db.Rows()))
                && (isBanned == Some(true) ==> db.Rows() == Ban(old(db.Rows()), user, ids, now))
                && (isBanned == Some(false) ==> db.Rows() == Unban(old(db.Rows()), user))
                && (tier == None ==> subscriptions == old(subscriptions))
                && (tier == Some(Premium) ==> subscriptions == GrantPremium(old(subscriptions), user, now + grantMs))
                && (tier == Some(Free) ==> subscriptions == RevokePremium(old(subscriptions), user))
    {
      var live := MatchingRows(db.sessions, LiveOf(user));
      ids := live;
      if users <= user { return Err(UserNotFound), ids; }
      if isBanned.Some? {
        SetBan(user, isBanned.value, live, now);
      }
      if tier == Some(Premium) {
        GrantInternalPremium(user, now);
      } else if tier == Some(Free) {
        subscriptions := RevokePremium(subscriptions, user);
      }
      r := Ok(if isBanned == Some(true) then |live| else 0);
    }

    method SetBan(user: nat, isBanned: bool, live: seq<nat>, now: int)
      modifies db
      ensures db.Rows() == if isBanned then Ban(old(db.Rows()), user, live, now) else Unban(old(db.Rows()), user)
    {
      db.banned := if isBanned then db.banned + {user} else db.banned - {user};
      if isBanned {
        db.SetStatuses(live, Revoked);
        db.EnqueueEach(live, RevokeUser, now);
        db.audits := db.audits + [BanUser(user, |live|)];
      }
    }

    method GrantInternalPremium(user: nat, now: int)
      modifies this`subscriptions
      ensures subscriptions == GrantPremium(old(subscriptions), user, now + grantMs)
    {
      var periodEnd, updated := now + grantMs, 0;
      for i := 0 to |subscriptions|
        invariant |subscriptions| == |old(subscriptions)| && 0 <= updated
        invariant forall j | i <= j < |subscriptions| :: subscriptions[j] == old(subscriptions)[j]
        invariant forall j | 0 <= j < i ::
                    subscriptions[j] == if Current(old(subscriptions)[j], user) && old(subscriptions)[j].grantPlan
                                        then Renewed(old(subscriptions)[j], periodEnd) else old(subscriptions)[j]
        invariant 0 < updated <==>
                    exists j | 0 <= j < i :: Current(old(subscriptions)[j], user) && old(subscriptions)[j].grantPlan
      {
        if Current(subscriptions[i], user) && subscriptions[i].grantPlan {
          subscriptions := subscriptions[i := Renewed(subscriptions[i], periodEnd)];
          updated := updated + 1;
        }
      }
      if updated == 0 {
        subscriptions := subscriptions + [FreshGrant(user, periodEnd)];
      }
    }

    method PanicRevokeFreeSessions(now: int) returns (revoked: nat, ghost ids: seq<nat>)
      modifies db
      ensures Lists(ids, old(db.sessions), LiveFree()) && revoked == |ids|
      ensures db.Rows() == Panic(old(db.Rows()), ids, now)
    {
      var live := MatchingRows(db.sessions, LiveFree());
      ids := live;
      db.SetStatuses(live, Revoked);
      db.EnqueueEach(live, RevokeUser, now);
      db.audits := db.audits + [PanicFree(|live|)];
      revoked := |live|;
    }

    method SetActive(n: nat, isActive: bool) returns (r: Result<(), AdminError>)
      modifies db
      ensures match SetNodeActive(old(db.Rows()), n, isActive)
              case Ok(after) => r.Ok? && db.Rows() == after
              case Err(e) => r == Err(e) && db.Rows() == old(db.Rows())
    {
      if |db.nodes| <= n { return Err(NodeNotFound); }
      db.nodes := db.nodes[n := db.nodes[n].(isActive := isActive)];
      r := Ok(());
    }

    method ForceMigrateNode(n: nat, now: int) returns (r: Result<nat, AdminError>, ghost ids: seq<nat>)
      modifies db
      ensures Lists(ids, old(db.sessions), LiveOn(n))
      ensures match Migrate(old(db.Rows()), n, ids, now)
              case Ok(after) => r == Ok(|ids|) && db.Rows() == after
              case Err(e) => r == Err(e) && db.Rows() == old(db.Rows())
    {
      var live := MatchingRows(db.sessions, LiveOn(n));
      ids := live;
      if |db.nodes| <= n { return Err(NodeNotFound), ids; }
      db.nodes := db.nodes[n := db.nodes[n].(isActive := false)];
      db.SetStatuses(live, Revoked);
      db.EnqueueEach(live, RevokeUser, now);
      db.audits := db.audits + [ForceMigrate(n, |live|)];
      r := Ok(|live|);
    }
  }
}
