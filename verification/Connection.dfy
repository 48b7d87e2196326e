/** /connect: resolving the plan, making room, placing the session, failing it when the panel refuses. */
module Connection {
  import opened Prelude
  import opened Sums
  import opened Rows
  import opened Tables
  import opened Ledger
  import opened Funding
  import opened Store
  import Ads

  // ---- tier and expiry -------------------------------------------------------------

  datatype SubscriptionStatus = SubActive | InGrace | Lapsed

  /** A user's subscription row joined with its plan; `Lapsed` stands for every status that entitles to nothing. */
  datatype Subscription = Subscription(tier: Tier, status: SubscriptionStatus, periodEnd: Option<int>,
                                       maxConcurrent: nat)

  predicate Entitles(s: Subscription, now: int)
  {
    s.tier.Premium? && !s.status.Lapsed? && (s.periodEnd.Some? ==> now < s.periodEnd.value)
  }

  /** The database function effective_tier. */
  function EffectiveTier(subs: seq<Subscription>, now: int): Tier
  {
    if exists i | 0 <= i < |subs| :: Entitles(subs[i], now) then Premium else Free
  }

  /** `order by current_period_end desc nulls last`: whether a may come before b. */
  predicate MayPrecede(a: Subscription, b: Subscription)
  {
    b.periodEnd.None? || (a.periodEnd.Some? && b.periodEnd.value <= a.periodEnd.value)
  }

  /** The row the entitlement query returns, if any. */
  ghost predicate BestSubscription(subs: seq<Subscription>, now: int, best: Option<Subscription>)
  {
    match best
    case None => forall i | 0 <= i < |subs| :: !Entitles(subs[i], now)
    case Some(b) => b in subs && Entitles(b, now)
                    && forall i | 0 <= i < |subs| && Entitles(subs[i], now) :: MayPrecede(b, subs[i])
  }

  datatype Plan = Plan(tier: Tier, expiresAt: int, maxConcurrent: nat, readAt: int)

  function Resolve(p: Settings, best: Option<Subscription>, freePlanMax: Option<nat>, now: int): Plan
  {
    match best
    case None => Plan(Free, now + p.freeTtlMs, if freePlanMax.Some? then freePlanMax.value else 1, now)
    case Some(b) =>
      Plan(Premium, if b.periodEnd.Some? then b.periodEnd.value else now + p.premiumTtlMs, b.maxConcurrent, now)
  }

  /** The plan read for /connect agrees with effective_tier, and a lapsed subscriber never gets a premium deadline. */
  lemma ResolveAgreesWithEffectiveTier(p: Settings, subs: seq<Subscription>, best: Option<Subscription>,
                                       freePlanMax: Option<nat>, now: int)
    requires p.Valid() && BestSubscription(subs, now, best)
    ensures var plan := Resolve(p, best, freePlanMax, now);
            && plan.tier == EffectiveTier(subs, now)
            && (plan.tier.Premium? <==>
                  exists i | 0 <= i < |subs| :: subs[i].tier.Premium? && subs[i].status in {SubActive, InGrace}
                                                && (subs[i].periodEnd.None? || now < subs[i].periodEnd.value))
            && (plan.tier.Free? ==> plan.expiresAt == now + p.freeTtlMs)
            && now <= plan.expiresAt
            && (forall i | 0 <= i < |subs| && Entitles(subs[i], now) && subs[i].periodEnd.Some? ::
                  subs[i].periodEnd.value <= plan.expiresAt)
  {
    if i :| 0 <= i < |subs| && subs[i].tier.Premium? && subs[i].status in {SubActive, InGrace}
            && (subs[i].periodEnd.None? || now < subs[i].periodEnd.value) {
      assert Entitles(subs[i], now);
    }
  }

  /** The subscription bounds the plan: it entitles, ends at the plan's deadline if it ends, and sets its limit. */
  predicate Bounds(p: Settings, s: Subscription, plan: Plan, now: int)
  {
    && Entitles(s, now) && plan.maxConcurrent == s.maxConcurrent
    && plan.expiresAt == if s.periodEnd.Some? then s.periodEnd.value else now + p.premiumTtlMs
  }

  /** The entitling subscriptions that end. */
  function Ending(subs: seq<Subscription>, now: int): set<nat>
  {
    set i: nat | i < |subs| && Entitles(subs[i], now) && subs[i].periodEnd.Some?
  }

  /**
   * The plan exactly: a premium deadline is the latest period end among what entitles, or the
   * fallback if nothing that entitles ever ends, and the limit is that of such a subscription; a
   * free plan has the provisioning window and the free plan's limit, one if there is none.
   */
  lemma PlanIsExactly(p: Settings, subs: seq<Subscription>, best: Option<Subscription>, freePlanMax: Option<nat>,
                      now: int)
    requires BestSubscription(subs, now, best)
    ensures var plan := Resolve(p, best, freePlanMax, now);
            var ending := Ending(subs, now);
            && plan.readAt == now
            && (plan.tier.Premium? ==> exists i | 0 <= i < |subs| :: Bounds(p, subs[i], plan, now))
            && (plan.tier.Premium? && ending == {} ==> plan.expiresAt == now + p.premiumTtlMs)
            && (plan.tier.Premium? && ending != {} ==>
                  && (exists i | i in ending :: Bounds(p, subs[i], plan, now))
                  && forall i | i in ending :: subs[i].periodEnd.value <= plan.expiresAt)
            && (plan.tier.Free? ==>
                  && (forall i | 0 <= i < |subs| :: !Entitles(subs[i], now))
                  && plan.expiresAt == now + p.freeTtlMs
                  && plan.maxConcurrent == match freePlanMax case Some(n) => n case None => 1)
  {
    if best.Some? {
      var i :| 0 <= i < |subs| && subs[i] == best.value;
      assert Bounds(p, subs[i], Resolve(p, best, freePlanMax, now), now);
      forall j | j in Ending(subs, now)
        ensures i in Ending(subs, now) && subs[j].periodEnd.value <= subs[i].periodEnd.value
      {
        assert MayPrecede(best.value, subs[j]);
      }
    }
  }

  // ---- choosing a node --------------------------------------------------------------

  predicate Allowed(tier: Tier, offered: Tier) { tier.Premium? || offered.Free? }

  predicate Usable(tier: Tier, inbound: Inbound) { inbound.reachable && Allowed(tier, inbound.tier) }

  function Placeable(tier: Tier): Node -> bool
  {
    (n: Node) =>
      && n.status.Up? && n.isActive && n.errorStreak < 3 && Allowed(tier, n.tier)
      && exists k | 0 <= k < |n.inbounds| :: Usable(tier, n.inbounds[k])
  }

  /** `order by current_load, error_streak, sort_weight`: whether a may come before b. */
  predicate Lighter(a: Node, b: Node)
  {
    || a.load < b.load
    || (a.load == b.load && (a.errorStreak < b.errorStreak
                             || (a.errorStreak == b.errorStreak && a.weight <= b.weight)))
  }

  /** What the placement query returns: a node and the inbound joined to it. */
  datatype NodePick = NodePick(node: nat, inbound: Inbound)

  function NodeOf(pick: Option<NodePick>): Option<nat> { if pick.Some? then Some(pick.value.node) else None }

  ghost predicate Picks(nodes: seq<Node>, tier: Tier, pick: Option<nat>)
  {
    match pick
    case None => forall n | 0 <= n < |nodes| :: !Placeable(tier)(nodes[n])
    case Some(i) => i < |nodes| && Placeable(tier)(nodes[i])
                    && forall n | 0 <= n < |nodes| && Placeable(tier)(nodes[n]) :: Lighter(nodes[i], nodes[n])
  }

  // ---- the connect transaction -----------------------------------------------------------

  datatype ConnectError = NoNodeCapacity | DeviceAlreadyLive

  /** The user's live sessions, oldest first: the rows the transaction locks. */
  ghost predicate LiveOrder(sessions: seq<Session>, user: nat, order: seq<nat>)
  {
    && Lists(order, sessions, LiveOf(user))
    && forall a, b | 0 <= a < b < |order| :: sessions[order[a]].createdAt <= sessions[order[b]].createdAt
  }

  /** How many of `live` sessions must go so that one more fits: `slice` clamps the excess to what is there. */
  function Overflow(live: nat, maxConcurrent: nat): (r: nat)
    ensures r <= live
  {
    if maxConcurrent <= live then Min(live, live - maxConcurrent + 1) else 0
  }

  predicate DeviceLive(sessions: seq<Session>, device: nat)
  {
    exists i | 0 <= i < |sessions| :: sessions[i].Live() && sessions[i].device == device
  }

  function NewSession(user: nat, device: nat, node: nat, plan: Plan, createdAt: int): Session
  {
    Session(user, device, node, plan.tier, if plan.tier.Premium? then Active else Provisioning,
            plan.expiresAt, createdAt, 0, None)
  }

  /** Evicts the oldest, inserts the session and, for the free tier, its grant; or rolls back. */
  function ConnectTx(p: Settings, db: DB, now: int, user: nat, device: nat, plan: Plan, createdAt: int,
                     order: seq<nat>, pick: Option<nat>): Result<DB, ConnectError>
  {
    var evicted := order[..Overflow(|order|, plan.maxConcurrent)];
    var db1 := CloseAll(db, evicted, Revoked, RevokeUser, now);
    if pick.None? then Err(NoNodeCapacity)
    else if DeviceLive(db1.sessions, device) then Err(DeviceAlreadyLive)
    else
      var db2 := db1.(sessions := db1.sessions + [NewSession(user, device, pick.value, plan, createdAt)]);
      if plan.tier.Premium? then Ok(db2)
      else
        Ok(db2.(grants := db2.grants + [Grant(user, device, Some(|db.sessions|), Connect, p.connectAds, 0,
                                              p.connectMinutes, Pending, plan.expiresAt)]))
  }

  /** A plan as /connect holds it between its read and its transaction. */
  predicate PlanOk(p: Settings, plan: Plan, now: int)
  {
    && plan.readAt <= now && 1000 <= plan.expiresAt
    && (plan.tier.Free? ==> plan.expiresAt == plan.readAt + p.freeTtlMs)
  }

  ghost predicate ConnectEnabled(p: Settings, db: DB, now: int, user: nat, plan: Plan, createdAt: int,
                                 order: seq<nat>, pick: Option<nat>)
  {
    && PlanOk(p, plan, createdAt) && createdAt <= now
    && LiveOrder(db.sessions, user, order)
    && Picks(db.nodes, plan.tier, pick)
  }

  lemma ConnectKeeps(p: Settings, db: DB, now: int, user: nat, device: nat, plan: Plan, createdAt: int,
                     order: seq<nat>, pick: Option<nat>)
    requires p.Valid() && LedgerOk(p, db) && FundingOk(db)
    requires ConnectEnabled(p, db, now, user, plan, createdAt, order, pick)
    ensures var r := ConnectTx(p, db, now, user, device, plan, createdAt, order, pick);
            r.Ok? ==> LedgerOk(p, r.value) && FundingOk(r.value) && Evolves(db, r.value)
  {
    var r := ConnectTx(p, db, now, user, device, plan, createdAt, order, pick);
    if r.Ok? {
      var evicted := order[..Overflow(|order|, plan.maxConcurrent)];
      var db1 := CloseAll(db, evicted, Revoked, RevokeUser, now);
      var s := NewSession(user, device, pick.value, plan, createdAt);
      var db2 := db1.(sessions := db1.sessions + [s]);
      CloseAllKeepsLedger(p, db, evicted, Revoked, RevokeUser, now);
      CloseAllEvolves(db, evicted, Revoked, RevokeUser, now);
      NeutralKeepsFunding(db, db1);
      InsertKeepsLedger(p, db1, s);
      InsertKeepsFunding(db1, s);
      EvolvesTransitive(db, db1, db2);
      if plan.tier.Free? {
        NewGrantKeepsFunding(db2, r.value.grants[|db2.grants|]);
        OtherTablesKeepLedger(p, db2, r.value);
        EvolvesTransitive(db, db2, r.value);
      }
    }
  }

  /** Once the first `over` rows of the listing are closed, the rest list what is still live. */
  lemma EvictionLeavesRest(db: DB, user: nat, order: seq<nat>, over: nat, now: int)
    requires LiveOrder(db.sessions, user, order) && over <= |order|
    ensures Lists(order[over..], CloseAll(db, order[..over], Revoked, RevokeUser, now).sessions, LiveOf(user))
  {}

  lemma EvictionCounts(db: DB, user: nat, order: seq<nat>, over: nat, now: int)
    requires LiveOrder(db.sessions, user, order) && over <= |order|
    ensures LiveCount(db.sessions, user) == |order|
    ensures LiveCount(CloseAll(db, order[..over], Revoked, RevokeUser, now).sessions, user) == |order| - over
  {
    EvictionLeavesRest(db, user, order, over, now);
    ListingCounts(order, db.sessions, LiveOf(user));
    ListingCounts(order[over..], CloseAll(db, order[..over], Revoked, RevokeUser, now).sessions, LiveOf(user));
  }

  /**
   * After a committed connect the user has one live session more than before, but never more
   * than the plan allows (or the one just opened, should the plan allow none).
   */
  lemma ConnectRespectsConcurrency(p: Settings, db: DB, now: int, user: nat, device: nat, plan: Plan, createdAt: int,
                                   order: seq<nat>, pick: Option<nat>)
    requires LiveOrder(db.sessions, user, order)
    requires ConnectTx(p, db, now, user, device, plan, createdAt, order, pick).Ok?
    ensures var sessions := ConnectTx(p, db, now, user, device, plan, createdAt, order, pick).value.sessions;
            && |sessions| == |db.sessions| + 1 && LiveOf(user)(sessions[|db.sessions|])
            && LiveCount(sessions, user) == Min(LiveCount(db.sessions, user) + 1, Max(1, plan.maxConcurrent))
  {
    var over := Overflow(|order|, plan.maxConcurrent);
    var closed := CloseAll(db, order[..over], Revoked, RevokeUser, now).sessions;
    EvictionCounts(db, user, order, over, now);
    SumPush(closed, NewSession(user, device, pick.value, plan, createdAt), Indicator(LiveOf(user)));
  }

  /** The sessions a connect evicts are the user's oldest, and no other user's session changes. */
  lemma ConnectEvictsOldest(p: Settings, db: DB, now: int, user: nat, device: nat, plan: Plan, createdAt: int,
                            order: seq<nat>, pick: Option<nat>, i: nat)
    requires LiveOrder(db.sessions, user, order)
    requires ConnectTx(p, db, now, user, device, plan, createdAt, order, pick).Ok?
    requires i < |db.sessions|
    ensures var sessions := ConnectTx(p, db, now, user, device, plan, createdAt, order, pick).value.sessions;
            sessions[i] != db.sessions[i] ==>
              && LiveOf(user)(db.sessions[i]) && sessions[i] == db.sessions[i].(status := Revoked)
              && forall j | 0 <= j < |db.sessions| && LiveOf(user)(sessions[j]) ::
                   db.sessions[i].createdAt <= db.sessions[j].createdAt
  {}

  /**
   * What a commit leaves: the session as the plan and the pick have it, and beside the evicted rows
   * and their removals nothing else but the free tier's grant.
   */
  lemma ConnectOpens(p: Settings, db: DB, now: int, user: nat, device: nat, plan: Plan, createdAt: int,
                     order: seq<nat>, pick: Option<nat>)
    requires LiveOrder(db.sessions, user, order)
    requires ConnectTx(p, db, now, user, device, plan, createdAt, order, pick).Ok?
    ensures var db' := ConnectTx(p, db, now, user, device, plan, createdAt, order, pick).value;
            var n, s := |db.sessions|, db'.sessions[|db.sessions|];
            && s.user == user && s.device == device && Some(s.node) == pick && s.tier == plan.tier
            && s.expiresAt == plan.expiresAt && s.createdAt == createdAt && s.extensions == 0 && s.lastGrant.None?
            && s.status == (if plan.tier.Premium? then Active else Provisioning)
            && db' == db.(sessions := db'.sessions, grants := db'.grants, ops := db'.ops)
            && (plan.tier.Premium? ==> db'.grants == db.grants)
            && |db'.grants| <= |db.grants| + 1 && db.grants <= db'.grants
            && db.ops <= db'.ops
            && (forall k | |db.ops| <= k < |db'.ops| ::
                  && db'.ops[k].session < n && db'.sessions[db'.ops[k].session] != db.sessions[db'.ops[k].session]
                  && db'.ops[k] == Op(db'.ops[k].session, RevokeUser, Queued, 0, now))
            && |db'.ops| - |db.ops| == LiveCount(db.sessions, user) + 1 - LiveCount(db'.sessions, user)
  {
    ConnectRespectsConcurrency(p, db, now, user, device, plan, createdAt, order, pick);
    ListingCounts(order, db.sessions, LiveOf(user));
    var evicted := order[..Overflow(|order|, plan.maxConcurrent)];
    forall j | 0 <= j < |evicted| ensures evicted[j] in evicted && LiveOf(user)(db.sessions[evicted[j]]) {}
  }

  /** Some live session of the device is another user's, or among those of this user not evicted. */
  ghost predicate DeviceKept(sessions: seq<Session>, user: nat, device: nat, kept: seq<nat>)
  {
    exists i | 0 <= i < |sessions| && sessions[i].Live() && sessions[i].device == device ::
      sessions[i].user == user ==> i in kept
  }

  lemma EvictionFreesDevice(db: DB, user: nat, device: nat, order: seq<nat>, over: nat, now: int)
    requires LiveOrder(db.sessions, user, order) && over <= |order|
    ensures DeviceLive(CloseAll(db, order[..over], Revoked, RevokeUser, now).sessions, device)
       <==> DeviceKept(db.sessions, user, device, order[over..])
  {
    var sessions := CloseAll(db, order[..over], Revoked, RevokeUser, now).sessions;
    forall i: nat | i < |db.sessions|
      ensures sessions[i].Live() <==> db.sessions[i].Live() && (db.sessions[i].user == user ==> i in order[over..])
      ensures sessions[i].device == db.sessions[i].device
    {
      if db.sessions[i].Live() { EvictedOrKept(db.sessions, user, order, over, i); }
    }
    if DeviceLive(sessions, device) {
      var i :| 0 <= i < |sessions| && sessions[i].Live() && sessions[i].device == device;
      assert db.sessions[i].Live();
    }
    if DeviceKept(db.sessions, user, device, order[over..]) {
      var i :| 0 <= i < |db.sessions| && db.sessions[i].Live() && db.sessions[i].device == device
               && (db.sessions[i].user == user ==> i in order[over..]);
      assert sessions[i].Live();
    }
  }

  /** A connect fails exactly for want of a node, or if the device still has a session once the oldest have gone. */
  lemma ConnectFailsExactlyWhen(p: Settings, db: DB, now: int, user: nat, device: nat, plan: Plan, createdAt: int,
                                order: seq<nat>, pick: Option<nat>)
    requires LiveOrder(db.sessions, user, order) && Picks(db.nodes, plan.tier, pick)
    ensures var r := ConnectTx(p, db, now, user, device, plan, createdAt, order, pick);
            var kept := order[Overflow(|order|, plan.maxConcurrent)..];
            && (r == Err(NoNodeCapacity) <==> forall n | 0 <= n < |db.nodes| :: !Placeable(plan.tier)(db.nodes[n]))
            && (r == Err(DeviceAlreadyLive) <==>
                  && (exists n | 0 <= n < |db.nodes| :: Placeable(plan.tier)(db.nodes[n]))
                  && DeviceKept(db.sessions, user, device, kept))
  {
    EvictionFreesDevice(db, user, device, order, Overflow(|order|, plan.maxConcurrent), now);
  }

  lemma EvictedOrKept(sessions: seq<Session>, user: nat, order: seq<nat>, over: nat, i: nat)
    requires LiveOrder(sessions, user, order) && over <= |order| && i < |sessions| && sessions[i].Live()
    ensures i in order[..over] <==> sessions[i].user == user && i !in order[over..]
  {
    assert order == order[..over] + order[over..];
    if sessions[i].user == user {
      assert LiveOf(user)(sessions[i]);
    }
  }

  /** The free tier's grant: the user's own, for this session, to be earned within the provisioning window. */
  lemma ConnectMints(p: Settings, db: DB, now: int, user: nat, device: nat, plan: Plan, createdAt: int,
                     order: seq<nat>, pick: Option<nat>)
    requires ConnectTx(p, db, now, user, device, plan, createdAt, order, pick).Ok? && plan.tier.Free?
    ensures var db' := ConnectTx(p, db, now, user, device, plan, createdAt, order, pick).value;
            var g := db'.grants[|db'.grants| - 1];
            && |db'.grants| == |db.grants| + 1 && db'.rewards == db.rewards
            && g.user == user && g.device == device && g.session == Some(|db.sessions|) && g.purpose.Connect?
            && g.requiredAds == p.connectAds && g.verifiedAds == 0 && g.minutes == p.connectMinutes
            && g.status.Pending? && g.expiresAt == plan.expiresAt
            && |db'.sessions| == |db.sessions| + 1
            && var s := db'.sessions[|db.sessions|];
               s.user == user && s.Live() && s.expiresAt == plan.expiresAt && s.createdAt == createdAt
  {}

  /**
   * From connect to claim: the grant a free connect mints, which is none for a premium plan, buys
   * time exactly for the user who connected, for that session, before the provisioning window ends,
   * once as many new ads as configured were verified for it in the window, and if that session has
   * lifetime left for it; and it buys the minutes configured.
   */
  lemma ConnectGrantBuysTime(p: Settings, db: DB, now: int, user: nat, device: nat, plan: Plan, createdAt: int,
                             order: seq<nat>, pick: Option<nat>, calls: seq<Ads.Callback>, later: int,
                             claimant: nat, i: nat)
    requires p.Valid() && plan.tier.Free?
    requires ConnectTx(p, db, now, user, device, plan, createdAt, order, pick).Ok?
    ensures var db' := ConnectTx(p, db, now, user, device, plan, createdAt, order, pick).value;
            var k, n := |db.grants|, |db.sessions|;
            && (Ads.Buys(p, Ads.Intake(db', calls), later, claimant, k, i) <==>
                  && claimant == user && i == n && later < plan.expiresAt
                  && p.connectAds <= |Ads.InTimeFor(k + 1, db.rewards, k, plan.expiresAt, calls)|
                  && (p.connectMinutes != 0 ==> plan.expiresAt < createdAt + p.maxSessionMs))
            && (Ads.Buys(p, Ads.Intake(db', calls), later, claimant, k, i) ==>
                  Ads.Claim(p, Ads.Intake(db', calls), later, claimant, k, i).value.1.minutes == p.connectMinutes)
  {
    ConnectMints(p, db, now, user, device, plan, createdAt, order, pick);
    var db' := ConnectTx(p, db, now, user, device, plan, createdAt, order, pick).value;
    SessionGrantBuysTime(p, db', calls, later, claimant, i);
  }

  /** The same of any tables whose last grant is for their last session. */
  lemma SessionGrantBuysTime(p: Settings, db: DB, calls: seq<Ads.Callback>, later: int, claimant: nat, i: nat)
    requires p.Valid() && db.grants != [] && db.sessions != []
    requires var g, s := db.grants[|db.grants| - 1], db.sessions[|db.sessions| - 1];
             && g.session == Some(|db.sessions| - 1) && g.user == s.user && s.Live() && g.expiresAt == s.expiresAt
             && g.requiredAds == p.connectAds && g.verifiedAds == 0 && g.status.Pending?
    ensures var k, n := |db.grants| - 1, |db.sessions| - 1;
            var g, s := db.grants[k], db.sessions[n];
            && (Ads.Buys(p, Ads.Intake(db, calls), later, claimant, k, i) <==>
                  && claimant == g.user && i == n && later < g.expiresAt
                  && p.connectAds <= |Ads.InTimeFor(k + 1, db.rewards, k, g.expiresAt, calls)|
                  && (g.minutes != 0 ==> s.expiresAt < s.createdAt + p.maxSessionMs))
            && (Ads.Buys(p, Ads.Intake(db, calls), later, claimant, k, i) ==>
                  Ads.Claim(p, Ads.Intake(db, calls), later, claimant, k, i).value.1.minutes == g.minutes)
  {
    Ads.MintedGrantBuysWhen(p, db, calls, later, claimant, |db.grants| - 1, i);
  }

  /** The node takes sessions of this tier: up, not drained, not failing, with an inbound of a tier it may use. */
  predicate TakesSessions(n: Node, tier: Tier)
  {
    && n.status == Up && n.isActive && n.errorStreak <= 2 && (tier.Free? ==> n.tier.Free?)
    && exists k | 0 <= k < |n.inbounds| :: n.inbounds[k].reachable && (tier.Free? ==> n.inbounds[k].tier.Free?)
  }

  lemma PlaceableTakesSessions(n: Node, tier: Tier)
    ensures Placeable(tier)(n) <==> TakesSessions(n, tier)
  {
    if k :| 0 <= k < |n.inbounds| && Usable(tier, n.inbounds[k]) {
      assert n.inbounds[k].reachable;
    }
    if k :| 0 <= k < |n.inbounds| && n.inbounds[k].reachable && (tier.Free? ==> n.inbounds[k].tier.Free?) {
      assert Usable(tier, n.inbounds[k]);
    }
  }

  /**
   * A connect is placed on a node that takes its sessions and carries the least load of those that
   * do, of these the one that failed least, of these one of the least weight; and is refused a place
   * only if no node takes its sessions.
   */
  lemma PlacementIsLightest(db: DB, plan: Plan, pick: Option<nat>)
    requires Picks(db.nodes, plan.tier, pick)
    ensures pick.None? <==> forall n | 0 <= n < |db.nodes| :: !TakesSessions(db.nodes[n], plan.tier)
    ensures pick.Some? ==>
              var best := db.nodes[pick.value];
              && TakesSessions(best, plan.tier)
              && forall n | 0 <= n < |db.nodes| && TakesSessions(db.nodes[n], plan.tier) ::
                   && best.load <= db.nodes[n].load
                   && (best.load == db.nodes[n].load ==> best.errorStreak <= db.nodes[n].errorStreak)
                   && (best.load == db.nodes[n].load && best.errorStreak == db.nodes[n].errorStreak ==>
                         best.weight <= db.nodes[n].weight)
  {
    forall n | 0 <= n < |db.nodes|
      ensures Placeable(plan.tier)(db.nodes[n]) <==> TakesSessions(db.nodes[n], plan.tier)
    {
      PlaceableTakesSessions(db.nodes[n], plan.tier);
    }
  }

  // ---- a failed provisioning: three separate statements -----------------------------------

  function MarkFailed(db: DB, i: nat): DB
    requires i < |db.sessions|
  {
    db.(sessions := db.sessions[i := db.sessions[i].(status := Failed)])
  }

  function EnqueueDelete(db: DB, i: nat, now: int): DB
  {
    db.(ops := db.ops + Enqueued([i], DeleteUser, now))
  }

  function Penalize(db: DB, n: nat): DB
    requires n < |db.nodes|
  {
    db.(nodes := db.nodes[n := db.nodes[n].(errorStreak := db.nodes[n].errorStreak + 1)])
  }

  /** All three, when nothing stops them. */
  function FailedRows(db: DB, i: nat, now: int): DB
    requires i < |db.sessions| && db.sessions[i].node < |db.nodes|
  {
    Penalize(EnqueueDelete(MarkFailed(db, i), i, now), db.sessions[i].node)
  }

  /**
   * Failing a session just opened gives its place and its device back, queues its one removal,
   * counts against its node, and touches nobody else's session.
   */
  lemma FailingGivesPlaceBack(p: Settings, db: DB, i: nat, now: int)
    requires LedgerOk(p, db) && i < |db.sessions| && db.sessions[i].Live()
    ensures db.sessions[i].node < |db.nodes|
    ensures var db', s := FailedRows(db, i, now), db.sessions[i];
            && db'.sessions == db.sessions[i := s.(status := Failed)]
            && LiveCount(db'.sessions, s.user) == LiveCount(db.sessions, s.user) - 1
            && !DeviceLive(db'.sessions, s.device)
            && Reclaims(db'.ops, i) == 1 && db'.ops == db.ops + [Op(i, DeleteUser, Queued, 0, now)]
            && db'.nodes == db.nodes[s.node := db.nodes[s.node].(errorStreak := db.nodes[s.node].errorStreak + 1)]
            && db' == db.(sessions := db'.sessions, ops := db'.ops, nodes := db'.nodes)
            && LedgerOk(p, db')
  {
    var s, op := db.sessions[i], Op(i, DeleteUser, Queued, 0, now);
    assert SessionOk(p, db, i);
    LiveHasNoReclaim(p, db, i);
    FailKeepsLedger(p, db, i);
    EnqueueDeleteKeepsLedger(p, MarkFailed(db, i), i, now);
    OtherTablesKeepLedger(p, EnqueueDelete(MarkFailed(db, i), i, now), FailedRows(db, i, now));
    assert Enqueued([i], DeleteUser, now) == [op];
    SumPush(db.ops, op, Indicator(ReclaimOf(i)));
    SumUpdate(db.sessions, i, s.(status := Failed), Indicator(LiveOf(s.user)));
  }

  /** `... set status='succeeded' where op='revoke_user' and status='pending'` for one username. */
  function MarkInlineRevoked(db: DB, i: nat): DB
  {
    db.(ops := seq(|db.ops|, k requires 0 <= k < |db.ops| =>
                   if db.ops[k].session == i && db.ops[k].work.RevokeUser? && db.ops[k].status.Queued?
                   then db.ops[k].(status := Succeeded) else db.ops[k]))
  }

  // ---- the service ------------------------------------------------------------------------

  class ConnectionService {
    const p: Settings
    const db: Database

    constructor (p: Settings, db: Database)
      ensures this.p == p && this.db == db
    {
      this.p, this.db := p, db;
    }

    method ResolveTierAndExpiry(subs: seq<Subscription>, freePlanMax: Option<nat>, now: int) returns (plan: Plan)
      ensures exists best :: BestSubscription(subs, now, best) && plan == Resolve(p, best, freePlanMax, now)
    {
      var best: Option<Subscription> := None;
      for n := 0 to |subs|
        invariant BestSubscription(subs[..n], now, best)
      {
        if Entitles(subs[n], now) && (best.None? || !MayPrecede(best.value, subs[n])) {
          best := Some(subs[n]);
        }
        assert subs[..n + 1] == subs[..n] + [subs[n]];
      }
      assert subs[..|subs|] == subs;
      plan := Resolve(p, best, freePlanMax, now);
    }

    /** The lightest placeable node, and one of its inbounds the tier may use. */
    method PickNode(tier: Tier) returns (pick: Option<NodePick>)
      ensures Picks(db.nodes, tier, NodeOf(pick))
      ensures pick.Some? ==> pick.value.inbound in db.nodes[pick.value.node].inbounds
      ensures pick.Some? ==> Usable(tier, pick.value.inbound)
    {
      var best: Option<nat> := None;
      for n := 0 to |db.nodes|
        invariant Picks(db.nodes[..n], tier, best)
      {
        if Placeable(tier)(db.nodes[n]) && (best.None? || !Lighter(db.nodes[best.value], db.nodes[n])) {
          best := Some(n);
        }
        assert db.nodes[..n + 1] == db.nodes[..n] + [db.nodes[n]];
      }
      assert db.nodes[..|db.nodes|] == db.nodes;
      if best.None? { return None; }
      var inbound := PickInbound(tier, db.nodes[best.value].inbounds);
      pick := Some(NodePick(best.value, inbound));
    }

    method PickInbound(tier: Tier, inbounds: seq<Inbound>) returns (inbound: Inbound)
      requires exists k | 0 <= k < |inbounds| :: Usable(tier, inbounds[k])
      ensures inbound in inbounds && Usable(tier, inbound)
    {
      var k := 0;
      while !Usable(tier, inbounds[k])
        invariant k < |inbounds| && forall j | 0 <= j < k :: !Usable(tier, inbounds[j])
        decreases |inbounds| - k
      {
        k := k + 1;
      }
      inbound := inbounds[k];
    }

    /** Three statements in a row; the last two run only if the ones before did. */
    method FailSession(i: nat, now: int)
      requires i < |db.sessions| && db.sessions[i].node < |db.nodes|
      modifies db
      ensures db.Rows() == FailedRows(old(db.Rows()), i, now)
    {
      var n := db.sessions[i].node;
      db.sessions := db.sessions[i := db.sessions[i].(status := Failed)];
      db.ops := db.ops + [Op(i, DeleteUser, Queued, 0, now)];
      db.nodes := db.nodes[n := db.nodes[n].(errorStreak := db.nodes[n].errorStreak + 1)];
      assert Enqueued([i], DeleteUser, now) == [Op(i, DeleteUser, Queued, 0, now)];
    }

    /** The eviction loop: each row revoked and its removal queued before the next. */
    method EvictOldest(live: seq<nat>, overBy: nat, now: int) returns (revoked: seq<nat>)
      requires overBy <= |live|
      requires forall j | 0 <= j < |live| :: live[j] < |db.sessions|
      modifies db
      ensures revoked == live[..overBy]
      ensures db.Rows() == CloseAll(old(db.Rows()), live[..overBy], Revoked, RevokeUser, now)
    {
      revoked := [];
      for j := 0 to overBy
        invariant revoked == live[..j]
        invariant db.Rows() == CloseAll(old(db.Rows()), live[..j], Revoked, RevokeUser, now)
      {
        var i := live[j];
        db.sessions := db.sessions[i := db.sessions[i].(status := Revoked)];
        db.ops := db.ops + [Op(i, RevokeUser, Queued, 0, now)];
        revoked := revoked + [i];
        assert live[..j + 1] == live[..j] + [i];
        assert Enqueued(live[..j + 1], RevokeUser, now)
            == Enqueued(live[..j], RevokeUser, now) + [Op(i, RevokeUser, Queued, 0, now)];
      }
    }

    /** Phase A; `order` and `pick` are the rows its two queries returned, `revoked` the usernames to drop inline. */
    method Connect(user: nat, device: nat, plan: Plan, createdAt: int, now: int)
      returns (r: Result<nat, ConnectError>, revoked: seq<nat>, ghost order: seq<nat>, ghost pick: Option<nat>)
      modifies db
      ensures LiveOrder(old(db.sessions), user, order) && Picks(old(db.nodes), plan.tier, pick)
      ensures revoked == order[..Overflow(|order|, plan.maxConcurrent)]
      ensures match ConnectTx(p, old(db.Rows()), now, user, device, plan, createdAt, order, pick)
              case Ok(after) => r == Ok(old(|db.sessions|)) && db.Rows() == after
              case Err(e) => r == Err(e) && db.Rows() == old(db.Rows())
    {
      var begin := db.Rows();
      var live := SelectTop(db.sessions, LiveOf(user), (s: Session) => s.createdAt, None);
      order := live;
      revoked := EvictOldest(live, Overflow(|live|, plan.maxConcurrent), now);
      var node := PickNode(plan.tier);
      pick := NodeOf(node);
      if node.None? {
        db.Rollback(begin);
        return Err(NoNodeCapacity), revoked, order, pick;
      }
      if DeviceLive(db.sessions, device) { // the unique index rejects the insert
        db.Rollback(begin);
        return Err(DeviceAlreadyLive), revoked, order, pick;
      }
      var sessionId := |db.sessions|;
      db.sessions := db.sessions + [NewSession(user, device, node.value.node, plan, createdAt)];
      if plan.tier.Free? {
        db.grants := db.grants + [Grant(user, device, Some(sessionId), Tables.Connect, p.connectAds, 0,
                                        p.connectMinutes, Pending, plan.expiresAt)];
      }
      r := Ok(sessionId);
    }
  }
}
