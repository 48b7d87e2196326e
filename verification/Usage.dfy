/** What users get: time on the panel, of one free session and of all of them, against the ads that were watched. */
module Usage {
  import opened Prelude
  import opened Sums
  import opened Tables
  import opened Funding
  import opened Panel
  import opened Protocol
  import opened Safety
  import opened Conservation
  import Ads

  // ---- on the panel ---------------------------------------------------------------------------

  /** How much of the time between two states the panel lets the user of session i through. */
  function UsableBetween(s: State, s': State, i: nat): int
  {
    if i !in s.users || !s.users[i].enabled then 0
    else match s.users[i].expiresAt
      case None => s'.clock - s.clock
      case Some(at) => Max(0, Min(s'.clock, at) - s.clock)
  }

  /** The total time over a run. */
  ghost function UsableMs(w: World, s: State, actions: seq<Action>, i: nat): int
    decreases |actions|
  {
    if actions == [] then 0
    else UsableBetween(s, Step(w, s, actions[0]), i) + UsableMs(w, Step(w, s, actions[0]), actions[1..], i)
  }

  /** The panel never lets a user through for longer than the session row is unexpired. */
  lemma {:induction false} UsableOnlyUnexpired(w: World, s: State, actions: seq<Action>, i: nat)
    requires Inv(w, s)
    ensures UsableMs(w, s, actions, i) <= UnexpiredMs(w, s, actions, i)
    decreases |actions|
  {
    if actions != [] {
      StepKeeps(w, s, actions[0]);
      UsableOnlyUnexpired(w, Step(w, s, actions[0]), actions[1..], i);
    }
  }

  /**
   * Over a whole run the panel serves the user of a free session for no longer than the
   * provisioning window plus the minutes of the grants consumed for it.
   */
  lemma PanelUseIsFunded(w: World, s0: State, actions: seq<Action>, i: nat)
    requires Initial(w, s0) && i < |Run(w, s0, actions).db.sessions|
    requires Run(w, s0, actions).db.sessions[i].tier.Free?
    ensures UsableMs(w, s0, actions, i) <= w.p.freeTtlMs + FundedMs(Run(w, s0, actions), i)
  {
    InitialSatisfies(w, s0);
    UsableOnlyUnexpired(w, s0, actions, i);
    FundedTimeBoundsUse(w, s0, actions, i);
  }

  // ---- what an ad is worth -------------------------------------------------------------------------

  /** The most minutes any grant gives for one ad, rounded up. */
  function MinutesPerAd(p: Settings): nat
    requires p.Valid()
  {
    Max(30, (p.connectMinutes + p.connectAds - 1) / p.connectAds)
  }

  ghost predicate Priced(p: Settings, g: Grant)
    requires p.Valid()
  {
    g.minutes <= g.requiredAds * MinutesPerAd(p)
  }

  ghost predicate AllPriced(p: Settings, grants: seq<Grant>)
    requires p.Valid()
  {
    forall k | 0 <= k < |grants| :: Priced(p, grants[k])
  }

  lemma RoundedUp(x: nat, n: nat)
    requires 1 <= n
    ensures x <= n * ((x + n - 1) / n)
  {
    assert x + n - 1 == n * ((x + n - 1) / n) + (x + n - 1) % n;
  }

  lemma NoLess(n: nat, x: int, y: int)
    requires x <= y
    ensures n * x <= n * y
  {}

  /** Grants of both kinds: those of /connect and those requested for a purpose. */
  lemma RulesArePriced(p: Settings, purpose: Purpose)
    requires p.Valid()
    ensures p.connectMinutes <= p.connectAds * MinutesPerAd(p)
    ensures Ads.RulesFor(purpose).1 <= Ads.RulesFor(purpose).0 * MinutesPerAd(p)
  {
    RoundedUp(p.connectMinutes, p.connectAds);
    NoLess(p.connectAds, (p.connectMinutes + p.connectAds - 1) / p.connectAds, MinutesPerAd(p));
  }

  /** No grant's price is ever changed. */
  ghost predicate PricesKept(grants: seq<Grant>, grants': seq<Grant>)
  {
    && |grants| <= |grants'|
    && forall k | 0 <= k < |grants| ::
         grants'[k].minutes == grants[k].minutes && grants'[k].requiredAds == grants[k].requiredAds
  }

  lemma ConnectPrices(w: World, s: State, f: nat, createdAt: int, order: seq<nat>, pick: Option<nat>)
    requires w.p.Valid() && AllPriced(w.p, s.db.grants)
    ensures AllPriced(w.p, CommitConnectStep(w, s, f, createdAt, order, pick).db.grants)
  {
    var grants := CommitConnectStep(w, s, f, createdAt, order, pick).db.grants;
    RulesArePriced(w.p, Connect);
    if grants != s.db.grants {
      assert grants == s.db.grants + [grants[|s.db.grants|]];
    }
  }

  lemma RequestPrices(w: World, s: State, user: nat, device: nat, purpose: Purpose, bound: Option<nat>)
    requires w.p.Valid() && AllPriced(w.p, s.db.grants)
    ensures var r := Ads.RequestToken(w.p, s.db, s.clock, user, device, purpose, bound);
            r.Ok? ==> AllPriced(w.p, r.value.grants)
  {
    RulesArePriced(w.p, purpose);
  }

  lemma VerifyRewardKeepsPrices(w: World, s: State, user: nat, grant: nat, session: nat)
    ensures PricesKept(s.db.grants, VerifyRewardStep(w, s, user, grant, session).db.grants)
  {}

  lemma AdvanceKeepsGrants(w: World, s: State, f: nat, reply: Reply)
    requires f < |s.flights|
    ensures AdvanceStep(w, s, f, reply).db.grants == s.db.grants
  {
    match s.flights[f]
    case Displacing(_, _, _, _) =>
    case Failing(_, _) =>
    case Pushing(_, _, _, _) =>
    case Drainer(_, _) =>
    case _ =>
  }

  /** The other steps that mint nothing. */
  lemma QuietStepKeepsPrices(w: World, s: State, a: Action)
    requires !a.CommitConnect? && !a.RequestToken? && !a.VerifyReward? && !a.Advance?
    ensures |Step(w, s, a).db.grants| == |s.db.grants| && PricesKept(s.db.grants, Step(w, s, a).db.grants)
  {}

  lemma StepPrices(w: World, s: State, a: Action)
    requires w.p.Valid() && AllPriced(w.p, s.db.grants)
    ensures AllPriced(w.p, Step(w, s, a).db.grants)
  {
    match a
    case CommitConnect(f, createdAt, order, pick) => ConnectPrices(w, s, f, createdAt, order, pick);
    case RequestToken(user, device, purpose, bound) => RequestPrices(w, s, user, device, purpose, bound);
    case VerifyReward(user, grant, session) => VerifyRewardKeepsPrices(w, s, user, grant, session);
    case Advance(f, reply) => if f < |s.flights| { AdvanceKeepsGrants(w, s, f, reply); }
    case _ => QuietStepKeepsPrices(w, s, a);
  }

  lemma {:induction false} RunPrices(w: World, s: State, actions: seq<Action>)
    requires w.p.Valid() && AllPriced(w.p, s.db.grants)
    ensures AllPriced(w.p, Run(w, s, actions).db.grants)
    decreases |actions|
  {
    if actions != [] {
      StepPrices(w, s, actions[0]);
      RunPrices(w, Step(w, s, actions[0]), actions[1..]);
    }
  }

  // ---- all sessions together ------------------------------------------------------------------------

  /** The minutes consumed for each session. */
  function MinutesOf(grants: seq<Grant>): nat -> int { PerPart(grants, MinutesFor()) }

  function MinutesFor(): nat -> Grant -> int { (i: nat) => FundedMinutes(i) }

  function ConsumedMinutes(): Grant -> int { (g: Grant) => if g.status.Consumed? then g.minutes else 0 }

  function SessionOf(): Grant -> int { (g: Grant) => if g.session.Some? then g.session.value else -1 }

  /** A consumed grant funds one session, so the minutes of all sessions are the minutes of all consumed grants. */
  lemma MinutesPartition(db: DB)
    requires FundingOk(db)
    ensures Sum(Numbers(|db.sessions|), MinutesOf(db.grants)) == Sum(db.grants, ConsumedMinutes())
  {
    forall k | 0 <= k < |db.grants|
      ensures BelongsTo(db.grants[k], |db.sessions|, MinutesFor(), SessionOf(), ConsumedMinutes())
      ensures 0 <= SessionOf()(db.grants[k]) < |db.sessions| || ConsumedMinutes()(db.grants[k]) == 0
    {
      assert GrantOk(db, k);
    }
    Partition(db.grants, |db.sessions|, MinutesFor(), SessionOf(), ConsumedMinutes());
  }

  lemma ConsumedIsPaid(p: Settings, g: Grant)
    requires p.Valid() && Priced(p, g)
    ensures ConsumedMinutes()(g) <= ConsumedAds()(g) * MinutesPerAd(p)
  {
    if !g.status.Consumed? {
      assert 0 * MinutesPerAd(p) == 0;
    }
  }

  lemma ConsumedArePaid(p: Settings, grants: seq<Grant>)
    requires p.Valid() && AllPriced(p, grants)
    ensures Sum(grants, ConsumedMinutes()) <= Sum(grants, ConsumedAds()) * MinutesPerAd(p)
  {
    var paid := (g: Grant) => ConsumedAds()(g) * MinutesPerAd(p);
    forall k | 0 <= k < |grants| ensures ConsumedMinutes()(grants[k]) <= paid(grants[k]) {
      ConsumedIsPaid(p, grants[k]);
    }
    SumMonotone(grants, grants, ConsumedMinutes(), paid);
    SumAffine(grants, ConsumedAds(), paid, 0, MinutesPerAd(p));
  }

  lemma MinutesWereWatched(p: Settings, db: DB)
    requires p.Valid() && FundingOk(db) && AllPriced(p, db.grants)
    ensures Sum(Numbers(|db.sessions|), MinutesOf(db.grants)) <= |db.rewards| * MinutesPerAd(p)
  {
    MinutesPartition(db);
    ConsumedArePaid(p, db.grants);
    ConsumedAdsWereWatched(db);
    NoLess(MinutesPerAd(p), Sum(db.grants, ConsumedAds()), |db.rewards|);
  }

  /** All minutes ever granted, whoever got them, come to no more than the verified ads are worth. */
  lemma AllMinutesWereWatched(w: World, s0: State, actions: seq<Action>)
    requires Initial(w, s0)
    ensures var s := Run(w, s0, actions);
            Sum(Numbers(|s.db.sessions|), MinutesOf(s.db.grants)) <= |s.db.rewards| * MinutesPerAd(w.p)
  {
    InitialSatisfies(w, s0);
    RunKeeps(w, s0, actions);
    RunPrices(w, s0, actions);
    MinutesWereWatched(w.p, Run(w, s0, actions).db);
  }

  /** What the panel serves each free session over a run. */
  ghost function FreeUse(w: World, s: State, actions: seq<Action>): nat -> int
  {
    (i: nat) =>
      var sessions := Run(w, s, actions).db.sessions;
      if i < |sessions| && sessions[i].tier.Free? then UsableMs(w, s, actions, i) else 0
  }

  lemma FreeUseIsFunded(w: World, s0: State, actions: seq<Action>, i: nat)
    requires Initial(w, s0)
    ensures FreeUse(w, s0, actions)(i)
         <= w.p.freeTtlMs + MinutesOf(Run(w, s0, actions).db.grants)(i) * Ads.MINUTE_MS
  {
    var s := Run(w, s0, actions);
    SumNonNegative(s.db.grants, FundedMinutes(i));
    assert MinutesOf(s.db.grants)(i) == Sum(s.db.grants, FundedMinutes(i));
    if i < |s.db.sessions| && s.db.sessions[i].tier.Free? { PanelUseIsFunded(w, s0, actions, i); }
  }

  /**
   * All free sessions together, over a whole run from the first deployment on: what the panel
   * serves is at most a provisioning window for each and the worth of the ads verified.
   */
  lemma AllUseWasWatched(w: World, s0: State, actions: seq<Action>)
    requires Initial(w, s0)
    ensures var s := Run(w, s0, actions); var n := |s.db.sessions|;
            Sum(Numbers(n), FreeUse(w, s0, actions))
            <= n * w.p.freeTtlMs + |s.db.rewards| * MinutesPerAd(w.p) * Ads.MINUTE_MS
  {
    var s := Run(w, s0, actions);
    var ids, minutes := Numbers(|s.db.sessions|), MinutesOf(s.db.grants);
    var allowed := (i: nat) => w.p.freeTtlMs + minutes(i) * Ads.MINUTE_MS;
    forall k | 0 <= k < |ids| ensures FreeUse(w, s0, actions)(ids[k]) <= allowed(ids[k]) {
      FreeUseIsFunded(w, s0, actions, ids[k]);
    }
    SumMonotone(ids, ids, FreeUse(w, s0, actions), allowed);
    SumAffine(ids, minutes, allowed, w.p.freeTtlMs, Ads.MINUTE_MS);
    AllMinutesWereWatched(w, s0, actions);
  }
}
