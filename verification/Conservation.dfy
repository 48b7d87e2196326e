/** Ads and time are conserved over whole runs: nobody gets more than was watched, or longer than was funded. */
module Conservation {
  import opened Prelude
  import opened Sums
  import opened Rows
  import opened Tables
  import opened Funding
  import opened Panel
  import opened Protocol
  import opened Safety
  import opened Guarantees
  import opened Placement
  import Ads

  // ---- ads --------------------------------------------------------------------------------

  /**
   * Each verified ad is counted at most once, no grant counts more ads than it needs, and the
   * ads behind all grants ever consumed are covered by distinct verified ads.
   */
  lemma AdsAreConserved(w: World, s: State)
    requires Reachable(w, s)
    ensures forall r, q | 0 <= r < q < |s.db.rewards| :: s.db.rewards[r].transaction != s.db.rewards[q].transaction
    ensures forall k | 0 <= k < |s.db.grants| ::
              && s.db.grants[k].verifiedAds <= s.db.grants[k].requiredAds
              && s.db.grants[k].verifiedAds <= Sum(s.db.rewards, Indicator(RewardFor(k)))
    ensures Sum(s.db.grants, ConsumedAds()) <= |s.db.rewards|
  {
    ReachableSatisfies(w, s);
    ConsumedAdsWereWatched(s.db);
    forall k | 0 <= k < |s.db.grants|
      ensures s.db.grants[k].verifiedAds <= s.db.grants[k].requiredAds
      ensures s.db.grants[k].verifiedAds <= Sum(s.db.rewards, Indicator(RewardFor(k)))
    {
      assert GrantOk(s.db, k);
    }
  }

  /** A free session in `active` is backed by a consumed grant of its own user, all of whose ads were verified. */
  lemma ActiveFreeSessionsAreFunded(w: World, s: State, i: nat)
    requires Reachable(w, s) && i < |s.db.sessions|
    requires s.db.sessions[i].tier.Free? && s.db.sessions[i].status.Active?
    ensures exists k | 0 <= k < |s.db.grants| ::
              && Funds(i)(s.db.grants[k]) && s.db.grants[k].user == s.db.sessions[i].user
              && s.db.grants[k].verifiedAds == s.db.grants[k].requiredAds && 1 <= s.db.grants[k].requiredAds
  {
    ReachableSatisfies(w, s);
    assert FundedOk(s.db, i);
    assert GrantOk(s.db, s.db.sessions[i].lastGrant.value);
  }

  /**
   * extensions_count counts the consumed grants of minutes, and a consumed grant belongs to one
   * session of its user.
   */
  lemma ExtensionsAreCounted(w: World, s: State)
    requires Reachable(w, s)
    ensures forall i | 0 <= i < |s.db.sessions| :: s.db.sessions[i].extensions == Sum(s.db.grants, Indicator(Funds(i)))
    ensures forall k | 0 <= k < |s.db.grants| && s.db.grants[k].status.Consumed? ::
              && s.db.grants[k].session.Some? && s.db.grants[k].session.value < |s.db.sessions|
              && s.db.sessions[s.db.grants[k].session.value].user == s.db.grants[k].user
  {
    ReachableSatisfies(w, s);
    forall i | 0 <= i < |s.db.sessions|
      ensures s.db.sessions[i].extensions == Sum(s.db.grants, Indicator(Funds(i)))
    {
      assert FundedOk(s.db, i);
    }
    forall k | 0 <= k < |s.db.grants| && s.db.grants[k].status.Consumed?
      ensures s.db.grants[k].session.Some? && s.db.grants[k].session.value < |s.db.sessions|
      ensures s.db.sessions[s.db.grants[k].session.value].user == s.db.grants[k].user
    {
      assert GrantOk(s.db, k);
    }
  }

  /** No grant is ever marked expired: the write is undone by the throw that follows it. */
  lemma GrantsNeverExpireInTheTable(w: World, s: State, k: nat)
    requires Reachable(w, s) && k < |s.db.grants|
    ensures s.db.grants[k].status in {Pending, Fulfilled, Consumed}
  {
    ReachableSatisfies(w, s);
    assert GrantOk(s.db, k);
  }

  // ---- time -----------------------------------------------------------------------------------

  /** Time session i still has. */
  function RemainingMs(s: State, i: nat): int
  {
    if i < |s.db.sessions| then Max(0, s.db.sessions[i].expiresAt - s.clock) else 0
  }

  /** Time the grants consumed for session i were worth. */
  function FundedMs(s: State, i: nat): int
  {
    Sum(s.db.grants, FundedMinutes(i)) * Ads.MINUTE_MS
  }

  /** How much of the time between two states session i was unexpired. */
  function UnexpiredBetween(s: State, s': State, i: nat): int
  {
    if i < |s.db.sessions| then Max(0, Min(s'.clock, s.db.sessions[i].expiresAt) - s.clock) else 0
  }

  /** The total time session i is unexpired over a run. */
  ghost function UnexpiredMs(w: World, s: State, actions: seq<Action>, i: nat): int
    decreases |actions|
  {
    if actions == [] then 0
    else UnexpiredBetween(s, Step(w, s, actions[0]), i) + UnexpiredMs(w, Step(w, s, actions[0]), actions[1..], i)
  }

  /** Nothing but a claim changes a deadline, and nothing undoes what grants funded. */
  ghost predicate TimeKept(db: DB, db': DB, i: nat)
  {
    && (i < |db.sessions| ==> i < |db'.sessions| && db'.sessions[i].expiresAt == db.sessions[i].expiresAt)
    && Sum(db'.grants, FundedMinutes(i)) == Sum(db.grants, FundedMinutes(i))
  }

  lemma FreshGrantFundsNothing(db: DB, g: Grant, i: nat)
    requires !g.status.Consumed?
    ensures Sum(db.grants + [g], FundedMinutes(i)) == Sum(db.grants, FundedMinutes(i))
  {}

  lemma RewardKeepsTime(db: DB, c: Ads.Callback, i: nat)
    ensures var r := Ads.RecordReward(db, c); r.Ok? ==> TimeKept(db, r.value, i)
  {
    var r := Ads.RecordReward(db, c);
    if r.Ok? && r.value.grants != db.grants {
      SumUpdate(db.grants, c.data.grant, r.value.grants[c.data.grant], FundedMinutes(i));
      assert r.value.grants == db.grants[c.data.grant := r.value.grants[c.data.grant]];
    }
  }

  lemma ConnectKeepsTime(w: World, s: State, f: nat, createdAt: int, order: seq<nat>, pick: Option<nat>, i: nat)
    ensures TimeKept(s.db, CommitConnectStep(w, s, f, createdAt, order, pick).db, i)
  {
    var db' := CommitConnectStep(w, s, f, createdAt, order, pick).db;
    if db'.grants != s.db.grants {
      assert db'.grants == s.db.grants + [db'.grants[|s.db.grants|]];
      FreshGrantFundsNothing(s.db, db'.grants[|s.db.grants|], i);
    }
  }

  lemma AdvanceKeepsTime(w: World, s: State, f: nat, reply: Reply, i: nat)
    requires f < |s.flights|
    ensures TimeKept(s.db, AdvanceStep(w, s, f, reply).db, i)
  {
    match s.flights[f]
    case Displacing(j, ms, todo, stage) =>
    case Failing(j, stage) =>
    case Pushing(k, j, ms, stage) =>
    case Drainer(held, stage) =>
    case _ =>
  }

  lemma StepKeepsTime(w: World, s: State, a: Action, i: nat)
    requires !a.VerifyReward?
    ensures TimeKept(s.db, Step(w, s, a).db, i)
  {
    match a
    case RequestToken(user, device, purpose, bound) =>
      var r := Ads.RequestToken(w.p, s.db, s.clock, user, device, purpose, bound);
      if r.Ok? { FreshGrantFundsNothing(s.db, r.value.grants[|s.db.grants|], i); }
    case SsvCallback(data, transaction) => RewardKeepsTime(s.db, Ads.Callback(data, transaction, s.clock), i);
    case CommitConnect(f, createdAt, order, pick) => ConnectKeepsTime(w, s, f, createdAt, order, pick, i);
    case Advance(f, reply) => if f < |s.flights| { AdvanceKeepsTime(w, s, f, reply, i); }
    case _ => QuietStepKeepsTime(w, s, a, i);
  }

  /** The steps that leave grants alone and never move a deadline. */
  lemma QuietStepKeepsTime(w: World, s: State, a: Action, i: nat)
    requires !a.VerifyReward? && !a.RequestToken? && !a.SsvCallback? && !a.CommitConnect? && !a.Advance?
    ensures TimeKept(s.db, Step(w, s, a).db, i)
  {}

  /** A claim adds to the remaining time no more than to what is funded. */
  lemma ClaimConservesTime(w: World, s: State, user: nat, grant: nat, session: nat, i: nat)
    requires Inv(w, s) && i < |s.db.sessions|
    ensures var s' := VerifyRewardStep(w, s, user, grant, session);
            && i < |s'.db.sessions| && s'.clock == s.clock
            && RemainingMs(s', i) - FundedMs(s', i) <= RemainingMs(s, i) - FundedMs(s, i)
  {
    var r := Ads.Claim(w.p, s.db, s.clock, user, grant, session);
    if r.Ok? && r.value.1.Granted? {
      var db' := r.value.0;
      assert db'.grants == s.db.grants[grant := db'.grants[grant]];
      SumUpdate(s.db.grants, grant, db'.grants[grant], FundedMinutes(i));
      if 0 < r.value.1.minutes {
        Ads.ClaimBoundsExpiry(w.p, s.db, s.clock, user, grant, session);
      }
    }
  }

  lemma StepConservesTime(w: World, s: State, a: Action, i: nat)
    requires Inv(w, s) && i < |s.db.sessions|
    ensures var s' := Step(w, s, a);
            && i < |s'.db.sessions|
            && UnexpiredBetween(s, s', i) + RemainingMs(s', i) - FundedMs(s', i) <= RemainingMs(s, i) - FundedMs(s, i)
  {
    if a.VerifyReward? {
      ClaimConservesTime(w, s, a.user, a.grant, a.session, i);
    } else {
      StepKeepsTime(w, s, a, i);
    }
  }

  lemma {:induction false} RunConservesTime(w: World, s: State, actions: seq<Action>, i: nat)
    requires Inv(w, s) && i < |s.db.sessions|
    ensures var s' := Run(w, s, actions);
            && i < |s'.db.sessions|
            && UnexpiredMs(w, s, actions, i) + RemainingMs(s', i) - FundedMs(s', i)
               <= RemainingMs(s, i) - FundedMs(s, i)
    decreases |actions|
  {
    if actions != [] {
      StepKeeps(w, s, actions[0]);
      StepConservesTime(w, s, actions[0], i);
      RunConservesTime(w, Step(w, s, actions[0]), actions[1..], i);
    }
  }

  /** Grants consumed for a session presuppose the session. */
  lemma UnbornIsUnfunded(w: World, s: State, i: nat)
    requires Inv(w, s) && |s.db.sessions| <= i
    ensures FundedMs(s, i) == 0
  {
    forall k | 0 <= k < |s.db.grants| ensures FundedMinutes(i)(s.db.grants[k]) == 0 {
      assert GrantOk(s.db, k);
    }
    SumZero(s.db.grants, FundedMinutes(i));
  }

  lemma ConnectSetsDeadline(w: World, s: State, f: nat, createdAt: int, order: seq<nat>, pick: Option<nat>, i: nat)
    requires Inv(w, s) && |s.db.sessions| <= i
    ensures var s' := CommitConnectStep(w, s, f, createdAt, order, pick);
            s'.clock == s.clock
            && (i < |s'.db.sessions| && s'.db.sessions[i].tier.Free? ==>
                s'.db.sessions[i].expiresAt <= s.clock + w.p.freeTtlMs)
  {}

  /** A free session starts with at most the provisioning window, nothing consumed for it yet. */
  lemma BirthOfFreeSession(w: World, s: State, a: Action, i: nat)
    requires Inv(w, s) && |s.db.sessions| <= i < |Step(w, s, a).db.sessions|
    requires Step(w, s, a).db.sessions[i].tier.Free?
    ensures var s' := Step(w, s, a); RemainingMs(s', i) <= w.p.freeTtlMs && FundedMs(s', i) == 0
  {
    OnlyConnectInserts(w, s, a);
    ConnectKeepsTime(w, s, a.flight, a.createdAt, a.order, a.pick, i);
    ConnectSetsDeadline(w, s, a.flight, a.createdAt, a.order, a.pick, i);
    UnbornIsUnfunded(w, s, i);
  }

  /**
   * Over a whole run, from before it was opened, a free session is unexpired for no longer than
   * the provisioning window plus the minutes of the grants consumed for it, however often it
   * lapsed and was started again.
   */
  lemma {:induction false} TimeIsConserved(w: World, s: State, actions: seq<Action>, i: nat)
    requires Inv(w, s) && |s.db.sessions| <= i < |Run(w, s, actions).db.sessions|
    requires Run(w, s, actions).db.sessions[i].tier.Free?
    ensures UnexpiredMs(w, s, actions, i) + RemainingMs(Run(w, s, actions), i)
         <= w.p.freeTtlMs + FundedMs(Run(w, s, actions), i)
    decreases |actions|
  {
    var next, rest := Step(w, s, actions[0]), actions[1..];
    StepKeeps(w, s, actions[0]);
    if i < |next.db.sessions| {
      RunKeeps(w, next, rest);
      assert SessionEvolves(next.db.sessions[i], Run(w, s, actions).db.sessions[i]);
      BirthOfFreeSession(w, s, actions[0], i);
      RunConservesTime(w, next, rest, i);
    } else {
      TimeIsConserved(w, next, rest, i);
    }
  }

  /** In particular from the first deployment on. */
  lemma FundedTimeBoundsUse(w: World, s0: State, actions: seq<Action>, i: nat)
    requires Initial(w, s0) && i < |Run(w, s0, actions).db.sessions|
    requires Run(w, s0, actions).db.sessions[i].tier.Free?
    ensures UnexpiredMs(w, s0, actions, i) <= w.p.freeTtlMs + FundedMs(Run(w, s0, actions), i)
  {
    InitialSatisfies(w, s0);
    TimeIsConserved(w, s0, actions, i);
  }
}
