/** The invariant that ties grants, verified ads and the time they funded together. */
module Funding {
  import opened Prelude
  import opened Sums
  import opened Rows
  import opened Tables

  ghost predicate GrantOk(db: DB, k: nat)
    requires k < |db.grants|
  {
    var g := db.grants[k];
    && g.status in {Pending, Fulfilled, Consumed}
    && 1 <= g.requiredAds && g.verifiedAds <= g.requiredAds
    && (g.status.Pending? <==> g.verifiedAds < g.requiredAds)
    && (g.session.Some? ==> g.session.value < |db.sessions|)
    && (g.status.Consumed? ==> g.session.Some? && db.sessions[g.session.value].user == g.user)
    && g.verifiedAds <= Sum(db.rewards, Indicator(RewardFor(k)))
  }

  /** A free session is active only on the strength of a consumed, fully verified grant. */
  ghost predicate FundedOk(db: DB, i: nat)
    requires i < |db.sessions|
  {
    var s := db.sessions[i];
    && s.extensions == Sum(db.grants, Indicator(Funds(i)))
    && (s.tier.Free? && s.status.Active? ==>
          && s.lastGrant.Some? && s.lastGrant.value < |db.grants|
          && Funds(i)(db.grants[s.lastGrant.value]))
  }

  ghost predicate RewardsOk(db: DB)
  {
    && (forall r | 0 <= r < |db.rewards| :: db.rewards[r].grant < |db.grants|)
    && (forall r, q | 0 <= r < q < |db.rewards| :: db.rewards[r].transaction != db.rewards[q].transaction)
  }

  ghost predicate FundingOk(db: DB)
  {
    && (forall k | 0 <= k < |db.grants| :: GrantOk(db, k))
    && (forall i | 0 <= i < |db.sessions| :: FundedOk(db, i))
    && RewardsOk(db)
  }

  // ---- conservation of ads ------------------------------------------------------

  function ConsumedAds(): Grant -> int { (g: Grant) => if g.status.Consumed? then g.requiredAds else 0 }

  /** The rewards rows of each grant. */
  function AdsOf(rewards: seq<Reward>): nat -> int { PerPart(rewards, AdFor()) }

  function AdFor(): nat -> Reward -> int { (k: nat) => Indicator(RewardFor(k)) }

  /** Every rewards row belongs to one grant, so counting per grant counts each row once. */
  lemma RewardsPartition(rewards: seq<Reward>, n: nat)
    requires forall r | 0 <= r < |rewards| :: rewards[r].grant < n
    ensures Sum(Numbers(n), AdsOf(rewards)) == |rewards|
  {
    var one := (r: Reward) => 1;
    Partition(rewards, n, AdFor(), (r: Reward) => r.grant, one);
    SumAffine(rewards, (r: Reward) => 0, one, 1, 0);
  }

  /** The ads behind all consumed grants were all verified, each of them once. */
  lemma ConsumedAdsWereWatched(db: DB)
    requires FundingOk(db)
    ensures Sum(db.grants, ConsumedAds()) <= |db.rewards|
  {
    var n := |db.grants|;
    RewardsPartition(db.rewards, n);
    forall k | 0 <= k < n ensures ConsumedAds()(db.grants[k]) <= AdsOf(db.rewards)(Numbers(n)[k]) {
      assert GrantOk(db, k);
      CountIsNonNegative(db.rewards, k);
    }
    SumMonotone(db.grants, Numbers(n), ConsumedAds(), AdsOf(db.rewards));
  }

  lemma CountIsNonNegative(rewards: seq<Reward>, k: nat)
    ensures 0 <= AdsOf(rewards)(k)
  {
    SumNonNegative(rewards, Indicator(RewardFor(k)));
  }

  // ---- changes that keep the invariant ---------------------------------------------

  /** Sessions may close or gain rows as long as none becomes active and none changes its funding. */
  ghost predicate FundingNeutral(s: Session, s': Session)
  {
    && s'.user == s.user && s'.tier == s.tier && s'.extensions == s.extensions && s'.lastGrant == s.lastGrant
    && (s'.status.Active? ==> s.status.Active?)
  }

  lemma NeutralKeepsFunding(db: DB, db': DB)
    requires FundingOk(db)
    requires db'.grants == db.grants && db'.rewards == db.rewards && |db'.sessions| == |db.sessions|
    requires forall i | 0 <= i < |db.sessions| :: FundingNeutral(db.sessions[i], db'.sessions[i])
    ensures FundingOk(db')
  {
    forall k | 0 <= k < |db'.grants| ensures GrantOk(db', k) {
      assert GrantOk(db, k);
    }
    forall i | 0 <= i < |db'.sessions| ensures FundedOk(db', i) {
      assert FundedOk(db, i);
      assert FundingNeutral(db.sessions[i], db'.sessions[i]);
    }
  }

  lemma InsertKeepsFunding(db: DB, s: Session)
    requires FundingOk(db)
    requires s.extensions == 0 && (s.tier.Free? ==> !s.status.Active?)
    ensures FundingOk(db.(sessions := db.sessions + [s]))
  {
    var db' := db.(sessions := db.sessions + [s]);
    var n := |db.sessions|;
    forall k | 0 <= k < |db'.grants| ensures GrantOk(db', k) && !Funds(n)(db'.grants[k]) {
      assert GrantOk(db, k);
    }
    SumZero(db'.grants, Indicator(Funds(n)));
    forall i | 0 <= i < |db'.sessions| ensures FundedOk(db', i) {
      if i < n {
        assert FundedOk(db, i);
      }
    }
  }

  lemma NewGrantKeepsFunding(db: DB, g: Grant)
    requires FundingOk(db)
    requires g.status.Pending? && g.verifiedAds == 0 && 1 <= g.requiredAds
    requires g.session.Some? ==> g.session.value < |db.sessions|
    ensures FundingOk(db.(grants := db.grants + [g]))
  {
    var db' := db.(grants := db.grants + [g]);
    forall k | 0 <= k < |db'.grants| ensures GrantOk(db', k) {
      if k < |db.grants| {
        assert GrantOk(db, k);
      } else {
        SumNonNegative(db.rewards, Indicator(RewardFor(k)));
      }
    }
    forall i | 0 <= i < |db'.sessions| ensures FundedOk(db', i) {
      assert FundedOk(db, i);
      SumPush(db.grants, g, Indicator(Funds(i)));
    }
  }

  lemma NewRewardKeepsFunding(db: DB, r: Reward, g': Grant)
    requires FundingOk(db)
    requires r.grant < |db.grants|
    requires forall q | 0 <= q < |db.rewards| :: db.rewards[q].transaction != r.transaction
    requires var g := db.grants[r.grant];
             g' == g || (g.status.Pending?
                         && g' == g.(verifiedAds := g.verifiedAds + 1,
                                     status := if g.requiredAds <= g.verifiedAds + 1 then Fulfilled else g.status))
    ensures FundingOk(db.(rewards := db.rewards + [r], grants := db.grants[r.grant := g']))
  {
    var db' := db.(rewards := db.rewards + [r], grants := db.grants[r.grant := g']);
    forall k | 0 <= k < |db'.grants| ensures GrantOk(db', k) {
      assert GrantOk(db, k);
      SumPush(db.rewards, r, Indicator(RewardFor(k)));
    }
    assert GrantOk(db, r.grant);
    forall i | 0 <= i < |db'.sessions| ensures FundedOk(db', i) {
      assert FundedOk(db, i);
      SumUpdate(db.grants, r.grant, g', Indicator(Funds(i)));
    }
  }

  lemma ConsumeKeepsFunding(db: DB, k: nat, i: nat, s': Session)
    requires FundingOk(db)
    requires k < |db.grants| && db.grants[k].status.Fulfilled?
    requires i < |db.sessions| && db.sessions[i].user == db.grants[k].user
    requires db.grants[k].session in {None, Some(i)}
    requires var s := db.sessions[i];
             if 0 < db.grants[k].minutes then
               s'.user == s.user && s'.extensions == s.extensions + 1 && s'.lastGrant == Some(k)
             else s' == s
    ensures FundingOk(db.(grants := db.grants[k := db.grants[k].(status := Consumed, session := Some(i))],
                          sessions := db.sessions[i := s']))
  {
    var g' := db.grants[k].(status := Consumed, session := Some(i));
    var db' := db.(grants := db.grants[k := g'], sessions := db.sessions[i := s']);
    forall n | 0 <= n < |db'.grants| ensures GrantOk(db', n) {
      assert GrantOk(db, n);
    }
    forall j | 0 <= j < |db'.sessions| ensures FundedOk(db', j) {
      assert FundedOk(db, j);
      SumUpdate(db.grants, k, g', Indicator(Funds(j)));
    }
  }
}
