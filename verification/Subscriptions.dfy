/** The subscription rows an administrator's tier changes touch, beside those the stores own. */
module Subscriptions {
  import opened Prelude
  import opened Tables
  import opened Connection

  /**
   * A subscription joined with its plan. `granted`: source 'internal'; `grantPlan`: its plan is
   * 'admin_grant_premium'.
   */
  datatype SubRow = SubRow(user: nat, granted: bool, grantPlan: bool, sub: Subscription)

  const GRANT_CONCURRENT := 3

  predicate Current(r: SubRow, user: nat) { r.user == user && r.granted && !r.sub.status.Lapsed? }

  function Renewed(r: SubRow, periodEnd: int): SubRow
  {
    r.(sub := r.sub.(status := SubActive, periodEnd := Some(periodEnd)))
  }

  function FreshGrant(user: nat, periodEnd: int): SubRow
  {
    SubRow(user, true, true, Subscription(Premium, SubActive, Some(periodEnd), GRANT_CONCURRENT))
  }

  /** Every current grant of the user extended; a fresh one if there was none. */
  function GrantPremium(rows: seq<SubRow>, user: nat, periodEnd: int): seq<SubRow>
  {
    var renewed := seq(|rows|, i requires 0 <= i < |rows| =>
      if Current(rows[i], user) && rows[i].grantPlan then Renewed(rows[i], periodEnd) else rows[i]);
    if exists i | 0 <= i < |rows| :: Current(rows[i], user) && rows[i].grantPlan then renewed
    else renewed + [FreshGrant(user, periodEnd)]
  }

  /** Every current internal subscription of the user to a premium plan lapses. */
  function RevokePremium(rows: seq<SubRow>, user: nat): seq<SubRow>
  {
    seq(|rows|, i requires 0 <= i < |rows| =>
      if Current(rows[i], user) && rows[i].sub.tier.Premium? then rows[i].(sub := rows[i].sub.(status := Lapsed))
          else rows[i])
  }

  /** The rows the entitlement queries see for a user. */
  function SubsOf(rows: seq<SubRow>, user: nat): seq<Subscription>
  {
    if rows == [] then []
    else
      var n := |rows| - 1;
      SubsOf(rows[..n], user) + if rows[n].user == user then [rows[n].sub] else []
  }

  lemma {:induction false} SubsOfHas(rows: seq<SubRow>, user: nat, sub: Subscription)
    ensures sub in SubsOf(rows, user) <==> exists i | 0 <= i < |rows| :: rows[i].user == user && rows[i].sub == sub
    decreases |rows|
  {
    if rows != [] {
      var n := |rows| - 1;
      SubsOfHas(rows[..n], user, sub);
      if sub in SubsOf(rows[..n], user) {
        var i :| 0 <= i < n && rows[..n][i].user == user && rows[..n][i].sub == sub;
        assert rows[i].user == user && rows[i].sub == sub;
      }
      forall i | 0 <= i < |rows| && rows[i].user == user && rows[i].sub == sub ensures sub in SubsOf(rows, user) {
        assert i < n ==> rows[..n][i] == rows[i];
      }
    }
  }

  lemma TierOf(rows: seq<SubRow>, user: nat, now: int)
    ensures EffectiveTier(SubsOf(rows, user), now).Premium? <==>
              exists i | 0 <= i < |rows| :: rows[i].user == user && Entitles(rows[i].sub, now)
  {
    var subs := SubsOf(rows, user);
    if j :| 0 <= j < |subs| && Entitles(subs[j], now) {
      SubsOfHas(rows, user, subs[j]);
    }
    if i :| 0 <= i < |rows| && rows[i].user == user && Entitles(rows[i].sub, now) {
      SubsOfHas(rows, user, rows[i].sub);
      var j :| 0 <= j < |subs| && subs[j] == rows[i].sub;
    }
  }

  /** Grants are rows of the admin plan, which is premium, and nobody else's rows are of that plan. */
  predicate GrantsAreGrants(rows: seq<SubRow>)
  {
    forall i | 0 <= i < |rows| && rows[i].grantPlan :: rows[i].sub.tier.Premium?
  }

  /** The rows an administrator's grant is, for a user: internal, current, of the admin plan. */
  predicate IsGrant(r: SubRow, user: nat) { r.user == user && r.granted && r.grantPlan && !r.sub.status.Lapsed? }

  /**
   * After a grant the user is premium exactly until its end, or as long as another subscription
   * entitles them. The grants they had end then as well, keeping plan and limit; one of the grant
   * plan's limit is added exactly if they had none; and no other row is touched.
   */
  lemma GrantEntitles(rows: seq<SubRow>, user: nat, periodEnd: int, now: int)
    requires GrantsAreGrants(rows)
    ensures var after := GrantPremium(rows, user, periodEnd);
            && GrantsAreGrants(after)
            && (EffectiveTier(SubsOf(after, user), now).Premium? <==>
                  || now < periodEnd
                  || exists i | 0 <= i < |rows| :: rows[i].user == user && !IsGrant(rows[i], user)
                                                   && Entitles(rows[i].sub, now))
            && |rows| <= |after| <= |rows| + 1
            && (|after| == |rows| <==> exists i | 0 <= i < |rows| :: IsGrant(rows[i], user))
            && (|after| > |rows| ==>
                  IsGrant(after[|rows|], user) && after[|rows|].sub.maxConcurrent == 3
                  && after[|rows|].sub.periodEnd == Some(periodEnd))
            && (forall i | 0 <= i < |rows| && !IsGrant(rows[i], user) :: after[i] == rows[i])
            && (forall i | 0 <= i < |rows| && IsGrant(rows[i], user) ::
                  && IsGrant(after[i], user) && after[i].sub.periodEnd == Some(periodEnd)
                  && after[i].sub.tier == rows[i].sub.tier && after[i].sub.maxConcurrent == rows[i].sub.maxConcurrent)
  {
    var after := GrantPremium(rows, user, periodEnd);
    TierOf(after, user, now);
    if i :| 0 <= i < |rows| && IsGrant(rows[i], user) {
      assert Current(rows[i], user) && after[i].user == user;
      assert now < periodEnd ==> Entitles(after[i].sub, now);
    } else {
      assert after[|rows|].user == user;
      assert now < periodEnd ==> Entitles(after[|rows|].sub, now);
    }
    if i :| 0 <= i < |rows| && rows[i].user == user && !IsGrant(rows[i], user) && Entitles(rows[i].sub, now) {
      assert after[i].user == user && Entitles(after[i].sub, now);
    }
    if i :| 0 <= i < |after| && after[i].user == user && Entitles(after[i].sub, now) && periodEnd <= now {
      assert i < |rows| && after[i] == rows[i];
    }
  }

  /**
   * Taking the grant away leaves the user premium exactly if a store or promo subscription
   * entitles them on its own, and touches no such subscription.
   */
  lemma RevokeLeavesPurchases(rows: seq<SubRow>, user: nat, now: int)
    ensures EffectiveTier(SubsOf(RevokePremium(rows, user), user), now).Premium? <==>
              exists i | 0 <= i < |rows| :: rows[i].user == user && !rows[i].granted && Entitles(rows[i].sub, now)
    ensures |RevokePremium(rows, user)| == |rows|
    ensures forall i | 0 <= i < |rows| ::
              RevokePremium(rows, user)[i]
              == if rows[i].user == user && rows[i].granted && rows[i].sub.tier.Premium?
                 then rows[i].(sub := rows[i].sub.(status := Lapsed)) else rows[i]
  {
    var after := RevokePremium(rows, user);
    TierOf(after, user, now);
    if i :| 0 <= i < |rows| && rows[i].user == user && !rows[i].granted && Entitles(rows[i].sub, now) {
      assert after[i].user == user && Entitles(after[i].sub, now);
    }
    if i :| 0 <= i < |after| && after[i].user == user && Entitles(after[i].sub, now) {
      assert !rows[i].granted && after[i] == rows[i];
    }
  }
}
