/** How many removals a session can ever have: one by whoever closes it and one by its connect's cleanup. */
module Removals {
  import opened Prelude
  import opened Sums
  import opened Rows
  import opened Tables
  import opened Ledger
  import opened Panel
  import opened Protocol
  import opened Safety
  import opened Guarantees
  import opened Finality
  import opened Placement

  function MayReclaimOf(i: nat): Flight -> bool { (fl: Flight) => fl.MayReclaim(i) }

  /** The activities that may still queue a removal of session i by their cleanup. */
  function Claimants(s: State, i: nat): int { Sum(s.flights, Indicator(MayReclaimOf(i))) }

  ghost predicate AtMostTwo(s: State, i: nat)
  {
    Claimants(s, i) <= 1 && Reclaims(s.db.ops, i) + Claimants(s, i) <= 2
  }

  // ---- counting ---------------------------------------------------------------------------

  lemma NobodyYet(w: World, s: State, i: nat)
    requires Inv(w, s) && |s.db.sessions| <= i
    ensures Reclaims(s.db.ops, i) == 0 && Claimants(s, i) == 0
  {
    forall k | 0 <= k < |s.db.ops| ensures !ReclaimOf(i)(s.db.ops[k]) { assert OpOk(s.db, s.db.ops[k]); }
    SumZero(s.db.ops, Indicator(ReclaimOf(i)));
    forall f | 0 <= f < |s.flights| ensures !MayReclaimOf(i)(s.flights[f]) {
      assert FlightOk(w, s.db, s.clock, s.flights[f]);
    }
    SumZero(s.flights, Indicator(MayReclaimOf(i)));
  }

  /** No activity takes on the cleanup of session i. */
  ghost predicate NoNewClaim(s: State, s': State, i: nat)
  {
    && |s.flights| <= |s'.flights|
    && forall g | 0 <= g < |s'.flights| && s'.flights[g].MayReclaim(i) :: g < |s.flights| && s.flights[g].MayReclaim(i)
  }

  lemma NoNewClaimCounts(s: State, s': State, i: nat)
    requires NoNewClaim(s, s', i)
    ensures Claimants(s', i) <= Claimants(s, i)
  {
    var n := |s.flights|;
    assert s'.flights == s'.flights[..n] + s'.flights[n..];
    SumConcat(s'.flights[..n], s'.flights[n..], Indicator(MayReclaimOf(i)));
    SumZero(s'.flights[n..], Indicator(MayReclaimOf(i)));
    SumMonotone(s'.flights[..n], s.flights, Indicator(MayReclaimOf(i)), Indicator(MayReclaimOf(i)));
  }

  lemma NoNewRemovalCounts(s: State, s': State, i: nat)
    requires Evolves(s.db, s'.db)
    requires forall k | |s.db.ops| <= k < |s'.db.ops| :: !RemovalRow(s', i, k)
    ensures Reclaims(s'.db.ops, i) == Reclaims(s.db.ops, i)
  {
    var n, f := |s.db.ops|, Indicator(ReclaimOf(i));
    assert s'.db.ops == s'.db.ops[..n] + s'.db.ops[n..];
    SumConcat(s'.db.ops[..n], s'.db.ops[n..], f);
    forall k | 0 <= k < |s'.db.ops[n..]| ensures f(s'.db.ops[n..][k]) == 0 { assert !RemovalRow(s', i, n + k); }
    SumZero(s'.db.ops[n..], f);
    forall k | 0 <= k < n ensures f(s'.db.ops[..n][k]) == f(s.db.ops[k]) {
      assert OpEvolves(s.db.ops[k], s'.db.ops[k]);
    }
    SumSame(s'.db.ops[..n], s.db.ops, f);
  }

  // ---- steps of activities --------------------------------------------------------------------

  lemma EnqueueCounts(w: World, s: State, f: nat, reply: Reply, i: nat)
    requires f < |s.flights| && i < |s.db.sessions| && s.flights[f] == Failing(i, AtEnqueue)
    ensures Reclaims(AdvanceStep(w, s, f, reply).db.ops, i) == Reclaims(s.db.ops, i) + if Applied(reply) then 1 else 0
  {
    assert Enqueued([i], Work.DeleteUser, s.clock) == [Op(i, Work.DeleteUser, Queued, 0, s.clock)];
    SumPush(s.db.ops, Op(i, Work.DeleteUser, Queued, 0, s.clock), Indicator(ReclaimOf(i)));
  }

  /** The cleanup of session i comes to its enqueue, which is its last word on it. */
  lemma EnqueueStaysAtTwo(w: World, s: State, f: nat, reply: Reply, i: nat)
    requires Inv(w, s) && f < |s.flights| && s.flights[f] == Failing(i, AtEnqueue) && AtMostTwo(s, i)
    ensures AtMostTwo(AdvanceStep(w, s, f, reply), i)
  {
    assert FlightOk(w, s.db, s.clock, s.flights[f]);
    SumUpdate(s.flights, f, AdvanceStep(w, s, f, reply).flights[f], Indicator(MayReclaimOf(i)));
    EnqueueCounts(w, s, f, reply, i);
  }

  lemma OtherAdvanceQueuesNothing(w: World, s: State, f: nat, reply: Reply)
    requires f < |s.flights| && (s.flights[f].Failing? ==> !s.flights[f].fail.AtEnqueue?)
    ensures |AdvanceStep(w, s, f, reply).db.ops| == |s.db.ops|
  {
    match s.flights[f]
    case Displacing(_, _, _, _) =>
    case Failing(_, _) =>
    case Pushing(_, _, _, _) =>
    case Drainer(_, _) =>
    case _ =>
  }

  lemma AdvanceStaysAtTwo(w: World, s: State, f: nat, reply: Reply, i: nat)
    requires Inv(w, s) && f < |s.flights| && AtMostTwo(s, i) && Evolves(s.db, AdvanceStep(w, s, f, reply).db)
    ensures AtMostTwo(AdvanceStep(w, s, f, reply), i)
  {
    var s' := AdvanceStep(w, s, f, reply);
    if s.flights[f] == Failing(i, AtEnqueue) {
      EnqueueStaysAtTwo(w, s, f, reply, i);
    } else {
      if s.flights[f].MayReclaim(i) {
        OtherAdvanceQueuesNothing(w, s, f, reply);
      } else {
        AdvanceLeavesForgotten(w, s, f, reply, i);
      }
      AdvanceTouchesOneFlight(w, s, f, reply);
      NoNewRemovalCounts(s, s', i);
      NoNewClaimCounts(s, s', i);
    }
  }

  // ---- all other steps ---------------------------------------------------------------------------

  lemma ConnectClaimsItsOwn(w: World, s: State, f: nat, createdAt: int, order: seq<nat>, pick: Option<nat>, i: nat)
    requires i < |s.db.sessions|
    ensures NoNewClaim(s, CommitConnectStep(w, s, f, createdAt, order, pick), i)
  {}

  lemma VerifyRewardClaimsNothing(w: World, s: State, user: nat, grant: nat, session: nat, i: nat)
    ensures NoNewClaim(s, VerifyRewardStep(w, s, user, grant, session), i)
  {}

  lemma QuietStepClaimsNothing(w: World, s: State, a: Action, i: nat)
    requires !a.Advance? && i < |s.db.sessions|
    ensures NoNewClaim(s, Step(w, s, a), i)
  {
    match a
    case CommitConnect(f, createdAt, order, pick) => ConnectClaimsItsOwn(w, s, f, createdAt, order, pick, i);
    case VerifyReward(user, grant, session) => VerifyRewardClaimsNothing(w, s, user, grant, session, i);
    case _ =>
  }

  ghost predicate NotFailed(db: DB, i: nat)
  {
    i < |db.sessions| ==> !db.sessions[i].status.Failed?
  }

  lemma ConnectFailsNobody(w: World, s: State, f: nat, createdAt: int, order: seq<nat>, pick: Option<nat>, i: nat)
    requires i < |s.db.sessions| && NotFailed(s.db, i)
    ensures NotFailed(CommitConnectStep(w, s, f, createdAt, order, pick).db, i)
  {}

  lemma VerifyRewardFailsNobody(w: World, s: State, user: nat, grant: nat, session: nat, i: nat)
    requires NotFailed(s.db, i)
    ensures NotFailed(VerifyRewardStep(w, s, user, grant, session).db, i)
  {}

  /** Whoever closes a live session but its own connect marks it expired or revoked. */
  lemma QuietStepFailsNobody(w: World, s: State, a: Action, i: nat)
    requires !a.Advance? && i < |s.db.sessions| && NotFailed(s.db, i)
    ensures NotFailed(Step(w, s, a).db, i)
  {
    match a
    case CommitConnect(f, createdAt, order, pick) => ConnectFailsNobody(w, s, f, createdAt, order, pick, i);
    case VerifyReward(user, grant, session) => VerifyRewardFailsNobody(w, s, user, grant, session, i);
    case _ =>
  }

  lemma QuietStepStaysAtTwo(w: World, s: State, a: Action, i: nat)
    requires Inv(w, s) && !a.Advance? && i < |s.db.sessions| && AtMostTwo(s, i) && Kept(w, s, Step(w, s, a))
    ensures AtMostTwo(Step(w, s, a), i)
  {
    var s' := Step(w, s, a);
    QuietStepClaimsNothing(w, s, a, i);
    NoNewClaimCounts(s, s', i);
    if s.db.sessions[i].Live() {
      QuietStepFailsNobody(w, s, a, i);
      assert SessionOk(w.p, s'.db, i);
      if s'.db.sessions[i].Live() { LiveHasNoReclaim(w.p, s'.db, i); }
    } else {
      StepLeavesForgotten(w, s, a, i);
      NoNewRemovalCounts(s, s', i);
    }
  }

  /** A session starts with no removal, and with its own connect alone to clean up after it. */
  lemma BornWithNone(w: World, s: State, a: Action, i: nat)
    requires Inv(w, s) && |s.db.sessions| <= i < |Step(w, s, a).db.sessions| && Kept(w, s, Step(w, s, a))
    ensures AtMostTwo(Step(w, s, a), i)
  {
    OnlyConnectInserts(w, s, a);
    NobodyYet(w, s, i);
    ConnectLeavesOneClaimant(w, s, a.flight, a.createdAt, a.order, a.pick, i);
    LiveHasNoReclaim(w.p, Step(w, s, a).db, i);
  }

  lemma ConnectLeavesOneClaimant(w: World, s: State, f: nat, createdAt: int, order: seq<nat>, pick: Option<nat>, i: nat)
    requires Claimants(s, i) == 0
    requires |s.db.sessions| <= i < |CommitConnectStep(w, s, f, createdAt, order, pick).db.sessions|
    ensures var s' := CommitConnectStep(w, s, f, createdAt, order, pick);
            Claimants(s', i) <= 1 && s'.db.sessions[i].Live()
  {
    var s' := CommitConnectStep(w, s, f, createdAt, order, pick);
    SumUpdate(s.flights, f, s'.flights[f], Indicator(MayReclaimOf(i)));
  }

  // ---- whole runs -----------------------------------------------------------------------------------

  lemma StepStaysAtTwo(w: World, s: State, a: Action, i: nat)
    requires Inv(w, s) && AtMostTwo(s, i)
    ensures Inv(w, Step(w, s, a)) && AtMostTwo(Step(w, s, a), i)
  {
    StepKeeps(w, s, a);
    if |Step(w, s, a).db.sessions| <= i {
      NobodyYet(w, Step(w, s, a), i);
    } else if |s.db.sessions| <= i {
      BornWithNone(w, s, a, i);
    } else if !a.Advance? {
      QuietStepStaysAtTwo(w, s, a, i);
    } else if a.flight < |s.flights| {
      AdvanceStaysAtTwo(w, s, a.flight, a.reply, i);
    }
  }

  lemma {:induction false} RunStaysAtTwo(w: World, s: State, actions: seq<Action>, i: nat)
    requires Inv(w, s) && AtMostTwo(s, i)
    ensures AtMostTwo(Run(w, s, actions), i)
    decreases |actions|
  {
    if actions != [] {
      StepStaysAtTwo(w, s, actions[0], i);
      RunStaysAtTwo(w, Step(w, s, actions[0]), actions[1..], i);
    }
  }

  /** No session is ever asked to be removed a third time, and only a failed one a second time. */
  lemma AtMostTwoRemovals(w: World, s: State, i: nat)
    requires Reachable(w, s) && i < |s.db.sessions|
    ensures Reclaims(s.db.ops, i) <= 2
    ensures Reclaims(s.db.ops, i) == 2 ==> s.db.sessions[i].status.Failed? && NobodyReclaims(s, i)
  {
    var s0, actions :| Initial(w, s0) && s == Run(w, s0, actions);
    InitialSatisfies(w, s0);
    NobodyYet(w, s0, i);
    RunStaysAtTwo(w, s0, actions, i);
    SumNonNegative(s.flights, Indicator(MayReclaimOf(i)));
    RemovalsNameClosedSessionsOnce(w, s, i);
    if f :| 0 <= f < |s.flights| && s.flights[f].MayReclaim(i) {
      SumAtLeast(s.flights, f, Indicator(MayReclaimOf(i)));
    }
  }

  // ---- when no more will come -------------------------------------------------------------------------

  lemma {:induction false} RunQueuesNoMore(w: World, s: State, actions: seq<Action>, i: nat)
    requires Inv(w, s) && i < |s.db.sessions| && !s.db.sessions[i].Live() && NobodyReclaims(s, i)
    ensures Reclaims(Run(w, s, actions).db.ops, i) == Reclaims(s.db.ops, i)
    decreases |actions|
  {
    if actions != [] {
      var next := Step(w, s, actions[0]);
      StepKeeps(w, s, actions[0]);
      StepLeavesForgotten(w, s, actions[0], i);
      NoNewRemovalCounts(s, next, i);
      assert SessionEvolves(s.db.sessions[i], next.db.sessions[i]);
      RunQueuesNoMore(w, next, actions[1..], i);
    }
  }

  /** The reply that takes a connect one await nearer to its cleanup's enqueue. */
  function Onward(fl: Flight): Reply { if fl.Failing? then Returned else Threw(false, true) }

  lemma CleanupComesNearer(w: World, s: State, f: nat, i: nat)
    requires f < |s.flights| && s.flights[f].MayReclaim(i) && s.flights[f] != Failing(i, AtEnqueue)
    requires i < |s.db.sessions|
    ensures var s' := AdvanceStep(w, s, f, Onward(s.flights[f]));
            && |s'.db.ops| == |s.db.ops| && s'.flights[f].MayReclaim(i)
            && AwaitsLeft(s'.flights[f]) < AwaitsLeft(s.flights[f])
  {
    OtherAdvanceQueuesNothing(w, s, f, Onward(s.flights[f]));
  }

  /** A cleanup not yet past its enqueue can always still get there and add one. */
  lemma {:induction false} OneMoreCanCome(w: World, s: State, f: nat, i: nat) returns (actions: seq<Action>)
    requires Inv(w, s) && i < |s.db.sessions| && f < |s.flights| && s.flights[f].MayReclaim(i)
    ensures Reclaims(Run(w, s, actions).db.ops, i) == Reclaims(s.db.ops, i) + 1
    decreases AwaitsLeft(s.flights[f])
  {
    var reply := Onward(s.flights[f]);
    var next, later := Step(w, s, Advance(f, reply)), [];
    AdvanceAsStep(w, s, f, reply);
    if s.flights[f] == Failing(i, AtEnqueue) {
      EnqueueCounts(w, s, f, reply, i);
    } else {
      StepKeeps(w, s, Advance(f, reply));
      CleanupComesNearer(w, s, f, i);
      NoNewRemovalCounts(s, next, i);
      later := OneMoreCanCome(w, next, f, i);
    }
    actions := [Advance(f, reply)] + later;
    RunCons(w, s, Advance(f, reply), next, later);
  }

  lemma AdvanceAsStep(w: World, s: State, f: nat, reply: Reply)
    requires f < |s.flights|
    ensures Step(w, s, Advance(f, reply)) == AdvanceStep(w, s, f, reply)
  {}

  /** A closed session has had its last removal queued exactly when no connect has its cleanup still ahead. */
  lemma LastRemovalExactlyWhen(w: World, s: State, i: nat)
    requires Reachable(w, s) && i < |s.db.sessions| && !s.db.sessions[i].Live()
    ensures NobodyReclaims(s, i) <==> forall actions :: Reclaims(Run(w, s, actions).db.ops, i) == Reclaims(s.db.ops, i)
  {
    ReachableSatisfies(w, s);
    if NobodyReclaims(s, i) {
      forall actions ensures Reclaims(Run(w, s, actions).db.ops, i) == Reclaims(s.db.ops, i) {
        RunQueuesNoMore(w, s, actions, i);
      }
    } else {
      var f :| 0 <= f < |s.flights| && s.flights[f].MayReclaim(i);
      var actions := OneMoreCanCome(w, s, f, i);
    }
  }
}
