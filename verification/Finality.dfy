/**
 * When a status is final, a held row undisturbed and a session forgotten: for each, the exact
 * condition on the activities in progress.
 */
module Finality {
  import opened Prelude
  import opened Sums
  import opened Rows
  import opened Tables
  import opened Panel
  import opened Protocol
  import opened Safety
  import opened Guarantees
  import opened Progress
  import Connection
  import Outbox

  // ---- who writes a row of the queue ----------------------------------------------------------

  /**
   * A row that is not due changes by no other step than one of an activity that names it, and
   * nobody new comes to name it.
   */
  ghost predicate LeavesRow(s: State, s': State, k: nat)
  {
    && k < |s.db.ops| <= |s'.db.ops| && s'.db.ops[k] == s.db.ops[k]
    && forall g | 0 <= g < |s'.flights| && s'.flights[g].Names(k) ::
         g < |s.flights| && s.flights[g].Names(k) && (s'.flights[g].Pushes(k) ==> s.flights[g].Pushes(k))
  }

  lemma ClaimLeavesRow(w: World, s: State, picked: seq<nat>, k: nat)
    requires k < |s.db.ops| && !Outbox.Due(s.clock)(s.db.ops[k])
    ensures LeavesRow(s, ClaimWorkStep(w, s, picked), k)
  {}

  lemma VerifyRewardLeavesRow(w: World, s: State, user: nat, grant: nat, session: nat, k: nat)
    requires k < |s.db.ops|
    ensures LeavesRow(s, VerifyRewardStep(w, s, user, grant, session), k)
  {}

  lemma ConnectLeavesRow(w: World, s: State, f: nat, createdAt: int, order: seq<nat>, pick: Option<nat>, k: nat)
    requires k < |s.db.ops|
    ensures LeavesRow(s, CommitConnectStep(w, s, f, createdAt, order, pick), k)
  {}

  /** Steps that launch nothing and only append to the queue. */
  lemma AppendLeavesRow(s: State, s': State, k: nat)
    requires k < |s.db.ops| && s.db.ops <= s'.db.ops && s'.flights == s.flights
    ensures LeavesRow(s, s', k)
  {}

  lemma AdminLeavesRow(w: World, s: State, a: Action, k: nat)
    requires a.Kick? || a.Ban? || a.Unban? || a.Panic? || a.Migrate? || a.SetNodeActive? || a.SyncNode? || a.Sweep?
    requires k < |s.db.ops|
    ensures LeavesRow(s, Step(w, s, a), k)
  {
    AppendLeavesRow(s, Step(w, s, a), k);
  }

  lemma OtherStepsLeaveRow(w: World, s: State, a: Action, k: nat)
    requires !a.Advance? && k < |s.db.ops| && !Outbox.Due(s.clock)(s.db.ops[k])
    ensures LeavesRow(s, Step(w, s, a), k)
  {
    match a
    case CommitConnect(f, createdAt, order, pick) => ConnectLeavesRow(w, s, f, createdAt, order, pick, k);
    case VerifyReward(user, grant, session) => VerifyRewardLeavesRow(w, s, user, grant, session, k);
    case ClaimWork(picked) => ClaimLeavesRow(w, s, picked, k);
    case Wait(_) => AppendLeavesRow(s, Step(w, s, a), k);
    case RequestToken(_, _, _, _) => AppendLeavesRow(s, Step(w, s, a), k);
    case SsvCallback(_, _) => AppendLeavesRow(s, Step(w, s, a), k);
    case ReadPlan(_, _, _, _) =>
    case Crash(_) =>
    case _ => AdminLeavesRow(w, s, a, k);
  }

  /** The row is out of reach of flight f: not its own to write, or succeeded and not being pushed by it. */
  predicate OutOfReach(s: State, f: nat, k: nat)
    requires f < |s.flights| && k < |s.db.ops|
  {
    || (s.db.ops[k].status.InFlight? && !s.flights[f].Names(k))
    || (s.db.ops[k].status.Succeeded? && !s.flights[f].Pushes(k))
  }

  lemma DisplaceLeavesRow(w: World, s: State, f: nat, j: nat, ms: int, todo: seq<nat>, stage: DisplaceStage,
                          reply: Reply, k: nat)
    requires f < |s.flights| && s.flights[f] == Displacing(j, ms, todo, stage)
    requires k < |s.db.ops| && OutOfReach(s, f, k)
    ensures LeavesRow(s, DisplaceStep(w, s, f, j, ms, todo, stage, reply), k)
  {}

  lemma PushLeavesRow(w: World, s: State, f: nat, q: nat, j: nat, ms: int, stage: PushStage, reply: Reply, k: nat)
    requires f < |s.flights| && s.flights[f] == Pushing(q, j, ms, stage)
    requires k < |s.db.ops| && OutOfReach(s, f, k)
    ensures LeavesRow(s, PushStep(w, s, f, q, j, ms, stage, reply), k)
  {}

  lemma DrainLeavesRow(w: World, s: State, f: nat, held: seq<Held>, stage: DrainStage, reply: Reply, k: nat)
    requires f < |s.flights| && s.flights[f] == Drainer(held, stage) && held != []
    requires k < |s.db.ops| && OutOfReach(s, f, k)
    ensures LeavesRow(s, DrainStep(w, s, f, held, stage, reply), k)
  {
    assert forall j | 0 <= j < |held[1..]| :: held[1..][j] == held[j + 1];
    assert s.db.ops[k].status.InFlight? ==> held[0].op != k;
  }

  lemma AdvanceLeavesRow(w: World, s: State, f: nat, reply: Reply, k: nat)
    requires f < |s.flights| && k < |s.db.ops| && OutOfReach(s, f, k)
    ensures LeavesRow(s, AdvanceStep(w, s, f, reply), k)
  {
    match s.flights[f]
    case Displacing(j, ms, todo, stage) => DisplaceLeavesRow(w, s, f, j, ms, todo, stage, reply, k);
    case Pushing(q, j, ms, stage) => PushLeavesRow(w, s, f, q, j, ms, stage, reply, k);
    case Drainer(held, stage) => if held != [] { DrainLeavesRow(w, s, f, held, stage, reply, k); }
    case _ =>
  }

  /** Only flight f moves, and no time passes. */
  predicate OnlyBy(actions: seq<Action>, f: nat)
  {
    forall j | 0 <= j < |actions| :: actions[j].Advance? && actions[j].flight == f
  }

  lemma ThenBy(w: World, s: State, f: nat, reply: Reply, later: seq<Action>) returns (actions: seq<Action>)
    requires f < |s.flights| && OnlyBy(later, f)
    ensures OnlyBy(actions, f) && Run(w, s, actions) == Run(w, AdvanceStep(w, s, f, reply), later)
  {
    actions := [Advance(f, reply)] + later;
    RunCons(w, s, Advance(f, reply), AdvanceStep(w, s, f, reply), later);
  }

  /** An inline push can always still end in its failure write. */
  lemma PushCanReopen(w: World, s: State, f: nat, k: nat) returns (actions: seq<Action>)
    requires f < |s.flights| && s.flights[f].Pushes(k) && k < |s.db.ops|
    ensures OnlyBy(actions, f)
    ensures var s' := Run(w, s, actions); s'.clock == s.clock && k < |s'.db.ops| && s'.db.ops[k].status.Retrying?
  {
    if s.flights[f].push.AtMarkUnpushed? {
      actions := ThenBy(w, s, f, Returned, []);
    } else {
      var failed := AdvanceStep(w, s, f, Threw(false, true));
      var later := ThenBy(w, failed, f, Returned, []);
      actions := ThenBy(w, s, f, Threw(false, true), later);
    }
  }

  /** The reply that brings a drainer nearest to its next status write. */
  function Hurried(stage: DrainStage): Reply
  {
    if stage.AtDispatch? || stage.AtDeleteUser? then Threw(false, true) else Returned
  }

  /** Short of writing row k, that reply leaves the drainer holding it, and nearer to it. */
  lemma DrainerComesNearer(w: World, s: State, f: nat, held: seq<Held>, stage: DrainStage, k: nat)
    requires Inv(w, s) && f < |s.flights| && s.flights[f] == Drainer(held, stage) && s.flights[f].Holds(k)
    requires k < |s.db.ops| && s.db.ops[k].status.InFlight? && (Hurried(stage).Returned? ==> held[0].op != k)
    ensures var next := AdvanceStep(w, s, f, Hurried(stage));
            && next.clock == s.clock && |next.db.ops| == |s.db.ops| && next.db.ops[k].status.InFlight?
            && next.flights[f].Holds(k)
            && if Hurried(stage).Returned? then next.flights[f] == Drainer(held[1..], AtDispatch)
               else next.flights[f].held == held && next.flights[f].drain.AtMarkUndelivered?
  {
    assert FlightOk(w, s.db, s.clock, s.flights[f]);
    if Hurried(stage).Returned? {
      var j :| 0 <= j < |held| && held[j].op == k;
      assert held[1..][j - 1].op == k;
    }
  }

  /** A drainer can always still write the status of a row it holds. */
  lemma {:induction false} HolderCanWrite(w: World, s: State, f: nat, k: nat) returns (actions: seq<Action>)
    requires Inv(w, s) && f < |s.flights| && s.flights[f].Holds(k) && k < |s.db.ops| && s.db.ops[k].status.InFlight?
    ensures OnlyBy(actions, f)
    ensures var s' := Run(w, s, actions); s'.clock == s.clock && k < |s'.db.ops| && !s'.db.ops[k].status.InFlight?
    decreases |s.flights[f].held|, if s.flights[f].drain.AtDispatch? || s.flights[f].drain.AtDeleteUser? then 1 else 0
  {
    var held, stage := s.flights[f].held, s.flights[f].drain;
    var later := [];
    if Hurried(stage).Threw? || held[0].op != k {
      DrainerComesNearer(w, s, f, held, stage, k);
      AdvanceKeeps(w, s, f, Hurried(stage));
      later := HolderCanWrite(w, AdvanceStep(w, s, f, Hurried(stage)), f, k);
    }
    actions := ThenBy(w, s, f, Hurried(stage), later);
  }

  // ---- succeeded, for good or not -----------------------------------------------------------------

  ghost predicate NobodyPushes(s: State, k: nat)
  {
    forall f | 0 <= f < |s.flights| :: !s.flights[f].Pushes(k)
  }

  lemma StepKeepsSuccess(w: World, s: State, a: Action, k: nat)
    requires k < |s.db.ops| && s.db.ops[k].status.Succeeded? && NobodyPushes(s, k)
    ensures k < |Step(w, s, a).db.ops| && Step(w, s, a).db.ops[k].status.Succeeded? && NobodyPushes(Step(w, s, a), k)
  {
    if !a.Advance? {
      OtherStepsLeaveRow(w, s, a, k);
    } else if a.flight < |s.flights| {
      AdvanceLeavesRow(w, s, a.flight, a.reply, k);
    }
  }

  lemma {:induction false} RunKeepsSuccess(w: World, s: State, actions: seq<Action>, k: nat)
    requires k < |s.db.ops| && s.db.ops[k].status.Succeeded? && NobodyPushes(s, k)
    ensures k < |Run(w, s, actions).db.ops| && Run(w, s, actions).db.ops[k].status.Succeeded?
    decreases |actions|
  {
    if actions != [] {
      StepKeepsSuccess(w, s, actions[0], k);
      RunKeepsSuccess(w, Step(w, s, actions[0]), actions[1..], k);
    }
  }

  ghost predicate SucceededIn(w: World, s: State, actions: seq<Action>, k: nat)
  {
    k < |Run(w, s, actions).db.ops| && Run(w, s, actions).db.ops[k].status.Succeeded?
  }

  /** A succeeded operation is succeeded in every future exactly when no inline push of it is in progress. */
  lemma SuccessIsFinalExactlyWhen(w: World, s: State, k: nat)
    requires k < |s.db.ops| && s.db.ops[k].status.Succeeded?
    ensures NobodyPushes(s, k) <==> forall actions :: SucceededIn(w, s, actions, k)
  {
    if NobodyPushes(s, k) {
      forall actions ensures SucceededIn(w, s, actions, k) { RunKeepsSuccess(w, s, actions, k); }
    } else {
      var f :| 0 <= f < |s.flights| && s.flights[f].Pushes(k);
      var actions := PushCanReopen(w, s, f, k);
      assert !SucceededIn(w, s, actions, k);
    }
  }

  // ---- held under a lease ----------------------------------------------------------------------------

  ghost predicate NobodyElseNames(s: State, g: nat, k: nat)
  {
    forall f | 0 <= f < |s.flights| && f != g :: !s.flights[f].Names(k)
  }

  /** Whatever others do; the holder itself may at most be lost. */
  predicate NotBy(actions: seq<Action>, g: nat)
  {
    forall j | 0 <= j < |actions| :: !(actions[j].Advance? && actions[j].flight == g)
  }

  lemma StepLeavesHeldRow(w: World, s: State, a: Action, g: nat, k: nat)
    requires g < |s.flights| && k < |s.db.ops| && s.db.ops[k].status.InFlight? && s.clock < s.db.ops[k].nextAt
    requires NobodyElseNames(s, g, k) && !(a.Advance? && a.flight == g)
    ensures LeavesRow(s, Step(w, s, a), k) && NobodyElseNames(Step(w, s, a), g, k)
  {
    if !a.Advance? {
      OtherStepsLeaveRow(w, s, a, k);
    } else if a.flight < |s.flights| {
      AdvanceLeavesRow(w, s, a.flight, a.reply, k);
    }
  }

  lemma FlightsStay(w: World, s: State, a: Action)
    ensures |s.flights| <= |Step(w, s, a).flights|
  {}

  lemma {:induction false} RunLeavesHeldRow(w: World, s: State, actions: seq<Action>, g: nat, k: nat)
    requires Inv(w, s) && g < |s.flights| && k < |s.db.ops| && s.db.ops[k].status.InFlight?
    requires NobodyElseNames(s, g, k) && NotBy(actions, g) && Run(w, s, actions).clock < s.db.ops[k].nextAt
    ensures k < |Run(w, s, actions).db.ops| && Run(w, s, actions).db.ops[k] == s.db.ops[k]
    decreases |actions|
  {
    if actions != [] {
      var a, next := actions[0], Step(w, s, actions[0]);
      StepKeeps(w, s, a);
      RunKeeps(w, next, actions[1..]);
      StepLeavesHeldRow(w, s, a, g, k);
      FlightsStay(w, s, a);
      assert forall j | 0 <= j < |actions[1..]| :: actions[1..][j] == actions[j + 1];
      RunLeavesHeldRow(w, next, actions[1..], g, k);
    }
  }

  /** By others, and before the lease of row k ends, the row is rewritten. */
  ghost predicate Rewritten(w: World, s: State, actions: seq<Action>, g: nat, k: nat)
    requires k < |s.db.ops|
  {
    var s' := Run(w, s, actions);
    && NotBy(actions, g) && s'.clock < s.db.ops[k].nextAt
    && !(k < |s'.db.ops| && s'.db.ops[k] == s.db.ops[k])
  }

  /**
   * A row in flight under a running lease can be rewritten by somebody other than its holder
   * before the lease ends exactly when another activity names it: a drainer that held it before,
   * or an inline push of it.
   */
  lemma LeaseProtectsExactlyWhen(w: World, s: State, g: nat, k: nat)
    requires Reachable(w, s) && g < |s.flights| && s.flights[g].Holds(k)
    requires k < |s.db.ops| && s.db.ops[k].status.InFlight? && s.clock < s.db.ops[k].nextAt
    ensures NobodyElseNames(s, g, k) <==> forall actions :: !Rewritten(w, s, actions, g, k)
  {
    ReachableSatisfies(w, s);
    if NobodyElseNames(s, g, k) {
      forall actions ensures !Rewritten(w, s, actions, g, k) {
        if NotBy(actions, g) && Run(w, s, actions).clock < s.db.ops[k].nextAt {
          RunLeavesHeldRow(w, s, actions, g, k);
        }
      }
    } else {
      var f :| 0 <= f < |s.flights| && f != g && s.flights[f].Names(k);
      var actions;
      if s.flights[f].Pushes(k) {
        actions := PushCanReopen(w, s, f, k);
      } else {
        actions := HolderCanWrite(w, s, f, k);
      }
      assert Rewritten(w, s, actions, g, k);
    }
  }

  // ---- forgotten -----------------------------------------------------------------------------------------

  /** No operation to remove session i was ever queued. */
  ghost predicate NoRemoval(s: State, i: nat)
  {
    forall k | 0 <= k < |s.db.ops| :: !RemovalRow(s, i, k)
  }

  ghost predicate NobodyReclaims(s: State, i: nat)
  {
    forall f | 0 <= f < |s.flights| :: !s.flights[f].MayReclaim(i)
  }

  /** The step queues no removal of session i, and leaves nobody to whom that would fall. */
  ghost predicate LeavesForgotten(s: State, s': State, i: nat)
  {
    && |s.db.ops| <= |s'.db.ops|
    && (forall k | |s.db.ops| <= k < |s'.db.ops| :: !RemovalRow(s', i, k))
    && forall g | 0 <= g < |s'.flights| && s'.flights[g].MayReclaim(i) :: g < |s.flights| && s.flights[g].MayReclaim(i)
  }

  lemma ClosingLeavesForgotten(s: State, s': State, ids: seq<nat>, status: SessionStatus, work: Work, i: nat)
    requires i !in ids && s'.flights == s.flights && s'.db.ops == s.db.ops + Enqueued(ids, work, s.clock)
    ensures LeavesForgotten(s, s', i)
  {
    forall k | |s.db.ops| <= k < |s'.db.ops| ensures s'.db.ops[k].session in ids {
      assert s'.db.ops[k].session == ids[k - |s.db.ops|];
    }
  }

  lemma CloserLeavesForgotten(w: World, s: State, a: Action, i: nat)
    requires i < |s.db.sessions| && !s.db.sessions[i].Live()
    requires a.Sweep? || a.Ban? || a.Panic? || a.Migrate? || a.Kick?
    ensures LeavesForgotten(s, Step(w, s, a), i)
  {
    var s' := Step(w, s, a);
    if s'.db.ops != s.db.ops {
      match a
      case Sweep(picked) => ClosingLeavesForgotten(s, s', picked, Expired, Work.DeleteUser, i);
      case Kick(j) => ClosingLeavesForgotten(s, s', [j], Revoked, RevokeUser, i);
      case Ban(_, ids) => ClosingLeavesForgotten(s, s', ids, Revoked, RevokeUser, i);
      case Panic(ids) => ClosingLeavesForgotten(s, s', ids, Revoked, RevokeUser, i);
      case Migrate(_, ids) => ClosingLeavesForgotten(s, s', ids, Revoked, RevokeUser, i);
    }
  }

  lemma ConnectLeavesForgotten(w: World, s: State, f: nat, createdAt: int, order: seq<nat>, pick: Option<nat>, i: nat)
    requires i < |s.db.sessions| && !s.db.sessions[i].Live()
    ensures LeavesForgotten(s, CommitConnectStep(w, s, f, createdAt, order, pick), i)
  {
    var s' := CommitConnectStep(w, s, f, createdAt, order, pick);
    if s'.db.ops != s.db.ops {
      var evicted := order[..Connection.Overflow(|order|, s.flights[f].plan.maxConcurrent)];
      assert forall j | 0 <= j < |evicted| :: evicted[j] == order[j];
      assert s'.db.ops == s.db.ops + Enqueued(evicted, RevokeUser, s.clock);
      ClosingLeavesForgotten(s, s'.(flights := s.flights), evicted, Revoked, RevokeUser, i);
    }
  }

  lemma AdvanceLeavesForgotten(w: World, s: State, f: nat, reply: Reply, i: nat)
    requires f < |s.flights| && !s.flights[f].MayReclaim(i)
    ensures LeavesForgotten(s, AdvanceStep(w, s, f, reply), i)
  {
    match s.flights[f]
    case Displacing(j, ms, todo, stage) =>
    case Failing(j, stage) =>
    case Pushing(_, _, _, _) =>
    case Drainer(_, _) =>
    case _ =>
  }

  lemma StepLeavesForgotten(w: World, s: State, a: Action, i: nat)
    requires i < |s.db.sessions| && !s.db.sessions[i].Live()
    requires a.Advance? && a.flight < |s.flights| ==> !s.flights[a.flight].MayReclaim(i)
    ensures LeavesForgotten(s, Step(w, s, a), i)
  {
    if a.Advance? {
      if a.flight < |s.flights| { AdvanceLeavesForgotten(w, s, a.flight, a.reply, i); }
    } else if a.CommitConnect? {
      ConnectLeavesForgotten(w, s, a.flight, a.createdAt, a.order, a.pick, i);
    } else if a.Sweep? || a.Ban? || a.Panic? || a.Migrate? || a.Kick? {
      CloserLeavesForgotten(w, s, a, i);
    }
  }

  lemma {:induction false} RunLeavesForgotten(w: World, s: State, actions: seq<Action>, i: nat)
    requires Inv(w, s) && i < |s.db.sessions| && !s.db.sessions[i].Live() && NobodyReclaims(s, i) && NoRemoval(s, i)
    ensures NoRemoval(Run(w, s, actions), i)
    decreases |actions|
  {
    if actions != [] {
      var next := Step(w, s, actions[0]);
      StepKeeps(w, s, actions[0]);
      StepLeavesForgotten(w, s, actions[0], i);
      assert SessionEvolves(s.db.sessions[i], next.db.sessions[i]);
      forall k | 0 <= k < |next.db.ops| ensures !RemovalRow(next, i, k) {
        assert k < |s.db.ops| ==> OpEvolves(s.db.ops[k], next.db.ops[k]) && !RemovalRow(s, i, k);
      }
      RunLeavesForgotten(w, next, actions[1..], i);
    }
  }

  /** How many awaits lie between an activity and the removal it may still queue. */
  function AwaitsLeft(fl: Flight): nat
  {
    match fl
    case Displacing(_, _, todo, _) => 5 + |todo|
    case Creating(_, _) => 4
    case Checking(_, _) => 3
    case Failing(_, stage) => if stage.AtMarkFailed? then 2 else if stage.AtEnqueue? then 1 else 0
    case _ => 0
  }

  /** An activity that may still queue the removal of session i can always get there. */
  lemma {:induction false} CleanupCanStillCome(w: World, s: State, f: nat, i: nat) returns (actions: seq<Action>)
    requires i < |s.db.sessions| && f < |s.flights| && s.flights[f].MayReclaim(i)
    ensures !NoRemoval(Run(w, s, actions), i)
    decreases AwaitsLeft(s.flights[f])
  {
    var reply := if s.flights[f].Failing? then Returned else Threw(false, true);
    var next := AdvanceStep(w, s, f, reply);
    var later := [];
    if s.flights[f].Failing? && s.flights[f].fail.AtEnqueue? {
      assert RemovalRow(next, i, |s.db.ops|);
    } else {
      later := CleanupCanStillCome(w, next, f, i);
    }
    actions := [Advance(f, reply)] + later;
    RunCons(w, s, Advance(f, reply), next, later);
  }

  /**
   * A closed session without a removal is a failed one; and it is forgotten for good, no removal
   * of it queued in any future, exactly when no connect has the cleanup of it still ahead.
   */
  lemma ForgottenExactlyWhen(w: World, s: State, i: nat)
    requires Reachable(w, s) && i < |s.db.sessions| && !s.db.sessions[i].Live() && NoRemoval(s, i)
    ensures s.db.sessions[i].status == SessionStatus.Failed
    ensures NobodyReclaims(s, i) <==> forall actions :: NoRemoval(Run(w, s, actions), i)
  {
    ReachableSatisfies(w, s);
    RemovalsNameClosedSessionsOnce(w, s, i);
    SumZeroFor(s, i);
    if NobodyReclaims(s, i) {
      forall actions ensures NoRemoval(Run(w, s, actions), i) { RunLeavesForgotten(w, s, actions, i); }
    } else {
      var f :| 0 <= f < |s.flights| && s.flights[f].MayReclaim(i);
      var actions := CleanupCanStillCome(w, s, f, i);
    }
  }

  lemma SumZeroFor(s: State, i: nat)
    requires NoRemoval(s, i)
    ensures Reclaims(s.db.ops, i) == 0
  {
    forall k | 0 <= k < |s.db.ops| ensures !ReclaimOf(i)(s.db.ops[k]) { assert !RemovalRow(s, i, k); }
    SumZero(s.db.ops, Indicator(ReclaimOf(i)));
  }

  // ---- removed, for good or not ----------------------------------------------------------------------------

  /** Replies under which everything asked for is done. */
  function Willing(at: int): Outbox.Attempt { Outbox.Attempt(Returned, Returned, Returned, Returned, at) }

  /** Row k has become a succeeded removal of i, and the first n activities have not moved. */
  ghost predicate RemovedBesides(s: State, s': State, n: nat, i: nat, k: nat)
  {
    && RemovalRow(s', i, k) && s'.db.ops[k].status.Succeeded?
    && n <= |s.flights| && n <= |s'.flights| && forall f | 0 <= f < n :: s'.flights[f] == s.flights[f]
  }

  lemma HeldRemovalCanSucceed(w: World, s: State, f: nat, held: seq<Held>, i: nat) returns (actions: seq<Action>)
    requires AtRow(s, f, held, AtDispatch) && RemovalRow(s, i, held[0].op) && s.db.ops[held[0].op].status.InFlight?
    ensures RemovedBesides(s, Run(w, s, actions), f, i, held[0].op)
  {
    DispatchIsARun(w, s, f, held, Willing(s.clock));
    actions := Advances(f, Replies(w.panel, s.users, s.db.ops[held[0].op], Willing(s.clock)));
  }

  /** A claim of row k alone. */
  function Taken(w: World, s: State, k: nat): Op
    requires k < |s.db.ops|
  {
    s.db.ops[k].(status := InFlight, attempts := s.db.ops[k].attempts + 1, nextAt := s.clock + w.p.leaseMs)
  }

  function WithTaken(w: World, s: State, k: nat): State
    requires k < |s.db.ops|
  {
    s.(db := s.db.(ops := s.db.ops[k := Taken(w, s, k)]),
       flights := s.flights + [Drainer([Held(k, Taken(w, s, k).attempts)], AtDispatch)])
  }

  lemma ClaimOfOne(w: World, s: State, k: nat)
    requires w.p.Valid() && k < |s.db.ops| && Outbox.Due(s.clock)(s.db.ops[k])
    ensures Step(w, s, ClaimWork([k])) == WithTaken(w, s, k)
  {
    TakenAlone(w, s, k, [k]);
    StepClaims(w, s, [k]);
  }

  lemma TakenAlone(w: World, s: State, k: nat, picked: seq<nat>)
    requires w.p.Valid() && k < |s.db.ops| && Outbox.Due(s.clock)(s.db.ops[k]) && picked == [k]
    ensures ClaimWorkStep(w, s, picked) == WithTaken(w, s, k)
  {
    var ops := Outbox.ClaimOps(s.db.ops, picked, s.clock, w.p.leaseMs);
    RowTaken(w, s, k, picked);
    assert HeldRows(ops, picked) == [Held(k, ops[k].attempts)];
  }

  lemma RowTaken(w: World, s: State, k: nat, picked: seq<nat>)
    requires k < |s.db.ops| && picked == [k]
    ensures Outbox.ClaimOps(s.db.ops, picked, s.clock, w.p.leaseMs) == s.db.ops[k := Taken(w, s, k)]
  {}

  lemma DueRemovalCanSucceed(w: World, s: State, i: nat, k: nat) returns (actions: seq<Action>)
    requires w.p.Valid() && RemovalRow(s, i, k) && Outbox.Due(s.clock)(s.db.ops[k])
    ensures RemovedBesides(s, Run(w, s, actions), |s.flights|, i, k)
  {
    var claimed := WithTaken(w, s, k);
    ClaimOfOne(w, s, k);
    var later := HeldRemovalCanSucceed(w, claimed, |s.flights|, [Held(k, Taken(w, s, k).attempts)], i);
    RunCons(w, s, ClaimWork([k]), claimed, later);
    actions := [ClaimWork([k])] + later;
  }

  /** An open removal can always still succeed, whoever else is about. */
  lemma RemovalCanSucceed(w: World, s: State, i: nat, k: nat) returns (actions: seq<Action>)
    requires w.p.Valid() && RemovalRow(s, i, k) && s.db.ops[k].status.Open()
    ensures RemovedBesides(s, Run(w, s, actions), |s.flights|, i, k)
  {
    var clock := Max(s.clock, s.db.ops[k].nextAt);
    var due := s.(clock := clock);
    var later := DueRemovalCanSucceed(w, due, i, k);
    actions := AfterWait(w, s, clock, later, Run(w, due, later));
  }

  /** With a createUser ahead, a removal that is not dead can come to be succeeded and its user present. */
  lemma RemovalCanBeMissed(w: World, s: State, i: nat, k: nat) returns (actions: seq<Action>)
    requires Inv(w, s) && i < |s.db.sessions| && RemovalRow(s, i, k) && !s.db.ops[k].status.Dead? && !CreateIsOver(s, i)
    ensures !GoneIfSucceeded(w, s, actions, i, k)
  {
    var f :| 0 <= f < |s.flights| && s.flights[f].WillCreate(i);
    var first := [];
    if s.db.ops[k].status.Open() {
      first := RemovalCanSucceed(w, s, i, k);
    }
    var mid := Run(w, s, first);
    RunKeeps(w, s, first);
    var later := CreateCanStillCome(w, mid, f, i);
    RunKeeps(w, mid, later);
    assert OpEvolves(mid.db.ops[k], Run(w, mid, later).db.ops[k]);
    RunConcat(w, s, first, later);
    actions := first + later;
  }

  ghost predicate GoneIfSucceeded(w: World, s: State, actions: seq<Action>, i: nat, k: nat)
  {
    var s' := Run(w, s, actions);
    k < |s'.db.ops| && (s'.db.ops[k].status.Succeeded? ==> i !in s'.users)
  }

  /** A drainer past its calls for row k can still report it succeeded, once the row is in flight again. */
  lemma DrainerCanReport(w: World, s: State, f: nat, i: nat, k: nat) returns (actions: seq<Action>)
    requires w.p.Valid() && RemovalRow(s, i, k) && s.db.ops[k].status.Open() && i in s.users
    requires f < |s.flights| && s.flights[f].Drainer? && s.flights[f].CanReport(s.db.ops[k], i, k)
    ensures !GoneIfSucceeded(w, s, actions, i, k)
  {
    if s.db.ops[k].status.InFlight? {
      actions := ThenBy(w, s, f, Returned, []);
    } else {
      var clock := Max(s.clock, s.db.ops[k].nextAt);
      var due := s.(clock := clock);
      var claimed := WithTaken(w, due, k);
      var later := ThenBy(w, claimed, f, Returned, []);
      ClaimOfOne(w, due, k);
      RunCons(w, due, ClaimWork([k]), claimed, later);
      actions := AfterWait(w, s, clock, [ClaimWork([k])] + later, Run(w, claimed, later));
    }
  }

  /** What is missed can come to be, or already is, reported as done. */
  lemma MissedCanBeReported(w: World, s: State, i: nat, k: nat) returns (actions: seq<Action>)
    requires w.p.Valid() && RemovalRow(s, i, k) && !NothingMissed(s, i, k) && !s.db.ops[k].status.Dead?
    ensures !GoneIfSucceeded(w, s, actions, i, k)
  {
    if s.db.ops[k].status.Succeeded? {
      actions := [];
    } else {
      var f :| 0 <= f < |s.flights| && s.flights[f].CanReport(s.db.ops[k], i, k);
      if s.flights[f].Drainer? {
        actions := DrainerCanReport(w, s, f, i, k);
      } else {
        actions := ThenBy(w, s, f, Returned, []);
      }
    }
  }

  /**
   * In every future a succeeded removal means that its user is gone exactly when createUser is
   * behind every activity and a user still present has not been missed, nor is about to be; or
   * when the removal has been given up.
   */
  lemma RemovalIsFinalExactlyWhen(w: World, s: State, i: nat, k: nat)
    requires Reachable(w, s) && i < |s.db.sessions| && RemovalRow(s, i, k)
    ensures (CreateIsOver(s, i) && NothingMissed(s, i, k)) || s.db.ops[k].status.Dead?
       <==> forall actions :: GoneIfSucceeded(w, s, actions, i, k)
  {
    ReachableSatisfies(w, s);
    if (CreateIsOver(s, i) && NothingMissed(s, i, k)) || s.db.ops[k].status.Dead? {
      forall actions ensures GoneIfSucceeded(w, s, actions, i, k) {
        RunKeeps(w, s, actions);
        assert OpEvolves(s.db.ops[k], Run(w, s, actions).db.ops[k]);
        if !s.db.ops[k].status.Dead? { RunSettles(w, s, actions, i, k); }
      }
    } else if !CreateIsOver(s, i) {
      var actions := RemovalCanBeMissed(w, s, i, k);
    } else {
      var actions := MissedCanBeReported(w, s, i, k);
    }
  }

  // ---- everybody reclaimed -----------------------------------------------------------------------------------

  lemma StepKeepsCreateOver(w: World, s: State, a: Action, i: nat)
    requires Inv(w, s) && CreateIsOver(s, i)
    ensures CreateIsOver(Step(w, s, a), i)
  {
    StepKeeps(w, s, a);
    if a.Advance? {
      if a.flight < |s.flights| {
        AdvanceTouchesOneFlight(w, s, a.flight, a.reply);
        AdvanceStaysOver(w, s, a.flight, a.reply, i);
      }
    } else {
      StepIsQuiet(w, s, a, i);
    }
  }

  lemma AdvanceStaysOver(w: World, s: State, f: nat, reply: Reply, i: nat)
    requires f < |s.flights| && !s.flights[f].WillCreate(i)
    ensures !AdvanceStep(w, s, f, reply).flights[f].WillCreate(i)
  {
    match s.flights[f]
    case Displacing(_, _, _, _) =>
    case Failing(_, _) =>
    case Pushing(_, _, _, _) =>
    case Drainer(_, _) =>
    case _ =>
  }

  lemma {:induction false} RunKeepsCreateOver(w: World, s: State, actions: seq<Action>, i: nat)
    requires Inv(w, s) && CreateIsOver(s, i)
    ensures CreateIsOver(Run(w, s, actions), i)
    decreases |actions|
  {
    if actions != [] {
      StepKeeps(w, s, actions[0]);
      StepKeepsCreateOver(w, s, actions[0], i);
      RunKeepsCreateOver(w, Step(w, s, actions[0]), actions[1..], i);
    }
  }

  /** Every attempt at a removal finds panel and database willing. */
  ghost predicate RemovalsAccepted(s: State, ticks: seq<Outbox.Tick>)
  {
    forall k | 0 <= k < |s.db.ops| && s.db.ops[k].work.Reclaims() :: Outbox.RowAccepted(ticks, k)
  }

  /** The session is closed for good, and some removal of it is still open. */
  ghost predicate AwaitsRemoval(s: State, i: nat)
  {
    i < |s.db.sessions| && !s.db.sessions[i].Live() && !Outbox.NothingOpenFor(s.db.ops, i)
  }

  /**
   * With the panel accepting removals, a worker has, after as many rounds as its budget, at
   * whatever pace it ticks, rid the panel of exactly the users whose removal was open; and those
   * whose createUser is over stay away in every future.
   */
  lemma DrainingReclaims(w: World, s: State, ticks: seq<Outbox.Tick>, from: int) returns (actions: seq<Action>)
    requires Reachable(w, s) && Outbox.TicksOk(w.p, w.panel, Queue(s), ticks) && OneByOne(ticks, s.clock)
    requires Outbox.OpenDueBy(s.db.ops, from) && RemovalsAccepted(s, ticks)
    requires Outbox.Budget(w.p, s.db.ops) <= Outbox.Rounds(w.p, ticks, from)
    ensures var s' := Run(w, s, actions);
            && s'.db == s.db.(ops := s'.db.ops) && Outbox.Closed(s'.db.ops)
            && (forall i :: i in s'.users <==> i in s.users && Outbox.NothingOpenFor(s.db.ops, i))
            && forall i, later | AwaitsRemoval(s, i) && CreateIsOver(s, i) :: i !in Run(w, s', later).users
  {
    ReachableSatisfies(w, s);
    actions := TicksAreARun(w, s, ticks);
    var s' := Run(w, s, actions);
    RunKeeps(w, s, actions);
    OneByOneIsOrdered(ticks, s.clock);
    Outbox.DrainingEnds(w.p, w.panel, Queue(s), ticks, s.clock, from);
    forall i ensures i in s'.users <==> i in s.users && Outbox.NothingOpenFor(s.db.ops, i) {
      Outbox.DrainedMeansGone(w.p, w.panel, Queue(s), ticks, s.clock, from, i);
    }
    forall i, later | AwaitsRemoval(s, i) && CreateIsOver(s, i) ensures i !in Run(w, s', later).users {
      RunKeepsCreateOver(w, s, actions, i);
      AbsentForGood(w, s', later, i);
    }
  }

  /**
   * In particular, if each of them whose user is on the panel still has its removal open, no
   * expired or revoked session keeps a panel user, then or ever after.
   */
  lemma NoClosedUserRemains(w: World, s: State, ticks: seq<Outbox.Tick>, from: int) returns (actions: seq<Action>)
    requires Reachable(w, s) && Outbox.TicksOk(w.p, w.panel, Queue(s), ticks) && OneByOne(ticks, s.clock)
    requires Outbox.OpenDueBy(s.db.ops, from) && RemovalsAccepted(s, ticks)
    requires Outbox.Budget(w.p, s.db.ops) <= Outbox.Rounds(w.p, ticks, from)
    requires forall i | 0 <= i < |s.db.sessions| && s.db.sessions[i].status in {Expired, Revoked} ::
               CreateIsOver(s, i) && (i in s.users ==> AwaitsRemoval(s, i))
    ensures forall i, later | 0 <= i < |s.db.sessions| && s.db.sessions[i].status in {Expired, Revoked} ::
              i !in Run(w, Run(w, s, actions), later).users
  {
    actions := DrainingReclaims(w, s, ticks, from);
    var s' := Run(w, s, actions);
    ReachableSatisfies(w, s);
    RunKeeps(w, s, actions);
    forall i, later | 0 <= i < |s.db.sessions| && s.db.sessions[i].status in {Expired, Revoked}
      ensures i !in Run(w, s', later).users
    {
      RunKeepsCreateOver(w, s, actions, i);
      AbsentForGood(w, s', later, i);
    }
  }
}
