/** How many sessions a user may hold, where sessions may live, and what a drained node stays free of. */
module Placement {
  import opened Prelude
  import opened Sums
  import opened Rows
  import opened Tables
  import opened Ledger
  import opened Protocol
  import opened Safety
  import opened Guarantees
  import Connection
  import Admin

  // ---- one device, one live session; free sessions on free nodes ------------------------------

  lemma OneLiveSessionPerDevice(w: World, s: State, i: nat, j: nat)
    requires Reachable(w, s) && i < j < |s.db.sessions|
    requires s.db.sessions[i].Live() && s.db.sessions[j].Live()
    ensures s.db.sessions[i].device != s.db.sessions[j].device
  {
    ReachableSatisfies(w, s);
  }

  lemma FreeSessionsLiveOnFreeNodes(w: World, s: State, i: nat)
    requires Reachable(w, s) && i < |s.db.sessions| && s.db.sessions[i].tier.Free?
    ensures s.db.sessions[i].node < |s.db.nodes| && s.db.nodes[s.db.sessions[i].node].tier.Free?
  {
    ReachableSatisfies(w, s);
    assert SessionOk(w.p, s.db, i);
  }

  // ---- concurrency ------------------------------------------------------------------------------

  /** The step commits a connect of the user: a session of theirs is inserted. */
  ghost predicate Opens(w: World, s: State, a: Action, user: nat)
  {
    var s' := Step(w, s, a);
    |s.db.sessions| < |s'.db.sessions| && s'.db.sessions[|s.db.sessions|].user == user
  }

  ghost predicate NeverOpens(w: World, s: State, actions: seq<Action>, user: nat)
    decreases |actions|
  {
    actions != [] ==> !Opens(w, s, actions[0], user) && NeverOpens(w, Step(w, s, actions[0]), actions[1..], user)
  }

  /** Only a committed connect adds a session, and it adds one. */
  lemma OnlyConnectInserts(w: World, s: State, a: Action)
    ensures var s' := Step(w, s, a);
            |s'.db.sessions| == |s.db.sessions|
            || (a.CommitConnect? && a.flight < |s.flights| && s.flights[a.flight].Planned?
                && |s'.db.sessions| == |s.db.sessions| + 1)
  {
    if a.Advance? && a.flight < |s.flights| {
      match s.flights[a.flight]
      case Displacing(_, _, _, _) =>
      case Failing(_, _) =>
      case Pushing(_, _, _, _) =>
      case Drainer(_, _) =>
      case _ =>
    }
  }

  lemma OtherStepsNeverAdd(w: World, s: State, a: Action, user: nat)
    requires Inv(w, s) && !Opens(w, s, a, user)
    ensures LiveCount(Step(w, s, a).db.sessions, user) <= LiveCount(s.db.sessions, user)
  {
    var s', n := Step(w, s, a), |s.db.sessions|;
    StepKeeps(w, s, a);
    OnlyConnectInserts(w, s, a);
    var older := s'.db.(sessions := s'.db.sessions[..n]);
    LiveCountOnlyShrinks(s.db, older, user);
    if |s'.db.sessions| == n {
      assert s'.db.sessions[..n] == s'.db.sessions;
    } else {
      assert s'.db.sessions == s'.db.sessions[..n] + [s'.db.sessions[n]];
      SumPush(s'.db.sessions[..n], s'.db.sessions[n], Indicator(LiveOf(user)));
    }
  }

  /** The connect that opens a session leaves the user within the limit it read. */
  lemma OpeningRespectsLimit(w: World, s: State, a: Action, user: nat)
    requires Inv(w, s) && Opens(w, s, a, user)
    ensures a.CommitConnect? && a.flight < |s.flights| && s.flights[a.flight].Planned?
    ensures LiveCount(Step(w, s, a).db.sessions, user) <= Max(1, s.flights[a.flight].plan.maxConcurrent)
  {
    OnlyConnectInserts(w, s, a);
    var fl := s.flights[a.flight];
    Connection.ConnectRespectsConcurrency(w.p, s.db, s.clock, fl.user, fl.device, fl.plan, a.createdAt, a.order,
                                          a.pick);
  }

  lemma {:induction false} NoOpeningKeepsCount(w: World, s: State, actions: seq<Action>, user: nat)
    requires Inv(w, s) && NeverOpens(w, s, actions, user)
    ensures LiveCount(Run(w, s, actions).db.sessions, user) <= LiveCount(s.db.sessions, user)
    decreases |actions|
  {
    if actions != [] {
      StepKeeps(w, s, actions[0]);
      OtherStepsNeverAdd(w, s, actions[0], user);
      NoOpeningKeepsCount(w, Step(w, s, actions[0]), actions[1..], user);
    }
  }

  /**
   * From a user's latest committed connect on, whatever runs, their live sessions stay
   * within the limit that connect had read (one, should it have read zero).
   */
  lemma LatestLimitHolds(w: World, s: State, a: Action, actions: seq<Action>, user: nat)
    requires Reachable(w, s) && Opens(w, s, a, user)
    requires NeverOpens(w, Step(w, s, a), actions, user)
    ensures a.CommitConnect? && a.flight < |s.flights| && s.flights[a.flight].Planned?
    ensures LiveCount(Run(w, Step(w, s, a), actions).db.sessions, user)
         <= Max(1, s.flights[a.flight].plan.maxConcurrent)
  {
    ReachableSatisfies(w, s);
    StepKeeps(w, s, a);
    OpeningRespectsLimit(w, s, a, user);
    NoOpeningKeepsCount(w, Step(w, s, a), actions, user);
  }

  // ---- bans --------------------------------------------------------------------------------------------

  /**
   * From the commit of a ban until a connect of the user commits, which the ban itself does not
   * prevent, no state has a live session of theirs, whatever else runs.
   */
  lemma BanLasts(w: World, s: State, user: nat, ids: seq<nat>, actions: seq<Action>)
    requires Reachable(w, s) && Lists(ids, s.db.sessions, LiveOf(user))
    requires NeverOpens(w, BanStep(s, user, ids), actions, user)
    ensures var s' := Run(w, BanStep(s, user, ids), actions);
            forall i | 0 <= i < |s'.db.sessions| && s'.db.sessions[i].Live() :: s'.db.sessions[i].user != user
  {
    var sessions := Run(w, BanStep(s, user, ids), actions).db.sessions;
    ReachableSatisfies(w, s);
    BanKeeps(w, s, user, ids);
    Admin.BanLeavesNoLiveSession(s.db, user, ids, s.clock);
    NoOpeningKeepsCount(w, BanStep(s, user, ids), actions, user);
    NobodyCounted(sessions, user);
  }

  lemma NobodyCounted(sessions: seq<Session>, user: nat)
    requires LiveCount(sessions, user) <= 0
    ensures forall i | 0 <= i < |sessions| && sessions[i].Live() :: sessions[i].user != user
  {
    forall i | 0 <= i < |sessions| ensures !LiveOf(user)(sessions[i]) {
      SumAtLeast(sessions, i, Indicator(LiveOf(user)));
    }
  }

  // ---- failing nodes -------------------------------------------------------------------------------

  /** Only a sync that finds the node online forgives its failures. */
  lemma StreakOnlyRises(w: World, s: State, a: Action, n: nat)
    requires n < |s.db.nodes| && a != SyncNode(n, true)
    ensures n < |Step(w, s, a).db.nodes| && s.db.nodes[n].errorStreak <= Step(w, s, a).db.nodes[n].errorStreak
  {
    if a.Advance? && a.flight < |s.flights| {
      match s.flights[a.flight]
      case Displacing(_, _, _, _) =>
      case Failing(_, _) =>
      case Pushing(_, _, _, _) =>
      case Drainer(_, _) =>
      case _ =>
    }
  }

  ghost predicate NoneOpenedOn(s: State, s': State, n: nat)
  {
    |s.db.sessions| <= |s'.db.sessions|
    && forall i | |s.db.sessions| <= i < |s'.db.sessions| :: s'.db.sessions[i].node != n
  }

  lemma StepKeepsQuarantine(w: World, s: State, a: Action, n: nat)
    requires Inv(w, s) && n < |s.db.nodes| && 3 <= s.db.nodes[n].errorStreak && a != SyncNode(n, true)
    ensures NoneOpenedOn(s, Step(w, s, a), n)
  {
    OnlyConnectInserts(w, s, a);
    if |s.db.sessions| < |Step(w, s, a).db.sessions| {
      Connection.PlacementIsLightest(s.db, s.flights[a.flight].plan, a.pick);
    }
  }

  /** After three failures in a row no session is opened on the node until a sync finds it online. */
  lemma {:induction false} QuarantineLasts(w: World, s: State, actions: seq<Action>, n: nat)
    requires Inv(w, s) && n < |s.db.nodes| && 3 <= s.db.nodes[n].errorStreak && SyncNode(n, true) !in actions
    ensures NoneOpenedOn(s, Run(w, s, actions), n)
    decreases |actions|
  {
    if actions != [] {
      var next, last := Step(w, s, actions[0]), Run(w, s, actions);
      StepKeeps(w, s, actions[0]);
      StreakOnlyRises(w, s, actions[0], n);
      StepKeepsQuarantine(w, s, actions[0], n);
      QuarantineLasts(w, next, actions[1..], n);
      RunKeeps(w, next, actions[1..]);
      forall i | |s.db.sessions| <= i < |last.db.sessions| ensures last.db.sessions[i].node != n {
        assert i < |next.db.sessions| ==> SessionEvolves(next.db.sessions[i], last.db.sessions[i]);
      }
    }
  }

  // ---- evacuated nodes --------------------------------------------------------------------------------

  /** The drain flag changes by the administrator's hand only. */
  lemma DrainFlagIsAdminOwned(w: World, s: State, a: Action, n: nat)
    requires n < |s.db.nodes|
    requires a != SetNodeActive(n, true)
    ensures n < |Step(w, s, a).db.nodes|
    ensures Step(w, s, a).db.nodes[n].isActive ==> s.db.nodes[n].isActive
  {
    if a.Advance? && a.flight < |s.flights| {
      match s.flights[a.flight]
      case Displacing(_, _, _, _) =>
      case Failing(_, _) =>
      case Pushing(_, _, _, _) =>
      case Drainer(_, _) =>
      case _ =>
    }
  }

  lemma StepKeepsEvacuated(w: World, s: State, a: Action, n: nat)
    requires Inv(w, s) && Admin.Evacuated(s.db, n) && a != SetNodeActive(n, true)
    ensures Admin.Evacuated(Step(w, s, a).db, n)
  {
    var s' := Step(w, s, a);
    StepKeeps(w, s, a);
    DrainFlagIsAdminOwned(w, s, a, n);
    OnlyConnectInserts(w, s, a);
    forall i | 0 <= i < |s'.db.sessions| && s'.db.sessions[i].Live() ensures s'.db.sessions[i].node != n {
      if i < |s.db.sessions| {
        assert SessionEvolves(s.db.sessions[i], s'.db.sessions[i]);
      } else {
        Connection.PlacementIsLightest(s.db, s.flights[a.flight].plan, a.pick);
      }
    }
  }

  lemma {:induction false} RunKeepsEvacuated(w: World, s: State, actions: seq<Action>, n: nat)
    requires Inv(w, s) && Admin.Evacuated(s.db, n) && SetNodeActive(n, true) !in actions
    ensures Admin.Evacuated(Run(w, s, actions).db, n)
    decreases |actions|
  {
    if actions != [] {
      StepKeeps(w, s, actions[0]);
      StepKeepsEvacuated(w, s, actions[0], n);
      RunKeepsEvacuated(w, Step(w, s, actions[0]), actions[1..], n);
    }
  }

  lemma MigrateStepEvacuates(s: State, n: nat, ids: seq<nat>)
    requires n < |s.db.nodes| && Lists(ids, s.db.sessions, LiveOn(n))
    ensures Admin.Evacuated(MigrateStep(s, n, ids).db, n)
  {}

  /**
   * From the commit of a force-migrate until somebody enables the node again, no state has a
   * live session on it, whatever connects, claims, failures and node syncs run.
   */
  lemma EvacuationLasts(w: World, s: State, n: nat, ids: seq<nat>, actions: seq<Action>)
    requires Reachable(w, s) && n < |s.db.nodes| && Lists(ids, s.db.sessions, LiveOn(n))
    requires SetNodeActive(n, true) !in actions
    ensures var s' := Run(w, MigrateStep(s, n, ids), actions);
            forall i | 0 <= i < |s'.db.sessions| && s'.db.sessions[i].Live() :: s'.db.sessions[i].node != n
  {
    var migrated := MigrateStep(s, n, ids);
    ReachableSatisfies(w, s);
    MigrateKeeps(w, s, n, ids);
    MigrateStepEvacuates(s, n, ids);
    RunKeepsEvacuated(w, migrated, actions, n);
    assert Admin.Evacuated(Run(w, migrated, actions).db, n);
  }
}
