/** What holds in every reachable state and over every run of the protocol. */
module Guarantees {
  import opened Prelude
  import opened Tables
  import opened Ledger
  import opened Panel
  import opened Protocol
  import opened Safety

  ghost predicate Reachable(w: World, s: State)
  {
    exists s0, actions :: Initial(w, s0) && s == Run(w, s0, actions)
  }

  lemma ReachableSatisfies(w: World, s: State)
    requires Reachable(w, s)
    ensures Inv(w, s)
  {
    var s0, actions :| Initial(w, s0) && s == Run(w, s0, actions);
    InitialSatisfies(w, s0);
    RunKeeps(w, s0, actions);
  }

  // ---- the panel and the database -----------------------------------------------------------

  /** No panel user ever outlives its session's deadline in the database, and none is unlimited. */
  lemma PanelNeverAheadOfDatabase(w: World, s: State, u: nat)
    requires Reachable(w, s) && u in s.users
    ensures u < |s.db.sessions|
    ensures s.users[u].expiresAt.Some? && s.users[u].expiresAt.value <= s.db.sessions[u].expiresAt
  {
    ReachableSatisfies(w, s);
  }

  /** Deadlines only move out, and a free session's never past its lifetime cap. */
  lemma DeadlinesOnlyMoveOut(w: World, s: State, actions: seq<Action>, i: nat)
    requires Reachable(w, s) && i < |s.db.sessions|
    ensures var s' := Run(w, s, actions);
            && i < |s'.db.sessions|
            && s.db.sessions[i].expiresAt <= s'.db.sessions[i].expiresAt
            && s'.db.sessions[i].createdAt == s.db.sessions[i].createdAt
            && (s.db.sessions[i].tier.Free? ==>
                  s'.db.sessions[i].expiresAt <= s.db.sessions[i].createdAt + w.p.maxSessionMs)
  {
    ReachableSatisfies(w, s);
    RunKeeps(w, s, actions);
    var s' := Run(w, s, actions);
    assert SessionEvolves(s.db.sessions[i], s'.db.sessions[i]);
    assert SessionOk(w.p, s'.db, i);
  }

  // ---- removals and live sessions --------------------------------------------------------------

  /** A closed session never becomes live again; revoked and expired ones can at most be marked failed. */
  lemma ClosedForGood(w: World, s: State, actions: seq<Action>, i: nat)
    requires Reachable(w, s) && i < |s.db.sessions| && !s.db.sessions[i].Live()
    ensures var s' := Run(w, s, actions);
            i < |s'.db.sessions| && !s'.db.sessions[i].Live()
            && s'.db.sessions[i].status in {s.db.sessions[i].status, Failed}
  {
    ReachableSatisfies(w, s);
    RunKeeps(w, s, actions);
    assert SessionEvolves(s.db.sessions[i], Run(w, s, actions).db.sessions[i]);
  }

  /**
   * Only five statuses occur, removals name closed sessions only, and each swept or revoked session
   * has exactly one.
   */
  lemma RemovalsNameClosedSessionsOnce(w: World, s: State, i: nat)
    requires Reachable(w, s) && i < |s.db.sessions|
    ensures s.db.sessions[i].status in {Provisioning, Active, Expired, Revoked, SessionStatus.Failed}
    ensures s.db.sessions[i].Live() ==> Reclaims(s.db.ops, i) == 0
    ensures s.db.sessions[i].status in {Expired, Revoked} ==> Reclaims(s.db.ops, i) == 1
  {
    ReachableSatisfies(w, s);
    assert SessionOk(w.p, s.db, i);
    if s.db.sessions[i].Live() {
      LiveHasNoReclaim(w.p, s.db, i);
    }
  }

  /** Users neither vanish nor lose their enabled flag, except those of closed sessions. */
  ghost predicate LiveUsersKept(users: Users, users': Users, sessions: seq<Session>)
  {
    forall u | u in users && u < |sessions| && sessions[u].Live() ::
      u in users' && (users[u].enabled ==> users'[u].enabled)
  }

  lemma CallSparesOthers(w: World, s: State, call: PanelCall, reply: Reply)
    requires call.DisableUser? || call.DeleteUser? ==> call.user < |s.db.sessions| && !s.db.sessions[call.user].Live()
    ensures LiveUsersKept(s.users, CallPanel(w, s, call, reply).0.users, s.db.sessions)
  {}

  lemma DisplaceSparesLiveUsers(w: World, s: State, f: nat, i: nat, ms: int, todo: seq<nat>, stage: DisplaceStage,
                                reply: Reply)
    requires Inv(w, s) && f < |s.flights| && s.flights[f] == Displacing(i, ms, todo, stage)
    ensures LiveUsersKept(s.users, DisplaceStep(w, s, f, i, ms, todo, stage, reply).users, s.db.sessions)
  {}

  lemma DrainSparesLiveUsers(w: World, s: State, f: nat, held: seq<Held>, stage: DrainStage, reply: Reply)
    requires Inv(w, s) && f < |s.flights| && s.flights[f] == Drainer(held, stage) && held != []
    ensures LiveUsersKept(s.users, DrainStep(w, s, f, held, stage, reply).users, s.db.sessions)
  {}

  lemma CreateSparesLiveUsers(w: World, s: State, f: nat, reply: Reply)
    requires f < |s.flights| && s.flights[f].Creating?
    ensures LiveUsersKept(s.users, AdvanceStep(w, s, f, reply).users, s.db.sessions)
  {
    CallSparesOthers(w, s, CreateUser(s.flights[f].session, s.flights[f].ms), reply);
  }

  lemma PushSparesLiveUsers(w: World, s: State, f: nat, reply: Reply)
    requires f < |s.flights| && s.flights[f].Pushing?
    ensures LiveUsersKept(s.users, AdvanceStep(w, s, f, reply).users, s.db.sessions)
  {
    CallSparesOthers(w, s, SetUserExpiry(s.flights[f].session, s.flights[f].ms), reply);
  }

  lemma DisplacingSparesLiveUsers(w: World, s: State, f: nat, reply: Reply)
    requires Inv(w, s) && f < |s.flights| && s.flights[f].Displacing?
    ensures LiveUsersKept(s.users, AdvanceStep(w, s, f, reply).users, s.db.sessions)
  {
    var fl := s.flights[f];
    DisplaceSparesLiveUsers(w, s, f, fl.session, fl.ms, fl.todo, fl.displace, reply);
  }

  lemma DrainerSparesLiveUsers(w: World, s: State, f: nat, reply: Reply)
    requires Inv(w, s) && f < |s.flights| && s.flights[f].Drainer?
    ensures LiveUsersKept(s.users, AdvanceStep(w, s, f, reply).users, s.db.sessions)
  {
    if s.flights[f].held != [] { DrainSparesLiveUsers(w, s, f, s.flights[f].held, s.flights[f].drain, reply); }
  }

  lemma AdvanceSparesLiveUsers(w: World, s: State, f: nat, reply: Reply)
    requires Inv(w, s) && f < |s.flights|
    ensures LiveUsersKept(s.users, AdvanceStep(w, s, f, reply).users, s.db.sessions)
  {
    match s.flights[f]
    case Displacing(_, _, _, _) => DisplacingSparesLiveUsers(w, s, f, reply);
    case Creating(_, _) => CreateSparesLiveUsers(w, s, f, reply);
    case Pushing(_, _, _, _) => PushSparesLiveUsers(w, s, f, reply);
    case Drainer(_, _) => DrainerSparesLiveUsers(w, s, f, reply);
    case _ =>
  }

  lemma StepSparesLiveUsers(w: World, s: State, a: Action)
    requires Inv(w, s)
    ensures LiveUsersKept(s.users, Step(w, s, a).users, s.db.sessions)
  {
    if a.Advance? && a.flight < |s.flights| {
      AdvanceSparesLiveUsers(w, s, a.flight, a.reply);
    }
  }

  lemma {:induction false} RunSparesLiveUsers(w: World, s: State, actions: seq<Action>)
    requires Inv(w, s)
    ensures LiveUsersKept(s.users, Run(w, s, actions).users, Run(w, s, actions).db.sessions)
    decreases |actions|
  {
    if actions != [] {
      var next, last := Step(w, s, actions[0]), Run(w, s, actions);
      StepKeeps(w, s, actions[0]);
      StepSparesLiveUsers(w, s, actions[0]);
      RunSparesLiveUsers(w, next, actions[1..]);
      RunKeeps(w, next, actions[1..]);
      forall u | u in s.users && u < |last.db.sessions| && last.db.sessions[u].Live()
        ensures u in last.users && (s.users[u].enabled ==> last.users[u].enabled)
      {
        assert SessionEvolves(s.db.sessions[u], next.db.sessions[u]);
        assert SessionEvolves(next.db.sessions[u], last.db.sessions[u]);
      }
    }
  }

  /** Over any stretch of any run, whoever is live at its end has not been removed or disabled in it. */
  lemma NoLiveUserIsEverRemoved(w: World, s: State, actions: seq<Action>, u: nat)
    requires Reachable(w, s) && u in s.users
    requires u < |Run(w, s, actions).db.sessions| && Run(w, s, actions).db.sessions[u].Live()
    ensures var s' := Run(w, s, actions); u in s'.users && (s.users[u].enabled ==> s'.users[u].enabled)
  {
    ReachableSatisfies(w, s);
    RunSparesLiveUsers(w, s, actions);
  }

  // ---- removals complete -----------------------------------------------------------------------------

  /** createUser for session i is behind every activity: it returned, or whoever was to call it is gone. */
  ghost predicate CreateIsOver(s: State, i: nat)
  {
    i < |s.db.sessions| && forall f | 0 <= f < |s.flights| :: !s.flights[f].WillCreate(i)
  }

  ghost predicate RemovalRow(s: State, i: nat, k: nat)
  {
    k < |s.db.ops| && s.db.ops[k].session == i && s.db.ops[k].work.Reclaims()
  }

  /** A user still present was not missed: row k is not succeeded, and no activity is about to say so. */
  ghost predicate NothingMissed(s: State, i: nat, k: nat)
    requires k < |s.db.ops|
  {
    i in s.users ==>
      !s.db.ops[k].status.Succeeded? && forall f | 0 <= f < |s.flights| :: !s.flights[f].CanReport(s.db.ops[k], i, k)
  }

  ghost predicate Settled(s: State, i: nat, k: nat)
  {
    CreateIsOver(s, i) && RemovalRow(s, i, k) && NothingMissed(s, i, k)
  }

  /** A change of flight f that keeps Settled: what may differ is f, the rows and the panel. */
  lemma FlightSettles(s: State, s': State, f: nat, i: nat, k: nat)
    requires Settled(s, i, k) && f < |s.flights| && |s'.flights| == |s.flights|
    requires |s.db.sessions| <= |s'.db.sessions| && RemovalRow(s', i, k)
    requires forall g | 0 <= g < |s.flights| && g != f :: s'.flights[g] == s.flights[g]
    requires !s'.flights[f].WillCreate(i)
    requires i !in s.users ==> i !in s'.users
    requires s'.flights[f].CanReport(s'.db.ops[k], i, k) ==> i !in s'.users || s.flights[f].CanReport(s.db.ops[k], i, k)
    requires s'.db.ops[k].status.Succeeded? ==> s.db.ops[k].status.Succeeded? || i !in s'.users
    requires s'.db.ops[k].work == s.db.ops[k].work && (s'.db.ops[k].status.Queued? ==> s.db.ops[k].status.Queued?)
    ensures Settled(s', i, k)
  {}

  lemma DisplaceSettles(w: World, s: State, f: nat, j: nat, ms: int, todo: seq<nat>, stage: DisplaceStage,
                        reply: Reply, i: nat, k: nat)
    requires Inv(w, s) && Settled(s, i, k) && f < |s.flights| && s.flights[f] == Displacing(j, ms, todo, stage)
    ensures Settled(DisplaceStep(w, s, f, j, ms, todo, stage, reply), i, k)
  {
    var s' := DisplaceStep(w, s, f, j, ms, todo, stage, reply);
    assert !s.flights[f].WillCreate(i);
    if todo != [] {
      EffectIsLocal(w.panel, s.users, s.clock, DisableUser(todo[0]), i);
      EffectIsLocal(w.panel, s.users, s.clock, PanelCall.DeleteUser(todo[0]), i);
    }
    FlightSettles(s, s', f, i, k);
  }

  lemma CreateSettles(w: World, s: State, f: nat, j: nat, ms: int, reply: Reply, i: nat, k: nat)
    requires Inv(w, s) && Settled(s, i, k) && f < |s.flights| && s.flights[f] == Creating(j, ms)
    ensures Settled(AdvanceStep(w, s, f, reply), i, k)
  {}

  lemma PushSettles(w: World, s: State, f: nat, q: nat, j: nat, ms: int, stage: PushStage, reply: Reply, i: nat, k: nat)
    requires Inv(w, s) && Settled(s, i, k) && f < |s.flights| && s.flights[f] == Pushing(q, j, ms, stage)
    ensures Settled(PushStep(w, s, f, q, j, ms, stage, reply), i, k)
  {
    assert FlightOk(w, s.db, s.clock, s.flights[f]);
    EffectIsLocal(w.panel, s.users, s.clock, SetUserExpiry(j, ms), i);
    FlightSettles(s, PushStep(w, s, f, q, j, ms, stage, reply), f, i, k);
  }

  lemma DrainSettles(w: World, s: State, f: nat, held: seq<Held>, stage: DrainStage, reply: Reply, i: nat, k: nat)
    requires Inv(w, s) && Settled(s, i, k)
    requires f < |s.flights| && s.flights[f] == Drainer(held, stage) && held != []
    ensures Settled(DrainStep(w, s, f, held, stage, reply), i, k)
  {
    assert FlightOk(w, s.db, s.clock, s.flights[f]);
    var o := s.db.ops[held[0].op];
    EffectIsLocal(w.panel, s.users, s.clock, DisableUser(o.session), i);
    EffectIsLocal(w.panel, s.users, s.clock, PanelCall.DeleteUser(o.session), i);
    if o.work.ExtendUser? {
      EffectIsLocal(w.panel, s.users, s.clock, SetUserExpiry(o.session, o.work.epoch * 1000), i);
    }
    FlightSettles(s, DrainStep(w, s, f, held, stage, reply), f, i, k);
  }

  lemma AdvanceSettles(w: World, s: State, f: nat, reply: Reply, i: nat, k: nat)
    requires Inv(w, s) && Settled(s, i, k) && f < |s.flights|
    ensures Settled(AdvanceStep(w, s, f, reply), i, k)
  {
    match s.flights[f]
    case Displacing(j, ms, todo, stage) => DisplaceSettles(w, s, f, j, ms, todo, stage, reply, i, k);
    case Creating(j, ms) => CreateSettles(w, s, f, j, ms, reply, i, k);
    case Checking(_, _) => FlightSettles(s, AdvanceStep(w, s, f, reply), f, i, k);
    case Failing(j, stage) =>
      FlightSettles(s, FailStep(s, f, j, stage, reply), f, i, k);
    case Pushing(q, j, ms, stage) => PushSettles(w, s, f, q, j, ms, stage, reply, i, k);
    case Drainer(held, stage) =>
      if held == [] {
        FlightSettles(s, AdvanceStep(w, s, f, reply), f, i, k);
      } else {
        DrainSettles(w, s, f, held, stage, reply, i, k);
      }
    case _ =>
  }

  /** Neither completed nor newly queued. */
  predicate RowCalm(o: Op, o': Op)
  {
    && o'.work == o.work && (o'.status.Succeeded? ==> o.status.Succeeded?) && (o'.status.Queued? ==> o.status.Queued?)
  }

  /** A step that leaves the panel alone, completes no operation, and at most launches or ends a flight. */
  ghost predicate Quiet(s: State, s': State, i: nat)
  {
    && s'.users == s.users && |s.db.ops| <= |s'.db.ops|
    && (forall k | 0 <= k < |s.db.ops| :: RowCalm(s.db.ops[k], s'.db.ops[k]))
    && forall g | 0 <= g < |s'.flights| ::
         || (g < |s.flights| && s'.flights[g] == s.flights[g])
         || (!s'.flights[g].WillCreate(i) && s'.flights[g].Silent())
  }

  lemma QuietSettles(s: State, s': State, i: nat, k: nat)
    requires Settled(s, i, k) && Evolves(s.db, s'.db) && Quiet(s, s', i)
    ensures Settled(s', i, k)
  {}

  lemma ConnectIsQuiet(w: World, s: State, f: nat, createdAt: int, order: seq<nat>, pick: Option<nat>, i: nat)
    requires i < |s.db.sessions|
    ensures Quiet(s, CommitConnectStep(w, s, f, createdAt, order, pick), i)
  {}

  lemma VerifyRewardIsQuiet(w: World, s: State, user: nat, grant: nat, session: nat, i: nat)
    ensures Quiet(s, VerifyRewardStep(w, s, user, grant, session), i)
  {}

  lemma ClaimWorkIsQuiet(w: World, s: State, picked: seq<nat>, i: nat)
    ensures Quiet(s, ClaimWorkStep(w, s, picked), i)
  {}

  /** Tables may change in any way that completes no operation. */
  lemma TablesAreQuiet(s: State, db': DB, i: nat)
    requires |s.db.ops| <= |db'.ops|
    requires forall k | 0 <= k < |s.db.ops| :: db'.ops[k] == s.db.ops[k]
    ensures Quiet(s, s.(db := db'), i)
  {}

  lemma AdminIsQuiet(w: World, s: State, a: Action, i: nat)
    requires a.Kick? || a.Ban? || a.Unban? || a.Panic? || a.Migrate? || a.SetNodeActive? || a.SyncNode? || a.Sweep?
    ensures Quiet(s, Step(w, s, a), i)
  {
    TablesAreQuiet(s, Step(w, s, a).db, i);
  }

  lemma StepIsQuiet(w: World, s: State, a: Action, i: nat)
    requires !a.Advance? && i < |s.db.sessions|
    ensures Quiet(s, Step(w, s, a), i)
  {
    match a
    case CommitConnect(f, createdAt, order, pick) => ConnectIsQuiet(w, s, f, createdAt, order, pick, i);
    case VerifyReward(user, grant, session) => VerifyRewardIsQuiet(w, s, user, grant, session, i);
    case ClaimWork(picked) => ClaimWorkIsQuiet(w, s, picked, i);
    case Wait(_) => TablesAreQuiet(s, s.db, i);
    case RequestToken(_, _, _, _) => TablesAreQuiet(s, Step(w, s, a).db, i);
    case SsvCallback(_, _) => TablesAreQuiet(s, Step(w, s, a).db, i);
    case ReadPlan(_, _, _, _) =>
    case Crash(_) =>
    case _ => AdminIsQuiet(w, s, a, i);
  }

  lemma StepSettles(w: World, s: State, a: Action, i: nat, k: nat)
    requires Inv(w, s) && Settled(s, i, k)
    ensures Settled(Step(w, s, a), i, k)
  {
    StepKeeps(w, s, a);
    if a.Advance? {
      if a.flight < |s.flights| { AdvanceSettles(w, s, a.flight, a.reply, i, k); }
    } else {
      StepIsQuiet(w, s, a, i);
      QuietSettles(s, Step(w, s, a), i, k);
    }
  }

  lemma {:induction false} RunSettles(w: World, s: State, actions: seq<Action>, i: nat, k: nat)
    requires Inv(w, s) && Settled(s, i, k)
    ensures Settled(Run(w, s, actions), i, k)
    decreases |actions|
  {
    if actions != [] {
      StepKeeps(w, s, actions[0]);
      StepSettles(w, s, actions[0], i, k);
      RunSettles(w, Step(w, s, actions[0]), actions[1..], i, k);
    }
  }

  /**
   * If at some moment createUser is behind us, and removal k of session i has not missed its user
   * and is not about to, then in every later state a succeeded row k means the user is gone: a
   * user still present keeps the row from being succeeded, and nothing recreates it.
   */
  lemma SucceededRemovalIsFinal(w: World, s: State, actions: seq<Action>, i: nat, k: nat)
    requires Reachable(w, s) && CreateIsOver(s, i) && RemovalRow(s, i, k)
    requires NothingMissed(s, i, k)
    ensures var s' := Run(w, s, actions);
            RemovalRow(s', i, k) && (s'.db.ops[k].status.Succeeded? ==> i !in s'.users)
  {
    ReachableSatisfies(w, s);
    RunSettles(w, s, actions, i, k);
  }

  // ---- when absence is final --------------------------------------------------------------------------

  lemma AdvanceKeepsAbsent(w: World, s: State, f: nat, reply: Reply, i: nat)
    requires Inv(w, s) && CreateIsOver(s, i) && i !in s.users && f < |s.flights|
    ensures i !in AdvanceStep(w, s, f, reply).users
    ensures !AdvanceStep(w, s, f, reply).flights[f].WillCreate(i)
  {
    assert !s.flights[f].WillCreate(i);
    match s.flights[f]
    case Displacing(j, ms, todo, stage) => DisplaceKeepsAbsent(w, s, f, j, ms, todo, stage, reply, i);
    case Creating(j, ms) => EffectIsLocal(w.panel, s.users, s.clock, CreateUser(j, ms), i);
    case Pushing(_, j, ms, _) => EffectIsLocal(w.panel, s.users, s.clock, SetUserExpiry(j, ms), i);
    case Drainer(held, stage) => if held != [] { DrainKeepsAbsent(w, s, f, held, stage, reply, i); }
    case _ =>
  }

  lemma DisplaceKeepsAbsent(w: World, s: State, f: nat, j: nat, ms: int, todo: seq<nat>, stage: DisplaceStage,
                            reply: Reply, i: nat)
    requires f < |s.flights| && i !in s.users && i != j
    ensures i !in DisplaceStep(w, s, f, j, ms, todo, stage, reply).users
    ensures !DisplaceStep(w, s, f, j, ms, todo, stage, reply).flights[f].WillCreate(i)
  {}

  lemma DrainKeepsAbsent(w: World, s: State, f: nat, held: seq<Held>, stage: DrainStage, reply: Reply, i: nat)
    requires Inv(w, s) && i !in s.users && f < |s.flights| && s.flights[f] == Drainer(held, stage) && held != []
    ensures i !in DrainStep(w, s, f, held, stage, reply).users
    ensures !DrainStep(w, s, f, held, stage, reply).flights[f].WillCreate(i)
  {}

  lemma StepKeepsAbsent(w: World, s: State, a: Action, i: nat)
    requires Inv(w, s) && CreateIsOver(s, i) && i !in s.users
    ensures CreateIsOver(Step(w, s, a), i) && i !in Step(w, s, a).users
  {
    StepKeeps(w, s, a);
    if a.Advance? {
      if a.flight < |s.flights| {
        AdvanceKeepsAbsent(w, s, a.flight, a.reply, i);
        AdvanceTouchesOneFlight(w, s, a.flight, a.reply);
      }
    } else {
      StepIsQuiet(w, s, a, i);
    }
  }

  lemma AdvanceTouchesOneFlight(w: World, s: State, f: nat, reply: Reply)
    requires f < |s.flights|
    ensures var s' := AdvanceStep(w, s, f, reply);
            |s'.flights| == |s.flights| && forall g | 0 <= g < |s.flights| && g != f :: s'.flights[g] == s.flights[g]
  {
    match s.flights[f]
    case Displacing(_, _, _, _) =>
    case Failing(_, _) =>
    case Pushing(_, _, _, _) =>
    case Drainer(_, _) =>
    case _ =>
  }

  lemma {:induction false} AbsentForGood(w: World, s: State, actions: seq<Action>, i: nat)
    requires Inv(w, s) && CreateIsOver(s, i) && i !in s.users
    ensures i !in Run(w, s, actions).users
    decreases |actions|
  {
    if actions != [] {
      StepKeeps(w, s, actions[0]);
      StepKeepsAbsent(w, s, actions[0], i);
      AbsentForGood(w, Step(w, s, actions[0]), actions[1..], i);
    }
  }

  /** A connect that has not reached its createUser can still get there, skipping what it displaces. */
  lemma {:induction false} CreateCanStillCome(w: World, s: State, f: nat, i: nat) returns (actions: seq<Action>)
    requires f < |s.flights| && s.flights[f].WillCreate(i)
    ensures i in Run(w, s, actions).users
    decreases if s.flights[f].Displacing? then 1 + |s.flights[f].todo| else 0
  {
    var a := Advance(f, if s.flights[f].Displacing? then Threw(false, true) else Threw(true, true));
    var next := Step(w, s, a);
    if s.flights[f].Creating? {
      actions := [a];
      assert Run(w, next, actions[1..]) == next;
    } else {
      var rest := CreateCanStillCome(w, next, f, i);
      actions := [a] + rest;
      assert actions[1..] == rest;
    }
  }

  /** An absent user is absent for ever exactly when no connect has its createUser still ahead. */
  lemma AbsenceIsFinalExactlyWhen(w: World, s: State, i: nat)
    requires Reachable(w, s) && i < |s.db.sessions| && i !in s.users
    ensures CreateIsOver(s, i) <==> forall actions :: i !in Run(w, s, actions).users
  {
    ReachableSatisfies(w, s);
    if CreateIsOver(s, i) {
      forall actions ensures i !in Run(w, s, actions).users {
        AbsentForGood(w, s, actions, i);
      }
    } else {
      var f :| 0 <= f < |s.flights| && s.flights[f].WillCreate(i);
      var actions := CreateCanStillCome(w, s, f, i);
    }
  }
}
