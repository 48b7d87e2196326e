/**
 * Concrete runs: a removal that misses its user, a session that is forgotten, a row rewritten
 * under a running lease, a success undone.
 */
module Witness {
  import opened Prelude
  import opened Tables
  import opened Panel
  import opened Protocol
  import opened Guarantees
  import opened Finality
  import Placement
  import Removals
  import Ads
  import Admin
  import Connection
  import Outbox

  lemma ReachableStep(w: World, s: State, a: Action)
    requires Reachable(w, s)
    ensures Reachable(w, Step(w, s, a))
  {
    var s0, actions :| Initial(w, s0) && s == Run(w, s0, actions);
    RunConcat(w, s0, actions, [a]);
    assert Run(w, s, [a]) == Step(w, s, a);
  }

  lemma Follows(w: World, s: State, a: Action, s': State)
    requires Reachable(w, s) && Step(w, s, a) == s'
    ensures Reachable(w, s')
  {
    ReachableStep(w, s, a);
  }

  // ---- the states of the run ---------------------------------------------------------------

  function SmallWorld(): World
  {
    World(Settings(900_000, 86_400_000, 300_000, 0, 1, 60, 20, 120_000, 12, 500), Remnawave)
  }

  function FirstDB(): DB
  {
    DB([], [], [], [], [Node(Free, Up, true, 0, 0.0, 100, [Inbound(0, 0, Free, true)])], [], {})
  }

  function FreePlan(): Connection.Plan { Connection.Plan(Free, 301_000, 1, 1000) }

  function Before(flights: seq<Flight>): State { State(1000, FirstDB(), map[], flights) }

  /** The state once the session exists. */
  function Now(status: SessionStatus, ops: seq<Op>, users: Users, flights: seq<Flight>): State
  {
    State(1000,
          FirstDB().(sessions := [Session(0, 0, 0, Free, status, 301_000, 1000, 0, None)],
                     grants := [Grant(0, 0, Some(0), Connect, 1, 0, 60, Pending, 301_000)],
                     ops := ops),
          users, flights)
  }

  function Connecting(): Flight { Displacing(0, 301_000, [], AtDisable) }

  function Kicked(): State { Now(Revoked, [Op(0, RevokeUser, Queued, 0, 1000)], map[], [Connecting()]) }

  function Reclaiming(stage: DrainStage): State
  {
    Now(Revoked, [Op(0, RevokeUser, InFlight, 1, 121_000)], map[], [Connecting(), Drainer([Held(0, 1)], stage)])
  }

  function Reclaimed(users: Users, connect: Flight): State
  {
    Now(Revoked, [Op(0, RevokeUser, Succeeded, 1, 121_000)], users, [connect, Drainer([], AtDispatch)])
  }

  // ---- its steps ------------------------------------------------------------------------------

  lemma Planning()
    ensures Reachable(SmallWorld(), Before([Planned(0, 0, FreePlan())]))
  {
    var w := SmallWorld();
    assert Before([]) == Run(w, Before([]), []) && Initial(w, Before([]));
    assert Step(w, Before([]), ReadPlan(0, 0, None, None)).flights == [Planned(0, 0, FreePlan())];
    Follows(w, Before([]), ReadPlan(0, 0, None, None), Before([Planned(0, 0, FreePlan())]));
  }

  lemma ConnectTxHere()
    ensures Connection.ConnectTx(SmallWorld().p, FirstDB(), 1000, 0, 0, FreePlan(), 1000, [], Some(0))
         == Ok(Now(Provisioning, [], map[], []).db)
  {
    NothingEvicted();
    var r := Connection.ConnectTx(SmallWorld().p, FirstDB(), 1000, 0, 0, FreePlan(), 1000, [], Some(0));
    assert r.value.sessions == Now(Provisioning, [], map[], []).db.sessions;
    assert r.value.grants == Now(Provisioning, [], map[], []).db.grants;
  }

  lemma NothingEvicted()
    ensures forall none: seq<nat> | none == [] ::
              none[..Connection.Overflow(|none|, 1)] == []
                  && CloseAll(FirstDB(), none, Revoked, RevokeUser, 1000) == FirstDB()
  {}

  lemma TheNodeIsPicked(nodes: seq<Node>)
    requires nodes == FirstDB().nodes
    ensures Connection.Picks(nodes, Free, Some(0))
  {
    assert Connection.Usable(Free, nodes[0].inbounds[0]);
  }

  lemma FirstCommitIs(w: World, s: State, user: nat, device: nat, plan: Connection.Plan, pick: Option<nat>, s': State)
    requires s.flights == [Planned(user, device, plan)] && plan.readAt == s.clock && plan.maxConcurrent == 1
    requires s.db.sessions == [] && Connection.Picks(s.db.nodes, plan.tier, pick)
    requires Connection.ConnectTx(w.p, s.db, s.clock, user, device, plan, s.clock, [], pick) == Ok(s'.db)
    requires s' == s.(db := s'.db, flights := [Displacing(0, plan.expiresAt, [], AtDisable)])
    ensures CommitConnectStep(w, s, 0, s.clock, [], pick) == s'
  {}

  lemma CommitFollows(w: World, s: State, f: nat, createdAt: int, order: seq<nat>, pick: Option<nat>, s': State)
    requires Reachable(w, s) && CommitConnectStep(w, s, f, createdAt, order, pick) == s'
    ensures Reachable(w, s')
  {
    Follows(w, s, CommitConnect(f, createdAt, order, pick), s');
  }

  lemma Committing()
    requires Reachable(SmallWorld(), Before([Planned(0, 0, FreePlan())]))
    ensures Reachable(SmallWorld(), Now(Provisioning, [], map[], [Connecting()]))
  {
    var r := Connection.ConnectTx(SmallWorld().p, FirstDB(), 1000, 0, 0, FreePlan(), 1000, [], Some(0));
    assert r == Ok(Now(Provisioning, [], map[], []).db) by { ConnectTxHere(); }
    TheNodeIsPicked(FirstDB().nodes);
    FirstCommitIs(SmallWorld(), Before([Planned(0, 0, FreePlan())]), 0, 0, FreePlan(), Some(0),
                  Now(Provisioning, [], map[], [Connecting()]));
    CommitFollows(SmallWorld(), Before([Planned(0, 0, FreePlan())]), 0, 1000, [], Some(0),
                  Now(Provisioning, [], map[], [Connecting()]));
  }

  lemma Kicking()
    requires Reachable(SmallWorld(), Now(Provisioning, [], map[], [Connecting()]))
    ensures Reachable(SmallWorld(), Kicked())
  {
    assert Enqueued([0], RevokeUser, 1000) == [Op(0, RevokeUser, Queued, 0, 1000)];
    Follows(SmallWorld(), Now(Provisioning, [], map[], [Connecting()]), Kick(0), Kicked());
  }

  lemma Claiming()
    requires Reachable(SmallWorld(), Kicked())
    ensures Reachable(SmallWorld(), Reclaiming(AtDispatch))
  {
    var s := Kicked();
    assert Outbox.Due(1000)(s.db.ops[0]);
    var s' := ClaimWorkStep(SmallWorld(), s, [0]);
    assert s'.db.ops == Reclaiming(AtDispatch).db.ops;
    assert s'.flights[1].held == [Held(0, 1)];
    Follows(SmallWorld(), s, ClaimWork([0]), Reclaiming(AtDispatch));
  }

  lemma Dispatching()
    requires Reachable(SmallWorld(), Reclaiming(AtDispatch))
    ensures Reachable(SmallWorld(), Reclaiming(AtMarkSucceeded))
  {
    Follows(SmallWorld(), Reclaiming(AtDispatch), Advance(1, Returned), Reclaiming(AtDeleteUser));
    Follows(SmallWorld(), Reclaiming(AtDeleteUser), Advance(1, Returned), Reclaiming(AtMarkSucceeded));
  }

  lemma Reporting()
    requires Reachable(SmallWorld(), Reclaiming(AtMarkSucceeded))
    ensures Reachable(SmallWorld(), Reclaimed(map[], Connecting()))
  {
    var s := Reclaiming(AtMarkSucceeded);
    var s' := DrainStep(SmallWorld(), s, 1, [Held(0, 1)], AtMarkSucceeded, Returned);
    assert s'.flights[1] == Drainer([], AtDispatch);
    assert s' == Reclaimed(map[], Connecting());
    Follows(SmallWorld(), s, Advance(1, Returned), s');
  }

  lemma CreatingAtLast()
    requires Reachable(SmallWorld(), Reclaimed(map[], Connecting()))
    ensures Reachable(SmallWorld(), Reclaimed(map[0 := PanelUser(Some(301_000), true)], Checking(0, 301_000)))
  {
    var created := Reclaimed(map[0 := PanelUser(Some(301_000), true)], Checking(0, 301_000));
    Follows(SmallWorld(), Reclaimed(map[], Connecting()), Advance(0, Returned), Reclaimed(map[], Creating(0, 301_000)));
    Follows(SmallWorld(), Reclaimed(map[], Creating(0, 301_000)), Advance(0, Returned), created);
  }

  /**
   * Kicked between its commit and its createUser, a session can be revoked and its only removal
   * succeeded while its user is on the panel, enabled.
   */
  lemma RemovalMayMissItsUser() returns (s: State)
    ensures Reachable(SmallWorld(), s) && 0 in s.users && s.users[0].enabled
    ensures |s.db.sessions| == 1 && s.db.sessions[0].status.Revoked?
    ensures |s.db.ops| == 1 && RemovalRow(s, 0, 0) && s.db.ops[0].status.Succeeded?
  {
    Planning();
    Committing();
    Kicking();
    Claiming();
    Dispatching();
    Reporting();
    CreatingAtLast();
    s := Reclaimed(map[0 := PanelUser(Some(301_000), true)], Checking(0, 301_000));
  }

  /** What the results on openings and on newborn free sessions suppose does occur: in this run's second step. */
  lemma FirstConnectOpens()
    ensures var s, a := Before([Planned(0, 0, FreePlan())]), CommitConnect(0, 1000, [], Some(0));
            && Reachable(SmallWorld(), s) && Placement.Opens(SmallWorld(), s, a, 0)
            && Step(SmallWorld(), s, a).db.sessions[|s.db.sessions|].tier.Free?
  {
    Planning();
    assert Connection.ConnectTx(SmallWorld().p, FirstDB(), 1000, 0, 0, FreePlan(), 1000, [], Some(0))
        == Ok(Now(Provisioning, [], map[], []).db) by { ConnectTxHere(); }
    TheNodeIsPicked(FirstDB().nodes);
    FirstCommitIs(SmallWorld(), Before([Planned(0, 0, FreePlan())]), 0, 0, FreePlan(), Some(0),
                  Now(Provisioning, [], map[], [Connecting()]));
    StepCommits(SmallWorld(), Before([Planned(0, 0, FreePlan())]), 0, 1000, [], Some(0));
  }

  lemma StepCommits(w: World, s: State, f: nat, createdAt: int, order: seq<nat>, pick: Option<nat>)
    ensures Step(w, s, CommitConnect(f, createdAt, order, pick)) == CommitConnectStep(w, s, f, createdAt, order, pick)
  {}

  // ---- two removals of one session ---------------------------------------------------------------------

  lemma {:induction false} ReachableRun(w: World, s: State, actions: seq<Action>)
    requires Reachable(w, s)
    ensures Reachable(w, Run(w, s, actions))
    decreases |actions|
  {
    if actions != [] {
      ReachableStep(w, s, actions[0]);
      ReachableRun(w, Step(w, s, actions[0]), actions[1..]);
    }
  }

  /** Kicked before its createUser, which then fails: the bound of two removals is met. */
  lemma SecondRemovalComes() returns (s: State)
    ensures Reachable(SmallWorld(), s) && Reclaims(s.db.ops, 0) == 2
  {
    Planning();
    Committing();
    Kicking();
    ReachableSatisfies(SmallWorld(), Kicked());
    RemovalsNameClosedSessionsOnce(SmallWorld(), Kicked(), 0);
    var actions := Removals.OneMoreCanCome(SmallWorld(), Kicked(), 0, 0);
    s := Run(SmallWorld(), Kicked(), actions);
    ReachableRun(SmallWorld(), Kicked(), actions);
  }

  // ---- a session forgotten -------------------------------------------------------------------------

  function Alone(): Users { map[0 := PanelUser(Some(301_000), true)] }

  lemma AboutToCreate()
    ensures Reachable(SmallWorld(), Now(Provisioning, [], map[], [Creating(0, 301_000)]))
  {
    Planning();
    Committing();
    Follows(SmallWorld(), Now(Provisioning, [], map[], [Connecting()]), Advance(0, Returned),
            Now(Provisioning, [], map[], [Creating(0, 301_000)]));
  }

  lemma CreateMisreported()
    ensures Reachable(SmallWorld(), Now(Provisioning, [], Alone(), [Failing(0, AtMarkFailed)]))
  {
    AboutToCreate();
    Follows(SmallWorld(), Now(Provisioning, [], map[], [Creating(0, 301_000)]), Advance(0, Threw(true, true)),
            Now(Provisioning, [], Alone(), [Failing(0, AtMarkFailed)]));
  }

  lemma Forgetting()
    ensures Reachable(SmallWorld(), Now(SessionStatus.Failed, [], Alone(), [Ended]))
  {
    CreateMisreported();
    Follows(SmallWorld(), Now(Provisioning, [], Alone(), [Failing(0, AtMarkFailed)]), Advance(0, Returned),
            Now(SessionStatus.Failed, [], Alone(), [Failing(0, AtEnqueue)]));
    Follows(SmallWorld(), Now(SessionStatus.Failed, [], Alone(), [Failing(0, AtEnqueue)]), Crash(0),
            Now(SessionStatus.Failed, [], Alone(), [Ended]));
  }

  /**
   * createUser applied but reported as an error, and a crash between the first two statements of
   * the cleanup: a failed session whose user is enabled on the panel, with nothing queued to
   * remove it, nobody left to, and no removal in any future.
   */
  lemma SessionMayBeForgotten() returns (s: State)
    ensures Reachable(SmallWorld(), s) && s.db.ops == [] && s.flights == [Ended]
    ensures |s.db.sessions| == 1 && s.db.sessions[0].status == SessionStatus.Failed
    ensures 0 in s.users && s.users[0].enabled
    ensures forall actions :: NoRemoval(Run(SmallWorld(), s, actions), 0)
  {
    Forgetting();
    s := Now(SessionStatus.Failed, [], Alone(), [Ended]);
    ForgottenExactlyWhen(SmallWorld(), s, 0);
  }

  // ---- a lease that does not fence -------------------------------------------------------------------

  /** The kicked session's one removal, later. */
  function AfterLease(op: Op, flights: seq<Flight>): State { State(121_000, Kicked().db.(ops := [op]), map[], flights) }

  /** The first worker, its lease run out, and the second, which has just claimed the row. */
  function TwoWorkers(op: Op, late: Flight): State
  {
    AfterLease(op, [Connecting(), late, Drainer([Held(0, 2)], AtDispatch)])
  }

  function Late(): Flight { Drainer([Held(0, 1)], AtDispatch) }

  function LeaseOver(): State { AfterLease(Op(0, RevokeUser, InFlight, 1, 121_000), [Connecting(), Late()]) }

  lemma LeaseRunsOut()
    ensures Reachable(SmallWorld(), LeaseOver())
  {
    Planning();
    Committing();
    Kicking();
    Claiming();
    Follows(SmallWorld(), Reclaiming(AtDispatch), Wait(120_000), LeaseOver());
  }

  lemma ClaimingAgain()
    ensures ClaimWorkStep(SmallWorld(), LeaseOver(), [0]) == TwoWorkers(Op(0, RevokeUser, InFlight, 2, 241_000), Late())
  {
    assert Outbox.Due(121_000)(LeaseOver().db.ops[0]);
    var s' := ClaimWorkStep(SmallWorld(), LeaseOver(), [0]);
    assert s'.db.ops == [Op(0, RevokeUser, InFlight, 2, 241_000)];
    assert s'.flights[2].held == [Held(0, 2)];
  }

  lemma ClaimFollows(w: World, s: State, picked: seq<nat>, s': State)
    requires Reachable(w, s) && ClaimWorkStep(w, s, picked) == s'
    ensures Reachable(w, s')
  {
    Follows(w, s, ClaimWork(picked), s');
  }

  lemma HeldTwice()
    ensures Reachable(SmallWorld(), TwoWorkers(Op(0, RevokeUser, InFlight, 2, 241_000), Late()))
  {
    LeaseRunsOut();
    ClaimingAgain();
    ClaimFollows(SmallWorld(), LeaseOver(), [0], TwoWorkers(Op(0, RevokeUser, InFlight, 2, 241_000), Late()));
  }

  /** The late worker's failure reopens the row under the second worker's running lease. */
  lemma StaleWorkerOverwrites() returns (s: State, s': State)
    ensures Reachable(SmallWorld(), s) && |s.db.ops| == 1 && |s.flights| == 3
    ensures s.flights[2].Holds(0) && s.db.ops[0].status.InFlight? && s.clock < s.db.ops[0].nextAt
    ensures s' == Step(SmallWorld(), s, Advance(1, Returned)) && |s'.flights| == 3 && |s'.db.ops| == 1
    ensures s'.flights[2] == s.flights[2] && s'.clock == s.clock
    ensures s'.db.ops[0].status.Retrying? && s'.db.ops[0].nextAt < s.db.ops[0].nextAt
  {
    var w, op := SmallWorld(), Op(0, RevokeUser, InFlight, 2, 241_000);
    HeldTwice();
    s := TwoWorkers(op, Drainer([Held(0, 1)], AtMarkUndelivered(true)));
    Follows(w, TwoWorkers(op, Late()), Advance(1, Threw(false, true)), s);
    assert s.flights[2].held[0].op == 0;
    s' := Step(w, s, Advance(1, Returned));
    assert s' == DrainStep(w, s, 1, [Held(0, 1)], AtMarkUndelivered(true), Returned);
    assert Outbox.BackoffSec(1) == 2;
  }

  // ---- a success undone ----------------------------------------------------------------------------------

  /** The claim's extend and the session it belongs to; `flights`: the connect has ended. */
  function Extended(op: Op, users: Users, push: PushStage, more: seq<Flight>): State
  {
    State(1000,
          FirstDB().(sessions := [Session(0, 0, 0, Free, Active, 3_901_000, 1000, 1, Some(0))],
                     grants := [Grant(0, 0, Some(0), Connect, 1, 1, 60, Consumed, 301_000)],
                     rewards := [Reward(0, 7)], ops := [op]),
          users, [Ended, Pushing(0, 0, 3_901_000, push)] + more)
  }

  function Extend(status: OpStatus, attempts: nat, nextAt: int): Op
  {
    Op(0, ExtendUser(3901), status, attempts, nextAt)
  }

  function Longer(): Users { map[0 := PanelUser(Some(3_901_000), true)] }

  lemma Provisioned()
    ensures Reachable(SmallWorld(), Now(Provisioning, [], Alone(), [Ended]))
  {
    var w := SmallWorld();
    AboutToCreate();
    Follows(w, Now(Provisioning, [], map[], [Creating(0, 301_000)]), Advance(0, Returned),
            Now(Provisioning, [], Alone(), [Checking(0, 301_000)]));
    Follows(w, Now(Provisioning, [], Alone(), [Checking(0, 301_000)]), Advance(0, Returned),
            Now(Provisioning, [], Alone(), [Ended]));
  }

  function Watched(): State
  {
    Now(Provisioning, [], Alone(), [Ended]).(db := Now(Provisioning, [], Alone(), [Ended]).db.(
      grants := [Grant(0, 0, Some(0), Connect, 1, 1, 60, Fulfilled, 301_000)], rewards := [Reward(0, 7)]))
  }

  lemma Watching()
    ensures Reachable(SmallWorld(), Watched())
  {
    var s, c := Now(Provisioning, [], Alone(), [Ended]), Ads.Callback(Ads.Nonce(0), 7, 1000);
    Provisioned();
    var r := Ads.RecordReward(s.db, c);
    assert r.value.grants == Watched().db.grants && r.value.rewards == Watched().db.rewards;
    assert r == Result.Ok(Watched().db);
    Follows(SmallWorld(), s, SsvCallback(Ads.Nonce(0), 7), Watched());
  }

  lemma Extending()
    ensures Reachable(SmallWorld(), Extended(Extend(Queued, 0, 1000), Alone(), AtPush, []))
  {
    var w, s' := SmallWorld(), Extended(Extend(Queued, 0, 1000), Alone(), AtPush, []);
    Watching();
    var db := Ads.Consume(w.p, Watched().db, 1000, 0, 0);
    assert db.sessions == s'.db.sessions && db.grants == s'.db.grants && db.ops == s'.db.ops;
    assert Ads.Claim(w.p, Watched().db, 1000, 0, 0, 0)
        == Result.Ok((s'.db, Ads.Granted(0, 3_901_000, 60, Some(0))));
    assert VerifyRewardStep(w, Watched(), 0, 0, 0) == s';
    Follows(w, Watched(), VerifyReward(0, 0, 0), s');
  }

  lemma ExtendIsClaimed()
    ensures Reachable(SmallWorld(), Extended(Extend(InFlight, 1, 121_000), Alone(), AtPush,
                                             [Drainer([Held(0, 1)], AtDispatch)]))
  {
    var w, s := SmallWorld(), Extended(Extend(Queued, 0, 1000), Alone(), AtPush, []);
    Extending();
    assert Outbox.Due(1000)(s.db.ops[0]);
    var s' := ClaimWorkStep(w, s, [0]);
    assert s'.db.ops == [Extend(InFlight, 1, 121_000)];
    assert s'.flights[2].held == [Held(0, 1)];
    Follows(w, s, ClaimWork([0]),
            Extended(Extend(InFlight, 1, 121_000), Alone(), AtPush, [Drainer([Held(0, 1)], AtDispatch)]));
  }

  /** The drainer has succeeded while the inline push of the same extend is still under way. */
  function Twice(op: Op, push: PushStage): State { Extended(op, Longer(), push, [Drainer([], AtDispatch)]) }

  lemma ExtendSucceeds()
    ensures Reachable(SmallWorld(), Twice(Extend(Succeeded, 1, 121_000), AtPush))
  {
    var w, op := SmallWorld(), Extend(InFlight, 1, 121_000);
    var called := Extended(op, Longer(), AtPush, [Drainer([Held(0, 1)], AtMarkSucceeded)]);
    ExtendIsClaimed();
    Follows(w, Extended(op, Alone(), AtPush, [Drainer([Held(0, 1)], AtDispatch)]), Advance(2, Returned), called);
    var s' := DrainStep(w, called, 2, [Held(0, 1)], AtMarkSucceeded, Returned);
    assert s'.flights[2] == Drainer([], AtDispatch);
    assert s' == Twice(Extend(Succeeded, 1, 121_000), AtPush);
    Follows(w, called, Advance(2, Returned), s');
  }

  /** The inline push then throws, and its failure write reopens what the drainer had completed. */
  lemma SuccessMayBeUndone() returns (s: State, s': State)
    ensures Reachable(SmallWorld(), s) && |s.db.ops| == 1 && s.db.ops[0].status.Succeeded?
    ensures s' == Run(SmallWorld(), s, [Advance(1, Threw(false, true)), Advance(1, Returned)])
    ensures |s'.db.ops| == 1 && s'.db.ops[0] == s.db.ops[0].(status := Retrying, nextAt := s.clock + 15_000)
  {
    var w, op := SmallWorld(), Extend(Succeeded, 1, 121_000);
    ExtendSucceeds();
    s := Twice(op, AtPush);
    var thrown := Twice(op, AtMarkUnpushed);
    assert Step(w, s, Advance(1, Threw(false, true))) == thrown;
    s' := Step(w, thrown, Advance(1, Returned));
    assert s' == PushStep(w, thrown, 1, 0, 0, 3_901_000, AtMarkUnpushed, Returned);
    RunCons(w, s, Advance(1, Threw(false, true)), thrown, [Advance(1, Returned)]);
    RunCons(w, thrown, Advance(1, Returned), s', []);
    assert [Advance(1, Threw(false, true)), Advance(1, Returned)]
        == [Advance(1, Threw(false, true))] + [Advance(1, Returned)];
  }

  // ---- a connect after a ban ---------------------------------------------------------------------------

  /** The user is banned between the plan read and the transaction of their connect. */
  function Banned(db: DB): DB { db.(banned := {0}, audits := [BanUser(0, 0)]) }

  lemma BanHere()
    ensures Admin.Ban(FirstDB(), 0, [], 1000) == Banned(FirstDB())
  {
    var banned := Admin.Ban(FirstDB(), 0, [], 1000);
    assert banned.sessions == [] && banned.ops == [] && banned.banned == {0} && banned.audits == [BanUser(0, 0)];
  }

  lemma Banning()
    ensures Reachable(SmallWorld(), Before([Planned(0, 0, FreePlan())]).(db := Banned(FirstDB())))
  {
    var s := Before([Planned(0, 0, FreePlan())]);
    Planning();
    BanHere();
    StepBans(SmallWorld(), s, 0, []);
    Follows(SmallWorld(), s, Ban(0, []), s.(db := Banned(FirstDB())));
  }

  lemma StepBans(w: World, s: State, user: nat, ids: seq<nat>)
    ensures Step(w, s, Ban(user, ids)) == BanStep(s, user, ids)
  {}

  lemma BannedConnectTx()
    ensures Connection.ConnectTx(SmallWorld().p, Banned(FirstDB()), 1000, 0, 0, FreePlan(), 1000, [], Some(0))
         == Ok(Banned(Now(Provisioning, [], map[], []).db))
  {
    var r := Connection.ConnectTx(SmallWorld().p, Banned(FirstDB()), 1000, 0, 0, FreePlan(), 1000, [], Some(0));
    assert r.value.sessions == Now(Provisioning, [], map[], []).db.sessions;
    assert r.value.grants == Now(Provisioning, [], map[], []).db.grants;
    assert r.value.ops == [];
  }

  /** A connect already under way when its user is banned opens a session for the banned user. */
  lemma BannedUserMayConnect() returns (s: State)
    ensures Reachable(SmallWorld(), s) && 0 in s.db.banned
    ensures |s.db.sessions| == 1 && s.db.sessions[0].user == 0 && s.db.sessions[0].Live()
  {
    var w, before := SmallWorld(), Before([Planned(0, 0, FreePlan())]).(db := Banned(FirstDB()));
    var connected := Now(Provisioning, [], map[], [Connecting()]);
    s := connected.(db := Banned(connected.db));
    Banning();
    BannedConnectTx();
    TheNodeIsPicked(FirstDB().nodes);
    FirstCommitIs(w, before, 0, 0, FreePlan(), Some(0), s);
    CommitFollows(w, before, 0, 1000, [], Some(0), s);
  }
}
