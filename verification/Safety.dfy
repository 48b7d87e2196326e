/** The invariant of the protocol and the proof that every step keeps it. */
module Safety {
  import opened Prelude
  import opened Rows
  import opened Tables
  import opened Ledger
  import opened Funding
  import opened Panel
  import opened Protocol
  import Ads
  import Connection
  import Admin
  import Reaper

  /** An instant promised for session i: no later than what the database grants. */
  predicate Promised(db: DB, i: nat, ms: int)
  {
    i < |db.sessions| && 1000 <= ms <= db.sessions[i].expiresAt
  }

  ghost predicate FlightOk(w: World, db: DB, clock: int, fl: Flight)
  {
    match fl
    case Planned(_, _, plan) => Connection.PlanOk(w.p, plan, clock)
    case Displacing(i, ms, todo, _) =>
      Promised(db, i, ms) && forall j | 0 <= j < |todo| :: todo[j] < |db.sessions| && !db.sessions[todo[j]].Live()
    case Creating(i, ms) => Promised(db, i, ms)
    case Checking(i, ms) => Promised(db, i, ms)
    case Failing(i, stage) => i < |db.sessions| && (stage.AtEnqueue? ==> db.sessions[i].status.Failed?)
    case Pushing(k, i, ms, _) => k < |db.ops| && db.ops[k].work.ExtendUser? && Promised(db, i, ms)
    case Drainer(held, stage) =>
      && (forall j | 0 <= j < |held| :: held[j].op < |db.ops|)
      && (stage.AtDeleteUser? ==> held != [] && db.ops[held[0].op].work.RevokeUser?)
    case Ended => true
  }

  /** The panel never grants a user more time than the database grants its session. */
  ghost predicate PanelWithinDb(db: DB, users: Users)
  {
    forall u | u in users ::
      && u < |db.sessions|
      && users[u].expiresAt.Some? && users[u].expiresAt.value <= db.sessions[u].expiresAt
  }

  /** createUser is ahead of at most one activity per session, and never for a user that exists. */
  ghost predicate CreatedOnce(s: State)
  {
    forall f | 0 <= f < |s.flights| && (s.flights[f].Displacing? || s.flights[f].Creating?) ::
      && s.flights[f].session !in s.users
      && forall g | 0 <= g < |s.flights| && g != f :: !s.flights[g].WillCreate(s.flights[f].session)
  }

  ghost predicate FlightsOk(w: World, s: State)
  {
    forall f | 0 <= f < |s.flights| :: FlightOk(w, s.db, s.clock, s.flights[f])
  }

  ghost predicate Inv(w: World, s: State)
  {
    && w.p.Valid() && 1000 <= s.clock
    && LedgerOk(w.p, s.db) && FundingOk(s.db)
    && FlightsOk(w, s) && PanelWithinDb(s.db, s.users) && CreatedOnce(s)
  }

  /** What every step does to the tables and the clock. */
  ghost predicate Kept(w: World, s: State, s': State)
  {
    Inv(w, s') && Evolves(s.db, s'.db) && s.clock <= s'.clock
  }

  // ---- building blocks ---------------------------------------------------------------------

  lemma FlightStable(w: World, db: DB, db': DB, clock: int, clock': int, fl: Flight)
    requires FlightOk(w, db, clock, fl) && Evolves(db, db') && clock <= clock'
    ensures FlightOk(w, db', clock', fl)
  {}

  /** The tables may move on under every flight and under the panel. */
  lemma MoveOn(w: World, s: State, db': DB, clock': int)
    requires Inv(w, s) && LedgerOk(w.p, db') && FundingOk(db') && Evolves(s.db, db') && s.clock <= clock'
    ensures Kept(w, s, s.(db := db', clock := clock'))
  {
    forall f | 0 <= f < |s.flights| ensures FlightOk(w, db', clock', s.flights[f]) {
      FlightStable(w, s.db, db', s.clock, clock', s.flights[f]);
    }
    forall u | u in s.users
      ensures u < |db'.sessions| && s.users[u].expiresAt.Some?
          && s.users[u].expiresAt.value <= db'.sessions[u].expiresAt
    {
      assert SessionEvolves(s.db.sessions[u], db'.sessions[u]);
    }
  }

  lemma EvolvesSelf(db: DB)
    ensures Evolves(db, db)
  {}

  lemma LaunchKeeps(w: World, s: State, fl: Flight)
    requires Inv(w, s) && FlightOk(w, s.db, s.clock, fl) && !fl.Displacing? && !fl.Creating?
    ensures Kept(w, s, s.(flights := Launch(s, fl)))
  {}

  lemma BecomeKeeps(w: World, s: State, f: nat, fl: Flight)
    requires Inv(w, s) && f < |s.flights| && FlightOk(w, s.db, s.clock, fl)
    requires fl.Displacing? || fl.Creating? ==> s.flights[f].WillCreate(fl.session)
    ensures Kept(w, s, s.(flights := Become(s, f, fl)))
  {}

  /** A call on the panel that promises nothing beyond the database. */
  lemma CallKeeps(w: World, s: State, call: PanelCall, reply: Reply)
    requires Inv(w, s) && !call.CreateUser?
    requires call.SetUserExpiry? ==> Promised(s.db, call.user, call.ms)
    ensures Kept(w, s, CallPanel(w, s, call, reply).0)
  {
    EvolvesSelf(s.db);
    if call.SetUserExpiry? {
      StoredIsFaithful(w.panel, call.ms);
    }
  }

  lemma ThenKept(w: World, a: State, b: State, c: State)
    requires Kept(w, a, b) && Kept(w, b, c)
    ensures Kept(w, a, c)
  {}

  /** After a change that is kept, flight f may move on as well. */
  lemma ThenBecome(w: World, s: State, mid: State, f: nat, fl: Flight)
    requires Kept(w, s, mid) && f < |mid.flights| && FlightOk(w, mid.db, mid.clock, fl)
    requires fl.Displacing? || fl.Creating? ==> mid.flights[f].WillCreate(fl.session)
    ensures Kept(w, s, mid.(flights := Become(mid, f, fl)))
  {}

  lemma OpsTouchedKeeps(w: World, s: State, db': DB)
    requires Inv(w, s) && OpsTouched(s.db, db')
    ensures Kept(w, s, s.(db := db'))
  {
    OpsTouchedKeepsLedger(w.p, s.db, db');
    NeutralKeepsFunding(s.db, db');
    MoveOn(w, s, db', s.clock);
  }

  // ---- flights ----------------------------------------------------------------------------------

  lemma DisplaceKeeps(w: World, s: State, f: nat, i: nat, ms: int, todo: seq<nat>, stage: DisplaceStage, reply: Reply)
    requires Inv(w, s) && f < |s.flights| && s.flights[f] == Displacing(i, ms, todo, stage)
    ensures Kept(w, s, DisplaceStep(w, s, f, i, ms, todo, stage, reply))
  {
    assert FlightOk(w, s.db, s.clock, s.flights[f]);
    var s' := DisplaceStep(w, s, f, i, ms, todo, stage, reply);
    if todo == [] {
      BecomeKeeps(w, s, f, s'.flights[f]);
    } else {
      var mid := match stage
        case AtDisable => CallPanel(w, s, DisableUser(todo[0]), reply).0
        case AtDelete => CallPanel(w, s, PanelCall.DeleteUser(todo[0]), reply).0
        case AtMark => s.(db := s'.db);
      match stage {
        case AtDisable => CallKeeps(w, s, DisableUser(todo[0]), reply);
        case AtDelete => CallKeeps(w, s, PanelCall.DeleteUser(todo[0]), reply);
        case AtMark => OpsTouchedKeeps(w, s, s'.db);
      }
      assert FlightOk(w, mid.db, mid.clock, mid.flights[f]);
      ThenBecome(w, s, mid, f, s'.flights[f]);
    }
  }

  lemma CreateKeeps(w: World, s: State, f: nat, i: nat, ms: int, reply: Reply)
    requires Inv(w, s) && f < |s.flights| && s.flights[f] == Creating(i, ms)
    ensures Kept(w, s, AdvanceStep(w, s, f, reply))
  {
    assert FlightOk(w, s.db, s.clock, s.flights[f]);
    StoredIsFaithful(w.panel, ms);
    EvolvesSelf(s.db);
    var s' := AdvanceStep(w, s, f, reply);
    forall u | u in s'.users
      ensures u < |s.db.sessions| && s'.users[u].expiresAt.Some?
          && s'.users[u].expiresAt.value <= s.db.sessions[u].expiresAt
    {
      EffectIsLocal(w.panel, s.users, s.clock, CreateUser(i, ms), u);
    }
    forall g | 0 <= g < |s'.flights| && (s'.flights[g].Displacing? || s'.flights[g].Creating?)
      ensures s'.flights[g].session !in s'.users
      ensures forall h | 0 <= h < |s'.flights| && h != g :: !s'.flights[h].WillCreate(s'.flights[g].session)
    {
      assert g != f && !s.flights[g].WillCreate(i);
      EffectIsLocal(w.panel, s.users, s.clock, CreateUser(i, ms), s'.flights[g].session);
    }
  }

  lemma FailKeeps(w: World, s: State, f: nat, i: nat, stage: FailStage, reply: Reply)
    requires Inv(w, s) && f < |s.flights| && s.flights[f] == Failing(i, stage)
    ensures Kept(w, s, FailStep(s, f, i, stage, reply))
  {
    assert FlightOk(w, s.db, s.clock, s.flights[f]);
    var s' := FailStep(s, f, i, stage, reply);
    var mid := s.(db := s'.db);
    EvolvesSelf(s.db);
    if s'.db != s.db {
      match stage {
        case AtMarkFailed =>
          FailKeepsLedger(w.p, s.db, i);
          NeutralKeepsFunding(s.db, s'.db);
        case AtEnqueue =>
          EnqueueDeleteKeepsLedger(w.p, s.db, i, s.clock);
          NeutralKeepsFunding(s.db, s'.db);
        case AtPenalize =>
          Admin.FlagsKeep(w.p, s.db, s'.db);
      }
    }
    MoveOn(w, s, s'.db, s.clock);
    ThenBecome(w, s, mid, f, s'.flights[f]);
  }

  lemma PushKeeps(w: World, s: State, f: nat, k: nat, i: nat, ms: int, stage: PushStage, reply: Reply)
    requires Inv(w, s) && f < |s.flights| && s.flights[f] == Pushing(k, i, ms, stage)
    ensures Kept(w, s, PushStep(w, s, f, k, i, ms, stage, reply))
  {
    assert FlightOk(w, s.db, s.clock, s.flights[f]);
    var s' := PushStep(w, s, f, k, i, ms, stage, reply);
    var mid := s.(db := s'.db, users := s'.users);
    match stage {
      case AtPush => CallKeeps(w, s, SetUserExpiry(i, ms), reply);
      case AtMarkPushed => OpsTouchedKeeps(w, s, s'.db);
      case AtSyncTime => EvolvesSelf(s.db);
      case AtMarkUnpushed => OpsTouchedKeeps(w, s, s'.db);
    }
    assert FlightOk(w, mid.db, mid.clock, mid.flights[f]);
    ThenBecome(w, s, mid, f, s'.flights[f]);
  }

  /** The call a held row asks for promises nothing beyond the database. */
  lemma DispatchKeeps(w: World, s: State, k: nat, reply: Reply)
    requires Inv(w, s) && k < |s.db.ops|
    ensures var o := s.db.ops[k];
            match o.work
            case ExtendUser(epoch) => Kept(w, s, CallPanel(w, s, SetUserExpiry(o.session, epoch * 1000), reply).0)
            case RevokeUser => Kept(w, s, CallPanel(w, s, DisableUser(o.session), reply).0)
            case DeleteUser => Kept(w, s, CallPanel(w, s, PanelCall.DeleteUser(o.session), reply).0)
  {
    var o := s.db.ops[k];
    assert OpOk(s.db, o);
    match o.work
    case ExtendUser(epoch) => CallKeeps(w, s, SetUserExpiry(o.session, epoch * 1000), reply);
    case RevokeUser => CallKeeps(w, s, DisableUser(o.session), reply);
    case DeleteUser => CallKeeps(w, s, PanelCall.DeleteUser(o.session), reply);
  }

  lemma DrainCallKeeps(w: World, s: State, f: nat, held: seq<Held>, stage: DrainStage, reply: Reply)
    requires Inv(w, s) && f < |s.flights| && s.flights[f] == Drainer(held, stage) && held != []
    requires stage.AtDispatch? || stage.AtDeleteUser?
    ensures Kept(w, s, DrainStep(w, s, f, held, stage, reply))
  {
    assert FlightOk(w, s.db, s.clock, s.flights[f]);
    var s' := DrainStep(w, s, f, held, stage, reply);
    EvolvesSelf(s.db);
    if stage.AtDispatch? {
      DispatchKeeps(w, s, held[0].op, reply);
    } else {
      CallKeeps(w, s, PanelCall.DeleteUser(s.db.ops[held[0].op].session), reply);
    }
    ThenBecome(w, s, s.(users := s'.users), f, s'.flights[f]);
  }

  lemma DrainMarkKeeps(w: World, s: State, f: nat, held: seq<Held>, stage: DrainStage, reply: Reply)
    requires Inv(w, s) && f < |s.flights| && s.flights[f] == Drainer(held, stage) && held != []
    requires stage.AtMarkSucceeded? || stage.AtMarkUndelivered?
    ensures Kept(w, s, DrainStep(w, s, f, held, stage, reply))
  {
    assert FlightOk(w, s.db, s.clock, s.flights[f]);
    var s' := DrainStep(w, s, f, held, stage, reply);
    var mid := s.(db := s'.db);
    OpsTouchedKeeps(w, s, s'.db);
    assert FlightOk(w, mid.db, mid.clock, mid.flights[f]);
    ThenBecome(w, s, mid, f, s'.flights[f]);
  }

  lemma AdvanceKeeps(w: World, s: State, f: nat, reply: Reply)
    requires Inv(w, s) && f < |s.flights|
    ensures Kept(w, s, AdvanceStep(w, s, f, reply))
  {
    EvolvesSelf(s.db);
    assert FlightOk(w, s.db, s.clock, s.flights[f]);
    match s.flights[f]
    case Displacing(i, ms, todo, stage) => DisplaceKeeps(w, s, f, i, ms, todo, stage, reply);
    case Creating(i, ms) => CreateKeeps(w, s, f, i, ms, reply);
    case Checking(i, ms) => BecomeKeeps(w, s, f, AdvanceStep(w, s, f, reply).flights[f]);
    case Failing(i, stage) => FailKeeps(w, s, f, i, stage, reply);
    case Pushing(k, i, ms, stage) => PushKeeps(w, s, f, k, i, ms, stage, reply);
    case Drainer(held, stage) =>
      if held == [] {
        BecomeKeeps(w, s, f, Ended);
      } else {
        if stage.AtDispatch? || stage.AtDeleteUser? {
          DrainCallKeeps(w, s, f, held, stage, reply);
        } else {
          DrainMarkKeeps(w, s, f, held, stage, reply);
        }
      }
    case Planned(_, _, _) =>
    case Ended =>
  }

  // ---- transactions -------------------------------------------------------------------------------

  lemma VerifyRewardKeeps(w: World, s: State, user: nat, grant: nat, session: nat)
    requires Inv(w, s)
    ensures Kept(w, s, VerifyRewardStep(w, s, user, grant, session))
  {
    var r := Ads.Claim(w.p, s.db, s.clock, user, grant, session);
    EvolvesSelf(s.db);
    if r.Ok? {
      var (db', c) := r.value;
      var mid := s.(db := db');
      Ads.ClaimKeeps(w.p, s.db, s.clock, user, grant, session);
      MoveOn(w, s, db', s.clock);
      if c.Granted? && c.op.Some? {
        Ads.ClaimBoundsExpiry(w.p, s.db, s.clock, user, grant, session);
        assert SessionOk(w.p, db', session);
        var fl := Pushing(c.op.value, c.session, c.expiresAt, AtPush);
        LaunchKeeps(w, mid, fl);
        ThenKept(w, s, mid, mid.(flights := Launch(mid, fl)));
      }
    }
  }

  /** A session just inserted is no other flight's and no panel user's yet. */
  lemma NewbornKeeps(w: World, s: State, mid: State, f: nat, fl: Flight)
    requires Inv(w, s) && Kept(w, s, mid) && mid == s.(db := mid.db) && f < |s.flights|
    requires fl.Displacing? && fl.session == |s.db.sessions| && FlightOk(w, mid.db, mid.clock, fl)
    ensures Kept(w, s, mid.(flights := Become(mid, f, fl)))
  {
    forall g | 0 <= g < |s.flights| ensures !s.flights[g].WillCreate(fl.session) {
      assert FlightOk(w, s.db, s.clock, s.flights[g]);
    }
  }

  lemma CommitConnectKeeps(w: World, s: State, f: nat, createdAt: int, order: seq<nat>, pick: Option<nat>)
    requires Inv(w, s)
    ensures Kept(w, s, CommitConnectStep(w, s, f, createdAt, order, pick))
  {
    var s' := CommitConnectStep(w, s, f, createdAt, order, pick);
    EvolvesSelf(s.db);
    if s' != s {
      var fl := s.flights[f];
      assert FlightOk(w, s.db, s.clock, fl);
      if s'.flights[f].Ended? {
        BecomeKeeps(w, s, f, Ended);
      } else {
        var mid := s.(db := s'.db);
        Connection.ConnectKeeps(w.p, s.db, s.clock, fl.user, fl.device, fl.plan, createdAt, order, pick);
        MoveOn(w, s, s'.db, s.clock);
        NewFlightOk(w, s, f, createdAt, order, pick);
        NewbornKeeps(w, s, mid, f, s'.flights[f]);
      }
    }
  }

  lemma NewFlightOk(w: World, s: State, f: nat, createdAt: int, order: seq<nat>, pick: Option<nat>)
    requires Inv(w, s) && f < |s.flights| && s.flights[f].Planned?
    requires CommitConnectStep(w, s, f, createdAt, order, pick) != s
    requires CommitConnectStep(w, s, f, createdAt, order, pick).flights[f].Displacing?
    ensures var s' := CommitConnectStep(w, s, f, createdAt, order, pick);
            FlightOk(w, s'.db, s'.clock, s'.flights[f]) && s'.flights[f].session == |s.db.sessions|
  {
    var fl := s.flights[f];
    assert FlightOk(w, s.db, s.clock, fl);
    var evicted := order[..Connection.Overflow(|order|, fl.plan.maxConcurrent)];
    forall j | 0 <= j < |evicted| ensures evicted[j] in evicted && evicted[j] < |s.db.sessions| {}
  }

  lemma ClaimWorkKeeps(w: World, s: State, picked: seq<nat>)
    requires Inv(w, s)
    ensures Kept(w, s, ClaimWorkStep(w, s, picked))
  {
    var s' := ClaimWorkStep(w, s, picked);
    EvolvesSelf(s.db);
    if s' != s {
      var mid := s.(db := s'.db);
      OpsTouchedKeeps(w, s, s'.db);
      LaunchKeeps(w, mid, s'.flights[|s.flights|]);
      ThenKept(w, s, mid, s');
    }
  }

  lemma SweepKeeps(w: World, s: State, picked: seq<nat>)
    requires Inv(w, s)
    ensures Kept(w, s, SweepStep(w, s, picked))
  {
    EvolvesSelf(s.db);
    if SweepAllowed(w, s, picked) {
      Admin.CloseListedKeeps(w.p, s.db, picked, Expired, Work.DeleteUser, s.clock);
      MoveOn(w, s, Reaper.SweepBatch(s.db, picked, s.clock), s.clock);
    }
  }

  lemma BanKeeps(w: World, s: State, user: nat, ids: seq<nat>)
    requires Inv(w, s)
    ensures Kept(w, s, BanStep(s, user, ids))
  {
    EvolvesSelf(s.db);
    if Lists(ids, s.db.sessions, LiveOf(user)) {
      Admin.BanKeeps(w.p, s.db, user, ids, s.clock);
      MoveOn(w, s, Admin.Ban(s.db, user, ids, s.clock), s.clock);
    }
  }

  lemma PanicKeeps(w: World, s: State, ids: seq<nat>)
    requires Inv(w, s)
    ensures Kept(w, s, PanicStep(s, ids))
  {
    EvolvesSelf(s.db);
    if Lists(ids, s.db.sessions, LiveFree()) {
      Admin.PanicKeeps(w.p, s.db, ids, s.clock);
      MoveOn(w, s, Admin.Panic(s.db, ids, s.clock), s.clock);
    }
  }

  lemma MigrateKeeps(w: World, s: State, n: nat, ids: seq<nat>)
    requires Inv(w, s)
    ensures Kept(w, s, MigrateStep(s, n, ids))
  {
    EvolvesSelf(s.db);
    if Lists(ids, s.db.sessions, LiveOn(n)) && n < |s.db.nodes| {
      Admin.MigrateKeeps(w.p, s.db, n, ids, s.clock);
      MoveOn(w, s, Admin.Migrate(s.db, n, ids, s.clock).value, s.clock);
    }
  }

  /** What a step keeps depends only on where it leads. */
  lemma KeptIs(w: World, s: State, a: State, b: State)
    requires Kept(w, s, a) && a == b
    ensures Kept(w, s, b)
  {}

  lemma SweepActionKeeps(w: World, s: State, a: Action)
    requires Inv(w, s) && a.Sweep?
    ensures Kept(w, s, Step(w, s, a))
  {
    SweepKeeps(w, s, a.picked);
    KeptIs(w, s, SweepStep(w, s, a.picked), Step(w, s, a));
  }

  lemma BanActionKeeps(w: World, s: State, a: Action)
    requires Inv(w, s) && a.Ban?
    ensures Kept(w, s, Step(w, s, a))
  {
    BanKeeps(w, s, a.user, a.ids);
    KeptIs(w, s, BanStep(s, a.user, a.ids), Step(w, s, a));
  }

  lemma PanicActionKeeps(w: World, s: State, a: Action)
    requires Inv(w, s) && a.Panic?
    ensures Kept(w, s, Step(w, s, a))
  {
    PanicKeeps(w, s, a.ids);
    KeptIs(w, s, PanicStep(s, a.ids), Step(w, s, a));
  }

  lemma MigrateActionKeeps(w: World, s: State, a: Action)
    requires Inv(w, s) && a.Migrate?
    ensures Kept(w, s, Step(w, s, a))
  {
    MigrateKeeps(w, s, a.node, a.ids);
    KeptIs(w, s, MigrateStep(s, a.node, a.ids), Step(w, s, a));
  }

  /** A transaction that keeps both invariants may commit or roll back. */
  lemma CommitKeeps<E>(w: World, s: State, r: Result<DB, E>)
    requires Inv(w, s)
    requires r.Ok? ==> LedgerOk(w.p, r.value) && FundingOk(r.value) && Evolves(s.db, r.value)
    ensures Kept(w, s, Commit(s, r))
  {}

  lemma RequestTokenKeeps(w: World, s: State, user: nat, device: nat, purpose: Purpose, bound: Option<nat>)
    requires Inv(w, s)
    ensures Kept(w, s, Commit(s, Ads.RequestToken(w.p, s.db, s.clock, user, device, purpose, bound)))
  {
    Ads.RequestTokenKeeps(w.p, s.db, s.clock, user, device, purpose, bound);
    CommitKeeps(w, s, Ads.RequestToken(w.p, s.db, s.clock, user, device, purpose, bound));
  }

  lemma SsvCallbackKeeps(w: World, s: State, c: Ads.Callback)
    requires Inv(w, s)
    ensures Kept(w, s, Commit(s, Ads.RecordReward(s.db, c)))
  {
    Ads.RecordRewardKeeps(w.p, s.db, c);
    CommitKeeps(w, s, Ads.RecordReward(s.db, c));
  }

  lemma KickKeeps(w: World, s: State, a: Action)
    requires Inv(w, s) && a.Kick?
    ensures Kept(w, s, Step(w, s, a))
  {
    if a.session < |s.db.sessions| { Admin.KickKeeps(w.p, s.db, a.session, s.clock); }
    CommitKeeps(w, s, Admin.Kick(s.db, a.session, s.clock));
    KeptIs(w, s, Commit(s, Admin.Kick(s.db, a.session, s.clock)), Step(w, s, a));
  }

  /** Flags of nodes, the audit log and the ban list. */
  lemma FlagsKeep(w: World, s: State, db': DB)
    requires Inv(w, s)
    requires db' == s.db.(nodes := db'.nodes, audits := db'.audits, banned := db'.banned)
    requires |db'.nodes| == |s.db.nodes| && forall n | 0 <= n < |s.db.nodes| :: NodeEvolves(s.db.nodes[n], db'.nodes[n])
    ensures Kept(w, s, s.(db := db'))
  {
    Admin.FlagsKeep(w.p, s.db, db');
    MoveOn(w, s, db', s.clock);
  }

  lemma ReadPlanKeeps(w: World, s: State, a: Action)
    requires Inv(w, s) && a.ReadPlan?
    ensures Kept(w, s, Step(w, s, a))
  {
    EvolvesSelf(s.db);
    if !(a.best.Some? && !Connection.Entitles(a.best.value, s.clock)) {
      LaunchKeeps(w, s, Planned(a.user, a.device, Connection.Resolve(w.p, a.best, a.freePlanMax, s.clock)));
    }
  }

  lemma FlagActionKeeps(w: World, s: State, a: Action)
    requires Inv(w, s) && (a.Unban? || a.SetNodeActive? || a.SyncNode?)
    ensures Kept(w, s, Step(w, s, a))
  {
    EvolvesSelf(s.db);
    match a
    case Unban(user) => FlagsKeep(w, s, Admin.Unban(s.db, user));
    case SetNodeActive(n, isActive) =>
      if n < |s.db.nodes| { FlagsKeep(w, s, Admin.SetNodeActive(s.db, n, isActive).value); }
    case SyncNode(n, online) => FlagsKeep(w, s, Admin.SyncNode(s.db, n, online));
  }

  /** The steps that change no table: a plan is read, a flight moves on or is lost, time passes. */
  lemma VolatileKeeps(w: World, s: State, a: Action)
    requires Inv(w, s) && (a.Wait? || a.ReadPlan? || a.Crash?)
    ensures Kept(w, s, Step(w, s, a))
  {
    EvolvesSelf(s.db);
    match a
    case Wait(ms) => MoveOn(w, s, s.db, s.clock + ms);
    case ReadPlan(_, _, _, _) => ReadPlanKeeps(w, s, a);
    case Crash(f) => if f < |s.flights| { BecomeKeeps(w, s, f, Ended); }
  }

  lemma AdvanceActionKeeps(w: World, s: State, a: Action)
    requires Inv(w, s) && a.Advance?
    ensures Kept(w, s, Step(w, s, a))
  {
    EvolvesSelf(s.db);
    if a.flight < |s.flights| { AdvanceKeeps(w, s, a.flight, a.reply); }
  }

  /** Every step keeps the invariant, whatever it is and whoever takes it. */
  lemma StepKeeps(w: World, s: State, a: Action)
    requires Inv(w, s)
    ensures Kept(w, s, Step(w, s, a))
  {
    match a
    case RequestToken(user, device, purpose, bound) => RequestTokenKeeps(w, s, user, device, purpose, bound);
    case SsvCallback(data, transaction) => SsvCallbackKeeps(w, s, Ads.Callback(data, transaction, s.clock));
    case VerifyReward(user, grant, session) => VerifyRewardKeeps(w, s, user, grant, session);
    case CommitConnect(f, createdAt, order, pick) => CommitConnectKeeps(w, s, f, createdAt, order, pick);
    case ClaimWork(picked) => ClaimWorkKeeps(w, s, picked);
    case Advance(_, _) => AdvanceActionKeeps(w, s, a);
    case Wait(_) => VolatileKeeps(w, s, a);
    case ReadPlan(_, _, _, _) => VolatileKeeps(w, s, a);
    case Crash(_) => VolatileKeeps(w, s, a);
    case Sweep(_) => SweepActionKeeps(w, s, a);
    case Kick(_) => KickKeeps(w, s, a);
    case Ban(_, _) => BanActionKeeps(w, s, a);
    case Panic(_) => PanicActionKeeps(w, s, a);
    case Migrate(_, _) => MigrateActionKeeps(w, s, a);
    case _ => FlagActionKeeps(w, s, a);
  }

  /** Whatever happens from a state that satisfies the invariant, it holds ever after. */
  lemma {:induction false} RunKeeps(w: World, s: State, actions: seq<Action>)
    requires Inv(w, s)
    ensures Kept(w, s, Run(w, s, actions))
    decreases |actions|
  {
    if actions == [] {
      EvolvesSelf(s.db);
    } else {
      StepKeeps(w, s, actions[0]);
      RunKeeps(w, Step(w, s, actions[0]), actions[1..]);
      ThenKept(w, s, Step(w, s, actions[0]), Run(w, s, actions));
    }
  }

  lemma InitialSatisfies(w: World, s: State)
    requires Initial(w, s)
    ensures Inv(w, s)
  {}
}
