/**
 * The whole backend as one state machine. A transaction body is one atomic step; between
 * any two awaits of anything else, every other activity of the system may run. The
 * volatile activities in progress ("flights") hold only what the process that runs them
 * holds; a crash forgets them.
 */
module Protocol {
  import opened Prelude
  import opened Rows
  import opened Tables
  import opened Panel
  import Ads
  import Connection
  import Outbox
  import Admin
  import Reaper

  // ---- activities in progress ---------------------------------------------------------

  datatype DisplaceStage = AtDisable | AtDelete | AtMark
  datatype FailStage = AtMarkFailed | AtEnqueue | AtPenalize
  datatype PushStage = AtPush | AtMarkPushed | AtSyncTime | AtMarkUnpushed
  datatype DrainStage = AtDispatch | AtDeleteUser | AtMarkSucceeded | AtMarkUndelivered(retryable: bool)

  /** A claimed outbox row as its worker holds it. */
  datatype Held = Held(op: nat, attempts: nat)

  datatype Flight =
    /** connect, plan read, transaction not yet run */
    | Planned(user: nat, device: nat, plan: Connection.Plan)
    /** connect committed, dropping the displaced users inline */
    | Displacing(session: nat, ms: int, todo: seq<nat>, displace: DisplaceStage)
    /** connect about to create the panel user */
    | Creating(session: nat, ms: int)
    /** connect about to read the created user back */
    | Checking(session: nat, ms: int)
    /** connect cleaning up after the panel */
    | Failing(session: nat, fail: FailStage)
    /** verifyAdReward pushing the new expiry inline */
    | Pushing(op: nat, session: nat, ms: int, push: PushStage)
    /** a drainer with the rows it has still to dispatch */
    | Drainer(held: seq<Held>, drain: DrainStage)
    /** finished, or forgotten in a crash */
    | Ended
  {
    /** Whether createUser for session i is still ahead. */
    predicate WillCreate(i: nat) { (Displacing? || Creating?) && session == i }

    /** Whether the flight may still queue the removal of session i. */
    predicate MayReclaim(i: nat) {
      || ((Displacing? || Creating? || Checking?) && session == i)
      || (Failing? && session == i && !fail.AtPenalize?)
    }

    /** Whether the flight may still write the status of row k. */
    predicate Names(k: nat) { Pushes(k) || Holds(k) }

    predicate Pushes(k: nat) { Pushing? && op == k }

    predicate Holds(k: nat) { Drainer? && exists j | 0 <= j < |held| :: held[j].op == k }

    /** Whether the flight is not about to report any removal. */
    predicate Silent() { !(Displacing? && displace.AtMark?) && !(Drainer? && drain.AtMarkSucceeded?) }

    /**
     * Whether the next write of the flight may say in row k, which reads o, that the user of
     * session i is removed.
     */
    predicate CanReport(o: Op, i: nat, k: nat) {
      || (Displacing? && displace.AtMark? && todo != [] && todo[0] == i && o.work.RevokeUser? && o.status.Queued?)
      || (Drainer? && drain.AtMarkSucceeded? && held != [] && held[0].op == k)
    }
  }

  datatype State = State(clock: int, db: DB, users: Users, flights: seq<Flight>)

  /** Everything fixed at deployment. */
  datatype World = World(p: Settings, panel: PanelKind)

  // ---- steps ------------------------------------------------------------------------------

  datatype Action =
    | Wait(ms: nat)
    | RequestToken(user: nat, device: nat, purpose: Purpose, bound: Option<nat>)
    | SsvCallback(data: Ads.CustomData, transaction: nat)
    | VerifyReward(user: nat, grant: nat, session: nat)
    | ReadPlan(user: nat, device: nat, best: Option<Connection.Subscription>, freePlanMax: Option<nat>)
    | CommitConnect(flight: nat, createdAt: int, order: seq<nat>, pick: Option<nat>)
    | Advance(flight: nat, reply: Reply)
    | Crash(flight: nat)
    | Sweep(picked: seq<nat>)
    | Kick(session: nat)
    | Ban(user: nat, ids: seq<nat>)
    | Unban(user: nat)
    | Panic(ids: seq<nat>)
    | Migrate(node: nat, ids: seq<nat>)
    | SetNodeActive(node: nat, isActive: bool)
    | SyncNode(node: nat, online: bool)
    | ClaimWork(picked: seq<nat>)

  function Launch(s: State, f: Flight): seq<Flight> { s.flights + [f] }

  function Become(s: State, f: nat, flight: Flight): seq<Flight>
    requires f < |s.flights|
  {
    s.flights[f := flight]
  }

  /**
   * One step. An action that is not possible in the state, and a transaction that
   * throws, leave it as it is.
   */
  ghost function Step(w: World, s: State, a: Action): State
  {
    match a
    case Wait(ms) => s.(clock := s.clock + ms)
    case RequestToken(user, device, purpose, bound) =>
      Commit(s, Ads.RequestToken(w.p, s.db, s.clock, user, device, purpose, bound))
    case SsvCallback(data, transaction) => Commit(s, Ads.RecordReward(s.db, Ads.Callback(data, transaction, s.clock)))
    case VerifyReward(user, grant, session) => VerifyRewardStep(w, s, user, grant, session)
    case ReadPlan(user, device, best, freePlanMax) =>
      if best.Some? && !Connection.Entitles(best.value, s.clock) then s
      else s.(flights := Launch(s, Planned(user, device, Connection.Resolve(w.p, best, freePlanMax, s.clock))))
    case CommitConnect(f, createdAt, order, pick) => CommitConnectStep(w, s, f, createdAt, order, pick)
    case Advance(f, reply) => if f < |s.flights| then AdvanceStep(w, s, f, reply) else s
    case Crash(f) => if f < |s.flights| then s.(flights := Become(s, f, Ended)) else s
    case Sweep(picked) => SweepStep(w, s, picked)
    case Kick(i) => Commit(s, Admin.Kick(s.db, i, s.clock))
    case Ban(user, ids) => BanStep(s, user, ids)
    case Unban(user) => s.(db := Admin.Unban(s.db, user))
    case Panic(ids) => PanicStep(s, ids)
    case Migrate(n, ids) => MigrateStep(s, n, ids)
    case SetNodeActive(n, isActive) => Commit(s, Admin.SetNodeActive(s.db, n, isActive))
    case SyncNode(n, online) => s.(db := Admin.SyncNode(s.db, n, online))
    case ClaimWork(picked) => ClaimWorkStep(w, s, picked)
  }

  function Commit<E>(s: State, r: Result<DB, E>): State
  {
    if r.Ok? then s.(db := r.value) else s
  }

  /** `ids`: the rows the bulk update returns, in any order. */
  ghost function BanStep(s: State, user: nat, ids: seq<nat>): State
  {
    if Lists(ids, s.db.sessions, LiveOf(user)) then s.(db := Admin.Ban(s.db, user, ids, s.clock)) else s
  }

  ghost function PanicStep(s: State, ids: seq<nat>): State
  {
    if Lists(ids, s.db.sessions, LiveFree()) then s.(db := Admin.Panic(s.db, ids, s.clock)) else s
  }

  ghost function MigrateStep(s: State, n: nat, ids: seq<nat>): State
  {
    if Lists(ids, s.db.sessions, LiveOn(n)) then Commit(s, Admin.Migrate(s.db, n, ids, s.clock)) else s
  }

  function VerifyRewardStep(w: World, s: State, user: nat, grant: nat, session: nat): State
  {
    var r := Ads.Claim(w.p, s.db, s.clock, user, grant, session);
    if r.Err? then s
    else
      var (db', c) := r.value;
      if c.Granted? && c.op.Some? then
        s.(db := db', flights := Launch(s, Pushing(c.op.value, c.session, c.expiresAt, AtPush)))
      else s.(db := db')
  }

  ghost function CommitConnectStep(w: World, s: State, f: nat, createdAt: int, order: seq<nat>,
                                   pick: Option<nat>): State
  {
    if f < |s.flights| && s.flights[f].Planned? then
      var fl := s.flights[f];
      if fl.plan.readAt <= createdAt <= s.clock
         && Connection.LiveOrder(s.db.sessions, fl.user, order) && Connection.Picks(s.db.nodes, fl.plan.tier, pick) then
        var r := Connection.ConnectTx(w.p, s.db, s.clock, fl.user, fl.device, fl.plan, createdAt, order, pick);
        if r.Ok? then
          var evicted := order[..Connection.Overflow(|order|, fl.plan.maxConcurrent)];
          s.(db := r.value,
             flights := Become(s, f, Displacing(|s.db.sessions|, fl.plan.expiresAt, evicted, AtDisable)))
        else s.(flights := Become(s, f, Ended))
      else s
    else s
  }

  /** `for update skip locked limit REAP_BATCH`: any overdue rows, rows locked elsewhere left out. */
  ghost predicate SweepAllowed(w: World, s: State, picked: seq<nat>)
  {
    && Distinct(picked) && |picked| <= w.p.reapBatch
    && forall j | 0 <= j < |picked| :: picked[j] < |s.db.sessions| && Overdue(s.clock)(s.db.sessions[picked[j]])
  }

  ghost function SweepStep(w: World, s: State, picked: seq<nat>): State
  {
    if SweepAllowed(w, s, picked) then s.(db := Reaper.SweepBatch(s.db, picked, s.clock)) else s
  }

  /** What the claim hands its worker. */
  function HeldRows(ops: seq<Op>, picked: seq<nat>): (held: seq<Held>)
    requires forall j | 0 <= j < |picked| :: picked[j] < |ops|
    ensures |held| == |picked|
  {
    seq(|picked|, j requires 0 <= j < |picked| => Held(picked[j], ops[picked[j]].attempts))
  }

  ghost function ClaimWorkStep(w: World, s: State, picked: seq<nat>): State
  {
    if && Distinct(picked) && |picked| <= w.p.batch
       && forall j | 0 <= j < |picked| :: picked[j] < |s.db.ops| && Outbox.Due(s.clock)(s.db.ops[picked[j]])
    then
      var ops := Outbox.ClaimOps(s.db.ops, picked, s.clock, w.p.leaseMs);
      s.(db := s.db.(ops := ops), flights := Launch(s, Drainer(HeldRows(ops, picked), AtDispatch)))
    else s
  }

  // ---- the next await of a flight --------------------------------------------------------------

  function AdvanceStep(w: World, s: State, f: nat, reply: Reply): (r: State)
    requires f < |s.flights|
    ensures |r.flights| == |s.flights|
  {
    match s.flights[f]
    case Displacing(i, ms, todo, stage) => DisplaceStep(w, s, f, i, ms, todo, stage, reply)
    case Creating(i, ms) =>
      var (s', seen) := CallPanel(w, s, CreateUser(i, ms), reply);
      s'.(flights := Become(s', f, if seen.Returned? then Checking(i, ms) else Failing(i, AtMarkFailed)))
    case Checking(i, ms) =>
      var stored := if i in s.users then s.users[i].expiresAt else None;
      s.(flights := Become(s, f, if reply.Returned? && ExpiryMatches(stored, ms) then Ended
                           else Failing(i, AtMarkFailed)))
    case Failing(i, stage) => FailStep(s, f, i, stage, reply)
    case Pushing(k, i, ms, stage) => PushStep(w, s, f, k, i, ms, stage, reply)
    case Drainer(held, stage) => if held == [] then s.(flights := Become(s, f, Ended))
        else DrainStep(w, s, f, held, stage, reply)
    case Planned(_, _, _) => s
    case Ended => s
  }

  function CallPanel(w: World, s: State, call: PanelCall, reply: Reply): (r: (State, Reply))
    ensures r.0.flights == s.flights && r.0.db == s.db && r.0.clock == s.clock
  {
    var seen := Seen(w.panel, s.users, s.clock, call, reply);
    (s.(users := After(w.panel, s.users, s.clock, call, seen)), seen)
  }

  /** Best-effort inline removal: any error moves on to the next displaced user. */
  function DisplaceStep(w: World, s: State, f: nat, i: nat, ms: int, todo: seq<nat>, stage: DisplaceStage,
                        reply: Reply): (r: State)
    requires f < |s.flights|
    ensures |r.flights| == |s.flights|
  {
    if todo == [] then s.(flights := Become(s, f, Creating(i, ms)))
    else
      var next := Displacing(i, ms, todo[1..], AtDisable);
      match stage
      case AtDisable =>
        var (s', seen) := CallPanel(w, s, DisableUser(todo[0]), reply);
        s'.(flights := Become(s', f, if seen.Returned? then Displacing(i, ms, todo, AtDelete) else next))
      case AtDelete =>
        var (s', seen) := CallPanel(w, s, PanelCall.DeleteUser(todo[0]), reply);
        s'.(flights := Become(s', f, if seen.Returned? then Displacing(i, ms, todo, AtMark) else next))
      case AtMark =>
        s.(db := if Applied(reply) then Connection.MarkInlineRevoked(s.db, todo[0]) else s.db,
           flights := Become(s, f, next))
  }

  /** Three statements; an error in one abandons the rest. */
  function FailStep(s: State, f: nat, i: nat, stage: FailStage, reply: Reply): (r: State)
    requires f < |s.flights|
    ensures |r.flights| == |s.flights|
  {
    if |s.db.sessions| <= i then s
    else match stage
      case AtMarkFailed =>
        s.(db := if Applied(reply) then Connection.MarkFailed(s.db, i) else s.db,
           flights := Become(s, f, if reply.Returned? then Failing(i, AtEnqueue) else Ended))
      case AtEnqueue =>
        s.(db := if Applied(reply) then Connection.EnqueueDelete(s.db, i, s.clock) else s.db,
           flights := Become(s, f, if reply.Returned? then Failing(i, AtPenalize) else Ended))
      case AtPenalize =>
        var n := s.db.sessions[i].node;
        s.(db := if Applied(reply) && n < |s.db.nodes| then Connection.Penalize(s.db, n) else s.db,
           flights := Become(s, f, Ended))
  }

  function SetOp(db: DB, k: nat, o: Op): DB
    requires k < |db.ops|
  {
    db.(ops := db.ops[k := o])
  }

  /** The inline push and its two unguarded status writes. */
  function PushStep(w: World, s: State, f: nat, k: nat, i: nat, ms: int, stage: PushStage, reply: Reply): (r: State)
    requires f < |s.flights|
    ensures |r.flights| == |s.flights|
  {
    if |s.db.ops| <= k then s
    else match stage
      case AtPush =>
        var (s', seen) := CallPanel(w, s, SetUserExpiry(i, ms), reply);
        s'.(flights := Become(s', f, Pushing(k, i, ms, if seen.Returned? then AtMarkPushed else AtMarkUnpushed)))
      case AtMarkPushed =>
        s.(db := if Applied(reply) then SetOp(s.db, k, s.db.ops[k].(status := Succeeded)) else s.db,
           flights := Become(s, f, Pushing(k, i, ms, if reply.Returned? then AtSyncTime else AtMarkUnpushed)))
      case AtSyncTime =>
        s.(flights := Become(s, f, if reply.Returned? then Ended else Pushing(k, i, ms, AtMarkUnpushed)))
      case AtMarkUnpushed =>
        s.(db := if Applied(reply) then SetOp(s.db, k, s.db.ops[k].(status := Retrying, nextAt := s.clock + 15_000))
           else s.db,
           flights := Become(s, f, Ended))
  }

  /** The drainer's loop body, one await at a time. */
  function DrainStep(w: World, s: State, f: nat, held: seq<Held>, stage: DrainStage, reply: Reply): (r: State)
    requires f < |s.flights| && held != []
    ensures |r.flights| == |s.flights|
  {
    if |s.db.ops| <= held[0].op then s
    else
      var k := held[0].op;
      var o := s.db.ops[k];
      match stage
      case AtDispatch =>
        if o.work == ExtendUser(0) then s.(flights := Become(s, f, Drainer(held, AtMarkUndelivered(false))))
        else
          var call := match o.work
            case ExtendUser(epoch) => SetUserExpiry(o.session, epoch * 1000)
            case RevokeUser => DisableUser(o.session)
            case DeleteUser => PanelCall.DeleteUser(o.session);
          var (s', seen) := CallPanel(w, s, call, reply);
          s'.(flights := Become(s', f, Drainer(held,
                if seen.Threw? then AtMarkUndelivered(seen.retryable)
                else if o.work.RevokeUser? then AtDeleteUser else AtMarkSucceeded)))
      case AtDeleteUser =>
        var (s', seen) := CallPanel(w, s, PanelCall.DeleteUser(o.session), reply);
        s'.(flights := Become(s', f, Drainer(held,
              if seen.Threw? then AtMarkUndelivered(seen.retryable) else AtMarkSucceeded)))
      case AtMarkSucceeded =>
        s.(db := if Applied(reply) then SetOp(s.db, k, Outbox.MarkSucceeded(o)) else s.db,
           flights := Become(s, f, if reply.Returned? then Drainer(held[1..], AtDispatch)
                                   else Drainer(held, AtMarkUndelivered(true))))
      case AtMarkUndelivered(retryable) =>
        s.(db := if Applied(reply)
                 then SetOp(s.db, k, Outbox.MarkFailed(w.p.maxAttempts, o, held[0].attempts, retryable, s.clock))
                     else s.db,
           flights := Become(s, f, if reply.Returned? then Drainer(held[1..], AtDispatch) else Ended))
  }

  // ---- runs ------------------------------------------------------------------------------------

  ghost function Run(w: World, s: State, actions: seq<Action>): State
    decreases |actions|
  {
    if actions == [] then s else Run(w, Step(w, s, actions[0]), actions[1..])
  }

  lemma RunCons(w: World, s: State, a: Action, next: State, later: seq<Action>)
    requires Step(w, s, a) == next
    ensures Run(w, s, [a] + later) == Run(w, next, later)
  {}

  lemma {:induction false} RunConcat(w: World, s: State, first: seq<Action>, later: seq<Action>)
    ensures Run(w, s, first + later) == Run(w, Run(w, s, first), later)
    decreases |first|
  {
    if first == [] {
      assert first + later == later;
    } else {
      assert (first + later)[1..] == first[1..] + later;
      RunConcat(w, Step(w, s, first[0]), first[1..], later);
    }
  }

  /** A fresh deployment: configured nodes, and nothing else yet. */
  ghost predicate Initial(w: World, s: State)
  {
    && w.p.Valid() && 1000 <= s.clock
    && s.db == DB([], [], [], [], s.db.nodes, [], {})
    && s.users == map[] && s.flights == []
  }
}
