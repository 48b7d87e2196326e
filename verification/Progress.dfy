/**
 * What each activity achieves when nothing disturbs it, and that the undisturbed drainer of
 * module Outbox is one of the runs of the protocol.
 */
module Progress {
  import opened Prelude
  import opened Rows
  import opened Tables
  import opened Panel
  import opened Protocol
  import Admin
  import Ads
  import Connection
  import Outbox

  /** The next awaits of flight f, with these replies. */
  function Advances(f: nat, replies: seq<Reply>): seq<Action>
  {
    seq(|replies|, j requires 0 <= j < |replies| => Advance(f, replies[j]))
  }

  lemma RunFirst(w: World, s: State, f: nat, reply: Reply, replies: seq<Reply>)
    requires f < |s.flights|
    ensures Run(w, s, Advances(f, [reply] + replies)) == Run(w, AdvanceStep(w, s, f, reply), Advances(f, replies))
  {
    assert Advances(f, [reply] + replies) == [Advance(f, reply)] + Advances(f, replies);
    RunCons(w, s, Advance(f, reply), AdvanceStep(w, s, f, reply), Advances(f, replies));
  }

  lemma RunOne(w: World, s: State, f: nat, reply: Reply)
    requires f < |s.flights|
    ensures Run(w, s, Advances(f, [reply])) == AdvanceStep(w, s, f, reply)
  {}

  lemma RunTwo(w: World, s: State, f: nat, first: Reply, second: Reply)
    requires f < |s.flights|
    ensures Run(w, s, Advances(f, [first, second])) == AdvanceStep(w, AdvanceStep(w, s, f, first), f, second)
  {
    assert [first, second] == [first] + [second];
    RunFirst(w, s, f, first, [second]);
    RunOne(w, AdvanceStep(w, s, f, first), f, second);
  }

  lemma RunThree(w: World, s: State, f: nat, first: Reply, second: Reply, third: Reply)
    requires f < |s.flights|
    ensures Run(w, s, Advances(f, [first, second, third]))
         == AdvanceStep(w, AdvanceStep(w, AdvanceStep(w, s, f, first), f, second), f, third)
  {
    assert [first, second, third] == [first] + [second, third];
    RunFirst(w, s, f, first, [second, third]);
    RunTwo(w, AdvanceStep(w, s, f, first), f, second, third);
  }

  // ---- the drainer -----------------------------------------------------------------------

  function Queue(s: State): Outbox.Outbox { Outbox.Outbox(s.db.ops, s.users) }

  /** The state with a batch of a drainer as given, and a later clock. */
  function WithBatch(s: State, clock: int, b: Outbox.Batch, f: nat, held: seq<Held>): State
    requires f < |s.flights|
  {
    State(clock, s.db.(ops := b.queue.ops), b.queue.users,
          Become(s, f, if b.alive then Drainer(held, AtDispatch) else Ended))
  }

  /** The drainer of flight f holds these rows, the first with the attempt count the table has. */
  predicate AtRow(s: State, f: nat, held: seq<Held>, stage: DrainStage)
  {
    && f < |s.flights| && s.flights[f] == Drainer(held, stage) && held != []
    && held[0].op < |s.db.ops| && s.db.ops[held[0].op].attempts == held[0].attempts
  }

  /** The replies the panel calls of one dispatch meet. */
  function CallReplies(o: Op, a: Outbox.Attempt): seq<Reply>
  {
    if !o.work.RevokeUser? then [a.call] else if a.disable.Returned? then [a.disable, a.call] else [a.disable]
  }

  /** The replies the status writes meet. */
  function WriteReplies(outcome: Outbox.Outcome, a: Outbox.Attempt): seq<Reply>
  {
    if outcome.Undelivered? then [a.rescue] else if a.mark.Returned? then [a.mark] else [a.mark, a.rescue]
  }

  function StageAfter(outcome: Outbox.Outcome): DrainStage
  {
    match outcome
    case Delivered => AtMarkSucceeded
    case Undelivered(retryable) => AtMarkUndelivered(retryable)
  }

  lemma CallsAreARun(w: World, s: State, f: nat, held: seq<Held>, a: Outbox.Attempt)
    requires AtRow(s, f, held, AtDispatch) && a.at == s.clock
    ensures var o := s.db.ops[held[0].op];
            var (users', outcome) := Outbox.Dispatch(w.panel, s.users, o, a);
            Run(w, s, Advances(f, CallReplies(o, a)))
            == s.(users := users', flights := Become(s, f, Drainer(held, StageAfter(outcome))))
  {
    if s.db.ops[held[0].op].work.RevokeUser? {
      RevokeCallsAreARun(w, s, f, held, a);
    } else {
      RunOne(w, s, f, a.call);
    }
  }

  lemma RevokeCallsAreARun(w: World, s: State, f: nat, held: seq<Held>, a: Outbox.Attempt)
    requires AtRow(s, f, held, AtDispatch) && a.at == s.clock && s.db.ops[held[0].op].work.RevokeUser?
    ensures var o := s.db.ops[held[0].op];
            var (users', outcome) := Outbox.Dispatch(w.panel, s.users, o, a);
            Run(w, s, Advances(f, CallReplies(o, a)))
            == s.(users := users', flights := Become(s, f, Drainer(held, StageAfter(outcome))))
  {
    if a.disable.Returned? {
      RunTwo(w, s, f, a.disable, a.call);
    } else {
      RunOne(w, s, f, a.disable);
    }
  }

  lemma WritesAreARun(w: World, s: State, f: nat, held: seq<Held>, outcome: Outbox.Outcome, a: Outbox.Attempt)
    requires AtRow(s, f, held, StageAfter(outcome)) && a.at == s.clock
    ensures var (o', alive) := Outbox.Settle(w.p.maxAttempts, s.db.ops[held[0].op], outcome, a);
            Run(w, s, Advances(f, WriteReplies(outcome, a)))
            == WithBatch(s, s.clock, Outbox.Batch(Outbox.Outbox(s.db.ops[held[0].op := o'], s.users), alive), f,
                         held[1..])
  {
    if outcome.Undelivered? {
      RunOne(w, s, f, a.rescue);
    } else if a.mark.Returned? {
      RunOne(w, s, f, a.mark);
    } else {
      RunTwo(w, s, f, a.mark, a.rescue);
    }
  }

  /** The replies one dispatch meets. */
  function Replies(kind: PanelKind, users: Users, o: Op, a: Outbox.Attempt): seq<Reply>
  {
    CallReplies(o, a) + WriteReplies(Outbox.Dispatch(kind, users, o, a).1, a)
  }

  /** One dispatch of module Outbox is the drainer's next awaits, the ones that end its tick included. */
  lemma DispatchIsARun(w: World, s: State, f: nat, held: seq<Held>, a: Outbox.Attempt)
    requires AtRow(s, f, held, AtDispatch) && a.at == s.clock
    ensures Run(w, s, Advances(f, Replies(w.panel, s.users, s.db.ops[held[0].op], a)))
         == WithBatch(s, s.clock, Outbox.DispatchOne(w.p.maxAttempts, w.panel, Queue(s), held[0].op, a), f, held[1..])
  {
    var o := s.db.ops[held[0].op];
    var (users', outcome) := Outbox.Dispatch(w.panel, s.users, o, a);
    var called := s.(users := users', flights := Become(s, f, Drainer(held, StageAfter(outcome))));
    var calls, writes := Advances(f, CallReplies(o, a)), Advances(f, WriteReplies(outcome, a));
    assert Advances(f, Replies(w.panel, s.users, o, a)) == calls + writes;
    CallsAreARun(w, s, f, held, a);
    WritesAreARun(w, called, f, held, outcome, a);
    RunConcat(w, s, calls, writes);
  }

  /** The drainer holds these rows, with the attempt counts the table has. */
  predicate Holds(held: seq<Held>, rows: seq<nat>, ops: seq<Op>)
  {
    |held| == |rows| && forall j | 0 <= j < |rows| ::
      held[j].op == rows[j] && rows[j] < |ops| && held[j].attempts == ops[rows[j]].attempts
  }

  predicate InTurn(script: seq<Outbox.Attempt>, from: int)
  {
    && (forall j | 0 <= j < |script| :: from <= script[j].at)
    && forall i, j | 0 <= i < j < |script| :: script[i].at <= script[j].at
  }

  function ClockAfter(script: seq<Outbox.Attempt>, clock: int): int
  {
    if script == [] then clock else script[|script| - 1].at
  }

  /** The first m dispatches of a tick, as far as it gets, as a run. */
  lemma {:induction false} RowsAreARun(w: World, s: State, f: nat, held: seq<Held>, rows: seq<nat>,
                                       script: seq<Outbox.Attempt>, m: nat) returns (actions: seq<Action>)
    requires f < |s.flights| && s.flights[f] == Drainer(held, AtDispatch)
    requires |script| == |rows| && m <= |rows| && Holds(held, rows, s.db.ops) && InTurn(script, s.clock)
    ensures Run(w, s, actions)
         == WithBatch(s, ClockAfter(script[..m], s.clock),
                      Outbox.DispatchAll(w.p.maxAttempts, w.panel, Queue(s), rows[..m], script[..m]), f, held[m..])
    decreases m
  {
    if m == 0 {
      actions := [];
      assert held[0..] == held;
    } else {
      var n := m - 1;
      var before := RowsAreARun(w, s, f, held, rows, script, n);
      var b := Outbox.DispatchAll(w.p.maxAttempts, w.panel, Queue(s), rows[..n], script[..n]);
      var mid := WithBatch(s, ClockAfter(script[..n], s.clock), b, f, held[n..]);
      Outbox.DispatchingKeepsRows(w.p.maxAttempts, w.panel, Queue(s), rows[..n], script[..n]);
      assert held[n..][0] == held[n] && held[n..][1..] == held[m..];
      assert rows[..m][..n] == rows[..n] && script[..m][..n] == script[..n];
      var one := NextRow(w, s, mid, f, b, held[n..], script[n]);
      actions := before + one;
      RunConcat(w, s, before, one);
    }
  }

  /** One more row of a batch once its time has come: dispatched, unless the tick is over. */
  lemma NextRow(w: World, s: State, mid: State, f: nat, b: Outbox.Batch, held: seq<Held>, a: Outbox.Attempt)
    returns (actions: seq<Action>)
    requires f < |s.flights| && mid == WithBatch(s, mid.clock, b, f, held) && mid.clock <= a.at
    requires held != [] && held[0].op < |b.queue.ops| && b.queue.ops[held[0].op].attempts == held[0].attempts
    ensures Run(w, mid, actions)
         == WithBatch(s, a.at, if b.alive then Outbox.DispatchOne(w.p.maxAttempts, w.panel, b.queue, held[0].op, a)
                      else b,
                      f, held[1..])
  {
    var later := mid.(clock := a.at);
    var one := if b.alive then Advances(f, Replies(w.panel, mid.users, mid.db.ops[held[0].op], a)) else [];
    if b.alive {
      DispatchIsARun(w, later, f, held, a);
      WithBatchTwice(s, f, mid.clock, b, held, a.at,
                     Outbox.DispatchOne(w.p.maxAttempts, w.panel, b.queue, held[0].op, a), held[1..]);
    }
    WaitThen(w, mid, a.at, one);
    actions := [Wait(a.at - mid.clock)] + one;
  }

  /** The later batch replaces the earlier. */
  lemma WithBatchTwice(s: State, f: nat, clock: int, b: Outbox.Batch, held: seq<Held>,
                       clock': int, b': Outbox.Batch, held': seq<Held>)
    requires f < |s.flights|
    ensures WithBatch(WithBatch(s, clock, b, f, held).(clock := clock'), clock', b', f, held')
         == WithBatch(s, clock', b', f, held')
    ensures Queue(WithBatch(s, clock, b, f, held)) == b.queue
  {}

  lemma WaitThen(w: World, s: State, clock: int, actions: seq<Action>)
    requires s.clock <= clock
    ensures Run(w, s, [Wait(clock - s.clock)] + actions) == Run(w, s.(clock := clock), actions)
  {
    RunCons(w, s, Wait(clock - s.clock), s.(clock := clock), actions);
  }

  /** The rows a tick takes may be claimed. */
  lemma TickMayClaim(w: World, ob: Outbox.Outbox, t: Outbox.Tick)
    requires Outbox.TickOk(w.p, ob, t)
    ensures Distinct(t.picked) && |t.picked| <= w.p.batch
    ensures forall j | 0 <= j < |t.picked| :: t.picked[j] < |ob.ops| && Outbox.Due(t.now)(ob.ops[t.picked[j]])
  {}

  lemma StepClaims(w: World, s: State, picked: seq<nat>)
    ensures Step(w, s, ClaimWork(picked)) == ClaimWorkStep(w, s, picked)
  {}

  /** The claim of a tick, as a step: a drainer holding the claimed rows. */
  lemma ClaimIsAStep(w: World, s: State, t: Outbox.Tick) returns (held: seq<Held>)
    requires Outbox.TickOk(w.p, Queue(s), t) && t.now == s.clock
    ensures Holds(held, t.picked, Outbox.ClaimOps(s.db.ops, t.picked, t.now, w.p.leaseMs))
    ensures Step(w, s, ClaimWork(t.picked))
         == s.(db := s.db.(ops := Outbox.ClaimOps(s.db.ops, t.picked, t.now, w.p.leaseMs)),
               flights := s.flights + [Drainer(held, AtDispatch)])
  {
    TickMayClaim(w, Queue(s), t);
    StepClaims(w, s, t.picked);
    held := HeldRows(Outbox.ClaimOps(s.db.ops, t.picked, t.now, w.p.leaseMs), t.picked);
  }

  lemma DispatchesAreARun(w: World, s: State, t: Outbox.Tick, held: seq<Held>) returns (actions: seq<Action>)
    requires s.flights != [] && s.flights[|s.flights| - 1] == Drainer(held, AtDispatch) && s.clock == t.now
    requires |t.script| == |t.picked| && Holds(held, t.picked, s.db.ops) && InTurn(t.script, t.now)
    ensures var s' := Run(w, s, actions);
            && Queue(s') == Outbox.DispatchAll(w.p.maxAttempts, w.panel, Queue(s), t.picked, t.script).queue
            && s'.db == s.db.(ops := s'.db.ops) && s'.clock == ClockAfter(t.script, t.now)
  {
    actions := RowsAreARun(w, s, |s.flights| - 1, held, t.picked, t.script, |t.picked|);
    assert t.picked[..|t.picked|] == t.picked && t.script[..|t.picked|] == t.script;
  }

  lemma ClaimThenDispatch(w: World, s: State, t: Outbox.Tick) returns (actions: seq<Action>)
    requires Outbox.TickOk(w.p, Queue(s), t) && s.clock == t.now && InTurn(t.script, t.now)
    ensures var s', claimed := Run(w, s, actions), Outbox.ClaimOps(s.db.ops, t.picked, t.now, w.p.leaseMs);
            && (forall j | 0 <= j < |t.picked| :: t.picked[j] < |claimed|)
            && Queue(s') == Outbox.DispatchAll(w.p.maxAttempts, w.panel, Outbox.Outbox(claimed, s.users),
                                               t.picked, t.script).queue
            && s'.db == s.db.(ops := s'.db.ops) && s'.clock == ClockAfter(t.script, t.now)
  {
    var held := ClaimIsAStep(w, s, t);
    var rest := DispatchesAreARun(w, Step(w, s, ClaimWork(t.picked)), t, held);
    actions := [ClaimWork(t.picked)] + rest;
    RunCons(w, s, ClaimWork(t.picked), Step(w, s, ClaimWork(t.picked)), rest);
  }

  /** Whatever can happen later can happen after a wait. */
  lemma AfterWait(w: World, s: State, clock: int, later: seq<Action>, end: State) returns (actions: seq<Action>)
    requires s.clock <= clock && Run(w, s.(clock := clock), later) == end
    ensures Run(w, s, actions) == end
  {
    WaitThen(w, s, clock, later);
    actions := [Wait(clock - s.clock)] + later;
  }

  /** The tick once its time has come. */
  lemma PunctualTick(w: World, s: State, t: Outbox.Tick) returns (actions: seq<Action>)
    requires Outbox.TickOk(w.p, Queue(s), t) && InTurn(t.script, t.now)
    ensures TickDone(w, s, t, Run(w, s.(clock := t.now), actions))
  {
    actions := ClaimThenDispatch(w, s.(clock := t.now), t);
  }

  /** s' is s after the tick. */
  ghost predicate TickDone(w: World, s: State, t: Outbox.Tick, s': State)
    requires Outbox.TickOk(w.p, Queue(s), t)
  {
    && Queue(s') == Outbox.AfterTick(w.p, w.panel, Queue(s), t)
    && s'.db == s.db.(ops := s'.db.ops) && s'.clock == ClockAfter(t.script, t.now)
  }

  /** A whole tick, claim and dispatches, is a run. */
  lemma TickIsARun(w: World, s: State, t: Outbox.Tick) returns (actions: seq<Action>)
    requires Outbox.TickOk(w.p, Queue(s), t) && s.clock <= t.now && InTurn(t.script, t.now)
    ensures TickDone(w, s, t, Run(w, s, actions))
  {
    var ticked := PunctualTick(w, s, t);
    actions := AfterWait(w, s, t.now, ticked, Run(w, s.(clock := t.now), ticked));
  }

  /** Ticks one after another, each dispatching in turn. */
  ghost predicate OneByOne(ticks: seq<Outbox.Tick>, clock: int)
    decreases |ticks|
  {
    ticks != [] ==>
      && clock <= ticks[0].now && InTurn(ticks[0].script, ticks[0].now)
      && OneByOne(ticks[1..], ClockAfter(ticks[0].script, ticks[0].now))
  }

  lemma {:induction false} LastIsLatest(script: seq<Outbox.Attempt>, clock: int)
    requires InTurn(script, clock)
    ensures ClockAfter(script, clock) == Outbox.LatestOf(script, clock)
  {
    if script != [] { LastIsLatest(script[..|script| - 1], clock); }
  }

  lemma {:induction false} OneByOneIsOrdered(ticks: seq<Outbox.Tick>, clock: int)
    requires OneByOne(ticks, clock)
    ensures Outbox.Ordered(ticks, clock)
    decreases |ticks|
  {
    if ticks != [] {
      LastIsLatest(ticks[0].script, ticks[0].now);
      OneByOneIsOrdered(ticks[1..], Outbox.EndOf(ticks[0]));
    }
  }

  /**
   * Whatever module Outbox says of one worker, it says of runs of the protocol: for every
   * sequence of its ticks, those cut short included, there is a run that ends with that queue
   * and those panel users, and has changed no other table.
   */
  lemma {:induction false} TicksAreARun(w: World, s: State, ticks: seq<Outbox.Tick>) returns (actions: seq<Action>)
    requires Outbox.TicksOk(w.p, w.panel, Queue(s), ticks) && OneByOne(ticks, s.clock)
    ensures var s' := Run(w, s, actions);
            && Queue(s') == Outbox.AfterTicks(w.p, w.panel, Queue(s), ticks)
            && s'.db == s.db.(ops := s'.db.ops)
    decreases |ticks|
  {
    if ticks == [] {
      actions := [];
    } else {
      var first := TickIsARun(w, s, ticks[0]);
      var mid := Run(w, s, first);
      var later := TicksAreARun(w, mid, ticks[1..]);
      RunConcat(w, s, first, later);
      actions := first + later;
    }
  }

  // ---- transactions of one statement sequence ----------------------------------------------

  /**
   * What happens in one transaction is one step at the present instant: minting, a callback, a plan
   * read, a kick, a flag. It touches neither panel nor clock, and only a plan read an activity.
   */
  lemma TransactionsAreSteps(w: World, s: State, user: nat, device: nat, purpose: Purpose, bound: Option<nat>,
                             data: Ads.CustomData, transaction: nat, node: nat, flag: bool)
    ensures var minted := Ads.RequestToken(w.p, s.db, s.clock, user, device, purpose, bound);
            Step(w, s, RequestToken(user, device, purpose, bound))
            == s.(db := match minted case Ok(db) => db case Err(_) => s.db)
    ensures Step(w, s, SsvCallback(data, transaction))
         == s.(db := Ads.AfterCallback(s.db, Ads.Callback(data, transaction, s.clock)))
    ensures var kicked := Admin.Kick(s.db, user, s.clock);
            Step(w, s, Kick(user)) == s.(db := match kicked case Ok(db) => db case Err(_) => s.db)
    ensures Step(w, s, Unban(user)) == s.(db := Admin.Unban(s.db, user))
    ensures Step(w, s, SyncNode(node, flag)) == s.(db := Admin.SyncNode(s.db, node, flag))
    ensures var flagged := Admin.SetNodeActive(s.db, node, flag);
            Step(w, s, SetNodeActive(node, flag)) == s.(db := match flagged case Ok(db) => db case Err(_) => s.db)
  {}

  /** A plan read by a subscriber's best subscription, or by nobody's, starts a connect on that plan. */
  lemma PlanReadLaunchesConnect(w: World, s: State, user: nat, device: nat, subs: seq<Connection.Subscription>,
                                best: Option<Connection.Subscription>, freePlanMax: Option<nat>)
    requires Connection.BestSubscription(subs, s.clock, best)
    ensures Step(w, s, ReadPlan(user, device, best, freePlanMax))
         == s.(flights := s.flights + [Planned(user, device, Connection.Resolve(w.p, best, freePlanMax, s.clock))])
  {}

  // ---- phase B of verify-ad-reward ---------------------------------------------------------

  /** The replies an inline push meets: the panel's, then its two status writes', then the failure write's. */
  datatype PushReplies = PushReplies(call: Reply, mark: Reply, sync: Reply, rescue: Reply)

  /** The panel takes the new instant: its user is there, and it says so. */
  predicate PushTaken(kind: PanelKind, users: Users, now: int, i: nat, ms: int, reply: Reply)
  {
    reply.Returned? && CanReturn(kind, users, now, SetUserExpiry(i, ms))
  }

  /** Those of the writes' replies it comes to. */
  function WritesMet(taken: bool, r: PushReplies): seq<Reply>
  {
    if !taken then [r.rescue]
    else if r.mark.Threw? then [r.mark, r.rescue]
    else if r.sync.Threw? then [r.mark, r.sync, r.rescue]
    else [r.mark, r.sync]
  }

  /** What the writes leave of the operation. */
  function PushedOp(o: Op, now: int, taken: bool, r: PushReplies): Op
  {
    if !(taken && r.mark.Returned? && r.sync.Returned?) && Applied(r.rescue) then
      o.(status := Retrying, nextAt := now + 15_000)
    else if taken && Applied(r.mark) then o.(status := Succeeded)
    else o
  }

  lemma PushWritesEndExactly(w: World, s: State, f: nat, k: nat, i: nat, ms: int, taken: bool, r: PushReplies)
    requires f < |s.flights| && k < |s.db.ops|
    requires s.flights[f] == Pushing(k, i, ms, if taken then AtMarkPushed else AtMarkUnpushed)
    ensures Run(w, s, Advances(f, WritesMet(taken, r)))
         == s.(db := SetOp(s.db, k, PushedOp(s.db.ops[k], s.clock, taken, r)), flights := s.flights[f := Ended])
  {
    if !taken {
      RunOne(w, s, f, r.rescue);
    } else if r.mark.Threw? {
      RunTwo(w, s, f, r.mark, r.rescue);
    } else if r.sync.Threw? {
      RunThree(w, s, f, r.mark, r.sync, r.rescue);
    } else {
      RunTwo(w, s, f, r.mark, r.sync);
    }
  }

  lemma InlinePushRuns(w: World, s: State, called: State, f: nat, k: nat, i: nat, ms: int, taken: bool, r: PushReplies)
    requires f < |s.flights| && k < |s.db.ops| && AdvanceStep(w, s, f, r.call) == called
    requires called == s.(users := called.users,
                          flights := s.flights[f := Pushing(k, i, ms, if taken then AtMarkPushed else AtMarkUnpushed)])
    ensures Run(w, s, Advances(f, [r.call] + WritesMet(taken, r)))
         == s.(users := called.users, db := SetOp(s.db, k, PushedOp(s.db.ops[k], s.clock, taken, r)),
               flights := s.flights[f := Ended])
  {
    RunFirst(w, s, f, r.call, WritesMet(taken, r));
    PushWritesEndExactly(w, called, f, k, i, ms, taken, r);
    assert called.flights[f := Ended] == s.flights[f := Ended];
  }

  /**
   * Left alone, an inline push that the panel takes leaves it with exactly the new instant. The
   * operation ends succeeded exactly if the success write took effect and no failure write did; it
   * is due again 15 seconds from now exactly if an error led to a failure write that did; and
   * otherwise it is as it was. Nothing else in the database changes.
   */
  lemma InlinePushEndsExactly(w: World, s: State, f: nat, k: nat, i: nat, ms: int, r: PushReplies)
    requires f < |s.flights| && s.flights[f] == Pushing(k, i, ms, AtPush) && k < |s.db.ops|
    ensures var taken := PushTaken(w.panel, s.users, s.clock, i, ms, r.call);
            var s' := Run(w, s, Advances(f, [r.call] + WritesMet(taken, r)));
            var failed := !(taken && r.mark.Returned? && r.sync.Returned?) && Applied(r.rescue);
            var marked := taken && Applied(r.mark);
            && s' == s.(db := s'.db, users := s'.users, flights := s.flights[f := Ended])
            && s'.db == SetOp(s.db, k, if failed then s.db.ops[k].(status := Retrying, nextAt := s.clock + 15_000)
                                       else if marked then s.db.ops[k].(status := Succeeded) else s.db.ops[k])
            && OnlyExtends(w.panel, s.users, s'.users, s.clock, i, ms, taken)
  {
    var taken := PushTaken(w.panel, s.users, s.clock, i, ms, r.call);
    PushCallStep(w, s, f, k, i, ms, r.call);
    InlinePushRuns(w, s, AdvanceStep(w, s, f, r.call), f, k, i, ms, taken, r);
  }

  /** Nobody but user i is touched, and if the extend was taken they have its instant, unless it has gone by. */
  ghost predicate OnlyExtends(kind: PanelKind, users: Users, users': Users, now: int, i: nat, ms: int, taken: bool)
  {
    && (taken ==> i in users && i in users'
                  && users'[i].expiresAt == if Elapsed(kind, now, ms) then users[i].expiresAt else Stored(kind, ms))
    && forall j | j != i :: (j in users' <==> j in users) && (j in users ==> users'[j] == users[j])
  }

  lemma PushCallStep(w: World, s: State, f: nat, k: nat, i: nat, ms: int, reply: Reply)
    requires f < |s.flights| && s.flights[f] == Pushing(k, i, ms, AtPush) && k < |s.db.ops|
    ensures var taken, s' := PushTaken(w.panel, s.users, s.clock, i, ms, reply), AdvanceStep(w, s, f, reply);
            && s' == s.(users := s'.users,
                        flights := s.flights[f := Pushing(k, i, ms, if taken then AtMarkPushed else AtMarkUnpushed)])
            && OnlyExtends(w.panel, s.users, s'.users, s.clock, i, ms, taken)
  {}

  /** A committed claim of minutes launches exactly this push, of the operation it queued and the new deadline. */
  lemma ClaimLaunchesPush(w: World, s: State, user: nat, grant: nat, session: nat)
    ensures var s' := VerifyRewardStep(w, s, user, grant, session);
            var r := Ads.Claim(w.p, s.db, s.clock, user, grant, session);
            && s'.users == s.users && s'.clock == s.clock
            && (r.Ok? ==> s'.db == r.value.0) && (r.Err? ==> s' == s)
            && (r.Ok? && r.value.1.Granted? && 0 < r.value.1.minutes ==>
                  && session < |s'.db.sessions|
                  && var ms := s'.db.sessions[session].expiresAt;
                     s'.flights == s.flights + [Pushing(|s.db.ops|, session, ms, AtPush)])
            && (r.Ok? && !(r.value.1.Granted? && 0 < r.value.1.minutes) ==> s'.flights == s.flights)
  {}

  // ---- phase B of connect --------------------------------------------------------------------

  /** A committed connect goes on to drop those it displaced and to create its user until the session's deadline. */
  lemma ConnectLaunchesProvisioning(w: World, s: State, f: nat, createdAt: int, order: seq<nat>, pick: Option<nat>)
    requires f < |s.flights| && |s.db.sessions| < |CommitConnectStep(w, s, f, createdAt, order, pick).db.sessions|
    ensures var s' := CommitConnectStep(w, s, f, createdAt, order, pick);
            && s.flights[f].Planned? && s'.flights[f].Displacing?
            && s'.flights == s.flights[f := s'.flights[f]] && s'.users == s.users && s'.clock == s.clock
            && s'.flights[f].session == |s.db.sessions| && s'.flights[f].displace.AtDisable?
            && s'.flights[f].ms == s'.db.sessions[|s.db.sessions|].expiresAt
            && s'.db.sessions[|s.db.sessions|].user == s.flights[f].user
            && forall i: nat | i < |s.db.sessions| ::
                 i in s'.flights[f].todo <==> s'.db.sessions[i] != s.db.sessions[i]
  {
    var fl := s.flights[f];
    var over := Connection.Overflow(|order|, fl.plan.maxConcurrent);
    forall i: nat | i in order[..over] ensures i < |s.db.sessions| && LiveOf(fl.user)(s.db.sessions[i]) {
      var j :| 0 <= j < over && order[..over][j] == i;
      assert order[j] == i;
    }
  }

  /** The replies an inline removal meets: the panel's to its two calls, then its status write's. */
  function RevokeReplies(disable: Reply, call: Reply, mark: Reply): seq<Reply>
  {
    if disable.Threw? then [disable] else if call.Threw? then [disable, call] else [disable, call, mark]
  }

  /**
   * Dropping a displaced user inline, whatever comes back, goes on to the next one. It completes
   * that session's queued removals exactly if both calls came back and the write took effect, and
   * then the user is gone; it touches no operation and no user of anybody else.
   */
  lemma InlineRevokeEndsExactly(w: World, s: State, f: nat, i: nat, ms: int, todo: seq<nat>, disable: Reply,
                                call: Reply, mark: Reply)
    requires f < |s.flights| && s.flights[f] == Displacing(i, ms, todo, AtDisable) && todo != []
    ensures var s' := Run(w, s, Advances(f, RevokeReplies(disable, call, mark)));
            var done := disable.Returned? && call.Returned? && Applied(mark);
            && f < |s'.flights| && s'.flights[f] == Displacing(i, ms, todo[1..], AtDisable)
            && (disable.Returned? && call.Returned? ==> todo[0] !in s'.users)
            && (forall j | j != todo[0] ::
                  (j in s'.users <==> j in s.users) && (j in s.users ==> s'.users[j] == s.users[j]))
            && s'.db == s.db.(ops := s'.db.ops) && |s'.db.ops| == |s.db.ops|
            && forall k | 0 <= k < |s.db.ops| ::
                 s'.db.ops[k] == if && done && s.db.ops[k].session == todo[0] && s.db.ops[k].work.RevokeUser?
                                    && s.db.ops[k].status.Queued?
                                 then s.db.ops[k].(status := Succeeded) else s.db.ops[k]
  {
    if disable.Threw? {
      RunOne(w, s, f, disable);
    } else if call.Threw? {
      RunTwo(w, s, f, disable, call);
    } else {
      RunThree(w, s, f, disable, call, mark);
    }
  }

  /** Left alone, connect ends with its user on the panel, enabled, until the session's deadline to the second. */
  lemma ConnectProvisions(w: World, s: State, f: nat, i: nat, ms: int)
    requires f < |s.flights| && s.flights[f] == Creating(i, ms) && 1000 <= ms
    ensures var s' := Run(w, s, Advances(f, [Returned, Returned]));
            && f < |s'.flights| && s'.flights[f].Ended? && s'.db == s.db
            && i in s'.users && s'.users[i].enabled
            && s'.users[i].expiresAt.Some? && ms - 1000 < s'.users[i].expiresAt.value <= ms
  {
    StoredIsFaithful(w.panel, ms);
    RunTwo(w, s, f, Returned, Returned);
  }

  /** A connect is content exactly if it reads back its user with the instant it sent; else it cleans up. */
  lemma ReadBackDecides(w: World, s: State, f: nat, i: nat, ms: int, reply: Reply)
    requires f < |s.flights| && s.flights[f] == Checking(i, ms)
    ensures var s' := AdvanceStep(w, s, f, reply);
            && s' == s.(flights := s.flights[f := s'.flights[f]])
            && (s'.flights[f].Ended? <==>
                  && reply.Returned? && i in s.users && s.users[i].expiresAt.Some?
                  && -2 <= s.users[i].expiresAt.value / 1000 - ms / 1000 <= 2)
            && (!s'.flights[f].Ended? ==> s'.flights[f] == Failing(i, AtMarkFailed))
  {}

  /** A createUser goes on to the read-back exactly if it returned, and to the cleanup otherwise. */
  lemma CreateDecides(w: World, s: State, f: nat, i: nat, ms: int, reply: Reply)
    requires f < |s.flights| && s.flights[f] == Creating(i, ms) && 1000 <= ms
    ensures var s' := AdvanceStep(w, s, f, reply);
            && s'.db == s.db && s'.flights == s.flights[f := s'.flights[f]]
            && s'.flights[f] == (if reply.Returned? then Checking(i, ms) else Failing(i, AtMarkFailed))
            && (Applied(reply) ==> i in s'.users && s'.users[i] == PanelUser(Stored(w.panel, ms), true))
            && (!Applied(reply) ==> s'.users == s.users)
  {
    StoredIsFaithful(w.panel, ms);
  }

  /** The cleanup's rows after its first statements, each applied or not. */
  function CleanedUp(db: DB, i: nat, now: int, mark: bool, enqueue: bool, penalize: bool): DB
    requires i < |db.sessions| && db.sessions[i].node < |db.nodes|
  {
    var marked := if mark then Connection.MarkFailed(db, i) else db;
    var queued := if enqueue then Connection.EnqueueDelete(marked, i, now) else marked;
    if penalize then Connection.Penalize(queued, db.sessions[i].node) else queued
  }

  /** The cleanup stops at the first statement that throws; each one it gets to counts if it took effect. */
  lemma CleanupStopsAtError(w: World, s: State, f: nat, i: nat, mark: Reply, enqueue: Reply, penalize: Reply)
    requires f < |s.flights| && s.flights[f] == Failing(i, AtMarkFailed)
    requires i < |s.db.sessions| && s.db.sessions[i].node < |s.db.nodes|
    ensures var second, third := mark.Returned?, mark.Returned? && enqueue.Returned?;
            var replies := [mark] + (if second then [enqueue] else []) + (if third then [penalize] else []);
            var s' := Run(w, s, Advances(f, replies));
            && f < |s'.flights| && s'.flights[f].Ended? && s'.users == s.users
            && s'.db == CleanedUp(s.db, i, s.clock, Applied(mark), second && Applied(enqueue),
                                  third && Applied(penalize))
  {
    if mark.Threw? {
      assert [mark] + [] + [] == [mark];
      RunOne(w, s, f, mark);
    } else if enqueue.Threw? {
      assert [mark] + [enqueue] + [] == [mark, enqueue];
      RunTwo(w, s, f, mark, enqueue);
    } else {
      assert [mark] + [enqueue] + [penalize] == [mark, enqueue, penalize];
      RunThree(w, s, f, mark, enqueue, penalize);
    }
  }

  /** A createUser that did not return leads to failSession, whose three statements leave FailedRows. */
  lemma FailedConnectCleansUp(w: World, s: State, f: nat, i: nat, ms: int, reply: Reply)
    requires f < |s.flights| && s.flights[f] == Creating(i, ms) && reply.Threw?
    requires i < |s.db.sessions| && s.db.sessions[i].node < |s.db.nodes|
    ensures var s' := Run(w, s, Advances(f, [reply] + [Returned, Returned, Returned]));
            f < |s'.flights| && s'.flights[f].Ended? && s'.db == Connection.FailedRows(s.db, i, s.clock)
  {
    RunFirst(w, s, f, reply, [Returned, Returned, Returned]);
    RunThree(w, AdvanceStep(w, s, f, reply), f, Returned, Returned, Returned);
  }
}
