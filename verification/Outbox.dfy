/** The worker that drains the panel outbox: claim with a lease, dispatch, retry with backoff, dead-letter. */
module Outbox {
  import opened Prelude
  import opened Sums
  import opened Rows
  import opened Tables
  import opened Store
  import opened Panel

  // ---- the statements on panel_operations -------------------------------------------

  /** Open and due, which takes in a crashed worker's rows once their lease is over. */
  function Due(now: int): Op -> bool { (o: Op) => o.status.Open() && o.nextAt <= now }

  function DueAt(): Op -> int { (o: Op) => o.nextAt }

  function ClaimOps(ops: seq<Op>, picked: seq<nat>, now: int, leaseMs: int): seq<Op>
  {
    seq(|ops|, k requires 0 <= k < |ops| =>
      if k in picked then ops[k].(status := InFlight, attempts := ops[k].attempts + 1, nextAt := now + leaseMs)
      else ops[k])
  }

  function MarkSucceeded(o: Op): Op { if o.status.InFlight? then o.(status := Succeeded) else o }

  function Pow2(n: nat): int { if n == 0 then 1 else 2 * Pow2(n - 1) }

  function BackoffSec(attempts: nat): int { Min(300, Pow2(Min(attempts, 8))) }

  /** The catch block: `attempts` is the worker's copy, taken when it claimed the row. */
  function MarkFailed(maxAttempts: nat, o: Op, attempts: nat, retryable: bool, now: int): Op
  {
    if !o.status.InFlight? then o
    else o.(status := if !retryable || maxAttempts <= attempts then Dead else Retrying,
            nextAt := now + BackoffSec(attempts) * 1000)
  }

  // ---- one worker, undisturbed ---------------------------------------------------------

  datatype Outbox = Outbox(ops: seq<Op>, users: Users)

  /** What one dispatch meets: the panel calls' replies, then the status writes', and the time it is done. */
  datatype Attempt = Attempt(disable: Reply, call: Reply, mark: Reply, rescue: Reply, at: int)

  datatype Outcome = Delivered | Undelivered(retryable: bool)

  function OutcomeOf(reply: Reply): Outcome
  {
    if reply.Returned? then Delivered else Undelivered(reply.retryable)
  }

  function CallOnce(kind: PanelKind, users: Users, call: PanelCall, reply: Reply, at: int): (Users, Outcome)
  {
    var seen := Seen(kind, users, at, call, reply);
    (After(kind, users, at, call, seen), OutcomeOf(seen))
  }

  function Dispatch(kind: PanelKind, users: Users, o: Op, a: Attempt): (Users, Outcome)
  {
    match o.work
    case ExtendUser(epoch) =>
      if epoch == 0 then (users, Undelivered(false))
      else CallOnce(kind, users, SetUserExpiry(o.session, epoch * 1000), a.call, a.at)
    case RevokeUser =>
      var (users', outcome) := CallOnce(kind, users, DisableUser(o.session), a.disable, a.at);
      if outcome.Undelivered? then (users', outcome)
      else CallOnce(kind, users', PanelCall.DeleteUser(o.session), a.call, a.at)
    case DeleteUser => CallOnce(kind, users, PanelCall.DeleteUser(o.session), a.call, a.at)
  }

  /** The catch block, and whether the loop goes on: when its own write throws, the tick is over. */
  function Rescue(maxAttempts: nat, o: Op, retryable: bool, a: Attempt): (Op, bool)
  {
    (if Applied(a.rescue) then MarkFailed(maxAttempts, o, o.attempts, retryable, a.at) else o, a.rescue.Returned?)
  }

  /** The status writes: an error of the success write is caught like a retryable one of the panel. */
  function Settle(maxAttempts: nat, o: Op, outcome: Outcome, a: Attempt): (Op, bool)
  {
    match outcome
    case Delivered =>
      var marked := if Applied(a.mark) then MarkSucceeded(o) else o;
      if a.mark.Returned? then (marked, true) else Rescue(maxAttempts, marked, true, a)
    case Undelivered(retryable) => Rescue(maxAttempts, o, retryable, a)
  }

  /** The queue as a tick leaves it so far, and whether the tick is still running. */
  datatype Batch = Batch(queue: Outbox, alive: bool)

  function DispatchOne(maxAttempts: nat, kind: PanelKind, ob: Outbox, k: nat, a: Attempt): (r: Batch)
    requires k < |ob.ops|
    ensures |r.queue.ops| == |ob.ops|
  {
    var (users', outcome) := Dispatch(kind, ob.users, ob.ops[k], a);
    var (o', alive) := Settle(maxAttempts, ob.ops[k], outcome, a);
    Batch(Outbox(ob.ops[k := o'], users'), alive)
  }

  function DispatchAll(maxAttempts: nat, kind: PanelKind, ob: Outbox, rows: seq<nat>, script: seq<Attempt>): (r: Batch)
    requires |rows| == |script| && forall j | 0 <= j < |rows| :: rows[j] < |ob.ops|
    ensures |r.queue.ops| == |ob.ops|
  {
    if rows == [] then Batch(ob, true)
    else
      var n := |rows| - 1;
      var before := DispatchAll(maxAttempts, kind, ob, rows[..n], script[..n]);
      if before.alive then DispatchOne(maxAttempts, kind, before.queue, rows[n], script[n]) else before
  }

  /** Once a tick is over, the rows it had not reached stay as they were claimed. */
  lemma {:induction false} StoppedStays(maxAttempts: nat, kind: PanelKind, ob: Outbox, rows: seq<nat>,
                                        script: seq<Attempt>, j: nat)
    requires |rows| == |script| && j <= |rows| && forall i | 0 <= i < |rows| :: rows[i] < |ob.ops|
    requires !DispatchAll(maxAttempts, kind, ob, rows[..j], script[..j]).alive
    ensures DispatchAll(maxAttempts, kind, ob, rows, script)
        == DispatchAll(maxAttempts, kind, ob, rows[..j], script[..j])
    decreases |rows|
  {
    if j == |rows| {
      assert rows[..j] == rows && script[..j] == script;
    } else {
      var n := |rows| - 1;
      assert rows[..n][..j] == rows[..j] && script[..n][..j] == script[..j];
      StoppedStays(maxAttempts, kind, ob, rows[..n], script[..n], j);
    }
  }

  /** One tick: the rows the claim query returned, and the replies their dispatches will meet. */
  datatype Tick = Tick(now: int, picked: seq<nat>, script: seq<Attempt>)

  ghost predicate TickOk(p: Settings, ob: Outbox, t: Tick)
  {
    && TopRows(t.picked, ob.ops, Due(t.now), DueAt(), Some(p.batch))
    && |t.script| == |t.picked|
    && forall j | 0 <= j < |t.script| :: t.now <= t.script[j].at
  }

  ghost function Ticked(p: Settings, kind: PanelKind, ob: Outbox, t: Tick): Batch
    requires TickOk(p, ob, t)
  {
    DispatchAll(p.maxAttempts, kind, ob.(ops := ClaimOps(ob.ops, t.picked, t.now, p.leaseMs)), t.picked, t.script)
  }

  ghost function AfterTick(p: Settings, kind: PanelKind, ob: Outbox, t: Tick): Outbox
    requires TickOk(p, ob, t)
  {
    Ticked(p, kind, ob, t).queue
  }

  /** No write of a catch block throws, so that the tick gets to all its rows. */
  predicate Calm(script: seq<Attempt>)
  {
    forall j | 0 <= j < |script| :: script[j].rescue.Returned?
  }

  // ---- what a tick does to each row -------------------------------------------------------

  /** How a claimed row ends its tick, and from which replies alone it can end so. */
  ghost predicate Attempted(maxAttempts: nat, o: Op, o': Op, a: Attempt)
  {
    && o'.session == o.session && o'.work == o.work && o'.attempts == o.attempts + 1
    && (|| (o'.status.Succeeded? && CallsReturned(o, a) && Applied(a.mark))
        || (o'.status.Dead? && (maxAttempts <= o'.attempts || NotRetryable(o, a)))
        || (&& o'.status.Retrying? && o'.attempts < maxAttempts && !NotRetryable(o, a)
            && o'.nextAt == a.at + BackoffSec(o'.attempts) * 1000))
    && (o.work.Reclaims() && Accepts(a) ==> o'.status.Succeeded?)
  }

  /** Every panel call the operation takes came back. */
  predicate CallsReturned(o: Op, a: Attempt)
  {
    && a.call.Returned? && (o.work.RevokeUser? ==> a.disable.Returned?) && o.work != ExtendUser(0)
  }

  /** A failure that is dead on the first attempt: the panel refused it for good, or the payload carries no instant. */
  predicate NotRetryable(o: Op, a: Attempt)
  {
    || o.work == ExtendUser(0)
    || (if o.work.RevokeUser? && a.disable.Threw? then !a.disable.retryable else a.call.Threw? && !a.call.retryable)
  }

  /** Panel and database take all they are asked. */
  predicate Accepts(a: Attempt) { a.disable.Returned? && a.call.Returned? && a.mark.Returned? }

  /** How a claimed row ends a tick that an error may have cut short: attempted, or left as it was leased. */
  ghost predicate Passed(maxAttempts: nat, o: Op, o': Op, a: Attempt, leasedUntil: int, calm: bool)
  {
    || Attempted(maxAttempts, o, o', a)
    || (!calm && o' == o.(status := InFlight, attempts := o.attempts + 1, nextAt := leasedUntil))
  }

  /** The panel does what the operation asks: each call comes back, and an extend finds its user. */
  predicate Taken(users: Users, o: Op, a: Attempt)
  {
    CallsReturned(o, a) && (o.work.ExtendUser? ==> o.session in users)
  }

  /** What the panel holds for the user of a taken extend: the instant asked for, unless it has gone by already. */
  predicate Extended(kind: PanelKind, users: Users, users': Users, o: Op, at: int)
  {
    && o.work.ExtendUser? && o.session in users && o.session in users'
    && users'[o.session].expiresAt == if kind.Remnawave? && o.work.epoch * 1000 <= at + DRIFT_TOLERANCE_MS
                                      then users[o.session].expiresAt else Some(o.work.epoch * 1000)
  }

  /**
   * One dispatch, outcome by outcome. The row ends succeeded exactly if the panel did what it asks
   * and the success write took effect; of what remains, whatever the catch block writes is dead
   * exactly on the last attempt or a final refusal, and due again after the backoff otherwise. A row no
   * longer in flight stays as it is.
   */
  lemma DispatchedExactlyWhen(maxAttempts: nat, kind: PanelKind, ob: Outbox, k: nat, a: Attempt)
    requires k < |ob.ops|
    ensures !ob.ops[k].status.InFlight? ==> DispatchOne(maxAttempts, kind, ob, k, a).queue.ops == ob.ops
    ensures ob.ops[k].status.InFlight? ==>
            var o, ob' := ob.ops[k], DispatchOne(maxAttempts, kind, ob, k, a).queue;
            var o' := ob'.ops[k];
            var final := maxAttempts <= o.attempts || NotRetryable(o, a);
            && ob'.ops == ob.ops[k := o.(status := o'.status, nextAt := o'.nextAt)]
            && (o'.status.Succeeded? <==> Taken(ob.users, o, a) && Applied(a.mark))
            && (o'.status.Dead? <==> !o'.status.Succeeded? && Applied(a.rescue) && final)
            && (o'.status.Retrying? <==> !o'.status.Succeeded? && Applied(a.rescue) && !final)
            && o'.nextAt == (if o'.status.Dead? || o'.status.Retrying? then a.at + BackoffSec(o.attempts) * 1000
                             else o.nextAt)
    ensures DispatchOne(maxAttempts, kind, ob, k, a).alive <==>
              (Taken(ob.users, ob.ops[k], a) && a.mark.Returned?) || a.rescue.Returned?
  {}

  /** What the panel holds after it: a taken removal has its user gone, a taken extend its instant, others stay. */
  lemma DispatchReachesPanel(maxAttempts: nat, kind: PanelKind, ob: Outbox, k: nat, a: Attempt, other: nat)
    requires k < |ob.ops|
    ensures var o, users' := ob.ops[k], DispatchOne(maxAttempts, kind, ob, k, a).queue.users;
            && (Taken(ob.users, o, a) && o.work.Reclaims() ==> o.session !in users')
            && (Taken(ob.users, o, a) && o.work.ExtendUser? ==> Extended(kind, ob.users, users', o, a.at))
            && (other != o.session ==> (other in users' <==> other in ob.users))
            && (other != o.session && other in ob.users ==> users'[other] == ob.users[other])
            && (!Applied(a.call) && !Applied(a.disable) ==> users' == ob.users)
  {}

  lemma DispatchOneSettles(maxAttempts: nat, kind: PanelKind, ob: Outbox, k: nat, a: Attempt, o: Op)
    requires k < |ob.ops| && Leased(o, ob.ops[k])
    ensures a.rescue.Returned? ==> DispatchOne(maxAttempts, kind, ob, k, a).alive
    ensures var ob' := DispatchOne(maxAttempts, kind, ob, k, a).queue;
            && Passed(maxAttempts, o, ob'.ops[k], a, ob.ops[k].nextAt, a.rescue.Returned?)
            && (o.work.Reclaims() && ob'.ops[k].status.Succeeded? ==> o.session !in ob'.users)
            && (o.work.ExtendUser? && ob'.ops[k].status.Succeeded? ==>
                  Extended(kind, ob.users, ob'.users, o, a.at))
            && ob'.users.Keys <= ob.users.Keys
  {
    DispatchedExactlyWhen(maxAttempts, kind, ob, k, a);
    DispatchReachesPanel(maxAttempts, kind, ob, k, a, o.session);
  }

  /** Row `rows[j]` of `before` has gone through the attempt `script[j]`, and no other row of `ob` has changed. */
  ghost predicate Handled(maxAttempts: nat, before: seq<Op>, ob: Outbox, ob': Outbox, rows: seq<nat>,
                          script: seq<Attempt>)
    requires |rows| == |script| && |ob.ops| == |ob'.ops| == |before|
    requires forall j | 0 <= j < |rows| :: rows[j] < |before|
  {
    && (forall k: nat | k < |before| && k !in rows :: ob'.ops[k] == ob.ops[k])
    && (forall j | 0 <= j < |rows| ::
          && Passed(maxAttempts, before[rows[j]], ob'.ops[rows[j]], script[j], ob.ops[rows[j]].nextAt, Calm(script))
          && (before[rows[j]].work.Reclaims() && ob'.ops[rows[j]].status.Succeeded? ==>
              before[rows[j]].session !in ob'.users))
    && ob'.users.Keys <= ob.users.Keys
  }

  /** The claim as the dispatches find it: `picked` rows in flight with one more attempt. */
  predicate Leased(o: Op, leased: Op)
  {
    leased == o.(status := InFlight, attempts := o.attempts + 1, nextAt := leased.nextAt)
  }

  /** The next row of a tick that is still running, dispatched; or of one that is over, left alone. */
  lemma OneMoreHandled(maxAttempts: nat, kind: PanelKind, before: seq<Op>, ob: Outbox, mid: Batch, rows: seq<nat>,
                       script: seq<Attempt>, k: nat, a: Attempt)
    requires |rows| == |script| && |ob.ops| == |mid.queue.ops| == |before|
    requires forall j | 0 <= j < |rows| :: rows[j] < |before|
    requires Handled(maxAttempts, before, ob, mid.queue, rows, script) && (Calm(script) ==> mid.alive)
    requires k < |before| && k !in rows && Leased(before[k], ob.ops[k])
    ensures var next := if mid.alive then DispatchOne(maxAttempts, kind, mid.queue, k, a) else mid;
            && Handled(maxAttempts, before, ob, next.queue, rows + [k], script + [a])
            && (Calm(script + [a]) ==> next.alive)
  {
    var next := if mid.alive then DispatchOne(maxAttempts, kind, mid.queue, k, a) else mid;
    var ob' := next.queue;
    if Calm(script + [a]) {
      assert (script + [a])[|script|] == a;
      assert forall j | 0 <= j < |script| :: (script + [a])[j] == script[j];
    }
    if mid.alive { DispatchOneSettles(maxAttempts, kind, mid.queue, k, a, before[k]); }
    forall j | 0 <= j < |rows| + 1
      ensures Passed(maxAttempts, before[(rows + [k])[j]], ob'.ops[(rows + [k])[j]], (script + [a])[j],
                     ob.ops[(rows + [k])[j]].nextAt, Calm(script + [a]))
    {
      if j < |rows| {
        assert rows[j] != k && ob'.ops[rows[j]] == mid.queue.ops[rows[j]];
      }
    }
  }

  /** Every picked row passes through the tick once, every other row is untouched, no panel user appears. */
  lemma {:induction false} DispatchAllSettles(maxAttempts: nat, kind: PanelKind, ob: Outbox, rows: seq<nat>,
                                              script: seq<Attempt>, before: seq<Op>)
    requires |rows| == |script| && Distinct(rows) && |ob.ops| == |before|
    requires forall j | 0 <= j < |rows| :: rows[j] < |before| && Leased(before[rows[j]], ob.ops[rows[j]])
    ensures Calm(script) ==> DispatchAll(maxAttempts, kind, ob, rows, script).alive
    ensures Handled(maxAttempts, before, ob, DispatchAll(maxAttempts, kind, ob, rows, script).queue, rows, script)
    decreases |rows|
  {
    if rows != [] {
      var n := |rows| - 1;
      DispatchAllSettles(maxAttempts, kind, ob, rows[..n], script[..n], before);
      assert rows[..n] + [rows[n]] == rows && script[..n] + [script[n]] == script;
      var mid := DispatchAll(maxAttempts, kind, ob, rows[..n], script[..n]);
      OneMoreHandled(maxAttempts, kind, before, ob, mid, rows[..n], script[..n], rows[n], script[n]);
    }
  }

  lemma TickSettles(p: Settings, kind: PanelKind, ob: Outbox, t: Tick)
    requires TickOk(p, ob, t)
    ensures var ob' := AfterTick(p, kind, ob, t);
            && |ob'.ops| == |ob.ops|
            && (forall k: nat | k < |ob.ops| && k !in t.picked :: ob'.ops[k] == ob.ops[k])
            && (forall j | 0 <= j < |t.picked| ::
                  && Passed(p.maxAttempts, ob.ops[t.picked[j]], ob'.ops[t.picked[j]], t.script[j], t.now + p.leaseMs,
                            Calm(t.script))
                  && (ob.ops[t.picked[j]].work.Reclaims() && ob'.ops[t.picked[j]].status.Succeeded? ==>
                        ob.ops[t.picked[j]].session !in ob'.users))
            && ob'.users.Keys <= ob.users.Keys
  {
    var claimed := ob.(ops := ClaimOps(ob.ops, t.picked, t.now, p.leaseMs));
    DispatchAllSettles(p.maxAttempts, kind, claimed, t.picked, t.script, ob.ops);
  }

  function LatestOf(script: seq<Attempt>, now: int): int
  {
    if script == [] then now else Max(LatestOf(script[..|script| - 1], now), script[|script| - 1].at)
  }

  lemma {:induction false} LatestBounds(script: seq<Attempt>, now: int)
    ensures now <= LatestOf(script, now)
    ensures forall j | 0 <= j < |script| :: script[j].at <= LatestOf(script, now)
  {
    if script != [] {
      LatestBounds(script[..|script| - 1], now);
      assert forall j | 0 <= j < |script| - 1 :: script[j] == script[..|script| - 1][j];
    }
  }

  /** The latest instant of a tick. */
  function EndOf(t: Tick): int
  {
    LatestOf(t.script, t.now)
  }

  /** One row of it: picked as the j-th and through its attempt, or untouched. */
  ghost predicate WentThrough(p: Settings, ob: Outbox, ob': Outbox, t: Tick, k: nat, j: int)
    requires k < |ob.ops| == |ob'.ops| && |t.picked| == |t.script|
  {
    var o, o' := ob.ops[k], ob'.ops[k];
    if k in t.picked then
      && 0 <= j < |t.picked| && t.picked[j] == k && t.now <= t.script[j].at <= EndOf(t)
      && o.status.Open() && o.nextAt <= t.now
      && Passed(p.maxAttempts, o, o', t.script[j], t.now + p.leaseMs, Calm(t.script))
      && (o.work.Reclaims() && o'.status.Succeeded? ==> o.session !in ob'.users)
    else o' == o
  }

  lemma RowInTick(p: Settings, kind: PanelKind, ob: Outbox, t: Tick, k: nat) returns (j: int)
    requires TickOk(p, ob, t) && k < |ob.ops|
    ensures |AfterTick(p, kind, ob, t).ops| == |ob.ops|
    ensures WentThrough(p, ob, AfterTick(p, kind, ob, t), t, k, j) && t.now <= EndOf(t)
    ensures AfterTick(p, kind, ob, t).users.Keys <= ob.users.Keys
  {
    j := 0;
    TickSettles(p, kind, ob, t);
    LatestBounds(t.script, t.now);
    if k in t.picked {
      j :| 0 <= j < |t.picked| && t.picked[j] == k;
      assert Due(t.now)(ob.ops[t.picked[j]]);
    }
  }

  /**
   * A tick claims open rows that are due and no others, as many as the batch allows, and leaves none
   * waiting behind one that came due later; each is leased and has one attempt more.
   */
  lemma ClaimsEarliestDue(p: Settings, ob: Outbox, t: Tick, k: nat)
    requires TickOk(p, ob, t) && k < |ob.ops|
    ensures |t.picked| <= p.batch
    ensures k in t.picked ==> ob.ops[k].status.Open() && ob.ops[k].nextAt <= t.now
    ensures ob.ops[k].status.Open() && ob.ops[k].nextAt <= t.now && k !in t.picked ==>
              |t.picked| == p.batch && forall a | 0 <= a < p.batch :: ob.ops[t.picked[a]].nextAt <= ob.ops[k].nextAt
    ensures var claimed := ClaimOps(ob.ops, t.picked, t.now, p.leaseMs);
            && |claimed| == |ob.ops|
            && (k !in t.picked ==> claimed[k] == ob.ops[k])
            && (k in t.picked ==> Leased(ob.ops[k], claimed[k]) && claimed[k].nextAt == t.now + p.leaseMs)
  {
    if k in t.picked {
      var j :| 0 <= j < |t.picked| && t.picked[j] == k;
      assert Due(t.now)(ob.ops[t.picked[j]]);
    } else if ob.ops[k].status.Open() && ob.ops[k].nextAt <= t.now {
      assert Due(t.now)(ob.ops[k]);
      forall a | 0 <= a < |t.picked| ensures ob.ops[t.picked[a]].nextAt <= ob.ops[k].nextAt {
        assert DueAt()(ob.ops[t.picked[a]]) <= DueAt()(ob.ops[k]);
      }
    }
  }

  // ---- extends arrive ------------------------------------------------------------------------------

  /** Rows of other sessions leave user i and what it holds alone. */
  lemma {:induction false} DispatchingLeavesUser(maxAttempts: nat, kind: PanelKind, ob: Outbox, rows: seq<nat>,
                                                 script: seq<Attempt>, i: nat)
    requires |rows| == |script|
    requires forall j | 0 <= j < |rows| :: rows[j] < |ob.ops| && ob.ops[rows[j]].session != i
    ensures var users' := DispatchAll(maxAttempts, kind, ob, rows, script).queue.users;
            (i in users' <==> i in ob.users) && (i in ob.users ==> users'[i] == ob.users[i])
    decreases |rows|
  {
    if rows != [] {
      var n := |rows| - 1;
      var before := DispatchAll(maxAttempts, kind, ob, rows[..n], script[..n]);
      DispatchingLeavesUser(maxAttempts, kind, ob, rows[..n], script[..n], i);
      DispatchingKeepsRows(maxAttempts, kind, ob, rows[..n], script[..n]);
      if before.alive { DispatchReachesPanel(maxAttempts, kind, before.queue, rows[n], script[n], i); }
    }
  }

  /** The rows of a tick, an extend and no other row of its session among them. */
  ghost predicate AloneAmong(ops: seq<Op>, rows: seq<nat>, j: nat)
  {
    && j < |rows| && Distinct(rows) && (forall m | 0 <= m < |rows| :: rows[m] < |ops|)
    && ops[rows[j]].work.ExtendUser?
    && forall m | 0 <= m < |rows| && m != j :: ops[rows[m]].session != ops[rows[j]].session
  }

  lemma {:induction false} DispatchingDelivers(maxAttempts: nat, kind: PanelKind, ob: Outbox, rows: seq<nat>,
                                               script: seq<Attempt>, j: nat)
    requires |rows| == |script| && AloneAmong(ob.ops, rows, j) && ob.ops[rows[j]].status.InFlight?
    ensures var ob' := DispatchAll(maxAttempts, kind, ob, rows, script).queue;
            ob'.ops[rows[j]].status.Succeeded? ==>
              Extended(kind, ob.users, ob'.users, ob.ops[rows[j]], script[j].at)
    decreases |rows|
  {
    var n, o := |rows| - 1, ob.ops[rows[j]];
    var before := DispatchAll(maxAttempts, kind, ob, rows[..n], script[..n]);
    DispatchingKeepsRows(maxAttempts, kind, ob, rows[..n], script[..n]);
    if j == n {
      DispatchingLeavesUser(maxAttempts, kind, ob, rows[..n], script[..n], o.session);
      DispatchingLeavesRow(maxAttempts, kind, ob, rows[..n], script[..n], rows[n]);
      if before.alive {
        DispatchedExactlyWhen(maxAttempts, kind, before.queue, rows[n], script[n]);
        DispatchReachesPanel(maxAttempts, kind, before.queue, rows[n], script[n], o.session);
      }
    } else {
      DispatchingDelivers(maxAttempts, kind, ob, rows[..n], script[..n], j);
      if before.alive { DispatchReachesPanel(maxAttempts, kind, before.queue, rows[n], script[n], o.session); }
    }
  }

  lemma {:induction false} DispatchingLeavesRow(maxAttempts: nat, kind: PanelKind, ob: Outbox, rows: seq<nat>,
                                                script: seq<Attempt>, k: nat)
    requires |rows| == |script| && (forall j | 0 <= j < |rows| :: rows[j] < |ob.ops|) && k < |ob.ops| && k !in rows
    ensures DispatchAll(maxAttempts, kind, ob, rows, script).queue.ops[k] == ob.ops[k]
    decreases |rows|
  {
    if rows != [] {
      DispatchingLeavesRow(maxAttempts, kind, ob, rows[..|rows| - 1], script[..|rows| - 1], k);
    }
  }

  /**
   * An extend that a tick completes was taken by the panel in it: its call came back, and unless
   * the tick also served another operation of the session, the panel now holds its instant.
   */
  lemma CompletedExtendArrived(p: Settings, kind: PanelKind, ob: Outbox, t: Tick, k: nat) returns (j: int)
    requires TickOk(p, ob, t) && k < |ob.ops| && ob.ops[k].work.ExtendUser? && !ob.ops[k].status.Succeeded?
    requires k < |AfterTick(p, kind, ob, t).ops| && AfterTick(p, kind, ob, t).ops[k].status.Succeeded?
    ensures 0 <= j < |t.picked| && t.picked[j] == k && t.script[j].call.Returned? && ob.ops[k].work.epoch != 0
    ensures AloneAmong(ob.ops, t.picked, j) ==>
              Extended(kind, ob.users, AfterTick(p, kind, ob, t).users, ob.ops[k], t.script[j].at)
  {
    var claimed := ob.(ops := ClaimOps(ob.ops, t.picked, t.now, p.leaseMs));
    j := RowInTick(p, kind, ob, t, k);
    if AloneAmong(ob.ops, t.picked, j) {
      DispatchingDelivers(p.maxAttempts, kind, claimed, t.picked, t.script, j);
    }
  }

  // ---- what a worker can still claim -----------------------------------------------------------

  function AttemptsLeft(maxAttempts: nat): Op -> int
  {
    (o: Op) => if o.status.Open() then Max(1, maxAttempts - o.attempts) else 0
  }

  /** An upper bound on the claims an undisturbed worker can still make. */
  function Budget(p: Settings, ops: seq<Op>): int { Sum(ops, AttemptsLeft(p.maxAttempts)) }

  /** If each picked row loses one at least and no row gains, the total drops by the number picked. */
  lemma {:induction false} TotalDrops(rows: seq<Op>, rows': seq<Op>, f: Op -> int, picked: seq<nat>)
    requires |rows| == |rows'| && Distinct(picked)
    requires forall j | 0 <= j < |picked| :: picked[j] < |rows|
    requires forall i: nat | i < |rows| :: f(rows'[i]) <= f(rows[i]) - if i in picked then 1 else 0
    ensures Sum(rows', f) <= Sum(rows, f) - |picked|
    decreases |rows|
  {
    if rows == [] {
      FirstBelow(picked, 0);
    } else {
      var n := |rows| - 1;
      if n in picked {
        var j :| 0 <= j < |picked| && picked[j] == n;
        var rest := Without(picked, j);
        forall a | 0 <= a < |rest| ensures rest[a] < n { assert rest[a] in rest; }
        TotalDrops(rows[..n], rows'[..n], f, rest);
      } else {
        forall a | 0 <= a < |picked| ensures picked[a] < n { assert picked[a] in picked; }
        TotalDrops(rows[..n], rows'[..n], f, picked);
      }
    }
  }

  /** A tick that is not cut short pays for each claim it makes, and no tick earns anything. */
  lemma TickSpendsBudget(p: Settings, kind: PanelKind, ob: Outbox, t: Tick)
    requires TickOk(p, ob, t)
    ensures Budget(p, AfterTick(p, kind, ob, t).ops) <= Budget(p, ob.ops) - if Calm(t.script) then |t.picked| else 0
  {
    var ob' := AfterTick(p, kind, ob, t);
    var f := AttemptsLeft(p.maxAttempts);
    var paid := if Calm(t.script) then t.picked else [];
    TickSettles(p, kind, ob, t);
    forall i: nat | i < |ob.ops| ensures f(ob'.ops[i]) <= f(ob.ops[i]) - if i in paid then 1 else 0 {
      var j := RowInTick(p, kind, ob, t, i);
    }
    TotalDrops(ob.ops, ob'.ops, f, paid);
  }

  /** A run of ticks by one worker with no new work. */
  ghost predicate TicksOk(p: Settings, kind: PanelKind, ob: Outbox, ticks: seq<Tick>)
    decreases |ticks|
  {
    ticks != [] ==> TickOk(p, ob, ticks[0]) && TicksOk(p, kind, AfterTick(p, kind, ob, ticks[0]), ticks[1..])
  }

  /** No tick is cut short. */
  predicate AllCalm(ticks: seq<Tick>)
  {
    forall i | 0 <= i < |ticks| :: Calm(ticks[i].script)
  }

  ghost function AfterTicks(p: Settings, kind: PanelKind, ob: Outbox, ticks: seq<Tick>): Outbox
    requires TicksOk(p, kind, ob, ticks)
    decreases |ticks|
  {
    if ticks == [] then ob else AfterTicks(p, kind, AfterTick(p, kind, ob, ticks[0]), ticks[1..])
  }

  function Claims(ticks: seq<Tick>): int
  {
    if ticks == [] then 0 else |ticks[0].picked| + Claims(ticks[1..])
  }

  /** However long the worker runs, it claims no more often than the budget it started with. */
  lemma {:induction false} ClaimsAreBounded(p: Settings, kind: PanelKind, ob: Outbox, ticks: seq<Tick>)
    requires TicksOk(p, kind, ob, ticks) && AllCalm(ticks)
    ensures Claims(ticks) + Budget(p, AfterTicks(p, kind, ob, ticks).ops) <= Budget(p, ob.ops)
    ensures 0 <= Budget(p, AfterTicks(p, kind, ob, ticks).ops)
    decreases |ticks|
  {
    if ticks == [] {
      SumNonNegative(ob.ops, AttemptsLeft(p.maxAttempts));
    } else {
      TickSpendsBudget(p, kind, ob, ticks[0]);
      ClaimsAreBounded(p, kind, AfterTick(p, kind, ob, ticks[0]), ticks[1..]);
    }
  }

  ghost predicate Closed(ops: seq<Op>)
  {
    forall k | 0 <= k < |ops| :: ops[k].status.Succeeded? || ops[k].status.Dead?
  }

  lemma NoBudgetMeansClosed(p: Settings, ops: seq<Op>)
    requires Budget(p, ops) <= 0
    ensures Closed(ops)
  {
    forall k | 0 <= k < |ops| ensures ops[k].status.Succeeded? || ops[k].status.Dead? {
      SumAtLeast(ops, k, AttemptsLeft(p.maxAttempts));
    }
  }

  /** A removal that was open and ended succeeded left its user gone, and gone it stays. */
  lemma {:induction false} RemovedStayRemoved(p: Settings, kind: PanelKind, ob: Outbox, ticks: seq<Tick>, k: nat)
    requires TicksOk(p, kind, ob, ticks)
    requires k < |ob.ops| && ob.ops[k].work.Reclaims()
    requires ob.ops[k].status.Succeeded? ==> ob.ops[k].session !in ob.users
    ensures var ob' := AfterTicks(p, kind, ob, ticks);
            |ob'.ops| == |ob.ops| && (ob'.ops[k].status.Succeeded? ==> ob.ops[k].session !in ob'.users)
    decreases |ticks|
  {
    if ticks != [] {
      var t, next := ticks[0], AfterTick(p, kind, ob, ticks[0]);
      var j := RowInTick(p, kind, ob, t, k);
      RemovedStayRemoved(p, kind, next, ticks[1..], k);
    }
  }

  // ---- the retry horizon -----------------------------------------------------------------------

  /** Seconds from the first claim to the last, if each retry comes no sooner than its backoff allows. */
  function BackoffSum(attempts: nat): int
  {
    if attempts == 0 then 0 else BackoffSum(attempts - 1) + BackoffSec(attempts)
  }

  lemma Pow2Grows(n: nat)
    ensures 1 <= Pow2(n)
    ensures n <= 8 ==> Pow2(n) <= 256
  {
    if n <= 8 {
      assert Pow2(8) == 256 by { assert Pow2(4) == 16; }
      Pow2Monotone(n, 8);
    } else {
      Pow2Monotone(0, n);
    }
  }

  lemma {:induction false} Pow2Monotone(m: nat, n: nat)
    requires m <= n
    ensures 1 <= Pow2(m) <= Pow2(n)
    decreases n
  {
    if m < n {
      Pow2Monotone(m, n - 1);
    } else if 0 < n {
      Pow2Monotone(n - 1, n - 1);
    }
  }

  /** The 300-second cap is never reached. */
  lemma CapNeverBinds(attempts: nat)
    ensures BackoffSec(attempts) == Pow2(Min(attempts, 8)) <= 256
  {
    Pow2Grows(Min(attempts, 8));
  }

  /** In seconds: 2^max - 2 up to nine attempts, 256 more for each beyond. */
  function Horizon(maxAttempts: nat): int
  {
    if maxAttempts <= 9 then Pow2(maxAttempts) - 2 else 510 + 256 * (maxAttempts - 9)
  }

  lemma {:induction false} HorizonInClosedForm(maxAttempts: nat)
    requires 1 <= maxAttempts
    ensures BackoffSum(maxAttempts - 1) == Horizon(maxAttempts)
  {
    if maxAttempts == 1 {
      assert Pow2(1) == 2;
    } else {
      HorizonInClosedForm(maxAttempts - 1);
      CapNeverBinds(maxAttempts - 1);
      if maxAttempts == 10 {
        assert Pow2(9) == 512 by { assert Pow2(5) == 32; }
      }
      assert Pow2(8) == 256 by { assert Pow2(4) == 16; }
    }
  }

  /** No attempt at row k meets a refusal for good, and none is claimed before `first`. */
  ghost predicate OnlyRetryable(ticks: seq<Tick>, k: nat, first: int)
  {
    forall i, j | 0 <= i < |ticks| && 0 <= j < |ticks[i].picked| && j < |ticks[i].script| && ticks[i].picked[j] == k ::
      && first <= ticks[i].now
      && (ticks[i].script[j].disable.Threw? ==> ticks[i].script[j].disable.retryable)
      && (ticks[i].script[j].call.Threw? ==> ticks[i].script[j].call.retryable)
  }

  /** How old a row that keeps failing must be, given the attempts made. */
  ghost predicate Aged(p: Settings, o: Op, first: int, clock: int)
    requires p.Valid()
  {
    && (o.status.Queued? ==> o.attempts == 0)
    && !o.status.InFlight?
    && (o.status.Retrying? ==> 1 <= o.attempts < p.maxAttempts && first + BackoffSum(o.attempts) * 1000 <= o.nextAt)
    && (o.status.Dead? ==> first + BackoffSum(p.maxAttempts - 1) * 1000 <= clock)
  }

  function EndOfRun(ticks: seq<Tick>, clock: int): int
  {
    if ticks == [] then clock else EndOfRun(ticks[1..], EndOf(ticks[0]))
  }

  /** Ticks of one worker: none starts before `clock`, nor before the one ahead of it has ended. */
  predicate Ordered(ticks: seq<Tick>, clock: int)
  {
    ticks != [] ==> clock <= ticks[0].now && Ordered(ticks[1..], EndOf(ticks[0]))
  }

  lemma AttemptAges(p: Settings, o: Op, o': Op, a: Attempt, first: int, now: int, clock: int)
    requires p.Valid() && Aged(p, o, first, now) && o.status.Open() && o.nextAt <= now && first <= now <= a.at <= clock
    requires Passed(p.maxAttempts, o, o', a, now + p.leaseMs, true) && !NotRetryable(o, a)
    ensures Aged(p, o', first, clock) && o'.work == o.work
  {}

  lemma RestAges(p: Settings, o: Op, first: int, clock: int, later: int)
    requires p.Valid() && Aged(p, o, first, clock) && clock <= later
    ensures Aged(p, o, first, later)
  {}

  lemma FailsRetryably(o: Op, t: Tick, k: nat, first: int, j: nat)
    requires OnlyRetryable([t], k, first) && o.work.Reclaims()
    requires j < |t.picked| && j < |t.script| && t.picked[j] == k
    ensures first <= t.now && !NotRetryable(o, t.script[j])
  {
    assert [t][0].picked[j] == k;
  }

  lemma TickAges(p: Settings, kind: PanelKind, ob: Outbox, t: Tick, k: nat, first: int, clock: int)
    requires p.Valid() && TickOk(p, ob, t) && Calm(t.script) && clock <= t.now
    requires k < |ob.ops| && ob.ops[k].work.Reclaims() && Aged(p, ob.ops[k], first, clock)
    requires OnlyRetryable([t], k, first)
    ensures |AfterTick(p, kind, ob, t).ops| == |ob.ops|
    ensures Aged(p, AfterTick(p, kind, ob, t).ops[k], first, EndOf(t))
    ensures AfterTick(p, kind, ob, t).ops[k].work == ob.ops[k].work
  {
    var j := RowInTick(p, kind, ob, t, k);
    if k in t.picked {
      FailsRetryably(ob.ops[k], t, k, first, j);
      RestAges(p, ob.ops[k], first, clock, t.now);
      AttemptAges(p, ob.ops[k], AfterTick(p, kind, ob, t).ops[k], t.script[j], first, t.now, EndOf(t));
    } else {
      RestAges(p, ob.ops[k], first, clock, EndOf(t));
    }
  }

  /**
   * A removal that only ever fails retryably is not dead before its first claim plus the
   * sum of the backoffs, however the ticks fall.
   */
  lemma {:induction false} NotDeadBeforeHorizon(p: Settings, kind: PanelKind, ob: Outbox, ticks: seq<Tick>, k: nat,
                                                first: int, clock: int)
    requires p.Valid() && TicksOk(p, kind, ob, ticks) && AllCalm(ticks) && Ordered(ticks, clock)
        && OnlyRetryable(ticks, k, first)
    requires k < |ob.ops| && ob.ops[k].work.Reclaims() && Aged(p, ob.ops[k], first, clock)
    ensures var ob' := AfterTicks(p, kind, ob, ticks);
            && |ob'.ops| == |ob.ops|
            && Aged(p, ob'.ops[k], first, EndOfRun(ticks, clock))
    decreases |ticks|
  {
    if ticks != [] {
      var t, next, rest := ticks[0], AfterTick(p, kind, ob, ticks[0]), ticks[1..];
      FirstTick(ticks, k, first);
      TickAges(p, kind, ob, t, k, first, clock);
      NotDeadBeforeHorizon(p, kind, next, rest, k, first, EndOf(t));
      assert AfterTicks(p, kind, ob, ticks) == AfterTicks(p, kind, next, rest);
    }
  }

  lemma FirstTick(ticks: seq<Tick>, k: nat, first: int)
    requires ticks != [] && OnlyRetryable(ticks, k, first)
    ensures OnlyRetryable([ticks[0]], k, first) && OnlyRetryable(ticks[1..], k, first)
  {
    var t, rest := ticks[0], ticks[1..];
    forall j | 0 <= j < |t.picked| && j < |t.script| && t.picked[j] == k
      ensures first <= t.now && (t.script[j].disable.Threw? ==> t.script[j].disable.retryable)
      ensures t.script[j].call.Threw? ==> t.script[j].call.retryable
    {
      assert ticks[0].picked[j] == k;
    }
    assert forall i | 0 <= i < |rest| :: rest[i] == ticks[i + 1];
  }

  /** In figures, for a removal queued afresh. */
  lemma RetryHorizon(p: Settings, kind: PanelKind, ob: Outbox, ticks: seq<Tick>, k: nat, first: int)
    requires p.Valid() && ticks != [] && TicksOk(p, kind, ob, ticks) && AllCalm(ticks)
        && Ordered(ticks, ticks[0].now) && OnlyRetryable(ticks, k, first)
    requires k < |ob.ops| && ob.ops[k].work.Reclaims() && ob.ops[k].status.Queued? && ob.ops[k].attempts == 0
    ensures |AfterTicks(p, kind, ob, ticks).ops| == |ob.ops|
    ensures AfterTicks(p, kind, ob, ticks).ops[k].status.Dead? ==>
              first + Horizon(p.maxAttempts) * 1000 <= EndOfRun(ticks, ticks[0].now)
  {
    HorizonInClosedForm(p.maxAttempts);
    NotDeadBeforeHorizon(p, kind, ob, ticks, k, first, ticks[0].now);
  }

  // ---- draining ends, at any pace --------------------------------------------------------------------

  const LARGEST_BACKOFF_MS := 256_000

  /** Every open row, a leased one included, is due by this instant. */
  ghost predicate OpenDueBy(ops: seq<Op>, at: int)
  {
    forall k | 0 <= k < |ops| && ops[k].status.Open() :: ops[k].nextAt <= at
  }

  /** How long after its end a row that the tick leaves open can still be deferred. */
  function Deferral(p: Settings, t: Tick): int
  {
    if Calm(t.script) then LARGEST_BACKOFF_MS else Max(LARGEST_BACKOFF_MS, p.leaseMs)
  }

  /**
   * How many rounds the ticks go through, all that is open being due by `due` at first: in each,
   * everything open falls due and a tick follows that is not cut short. Only the instants of the
   * ticks, and which of them are cut short, decide it.
   */
  function Rounds(p: Settings, ticks: seq<Tick>, due: int): nat
  {
    if ticks == [] then 0
    else
      var t, again := ticks[0], EndOf(ticks[0]) + Deferral(p, ticks[0]);
      if !Calm(t.script) then Rounds(p, ticks[1..], Max(due, again))
      else if due <= t.now then 1 + Rounds(p, ticks[1..], again)
      else Rounds(p, ticks[1..], due)
  }

  lemma RowDefersBriefly(p: Settings, o: Op, o': Op, a: Attempt, t: Tick)
    requires Passed(p.maxAttempts, o, o', a, t.now + p.leaseMs, Calm(t.script)) && o'.status.Open()
    requires t.now <= EndOf(t) && a.at <= EndOf(t)
    ensures o'.nextAt <= EndOf(t) + Deferral(p, t)
  {
    CapNeverBinds(o'.attempts);
  }

  /** A tick defers nothing that is open for longer than that. */
  lemma TickDefersBriefly(p: Settings, kind: PanelKind, ob: Outbox, t: Tick, at: int)
    requires TickOk(p, ob, t) && OpenDueBy(ob.ops, at)
    ensures t.picked == [] ==> OpenDueBy(AfterTick(p, kind, ob, t).ops, at)
    ensures OpenDueBy(AfterTick(p, kind, ob, t).ops, Max(at, EndOf(t) + Deferral(p, t)))
  {
    var ops' := AfterTick(p, kind, ob, t).ops;
    TickSettles(p, kind, ob, t);
    forall k: nat | k < |ops'| && ops'[k].status.Open()
      ensures ops'[k].nextAt <= if k in t.picked then EndOf(t) + Deferral(p, t) else at
    {
      var j := RowInTick(p, kind, ob, t, k);
      if k in t.picked { RowDefersBriefly(p, ob.ops[k], ops'[k], t.script[j], t); }
    }
  }

  /** With everything open due and nothing claimed, nothing is open. */
  lemma NothingClaimedMeansNoBudget(p: Settings, ob: Outbox, t: Tick)
    requires p.Valid() && TickOk(p, ob, t) && OpenDueBy(ob.ops, t.now) && t.picked == []
    ensures Budget(p, ob.ops) == 0
  {
    forall k | 0 <= k < |ob.ops| ensures !ob.ops[k].status.Open() {
      assert Due(t.now)(ob.ops[k]) ==> k in t.picked;
    }
    SumZero(ob.ops, AttemptsLeft(p.maxAttempts));
  }

  /** By when everything open is due, `late` saying that a tick before `due` has claimed something. */
  function Limit(clock: int, due: int, late: bool): int
  {
    if late then Max(due, clock + LARGEST_BACKOFF_MS) else due
  }

  /** What a late tick deferred may miss this round, but it has paid one round ahead. */
  ghost predicate OnCourse(p: Settings, ops: seq<Op>, rounds: int, clock: int, due: int, late: bool)
  {
    OpenDueBy(ops, Limit(clock, due, late)) && Budget(p, ops) + (if late then 1 else 0) <= rounds
  }

  lemma DueByLater(ops: seq<Op>, at: int, later: int)
    requires OpenDueBy(ops, at) && at <= later
    ensures OpenDueBy(ops, later)
  {}

  /** One tick, seen only by what it spends and defers. */
  lemma StaysOnCourse(p: Settings, ops: seq<Op>, ops': seq<Op>, ticks: seq<Tick>, claims: nat, clock: int, due: int,
                      late: bool)
    returns (due': int, late': bool)
    requires ticks != [] && clock <= ticks[0].now <= EndOf(ticks[0])
    requires Budget(p, ops') <= Budget(p, ops) - if Calm(ticks[0].script) then claims else 0
    requires claims == 0 ==> OpenDueBy(ops', Limit(clock, due, late))
    requires OpenDueBy(ops', Max(Limit(clock, due, late), EndOf(ticks[0]) + Deferral(p, ticks[0])))
    requires claims == 0 && !late && due <= ticks[0].now ==> Budget(p, ops) == 0
    requires OnCourse(p, ops, Rounds(p, ticks, due), clock, due, late)
    ensures OnCourse(p, ops', Rounds(p, ticks[1..], due'), EndOf(ticks[0]), due', late')
  {
    var t, again := ticks[0], EndOf(ticks[0]) + Deferral(p, ticks[0]);
    if !Calm(t.script) {
      due', late' := Max(due, again), late;
      DueByLater(ops', Max(Limit(clock, due, late), again), Limit(EndOf(t), due', late'));
    } else if due <= t.now {
      due', late' := again, false;
      DueByLater(ops', Max(Limit(clock, due, late), again), again);
    } else {
      due', late' := due, late || 0 < claims;
      DueByLater(ops', if late' then Max(Limit(clock, due, late), again) else due, Limit(EndOf(t), due', late'));
    }
  }

  lemma TickStaysOnCourse(p: Settings, kind: PanelKind, ob: Outbox, ticks: seq<Tick>, clock: int, due: int, late: bool)
    returns (due': int, late': bool)
    requires p.Valid() && ticks != [] && TickOk(p, ob, ticks[0]) && clock <= ticks[0].now
    requires OnCourse(p, ob.ops, Rounds(p, ticks, due), clock, due, late)
    ensures OnCourse(p, AfterTick(p, kind, ob, ticks[0]).ops, Rounds(p, ticks[1..], due'), EndOf(ticks[0]), due', late')
  {
    var t, ops' := ticks[0], AfterTick(p, kind, ob, ticks[0]).ops;
    LatestBounds(t.script, t.now);
    TickSpendsBudget(p, kind, ob, t);
    TickDefersBriefly(p, kind, ob, t, Limit(clock, due, late));
    if t.picked == [] && !late && due <= t.now {
      DueByLater(ob.ops, due, t.now);
      NothingClaimedMeansNoBudget(p, ob, t);
    }
    due', late' := StaysOnCourse(p, ob.ops, ops', ticks, |t.picked|, clock, due, late);
  }

  lemma {:induction false} DrainingEndsOnCourse(p: Settings, kind: PanelKind, ob: Outbox, ticks: seq<Tick>, clock: int,
                                                due: int, late: bool)
    requires p.Valid() && TicksOk(p, kind, ob, ticks) && Ordered(ticks, clock)
    requires OnCourse(p, ob.ops, Rounds(p, ticks, due), clock, due, late)
    ensures Closed(AfterTicks(p, kind, ob, ticks).ops)
    decreases |ticks|
  {
    if ticks == [] {
      NoBudgetMeansClosed(p, ob.ops);
    } else {
      var due', late' := TickStaysOnCourse(p, kind, ob, ticks, clock, due, late);
      DrainingEndsOnCourse(p, kind, AfterTick(p, kind, ob, ticks[0]), ticks[1..], EndOf(ticks[0]), due', late');
    }
  }

  /** As many rounds as the budget end every operation, however often the worker ticks in each. */
  lemma DrainingEnds(p: Settings, kind: PanelKind, ob: Outbox, ticks: seq<Tick>, clock: int, from: int)
    requires p.Valid() && TicksOk(p, kind, ob, ticks) && Ordered(ticks, clock)
    requires OpenDueBy(ob.ops, from) && Budget(p, ob.ops) <= Rounds(p, ticks, from)
    ensures Closed(AfterTicks(p, kind, ob, ticks).ops)
  {
    DrainingEndsOnCourse(p, kind, ob, ticks, clock, from, false);
  }

  /** Ticks far enough apart for anything open to be due again. */
  predicate Spaced(ticks: seq<Tick>, from: int)
  {
    ticks != [] ==> from <= ticks[0].now && Spaced(ticks[1..], EndOf(ticks[0]) + LARGEST_BACKOFF_MS)
  }

  /** Of these each is a round of its own. */
  lemma {:induction false} SpacedTicksAreRounds(p: Settings, ticks: seq<Tick>, clock: int, from: int)
    requires AllCalm(ticks) && Spaced(ticks, from) && clock <= from
    ensures Rounds(p, ticks, from) == |ticks| && Ordered(ticks, clock)
    decreases |ticks|
  {
    if ticks != [] {
      var t, rest := ticks[0], ticks[1..];
      assert forall i | 0 <= i < |rest| :: rest[i] == ticks[i + 1];
      SpacedTicksAreRounds(p, rest, EndOf(t), EndOf(t) + LARGEST_BACKOFF_MS);
    }
  }

  // ---- rounds in time ----------------------------------------------------------------------------------

  /** Each tick starts at most `gap` after the one ahead of it has ended, and lasts at most `span`. */
  predicate Steady(ticks: seq<Tick>, clock: int, gap: nat, span: nat)
  {
    ticks != [] ==>
      && clock <= ticks[0].now <= clock + gap && EndOf(ticks[0]) <= ticks[0].now + span
      && Steady(ticks[1..], EndOf(ticks[0]), gap, span)
  }

  /** The longest a round takes a steady worker: the due instant may fall at the start of a tick already under way. */
  function RoundMs(gap: nat, span: nat): nat { LARGEST_BACKOFF_MS + gap + 2 * span }

  lemma {:induction false} RoundsTakeTime(p: Settings, ticks: seq<Tick>, clock: int, due: int, gap: nat, span: nat)
    requires Steady(ticks, clock, gap, span) && AllCalm(ticks)
    ensures EndOfRun(ticks, clock)
         <= Max(due + span, clock) + gap + span + Rounds(p, ticks, due) * RoundMs(gap, span)
    decreases |ticks|
  {
    if ticks == [] {
    } else {
      var t, rest := ticks[0], ticks[1..];
      assert forall i | 0 <= i < |rest| :: rest[i] == ticks[i + 1];
      var due' := if due <= t.now then EndOf(t) + LARGEST_BACKOFF_MS else due;
      RoundsTakeTime(p, rest, EndOf(t), due', gap, span);
      OneMore(Rounds(p, rest, due'), RoundMs(gap, span));
    }
  }

  lemma OneMore(n: nat, x: nat)
    ensures (n + 1) * x == n * x + x
  {}

  lemma MoreTimes(m: int, n: int, x: nat)
    requires n < m && 0 < x
    ensures n * x < m * x
  {
    assert m * x == n * x + (m - n) * x;
  }

  lemma {:induction false} SteadyIsOrdered(ticks: seq<Tick>, clock: int, gap: nat, span: nat)
    requires Steady(ticks, clock, gap, span)
    ensures Ordered(ticks, clock)
    decreases |ticks|
  {
    if ticks != [] { SteadyIsOrdered(ticks[1..], EndOf(ticks[0]), gap, span); }
  }

  /** In time: the queue of a worker that ticks on is drained once the budget, in rounds, has gone by. */
  lemma DrainedInTime(p: Settings, kind: PanelKind, ob: Outbox, ticks: seq<Tick>, clock: int, from: int, gap: nat,
                      span: nat)
    requires p.Valid() && TicksOk(p, kind, ob, ticks) && AllCalm(ticks) && Steady(ticks, clock, gap, span)
    requires OpenDueBy(ob.ops, from)
    requires Max(from + span, clock) + gap + span + Budget(p, ob.ops) * RoundMs(gap, span) <= EndOfRun(ticks, clock)
    ensures Closed(AfterTicks(p, kind, ob, ticks).ops)
  {
    SteadyIsOrdered(ticks, clock, gap, span);
    RoundsTakeTime(p, ticks, clock, from, gap, span);
    if Rounds(p, ticks, from) < Budget(p, ob.ops) {
      MoreTimes(Budget(p, ob.ops), Rounds(p, ticks, from), RoundMs(gap, span));
    }
    DrainingEnds(p, kind, ob, ticks, clock, from);
  }

  // ---- who is gone when it has drained ---------------------------------------------------------------

  predicate IsRemoval(o: Op, i: nat) { o.session == i && o.work.Reclaims() }

  /** Every attempt at row k finds panel and database willing. */
  ghost predicate RowAccepted(ticks: seq<Tick>, k: nat)
  {
    forall t, j | 0 <= t < |ticks| && 0 <= j < |ticks[t].picked| && j < |ticks[t].script| && ticks[t].picked[j] == k ::
      Accepts(ticks[t].script[j])
  }

  ghost predicate NothingOpenFor(ops: seq<Op>, i: nat)
  {
    forall k | 0 <= k < |ops| && IsRemoval(ops[k], i) :: !ops[k].status.Open()
  }

  /** A tick changes no row's session, work or number of attempts beyond the claim's. */
  lemma {:induction false} DispatchingKeepsRows(maxAttempts: nat, kind: PanelKind, ob: Outbox, rows: seq<nat>,
                                                script: seq<Attempt>)
    requires |rows| == |script| && forall j | 0 <= j < |rows| :: rows[j] < |ob.ops|
    ensures var ops := DispatchAll(maxAttempts, kind, ob, rows, script).queue.ops;
            forall k | 0 <= k < |ob.ops| :: ops[k] == ob.ops[k].(status := ops[k].status, nextAt := ops[k].nextAt)
    decreases |rows|
  {
    if rows != [] {
      DispatchingKeepsRows(maxAttempts, kind, ob, rows[..|rows| - 1], script[..|rows| - 1]);
    }
  }

  /** Only a removal of i takes i away. */
  lemma {:induction false} DispatchingSpares(maxAttempts: nat, kind: PanelKind, ob: Outbox, rows: seq<nat>,
                                             script: seq<Attempt>, i: nat)
    requires |rows| == |script| && i in ob.users
    requires forall j | 0 <= j < |rows| :: rows[j] < |ob.ops| && !IsRemoval(ob.ops[rows[j]], i)
    ensures i in DispatchAll(maxAttempts, kind, ob, rows, script).queue.users
    decreases |rows|
  {
    if rows != [] {
      var n := |rows| - 1;
      var before := DispatchAll(maxAttempts, kind, ob, rows[..n], script[..n]);
      DispatchingSpares(maxAttempts, kind, ob, rows[..n], script[..n], i);
      DispatchingKeepsRows(maxAttempts, kind, ob, rows[..n], script[..n]);
      if before.alive { DispatchOneSpares(maxAttempts, kind, before.queue, rows[n], script[n], i); }
    }
  }

  lemma DispatchOneSpares(maxAttempts: nat, kind: PanelKind, ob: Outbox, k: nat, a: Attempt, i: nat)
    requires k < |ob.ops| && !IsRemoval(ob.ops[k], i) && i in ob.users
    ensures i in DispatchOne(maxAttempts, kind, ob, k, a).queue.users
  {}

  lemma TickSpares(p: Settings, kind: PanelKind, ob: Outbox, t: Tick, i: nat)
    requires TickOk(p, ob, t) && i in ob.users && NothingOpenFor(ob.ops, i)
    ensures i in AfterTick(p, kind, ob, t).users && NothingOpenFor(AfterTick(p, kind, ob, t).ops, i)
  {
    var claimed := ob.(ops := ClaimOps(ob.ops, t.picked, t.now, p.leaseMs));
    forall j | 0 <= j < |t.picked| ensures !IsRemoval(claimed.ops[t.picked[j]], i) {
      assert Due(t.now)(ob.ops[t.picked[j]]);
    }
    DispatchingSpares(p.maxAttempts, kind, claimed, t.picked, t.script, i);
    DispatchingKeepsRows(p.maxAttempts, kind, claimed, t.picked, t.script);
    TickSettles(p, kind, ob, t);
  }

  /** A user nothing open asks to remove stays. */
  lemma {:induction false} TicksSpare(p: Settings, kind: PanelKind, ob: Outbox, ticks: seq<Tick>, i: nat)
    requires TicksOk(p, kind, ob, ticks) && i in ob.users && NothingOpenFor(ob.ops, i)
    ensures i in AfterTicks(p, kind, ob, ticks).users
    decreases |ticks|
  {
    if ticks != [] {
      TickSpares(p, kind, ob, ticks[0], i);
      TicksSpare(p, kind, AfterTick(p, kind, ob, ticks[0]), ticks[1..], i);
    }
  }

  lemma {:induction false} TicksAddNobody(p: Settings, kind: PanelKind, ob: Outbox, ticks: seq<Tick>)
    requires TicksOk(p, kind, ob, ticks)
    ensures AfterTicks(p, kind, ob, ticks).users.Keys <= ob.users.Keys
    decreases |ticks|
  {
    if ticks != [] {
      TickSettles(p, kind, ob, ticks[0]);
      TicksAddNobody(p, kind, AfterTick(p, kind, ob, ticks[0]), ticks[1..]);
    }
  }

  /** A removal every attempt of which is accepted is never given up. */
  lemma {:induction false} AcceptedIsNeverDead(p: Settings, kind: PanelKind, ob: Outbox, ticks: seq<Tick>, k: nat)
    requires TicksOk(p, kind, ob, ticks) && RowAccepted(ticks, k)
    requires k < |ob.ops| && ob.ops[k].work.Reclaims() && !ob.ops[k].status.Dead?
    ensures |AfterTicks(p, kind, ob, ticks).ops| == |ob.ops|
    ensures !AfterTicks(p, kind, ob, ticks).ops[k].status.Dead?
    decreases |ticks|
  {
    if ticks != [] {
      var t, next := ticks[0], AfterTick(p, kind, ob, ticks[0]);
      var j := RowInTick(p, kind, ob, t, k);
      if k in t.picked {
        assert Accepts(ticks[0].script[j]);
      }
      assert forall u | 0 <= u < |ticks[1..]| :: ticks[1..][u] == ticks[u + 1];
      AcceptedIsNeverDead(p, kind, next, ticks[1..], k);
    }
  }

  /**
   * Once the queue has drained with its removals accepted, the users left are exactly those who
   * were there and whom nothing open asked to remove.
   */
  lemma DrainedMeansGone(p: Settings, kind: PanelKind, ob: Outbox, ticks: seq<Tick>, clock: int, from: int, i: nat)
    requires p.Valid() && TicksOk(p, kind, ob, ticks) && Ordered(ticks, clock)
    requires OpenDueBy(ob.ops, from) && Budget(p, ob.ops) <= Rounds(p, ticks, from)
    requires forall k: nat | k < |ob.ops| && IsRemoval(ob.ops[k], i) :: RowAccepted(ticks, k)
    ensures i in AfterTicks(p, kind, ob, ticks).users <==> i in ob.users && NothingOpenFor(ob.ops, i)
  {
    TicksAddNobody(p, kind, ob, ticks);
    if i in ob.users {
      if NothingOpenFor(ob.ops, i) {
        TicksSpare(p, kind, ob, ticks, i);
      } else {
        var k: nat :| k < |ob.ops| && IsRemoval(ob.ops[k], i) && ob.ops[k].status.Open();
        OpenRemovalGoes(p, kind, ob, ticks, clock, from, k);
      }
    }
  }

  lemma OpenRemovalGoes(p: Settings, kind: PanelKind, ob: Outbox, ticks: seq<Tick>, clock: int, from: int, k: nat)
    requires p.Valid() && TicksOk(p, kind, ob, ticks) && Ordered(ticks, clock)
    requires OpenDueBy(ob.ops, from) && Budget(p, ob.ops) <= Rounds(p, ticks, from)
    requires k < |ob.ops| && ob.ops[k].work.Reclaims() && ob.ops[k].status.Open() && RowAccepted(ticks, k)
    ensures ob.ops[k].session !in AfterTicks(p, kind, ob, ticks).users
  {
    DrainingEnds(p, kind, ob, ticks, clock, from);
    AcceptedIsNeverDead(p, kind, ob, ticks, k);
    RemovedStayRemoved(p, kind, ob, ticks, k);
  }

  function Script(n: nat, replies: nat -> Attempt): seq<Attempt> { seq(n, j requires 0 <= j < n => replies(j)) }

  // ---- the worker ----------------------------------------------------------------------------

  class OutboxDrainer {
    const p: Settings
    const db: Database
    const panel: PanelServer
    var running: bool
    var shuttingDown: bool

    constructor (p: Settings, db: Database, panel: PanelServer)
      ensures this.p == p && this.db == db && this.panel == panel && !running && !shuttingDown
    {
      this.p, this.db, this.panel := p, db, panel;
      running, shuttingDown := false, false;
    }

    function Queue(): Outbox
      reads this, db, panel
    {
      Outbox(db.ops, panel.users)
    }

    method OnModuleDestroy()
      modifies this`shuttingDown
      ensures shuttingDown
    {
      shuttingDown := true;
    }

    /** `commits`: whether the claim transaction does; `replies(j)`: what the j-th dispatch of this tick will meet. */
    method Drain(now: int, commits: bool, replies: nat -> Attempt) returns (ghost t: Option<Tick>)
      requires forall j :: now <= replies(j).at
      modifies this`running, db`ops, panel
      ensures running == old(running)
      ensures t.None? <==> old(running || shuttingDown) || !commits
      ensures t.None? ==> Queue() == old(Queue())
      ensures t.Some? ==> TickOk(p, old(Queue()), t.value) && Queue() == AfterTick(p, panel.kind, old(Queue()), t.value)
    {
      if running || shuttingDown { return None; }
      running := true;
      var alive;
      alive, t := RunTick(now, commits, replies); // a tick that throws is only logged
      running := false;
    }

    method RunTick(now: int, commits: bool, replies: nat -> Attempt) returns (alive: bool, ghost t: Option<Tick>)
      requires forall j :: now <= replies(j).at
      modifies db`ops, panel
      ensures t.None? <==> !commits
      ensures t.None? ==> !alive && Queue() == old(Queue())
      ensures t.Some? ==> TickOk(p, old(Queue()), t.value)
                          && Batch(Queue(), alive) == Ticked(p, panel.kind, old(Queue()), t.value)
    {
      if !commits { return false, None; }
      var claimed := ClaimDue(now);
      t := Some(Tick(now, claimed, Script(|claimed|, replies)));
      alive := DispatchEach(claimed, replies);
    }

    /** The claim: one short transaction. */
    method ClaimDue(now: int) returns (claimed: seq<nat>)
      modifies db`ops
      ensures TopRows(claimed, old(db.ops), Due(now), DueAt(), Some(p.batch))
      ensures db.ops == ClaimOps(old(db.ops), claimed, now, p.leaseMs)
    {
      claimed := SelectTop(db.ops, Due(now), DueAt(), Some(p.batch));
      db.ops := ClaimOps(db.ops, claimed, now, p.leaseMs);
    }

    /** The dispatch loop: no lock held. An error out of a catch block ends it. */
    method DispatchEach(claimed: seq<nat>, replies: nat -> Attempt) returns (alive: bool)
      requires forall j | 0 <= j < |claimed| :: claimed[j] < |db.ops|
      modifies db`ops, panel
      ensures Batch(Queue(), alive)
           == DispatchAll(p.maxAttempts, panel.kind, old(Queue()), claimed, Script(|claimed|, replies))
    {
      for j := 0 to |claimed|
        invariant |db.ops| == |old(db.ops)|
        invariant Batch(Queue(), true) == DispatchAll(p.maxAttempts, panel.kind, old(Queue()), claimed[..j],
                                                      Script(j, replies))
      {
        alive := DispatchRow(claimed[j], replies(j));
        assert claimed[..j + 1][..j] == claimed[..j] && Script(j + 1, replies)[..j] == Script(j, replies);
        if !alive {
          assert Script(|claimed|, replies)[..j + 1] == Script(j + 1, replies);
          StoppedStays(p.maxAttempts, panel.kind, old(Queue()), claimed, Script(|claimed|, replies), j + 1);
          return;
        }
      }
      assert claimed[..|claimed|] == claimed;
      alive := true;
    }

    /** The loop body: one panel dispatch and the status it earns. */
    method DispatchRow(k: nat, a: Attempt) returns (alive: bool)
      requires k < |db.ops|
      modifies db`ops, panel
      ensures Batch(Queue(), alive) == DispatchOne(p.maxAttempts, panel.kind, old(Queue()), k, a)
    {
      var attempts, retryable := db.ops[k].attempts, true;
      var outcome := Deliver(db.ops[k], a);
      if outcome.Delivered? {
        if Applied(a.mark) {
          db.ops := db.ops[k := MarkSucceeded(db.ops[k])];
        }
        if a.mark.Returned? { return true; }
      } else {
        retryable := outcome.retryable;
      }
      if Applied(a.rescue) {
        db.ops := db.ops[k := MarkFailed(p.maxAttempts, db.ops[k], attempts, retryable, a.at)];
      }
      alive := a.rescue.Returned?;
    }

    method Deliver(o: Op, a: Attempt) returns (outcome: Outcome)
      modifies panel
      ensures (panel.users, outcome) == Dispatch(panel.kind, old(panel.users), o, a)
    {
      match o.work {
        case ExtendUser(epoch) =>
          if epoch == 0 {
            return Undelivered(false);
          }
          var seen := panel.Call(SetUserExpiry(o.session, epoch * 1000), a.at, a.call);
          outcome := OutcomeOf(seen);
        case RevokeUser =>
          var seen := panel.Call(DisableUser(o.session), a.at, a.disable);
          if seen.Returned? {
            seen := panel.Call(PanelCall.DeleteUser(o.session), a.at, a.call);
          }
          outcome := OutcomeOf(seen);
        case DeleteUser =>
          var seen := panel.Call(PanelCall.DeleteUser(o.session), a.at, a.call);
          outcome := OutcomeOf(seen);
      }
    }
  }
}
