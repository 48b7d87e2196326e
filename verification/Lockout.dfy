/**
 * Password login and its lockout. An attempt reads the account, checks the password with
 * nothing locked, and only then writes; any number of attempts on one account may overlap.
 * An inactive account or one without a password is an attempt whose password is wrong.
 */
module Lockout {
  import opened Prelude

  datatype Policy = Policy(maxFailed: int, lockoutMs: int)

  /** failed_login_count and locked_until of a user row. */
  datatype Account = Account(failed: nat, lockedUntil: Option<int>)

  predicate Locked(a: Account, now: int) { a.lockedUntil.Some? && now < a.lockedUntil.value }

  function RecordFailure(p: Policy, a: Account, now: int): Account
  {
    Account(a.failed + 1, if p.maxFailed <= a.failed + 1 then Some(now + p.lockoutMs) else a.lockedUntil)
  }

  /** The login transaction looks at the lock again before it resets the count. */
  function SignIn(a: Account, now: int): Option<Account>
  {
    if Locked(a, now) then None else Some(Account(0, None))
  }

  // ---- overlapping attempts ---------------------------------------------------------------

  /** An attempt past its read: what it will find, when it read, and how much had been logged by then. */
  datatype Attempt = Checking(right: bool, begun: int, seen: nat) | Over

  /** What the account has been through. */
  datatype Entry = Failed(begun: int, seen: nat, at: int) | SignedIn(at: int)

  datatype State = State(clock: int, account: Account, attempts: seq<Attempt>, log: seq<Entry>)

  datatype Action = Wait(ms: nat) | Begin(right: bool) | Finish(attempt: nat)

  function Step(p: Policy, s: State, a: Action): State
  {
    match a
    case Wait(ms) => s.(clock := s.clock + ms)
    case Begin(right) =>
      if Locked(s.account, s.clock) then s
      else s.(attempts := s.attempts + [Checking(right, s.clock, |s.log|)])
    case Finish(f) =>
      if f < |s.attempts| && s.attempts[f].Checking? then FinishStep(p, s, f) else s
  }

  function FinishStep(p: Policy, s: State, f: nat): State
    requires f < |s.attempts| && s.attempts[f].Checking?
  {
    var t, attempts := s.attempts[f], s.attempts[f := Over];
    if !t.right then
      State(s.clock, RecordFailure(p, s.account, s.clock), attempts, s.log + [Failed(t.begun, t.seen, s.clock)])
    else
      match SignIn(s.account, s.clock)
      case None => s.(attempts := attempts)
      case Some(account) => State(s.clock, account, attempts, s.log + [SignedIn(s.clock)])
  }

  function Run(p: Policy, s: State, actions: seq<Action>): State
    decreases |actions|
  {
    if actions == [] then s else Run(p, Step(p, s, actions[0]), actions[1..])
  }

  function Fresh(clock: int): State { State(clock, Account(0, None), [], []) }

  // ---- the account as a function of its history -----------------------------------------------

  /** Failures since the last sign-in, among the first n entries. */
  function Streak(log: seq<Entry>, n: nat): nat
    requires n <= |log|
  {
    if n == 0 || log[n - 1].SignedIn? then 0 else 1 + Streak(log, n - 1)
  }

  /** Entry i was a failure that set the lock. */
  predicate SetsLock(p: Policy, log: seq<Entry>, i: nat)
    requires i < |log|
  {
    log[i].Failed? && p.maxFailed <= Streak(log, i + 1)
  }

  /** Whether the first n entries leave the account locked at an instant. */
  predicate LockedAfter(p: Policy, log: seq<Entry>, n: nat, now: int)
    requires n <= |log|
  {
    0 < n && SetsLock(p, log, n - 1) && now < log[n - 1].at + p.lockoutMs
  }

  function AccountAfter(p: Policy, log: seq<Entry>): Account
  {
    var n := |log|;
    Account(Streak(log, n), if 0 < n && SetsLock(p, log, n - 1) then Some(log[n - 1].at + p.lockoutMs) else None)
  }

  /** No sign-in among the entries from i up to j. */
  predicate AllFailed(log: seq<Entry>, i: nat, j: nat)
    requires j <= |log|
  {
    forall m | i <= m < j :: log[m].Failed?
  }

  /** An attempt that read after entry i had set a lock nobody has lifted since read once the lock had run out. */
  predicate SatOut(p: Policy, log: seq<Entry>, i: nat, begun: int, seen: nat)
    requires i < seen <= |log|
  {
    SetsLock(p, log, i) && AllFailed(log, i, seen) ==> log[i].at + p.lockoutMs <= begun
  }

  ghost predicate AttemptOk(p: Policy, clock: int, log: seq<Entry>, begun: int, seen: nat)
  {
    begun <= clock && seen <= |log| && forall i: nat | i < seen :: SatOut(p, log, i, begun, seen)
  }

  ghost predicate EntryOk(p: Policy, log: seq<Entry>, j: nat)
    requires j < |log|
  {
    match log[j]
    case Failed(begun, seen, at) => seen <= j && AttemptOk(p, at, log, begun, seen)
    case SignedIn(at) => !LockedAfter(p, log, j, at)
  }

  ghost predicate InTime(log: seq<Entry>, clock: int)
  {
    && (forall i | 0 <= i < |log| :: log[i].at <= clock)
    && forall i, j | 0 <= i < j < |log| :: log[i].at <= log[j].at
  }

  ghost predicate LogOk(p: Policy, log: seq<Entry>, clock: int)
  {
    InTime(log, clock) && forall j | 0 <= j < |log| :: EntryOk(p, log, j)
  }

  ghost predicate Inv(p: Policy, s: State)
  {
    && s.account == AccountAfter(p, s.log) && LogOk(p, s.log, s.clock)
    && forall f | 0 <= f < |s.attempts| && s.attempts[f].Checking? ::
         AttemptOk(p, s.clock, s.log, s.attempts[f].begun, s.attempts[f].seen)
  }

  lemma {:induction false} StreakGrows(log: seq<Entry>, i: nat, j: nat)
    requires i <= j <= |log| && AllFailed(log, i, j)
    ensures Streak(log, j) == Streak(log, i) + j - i
    decreases j - i
  {
    if i < j {
      StreakGrows(log, i, j - 1);
    }
  }

  /** What comes later changes no streak. */
  lemma {:induction false} StreakStays(log: seq<Entry>, e: Entry, n: nat)
    requires n <= |log|
    ensures Streak(log + [e], n) == Streak(log, n)
  {
    if n != 0 {
      StreakStays(log, e, n - 1);
    }
  }

  /** An attempt let in now has sat out every lock still in force. */
  lemma AdmittedSatOut(p: Policy, s: State)
    requires Inv(p, s) && !Locked(s.account, s.clock)
    ensures AttemptOk(p, s.clock, s.log, s.clock, |s.log|)
  {
    forall i: nat | i < |s.log| ensures SatOut(p, s.log, i, s.clock, |s.log|) {
      if SetsLock(p, s.log, i) && AllFailed(s.log, i, |s.log|) {
        StreakGrows(s.log, i + 1, |s.log|);
      }
    }
  }

  lemma AttemptStaysOk(p: Policy, clock: int, log: seq<Entry>, e: Entry, begun: int, seen: nat)
    requires AttemptOk(p, clock, log, begun, seen)
    ensures AttemptOk(p, clock, log + [e], begun, seen)
  {
    forall i: nat | i < seen ensures SatOut(p, log + [e], i, begun, seen) {
      StreakStays(log, e, i + 1);
      assert SatOut(p, log, i, begun, seen);
      assert forall m | i <= m < seen :: (log + [e])[m] == log[m];
    }
  }

  lemma EntryStaysOk(p: Policy, log: seq<Entry>, e: Entry, j: nat)
    requires j < |log| && EntryOk(p, log, j)
    ensures EntryOk(p, log + [e], j)
  {
    match log[j]
    case Failed(begun, seen, at) => AttemptStaysOk(p, at, log, e, begun, seen);
    case SignedIn(_) => StreakStays(log, e, j);
  }

  /** One more entry of the present, true to what came before. */
  lemma LogStaysOk(p: Policy, log: seq<Entry>, e: Entry, clock: int)
    requires LogOk(p, log, clock) && e.at == clock && EntryOk(p, log + [e], |log|)
    ensures LogOk(p, log + [e], clock)
  {
    forall j | 0 <= j < |log + [e]| ensures EntryOk(p, log + [e], j) {
      if j < |log| { EntryStaysOk(p, log, e, j); }
    }
  }

  /** The two writes keep the account what its history makes it. */
  lemma AccountFollowsLog(p: Policy, log: seq<Entry>, e: Entry)
    ensures e.Failed? ==> AccountAfter(p, log + [e]) == RecordFailure(p, AccountAfter(p, log), e.at)
    ensures e.SignedIn? ==> AccountAfter(p, log + [e]) == Account(0, None)
  {
    StreakStays(log, e, |log|);
  }

  lemma FailureKeeps(p: Policy, s: State, begun: int, seen: nat)
    requires Inv(p, s) && AttemptOk(p, s.clock, s.log, begun, seen)
    ensures Inv(p, s.(account := RecordFailure(p, s.account, s.clock), log := s.log + [Failed(begun, seen, s.clock)]))
  {
    var e := Failed(begun, seen, s.clock);
    AccountFollowsLog(p, s.log, e);
    AttemptStaysOk(p, s.clock, s.log, e, begun, seen);
    LogStaysOk(p, s.log, e, s.clock);
    AttemptsStayOk(p, s, e);
  }

  lemma SignInKeeps(p: Policy, s: State)
    requires Inv(p, s) && !Locked(s.account, s.clock)
    ensures Inv(p, s.(account := Account(0, None), log := s.log + [SignedIn(s.clock)]))
  {
    var e := SignedIn(s.clock);
    AccountFollowsLog(p, s.log, e);
    StreakStays(s.log, e, |s.log|);
    LogStaysOk(p, s.log, e, s.clock);
    AttemptsStayOk(p, s, e);
  }

  lemma AttemptsStayOk(p: Policy, s: State, e: Entry)
    requires Inv(p, s)
    ensures forall g | 0 <= g < |s.attempts| && s.attempts[g].Checking? ::
              AttemptOk(p, s.clock, s.log + [e], s.attempts[g].begun, s.attempts[g].seen)
  {
    forall g | 0 <= g < |s.attempts| && s.attempts[g].Checking?
      ensures AttemptOk(p, s.clock, s.log + [e], s.attempts[g].begun, s.attempts[g].seen)
    {
      AttemptStaysOk(p, s.clock, s.log, e, s.attempts[g].begun, s.attempts[g].seen);
    }
  }

  lemma FinishKeeps(p: Policy, s: State, f: nat)
    requires Inv(p, s) && f < |s.attempts| && s.attempts[f].Checking?
    ensures Inv(p, FinishStep(p, s, f))
  {
    var ended := s.(attempts := s.attempts[f := Over]);
    if !s.attempts[f].right {
      FailureKeeps(p, ended, s.attempts[f].begun, s.attempts[f].seen);
    } else if !Locked(s.account, s.clock) {
      SignInKeeps(p, ended);
    }
  }

  lemma StepKeeps(p: Policy, s: State, a: Action)
    requires Inv(p, s)
    ensures Inv(p, Step(p, s, a))
  {
    match a
    case Wait(_) =>
    case Begin(_) => if !Locked(s.account, s.clock) { AdmittedSatOut(p, s); }
    case Finish(f) => if f < |s.attempts| && s.attempts[f].Checking? { FinishKeeps(p, s, f); }
  }

  lemma {:induction false} RunKeeps(p: Policy, s: State, actions: seq<Action>)
    requires Inv(p, s)
    ensures Inv(p, Run(p, s, actions))
    decreases |actions|
  {
    if actions != [] {
      StepKeeps(p, s, actions[0]);
      RunKeeps(p, Step(p, s, actions[0]), actions[1..]);
    }
  }

  // ---- what the lockout guarantees ----------------------------------------------------------------

  /**
   * Under any overlap of attempts the account is locked exactly while fewer than `lockoutMs` have
   * passed since a latest failure that was at least the `maxFailed`-th since the last sign-in. No
   * failure is lost, and a lock that runs out does not forgive the failures before it.
   */
  lemma LockedExactlyWhen(p: Policy, clock: int, actions: seq<Action>)
    ensures var s := Run(p, Fresh(clock), actions);
            && s.account.failed == Streak(s.log, |s.log|)
            && (Locked(s.account, s.clock) <==> LockedAfter(p, s.log, |s.log|, s.clock))
  {
    RunKeeps(p, Fresh(clock), actions);
  }

  /**
   * An attempt is let in exactly while the account is not locked; let in, a wrong password is always
   * logged as a failure and a right one signs in exactly if the account is not locked by then.
   */
  lemma AttemptsEndExactlyWhen(p: Policy, clock: int, actions: seq<Action>, right: bool, f: nat)
    ensures var s := Run(p, Fresh(clock), actions);
            var begun := Step(p, s, Begin(right));
            && begun.account == s.account && begun.log == s.log
            && (begun.attempts == s.attempts + [Checking(right, s.clock, |s.log|)]
                <==> !LockedAfter(p, s.log, |s.log|, s.clock))
            && (f < |s.attempts| && s.attempts[f].Checking? ==>
                  var t, s' := s.attempts[f], Step(p, s, Finish(f));
                  && s'.attempts == s.attempts[f := Over] && s'.clock == s.clock
                  && s'.log == s.log + (if !t.right then [Failed(t.begun, t.seen, s.clock)]
                                        else if LockedAfter(p, s.log, |s.log|, s.clock) then []
                                        else [SignedIn(s.clock)]))
  {
    LockedExactlyWhen(p, clock, actions);
    var s := Run(p, Fresh(clock), actions);
    assert |s.attempts + [Checking(right, s.clock, |s.log|)]| != |s.attempts|;
  }

  /** Nobody signs in while the account is locked, even if it was not yet when the attempt began. */
  lemma NoSignInWhileLocked(p: Policy, clock: int, actions: seq<Action>, j: nat)
    requires j < |Run(p, Fresh(clock), actions).log| && Run(p, Fresh(clock), actions).log[j].SignedIn?
    ensures var log := Run(p, Fresh(clock), actions).log; !LockedAfter(p, log, j, log[j].at)
  {
    RunKeeps(p, Fresh(clock), actions);
    assert EntryOk(p, Run(p, Fresh(clock), actions).log, j);
  }

  /**
   * Of two failures in one streak, the earlier of which set the lock: the later attempt had begun
   * before, or waited it out.
   */
  lemma GuessesOverlapOrWait(p: Policy, clock: int, actions: seq<Action>, i: nat, j: nat)
    requires var log := Run(p, Fresh(clock), actions).log;
             i < j < |log| && SetsLock(p, log, i) && AllFailed(log, i, j + 1)
    ensures var log := Run(p, Fresh(clock), actions).log;
            log[j].seen <= i || log[i].at + p.lockoutMs <= log[j].begun
  {
    var s := Run(p, Fresh(clock), actions);
    RunKeeps(p, Fresh(clock), actions);
    assert EntryOk(p, s.log, j);
    if i < s.log[j].seen {
      assert SatOut(p, s.log, i, s.log[j].begun, s.log[j].seen);
    }
  }

  /** Entries b to k are failures, each of an attempt begun after the one before was recorded. */
  ghost predicate OneByOne(log: seq<Entry>, b: nat, k: nat)
  {
    k < |log| && forall j | b <= j <= k :: log[j].Failed? && (b < j ==> log[j].seen == j)
  }

  lemma {:induction false} Rationed(p: Policy, s: State, b: nat, k: nat)
    requires Inv(p, s) && 1 <= p.maxFailed && b + p.maxFailed - 1 <= k && OneByOne(s.log, b, k)
    ensures s.log[b + p.maxFailed - 1].at + (k + 1 - b - p.maxFailed) * p.lockoutMs <= s.log[k].at
    decreases k
  {
    if b + p.maxFailed - 1 < k {
      NextFailureWaits(p, s, b, k);
      Rationed(p, s, b, k - 1);
      assert (k + 1 - b - p.maxFailed) * p.lockoutMs == (k - b - p.maxFailed) * p.lockoutMs + p.lockoutMs;
    }
  }

  lemma NextFailureWaits(p: Policy, s: State, b: nat, k: nat)
    requires Inv(p, s) && 1 <= p.maxFailed && b + p.maxFailed - 1 < k && OneByOne(s.log, b, k)
    ensures s.log[k - 1].at + p.lockoutMs <= s.log[k].at
  {
    StreakGrows(s.log, b, k);
    assert EntryOk(p, s.log, k) && SatOut(p, s.log, k - 1, s.log[k].begun, k);
  }

  /**
   * So attempts made one after another are rationed, in the streak after any sign-in as in the
   * first: past the `maxFailed`-th failure of a streak, or of any part of it, one failure per
   * lockout at most.
   */
  lemma GuessesAreRationed(p: Policy, clock: int, actions: seq<Action>, b: nat, k: nat)
    requires 1 <= p.maxFailed && b + p.maxFailed - 1 <= k
    requires OneByOne(Run(p, Fresh(clock), actions).log, b, k)
    ensures var log := Run(p, Fresh(clock), actions).log;
            log[b + p.maxFailed - 1].at + (k + 1 - b - p.maxFailed) * p.lockoutMs <= log[k].at
  {
    RunKeeps(p, Fresh(clock), actions);
    Rationed(p, Run(p, Fresh(clock), actions), b, k);
  }

  // ---- the service -----------------------------------------------------------------------------------

  /** One user row, as the statements of login update it. */
  class UserRow {
    const p: Policy
    var failedLoginCount: nat
    var lockedUntil: Option<int>

    constructor (p: Policy)
      ensures this.p == p && View() == Account(0, None)
    {
      this.p, failedLoginCount, lockedUntil := p, 0, None;
    }

    function View(): Account
      reads this
    {
      Account(failedLoginCount, lockedUntil)
    }

    method RecordFailedLogin(now: int)
      modifies this
      ensures View() == RecordFailure(p, old(View()), now)
    {
      if p.maxFailed <= failedLoginCount + 1 {
        lockedUntil := Some(now + p.lockoutMs);
      }
      failedLoginCount := failedLoginCount + 1;
    }

    method CompleteLogin(now: int) returns (ok: bool)
      modifies this
      ensures match SignIn(old(View()), now)
              case None => !ok && View() == old(View())
              case Some(account) => ok && View() == account
    {
      if lockedUntil.Some? && now < lockedUntil.value { return false; }
      failedLoginCount, lockedUntil := 0, None;
      ok := true;
    }
  }
}
