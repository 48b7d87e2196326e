/** Ad grants: minting them, counting verified ads towards them, claiming them for session time. */
module Ads {
  import opened Prelude
  import opened Sums
  import opened Rows
  import opened Tables
  import opened Store
  import opened Ledger
  import opened Funding

  const MINUTE_MS := 60_000

  datatype AdError =
    | UnknownNonce | GrantNotFound | GrantNotOwned | BoundElsewhere | WindowExpired | AdsNotVerified
    | SessionNotFound | SessionNotOwned | SessionNotLive | LifetimeCapReached

  /** (required ads, minutes) of a grant requested outside /connect. */
  function RulesFor(purpose: Purpose): (nat, nat)
  {
    match purpose
    case Connect => (2, 60)
    case Extend => (2, 60)
    case Disconnect => (1, 0)
  }

  // ---- request-ad-token ---------------------------------------------------------

  /** The new grant; naming a session that does not exist violates a foreign key. */
  function RequestToken(p: Settings, db: DB, now: int, user: nat, device: nat, purpose: Purpose,
                        session: Option<nat>): Result<DB, AdError>
  {
    if session.Some? && |db.sessions| <= session.value then Err(SessionNotFound)
    else
      var (requiredAds, minutes) := RulesFor(purpose);
      Ok(db.(grants := db.grants + [Grant(user, device, session, purpose, requiredAds, 0, minutes, Pending,
                                          now + p.tokenWindowMs)]))
  }

  /** What a grant requested for a purpose asks and gives. */
  function AdsAsked(purpose: Purpose): nat { if purpose.Disconnect? then 1 else 2 }

  function MinutesGiven(purpose: Purpose): nat { if purpose.Disconnect? then 0 else 60 }

  /** What is minted: one pending grant of the caller's, as asked for, and nothing else. */
  lemma TokenIsMinted(p: Settings, db: DB, now: int, user: nat, device: nat, purpose: Purpose, session: Option<nat>)
    requires RequestToken(p, db, now, user, device, purpose, session).Ok?
    ensures var db' := RequestToken(p, db, now, user, device, purpose, session).value;
            && db' == db.(grants := db'.grants) && db.grants <= db'.grants && |db'.grants| == |db.grants| + 1
            && var g := db'.grants[|db.grants|];
               && g.user == user && g.device == device && g.session == session && g.purpose == purpose
               && g.requiredAds == AdsAsked(purpose) && g.minutes == MinutesGiven(purpose)
               && g.status.Pending? && g.verifiedAds == 0 && g.expiresAt == now + p.tokenWindowMs
  {}

  // ---- SSV callback ---------------------------------------------------------------

  /** The custom data an ad network echoes back: a grant's nonce or the closing-ad sentinel. */
  datatype CustomData = ClosingSentinel | Nonce(grant: nat)

  datatype Callback = Callback(data: CustomData, transaction: nat, at: int)

  predicate Recorded(rewards: seq<Reward>, transaction: nat)
  {
    exists r | 0 <= r < |rewards| :: rewards[r].transaction == transaction
  }

  function RecordReward(db: DB, c: Callback): Result<DB, AdError>
  {
    if c.data.ClosingSentinel? then Ok(db)
    else if |db.grants| <= c.data.grant then Err(UnknownNonce)
    else if Recorded(db.rewards, c.transaction) then Ok(db)
    else
      var g := db.grants[c.data.grant];
      var stored := db.(rewards := db.rewards + [Reward(c.data.grant, c.transaction)]);
      if g.status.Pending? && c.at < g.expiresAt then
        var verified := g.verifiedAds + 1;
        var g' := g.(verifiedAds := verified, status := if g.requiredAds <= verified then Fulfilled else g.status);
        Ok(stored.(grants := db.grants[c.data.grant := g']))
      else Ok(stored)
  }

  // ---- verify-ad-reward --------------------------------------------------------------

  /** What a committed claim tells the caller. `op` is the queued extend, if there is one. */
  datatype Claimed =
    | Replayed(session: nat, expiresAt: int)
    | Granted(session: nat, expiresAt: int, minutes: nat, op: Option<nat>)

  function ExpiryAfter(p: Settings, s: Session, now: int, minutes: nat): int
  {
    Min(Max(now, s.expiresAt) + minutes * MINUTE_MS, s.createdAt + p.maxSessionMs)
  }

  /** The grant k consumed for session i, the session's time extended, the panel extend queued. */
  function Consume(p: Settings, db: DB, now: int, k: nat, i: nat): DB
    requires k < |db.grants| && i < |db.sessions|
  {
    var g, s := db.grants[k], db.sessions[i];
    var newMs := ExpiryAfter(p, s, now, g.minutes);
    var consumed := db.(grants := db.grants[k := g.(status := Consumed, session := Some(i))]);
    if g.minutes == 0 then consumed
    else
      var s' := s.(expiresAt := newMs, extensions := s.extensions + 1, lastGrant := Some(k),
                   status := if s.status.Provisioning? then Active else s.status);
      consumed.(sessions := db.sessions[i := s'],
                ops := db.ops + [Op(i, ExtendUser(newMs / 1000), Queued, 0, now)])
  }

  function Claim(p: Settings, db: DB, now: int, user: nat, k: nat, i: nat): Result<(DB, Claimed), AdError>
  {
    if |db.grants| <= k then Err(GrantNotFound)
    else
      var g := db.grants[k];
      if g.user != user then Err(GrantNotOwned)
      else if g.session.Some? && g.session.value != i then Err(BoundElsewhere)
      else if g.status.Consumed? then
        if i < |db.sessions| then Ok((db, Replayed(i, db.sessions[i].expiresAt))) else Err(SessionNotFound)
      else if g.status.WindowLapsed? || g.expiresAt <= now then Err(WindowExpired)
      else if g.verifiedAds < g.requiredAds then Err(AdsNotVerified)
      else if |db.sessions| <= i then Err(SessionNotFound)
      else
        var s := db.sessions[i];
        if s.user != user then Err(SessionNotOwned)
        else if !s.Live() then Err(SessionNotLive)
        else if 0 < g.minutes && s.createdAt + p.maxSessionMs <= Max(now, s.expiresAt) then Err(LifetimeCapReached)
        else
          Ok((Consume(p, db, now, k, i),
              Granted(i, ExpiryAfter(p, s, now, g.minutes), g.minutes,
                      if 0 < g.minutes then Some(|db.ops|) else None)))
  }

  // ---- what these transactions keep ----------------------------------------------------

  lemma RequestTokenKeeps(p: Settings, db: DB, now: int, user: nat, device: nat, purpose: Purpose, session: Option<nat>)
    requires LedgerOk(p, db) && FundingOk(db)
    ensures var r := RequestToken(p, db, now, user, device, purpose, session);
            r.Ok? ==> LedgerOk(p, r.value) && FundingOk(r.value) && Evolves(db, r.value)
  {
    var r := RequestToken(p, db, now, user, device, purpose, session);
    if r.Ok? {
      NewGrantKeepsFunding(db, r.value.grants[|db.grants|]);
      OtherTablesKeepLedger(p, db, r.value);
    }
  }

  lemma RecordRewardKeeps(p: Settings, db: DB, c: Callback)
    requires LedgerOk(p, db) && FundingOk(db)
    ensures var r := RecordReward(db, c);
            r.Ok? ==> LedgerOk(p, r.value) && FundingOk(r.value) && Evolves(db, r.value)
  {
    var r := RecordReward(db, c);
    if r.Ok? {
      OtherTablesKeepLedger(p, db, r.value);
      if r.value != db {
        var k := c.data.grant;
        NewRewardKeepsFunding(db, Reward(k, c.transaction), r.value.grants[k]);
        assert r.value.grants == db.grants[k := r.value.grants[k]];
      }
    }
  }

  lemma ConsumeKeeps(p: Settings, db: DB, now: int, k: nat, i: nat)
    requires LedgerOk(p, db) && FundingOk(db)
    requires k < |db.grants| && db.grants[k].status.Fulfilled? && db.grants[k].session in {None, Some(i)}
    requires i < |db.sessions| && db.sessions[i].user == db.grants[k].user && db.sessions[i].Live()
    requires db.grants[k].minutes == 0 || Max(now, db.sessions[i].expiresAt) < db.sessions[i].createdAt + p.maxSessionMs
    ensures LedgerOk(p, Consume(p, db, now, k, i)) && FundingOk(Consume(p, db, now, k, i))
    ensures Evolves(db, Consume(p, db, now, k, i))
  {
    var g, s, db' := db.grants[k], db.sessions[i], Consume(p, db, now, k, i);
    var funded := db.(grants := db'.grants);
    OtherTablesKeepLedger(p, db, funded);
    ConsumeKeepsFunding(db, k, i, db'.sessions[i]);
    assert SessionOk(p, db, i);
    if g.minutes == 0 {
      assert db.sessions[i := s] == db.sessions;
    } else {
      var s' := db'.sessions[i];
      LengthenKeepsLedger(p, funded, i, s', db'.ops[|db.ops|]);
      NeutralKeepsFunding(db.(grants := db'.grants, sessions := db'.sessions), db');
      EvolvesTransitive(db, funded, db');
    }
  }

  lemma ClaimKeeps(p: Settings, db: DB, now: int, user: nat, k: nat, i: nat)
    requires LedgerOk(p, db) && FundingOk(db)
    ensures var r := Claim(p, db, now, user, k, i);
            r.Ok? ==> LedgerOk(p, r.value.0) && FundingOk(r.value.0) && Evolves(db, r.value.0)
  {
    var r := Claim(p, db, now, user, k, i);
    if r.Ok? {
      assert GrantOk(db, k);
      if r.value.1.Granted? {
        ConsumeKeeps(p, db, now, k, i);
      } else {
        OtherTablesKeepLedger(p, db, r.value.0);
      }
    }
  }

  // ---- what a claim does -----------------------------------------------------------------

  /** A claim of grant k for session i by this user would grant time. */
  predicate Buys(p: Settings, db: DB, now: int, user: nat, k: nat, i: nat)
  {
    var r := Claim(p, db, now, user, k, i);
    r.Ok? && r.value.1.Granted?
  }

  /** The session is live, of this user, and has lifetime left for what the grant gives. */
  predicate CanTake(p: Settings, db: DB, now: int, user: nat, minutes: nat, i: nat)
  {
    && i < |db.sessions| && db.sessions[i].user == user && db.sessions[i].Live()
    && (minutes != 0 ==> Max(now, db.sessions[i].expiresAt) < db.sessions[i].createdAt + p.maxSessionMs)
  }

  /**
   * Under the invariant a claim grants time exactly when the caller owns a fulfilled
   * grant that is still in its window and a live session the grant is not barred
   * from, and the session has lifetime left to give.
   */
  lemma ClaimGrantsExactlyWhen(p: Settings, db: DB, now: int, user: nat, k: nat, i: nat)
    requires FundingOk(db)
    ensures var r := Claim(p, db, now, user, k, i);
            (r.Ok? && r.value.1.Granted?) <==>
              && k < |db.grants| && db.grants[k].status.Fulfilled? && db.grants[k].user == user
              && now < db.grants[k].expiresAt && db.grants[k].session in {None, Some(i)}
              && i < |db.sessions| && db.sessions[i].user == user && db.sessions[i].Live()
              && (0 < db.grants[k].minutes ==>
                    Max(now, db.sessions[i].expiresAt) < db.sessions[i].createdAt + p.maxSessionMs)
  {
    if k < |db.grants| {
      assert GrantOk(db, k);
    }
  }

  /**
   * A grant of minutes moves the session's expiry strictly past both now and its old
   * value, by no more than the minutes from the later of the two, never past the
   * lifetime cap, and by exactly the minutes exactly when they fit under the cap. The queued
   * extend asks the panel for that instant, rounded down to the second.
   */
  lemma ClaimBoundsExpiry(p: Settings, db: DB, now: int, user: nat, k: nat, i: nat)
    requires var r := Claim(p, db, now, user, k, i); r.Ok? && r.value.1.Granted? && 0 < r.value.1.minutes
    ensures var (db', c) := Claim(p, db, now, user, k, i).value;
            var s, s' := db.sessions[i], db'.sessions[i];
            var from, cap := Max(now, s.expiresAt), s.createdAt + p.maxSessionMs;
            && c.minutes == db.grants[k].minutes && c.session == i && c.expiresAt == s'.expiresAt
            && now < s'.expiresAt && s.expiresAt < s'.expiresAt
            && s'.expiresAt <= from + c.minutes * 60_000 && s'.expiresAt <= cap
            && (s'.expiresAt == from + c.minutes * 60_000 <==> from + c.minutes * 60_000 <= cap)
            && (s'.expiresAt < from + c.minutes * 60_000 ==> s'.expiresAt == cap)
            && s'.Live() && (s'.status.Limited? <==> s.status.Limited?) && !s'.status.Provisioning?
            && s'.lastGrant == Some(k)
            && c.op == Some(|db.ops|) && |db'.ops| == |db.ops| + 1
            && db'.ops[|db.ops|] == Op(i, ExtendUser(s'.expiresAt / 1000), Queued, 0, now)
            && s'.expiresAt - 1000 < db'.ops[|db.ops|].work.epoch * 1000 <= s'.expiresAt
  {}

  /** A grant without minutes is consumed for its session and changes nothing else. */
  lemma MinutelessClaimExtendsNothing(p: Settings, db: DB, now: int, user: nat, k: nat, i: nat)
    requires var r := Claim(p, db, now, user, k, i); r.Ok? && r.value.1.Granted? && r.value.1.minutes == 0
    ensures var (db', c) := Claim(p, db, now, user, k, i).value;
            && c.op.None? && c.session == i
            && db' == db.(grants := db.grants[k := db.grants[k].(status := Consumed, session := Some(i))])
  {}

  /**
   * Why a claim is refused: the grant is unknown, another's, or bound elsewhere; else its window
   * is over; else ads are missing; else the session is unknown, another's, closed or at its cap.
   * A consumed grant is none of these: it replays.
   */
  lemma ClaimRefusedExactlyWhen(p: Settings, db: DB, now: int, user: nat, k: nat, i: nat)
    requires FundingOk(db)
    ensures var r := Claim(p, db, now, user, k, i);
            var mine := k < |db.grants| && db.grants[k].user == user && db.grants[k].session in {None, Some(i)};
            var spent := mine && db.grants[k].status.Consumed?;
            var open := mine && !spent && now < db.grants[k].expiresAt;
            var funded := open && db.grants[k].status.Fulfilled?;
            && (r == Err(GrantNotFound) <==> |db.grants| <= k)
            && (r == Err(GrantNotOwned) <==> k < |db.grants| && db.grants[k].user != user)
            && (r == Err(BoundElsewhere) <==>
                  k < |db.grants| && db.grants[k].user == user && db.grants[k].session !in {None, Some(i)})
            && (r.Ok? && r.value.1.Replayed? <==> spent)
            && (r == Err(WindowExpired) <==> mine && !spent && db.grants[k].expiresAt <= now)
            && (r == Err(AdsNotVerified) <==> open && db.grants[k].status.Pending?)
            && (r == Err(SessionNotFound) <==> funded && |db.sessions| <= i)
            && (r == Err(SessionNotOwned) <==> funded && i < |db.sessions| && db.sessions[i].user != user)
            && (r == Err(SessionNotLive) <==>
                  funded && i < |db.sessions| && db.sessions[i].user == user && !db.sessions[i].Live())
            && (r == Err(LifetimeCapReached) <==>
                  && funded && i < |db.sessions| && db.sessions[i].user == user && db.sessions[i].Live()
                  && !CanTake(p, db, now, user, db.grants[k].minutes, i))
  {
    if k < |db.grants| {
      assert GrantOk(db, k);
    }
  }

  /** An hour claimed in a session's last minutes: the cap leaves it five of them. */
  lemma CapCutsShort()
    ensures var p := Settings(900_000, 86_400_000, 300_000, 0, 2, 60, 20, 120_000, 12, 500);
            var s := Session(0, 0, 0, Free, Active, 86_100_000, 0, 1, None);
            var g := Grant(0, 0, Some(0), Extend, 2, 2, 60, Fulfilled, 86_500_000);
            var db := DB([s], [g], [], [], [], [], {});
            && p.Valid() && Claim(p, db, 86_000_000, 0, 0, 0).Ok?
            && var (db', c) := Claim(p, db, 86_000_000, 0, 0, 0).value;
               c.Granted? && c.minutes == 60 && db'.sessions[0].expiresAt == s.expiresAt + 5 * MINUTE_MS
  {}

  /** Nothing but the claimed grant, its session and the queue changes. */
  lemma ClaimFrame(p: Settings, db: DB, now: int, user: nat, k: nat, i: nat)
    requires Claim(p, db, now, user, k, i).Ok?
    ensures var db' := Claim(p, db, now, user, k, i).value.0;
            && db'.rewards == db.rewards && db'.nodes == db.nodes && db'.audits == db.audits && db'.banned == db.banned
            && |db'.grants| == |db.grants| && |db'.sessions| == |db.sessions|
            && db.ops <= db'.ops
            && (forall j | 0 <= j < |db.grants| && j != k :: db'.grants[j] == db.grants[j])
            && (forall j | 0 <= j < |db.sessions| && j != i :: db'.sessions[j] == db.sessions[j])
            && db'.grants[k].status.Consumed? && (db'.grants[k].session == Some(i) || db' == db)
  {}

  /** Claiming again answers from the session row and changes no table, whatever became of the session. */
  lemma ReplayChangesNothing(p: Settings, db: DB, now: int, user: nat, k: nat, i: nat, later: int)
    requires FundingOk(db)
    requires Claim(p, db, now, user, k, i).Ok?
    ensures var db' := Claim(p, db, now, user, k, i).value.0;
            Claim(p, db', later, user, k, i) == Ok((db', Replayed(i, db'.sessions[i].expiresAt)))
  {}

  /** A consumed grant is spent for good: no other session can be named with it. */
  lemma SpentGrantFundsNothingElse(p: Settings, db: DB, now: int, user: nat, k: nat, i: nat)
    requires FundingOk(db)
    requires k < |db.grants| && db.grants[k].status.Consumed? && db.grants[k].session != Some(i)
    ensures Claim(p, db, now, user, k, i).Err?
  {
    assert GrantOk(db, k);
  }

  // ---- SSV intake -------------------------------------------------------------------------

  /** A redelivering, reordering ad network: rejected callbacks leave the tables as they were. */
  function Intake(db: DB, calls: seq<Callback>): DB
  {
    if calls == [] then db
    else
      var before := Intake(db, calls[..|calls| - 1]);
      var r := RecordReward(before, calls[|calls| - 1]);
      if r.Ok? then r.value else before
  }

  /** The callback names one of the n grants there are. */
  predicate Known(n: nat, c: Callback) { c.data.Nonce? && c.data.grant < n }

  ghost predicate Delivered(n: nat, calls: seq<Callback>, transaction: nat)
  {
    exists j | 0 <= j < |calls| :: Known(n, calls[j]) && calls[j].transaction == transaction
  }

  /** No callback before the j-th, for whatever grant, delivers its transaction. */
  ghost predicate FirstDelivery(n: nat, calls: seq<Callback>, j: nat)
    requires j < |calls|
  {
    Known(n, calls[j]) && forall i | 0 <= i < j && Known(n, calls[i]) :: calls[i].transaction != calls[j].transaction
  }

  /** The transactions not recorded before whose first delivery is for grant k. */
  ghost function NewFor(n: nat, rewards: seq<Reward>, k: nat, calls: seq<Callback>): set<nat>
  {
    set j: nat | j < |calls| && FirstDelivery(n, calls, j) && calls[j].data == Nonce(k)
                 && !Recorded(rewards, calls[j].transaction) :: calls[j].transaction
  }

  /** Those of them whose first delivery comes before `until`. */
  ghost function InTimeFor(n: nat, rewards: seq<Reward>, k: nat, until: int, calls: seq<Callback>): set<nat>
  {
    set j: nat | j < |calls| && FirstDelivery(n, calls, j) && calls[j].data == Nonce(k)
                 && !Recorded(rewards, calls[j].transaction) && calls[j].at < until :: calls[j].transaction
  }

  /** A grant once n more ads have been verified for it. */
  function WithAds(g: Grant, n: nat): Grant
  {
    if !g.status.Pending? then g
    else g.(verifiedAds := Min(g.requiredAds, g.verifiedAds + n),
            status := if g.requiredAds <= g.verifiedAds + n then Fulfilled else Pending)
  }

  /** Grant k and its rewards rows once the transactions `news` have come in for it, `inTime` of them in its window. */
  ghost predicate Counted(db: DB, k: nat, inTime: set<nat>, news: set<nat>, db': DB)
    requires k < |db.grants|
  {
    && db' == db.(grants := db'.grants, rewards := db'.rewards) && |db'.grants| == |db.grants|
    && db'.grants[k] == WithAds(db.grants[k], |inTime|)
    && Sum(db'.rewards, Indicator(RewardFor(k))) == Sum(db.rewards, Indicator(RewardFor(k))) + |news|
  }

  /** What `calls` make of grant k and of the rewards table of `db`. */
  ghost predicate TakenIn(db: DB, k: nat, calls: seq<Callback>, db': DB)
    requires k < |db.grants|
  {
    var n := |db.grants|;
    && Counted(db, k, InTimeFor(n, db.rewards, k, db.grants[k].expiresAt, calls), NewFor(n, db.rewards, k, calls), db')
    && forall t :: Recorded(db'.rewards, t) <==> Recorded(db.rewards, t) || Delivered(n, calls, t)
  }

  /** Pending exactly as long as ads are missing, as in every reachable state. */
  predicate Countable(g: Grant)
  {
    g.status.Pending? ==> g.verifiedAds < g.requiredAds
  }

  /** What one more callback adds. */
  lemma OneMoreDelivery(n: nat, rewards: seq<Reward>, k: nat, until: int, init: seq<Callback>, c: Callback)
    ensures forall t :: Delivered(n, init + [c], t) <==> Delivered(n, init, t) || (Known(n, c) && c.transaction == t)
    ensures var first := Known(n, c) && c.data == Nonce(k) && !Delivered(n, init, c.transaction)
                         && !Recorded(rewards, c.transaction);
            && NewFor(n, rewards, k, init + [c])
               == NewFor(n, rewards, k, init) + (if first then {c.transaction} else {})
            && InTimeFor(n, rewards, k, until, init + [c])
               == InTimeFor(n, rewards, k, until, init) + (if first && c.at < until then {c.transaction} else {})
  {
    var calls, m := init + [c], |init|;
    assert calls[m] == c && forall j | 0 <= j < m :: calls[j] == init[j];
    assert forall j: nat | j < m :: FirstDelivery(n, calls, j) <==> FirstDelivery(n, init, j);
    forall t ensures Delivered(n, calls, t) <==> Delivered(n, init, t) || (Known(n, c) && c.transaction == t) {
      if Delivered(n, init, t) {
        var j :| 0 <= j < m && Known(n, init[j]) && init[j].transaction == t;
        assert Known(n, calls[j]);
      }
    }
    assert FirstDelivery(n, calls, m) <==> Known(n, c) && !Delivered(n, init, c.transaction);
    NewGrows(n, rewards, k, init, c);
    InTimeGrows(n, rewards, k, until, init, c);
  }

  lemma NewGrows(n: nat, rewards: seq<Reward>, k: nat, init: seq<Callback>, c: Callback)
    requires forall j: nat | j < |init| :: FirstDelivery(n, init + [c], j) <==> FirstDelivery(n, init, j)
    ensures NewFor(n, rewards, k, init + [c])
         == NewFor(n, rewards, k, init)
            + if FirstDelivery(n, init + [c], |init|) && c.data == Nonce(k) && !Recorded(rewards, c.transaction)
              then {c.transaction} else {}
  {
    var calls := init + [c];
    assert forall j: nat | j < |init| :: calls[j] == init[j];
    forall t | t in NewFor(n, rewards, k, init) ensures t in NewFor(n, rewards, k, calls) {
      var j: nat :| j < |init| && FirstDelivery(n, init, j) && init[j].data == Nonce(k)
                    && !Recorded(rewards, init[j].transaction) && init[j].transaction == t;
      assert FirstDelivery(n, calls, j) && calls[j] == init[j];
    }
  }

  lemma InTimeGrows(n: nat, rewards: seq<Reward>, k: nat, until: int, init: seq<Callback>, c: Callback)
    requires forall j: nat | j < |init| :: FirstDelivery(n, init + [c], j) <==> FirstDelivery(n, init, j)
    ensures InTimeFor(n, rewards, k, until, init + [c])
         == InTimeFor(n, rewards, k, until, init)
            + if FirstDelivery(n, init + [c], |init|) && c.data == Nonce(k) && !Recorded(rewards, c.transaction)
                 && c.at < until
              then {c.transaction} else {}
  {
    var calls := init + [c];
    assert forall j: nat | j < |init| :: calls[j] == init[j];
    forall t | t in InTimeFor(n, rewards, k, until, init) ensures t in InTimeFor(n, rewards, k, until, calls) {
      var j: nat :| j < |init| && FirstDelivery(n, init, j) && init[j].data == Nonce(k) && init[j].at < until
                    && !Recorded(rewards, init[j].transaction) && init[j].transaction == t;
      assert FirstDelivery(n, calls, j) && calls[j] == init[j];
    }
  }

  /** What counted or was stored was delivered, and not recorded before. */
  lemma NewWereDelivered(n: nat, rewards: seq<Reward>, k: nat, until: int, calls: seq<Callback>)
    ensures InTimeFor(n, rewards, k, until, calls) <= NewFor(n, rewards, k, calls)
    ensures forall t | t in NewFor(n, rewards, k, calls) :: Delivered(n, calls, t) && !Recorded(rewards, t)
  {}

  /**
   * Whatever callbacks come in, for whatever grants, in whatever order, however often and however
   * late: the ads counted for a grant are the new transactions first delivered for it and before
   * its window ended, up to the number required, and it is fulfilled exactly when that number is
   * reached; a late one is recorded and never counts, and a grant that is not pending stays as it is.
   */
  lemma {:induction false} IntakeCountsDistinct(db: DB, k: nat, calls: seq<Callback>)
    requires k < |db.grants| && Countable(db.grants[k])
    ensures TakenIn(db, k, calls, Intake(db, calls))
    decreases |calls|
  {
    if calls == [] {
      assert db.grants[k] == WithAds(db.grants[k], 0);
    } else {
      var init, c := calls[..|calls| - 1], calls[|calls| - 1];
      assert calls == init + [c];
      IntakeCountsDistinct(db, k, init);
      OneCallback(db, k, init, Intake(db, init), c);
    }
  }

  /** The tables as a callback leaves them. */
  function AfterCallback(db: DB, c: Callback): DB
  {
    var r := RecordReward(db, c);
    if r.Ok? then r.value else db
  }

  lemma OneCallback(db: DB, k: nat, init: seq<Callback>, before: DB, c: Callback)
    requires k < |db.grants| && Countable(db.grants[k]) && TakenIn(db, k, init, before)
    ensures TakenIn(db, k, init + [c], AfterCallback(before, c))
  {
    var n, until := |db.grants|, db.grants[k].expiresAt;
    OneMoreDelivery(n, db.rewards, k, until, init, c);
    NewWereDelivered(n, db.rewards, k, until, init);
    if Known(n, c) && !Recorded(before.rewards, c.transaction) {
      NewTransaction(db, k, init, before, c);
    } else {
      assert AfterCallback(before, c) == before;
    }
  }

  lemma RecordedPush(rewards: seq<Reward>, r: Reward)
    ensures forall t :: Recorded(rewards + [r], t) <==> Recorded(rewards, t) || t == r.transaction
  {
    forall t ensures Recorded(rewards + [r], t) <==> Recorded(rewards, t) || t == r.transaction {
      if Recorded(rewards, t) {
        var q :| 0 <= q < |rewards| && rewards[q].transaction == t;
        assert (rewards + [r])[q].transaction == t;
      }
      assert (rewards + [r])[|rewards|].transaction == r.transaction;
    }
  }

  /** A transaction not seen before: stored, and counted if it is in time. */
  lemma NewTransaction(db: DB, k: nat, init: seq<Callback>, before: DB, c: Callback)
    requires k < |db.grants| && Countable(db.grants[k]) && TakenIn(db, k, init, before)
    requires Known(|db.grants|, c) && !Recorded(before.rewards, c.transaction)
    ensures TakenIn(db, k, init + [c], AfterCallback(before, c))
  {
    var n, until := |db.grants|, db.grants[k].expiresAt;
    OneMoreDelivery(n, db.rewards, k, until, init, c);
    NewWereDelivered(n, db.rewards, k, until, init);
    RecordedPush(before.rewards, Reward(c.data.grant, c.transaction));
    CallbackStores(before, c);
    if c.data == Nonce(k) {
      OneMoreAd(db, k, InTimeFor(n, db.rewards, k, until, init), NewFor(n, db.rewards, k, init), before, c);
    } else {
      OneForAnother(db, k, InTimeFor(n, db.rewards, k, until, init), NewFor(n, db.rewards, k, init), before, c);
    }
  }

  lemma OneMoreAd(db: DB, k: nat, inTime: set<nat>, news: set<nat>, before: DB, c: Callback)
    requires k < |db.grants| && Countable(db.grants[k]) && Counted(db, k, inTime, news, before)
    requires c.data == Nonce(k) && !Recorded(before.rewards, c.transaction)
    requires c.transaction !in inTime && c.transaction !in news
    ensures Counted(db, k, inTime + (if c.at < db.grants[k].expiresAt then {c.transaction} else {}),
                    news + {c.transaction}, AfterCallback(before, c))
  {
    SumPush(before.rewards, Reward(k, c.transaction), Indicator(RewardFor(k)));
    assert |news + {c.transaction}| == |news| + 1 && |inTime + {c.transaction}| == |inTime| + 1;
    assert inTime + {} == inTime;
  }

  lemma OneForAnother(db: DB, k: nat, inTime: set<nat>, news: set<nat>, before: DB, c: Callback)
    requires k < |db.grants| && Counted(db, k, inTime, news, before)
    requires Known(|db.grants|, c) && c.data != Nonce(k) && !Recorded(before.rewards, c.transaction)
    ensures Counted(db, k, inTime + {}, news + {}, AfterCallback(before, c))
  {
    SumPush(before.rewards, Reward(c.data.grant, c.transaction), Indicator(RewardFor(k)));
    assert news + {} == news && inTime + {} == inTime;
  }

  lemma CallbackStores(db: DB, c: Callback)
    ensures AfterCallback(db, c).rewards
         == db.rewards + if Known(|db.grants|, c) && !Recorded(db.rewards, c.transaction)
                         then [Reward(c.data.grant, c.transaction)] else []
  {}

  /** A callback changes a grant exactly if it is pending, in its window, and the transaction not recorded before. */
  lemma CallbackCountsExactlyWhen(db: DB, c: Callback)
    ensures AfterCallback(db, c).grants != db.grants <==>
              && Known(|db.grants|, c) && !Recorded(db.rewards, c.transaction)
              && db.grants[c.data.grant].status.Pending? && c.at < db.grants[c.data.grant].expiresAt
  {
    var k := if Known(|db.grants|, c) then c.data.grant else 0;
    if AfterCallback(db, c).grants != db.grants {
    } else if k < |db.grants| {
      assert AfterCallback(db, c).grants[k] == db.grants[k];
    }
  }

  /** So deliveries of which the same transactions are in time for each grant leave the same grants. */
  lemma IntakeIgnoresOrder(db: DB, calls: seq<Callback>, calls': seq<Callback>)
    requires forall k | 0 <= k < |db.grants| ::
               && Countable(db.grants[k])
               && InTimeFor(|db.grants|, db.rewards, k, db.grants[k].expiresAt, calls)
                  == InTimeFor(|db.grants|, db.rewards, k, db.grants[k].expiresAt, calls')
    ensures Intake(db, calls).grants == Intake(db, calls').grants
  {
    IntakeAddsNoGrant(db, calls);
    IntakeAddsNoGrant(db, calls');
    forall k | 0 <= k < |db.grants| ensures Intake(db, calls).grants[k] == Intake(db, calls').grants[k] {
      IntakeCountsDistinct(db, k, calls);
      IntakeCountsDistinct(db, k, calls');
    }
  }

  /** The transactions delivered for grant k and not recorded before, whenever and however often. */
  function NewTransactions(rewards: seq<Reward>, k: nat, calls: seq<Callback>): set<nat>
  {
    set c | c in calls && c.data == Nonce(k) && !Recorded(rewards, c.transaction) :: c.transaction
  }

  /** The window shuts none out and no transaction is delivered for two grants: then no order matters. */
  lemma PunctualDeliveriesCount(n: nat, rewards: seq<Reward>, k: nat, until: int, calls: seq<Callback>)
    requires k < n && forall c | c in calls && c.data == Nonce(k) :: c.at < until
    requires forall c, d | c in calls && d in calls && c.data == Nonce(k) && Known(n, d) && d.data != Nonce(k) ::
               c.transaction != d.transaction
    ensures InTimeFor(n, rewards, k, until, calls) == NewTransactions(rewards, k, calls)
  {
    forall c | c in calls && c.data == Nonce(k) && !Recorded(rewards, c.transaction)
      ensures c.transaction in InTimeFor(n, rewards, k, until, calls)
    {
      var i :| 0 <= i < |calls| && calls[i] == c;
      var j := EarliestDelivery(n, calls, i);
      assert calls[j] in calls && calls[j].data == Nonce(k);
    }
  }

  lemma EarliestDelivery(n: nat, calls: seq<Callback>, i: nat) returns (j: nat)
    requires i < |calls| && Known(n, calls[i])
    ensures j < |calls| && FirstDelivery(n, calls, j) && calls[j].transaction == calls[i].transaction
    decreases i
  {
    if FirstDelivery(n, calls, i) {
      j := i;
    } else {
      var h :| 0 <= h < i && Known(n, calls[h]) && calls[h].transaction == calls[i].transaction;
      j := EarliestDelivery(n, calls, h);
    }
  }

  lemma {:induction false} IntakeAddsNoGrant(db: DB, calls: seq<Callback>)
    ensures |Intake(db, calls).grants| == |db.grants|
    decreases |calls|
  {
    if calls != [] { IntakeAddsNoGrant(db, calls[..|calls| - 1]); }
  }

  /** When a grant minted as g buys time once n ads have come in for it, and how much. */
  lemma FreshGrantBuysWhen(p: Settings, db: DB, now: int, user: nat, k: nat, i: nat, g: Grant, n: nat)
    requires k < |db.grants| && db.grants[k] == WithAds(g, n)
    requires g.status.Pending? && g.verifiedAds == 0 && 1 <= g.requiredAds
    ensures Buys(p, db, now, user, k, i) <==>
              && user == g.user && g.session in {None, Some(i)} && now < g.expiresAt && g.requiredAds <= n
              && CanTake(p, db, now, user, g.minutes, i)
    ensures Buys(p, db, now, user, k, i) ==> Claim(p, db, now, user, k, i).value.1.minutes == g.minutes
  {}

  /** The same for a grant just minted, after any callbacks. */
  lemma MintedGrantBuysWhen(p: Settings, db: DB, calls: seq<Callback>, later: int, user: nat, k: nat, i: nat)
    requires k < |db.grants| && db.grants[k].status.Pending? && db.grants[k].verifiedAds == 0
        && 1 <= db.grants[k].requiredAds
    ensures var g := db.grants[k];
            && (Buys(p, Intake(db, calls), later, user, k, i) <==>
                  && user == g.user && g.session in {None, Some(i)} && later < g.expiresAt
                  && g.requiredAds <= |InTimeFor(|db.grants|, db.rewards, k, g.expiresAt, calls)|
                  && CanTake(p, db, later, user, g.minutes, i))
            && (Buys(p, Intake(db, calls), later, user, k, i) ==>
                  Claim(p, Intake(db, calls), later, user, k, i).value.1.minutes == g.minutes)
  {
    var g := db.grants[k];
    IntakeCountsDistinct(db, k, calls);
    FreshGrantBuysWhen(p, Intake(db, calls), later, user, k, i, g,
                       |InTimeFor(|db.grants|, db.rewards, k, g.expiresAt, calls)|);
  }

  /** In terms of the tables before it was minted. */
  lemma NewGrantBuysWhen(p: Settings, db: DB, db': DB, g: Grant, calls: seq<Callback>, later: int, user: nat, i: nat)
    requires db' == db.(grants := db.grants + [g])
    requires g.status.Pending? && g.verifiedAds == 0 && 1 <= g.requiredAds
    ensures var k := |db.grants|;
            && (Buys(p, Intake(db', calls), later, user, k, i) <==>
                  && user == g.user && g.session in {None, Some(i)} && later < g.expiresAt
                  && g.requiredAds <= |InTimeFor(k + 1, db.rewards, k, g.expiresAt, calls)|
                  && CanTake(p, db, later, user, g.minutes, i))
            && (Buys(p, Intake(db', calls), later, user, k, i) ==>
                  Claim(p, Intake(db', calls), later, user, k, i).value.1.minutes == g.minutes)
  {
    MintedGrantBuysWhen(p, db', calls, later, user, |db.grants|, i);
  }

  /**
   * From request to claim: a token buys time exactly for its user, for the session it was bound
   * to if it was bound to one, before its window ends, once as many distinct new ads as its purpose
   * asks were verified for it in the window, and if that session is live, the user's and has
   * lifetime left; and it buys the minutes of its purpose.
   */
  lemma WatchingBuysTime(p: Settings, db: DB, now: int, user: nat, device: nat, purpose: Purpose, bound: Option<nat>,
                         calls: seq<Callback>, later: int, claimant: nat, i: nat)
    ensures RequestToken(p, db, now, user, device, purpose, bound).Ok?
       <==> bound.None? || bound.value < |db.sessions|
    ensures RequestToken(p, db, now, user, device, purpose, bound).Ok? ==>
              var requested := RequestToken(p, db, now, user, device, purpose, bound).value;
              var k, until := |db.grants|, now + p.tokenWindowMs;
              && (Buys(p, Intake(requested, calls), later, claimant, k, i) <==>
                    && claimant == user && bound in {None, Some(i)} && later < until
                    && AdsAsked(purpose) <= |InTimeFor(k + 1, db.rewards, k, until, calls)|
                    && CanTake(p, db, later, user, MinutesGiven(purpose), i))
              && (Buys(p, Intake(requested, calls), later, claimant, k, i) ==>
                    Claim(p, Intake(requested, calls), later, claimant, k, i).value.1.minutes == MinutesGiven(purpose))
  {
    var r := RequestToken(p, db, now, user, device, purpose, bound);
    if r.Ok? {
      TokenIsMinted(p, db, now, user, device, purpose, bound);
      NewGrantBuysWhen(p, db, r.value, r.value.grants[|db.grants|], calls, later, claimant, i);
    }
  }

  // ---- the service ---------------------------------------------------------------------------

  /** The transactions as the service runs them, statement by statement against the tables. */
  class AdsService {
    const p: Settings
    const db: Database

    constructor (p: Settings, db: Database)
      ensures this.p == p && this.db == db
    {
      this.p, this.db := p, db;
    }

    method RequestAdToken(user: nat, device: nat, purpose: Purpose, session: Option<nat>, now: int)
      returns (r: Result<nat, AdError>)
      modifies db
      ensures match RequestToken(p, old(db.Rows()), now, user, device, purpose, session)
              case Ok(after) => r == Ok(old(|db.grants|)) && db.Rows() == after
              case Err(e) => r == Err(e) && db.Rows() == old(db.Rows())
    {
      var (requiredAds, minutes) := RulesFor(purpose);
      if session.Some? && |db.sessions| <= session.value {
        return Err(SessionNotFound);
      }
      db.grants := db.grants + [Grant(user, device, session, purpose, requiredAds, 0, minutes, Pending,
                                      now + p.tokenWindowMs)];
      r := Ok(|db.grants| - 1);
    }

    method RecordVerifiedReward(c: Callback) returns (r: Result<(), AdError>)
      modifies db
      ensures match RecordReward(old(db.Rows()), c)
              case Ok(after) => r.Ok? && db.Rows() == after
              case Err(e) => r == Err(e) && db.Rows() == old(db.Rows())
    {
      if c.data.ClosingSentinel? { return Ok(()); }
      if |db.grants| <= c.data.grant { return Err(UnknownNonce); }
      var k := c.data.grant;
      var grant := db.grants[k];
      // insert ... on conflict do nothing
      if Recorded(db.rewards, c.transaction) { return Ok(()); }
      db.rewards := db.rewards + [Reward(k, c.transaction)];
      if !(grant.status.Pending? && c.at < grant.expiresAt) { return Ok(()); }
      var verified := grant.verifiedAds + 1;
      var fulfilled := grant.requiredAds <= verified;
      db.grants := db.grants[k := grant.(verifiedAds := verified,
                                         status := if fulfilled then Fulfilled else grant.status)];
      r := Ok(());
    }

    /** Phase A: commits on success; a throw undoes whatever the body had written. */
    method VerifyAdReward(user: nat, k: nat, i: nat, now: int) returns (r: Result<Claimed, AdError>)
      modifies db
      ensures match Claim(p, old(db.Rows()), now, user, k, i)
              case Ok((after, c)) => r == Ok(c) && db.Rows() == after
              case Err(e) => r == Err(e) && db.Rows() == old(db.Rows())
    {
      var begin := db.Rows();
      r := VerifyBody(user, k, i, now);
      if r.Err? {
        db.Rollback(begin);
      }
    }

    method VerifyBody(user: nat, k: nat, i: nat, now: int) returns (r: Result<Claimed, AdError>)
      modifies db
      ensures match Claim(p, old(db.Rows()), now, user, k, i)
              case Ok((after, c)) => r == Ok(c) && db.Rows() == after
              case Err(e) => r == Err(e)
    {
      if |db.grants| <= k { return Err(GrantNotFound); }
      var grant := db.grants[k];
      if grant.user != user { return Err(GrantNotOwned); }
      if grant.session.Some? && grant.session.value != i { return Err(BoundElsewhere); }
      if grant.status.Consumed? {
        var bound := if grant.session.Some? then grant.session.value else i;
        if |db.sessions| <= bound { return Err(SessionNotFound); }
        return Ok(Replayed(bound, db.sessions[bound].expiresAt));
      }
      if grant.status.WindowLapsed? || grant.expiresAt <= now {
        // Written, then undone: the throw that follows rolls the transaction back.
        db.grants := db.grants[k := grant.(status := WindowLapsed)];
        return Err(WindowExpired);
      }
      if grant.verifiedAds < grant.requiredAds { return Err(AdsNotVerified); }
      if |db.sessions| <= i { return Err(SessionNotFound); }
      var session := db.sessions[i];
      if session.user != user { return Err(SessionNotOwned); }
      if !session.Live() { return Err(SessionNotLive); }

      var base := Max(now, session.expiresAt);
      var capMs := session.createdAt + p.maxSessionMs;
      if 0 < grant.minutes && capMs <= base { return Err(LifetimeCapReached); }
      var newMs := base + grant.minutes * MINUTE_MS;
      if capMs < newMs { newMs := capMs; }

      db.grants := db.grants[k := grant.(status := Consumed, session := Some(i))];
      var opId := None;
      if 0 < grant.minutes {
        db.sessions := db.sessions[i := session.(expiresAt := newMs, extensions := session.extensions + 1,
                                                 lastGrant := Some(k),
                                                 status := if session.status.Provisioning? then Active
                                                     else session.status)];
        db.ops := db.ops + [Op(i, ExtendUser(newMs / 1000), Queued, 0, now)];
        opId := Some(|db.ops| - 1);
      }
      r := Ok(Granted(i, newMs, grant.minutes, opId));
    }
  }
}
