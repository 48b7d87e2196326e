/**
 * Rotating refresh tokens. A token row's id stands for the random raw value whose hash the
 * row stores, and a family id for the row of the family's first token. The scheme is the
 * refresh token rotation of section 4.14.2 of RFC 9700.
 */
module Auth {
  import opened Prelude

  datatype Reason = ReuseDetected | Lapsed | Rotated | LoggedOut

  datatype Token = Token(user: nat, family: nat, expiresAt: int, rotatedFrom: Option<nat>, revoked: Option<Reason>)

  datatype Outcome = Invalid | Reuse | Expired | RotatedTo(token: nat)

  datatype AuthError = NotCallersToken

  // ---- the transactions ----------------------------------------------------------------

  function Login(ttlMs: int, tokens: seq<Token>, now: int, user: nat): seq<Token>
  {
    tokens + [Token(user, |tokens|, now + ttlMs, None, None)]
  }

  function RevokeFamily(tokens: seq<Token>, family: nat, reason: Reason): seq<Token>
  {
    seq(|tokens|, t requires 0 <= t < |tokens| =>
      if tokens[t].family == family && tokens[t].revoked.None? then tokens[t].(revoked := Some(reason)) else tokens[t])
  }

  function Refresh(ttlMs: int, tokens: seq<Token>, now: int, raw: nat): (seq<Token>, Outcome)
  {
    if |tokens| <= raw then (tokens, Invalid)
    else
      var t := tokens[raw];
      if t.revoked.Some? then (RevokeFamily(tokens, t.family, ReuseDetected), Reuse)
      else if t.expiresAt <= now then (tokens[raw := t.(revoked := Some(Lapsed))], Expired)
      else
        (tokens[raw := t.(revoked := Some(Rotated))] + [Token(t.user, t.family, now + ttlMs, Some(raw), None)],
         RotatedTo(|tokens|))
  }

  function Logout(tokens: seq<Token>, user: nat, raw: nat): Result<seq<Token>, AuthError>
  {
    if |tokens| <= raw then Ok(tokens)
    else if tokens[raw].user != user then Err(NotCallersToken)
    else Ok(RevokeFamily(tokens, tokens[raw].family, LoggedOut))
  }

  // ---- lineages ---------------------------------------------------------------------------

  /** No later token in the family of t. */
  ghost predicate Newest(tokens: seq<Token>, t: nat)
  {
    t < |tokens| && forall u | t < u < |tokens| :: tokens[u].family != tokens[t].family
  }

  /** t is the first token of its family, or was rotated from the one just before it in the family. */
  ghost predicate Linked(tokens: seq<Token>, t: nat)
    requires t < |tokens|
  {
    match tokens[t].rotatedFrom
    case None => tokens[t].family == t
    case Some(f) =>
      && f < t && tokens[f].family == tokens[t].family && tokens[f].user == tokens[t].user
      && forall u | f < u < t :: tokens[u].family != tokens[t].family
  }

  /** Every family is one chain, and only its newest token can be unrevoked. */
  ghost predicate FamiliesOk(tokens: seq<Token>)
  {
    && (forall t | 0 <= t < |tokens| :: tokens[t].family <= t && Linked(tokens, t))
    && (forall t | 0 <= t < |tokens| && tokens[t].revoked.None? :: Newest(tokens, t))
  }

  ghost predicate Dead(tokens: seq<Token>, family: nat)
  {
    family < |tokens| && forall t | 0 <= t < |tokens| && tokens[t].family == family :: tokens[t].revoked.Some?
  }

  lemma LoginKeeps(ttlMs: int, tokens: seq<Token>, now: int, user: nat)
    requires FamiliesOk(tokens)
    ensures FamiliesOk(Login(ttlMs, tokens, now, user))
  {}

  lemma RevokingKeeps(tokens: seq<Token>, tokens': seq<Token>)
    requires FamiliesOk(tokens) && |tokens'| == |tokens|
    requires forall t | 0 <= t < |tokens| ::
               tokens'[t] == tokens[t].(revoked := tokens'[t].revoked)
                   && (tokens'[t].revoked.None? ==> tokens[t].revoked.None?)
    ensures FamiliesOk(tokens')
  {}

  lemma RefreshKeeps(ttlMs: int, tokens: seq<Token>, now: int, raw: nat)
    requires FamiliesOk(tokens)
    ensures FamiliesOk(Refresh(ttlMs, tokens, now, raw).0)
  {
    var (tokens', outcome) := Refresh(ttlMs, tokens, now, raw);
    if outcome.RotatedTo? {
      var revoked := tokens[raw := tokens[raw].(revoked := Some(Rotated))];
      RevokingKeeps(tokens, revoked);
      assert Newest(tokens, raw);
      forall t | 0 <= t < |tokens'| ensures tokens'[t].family <= t && Linked(tokens', t) {
        assert t < |tokens| ==> Linked(revoked, t);
      }
      forall t | 0 <= t < |tokens'| && tokens'[t].revoked.None? ensures Newest(tokens', t) {
        assert t < |tokens| ==> Newest(revoked, t);
        assert t < |tokens| && tokens'[t].family == tokens[raw].family ==> t == raw || raw < t || t < raw;
      }
    } else {
      RevokingKeeps(tokens, tokens');
    }
  }

  lemma LogoutKeeps(tokens: seq<Token>, user: nat, raw: nat)
    requires FamiliesOk(tokens) && Logout(tokens, user, raw).Ok?
    ensures FamiliesOk(Logout(tokens, user, raw).value)
  {
    RevokingKeeps(tokens, Logout(tokens, user, raw).value);
  }

  // ---- runs ------------------------------------------------------------------------------------

  datatype Action = SignIn(user: nat) | Rotate(raw: nat) | SignOut(user: nat, raw: nat) | Wait(ms: nat)

  datatype State = State(clock: int, tokens: seq<Token>)

  function Step(ttlMs: int, s: State, a: Action): State
  {
    match a
    case SignIn(user) => s.(tokens := Login(ttlMs, s.tokens, s.clock, user))
    case Rotate(raw) => s.(tokens := Refresh(ttlMs, s.tokens, s.clock, raw).0)
    case SignOut(user, raw) =>
      var r := Logout(s.tokens, user, raw);
      if r.Ok? then s.(tokens := r.value) else s
    case Wait(ms) => s.(clock := s.clock + ms)
  }

  function Run(ttlMs: int, s: State, actions: seq<Action>): State
    decreases |actions|
  {
    if actions == [] then s else Run(ttlMs, Step(ttlMs, s, actions[0]), actions[1..])
  }

  lemma StepKeeps(ttlMs: int, s: State, a: Action)
    requires FamiliesOk(s.tokens)
    ensures FamiliesOk(Step(ttlMs, s, a).tokens) && |s.tokens| <= |Step(ttlMs, s, a).tokens|
  {
    match a
    case SignIn(user) => LoginKeeps(ttlMs, s.tokens, s.clock, user);
    case Rotate(raw) => RefreshKeeps(ttlMs, s.tokens, s.clock, raw);
    case SignOut(user, raw) => if Logout(s.tokens, user, raw).Ok? { LogoutKeeps(s.tokens, user, raw); }
    case Wait(_) =>
  }

  lemma {:induction false} RunKeeps(ttlMs: int, s: State, actions: seq<Action>)
    requires FamiliesOk(s.tokens)
    ensures FamiliesOk(Run(ttlMs, s, actions).tokens)
    decreases |actions|
  {
    if actions != [] {
      StepKeeps(ttlMs, s, actions[0]);
      RunKeeps(ttlMs, Step(ttlMs, s, actions[0]), actions[1..]);
    }
  }

  /** From an empty table on: at most one unrevoked token per family, the newest of a single rotation chain. */
  lemma OneLiveTokenPerFamily(ttlMs: int, clock: int, actions: seq<Action>, t: nat, u: nat)
    requires var tokens := Run(ttlMs, State(clock, []), actions).tokens;
             t < u < |tokens| && tokens[t].family == tokens[u].family
    ensures var tokens := Run(ttlMs, State(clock, []), actions).tokens;
            && tokens[t].revoked.Some?
            && tokens[t].user == tokens[u].user
            && tokens[u].rotatedFrom.Some? && t <= tokens[u].rotatedFrom.value < u
            && tokens[tokens[u].rotatedFrom.value].family == tokens[u].family
  {
    var tokens := Run(ttlMs, State(clock, []), actions).tokens;
    RunKeeps(ttlMs, State(clock, []), actions);
    assert Linked(tokens, t) && Linked(tokens, u);
    assert tokens[t].revoked.None? ==> Newest(tokens, t);
    SameUser(tokens, t, u);
  }

  lemma {:induction false} SameUser(tokens: seq<Token>, t: nat, u: nat)
    requires FamiliesOk(tokens) && t < u < |tokens| && tokens[t].family == tokens[u].family
    ensures tokens[u].rotatedFrom.Some? && t <= tokens[u].rotatedFrom.value && tokens[t].user == tokens[u].user
    decreases u
  {
    assert Linked(tokens, u) && tokens[t].family <= t;
    var f := tokens[u].rotatedFrom.value;
    if f != t {
      SameUser(tokens, t, f);
    }
  }

  /** Rotating a live token in time makes its successor the family's one live token. */
  lemma RotationHandsOver(ttlMs: int, tokens: seq<Token>, now: int, raw: nat)
    requires FamiliesOk(tokens)
    requires raw < |tokens| && tokens[raw].revoked.None? && now < tokens[raw].expiresAt
    ensures var (tokens', outcome) := Refresh(ttlMs, tokens, now, raw);
            && outcome == RotatedTo(|tokens|) && |tokens'| == |tokens| + 1
            && tokens'[|tokens|] == Token(tokens[raw].user, tokens[raw].family, now + ttlMs, Some(raw), None)
            && (forall t | 0 <= t < |tokens| && tokens[t].family == tokens[raw].family :: tokens'[t].revoked.Some?)
            && (forall t | 0 <= t < |tokens| && t != raw :: tokens'[t] == tokens[t])
  {}

  /** Presenting any token that is revoked leaves its family without a live one. */
  lemma RevokedTokenKillsFamily(ttlMs: int, tokens: seq<Token>, now: int, raw: nat)
    requires FamiliesOk(tokens) && raw < |tokens| && tokens[raw].revoked.Some?
    ensures Dead(Refresh(ttlMs, tokens, now, raw).0, tokens[raw].family)
    ensures Refresh(ttlMs, tokens, now, raw).1 == Reuse
    ensures OnlyRevokes(tokens, Refresh(ttlMs, tokens, now, raw).0, tokens[raw].family, ReuseDetected)
  {}

  /** The live tokens of the family are revoked for this reason, and nothing else is different. */
  predicate OnlyRevokes(tokens: seq<Token>, tokens': seq<Token>, family: nat, reason: Reason)
  {
    && |tokens'| == |tokens|
    && forall t | 0 <= t < |tokens| ::
         if tokens[t].family == family && tokens[t].revoked.None? then
           tokens'[t] == tokens[t].(revoked := Some(reason))
         else tokens'[t] == tokens[t]
  }

  /** So does logging out, exactly with a token of one's own; an unknown one changes nothing. */
  lemma LogoutKillsFamily(tokens: seq<Token>, user: nat, raw: nat)
    requires FamiliesOk(tokens)
    ensures Logout(tokens, user, raw).Ok? <==> (raw < |tokens| ==> tokens[raw].user == user)
    ensures |tokens| <= raw ==> Logout(tokens, user, raw).value == tokens
    ensures raw < |tokens| && tokens[raw].user == user ==>
              var tokens' := Logout(tokens, user, raw).value;
              Dead(tokens', tokens[raw].family) && OnlyRevokes(tokens, tokens', tokens[raw].family, LoggedOut)
  {}

  // ---- tokens lapse ------------------------------------------------------------------------------

  /** A token is exchanged exactly if it is known, not revoked and in time; each other case has its own answer. */
  lemma RotatesExactlyWhen(ttlMs: int, tokens: seq<Token>, now: int, raw: nat)
    ensures var outcome := Refresh(ttlMs, tokens, now, raw).1;
            && (outcome.RotatedTo? <==> raw < |tokens| && tokens[raw].revoked.None? && now < tokens[raw].expiresAt)
            && (outcome.Expired? <==> raw < |tokens| && tokens[raw].revoked.None? && tokens[raw].expiresAt <= now)
            && (outcome.Reuse? <==> raw < |tokens| && tokens[raw].revoked.Some?)
            && (outcome.Invalid? <==> |tokens| <= raw)
            && (outcome.Invalid? ==> Refresh(ttlMs, tokens, now, raw).0 == tokens)
  {}

  /** Presenting a live token too late ends its family, adds no token and touches no other family. */
  lemma LateTokenEndsFamily(ttlMs: int, tokens: seq<Token>, now: int, raw: nat)
    requires FamiliesOk(tokens)
    requires raw < |tokens| && tokens[raw].revoked.None? && tokens[raw].expiresAt <= now
    ensures var tokens' := Refresh(ttlMs, tokens, now, raw).0;
            Dead(tokens', tokens[raw].family) && OnlyRevokes(tokens, tokens', tokens[raw].family, Lapsed)
  {
    assert Newest(tokens, raw);
    forall t | 0 <= t < |tokens| && t != raw && tokens[t].family == tokens[raw].family ensures tokens[t].revoked.Some? {
      assert tokens[t].revoked.None? ==> Newest(tokens, t);
    }
  }

  /** Signing in opens a family of one live token and leaves every other as it is. */
  lemma LoginOpensFamily(ttlMs: int, tokens: seq<Token>, now: int, user: nat)
    requires FamiliesOk(tokens)
    ensures var tokens', n := Login(ttlMs, tokens, now, user), |tokens|;
            && tokens <= tokens' && |tokens'| == n + 1
            && tokens'[n].user == user && tokens'[n].revoked.None? && tokens'[n].expiresAt == now + ttlMs
            && tokens'[n].rotatedFrom.None?
            && forall t | 0 <= t < n :: tokens[t].family != tokens'[n].family
  {
    assert forall t | 0 <= t < |tokens| :: tokens[t].family <= t;
  }

  /** Every token was issued by now, and each rotated one while the one before it was in time. */
  ghost predicate Timely(ttlMs: int, s: State)
  {
    && (forall t | 0 <= t < |s.tokens| :: s.tokens[t].expiresAt <= s.clock + ttlMs)
    && forall u | 0 <= u < |s.tokens| && s.tokens[u].rotatedFrom.Some? ::
         && s.tokens[u].rotatedFrom.value < u
         && var t := s.tokens[s.tokens[u].rotatedFrom.value];
            t.expiresAt <= s.tokens[u].expiresAt < t.expiresAt + ttlMs
  }

  /** Only revocations differ. */
  lemma RevokingKeepsTimely(ttlMs: int, s: State, tokens': seq<Token>)
    requires Timely(ttlMs, s) && |tokens'| == |s.tokens|
    requires forall t | 0 <= t < |s.tokens| :: tokens'[t] == s.tokens[t].(revoked := tokens'[t].revoked)
    ensures Timely(ttlMs, s.(tokens := tokens'))
  {}

  lemma IssueKeepsTimely(ttlMs: int, s: State, token: Token)
    requires Timely(ttlMs, s) && token.expiresAt == s.clock + ttlMs
    requires token.rotatedFrom.Some? ==>
               token.rotatedFrom.value < |s.tokens| && s.clock < s.tokens[token.rotatedFrom.value].expiresAt
    ensures Timely(ttlMs, s.(tokens := s.tokens + [token]))
  {}

  lemma RotateKeepsTimely(ttlMs: int, s: State, raw: nat)
    requires Timely(ttlMs, s)
    ensures Timely(ttlMs, s.(tokens := Refresh(ttlMs, s.tokens, s.clock, raw).0))
  {
    var (tokens', outcome) := Refresh(ttlMs, s.tokens, s.clock, raw);
    if outcome.RotatedTo? {
      var revoked := s.(tokens := s.tokens[raw := s.tokens[raw].(revoked := Some(Rotated))]);
      RevokingKeepsTimely(ttlMs, s, revoked.tokens);
      IssueKeepsTimely(ttlMs, revoked, tokens'[|s.tokens|]);
    } else {
      RevokingKeepsTimely(ttlMs, s, tokens');
    }
  }

  lemma StepKeepsTimely(ttlMs: int, s: State, a: Action)
    requires Timely(ttlMs, s)
    ensures Timely(ttlMs, Step(ttlMs, s, a))
  {
    match a
    case SignIn(user) => IssueKeepsTimely(ttlMs, s, Token(user, |s.tokens|, s.clock + ttlMs, None, None));
    case Rotate(raw) => RotateKeepsTimely(ttlMs, s, raw);
    case SignOut(user, raw) => RevokingKeepsTimely(ttlMs, s, Step(ttlMs, s, a).tokens);
    case Wait(_) =>
  }

  lemma {:induction false} RunKeepsTimely(ttlMs: int, s: State, actions: seq<Action>)
    requires Timely(ttlMs, s)
    ensures Timely(ttlMs, Run(ttlMs, s, actions))
    decreases |actions|
  {
    if actions != [] {
      StepKeepsTimely(ttlMs, s, actions[0]);
      RunKeepsTimely(ttlMs, Step(ttlMs, s, actions[0]), actions[1..]);
    }
  }

  /**
   * No lineage outlives a token that was not refreshed in time: over every run a token rotated from
   * another was issued before that one expired, and not before it was issued itself.
   */
  lemma LineageNeedsRefreshInTime(ttlMs: int, clock: int, actions: seq<Action>, t: nat, u: nat)
    requires u < |Run(ttlMs, State(clock, []), actions).tokens|
    requires Run(ttlMs, State(clock, []), actions).tokens[u].rotatedFrom == Some(t)
    ensures var tokens := Run(ttlMs, State(clock, []), actions).tokens;
            && t < u
            && tokens[t].expiresAt - ttlMs <= tokens[u].expiresAt - ttlMs < tokens[t].expiresAt
  {
    RunKeepsTimely(ttlMs, State(clock, []), actions);
  }

  lemma StepKeepsDead(ttlMs: int, s: State, a: Action, family: nat)
    requires FamiliesOk(s.tokens) && Dead(s.tokens, family)
    ensures Dead(Step(ttlMs, s, a).tokens, family)
  {}

  /** A family without a live token stays dead, whatever is presented. */
  lemma {:induction false} DeadStaysDead(ttlMs: int, s: State, actions: seq<Action>, family: nat)
    requires FamiliesOk(s.tokens) && Dead(s.tokens, family)
    ensures Dead(Run(ttlMs, s, actions).tokens, family)
    decreases |actions|
  {
    if actions != [] {
      StepKeeps(ttlMs, s, actions[0]);
      StepKeepsDead(ttlMs, s, actions[0], family);
      DeadStaysDead(ttlMs, Step(ttlMs, s, actions[0]), actions[1..], family);
    }
  }

  /** Replaying a used token once ends the lineage for ever. */
  lemma ReplayEndsLineage(ttlMs: int, clock: int, before: seq<Action>, raw: nat, after: seq<Action>)
    requires var tokens := Run(ttlMs, State(clock, []), before).tokens; raw < |tokens| && tokens[raw].revoked.Some?
    ensures var s := Run(ttlMs, State(clock, []), before);
            Dead(Run(ttlMs, Step(ttlMs, s, Rotate(raw)), after).tokens, s.tokens[raw].family)
  {
    var s := Run(ttlMs, State(clock, []), before);
    RunKeeps(ttlMs, State(clock, []), before);
    StepKeeps(ttlMs, s, Rotate(raw));
    RevokedTokenKillsFamily(ttlMs, s.tokens, s.clock, raw);
    DeadStaysDead(ttlMs, Step(ttlMs, s, Rotate(raw)), after, s.tokens[raw].family);
  }

  // ---- the service ---------------------------------------------------------------------------------

  class AuthService {
    const ttlMs: int
    var tokens: seq<Token>

    constructor (ttlMs: int)
      ensures this.ttlMs == ttlMs && tokens == []
    {
      this.ttlMs, tokens := ttlMs, [];
    }

    method IssueRefresh(user: nat, family: nat, rotatedFrom: Option<nat>, now: int) returns (raw: nat)
      modifies this`tokens
      ensures raw == old(|tokens|)
      ensures tokens == old(tokens) + [Token(user, family, now + ttlMs, rotatedFrom, None)]
    {
      tokens := tokens + [Token(user, family, now + ttlMs, rotatedFrom, None)];
      raw := |tokens| - 1;
    }

    method SignIn(user: nat, now: int) returns (raw: nat)
      modifies this`tokens
      ensures raw == old(|tokens|) && tokens == Login(ttlMs, old(tokens), now, user)
    {
      raw := IssueRefresh(user, |tokens|, None, now);
    }

    method Rotate(raw: nat, now: int) returns (outcome: Outcome)
      modifies this`tokens
      ensures (tokens, outcome) == Refresh(ttlMs, old(tokens), now, raw)
    {
      if |tokens| <= raw { return Invalid; }
      var row := tokens[raw];
      if row.revoked.Some? {
        tokens := RevokeFamily(tokens, row.family, ReuseDetected);
        return Reuse;
      }
      if row.expiresAt <= now {
        tokens := tokens[raw := row.(revoked := Some(Lapsed))];
        return Expired;
      }
      tokens := tokens[raw := row.(revoked := Some(Rotated))];
      var next := IssueRefresh(row.user, row.family, Some(raw), now);
      outcome := RotatedTo(next);
    }

    method SignOut(user: nat, raw: nat) returns (r: Result<(), AuthError>)
      modifies this`tokens
      ensures match Logout(old(tokens), user, raw)
              case Ok(after) => r.Ok? && tokens == after
              case Err(e) => r == Err(e) && tokens == old(tokens)
    {
      if |tokens| <= raw { return Ok(()); }
      if tokens[raw].user != user { return Err(NotCallersToken); }
      tokens := RevokeFamily(tokens, tokens[raw].family, LoggedOut);
      r := Ok(());
    }
  }
}
