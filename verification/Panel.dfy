/**
 * The remote panel as the backend relies on it: a map from (the session of) a username
 * to the user's expiry and enabled flag, and the effect of each client call on it.
 */
module Panel {
  import opened Prelude

  datatype PanelKind = Rebecca | Remnawave

  /** `expiresAt` None is the panel's "unlimited". */
  datatype PanelUser = PanelUser(expiresAt: Option<int>, enabled: bool)

  type Users = map<nat, PanelUser>

  datatype PanelCall =
    | CreateUser(user: nat, ms: int)
    | SetUserExpiry(user: nat, ms: int)
    | DisableUser(user: nat)
    | DeleteUser(user: nat)

  const DRIFT_TOLERANCE_MS := 2_000

  /** The expiry the panel holds after being sent an instant: Rebecca keeps whole seconds, and 0 means none. */
  function Stored(kind: PanelKind, ms: int): Option<int>
  {
    match kind
    case Rebecca => if ms / 1000 == 0 then None else Some(ms / 1000 * 1000)
    case Remnawave => Some(ms)
  }

  /** Remnawave refuses past instants, so its client does not send them. */
  predicate Elapsed(kind: PanelKind, now: int, ms: int) { kind.Remnawave? && ms <= now + DRIFT_TOLERANCE_MS }

  function Effect(kind: PanelKind, users: Users, now: int, call: PanelCall): Users
  {
    match call
    case CreateUser(u, ms) => users[u := PanelUser(Stored(kind, ms), true)]
    case SetUserExpiry(u, ms) =>
      if u !in users || Elapsed(kind, now, ms) then users
      else users[u := PanelUser(Stored(kind, ms), kind.Remnawave? || users[u].enabled)]
    case DisableUser(u) => if u in users then users[u := users[u].(enabled := false)] else users
    case DeleteUser(u) => users - {u}
  }

  /** `assertExpiryRoundTrip` */
  predicate RoundTrips(stored: Option<int>, sent: int)
  {
    stored.Some? && -DRIFT_TOLERANCE_MS <= stored.value - sent <= DRIFT_TOLERANCE_MS
  }

  /** `expiryMatches`: equal to within two whole seconds. */
  predicate ExpiryMatches(stored: Option<int>, sent: int)
  {
    stored.Some? && -2 <= stored.value / 1000 - sent / 1000 <= 2
  }

  /** Whether the call can return normally: an extend of a missing user, or an unfaithful echo, throws. */
  predicate CanReturn(kind: PanelKind, users: Users, now: int, call: PanelCall)
  {
    match call
    case CreateUser(u, ms) => RoundTrips(Stored(kind, ms), ms)
    case SetUserExpiry(u, ms) => u in users && (Elapsed(kind, now, ms) || RoundTrips(Stored(kind, ms), ms))
    case DisableUser(_) => true
    case DeleteUser(_) => true
  }

  /** How a call came back; a call that threw may have been applied all the same. */
  datatype Reply = Returned | Threw(applied: bool, retryable: bool)

  /** Whether what was asked for happened. */
  predicate Applied(reply: Reply) { reply.Returned? || reply.applied }

  /** A missing user makes the extend throw a retryable error; an unfaithful echo a final one. */
  predicate Missing(users: Users, call: PanelCall) { call.SetUserExpiry? && call.user !in users }

  /** A reply of the network that the client could actually have seen. */
  function Seen(kind: PanelKind, users: Users, now: int, call: PanelCall, reply: Reply): Reply
  {
    if reply.Returned? && !CanReturn(kind, users, now, call) then Threw(true, Missing(users, call)) else reply
  }

  function After(kind: PanelKind, users: Users, now: int, call: PanelCall, reply: Reply): Users
  {
    if Applied(reply) then Effect(kind, users, now, call) else users
  }

  /** The panel never holds a later instant than it was sent, and a faithful echo always passes both checks. */
  lemma StoredIsFaithful(kind: PanelKind, ms: int)
    requires 1000 <= ms
    ensures Stored(kind, ms).Some? && ms - 1000 < Stored(kind, ms).value <= ms
    ensures RoundTrips(Stored(kind, ms), ms) && ExpiryMatches(Stored(kind, ms), ms)
  {}

  /** A panel that takes seconds for milliseconds, or milliseconds for seconds, is caught by both checks. */
  lemma MixUpIsCaught(ms: int)
    requires 4_000 <= ms
    ensures !RoundTrips(Some(ms / 1000), ms) && !RoundTrips(Some(ms * 1000), ms)
    ensures !ExpiryMatches(Some(ms / 1000), ms) && !ExpiryMatches(Some(ms * 1000), ms)
  {}

  /**
   * Whatever the round-trip check accepts, expiryMatches accepts; the rest it accepts lies more
   * than the tolerance off.
   */
  lemma RoundTripIsStricter(stored: Option<int>, sent: int)
    ensures RoundTrips(stored, sent) ==> ExpiryMatches(stored, sent)
    ensures ExpiryMatches(stored, sent) && !RoundTrips(stored, sent) <==>
              && stored.Some? && !(-2_000 <= stored.value - sent <= 2_000)
              && -2 <= stored.value / 1000 - sent / 1000 <= 2
  {}

  /** A stored instant this far off the one sent that only expiryMatches accepts. */
  predicate OnlySecondsAgree(drift: int, sent: int)
  {
    ExpiryMatches(Some(sent + drift), sent) && !RoundTrips(Some(sent + drift), sent)
  }

  /** There is such an instant exactly for the drifts beyond two and short of three seconds. */
  lemma DriftsOnlySecondsTolerate(drift: int)
    ensures (exists sent | 0 <= sent :: OnlySecondsAgree(drift, sent))
       <==> 2_000 < drift < 3_000 || -3_000 < drift < -2_000
  {
    if 2_000 < drift < 3_000 {
      assert OnlySecondsAgree(drift, 0);
    } else if -3_000 < drift < -2_000 {
      assert OnlySecondsAgree(drift, 3_999);
    }
  }

  /** Calls for one user leave every other user alone; only a create adds one. */
  lemma EffectIsLocal(kind: PanelKind, users: Users, now: int, call: PanelCall, other: nat)
    ensures var users' := Effect(kind, users, now, call);
            && (other != call.user ==> (other in users' <==> other in users))
            && (other != call.user && other in users ==> users'[other] == users[other])
            && (call.user in users' ==> call.user in users || call.CreateUser?)
            && (call.DeleteUser? ==> call.user !in users')
  {}

  /**
   * What a call that was applied has done to its user. A created user is enabled; an extend gives a
   * user there is the new instant, unless the client saw that it has gone by, and on Remnawave
   * enables them again; disabling keeps the instant; a call that was not applied does nothing.
   */
  lemma CallDoes(kind: PanelKind, users: Users, now: int, call: PanelCall, reply: Reply)
    ensures var users', u := After(kind, users, now, call, reply), call.user;
            && (!Applied(reply) ==> users' == users)
            && (Applied(reply) && call.CreateUser? ==>
                  u in users' && users'[u].enabled && users'[u].expiresAt == Stored(kind, call.ms))
            && (Applied(reply) && call.SetUserExpiry? ==>
                  && (u in users' <==> u in users)
                  && (u in users && kind.Remnawave? && call.ms <= now + 2_000 ==> users'[u] == users[u])
                  && (u in users && (kind.Rebecca? || now + 2_000 < call.ms) ==>
                        && users'[u].expiresAt == Stored(kind, call.ms)
                        && (users'[u].enabled <==> kind.Remnawave? || users[u].enabled)))
            && (Applied(reply) && call.DisableUser? ==>
                  && (u in users' <==> u in users)
                  && (u in users ==> !users'[u].enabled && users'[u].expiresAt == users[u].expiresAt))
            && (Applied(reply) && call.DeleteUser? ==> u !in users')
  {}

  /**
   * How a call comes back: an extend never normally without its user, then to be retried, nor is a
   * stored instant more than the tolerance off ever passed over; whatever else the network reports stands.
   */
  lemma CallComesBack(kind: PanelKind, users: Users, now: int, call: PanelCall, reply: Reply)
    ensures var seen := Seen(kind, users, now, call, reply);
            && (reply.Threw? ==> seen == reply)
            && (seen.Returned? ==> reply.Returned? && (call.SetUserExpiry? ==> call.user in users))
            && (reply.Returned? && (call.DisableUser? || call.DeleteUser?) ==> seen.Returned?)
            && (reply.Returned? && (call.CreateUser? || call.SetUserExpiry?) && 1000 <= call.ms ==>
                  (seen.Threw? <==> call.SetUserExpiry? && call.user !in users))
            && (reply.Returned? && seen.Threw? ==> (seen.retryable <==> call.SetUserExpiry? && call.user !in users))
  {}

  /** The panel behind its client: each call changes the users and comes back with a reply. */
  class PanelServer {
    const kind: PanelKind
    var users: Users

    constructor (kind: PanelKind)
      ensures this.kind == kind && users == map[]
    {
      this.kind, users := kind, map[];
    }

    /** `reply`: what the network would make of the call. */
    method Call(call: PanelCall, now: int, reply: Reply) returns (seen: Reply)
      modifies this
      ensures seen == Seen(kind, old(users), now, call, reply)
      ensures users == After(kind, old(users), now, call, seen)
    {
      seen := if reply.Returned? && !CanReturn(kind, users, now, call) then Threw(true, Missing(users, call))
          else reply;
      if Applied(seen) {
        users := Effect(kind, users, now, call);
      }
    }
  }
}
