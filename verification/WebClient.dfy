/**
 * The admin web client's single-flight refresh, composed with the server's token rotation.
 * One browser tab; every refresh request reaches the server or fails, and every answer is
 * delivered. Which of a tab's many requests meets a 401, and when, is left open.
 */
module WebClient {
  import opened Prelude
  import opened Auth

  // ---- state --------------------------------------------------------------------------

  /** `next`: the token of a successful answer, on its way and then stored. */
  datatype CallStage = Sent | Answered(next: Option<nat>) | Settled(next: Option<nat>)

  /** One performRefresh; without a stored token it presents none. */
  datatype RefreshCall = RefreshCall(token: Option<nat>, stage: CallStage)

  datatype RequestStage = Sending | Awaiting(call: nat) | Resumed(ok: bool) | Done

  /** An API request: how often it went out, its `_retry` flag, where its promise stands. */
  datatype Request = Request(sent: nat, retry: bool, stage: RequestStage)

  datatype Status = Success | Unauthorized | Forbidden | OtherError

  /** `store`: the refresh token in local storage; `promise`: the refresh shared by all waiting requests. */
  datatype Tab = Tab(store: Option<nat>, promise: Option<nat>, calls: seq<RefreshCall>, requests: seq<Request>)

  datatype System = System(server: State, tab: Tab)

  // ---- what happens between two awaits ---------------------------------------------------

  function Enter(tab: Tab): Tab { tab.(requests := tab.requests + [Request(1, false, Sending)]) }

  function SetRequest(tab: Tab, r: nat, request: Request): Tab
    requires r < |tab.requests|
  {
    tab.(requests := tab.requests[r := request])
  }

  /** refreshOnce: join the refresh in flight, or start one; without a stored token it fails at once. */
  function RefreshOnce(tab: Tab): (Tab, nat)
  {
    if tab.promise.Some? then (tab, tab.promise.value)
    else
      var call := RefreshCall(tab.store, if tab.store.Some? then Sent else Answered(None));
      (tab.(promise := Some(|tab.calls|), calls := tab.calls + [call]), |tab.calls|)
  }

  /** The response interceptor, up to its first await. */
  function Respond(tab: Tab, r: nat, status: Status): Tab
    requires r < |tab.requests| && tab.requests[r].stage.Sending?
  {
    var request := tab.requests[r];
    var done := SetRequest(tab, r, request.(stage := Done));
    match status
    case Success => done
    case OtherError => done
    case Forbidden => done.(store := None)
    case Unauthorized =>
      if request.retry then done.(store := None)
      else
        var (tab', call) := RefreshOnce(tab);
        SetRequest(tab', r, request.(retry := true, stage := Awaiting(call)))
  }

  /** performRefresh's answer arrives: tokens stored, promise cleared, every waiting request runnable. */
  function SettleCall(tab: Tab, c: nat): Tab
    requires c < |tab.calls| && tab.calls[c].stage.Answered?
  {
    var next := tab.calls[c].stage.next;
    Tab(if next.Some? then next else tab.store, None,
        tab.calls[c := tab.calls[c].(stage := Settled(next))],
        seq(|tab.requests|, r requires 0 <= r < |tab.requests| =>
          if tab.requests[r].stage == Awaiting(c) then tab.requests[r].(stage := Resumed(next.Some?))
              else tab.requests[r]))
  }

  /** A request continues after its await: replay it, or give up and sign out. */
  function Continue(tab: Tab, r: nat): Tab
    requires r < |tab.requests| && tab.requests[r].stage.Resumed?
  {
    var request := tab.requests[r];
    if request.stage.ok then SetRequest(tab, r, request.(sent := request.sent + 1, stage := Sending))
    else SetRequest(tab, r, request.(stage := Done)).(store := None)
  }

  // ---- steps of the composed system -------------------------------------------------------

  datatype Event =
    | NewRequest
    | Response(request: nat, status: Status)
    | Serve(call: nat, fails: bool)
    | Deliver(call: nat)
    | Resume(request: nat)
    | Login(user: nat)
    | Pass(ms: nat)

  function Next(ttlMs: int, y: System, e: Event): System
  {
    match e
    case NewRequest => y.(tab := Enter(y.tab))
    case Response(r, status) =>
      if r < |y.tab.requests| && y.tab.requests[r].stage.Sending? then y.(tab := Respond(y.tab, r, status)) else y
    case Serve(c, fails) =>
      if c < |y.tab.calls| && y.tab.calls[c].stage.Sent? then ServeCall(ttlMs, y, c, fails) else y
    case Deliver(c) =>
      if c < |y.tab.calls| && y.tab.calls[c].stage.Answered? then y.(tab := SettleCall(y.tab, c)) else y
    case Resume(r) =>
      if r < |y.tab.requests| && y.tab.requests[r].stage.Resumed? then y.(tab := Continue(y.tab, r)) else y
    case Login(user) =>
      y.(server := Auth.Step(ttlMs, y.server, SignIn(user)), tab := y.tab.(store := Some(|y.server.tokens|)))
    case Pass(ms) => y.(server := Auth.Step(ttlMs, y.server, Wait(ms)))
  }

  /** The server rotates and answers; a failing server rolls back and answers with an error. */
  function ServeCall(ttlMs: int, y: System, c: nat, fails: bool): System
    requires c < |y.tab.calls|
  {
    var call := y.tab.calls[c];
    if fails || call.token.None? then y.(tab := y.tab.(calls := y.tab.calls[c := call.(stage := Answered(None))]))
    else
      var (tokens', outcome) := Refresh(ttlMs, y.server.tokens, y.server.clock, call.token.value);
      var answer := Answered(if outcome.RotatedTo? then Some(outcome.token) else None);
      System(y.server.(tokens := tokens'), y.tab.(calls := y.tab.calls[c := call.(stage := answer)]))
  }

  function Play(ttlMs: int, y: System, events: seq<Event>): System
    decreases |events|
  {
    if events == [] then y else Play(ttlMs, Next(ttlMs, y, events[0]), events[1..])
  }

  function Fresh(clock: int): System { System(State(clock, []), Tab(None, None, [], [])) }

  // ---- the invariant --------------------------------------------------------------------------

  ghost predicate SingleFlight(tab: Tab)
  {
    && (tab.promise.Some? ==> tab.promise.value < |tab.calls|)
    && forall c | 0 <= c < |tab.calls| :: !tab.calls[c].stage.Settled? <==> tab.promise == Some(c)
  }

  predicate RequestOk(tab: Tab, q: Request)
  {
    && (q.sent == 1 || (q.sent == 2 && q.retry && (q.stage.Sending? || q.stage.Done?)))
    && (q.stage.Awaiting? ==> q.retry && tab.promise == Some(q.stage.call))
    && (q.stage.Resumed? ==> q.retry)
  }

  /** The token a call will present, or was answered with, is the newest of its family. */
  ghost predicate CallOk(tokens: seq<Token>, call: RefreshCall)
  {
    match call.stage
    case Sent => call.token.Some? && Newest(tokens, call.token.value)
    case Answered(next) => next.Some? ==> Newest(tokens, next.value)
    case Settled(_) => true
  }

  /** The stored token is the newest of its family, unless its successor is on the way. */
  ghost predicate StoreOk(tokens: seq<Token>, tab: Tab)
  {
    tab.store.Some? ==>
      || Newest(tokens, tab.store.value)
      || (tab.promise.Some? && tab.promise.value < |tab.calls|
          && tab.calls[tab.promise.value].stage.Answered? && tab.calls[tab.promise.value].stage.next.Some?)
  }

  ghost predicate NoReuse(tokens: seq<Token>)
  {
    forall t | 0 <= t < |tokens| :: tokens[t].revoked != Some(ReuseDetected)
  }

  ghost predicate SystemOk(y: System)
  {
    var tokens := y.server.tokens;
    && FamiliesOk(tokens) && NoReuse(tokens)
    && SingleFlight(y.tab) && StoreOk(tokens, y.tab)
    && (forall r | 0 <= r < |y.tab.requests| :: RequestOk(y.tab, y.tab.requests[r]))
    && (forall c | 0 <= c < |y.tab.calls| :: CallOk(tokens, y.tab.calls[c]))
  }

  /** Rotating the newest token of a family never finds a live successor to revoke. */
  lemma NewestNeverReused(ttlMs: int, tokens: seq<Token>, now: int, raw: nat)
    requires FamiliesOk(tokens) && NoReuse(tokens) && Newest(tokens, raw)
    ensures var (tokens', outcome) := Refresh(ttlMs, tokens, now, raw);
            && NoReuse(tokens')
            && (outcome.RotatedTo? ==> outcome.token == |tokens| && Newest(tokens', |tokens|))
            && (!outcome.RotatedTo? ==> forall t | 0 <= t < |tokens| && Newest(tokens, t) :: Newest(tokens', t))
  {}

  lemma ServeKeeps(ttlMs: int, y: System, c: nat, fails: bool)
    requires SystemOk(y) && c < |y.tab.calls| && y.tab.calls[c].stage.Sent?
    ensures SystemOk(ServeCall(ttlMs, y, c, fails))
  {
    var tokens, y' := y.server.tokens, ServeCall(ttlMs, y, c, fails);
    assert CallOk(tokens, y.tab.calls[c]) && y.tab.promise == Some(c);
    if !fails {
      RefreshKeeps(ttlMs, tokens, y.server.clock, y.tab.calls[c].token.value);
      NewestNeverReused(ttlMs, tokens, y.server.clock, y.tab.calls[c].token.value);
    }
    forall d | 0 <= d < |y'.tab.calls| ensures CallOk(y'.server.tokens, y'.tab.calls[d]) {
      assert d != c ==> y.tab.calls[d].stage.Settled?;
    }
    forall r | 0 <= r < |y'.tab.requests| ensures RequestOk(y'.tab, y'.tab.requests[r]) {
      assert RequestOk(y.tab, y.tab.requests[r]);
    }
  }

  lemma RespondKeeps(ttlMs: int, y: System, r: nat, status: Status)
    requires SystemOk(y) && r < |y.tab.requests| && y.tab.requests[r].stage.Sending?
    ensures SystemOk(y.(tab := Respond(y.tab, r, status)))
  {}

  lemma DeliverKeeps(ttlMs: int, y: System, c: nat)
    requires SystemOk(y) && c < |y.tab.calls| && y.tab.calls[c].stage.Answered?
    ensures SystemOk(y.(tab := SettleCall(y.tab, c)))
  {}

  lemma NextKeeps(ttlMs: int, y: System, e: Event)
    requires SystemOk(y)
    ensures SystemOk(Next(ttlMs, y, e))
  {
    var y' := Next(ttlMs, y, e);
    match e
    case NewRequest =>
      forall q | 0 <= q < |y'.tab.requests| ensures RequestOk(y'.tab, y'.tab.requests[q]) {
        assert q < |y.tab.requests| ==> RequestOk(y.tab, y.tab.requests[q]);
      }
    case Response(r, status) =>
      if r < |y.tab.requests| && y.tab.requests[r].stage.Sending? { RespondKeeps(ttlMs, y, r, status); }
    case Serve(c, fails) =>
      if c < |y.tab.calls| && y.tab.calls[c].stage.Sent? { ServeKeeps(ttlMs, y, c, fails); }
    case Deliver(c) =>
      if c < |y.tab.calls| && y.tab.calls[c].stage.Answered? { DeliverKeeps(ttlMs, y, c); }
    case Resume(r) =>
      if r < |y.tab.requests| && y.tab.requests[r].stage.Resumed? {
        forall q | 0 <= q < |y'.tab.requests| ensures RequestOk(y'.tab, y'.tab.requests[q]) {
          assert RequestOk(y.tab, y.tab.requests[q]);
        }
      }
    case Login(user) =>
      LoginKeeps(ttlMs, y.server.tokens, y.server.clock, user);
      forall c | 0 <= c < |y.tab.calls| ensures CallOk(y'.server.tokens, y.tab.calls[c]) {
        assert CallOk(y.server.tokens, y.tab.calls[c]);
      }
      forall q | 0 <= q < |y'.tab.requests| ensures RequestOk(y'.tab, y'.tab.requests[q]) {
        assert RequestOk(y.tab, y.tab.requests[q]);
      }
    case Pass(_) =>
  }

  lemma {:induction false} PlayKeeps(ttlMs: int, y: System, events: seq<Event>)
    requires SystemOk(y)
    ensures SystemOk(Play(ttlMs, y, events))
    decreases |events|
  {
    if events != [] {
      NextKeeps(ttlMs, y, events[0]);
      PlayKeeps(ttlMs, Next(ttlMs, y, events[0]), events[1..]);
    }
  }

  // ---- the guarantees --------------------------------------------------------------------------

  /** However many requests meet a 401 and in whatever order: at most one refresh is unsettled at any time. */
  lemma AtMostOneRefreshInFlight(ttlMs: int, clock: int, events: seq<Event>, c: nat, d: nat)
    requires var tab := Play(ttlMs, Fresh(clock), events).tab;
             c < |tab.calls| && d < |tab.calls| && !tab.calls[c].stage.Settled? && !tab.calls[d].stage.Settled?
    ensures c == d
  {
    PlayKeeps(ttlMs, Fresh(clock), events);
  }

  /** No request goes out more than twice, and none waits for a refresh that is already settled. */
  lemma EachRequestAtMostTwice(ttlMs: int, clock: int, events: seq<Event>, r: nat)
    requires r < |Play(ttlMs, Fresh(clock), events).tab.requests|
    ensures var tab := Play(ttlMs, Fresh(clock), events).tab;
            && 1 <= tab.requests[r].sent <= 2
            && (tab.requests[r].stage.Awaiting? ==>
                  tab.requests[r].stage.call < |tab.calls| && !tab.calls[tab.requests[r].stage.call].stage.Settled?)
  {
    PlayKeeps(ttlMs, Fresh(clock), events);
    var tab := Play(ttlMs, Fresh(clock), events).tab;
    assert RequestOk(tab, tab.requests[r]);
  }

  /** The server never takes this client for a thief: no token is ever revoked as reused. */
  lemma ClientIsNeverTakenForThief(ttlMs: int, clock: int, events: seq<Event>, t: nat)
    requires t < |Play(ttlMs, Fresh(clock), events).server.tokens|
    ensures Play(ttlMs, Fresh(clock), events).server.tokens[t].revoked != Some(ReuseDetected)
  {
    PlayKeeps(ttlMs, Fresh(clock), events);
  }

  /**
   * What an answer makes of a request: a first 401 has it wait for the refresh in flight, started
   * now with the stored token if there was none; any other answer ends it, and a second 401 or a
   * 403 signs out.
   */
  lemma RespondedExactly(tab: Tab, r: nat, status: Status)
    requires r < |tab.requests| && tab.requests[r].stage.Sending?
    ensures var tab' := Respond(tab, r, status);
            var q, q' := tab.requests[r], tab'.requests[r];
            var waits := status.Unauthorized? && !q.retry;
            && tab'.requests == tab.requests[r := q'] && q'.sent == q.sent && (q'.retry <==> q.retry || waits)
            && (q'.stage.Done? <==> !waits) && (q'.stage.Awaiting? <==> waits)
            && tab'.store == (if status.Forbidden? || (status.Unauthorized? && q.retry) then None else tab.store)
            && (waits ==> tab'.promise == Some(q'.stage.call))
            && (waits && tab.promise.Some? ==> tab'.promise == tab.promise && tab'.calls == tab.calls)
            && (waits && tab.promise.None? ==>
                  && q'.stage.call == |tab.calls| && |tab'.calls| == |tab.calls| + 1 && tab.calls <= tab'.calls
                  && tab'.calls[|tab.calls|].token == tab.store
                  && (tab'.calls[|tab.calls|].stage.Sent? <==> tab.store.Some?)
                  && (tab.store.None? ==> tab'.calls[|tab.calls|].stage == Answered(None)))
            && (!waits ==> tab'.promise == tab.promise && tab'.calls == tab.calls)
  {}

  /**
   * What the refresh makes of the requests that wait for it: with a new token, which is stored, each
   * goes out once more; without one each ends and signs out. Nobody else's request is touched.
   */
  lemma WaitersReplayOrSignOut(tab: Tab, c: nat, r: nat)
    requires c < |tab.calls| && tab.calls[c].stage.Answered?
    requires r < |tab.requests| && tab.requests[r].stage == Awaiting(c)
    ensures SettleCall(tab, c).requests[r].stage.Resumed?
    ensures var settled, next := SettleCall(tab, c), tab.calls[c].stage.next;
            var after, q := Continue(settled, r), tab.requests[r];
            && settled.promise.None? && settled.store == (if next.Some? then next else tab.store)
            && |settled.requests| == |tab.requests|
            && (forall p | 0 <= p < |tab.requests| && tab.requests[p].stage != Awaiting(c) ::
                  settled.requests[p] == tab.requests[p])
            && (next.Some? ==>
                  after == settled.(requests := settled.requests[r := q.(sent := q.sent + 1, stage := Sending)]))
            && (next.None? ==> after.requests == settled.requests[r := q.(stage := Done)] && after.store.None?)
  {}

  /** A refresh is answered with a token exactly if the server got to it and could rotate; otherwise it issues none. */
  lemma ServedExactlyWhen(ttlMs: int, y: System, c: nat, fails: bool)
    requires c < |y.tab.calls|
    ensures var y', t := ServeCall(ttlMs, y, c, fails), y.tab.calls[c].token;
            && c < |y'.tab.calls| && y'.tab.calls[c].token == t && y'.tab.calls[c].stage.Answered?
            && (y'.tab.calls[c].stage.next.Some? <==>
                  && !fails && t.Some? && t.value < |y.server.tokens| && y.server.tokens[t.value].revoked.None?
                  && y.server.clock < y.server.tokens[t.value].expiresAt)
            && (y'.tab.calls[c].stage.next.Some? ==> y'.tab.calls[c].stage.next == Some(|y.server.tokens|)
                                                     && |y'.server.tokens| == |y.server.tokens| + 1)
            && (y'.tab.calls[c].stage.next.None? ==> |y'.server.tokens| == |y.server.tokens|)
            && (fails ==> y'.server == y.server)
  {}

  // ---- the client ---------------------------------------------------------------------------------

  /** The client's module variables; a method is what runs between two awaits. */
  class ApiClient {
    var store: Option<nat>
    var refreshPromise: Option<nat>
    var calls: seq<RefreshCall>
    var requests: seq<Request>

    function View(): Tab
      reads this
    {
      Tab(store, refreshPromise, calls, requests)
    }

    constructor ()
      ensures View() == Tab(None, None, [], [])
    {
      store, refreshPromise, calls, requests := None, None, [], [];
    }

    method ToLogin()
      modifies this`store
      ensures View() == old(View()).(store := None)
    {
      store := None;
    }

    method Send()
      modifies this`requests
      ensures View() == Enter(old(View()))
    {
      requests := requests + [Request(1, false, Sending)];
    }

    method JoinRefresh() returns (call: nat)
      modifies this`refreshPromise, this`calls
      ensures (View(), call) == RefreshOnce(old(View()))
    {
      if refreshPromise.None? {
        calls := calls + [RefreshCall(store, if store.Some? then Sent else Answered(None))];
        refreshPromise := Some(|calls| - 1);
      }
      call := refreshPromise.value;
    }

    method OnResponse(r: nat, status: Status)
      requires r < |requests| && requests[r].stage.Sending?
      modifies this
      ensures View() == Respond(old(View()), r, status)
    {
      if status.Forbidden? {
        requests := requests[r := requests[r].(stage := Done)];
        ToLogin();
        return;
      }
      if status.Unauthorized? && !requests[r].retry {
        requests := requests[r := requests[r].(retry := true)];
        var call := JoinRefresh();
        requests := requests[r := requests[r].(stage := Awaiting(call))];
        return;
      }
      requests := requests[r := requests[r].(stage := Done)];
      if status.Unauthorized? {
        ToLogin();
      }
    }

    method OnRefreshed(c: nat)
      requires c < |calls| && calls[c].stage.Answered?
      modifies this
      ensures View() == SettleCall(old(View()), c)
    {
      var next := calls[c].stage.next;
      if next.Some? {
        store := next;
      }
      refreshPromise := None;
      calls := calls[c := calls[c].(stage := Settled(next))];
      ghost var before, settled := requests, View();
      for r := 0 to |requests|
        invariant View() == settled.(requests := requests) && |requests| == |before|
        invariant forall q | 0 <= q < |before| ::
                    requests[q] == if q < r && before[q].stage == Awaiting(c)
                        then before[q].(stage := Resumed(next.Some?)) else before[q]
      {
        if requests[r].stage == Awaiting(c) {
          requests := requests[r := requests[r].(stage := Resumed(next.Some?))];
        }
      }
      assert requests == SettleCall(old(View()), c).requests;
    }

    method OnResumed(r: nat)
      requires r < |requests| && requests[r].stage.Resumed?
      modifies this
      ensures View() == Continue(old(View()), r)
    {
      if requests[r].stage.ok {
        requests := requests[r := requests[r].(sent := requests[r].sent + 1, stage := Sending)];
      } else {
        requests := requests[r := requests[r].(stage := Done)];
        ToLogin();
      }
    }
  }
}
