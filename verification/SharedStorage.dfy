/**
 * Several tabs of one browser: each its own module variables, all of them one local storage.
 * An answer may also be lost on its way. Reuse is detected only where one of the two happened.
 */
module SharedStorage {
  import opened Prelude
  import opened Auth
  import opened WebClient

  datatype Browser = Browser(server: State, tabs: seq<Tab>)

  datatype BrowserEvent = OpenTab | In(tab: nat, event: Event) | Lose(tab: nat, call: nat)

  /** What one tab stores is there for all. */
  function Share(tabs: seq<Tab>, x: nat, tab: Tab): seq<Tab>
    requires x < |tabs|
  {
    seq(|tabs|, y requires 0 <= y < |tabs| => if y == x then tab else tabs[y].(store := tab.store))
  }

  function Evolve(ttlMs: int, b: Browser, e: BrowserEvent): Browser
  {
    match e
    case OpenTab => b.(tabs := b.tabs + [Tab(if b.tabs == [] then None else b.tabs[0].store, None, [], [])])
    case In(x, event) =>
      if x < |b.tabs| then
        var y := Next(ttlMs, System(b.server, b.tabs[x]), event);
        Browser(y.server, Share(b.tabs, x, y.tab))
      else b
    case Lose(x, c) =>
      if x < |b.tabs| && c < |b.tabs[x].calls| && b.tabs[x].calls[c].stage.Answered? then
        b.(tabs := b.tabs[x := b.tabs[x].(calls := b.tabs[x].calls[c := b.tabs[x].calls[c].(stage := Answered(None))])])
      else b
  }

  function PlayAll(ttlMs: int, b: Browser, events: seq<BrowserEvent>): Browser
    decreases |events|
  {
    if events == [] then b else PlayAll(ttlMs, Evolve(ttlMs, b, events[0]), events[1..])
  }

  function OneTab(clock: int): Browser { Browser(State(clock, []), [Tab(None, None, [], [])]) }

  // ---- the invariant -----------------------------------------------------------------------

  /** The token a call was answered with. */
  function Successor(call: RefreshCall): Option<nat> { if call.stage.Sent? then None else call.stage.next }

  /** A tab other than x presented t and was given its successor. */
  ghost predicate TakenByAnother(tabs: seq<Tab>, x: nat, t: nat)
  {
    exists y, d | 0 <= y < |tabs| && 0 <= d < |tabs[y].calls| ::
      y != x && tabs[y].calls[d].token == Some(t) && Successor(tabs[y].calls[d]).Some?
  }

  /** The successor of t is on its way to some tab. */
  ghost predicate Coming(tabs: seq<Tab>, t: nat)
  {
    exists y, d | 0 <= y < |tabs| && 0 <= d < |tabs[y].calls| ::
      tabs[y].calls[d].token == Some(t) && tabs[y].calls[d].stage.Answered? && tabs[y].calls[d].stage.next.Some?
  }

  /** Nobody has token n but the answer to call c of tab x. */
  ghost predicate OnlyIn(tabs: seq<Tab>, x: nat, c: nat, n: nat)
  {
    && (forall y | 0 <= y < |tabs| :: tabs[y].store != Some(n))
    && forall y, d | 0 <= y < |tabs| && 0 <= d < |tabs[y].calls| ::
         && tabs[y].calls[d].token != Some(n)
         && (tabs[y].calls[d].stage == Answered(Some(n)) ==> y == x && d == c)
  }

  ghost predicate CallFine(tokens: seq<Token>, tabs: seq<Tab>, x: nat, c: nat)
    requires x < |tabs| && c < |tabs[x].calls|
  {
    var call := tabs[x].calls[c];
    && (call.token.Some? ==> call.token.value < |tokens|)
    && match call.stage
       case Sent => call.token.Some? && (Newest(tokens, call.token.value) || TakenByAnother(tabs, x, call.token.value))
       case Answered(next) => next.Some? ==> Newest(tokens, next.value) && OnlyIn(tabs, x, c, next.value)
       case Settled(_) => true
  }

  ghost predicate StoreFine(tokens: seq<Token>, tabs: seq<Tab>)
  {
    && tabs != [] && (forall y | 0 <= y < |tabs| :: tabs[y].store == tabs[0].store)
    && (tabs[0].store.Some? ==> tabs[0].store.value < |tokens|
                                && (Newest(tokens, tabs[0].store.value) || Coming(tabs, tabs[0].store.value)))
  }

  /** Two tabs presented one token: one got its successor, the other none. */
  ghost predicate Collision(tabs: seq<Tab>)
  {
    exists x, c | 0 <= x < |tabs| && 0 <= c < |tabs[x].calls| :: Refused(tabs, x, c)
  }

  ghost predicate Refused(tabs: seq<Tab>, x: nat, c: nat)
    requires x < |tabs| && c < |tabs[x].calls|
  {
    var call := tabs[x].calls[c];
    !call.stage.Sent? && call.stage.next.None? && call.token.Some? && TakenByAnother(tabs, x, call.token.value)
  }

  ghost predicate CallsFine(tokens: seq<Token>, tabs: seq<Tab>)
  {
    forall x, c | 0 <= x < |tabs| && 0 <= c < |tabs[x].calls| :: CallFine(tokens, tabs, x, c)
  }

  ghost predicate BrowserOk(b: Browser)
  {
    && FamiliesOk(b.server.tokens) && (NoReuse(b.server.tokens) || Collision(b.tabs))
    && (forall x | 0 <= x < |b.tabs| :: SingleFlight(b.tabs[x]))
    && StoreFine(b.server.tokens, b.tabs) && CallsFine(b.server.tokens, b.tabs)
  }

  // ---- what stays true of the calls ------------------------------------------------------------

  /** Calls keep their token, and an answer once given. */
  ghost predicate CallsGrow(tabs: seq<Tab>, tabs': seq<Tab>)
  {
    |tabs| <= |tabs'| && forall y | 0 <= y < |tabs| ::
      && |tabs[y].calls| <= |tabs'[y].calls|
      && forall d | 0 <= d < |tabs[y].calls| :: Grows(tabs[y].calls[d], tabs'[y].calls[d])
  }

  predicate Grows(call: RefreshCall, call': RefreshCall)
  {
    call'.token == call.token && (!call.stage.Sent? ==> !call'.stage.Sent? && call'.stage.next == call.stage.next)
  }

  lemma TakenStays(tabs: seq<Tab>, tabs': seq<Tab>, x: nat, t: nat)
    requires CallsGrow(tabs, tabs') && TakenByAnother(tabs, x, t)
    ensures TakenByAnother(tabs', x, t)
  {
    var y, d :| 0 <= y < |tabs| && 0 <= d < |tabs[y].calls| &&
      y != x && tabs[y].calls[d].token == Some(t) && Successor(tabs[y].calls[d]).Some?;
    assert Grows(tabs[y].calls[d], tabs'[y].calls[d]);
  }

  lemma CollisionStays(tabs: seq<Tab>, tabs': seq<Tab>)
    requires CallsGrow(tabs, tabs') && Collision(tabs)
    ensures Collision(tabs')
  {
    var x, c :| 0 <= x < |tabs| && 0 <= c < |tabs[x].calls| && Refused(tabs, x, c);
    assert Grows(tabs[x].calls[c], tabs'[x].calls[c]);
    TakenStays(tabs, tabs', x, tabs[x].calls[c].token.value);
    assert Refused(tabs', x, c);
  }

  lemma CallStays(tokens: seq<Token>, tokens': seq<Token>, tabs: seq<Tab>, tabs': seq<Tab>, x: nat, c: nat)
    requires x < |tabs| && c < |tabs[x].calls| && CallFine(tokens, tabs, x, c) && CallsGrow(tabs, tabs')
    requires tabs'[x].calls[c] == tabs[x].calls[c] && |tokens| <= |tokens'|
    requires forall t: nat | t < |tokens| && Newest(tokens, t) :: Newest(tokens', t)
    requires tabs[x].calls[c].stage.Answered? && tabs[x].calls[c].stage.next.Some? ==>
               OnlyIn(tabs', x, c, tabs[x].calls[c].stage.next.value)
    ensures CallFine(tokens', tabs', x, c)
  {
    var call := tabs[x].calls[c];
    if call.stage.Sent? && TakenByAnother(tabs, x, call.token.value) { TakenStays(tabs, tabs', x, call.token.value); }
  }

  // ---- steps that leave calls alone ----------------------------------------------------------------

  /** Calls and promises are as before; the storage keeps its token, loses it, or gets a new family's. */
  ghost predicate OnlyStoreMoves(b: Browser, b': Browser)
  {
    var tokens, tokens' := b.server.tokens, b'.server.tokens;
    && |tokens| <= |tokens'| && (forall t: nat | t < |tokens| && Newest(tokens, t) :: Newest(tokens', t))
    && (NoReuse(tokens) ==> NoReuse(tokens')) && b.tabs != [] && |b'.tabs| == |b.tabs|
    && (forall y | 0 <= y < |b.tabs| ::
          && b'.tabs[y].calls == b.tabs[y].calls && b'.tabs[y].promise == b.tabs[y].promise
          && b'.tabs[y].store == b'.tabs[0].store)
    && var store := b'.tabs[0].store;
       store.None? || store == b.tabs[0].store || (|tokens| <= store.value < |tokens'| && Newest(tokens', store.value))
  }

  lemma StoreMoveKeeps(b: Browser, b': Browser)
    requires BrowserOk(b) && OnlyStoreMoves(b, b') && FamiliesOk(b'.server.tokens)
    ensures BrowserOk(b')
  {
    var tokens, tokens' := b.server.tokens, b'.server.tokens;
    if !NoReuse(tokens') { CollisionStays(b.tabs, b'.tabs); }
    forall x, c | 0 <= x < |b'.tabs| && 0 <= c < |b'.tabs[x].calls| ensures CallFine(tokens', b'.tabs, x, c) {
      assert CallFine(tokens, b.tabs, x, c);
      CallStays(tokens, tokens', b.tabs, b'.tabs, x, c);
    }
    if b'.tabs[0].store.Some? && b'.tabs[0].store == b.tabs[0].store && Coming(b.tabs, b.tabs[0].store.value) {
      ComingStays(b.tabs, b'.tabs, b.tabs[0].store.value);
    }
  }

  lemma ComingStays(tabs: seq<Tab>, tabs': seq<Tab>, t: nat)
    requires |tabs| <= |tabs'| && forall y | 0 <= y < |tabs| :: tabs[y].calls <= tabs'[y].calls
    requires Coming(tabs, t)
    ensures Coming(tabs', t)
  {
    var y, d :| 0 <= y < |tabs| && 0 <= d < |tabs[y].calls| &&
      tabs[y].calls[d].token == Some(t) && tabs[y].calls[d].stage.Answered? && tabs[y].calls[d].stage.next.Some?;
    assert tabs'[y].calls[d] == tabs[y].calls[d];
  }

  lemma OpenKeeps(b: Browser)
    requires BrowserOk(b)
    ensures BrowserOk(b.(tabs := b.tabs + [Tab(b.tabs[0].store, None, [], [])]))
  {
    var tokens, tabs' := b.server.tokens, b.tabs + [Tab(b.tabs[0].store, None, [], [])];
    if !NoReuse(tokens) { CollisionStays(b.tabs, tabs'); }
    forall x, c | 0 <= x < |tabs'| && 0 <= c < |tabs'[x].calls| ensures CallFine(tokens, tabs', x, c) {
      assert CallFine(tokens, b.tabs, x, c);
      CallStays(tokens, tokens, b.tabs, tabs', x, c);
    }
    if b.tabs[0].store.Some? && Coming(b.tabs, b.tabs[0].store.value) {
      ComingStays(b.tabs, tabs', b.tabs[0].store.value);
    }
  }

  // ---- a tab starts a refresh ---------------------------------------------------------------------------

  /** Tab x reads the storage and presents what it finds there. */
  ghost predicate Starts(b: Browser, b': Browser, x: nat)
  {
    && x < |b.tabs| == |b'.tabs| && b'.server == b.server && b.tabs[x].promise.None?
    && (forall y | 0 <= y < |b.tabs| :: b'.tabs[y].store == b.tabs[y].store)
    && (forall y | 0 <= y < |b.tabs| && y != x ::
          b'.tabs[y].calls == b.tabs[y].calls && b'.tabs[y].promise == b.tabs[y].promise)
    && var store := b.tabs[x].store;
       && b'.tabs[x].calls == b.tabs[x].calls + [RefreshCall(store, if store.Some? then Sent else Answered(None))]
       && b'.tabs[x].promise == Some(|b.tabs[x].calls|)
  }

  lemma StartKeeps(b: Browser, b': Browser, x: nat)
    requires BrowserOk(b) && Starts(b, b', x)
    ensures BrowserOk(b')
  {
    var tokens := b.server.tokens;
    if !NoReuse(tokens) { CollisionStays(b.tabs, b'.tabs); }
    StartCalls(b, b', x);
    if b.tabs[0].store.Some? && Coming(b.tabs, b.tabs[0].store.value) {
      ComingStays(b.tabs, b'.tabs, b.tabs[0].store.value);
    }
  }

  lemma StartCalls(b: Browser, b': Browser, x: nat)
    requires CallsFine(b.server.tokens, b.tabs) && StoreFine(b.server.tokens, b.tabs) && Starts(b, b', x)
    requires SingleFlight(b.tabs[x])
    ensures CallsFine(b.server.tokens, b'.tabs)
  {
    var tokens, n := b.server.tokens, |b.tabs[x].calls|;
    forall y, d | 0 <= y < |b'.tabs| && 0 <= d < |b'.tabs[y].calls| ensures CallFine(tokens, b'.tabs, y, d) {
      if y != x || d < n {
        assert CallFine(tokens, b.tabs, y, d);
        CallStays(tokens, tokens, b.tabs, b'.tabs, y, d);
      } else if b.tabs[x].store.Some? && !Newest(tokens, b.tabs[x].store.value) {
        OthersCarry(b, x, b.tabs[x].store.value);
        TakenStays(b.tabs, b'.tabs, x, b.tabs[x].store.value);
      }
    }
  }

  /** What is coming while tab x has no refresh in flight is coming to another tab. */
  lemma OthersCarry(b: Browser, x: nat, t: nat)
    requires x < |b.tabs| && SingleFlight(b.tabs[x]) && b.tabs[x].promise.None? && Coming(b.tabs, t)
    ensures TakenByAnother(b.tabs, x, t)
  {
    var y, d :| 0 <= y < |b.tabs| && 0 <= d < |b.tabs[y].calls| &&
      b.tabs[y].calls[d].token == Some(t) && b.tabs[y].calls[d].stage.Answered? && b.tabs[y].calls[d].stage.next.Some?;
    assert y != x;
  }

  // ---- the server answers ---------------------------------------------------------------------------------

  /** Call c of tab x, in flight, gets its answer. */
  ghost predicate Answers(b: Browser, b': Browser, x: nat, c: nat, next: Option<nat>)
  {
    && x < |b.tabs| == |b'.tabs| && c < |b.tabs[x].calls| && b.tabs[x].calls[c].stage.Sent?
    && (forall y | 0 <= y < |b.tabs| :: b'.tabs[y].store == b.tabs[y].store && b'.tabs[y].promise == b.tabs[y].promise)
    && (forall y | 0 <= y < |b.tabs| && y != x :: b'.tabs[y].calls == b.tabs[y].calls)
    && b'.tabs[x].calls == b.tabs[x].calls[c := b.tabs[x].calls[c].(stage := Answered(next))]
  }

  ghost predicate Stale(b: Browser, x: nat, c: nat)
    requires x < |b.tabs| && c < |b.tabs[x].calls|
  {
    b.tabs[x].calls[c].token.Some? && !Newest(b.server.tokens, b.tabs[x].calls[c].token.value)
  }

  /** Refused, or an error: no token comes to be, and none ceases to be the newest. */
  lemma RefusalKeeps(b: Browser, b': Browser, x: nat, c: nat)
    requires BrowserOk(b) && Answers(b, b', x, c, None) && FamiliesOk(b'.server.tokens)
    requires |b'.server.tokens| == |b.server.tokens|
    requires forall t: nat | t < |b.server.tokens| && Newest(b.server.tokens, t) :: Newest(b'.server.tokens, t)
    requires NoReuse(b.server.tokens) && !NoReuse(b'.server.tokens) ==> Stale(b, x, c)
    ensures BrowserOk(b')
  {
    if !NoReuse(b'.server.tokens) { RefusalCollides(b, b', x, c); }
    RefusalCalls(b, b', x, c);
    RefusalStore(b, b', x, c);
  }

  lemma RefusalCollides(b: Browser, b': Browser, x: nat, c: nat)
    requires NoReuse(b.server.tokens) || Collision(b.tabs)
    requires Answers(b, b', x, c, None) && CallFine(b.server.tokens, b.tabs, x, c)
    requires NoReuse(b.server.tokens) ==> Stale(b, x, c)
    ensures Collision(b'.tabs)
  {
    if NoReuse(b.server.tokens) {
      TakenStays(b.tabs, b'.tabs, x, b.tabs[x].calls[c].token.value);
      assert Refused(b'.tabs, x, c);
    } else {
      CollisionStays(b.tabs, b'.tabs);
    }
  }

  lemma RefusalStore(b: Browser, b': Browser, x: nat, c: nat)
    requires StoreFine(b.server.tokens, b.tabs) && Answers(b, b', x, c, None)
    requires |b'.server.tokens| == |b.server.tokens|
    requires forall t: nat | t < |b.server.tokens| && Newest(b.server.tokens, t) :: Newest(b'.server.tokens, t)
    ensures StoreFine(b'.server.tokens, b'.tabs)
  {
    if b.tabs[0].store.Some? && Coming(b.tabs, b.tabs[0].store.value) {
      ComingThrough(b, b', x, c, None, b.tabs[0].store.value);
    }
  }

  lemma RefusalCalls(b: Browser, b': Browser, x: nat, c: nat)
    requires CallsFine(b.server.tokens, b.tabs) && Answers(b, b', x, c, None)
    requires |b'.server.tokens| == |b.server.tokens|
    requires forall t: nat | t < |b.server.tokens| && Newest(b.server.tokens, t) :: Newest(b'.server.tokens, t)
    ensures CallsFine(b'.server.tokens, b'.tabs)
  {
    var tokens, tokens' := b.server.tokens, b'.server.tokens;
    forall y, d | 0 <= y < |b'.tabs| && 0 <= d < |b'.tabs[y].calls| ensures CallFine(tokens', b'.tabs, y, d) {
      assert CallFine(tokens, b.tabs, y, d);
      if y != x || d != c { CallStays(tokens, tokens', b.tabs, b'.tabs, y, d); }
    }
  }

  lemma ComingThrough(b: Browser, b': Browser, x: nat, c: nat, next: Option<nat>, t: nat)
    requires Answers(b, b', x, c, next) && Coming(b.tabs, t)
    ensures Coming(b'.tabs, t)
  {
    var y, d :| 0 <= y < |b.tabs| && 0 <= d < |b.tabs[y].calls| &&
      b.tabs[y].calls[d].token == Some(t) && b.tabs[y].calls[d].stage.Answered? && b.tabs[y].calls[d].stage.next.Some?;
    assert b'.tabs[y].calls[d] == b.tabs[y].calls[d];
  }

  /** Rotated: the token presented is no longer the newest, but whoever else has it finds tab x was there first. */
  lemma RotationKeeps(b: Browser, b': Browser, x: nat, c: nat)
    requires BrowserOk(b) && Answers(b, b', x, c, Some(|b.server.tokens|)) && FamiliesOk(b'.server.tokens)
    requires |b'.server.tokens| == |b.server.tokens| + 1 && Newest(b'.server.tokens, |b.server.tokens|)
    requires NoReuse(b.server.tokens) ==> NoReuse(b'.server.tokens)
    requires forall t: nat | t < |b.server.tokens| && Newest(b.server.tokens, t)
        && Some(t) != b.tabs[x].calls[c].token ::
               Newest(b'.server.tokens, t)
    ensures BrowserOk(b')
  {
    if !NoReuse(b'.server.tokens) { CollisionStays(b.tabs, b'.tabs); }
    RotationCalls(b, b', x, c);
    RotationStore(b, b', x, c);
  }

  lemma RotationCalls(b: Browser, b': Browser, x: nat, c: nat)
    requires BrowserOk(b) && Answers(b, b', x, c, Some(|b.server.tokens|))
    requires |b'.server.tokens| == |b.server.tokens| + 1 && Newest(b'.server.tokens, |b.server.tokens|)
    requires forall t: nat | t < |b.server.tokens| && Newest(b.server.tokens, t)
        && Some(t) != b.tabs[x].calls[c].token ::
               Newest(b'.server.tokens, t)
    ensures CallsFine(b'.server.tokens, b'.tabs)
  {
    forall y, d | 0 <= y < |b'.tabs| && 0 <= d < |b'.tabs[y].calls| ensures CallFine(b'.server.tokens, b'.tabs, y, d) {
      assert CallFine(b.server.tokens, b.tabs, y, d);
      if y == x && d == c {
        NewTokenIsOnlyThere(b, b', x, c);
      } else {
        RotationSpares(b, b', x, c, y, d);
      }
    }
  }

  lemma RotationStore(b: Browser, b': Browser, x: nat, c: nat)
    requires BrowserOk(b) && Answers(b, b', x, c, Some(|b.server.tokens|))
    requires |b'.server.tokens| == |b.server.tokens| + 1
    requires forall t: nat | t < |b.server.tokens| && Newest(b.server.tokens, t)
        && Some(t) != b.tabs[x].calls[c].token ::
               Newest(b'.server.tokens, t)
    ensures StoreFine(b'.server.tokens, b'.tabs)
  {
    var n := |b.server.tokens|;
    assert b'.tabs[x].calls[c].stage == Answered(Some(n));
    if b.tabs[0].store.Some? && Coming(b.tabs, b.tabs[0].store.value) {
      ComingThrough(b, b', x, c, Some(n), b.tabs[0].store.value);
    }
  }

  lemma NewTokenIsOnlyThere(b: Browser, b': Browser, x: nat, c: nat)
    requires BrowserOk(b) && Answers(b, b', x, c, Some(|b.server.tokens|))
    ensures OnlyIn(b'.tabs, x, c, |b.server.tokens|)
  {
    var n := |b.server.tokens|;
    forall y, d | 0 <= y < |b'.tabs| && 0 <= d < |b'.tabs[y].calls|
      ensures b'.tabs[y].calls[d].token != Some(n)
          && (b'.tabs[y].calls[d].stage == Answered(Some(n)) ==> y == x && d == c)
    {
      assert CallFine(b.server.tokens, b.tabs, y, d);
    }
  }

  lemma RotationSpares(b: Browser, b': Browser, x: nat, c: nat, y: nat, d: nat)
    requires BrowserOk(b) && Answers(b, b', x, c, Some(|b.server.tokens|))
    requires |b'.server.tokens| == |b.server.tokens| + 1
    requires forall t: nat | t < |b.server.tokens| && Newest(b.server.tokens, t)
        && Some(t) != b.tabs[x].calls[c].token ::
               Newest(b'.server.tokens, t)
    requires y < |b.tabs| && d < |b.tabs[y].calls| && !(y == x && d == c)
    ensures CallFine(b'.server.tokens, b'.tabs, y, d)
  {
    var tokens, call := b.server.tokens, b.tabs[y].calls[d];
    assert CallFine(tokens, b.tabs, x, c) && CallFine(tokens, b.tabs, y, d) && b'.tabs[y].calls[d] == call;
    match call.stage
    case Sent =>
      assert y != x && Successor(b'.tabs[x].calls[c]).Some?;
      if TakenByAnother(b.tabs, y, call.token.value) { TakenStays(b.tabs, b'.tabs, y, call.token.value); }
    case Answered(next) =>
      if next.Some? {
        assert b.tabs[x].calls[c].token != next;
        assert OnlyIn(b'.tabs, y, d, next.value);
      }
    case Settled(_) =>
  }

  // ---- an answer arrives -------------------------------------------------------------------------------------

  /** The answer to call c of tab x is stored, if it carries a token. */
  ghost predicate Arrives(b: Browser, b': Browser, x: nat, c: nat)
  {
    && x < |b.tabs| == |b'.tabs| && b'.server == b.server && c < |b.tabs[x].calls| && b.tabs[x].calls[c].stage.Answered?
    && var next := b.tabs[x].calls[c].stage.next;
       && (forall y | 0 <= y < |b.tabs| :: b'.tabs[y].store == if next.Some? then next else b.tabs[x].store)
       && (forall y | 0 <= y < |b.tabs| && y != x ::
             b'.tabs[y].calls == b.tabs[y].calls && b'.tabs[y].promise == b.tabs[y].promise)
       && b'.tabs[x].calls == b.tabs[x].calls[c := b.tabs[x].calls[c].(stage := Settled(next))]
       && b'.tabs[x].promise.None?
  }

  lemma ArrivalKeeps(b: Browser, b': Browser, x: nat, c: nat)
    requires BrowserOk(b) && Arrives(b, b', x, c)
    ensures BrowserOk(b')
  {
    if !NoReuse(b.server.tokens) { CollisionStays(b.tabs, b'.tabs); }
    ArrivalCalls(b, b', x, c);
    ArrivalStore(b, b', x, c);
    ArrivalFlights(b, b', x, c);
  }

  lemma ArrivalFlights(b: Browser, b': Browser, x: nat, c: nat)
    requires Arrives(b, b', x, c) && forall y | 0 <= y < |b.tabs| :: SingleFlight(b.tabs[y])
    ensures forall y | 0 <= y < |b'.tabs| :: SingleFlight(b'.tabs[y])
  {}

  lemma ArrivalCalls(b: Browser, b': Browser, x: nat, c: nat)
    requires BrowserOk(b) && Arrives(b, b', x, c)
    ensures CallsFine(b.server.tokens, b'.tabs)
  {
    var tokens := b.server.tokens;
    assert CallFine(tokens, b.tabs, x, c);
    forall y, d | 0 <= y < |b'.tabs| && 0 <= d < |b'.tabs[y].calls| ensures CallFine(tokens, b'.tabs, y, d) {
      assert CallFine(tokens, b.tabs, y, d);
      if y != x || d != c { CallStays(tokens, tokens, b.tabs, b'.tabs, y, d); }
    }
  }

  lemma ArrivalStore(b: Browser, b': Browser, x: nat, c: nat)
    requires BrowserOk(b) && Arrives(b, b', x, c)
    ensures StoreFine(b.server.tokens, b'.tabs)
  {
    var next := b.tabs[x].calls[c].stage.next;
    assert CallFine(b.server.tokens, b.tabs, x, c);
    if next.None? && b.tabs[0].store.Some? && Coming(b.tabs, b.tabs[0].store.value) {
      var y, d :| 0 <= y < |b.tabs| && 0 <= d < |b.tabs[y].calls| && b.tabs[y].calls[d].token == b.tabs[0].store
        && b.tabs[y].calls[d].stage.Answered? && b.tabs[y].calls[d].stage.next.Some?;
      assert b'.tabs[y].calls[d] == b.tabs[y].calls[d];
    }
  }

  // ---- every step -----------------------------------------------------------------------------------------------

  /** What one rotation does to who is newest, and when it can detect reuse. */
  lemma RefreshMovesNewest(ttlMs: int, tokens: seq<Token>, now: int, raw: nat)
    requires FamiliesOk(tokens) && raw < |tokens|
    ensures var (tokens', outcome) := Refresh(ttlMs, tokens, now, raw);
            && FamiliesOk(tokens')
            && (outcome.RotatedTo? ==>
                  && outcome.token == |tokens| && |tokens'| == |tokens| + 1 && Newest(tokens', |tokens|)
                  && (NoReuse(tokens) ==> NoReuse(tokens'))
                  && forall t: nat | t < |tokens| && Newest(tokens, t) && t != raw :: Newest(tokens', t))
            && (!outcome.RotatedTo? ==>
                  && |tokens'| == |tokens| && (NoReuse(tokens) && !NoReuse(tokens') ==> !Newest(tokens, raw))
                  && forall t: nat | t < |tokens| && Newest(tokens, t) :: Newest(tokens', t))
  {
    RefreshKeeps(ttlMs, tokens, now, raw);
    if NoReuse(tokens) && Newest(tokens, raw) { NewestNeverReused(ttlMs, tokens, now, raw); }
    if tokens[raw].revoked.None? { assert Newest(tokens, raw); }
  }

  lemma ServeKeepsAll(ttlMs: int, b: Browser, x: nat, c: nat, fails: bool)
    requires BrowserOk(b) && x < |b.tabs| && c < |b.tabs[x].calls| && b.tabs[x].calls[c].stage.Sent?
    ensures BrowserOk(Evolve(ttlMs, b, In(x, Serve(c, fails))))
  {
    var b' := Evolve(ttlMs, b, In(x, Serve(c, fails)));
    assert CallFine(b.server.tokens, b.tabs, x, c);
    var raw := b.tabs[x].calls[c].token.value;
    RefreshMovesNewest(ttlMs, b.server.tokens, b.server.clock, raw);
    if !fails && Refresh(ttlMs, b.server.tokens, b.server.clock, raw).1.RotatedTo? {
      RotationKeeps(b, b', x, c);
    } else {
      RefusalKeeps(b, b', x, c);
    }
  }

  lemma LoginKeepsAll(ttlMs: int, b: Browser, x: nat, user: nat)
    requires BrowserOk(b) && x < |b.tabs|
    ensures BrowserOk(Evolve(ttlMs, b, In(x, Event.Login(user))))
  {
    LoginKeeps(ttlMs, b.server.tokens, b.server.clock, user);
    StoreMoveKeeps(b, Evolve(ttlMs, b, In(x, Event.Login(user))));
  }

  lemma ResponseKeepsAll(ttlMs: int, b: Browser, x: nat, r: nat, status: Status)
    requires BrowserOk(b) && x < |b.tabs| && r < |b.tabs[x].requests| && b.tabs[x].requests[r].stage.Sending?
    ensures BrowserOk(Evolve(ttlMs, b, In(x, Response(r, status))))
  {
    var b' := Evolve(ttlMs, b, In(x, Response(r, status)));
    if status.Unauthorized? && !b.tabs[x].requests[r].retry && b.tabs[x].promise.None? {
      StartKeeps(b, b', x);
    } else {
      StoreMoveKeeps(b, b');
    }
  }

  lemma DeliverKeepsAll(ttlMs: int, b: Browser, x: nat, c: nat)
    requires BrowserOk(b) && x < |b.tabs| && c < |b.tabs[x].calls| && b.tabs[x].calls[c].stage.Answered?
    ensures BrowserOk(Evolve(ttlMs, b, In(x, Deliver(c))))
  {
    ArrivalKeeps(b, Evolve(ttlMs, b, In(x, Deliver(c))), x, c);
  }

  /** The events of a tab that concern no refresh, and those that cannot happen now. */
  predicate Idle(tab: Tab, e: Event)
  {
    match e
    case Response(r, _) => !(r < |tab.requests| && tab.requests[r].stage.Sending?)
    case Serve(c, _) => !(c < |tab.calls| && tab.calls[c].stage.Sent?)
    case Deliver(c) => !(c < |tab.calls| && tab.calls[c].stage.Answered?)
    case Login(_) => false
    case _ => true
  }

  lemma IdleKeepsAll(ttlMs: int, b: Browser, x: nat, e: Event)
    requires BrowserOk(b) && x < |b.tabs| && Idle(b.tabs[x], e)
    ensures BrowserOk(Evolve(ttlMs, b, In(x, e)))
  {
    StoreMoveKeeps(b, Evolve(ttlMs, b, In(x, e)));
  }

  lemma EvolveKeeps(ttlMs: int, b: Browser, e: BrowserEvent)
    requires BrowserOk(b) && !e.Lose?
    ensures BrowserOk(Evolve(ttlMs, b, e))
  {
    if e.OpenTab? {
      OpenKeeps(b);
    } else if e.tab < |b.tabs| {
      TabEventKeeps(ttlMs, b, e.tab, e.event);
    }
  }

  lemma TabEventKeeps(ttlMs: int, b: Browser, x: nat, e: Event)
    requires BrowserOk(b) && x < |b.tabs|
    ensures BrowserOk(Evolve(ttlMs, b, In(x, e)))
  {
    if Idle(b.tabs[x], e) {
      IdleKeepsAll(ttlMs, b, x, e);
    } else {
      match e
      case Response(r, status) => ResponseKeepsAll(ttlMs, b, x, r, status);
      case Serve(c, fails) => ServeKeepsAll(ttlMs, b, x, c, fails);
      case Deliver(c) => DeliverKeepsAll(ttlMs, b, x, c);
      case Login(user) => LoginKeepsAll(ttlMs, b, x, user);
    }
  }

  lemma {:induction false} PlayAllKeeps(ttlMs: int, b: Browser, events: seq<BrowserEvent>)
    requires BrowserOk(b) && forall j | 0 <= j < |events| :: !events[j].Lose?
    ensures BrowserOk(PlayAll(ttlMs, b, events))
    decreases |events|
  {
    if events != [] {
      EvolveKeeps(ttlMs, b, events[0]);
      assert forall j | 0 <= j < |events[1..]| :: events[1..][j] == events[j + 1];
      PlayAllKeeps(ttlMs, Evolve(ttlMs, b, events[0]), events[1..]);
    }
  }

  /**
   * Whatever any number of tabs do, a token is revoked as reused only if an answer was lost, or
   * two tabs presented one token, of whom one got its successor and the other did not.
   */
  lemma ReuseNeedsLossOrCollision(ttlMs: int, clock: int, events: seq<BrowserEvent>)
    requires !NoReuse(PlayAll(ttlMs, OneTab(clock), events).server.tokens)
    ensures (exists j | 0 <= j < |events| :: events[j].Lose?) || Collision(PlayAll(ttlMs, OneTab(clock), events).tabs)
  {
    if forall j | 0 <= j < |events| :: !events[j].Lose? {
      PlayAllKeeps(ttlMs, OneTab(clock), events);
    }
  }

  // ---- both do lead to it -----------------------------------------------------------------------------------------

  lemma {:induction false} PlaySnoc(ttlMs: int, b: Browser, events: seq<BrowserEvent>, e: BrowserEvent)
    ensures PlayAll(ttlMs, b, events + [e]) == Evolve(ttlMs, PlayAll(ttlMs, b, events), e)
    decreases |events|
  {
    if events == [] {
      assert PlayAll(ttlMs, Evolve(ttlMs, b, e), ([] + [e])[1..]) == Evolve(ttlMs, b, e);
    } else {
      assert (events + [e])[1..] == events[1..] + [e];
      PlaySnoc(ttlMs, Evolve(ttlMs, b, events[0]), events[1..], e);
    }
  }

  predicate SameTab(tab: Tab, tab': Tab)
  {
    tab.store == tab'.store && tab.promise == tab'.promise && tab.calls == tab'.calls && tab.requests == tab'.requests
  }

  /** One event more. */
  lemma Then(ttlMs: int, start: Browser, events: seq<BrowserEvent>, b: Browser, e: BrowserEvent, b': Browser)
    returns (events': seq<BrowserEvent>)
    requires PlayAll(ttlMs, start, events) == b && Evolve(ttlMs, b, e).server.clock == b'.server.clock
    requires Evolve(ttlMs, b, e).server.tokens == b'.server.tokens && |Evolve(ttlMs, b, e).tabs| == |b'.tabs|
    requires forall y | 0 <= y < |b'.tabs| :: SameTab(Evolve(ttlMs, b, e).tabs[y], b'.tabs[y])
    ensures PlayAll(ttlMs, start, events') == b' && events' == events + [e]
  {
    assert Evolve(ttlMs, b, e).tabs == b'.tabs;
    PlaySnoc(ttlMs, start, events, e);
    events' := events + [e];
  }

  function FirstToken(ttlMs: int, clock: int, revoked: Option<Reason>): Token
  {
    Token(0, 0, clock + ttlMs, None, revoked)
  }

  function SecondToken(ttlMs: int, clock: int, revoked: Option<Reason>): Token
  {
    Token(0, 0, clock + ttlMs, Some(0), revoked)
  }

  function SignedIn(ttlMs: int, clock: int): State { State(clock, [FirstToken(ttlMs, clock, None)]) }

  function Rotated0(ttlMs: int, clock: int): State
  {
    State(clock, [FirstToken(ttlMs, clock, Some(Rotated)), SecondToken(ttlMs, clock, None)])
  }

  /** Signed in with a request out; `calls`: the refreshes of its 401. */
  function Busy(promise: Option<nat>, calls: seq<RefreshCall>, request: Request): Tab
  {
    Tab(Some(0), promise, calls, [request])
  }

  function Waiting(stage: CallStage): Tab
  {
    Busy(Some(0), [RefreshCall(Some(0), stage)], Request(1, true, Awaiting(0)))
  }

  function Quiet(): Tab { Busy(None, [], Request(1, false, Sending)) }

  /** Two tabs whose requests meet a 401 together. */
  lemma TabsCanCollide(ttlMs: int, clock: int) returns (events: seq<BrowserEvent>)
    requires 0 < ttlMs
    ensures !NoReuse(PlayAll(ttlMs, OneTab(clock), events).server.tokens)
    ensures |PlayAll(ttlMs, OneTab(clock), events).tabs| == 2
    ensures forall j | 0 <= j < |events| :: !events[j].Lose?
  {
    var s0, signedIn, rotated := OneTab(clock), SignedIn(ttlMs, clock), Rotated0(ttlMs, clock);
    var idle := Tab(Some(0), None, [], []);
    events := Then(ttlMs, s0, [], s0, In(0, Event.Login(0)), Browser(signedIn, [idle]));
    events := Then(ttlMs, s0, events, Browser(signedIn, [idle]), OpenTab, Browser(signedIn, [idle, idle]));
    events := Then(ttlMs, s0, events, Browser(signedIn, [idle, idle]), In(0, NewRequest),
                   Browser(signedIn, [Quiet(), idle]));
    events := Then(ttlMs, s0, events, Browser(signedIn, [Quiet(), idle]), In(1, NewRequest),
                   Browser(signedIn, [Quiet(), Quiet()]));
    events := Then(ttlMs, s0, events, Browser(signedIn, [Quiet(), Quiet()]), In(0, Response(0, Unauthorized)),
                   Browser(signedIn, [Waiting(Sent), Quiet()]));
    events := Then(ttlMs, s0, events, Browser(signedIn, [Waiting(Sent), Quiet()]), In(1, Response(0, Unauthorized)),
                   Browser(signedIn, [Waiting(Sent), Waiting(Sent)]));
    events := Then(ttlMs, s0, events, Browser(signedIn, [Waiting(Sent), Waiting(Sent)]), In(0, Serve(0, false)),
                   Browser(rotated, [Waiting(Answered(Some(1))), Waiting(Sent)]));
    var b := Browser(rotated, [Waiting(Answered(Some(1))), Waiting(Sent)]);
    var last := Evolve(ttlMs, b, In(1, Serve(0, false)));
    assert last.server.tokens == Refresh(ttlMs, rotated.tokens, clock, 0).0;
    assert last.server.tokens[1].revoked == Some(ReuseDetected);
    events := Then(ttlMs, s0, events, b, In(1, Serve(0, false)), last);
  }

  /** One tab with two requests out, of which the first has met a 401 and waits for its refresh. */
  function OneWaits(stage: CallStage): Tab
  {
    Tab(Some(0), Some(0), [RefreshCall(Some(0), stage)], [Request(1, true, Awaiting(0)), Request(1, false, Sending)])
  }

  lemma OneCanWait(ttlMs: int, clock: int) returns (events: seq<BrowserEvent>)
    ensures PlayAll(ttlMs, OneTab(clock), events) == Browser(SignedIn(ttlMs, clock), [OneWaits(Sent)])
  {
    var s0, out := OneTab(clock), Request(1, false, Sending);
    var b1 := Browser(SignedIn(ttlMs, clock), [Tab(Some(0), None, [], [])]);
    var b2 := Browser(SignedIn(ttlMs, clock), [Tab(Some(0), None, [], [out])]);
    var b3 := Browser(SignedIn(ttlMs, clock), [Tab(Some(0), None, [], [out, out])]);
    events := Then(ttlMs, s0, [], s0, In(0, Event.Login(0)), b1);
    events := Then(ttlMs, s0, events, b1, In(0, NewRequest), b2);
    events := Then(ttlMs, s0, events, b2, In(0, NewRequest), b3);
    events := Then(ttlMs, s0, events, b3, In(0, Response(0, Unauthorized)),
                   Browser(SignedIn(ttlMs, clock), [OneWaits(Sent)]));
  }

  /** The refresh has failed for the tab, though not for the server; the stored token is still the old one. */
  function Bereft(ttlMs: int, clock: int): Browser
  {
    Browser(Rotated0(ttlMs, clock),
            [Tab(Some(0), None, [RefreshCall(Some(0), Settled(None))],
                 [Request(1, true, Resumed(false)), Request(1, false, Sending)])])
  }

  lemma AnswerCanBeLost(ttlMs: int, clock: int) returns (events: seq<BrowserEvent>)
    requires 0 < ttlMs
    ensures PlayAll(ttlMs, OneTab(clock), events) == Bereft(ttlMs, clock)
  {
    var s0 := OneTab(clock);
    var answered := Browser(Rotated0(ttlMs, clock), [OneWaits(Answered(Some(1)))]);
    var lost := Browser(Rotated0(ttlMs, clock), [OneWaits(Answered(None))]);
    events := OneCanWait(ttlMs, clock);
    events := Then(ttlMs, s0, events, Browser(SignedIn(ttlMs, clock), [OneWaits(Sent)]), In(0, Serve(0, false)),
                   answered);
    events := Then(ttlMs, s0, events, answered, Lose(0, 0), lost);
    events := Then(ttlMs, s0, events, lost, In(0, Deliver(0)), Bereft(ttlMs, clock));
  }

  /** One tab: the answer to one request's refresh is lost, and the next request's presents the same token. */
  lemma LossCanLookLikeTheft(ttlMs: int, clock: int) returns (events: seq<BrowserEvent>)
    requires 0 < ttlMs
    ensures !NoReuse(PlayAll(ttlMs, OneTab(clock), events).server.tokens)
    ensures |PlayAll(ttlMs, OneTab(clock), events).tabs| == 1
  {
    var s0, rotated := OneTab(clock), Rotated0(ttlMs, clock);
    var again := Browser(rotated, [Tab(Some(0), Some(1),
                                       [RefreshCall(Some(0), Settled(None)), RefreshCall(Some(0), Sent)],
                                       [Request(1, true, Resumed(false)), Request(1, true, Awaiting(1))])]);
    events := AnswerCanBeLost(ttlMs, clock);
    events := Then(ttlMs, s0, events, Bereft(ttlMs, clock), In(0, Response(1, Unauthorized)), again);
    var last := Evolve(ttlMs, again, In(0, Serve(1, false)));
    assert last.server.tokens == Refresh(ttlMs, rotated.tokens, clock, 0).0;
    assert last.server.tokens[1].revoked == Some(ReuseDetected);
    events := Then(ttlMs, s0, events, again, In(0, Serve(1, false)), last);
  }

  // ---- when a browser is safe ------------------------------------------------------------------------------------

  /** The events of a browser that never has more than n tabs, whose answers are lost only if the network is lossy. */
  ghost predicate Within(ttlMs: int, clock: int, n: nat, lossy: bool, events: seq<BrowserEvent>)
  {
    && |PlayAll(ttlMs, OneTab(clock), events).tabs| <= n
    && (lossy || forall j | 0 <= j < |events| :: !events[j].Lose?)
  }

  ghost predicate NeverTakenForThief(ttlMs: int, clock: int, n: nat, lossy: bool)
  {
    forall events | Within(ttlMs, clock, n, lossy, events) ::
      NoReuse(PlayAll(ttlMs, OneTab(clock), events).server.tokens)
  }

  /** The server never takes the browser for a thief exactly when it has one tab and no answer is lost. */
  lemma SafeExactlyWhen(ttlMs: int, clock: int, n: nat, lossy: bool)
    requires 0 < ttlMs && 1 <= n
    ensures n == 1 && !lossy <==> NeverTakenForThief(ttlMs, clock, n, lossy)
  {
    if n == 1 && !lossy {
      forall events | Within(ttlMs, clock, n, lossy, events)
        ensures NoReuse(PlayAll(ttlMs, OneTab(clock), events).server.tokens)
      {
        if !NoReuse(PlayAll(ttlMs, OneTab(clock), events).server.tokens) {
          ReuseNeedsLossOrCollision(ttlMs, clock, events);
        }
      }
    } else if lossy {
      var events := LossCanLookLikeTheft(ttlMs, clock);
      assert Within(ttlMs, clock, n, lossy, events);
    } else {
      var events := TabsCanCollide(ttlMs, clock);
      assert Within(ttlMs, clock, n, lossy, events);
    }
  }
}
