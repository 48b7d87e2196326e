/** Device attestation: single-use challenges, App Attest counters, and the client key an attestation binds. */
module Attest {
  import opened Prelude
  import opened Sums
  import opened Rows
  import opened AuthData

  // ---- tables ------------------------------------------------------------------------------

  /** `key`: the App Attest key registered, `counter`: its last accepted count. */
  datatype Device = Device(key: Option<nat>, counter: nat, isAttested: bool, attestedUntil: int,
                           clientKey: Option<Bytes>)

  datatype Challenge = Challenge(device: nat, expiresAt: int, consumed: bool)

  /** Cryptographic checks are taken as their verdicts; `authData` is read by the verifier itself. */
  datatype Payload =
    | Android(genuine: bool)
    | IosAttest(keyId: nat, authData: Bytes, genuine: bool)
    | IosAssert(assertKeyId: nat, assertData: Bytes, signed: bool)

  datatype AttestError =
    | BadPubkeyLen | ChallengeNotFound | ChallengeUsed | ChallengeExpired
    | DeviceNotFound | KeyBoundElsewhere | KeyNotRegistered | NotGenuine | WrongAtFlag | RpIdMismatch | CounterReplay
    | CounterNotZero | AaguidMismatch | Malformed | CounterTrigger

  datatype Config = Config(challengeTtlMs: int, attestationTtlMs: int, appIdHash: Bytes, aaguid: Bytes)

  // ---- the verifier's decisions ---------------------------------------------------------------

  /** The count of an acceptable attestation is always zero. */
  function VerifyAttestation(cfg: Config, authData: Bytes, genuine: bool): Result<nat, AttestError>
  {
    if !genuine then Err(NotGenuine)
    else match Parse(authData)
      case Err(_) => Err(Malformed)
      case Ok(ad) =>
        if !ad.HasCredentialData() then Err(WrongAtFlag)
        else if ad.rpIdHash != cfg.appIdHash then Err(RpIdMismatch)
        else if ad.signCount != 0 then Err(CounterNotZero)
        else if ad.aaguid != Some(cfg.aaguid) then Err(AaguidMismatch)
        else Ok(0)
  }

  function VerifyAssertion(cfg: Config, authData: Bytes, signed: bool, storedCount: nat): Result<nat, AttestError>
  {
    if !signed then Err(NotGenuine)
    else match Parse(authData)
      case Err(_) => Err(Malformed)
      case Ok(ad) =>
        if ad.HasCredentialData() then Err(WrongAtFlag)
        else if ad.rpIdHash != cfg.appIdHash then Err(RpIdMismatch)
        else if ad.signCount <= storedCount then Err(CounterReplay)
        else Ok(ad.signCount)
  }

  /**
   * In the wire's own terms: the assertions accepted are the signed 37-byte layouts, and their
   * extensions, that count on.
   */
  lemma AssertionAcceptedExactlyWhen(cfg: Config, authData: Bytes, signed: bool, storedCount: nat, count: nat)
    requires |cfg.appIdHash| == 32
    ensures VerifyAssertion(cfg, authData, signed, storedCount) == Ok(count) <==>
              && signed && storedCount < count < 0x1_0000_0000
              && exists flags: Byte, rest :: !AtFlag(flags) && authData == Layout(cfg.appIdHash, flags, count, rest)
  {
    if VerifyAssertion(cfg, authData, signed, storedCount) == Ok(count) {
      AcceptedIsLayout(authData);
      assert authData == Layout(cfg.appIdHash, authData[32], count, authData[37..]);
    }
    if storedCount < count < 0x1_0000_0000 {
      forall flags: Byte, rest | !AtFlag(flags) && authData == Layout(cfg.appIdHash, flags, count, rest)
        ensures signed ==> VerifyAssertion(cfg, authData, signed, storedCount) == Ok(count)
      {
        ParseReadsLayout(cfg.appIdHash, flags, count, rest);
      }
    }
  }

  /**
   * And the attestations accepted: the genuine layouts for this app, of a key not yet used, whose
   * credential data begins with the configured aaguid.
   */
  lemma AttestationAcceptedExactlyWhen(cfg: Config, authData: Bytes, genuine: bool)
    requires |cfg.appIdHash| == 32 && |cfg.aaguid| == 16
    ensures VerifyAttestation(cfg, authData, genuine).Ok? <==>
              && genuine
              && exists flags: Byte, rest :: AtFlag(flags) && 2 <= |rest|
                                             && authData == Layout(cfg.appIdHash, flags, 0, cfg.aaguid + rest)
    ensures VerifyAttestation(cfg, authData, genuine).Ok? ==> VerifyAttestation(cfg, authData, genuine).value == 0
  {
    if VerifyAttestation(cfg, authData, genuine).Ok? {
      AcceptedIsLayout(authData);
      var rest := authData[53..];
      assert authData[37..] == cfg.aaguid + rest;
      assert authData == Layout(cfg.appIdHash, authData[32], 0, cfg.aaguid + rest);
    }
    forall flags: Byte, rest: Bytes
      | AtFlag(flags) && 2 <= |rest| && authData == Layout(cfg.appIdHash, flags, 0, cfg.aaguid + rest)
      ensures genuine ==> VerifyAttestation(cfg, authData, genuine).Ok?
    {
      ParseReadsLayout(cfg.appIdHash, flags, 0, cfg.aaguid + rest);
      assert (cfg.aaguid + rest)[..16] == cfg.aaguid;
    }
  }

  // ---- the device update ------------------------------------------------------------------------

  /** enforce_attest_counter_monotonic, which fires only on a changed counter. */
  predicate TriggerRejects(before: nat, after: nat)
  {
    after != before && after <= before && 0 < before
  }

  function MarkAttested(cfg: Config, d: Device, clientKey: Bytes, now: int): Device
  {
    d.(isAttested := true, attestedUntil := now + cfg.attestationTtlMs, clientKey := Some(clientKey))
  }

  predicate KeyTaken(devices: seq<Device>, key: nat, d: nat)
  {
    exists e | 0 <= e < |devices| :: e != d && devices[e].key == Some(key)
  }

  /**
   * The verdict and the devices it leaves; an error rolls the transaction back. An Android
   * verdict is written without a look at whether there is a row to write it to.
   */
  function Judge(cfg: Config, devices: seq<Device>, d: nat, clientKey: Bytes, payload: Payload, now: int)
    : Result<seq<Device>, AttestError>
  {
    match payload
    case Android(genuine) =>
      if !genuine then Err(NotGenuine)
      else Ok(if d < |devices| then devices[d := MarkAttested(cfg, devices[d], clientKey, now)] else devices)
    case IosAttest(keyId, authData, genuine) =>
      if |devices| <= d then Err(DeviceNotFound)
      else if KeyTaken(devices, keyId, d) then Err(KeyBoundElsewhere)
      else
        var r := VerifyAttestation(cfg, authData, genuine);
        if r.Err? then Err(r.error)
        else if TriggerRejects(devices[d].counter, r.value) then Err(CounterTrigger)
        else Ok(devices[d := MarkAttested(cfg, devices[d].(key := Some(keyId), counter := r.value), clientKey, now)])
    case IosAssert(keyId, authData, signed) =>
      if |devices| <= d then Err(DeviceNotFound)
      else if devices[d].key != Some(keyId) then Err(KeyNotRegistered)
      else
        var r := VerifyAssertion(cfg, authData, signed, devices[d].counter);
        if r.Err? then Err(r.error)
        else if TriggerRejects(devices[d].counter, r.value) then Err(CounterTrigger)
        else Ok(devices[d := MarkAttested(cfg, devices[d].(counter := r.value), clientKey, now)])
  }

  /** The platform's own verdict on a payload. */
  predicate Good(payload: Payload)
  {
    match payload
    case Android(genuine) => genuine
    case IosAttest(_, _, genuine) => genuine
    case IosAssert(_, _, signed) => signed
  }

  /** What a verdict rests on besides: for App Attest the device, its key and what the verifier reads. */
  predicate Acceptable(cfg: Config, devices: seq<Device>, d: nat, payload: Payload)
  {
    match payload
    case Android(_) => true
    case IosAttest(keyId, authData, genuine) =>
      && d < |devices| && devices[d].counter == 0 && !KeyTaken(devices, keyId, d)
      && VerifyAttestation(cfg, authData, genuine).Ok?
    case IosAssert(keyId, authData, signed) =>
      && d < |devices| && devices[d].key == Some(keyId)
      && VerifyAssertion(cfg, authData, signed, devices[d].counter).Ok?
  }

  /**
   * A verify is accepted exactly on a good verdict that fits the device. It attests that device from
   * now on for the configured time and binds the client key; the App Attest key and counter become
   * those of the payload, if it carries any; and no other device changes.
   */
  lemma VerdictAcceptedExactlyWhen(cfg: Config, devices: seq<Device>, d: nat, clientKey: Bytes, payload: Payload,
                                   now: int)
    ensures Judge(cfg, devices, d, clientKey, payload, now).Ok? <==>
              Good(payload) && Acceptable(cfg, devices, d, payload)
    ensures Judge(cfg, devices, d, clientKey, payload, now).Ok? ==>
              var devices' := Judge(cfg, devices, d, clientKey, payload, now).value;
              && |devices'| == |devices|
              && (forall e | 0 <= e < |devices| && e != d :: devices'[e] == devices[e])
              && (d < |devices| ==>
                    && devices'[d].isAttested && devices'[d].attestedUntil == now + cfg.attestationTtlMs
                    && devices'[d].clientKey == Some(clientKey)
                    && devices'[d].key == (if payload.IosAttest? then Some(payload.keyId) else devices[d].key)
                    && (payload.Android? ==> devices'[d].counter == devices[d].counter)
                    && (payload.IosAttest? ==> devices'[d].counter == 0)
                    && (payload.IosAssert? ==> Parse(payload.assertData).Ok?
                                               && devices'[d].counter == Parse(payload.assertData).value.signCount))
  {}

  function Issue(cfg: Config, challenges: seq<Challenge>, devices: nat, d: nat, now: int): seq<Challenge>
  {
    if d < devices then challenges + [Challenge(d, now + cfg.challengeTtlMs, false)] else challenges
  }

  function Consume(challenges: seq<Challenge>, c: nat, d: nat, clientKey: Bytes, now: int)
    : Result<seq<Challenge>, AttestError>
  {
    if |clientKey| != 32 then Err(BadPubkeyLen)
    else if |challenges| <= c || challenges[c].device != d then Err(ChallengeNotFound)
    else if challenges[c].consumed then Err(ChallengeUsed)
    else if challenges[c].expiresAt <= now then Err(ChallengeExpired)
    else Ok(challenges[c := challenges[c].(consumed := true)])
  }

  /** A challenge is taken exactly once, before it expires, by the device it was issued to, with a whole key. */
  lemma ChallengeTakenExactlyWhen(challenges: seq<Challenge>, c: nat, d: nat, clientKey: Bytes, now: int)
    ensures var r := Consume(challenges, c, d, clientKey, now);
            && (r.Ok? <==> && |clientKey| == 32 && c < |challenges| && challenges[c].device == d
                           && !challenges[c].consumed && now < challenges[c].expiresAt)
            && (r.Ok? ==> r.value == challenges[c := challenges[c].(consumed := true)])
            && (r == Err(BadPubkeyLen) <==> |clientKey| != 32)
            && (r == Err(ChallengeNotFound) <==>
                  |clientKey| == 32 && (|challenges| <= c || challenges[c].device != d))
            && (r == Err(ChallengeUsed) <==>
                  |clientKey| == 32 && c < |challenges| && challenges[c].device == d && challenges[c].consumed)
            && (r.Err? ==> r.error in {BadPubkeyLen, ChallengeNotFound, ChallengeUsed, ChallengeExpired})
  {}

  /** A challenge just issued serves its device until its time is over, and nobody else. */
  lemma IssuedChallengeServes(cfg: Config, challenges: seq<Challenge>, devices: nat, d: nat, now: int, e: nat,
                              clientKey: Bytes, later: int)
    ensures challenges <= Issue(cfg, challenges, devices, d, now)
    ensures Consume(Issue(cfg, challenges, devices, d, now), |challenges|, e, clientKey, later).Ok? <==>
              d < devices && e == d && |clientKey| == 32 && later < now + cfg.challengeTtlMs
  {}

  // ---- the protocol --------------------------------------------------------------------------------

  /** A verify between its two transactions. */
  datatype Flight = Verifying(device: nat, clientKey: Bytes, payload: Payload) | Ended

  datatype State = State(clock: int, devices: seq<Device>, challenges: seq<Challenge>, flights: seq<Flight>)

  datatype Action =
    | Wait(ms: nat)
    | Enroll
    | CreateChallenge(device: nat)
    | Begin(challenge: nat, device: nat, clientKey: Bytes, payload: Payload)
    | Finish(flight: nat)
    | Crash(flight: nat)

  function Step(cfg: Config, s: State, a: Action): State
  {
    match a
    case Wait(ms) => s.(clock := s.clock + ms)
    case Enroll => s.(devices := s.devices + [Device(None, 0, false, 0, None)])
    case CreateChallenge(d) =>
      s.(challenges := Issue(cfg, s.challenges, |s.devices|, d, s.clock))
    case Begin(c, d, clientKey, payload) =>
      var r := Consume(s.challenges, c, d, clientKey, s.clock);
      if r.Ok? then s.(challenges := r.value, flights := s.flights + [Verifying(d, clientKey, payload)]) else s
    case Finish(f) =>
      if f < |s.flights| && s.flights[f].Verifying? then
        var fl := s.flights[f];
        var r := Judge(cfg, s.devices, fl.device, fl.clientKey, fl.payload, s.clock);
        s.(devices := if r.Ok? then r.value else s.devices, flights := s.flights[f := Ended])
      else s
    case Crash(f) => if f < |s.flights| then s.(flights := s.flights[f := Ended]) else s
  }

  function Run(cfg: Config, s: State, actions: seq<Action>): State
    decreases |actions|
  {
    if actions == [] then s else Run(cfg, Step(cfg, s, actions[0]), actions[1..])
  }

  // ---- challenges ------------------------------------------------------------------------------------

  predicate IsConsumed(s: State, c: nat) { c < |s.challenges| && s.challenges[c].consumed }

  /** How many steps of a run consume challenge c. */
  function Consumptions(cfg: Config, s: State, actions: seq<Action>, c: nat): nat
    decreases |actions|
  {
    if actions == [] then 0
    else
      var next := Step(cfg, s, actions[0]);
      (if Consumes(cfg, s, actions[0], c) then 1 else 0) + Consumptions(cfg, next, actions[1..], c)
  }

  /** The step is a verify that gets past the challenge check with challenge c. */
  predicate Consumes(cfg: Config, s: State, a: Action, c: nat)
  {
    a.Begin? && a.challenge == c && Consume(s.challenges, c, a.device, a.clientKey, s.clock).Ok?
  }

  /** Whatever becomes of the verification, a challenge serves once in a run, and never again once it has. */
  lemma {:induction false} ChallengeServesOnce(cfg: Config, s: State, actions: seq<Action>, c: nat)
    ensures Consumptions(cfg, s, actions, c) <= if IsConsumed(s, c) then 0 else 1
    ensures IsConsumed(s, c) || 0 < Consumptions(cfg, s, actions, c) ==> IsConsumed(Run(cfg, s, actions), c)
    decreases |actions|
  {
    if actions != [] {
      ChallengeServesOnce(cfg, Step(cfg, s, actions[0]), actions[1..], c);
    }
  }

  // ---- counters -----------------------------------------------------------------------------------------

  function CounterOf(s: State, d: nat): nat { if d < |s.devices| then s.devices[d].counter else 0 }

  /** The verify of device d that a step completes with acceptance, if it does. */
  function AcceptedIn(cfg: Config, s: State, a: Action, d: nat): Option<Flight>
  {
    if a.Finish? && a.flight < |s.flights| && s.flights[a.flight].Verifying? && s.flights[a.flight].device == d
       && Judge(cfg, s.devices, d, s.flights[a.flight].clientKey, s.flights[a.flight].payload, s.clock).Ok?
    then Some(s.flights[a.flight]) else None
  }

  function Accepted(cfg: Config, s: State, actions: seq<Action>, d: nat): seq<Flight>
    decreases |actions|
  {
    if actions == [] then []
    else
      var first := AcceptedIn(cfg, s, actions[0], d);
      (if first.Some? then [first.value] else []) + Accepted(cfg, Step(cfg, s, actions[0]), actions[1..], d)
  }

  /** The count an accepted assertion carries. */
  function CountIn(fl: Flight): nat
  {
    if fl.Verifying? && fl.payload.IosAssert? && Parse(fl.payload.assertData).Ok?
    then Parse(fl.payload.assertData).value.signCount else 0
  }

  predicate IsAssertion(fl: Flight) { fl.Verifying? && fl.payload.IosAssert? }

  lemma StepCounts(cfg: Config, s: State, a: Action, d: nat)
    ensures var s', acc := Step(cfg, s, a), AcceptedIn(cfg, s, a, d);
            && CounterOf(s, d) <= CounterOf(s', d)
            && (acc.Some? && IsAssertion(acc.value) ==> CounterOf(s, d) < CountIn(acc.value) == CounterOf(s', d))
  {}

  /** The assertions among the accepted verifies carry strictly increasing counts, above `low` and up to `high`. */
  ghost predicate Rising(accepted: seq<Flight>, low: nat, high: nat)
  {
    && (forall i | 0 <= i < |accepted| && IsAssertion(accepted[i]) :: low < CountIn(accepted[i]) <= high)
    && (forall i, j | 0 <= i < j < |accepted| && IsAssertion(accepted[i]) && IsAssertion(accepted[j]) ::
          CountIn(accepted[i]) < CountIn(accepted[j]))
  }

  lemma RisingFromFirst(first: Flight, later: seq<Flight>, low: nat, mid: nat, high: nat)
    requires Rising(later, mid, high) && low <= mid <= high
    requires IsAssertion(first) ==> low < CountIn(first) == mid
    ensures Rising([first] + later, low, high)
  {}

  /**
   * Over every run a device's counter never decreases, and the assertions accepted for it
   * carry strictly increasing counts, all above where it started: none is accepted twice.
   */
  lemma {:induction false} CountersOnlyRise(cfg: Config, s: State, actions: seq<Action>, d: nat)
    ensures CounterOf(s, d) <= CounterOf(Run(cfg, s, actions), d)
    ensures Rising(Accepted(cfg, s, actions, d), CounterOf(s, d), CounterOf(Run(cfg, s, actions), d))
    decreases |actions|
  {
    if actions != [] {
      var next, rest := Step(cfg, s, actions[0]), actions[1..];
      var first, later := AcceptedIn(cfg, s, actions[0], d), Accepted(cfg, next, rest, d);
      StepCounts(cfg, s, actions[0], d);
      CountersOnlyRise(cfg, next, rest, d);
      if first.Some? {
        RisingFromFirst(first.value, later, CounterOf(s, d), CounterOf(next, d), CounterOf(Run(cfg, s, actions), d));
        assert Accepted(cfg, s, actions, d) == [first.value] + later;
      } else {
        assert Accepted(cfg, s, actions, d) == later;
      }
    }
  }

  lemma NoAssertionIsAcceptedTwice(cfg: Config, s: State, actions: seq<Action>, d: nat, i: nat, j: nat)
    requires i < j < |Accepted(cfg, s, actions, d)|
    requires IsAssertion(Accepted(cfg, s, actions, d)[i]) && IsAssertion(Accepted(cfg, s, actions, d)[j])
    ensures Accepted(cfg, s, actions, d)[i].payload.assertData != Accepted(cfg, s, actions, d)[j].payload.assertData
  {
    CountersOnlyRise(cfg, s, actions, d);
  }

  /** Once an assertion has moved the counter, the trigger lets no device register a key again. */
  lemma RegistrationNeedsUnusedCounter(cfg: Config, devices: seq<Device>, d: nat, clientKey: Bytes, keyId: nat,
                                       authData: Bytes, genuine: bool, now: int)
    requires d < |devices|
    ensures Judge(cfg, devices, d, clientKey, IosAttest(keyId, authData, genuine), now).Ok? <==>
              && devices[d].counter == 0 && !KeyTaken(devices, keyId, d)
              && VerifyAttestation(cfg, authData, genuine).Ok?
  {}

  predicate IsRegistration(fl: Flight) { fl.Verifying? && fl.payload.IosAttest? }

  /** Once the counter has moved, no registration of the device is accepted in any run. */
  lemma {:induction false} NoRegistrationOnceMoved(cfg: Config, s: State, actions: seq<Action>, d: nat)
    requires 0 < CounterOf(s, d)
    ensures forall i | 0 <= i < |Accepted(cfg, s, actions, d)| :: !IsRegistration(Accepted(cfg, s, actions, d)[i])
    decreases |actions|
  {
    if actions != [] {
      StepCounts(cfg, s, actions[0], d);
      NoRegistrationOnceMoved(cfg, Step(cfg, s, actions[0]), actions[1..], d);
    }
  }

  /** So over every run: after an accepted assertion of a device no registration of it is accepted. */
  lemma {:induction false} AssertionEndsRegistration(cfg: Config, s: State, actions: seq<Action>, d: nat,
                                                     i: nat, j: nat)
    requires i < j < |Accepted(cfg, s, actions, d)| && IsAssertion(Accepted(cfg, s, actions, d)[i])
    ensures !IsRegistration(Accepted(cfg, s, actions, d)[j])
    decreases |actions|
  {
    var next, rest := Step(cfg, s, actions[0]), actions[1..];
    var first, later := AcceptedIn(cfg, s, actions[0], d), Accepted(cfg, next, rest, d);
    if first.None? {
      assert Accepted(cfg, s, actions, d) == later;
      AssertionEndsRegistration(cfg, next, rest, d, i, j);
    } else {
      assert Accepted(cfg, s, actions, d) == [first.value] + later;
      if i == 0 {
        StepCounts(cfg, s, actions[0], d);
        NoRegistrationOnceMoved(cfg, next, rest, d);
      } else {
        AssertionEndsRegistration(cfg, next, rest, d, i - 1, j - 1);
      }
    }
  }

  // ---- keys ------------------------------------------------------------------------------------------------

  /** The client key of the last accepted verify in a run, or what was bound before. */
  function LastKey(before: Option<Bytes>, accepted: seq<Flight>): Option<Bytes>
  {
    if accepted == [] then before
    else if accepted[|accepted| - 1].Verifying? then Some(accepted[|accepted| - 1].clientKey) else before
  }

  lemma StepBinds(cfg: Config, s: State, a: Action, d: nat)
    requires d < |s.devices|
    ensures d < |Step(cfg, s, a).devices|
    ensures var acc := AcceptedIn(cfg, s, a, d);
            Step(cfg, s, a).devices[d].clientKey == if acc.Some? then Some(acc.value.clientKey)
                else s.devices[d].clientKey
    ensures AcceptedIn(cfg, s, a, d).None? ==> Step(cfg, s, a).devices[d] == s.devices[d]
  {}

  /** The client key bound to a device is that of its last accepted verify. */
  lemma {:induction false} BoundKeyIsLastAccepted(cfg: Config, s: State, actions: seq<Action>, d: nat)
    requires d < |s.devices|
    ensures d < |Run(cfg, s, actions).devices|
    ensures Run(cfg, s, actions).devices[d].clientKey == LastKey(s.devices[d].clientKey, Accepted(cfg, s, actions, d))
    ensures forall i | 0 <= i < |Accepted(cfg, s, actions, d)| :: Accepted(cfg, s, actions, d)[i].Verifying?
    decreases |actions|
  {
    if actions != [] {
      var next, rest := Step(cfg, s, actions[0]), actions[1..];
      var first, later := AcceptedIn(cfg, s, actions[0], d), Accepted(cfg, next, rest, d);
      StepBinds(cfg, s, actions[0], d);
      BoundKeyIsLastAccepted(cfg, next, rest, d);
      if first.Some? {
        assert Accepted(cfg, s, actions, d) == [first.value] + later;
      } else {
        assert Accepted(cfg, s, actions, d) == later;
      }
    }
  }

  // ---- what acceptance rests on ------------------------------------------------------------------------------

  /** When a device's last accepted verify of a run was concluded. */
  function LastAcceptedAt(cfg: Config, s: State, actions: seq<Action>, d: nat): Option<int>
    decreases |actions|
  {
    if actions == [] then None
    else
      var later := LastAcceptedAt(cfg, Step(cfg, s, actions[0]), actions[1..], d);
      if later.Some? then later else if AcceptedIn(cfg, s, actions[0], d).Some? then Some(s.clock) else None
  }

  lemma StepAttests(cfg: Config, s: State, a: Action, d: nat)
    requires d < |s.devices|
    ensures var s', acc := Step(cfg, s, a), AcceptedIn(cfg, s, a, d);
            && d < |s'.devices|
            && (acc.Some? ==> acc.value.Verifying? && Good(acc.value.payload) && s'.devices[d].isAttested
                              && s'.devices[d].attestedUntil == s.clock + cfg.attestationTtlMs)
            && (acc.None? ==> s'.devices[d] == s.devices[d])
  {
    if AcceptedIn(cfg, s, a, d).Some? {
      var fl := s.flights[a.flight];
      VerdictAcceptedExactlyWhen(cfg, s.devices, d, fl.clientKey, fl.payload, s.clock);
    } else {
      StepBinds(cfg, s, a, d);
    }
  }

  /**
   * Over every run each accepted verify carries a good verdict, and a device is attested at its end,
   * and until when, by the last of them, or as it was at the start if there is none.
   */
  lemma {:induction false} OnlyGoodVerdictsAttest(cfg: Config, s: State, actions: seq<Action>, d: nat)
    requires d < |s.devices|
    ensures forall i | 0 <= i < |Accepted(cfg, s, actions, d)| ::
              Accepted(cfg, s, actions, d)[i].Verifying? && Good(Accepted(cfg, s, actions, d)[i].payload)
    ensures var s', last := Run(cfg, s, actions), LastAcceptedAt(cfg, s, actions, d);
            && d < |s'.devices| && (last.Some? <==> Accepted(cfg, s, actions, d) != [])
            && (last.Some? ==> s'.devices[d].isAttested
                               && s'.devices[d].attestedUntil == last.value + cfg.attestationTtlMs)
            && (last.None? ==> s'.devices[d] == s.devices[d])
    decreases |actions|
  {
    if actions != [] {
      var next, rest := Step(cfg, s, actions[0]), actions[1..];
      var first, later := AcceptedIn(cfg, s, actions[0], d), Accepted(cfg, next, rest, d);
      StepAttests(cfg, s, actions[0], d);
      OnlyGoodVerdictsAttest(cfg, next, rest, d);
      assert Accepted(cfg, s, actions, d) == (if first.Some? then [first.value] else []) + later;
    }
  }

  // ---- every acceptance takes a challenge ---------------------------------------------------------------------

  function ConsumedBy(d: nat): Challenge -> bool { (c: Challenge) => c.device == d && c.consumed }

  function VerifyingFor(d: nat): Flight -> bool { (fl: Flight) => fl.Verifying? && fl.device == d }

  /** Challenges of the device taken, beyond the verifies of it still under way. */
  function Spent(s: State, d: nat): int
  {
    Sum(s.challenges, Indicator(ConsumedBy(d))) - Sum(s.flights, Indicator(VerifyingFor(d)))
  }

  lemma EndingSpends(s: State, f: nat, s': State, d: nat)
    requires f < |s.flights| && s' == s.(devices := s'.devices, flights := s.flights[f := Ended])
    ensures Spent(s', d) == Spent(s, d) + if VerifyingFor(d)(s.flights[f]) then 1 else 0
  {
    SumUpdate(s.flights, f, Ended, Indicator(VerifyingFor(d)));
  }

  lemma BeginSpends(cfg: Config, s: State, c: nat, e: nat, clientKey: Bytes, payload: Payload, d: nat)
    ensures Spent(Step(cfg, s, Begin(c, e, clientKey, payload)), d) == Spent(s, d)
  {
    var r := Consume(s.challenges, c, e, clientKey, s.clock);
    if r.Ok? {
      SumUpdate(s.challenges, c, r.value[c], Indicator(ConsumedBy(d)));
      SumPush(s.flights, Verifying(e, clientKey, payload), Indicator(VerifyingFor(d)));
    }
  }

  lemma StepSpends(cfg: Config, s: State, a: Action, d: nat)
    ensures Spent(Step(cfg, s, a), d) >= Spent(s, d) + if AcceptedIn(cfg, s, a, d).Some? then 1 else 0
  {
    match a
    case Begin(c, e, clientKey, payload) => BeginSpends(cfg, s, c, e, clientKey, payload, d);
    case Finish(f) => if f < |s.flights| && s.flights[f].Verifying? { EndingSpends(s, f, Step(cfg, s, a), d); }
    case Crash(f) => if f < |s.flights| { EndingSpends(s, f, Step(cfg, s, a), d); }
    case CreateChallenge(e) =>
      if e < |s.devices| {
        SumPush(s.challenges, Challenge(e, s.clock + cfg.challengeTtlMs, false), Indicator(ConsumedBy(d)));
      }
    case _ =>
  }

  lemma {:induction false} RunSpends(cfg: Config, s: State, actions: seq<Action>, d: nat)
    ensures Spent(Run(cfg, s, actions), d) >= Spent(s, d) + |Accepted(cfg, s, actions, d)|
    decreases |actions|
  {
    if actions != [] {
      StepSpends(cfg, s, actions[0], d);
      RunSpends(cfg, Step(cfg, s, actions[0]), actions[1..], d);
    }
  }

  /** From a fresh start, no device has more verifies accepted than challenges issued to it and taken. */
  lemma AcceptancesTakeChallenges(cfg: Config, clock: int, actions: seq<Action>, d: nat)
    ensures var s := State(clock, [], [], []);
            |Accepted(cfg, s, actions, d)| <= Sum(Run(cfg, s, actions).challenges, Indicator(ConsumedBy(d)))
  {
    var s := State(clock, [], [], []);
    RunSpends(cfg, s, actions, d);
    SumNonNegative(Run(cfg, s, actions).flights, Indicator(VerifyingFor(d)));
  }

  ghost predicate KeysDistinct(devices: seq<Device>)
  {
    forall d, e | 0 <= d < e < |devices| && devices[d].key.Some? :: devices[d].key != devices[e].key
  }

  lemma StepKeepsKeysDistinct(cfg: Config, s: State, a: Action)
    requires KeysDistinct(s.devices)
    ensures KeysDistinct(Step(cfg, s, a).devices)
  {}

  /** No App Attest key is ever registered to two devices. */
  lemma {:induction false} KeysStayDistinct(cfg: Config, s: State, actions: seq<Action>)
    requires KeysDistinct(s.devices)
    ensures KeysDistinct(Run(cfg, s, actions).devices)
    decreases |actions|
  {
    if actions != [] {
      StepKeepsKeysDistinct(cfg, s, actions[0]);
      KeysStayDistinct(cfg, Step(cfg, s, actions[0]), actions[1..]);
    }
  }

  // ---- the service ---------------------------------------------------------------------------------------------

  class AttestService {
    const cfg: Config
    var devices: seq<Device>
    var challenges: seq<Challenge>

    constructor (cfg: Config)
      ensures this.cfg == cfg && devices == [] && challenges == []
    {
      this.cfg, devices, challenges := cfg, [], [];
    }

    /** A device that does not exist violates the foreign key. */
    method NewChallenge(d: nat, now: int) returns (c: Result<nat, AttestError>)
      modifies this`challenges
      ensures c == if d < |devices| then Ok(old(|challenges|)) else Err(DeviceNotFound)
      ensures challenges == Issue(cfg, old(challenges), |devices|, d, now)
    {
      if |devices| <= d { return Err(DeviceNotFound); }
      challenges := challenges + [Challenge(d, now + cfg.challengeTtlMs, false)];
      c := Ok(|challenges| - 1);
    }

    /** The first transaction of verify. */
    method ConsumeChallenge(c: nat, d: nat, clientKey: Bytes, now: int) returns (r: Result<(), AttestError>)
      modifies this`challenges
      ensures match Consume(old(challenges), c, d, clientKey, now)
              case Ok(after) => r.Ok? && challenges == after
              case Err(e) => r == Err(e) && challenges == old(challenges)
    {
      if |clientKey| != 32 { return Err(BadPubkeyLen); }
      if |challenges| <= c || challenges[c].device != d { return Err(ChallengeNotFound); }
      if challenges[c].consumed { return Err(ChallengeUsed); }
      if challenges[c].expiresAt <= now { return Err(ChallengeExpired); }
      challenges := challenges[c := challenges[c].(consumed := true)];
      r := Ok(());
    }

    /** The second: a trigger's exception undoes the update it objects to. */
    method Conclude(d: nat, clientKey: Bytes, payload: Payload, now: int) returns (r: Result<(), AttestError>)
      modifies this`devices
      ensures match Judge(cfg, old(devices), d, clientKey, payload, now)
              case Ok(after) => r.Ok? && devices == after
              case Err(e) => r == Err(e) && devices == old(devices)
    {
      if payload.Android? {
        if !payload.genuine { return Err(NotGenuine); }
        if d < |devices| { devices := devices[d := MarkAttested(cfg, devices[d], clientKey, now)]; }
        return Ok(());
      }
      if |devices| <= d { return Err(DeviceNotFound); }
      var begin := devices;
      match payload {
        case Android(_) =>
        case IosAttest(keyId, authData, genuine) =>
          if KeyTaken(devices, keyId, d) { return Err(KeyBoundElsewhere); }
          var res := VerifyAttestation(cfg, authData, genuine);
          if res.Err? { return Err(res.error); }
          devices := devices[d := devices[d].(key := Some(keyId), counter := res.value)];
        case IosAssert(keyId, authData, signed) =>
          if devices[d].key != Some(keyId) { return Err(KeyNotRegistered); }
          var res := VerifyAssertion(cfg, authData, signed, devices[d].counter);
          if res.Err? { return Err(res.error); }
          devices := devices[d := devices[d].(counter := res.value)];
      }
      if TriggerRejects(begin[d].counter, devices[d].counter) {
        devices := begin;
        return Err(CounterTrigger);
      }
      devices := devices[d := MarkAttested(cfg, devices[d], clientKey, now)];
      r := Ok(());
    }
  }
}
