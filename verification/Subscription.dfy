/** One attempt to subscribe to a characteristic: SubscriptionAttemptState of
    subscription_state.h. The framework may write the CCCD itself (Bluetooth Core, Vol 3 Part G,
    section 3.3.3.3); after a delay the component takes over, once. */
module Subscription {
  import opened Integers

  const CCCD_FALLBACK_DELAY_MS: uint32 := 250

  datatype Stage = Idle | Registering | WaitingForCccd

  datatype Decision = Unmatched | WaitForCccd | RetryCccd | Complete | Failed

  datatype Attempt = Attempt(
    stage: Stage, characteristicHandle: uint16, cccdHandle: uint16, fallbackAtMs: uint32, ownWriteAttempted: bool)

  const NO_ATTEMPT := Attempt(Idle, 0, 0, 0, false)

  function Begun(characteristicHandle: uint16, cccdHandle: uint16): Attempt {
    Attempt(Registering, characteristicHandle, cccdHandle, 0, false)
  }

  function RegistrationDecision(a: Attempt, handle: uint16, success: bool): Decision {
    if a.stage != Registering || handle != a.characteristicHandle then Unmatched
    else if !success then Failed
    else WaitForCccd
  }

  function Registered(a: Attempt, handle: uint16, success: bool, now: uint32): Attempt {
    match RegistrationDecision(a, handle, success)
    case Failed => a.(stage := Idle)
    case WaitForCccd => a.(stage := WaitingForCccd, fallbackAtMs := (now + CCCD_FALLBACK_DELAY_MS) % 0x1_0000_0000)
    case _ => a
  }

  predicate FallbackDue(a: Attempt, now: uint32) {
    && a.stage == WaitingForCccd && !a.ownWriteAttempted
    && AsInt32((now - a.fallbackAtMs) % 0x1_0000_0000) >= 0
  }

  function CccdDecision(a: Attempt, handle: uint16, success: bool): Decision {
    if a.stage != WaitingForCccd || handle != a.cccdHandle then Unmatched
    else if success then Complete
    else if !a.ownWriteAttempted then RetryCccd
    else Failed
  }

  function CccdWritten(a: Attempt, handle: uint16, success: bool): Attempt {
    var decision := CccdDecision(a, handle, success);
    if decision == Complete || decision == Failed then a.(stage := Idle) else a
  }

  /** The fallback is due exactly from the delay on, across wraps of millis(), as long as less than
      2^31 ms have passed since. */
  lemma DueFromDelayOn(a: Attempt, since: nat, now: nat)
    requires a.stage == WaitingForCccd && !a.ownWriteAttempted
    requires a.fallbackAtMs == Wrapped(since + CCCD_FALLBACK_DELAY_MS)
    requires since <= now < since + CCCD_FALLBACK_DELAY_MS + 0x8000_0000
    ensures FallbackDue(a, Wrapped(now)) <==> now >= since + CCCD_FALLBACK_DELAY_MS
  {
    var M := 0x1_0000_0000;
    var at := since + CCCD_FALLBACK_DELAY_MS;
    if now >= at {
      WrappedDistance(at, now);
      assert (now - at) % M == now - at;
    } else {
      WrappedDistance(now, at);
      assert (at - now) % M == at - now;
      Opposite(Wrapped(now), Wrapped(at), at - now);
    }
  }

  lemma FallbackFromDelayOn(a: Attempt, handle: uint16, registeredAt: nat, now: nat)
    requires RegistrationDecision(a, handle, true) == WaitForCccd && !a.ownWriteAttempted
    requires registeredAt <= now < registeredAt + CCCD_FALLBACK_DELAY_MS + 0x8000_0000
    ensures FallbackDue(Registered(a, handle, true, Wrapped(registeredAt)), Wrapped(now))
      <==> now >= registeredAt + CCCD_FALLBACK_DELAY_MS
  {
    assert (Wrapped(registeredAt) + CCCD_FALLBACK_DELAY_MS) % 0x1_0000_0000
      == Wrapped(registeredAt + CCCD_FALLBACK_DELAY_MS);
    DueFromDelayOn(Registered(a, handle, true, Wrapped(registeredAt)), registeredAt, now);
  }

  lemma Opposite(a: uint32, b: uint32, d: nat)
    requires 0 < d < 0x1_0000_0000 && (b - a) % 0x1_0000_0000 == d
    ensures (a - b) % 0x1_0000_0000 == 0x1_0000_0000 - d
  {
  }

  class SubscriptionAttemptState {
    var stage: Stage
    var characteristicHandle: uint16
    var cccdHandle: uint16
    var fallbackAtMs: uint32
    var ownWriteAttempted: bool

    function Snapshot(): Attempt
      reads this
    {
      Attempt(stage, characteristicHandle, cccdHandle, fallbackAtMs, ownWriteAttempted)
    }

    constructor ()
      ensures Snapshot() == NO_ATTEMPT
    {
      stage, characteristicHandle, cccdHandle, fallbackAtMs, ownWriteAttempted := Idle, 0, 0, 0, false;
    }

    method Begin(characteristicHandle: uint16, cccdHandle: uint16)
      modifies this
      ensures Snapshot() == Begun(characteristicHandle, cccdHandle)
    {
      this.characteristicHandle := characteristicHandle;
      this.cccdHandle := cccdHandle;
      stage := Registering;
      ownWriteAttempted := false;
      fallbackAtMs := 0;
    }

    method Reset()
      modifies this
      ensures Snapshot() == NO_ATTEMPT
    {
      characteristicHandle, cccdHandle, stage, ownWriteAttempted, fallbackAtMs := 0, 0, Idle, false, 0;
    }

    method RegistrationResult(handle: uint16, success: bool, now: uint32) returns (decision: Decision)
      modifies this
      ensures decision == RegistrationDecision(old(Snapshot()), handle, success)
      ensures Snapshot() == Registered(old(Snapshot()), handle, success, now)
    {
      if stage != Registering || handle != characteristicHandle {
        return Unmatched;
      }
      if !success {
        stage := Idle;
        return Failed;
      }
      stage := WaitingForCccd;
      fallbackAtMs := (now + CCCD_FALLBACK_DELAY_MS) % 0x1_0000_0000;
      decision := WaitForCccd;
    }

    method FallbackDueAt(now: uint32) returns (due: bool)
      ensures due == FallbackDue(Snapshot(), now)
    {
      due := stage == WaitingForCccd && !ownWriteAttempted && AsInt32((now - fallbackAtMs) % 0x1_0000_0000) >= 0;
    }

    method OwnCccdWriteAttempted()
      modifies this
      ensures Snapshot() == old(Snapshot()).(ownWriteAttempted := true)
    {
      ownWriteAttempted := true;
    }

    method CccdResult(handle: uint16, success: bool) returns (decision: Decision)
      modifies this
      ensures decision == CccdDecision(old(Snapshot()), handle, success)
      ensures Snapshot() == CccdWritten(old(Snapshot()), handle, success)
    {
      if stage != WaitingForCccd || handle != cccdHandle {
        return Unmatched;
      }
      if success {
        stage := Idle;
        return Complete;
      }
      if !ownWriteAttempted {
        return RetryCccd;
      }
      stage := Idle;
      decision := Failed;
    }
  }
}
