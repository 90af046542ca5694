/**
 * The lock-screen carrier label as an object: its configuration, whether the
 * telephony stack is up, and one sticky I/O-error flag per SIM slot, with the
 * callbacks that update them and the recompute that produces the text.
 */
module Keyguard {
  import opened CarrierTypes
  import opened Messages
  import opened CarrierNames
  import opened Resolution

  class CarrierText {
    const cfg: Config
    var telephonyCapable: bool
    /** One flag per SIM slot: the last state reported for the slot mapped to `SimIoError`. */
    const simErrorState: array<bool>

    /** A label for a device with `phoneCount` SIM slots: no slot faulty, telephony not yet up. */
    constructor (cfg: Config, phoneCount: nat)
      ensures this.cfg == cfg && !telephonyCapable
      ensures fresh(simErrorState) && simErrorState.Length == phoneCount
      ensures forall i :: 0 <= i < phoneCount ==> !simErrorState[i]
    {
      this.cfg := cfg;
      telephonyCapable := false;
      simErrorState := new bool[phoneCount](_ => false);
    }

    /** Records whether telephony is up and recomputes the text. */
    method OnTelephonyCapable(capable: bool, snap: Snapshot) returns (text: Text)
      modifies this
      ensures telephonyCapable == capable
      ensures text == CarrierDisplayText(cfg, capable, simErrorState[..], snap)
    {
      telephonyCapable := capable;
      text := UpdateCarrierText(snap);
    }

    /**
     * Sets the slot's flag when the new state is an I/O error and clears it
     * otherwise; recomputes the text (the `Some` result) only when the flag
     * is or was set. A negative slot is ignored.
     */
    method OnSimStateChanged(subId: int, slotId: int, simState: Option<IccState>, snap: Snapshot)
      returns (refreshed: Option<Text>)
      requires slotId < simErrorState.Length
      modifies simErrorState
      ensures slotId < 0 ==> simErrorState[..] == old(simErrorState[..]) && refreshed.None?
      ensures slotId >= 0 ==>
        simErrorState[..] == old(simErrorState[..])[slotId := StatusForIccState(simState, snap.deviceProvisioned) == SimIoError]
      ensures slotId >= 0 ==>
        (refreshed.Some? <==> StatusForIccState(simState, snap.deviceProvisioned) == SimIoError || old(simErrorState[slotId]))
      ensures refreshed.Some? ==> refreshed.value == CarrierDisplayText(cfg, telephonyCapable, simErrorState[..], snap)
    {
      if slotId < 0 {
        return None;
      }
      if StatusForIccState(simState, snap.deviceProvisioned) == SimIoError {
        simErrorState[slotId] := true;
        var text := UpdateCarrierText(snap);
        refreshed := Some(text);
      } else if simErrorState[slotId] {
        simErrorState[slotId] := false;
        var text := UpdateCarrierText(snap);
        refreshed := Some(text);
      } else {
        refreshed := None;
      }
    }

    /**
     * Overlays "invalid card" for every faulty slot: in front for slot 0, at
     * the end for the others; with no SIM at all, the first faulty slot
     * replaces the text by "invalid card" and the emergency-calls text.
     */
    method UpdateCarrierTextWithSimIoError(text: Text, noSims: bool, provisioned: bool) returns (r: Text)
      ensures r == WithSimIoError(cfg, provisioned, text, noSims, simErrorState[..])
    {
      var carrierTextForSimIoError := CarrierTextForSimState(cfg, provisioned, Some(CardIoError), Str(""));
      r := text;
      for index := 0 to simErrorState.Length
        invariant r == OverlayUpTo(cfg, provisioned, text, simErrorState[..], index)
        invariant noSims ==> forall k :: 0 <= k < index ==> !simErrorState[k]
      {
        if simErrorState[index] {
          if noSims {
            assert AnyFlagSet(simErrorState[..]) by {
              assert simErrorState[..][index];
            }
            r := Str(Concatenate(cfg.separator, carrierTextForSimIoError, Str(cfg.emergencyCallsOnly)));
            return;
          } else if index == 0 {
            r := Str(Concatenate(cfg.separator, carrierTextForSimIoError, r));
          } else {
            r := Str(Concatenate(cfg.separator, r, carrierTextForSimIoError));
          }
        }
      }
    }

    /**
     * The fragment of one subscription: its network class, its carrier name
     * rewritten when locale or network-class display is on, and the text for
     * its SIM state.
     */
    method SubscriptionCarrierText(sub: SubSnapshot, provisioned: bool) returns (carrierTextForSimState: Text)
      ensures carrierTextForSimState == Fragment(cfg, provisioned, sub)
    {
      var networkClass := NetworkClassFor(cfg, sub);
      var carrierName := sub.info.carrierName;
      if (cfg.showLocale || cfg.showRat) && !IsEmpty(carrierName) {
        var newCarrierName := RewriteCarrierName(cfg, carrierName.s, networkClass);
        carrierName := Str(newCarrierName);
      }
      carrierTextForSimState := CarrierTextForSimState(cfg, provisioned, sub.simState, carrierName);
    }

    /**
     * The "no SIM" text: the missing-SIM message with the first
     * subscription's carrier name or, without subscriptions, with the
     * emergency-calls text or the sticky PLMN/SPN broadcast.
     */
    method MissingSimCarrierText(snap: Snapshot) returns (text: string)
      ensures text == MissingSimText(cfg, telephonyCapable, snap)
    {
      var subs := snap.subs;
      if |subs| != 0 {
        text := MakeCarrierStringOnEmergencyCapable(cfg, MissingSimMessage(cfg, telephonyCapable), subs[0].info.carrierName);
      } else {
        var emergencyText := Str(cfg.emergencyCallsOnly);
        if snap.spnBroadcast.Some? {
          var broadcast := snap.spnBroadcast.value;
          var spn := Str("");
          var plmn := Str("");
          if broadcast.showSpn {
            spn := broadcast.spn;
          }
          if broadcast.showPlmn {
            plmn := broadcast.plmn;
          }
          if plmn == spn {
            emergencyText := plmn;
          } else {
            emergencyText := Str(Concatenate(cfg.separator, plmn, spn));
          }
        }
        text := MakeCarrierStringOnEmergencyCapable(cfg, MissingSimMessage(cfg, telephonyCapable), emergencyText);
      }
    }

    /**
     * The loop of a recompute: the fragments of all subscriptions joined in
     * order, whether every one of them was missing, and whether some SIM is
     * ready and in service.
     */
    method FoldSubscriptions(snap: Snapshot) returns (displayText: Text, allSimsMissing: bool, anySimReadyAndInService: bool)
      ensures displayText == Accumulated(cfg, snap.deviceProvisioned, snap.subs)
      ensures allSimsMissing == AllSimsMissing(cfg, snap.deviceProvisioned, snap.subs)
      ensures anySimReadyAndInService == AnySimReadyAndInService(snap, snap.subs)
    {
      var provisioned := snap.deviceProvisioned;
      allSimsMissing := true;
      anySimReadyAndInService := false;
      displayText := Null;
      var subs := snap.subs;
      for i := 0 to |subs|
        invariant displayText == Accumulated(cfg, provisioned, subs[..i])
        invariant allSimsMissing == displayText.Null?
        invariant anySimReadyAndInService == AnySimReadyAndInService(snap, subs[..i])
      {
        var sub := subs[i];
        var carrierTextForSimState := SubscriptionCarrierText(sub, provisioned);
        ghost var previous := displayText;
        if carrierTextForSimState.Str? {
          allSimsMissing := false;
          displayText := Str(Concatenate(cfg.separator, displayText, carrierTextForSimState));
        }
        if ReadyAndInService(snap, sub) {
          anySimReadyAndInService := true;
        }
        AnySimReadyExtend(snap, subs, i);
        assert subs[..i + 1][..i] == subs[..i];
        assert subs[..i + 1][i] == sub;
        assert Accumulated(cfg, provisioned, subs[..i + 1])
            == if carrierTextForSimState.Null? then previous
               else Str(Concatenate(cfg.separator, previous, carrierTextForSimState));
      }
      assert subs[..|subs|] == subs;
      AccumulatedNullIff(cfg, provisioned, subs);
    }

    /**
     * One recompute: folds the subscriptions' fragments, falls back to the
     * "no SIM" text, overlays the I/O errors and applies the airplane-mode
     * override.
     */
    method UpdateCarrierText(snap: Snapshot) returns (displayText: Text)
      ensures displayText == CarrierDisplayText(cfg, telephonyCapable, simErrorState[..], snap)
    {
      var text, allSimsMissing, anySimReadyAndInService := FoldSubscriptions(snap);
      if allSimsMissing {
        var missingSimText := MissingSimCarrierText(snap);
        text := Str(missingSimText);
      }
      text := UpdateCarrierTextWithSimIoError(text, allSimsMissing, snap.deviceProvisioned);
      if !anySimReadyAndInService && snap.airplaneMode {
        text := Str(AirplaneModeMessage(cfg));
      }
      displayText := text;
    }
  }
}
