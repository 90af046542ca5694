/**
 * The text one recompute produces, as functions of the configuration, the
 * telephony-capable flag, the sticky SIM I/O-error flags and the snapshot:
 * the fold of the subscriptions' fragments, the all-SIMs-missing fallback,
 * the I/O-error overlay and the airplane-mode override.
 */
module Resolution {
  import opened CarrierTypes
  import opened Messages
  import opened CarrierNames

  /** The carrier name a subscription contributes, rewritten when enabled. */
  function SubCarrierName(cfg: Config, sub: SubSnapshot): Text {
    DisplayedCarrierName(cfg, sub.info.carrierName, NetworkClassFor(cfg, sub))
  }

  /** The fragment a subscription contributes; null when its SIM counts as missing. */
  function Fragment(cfg: Config, provisioned: bool, sub: SubSnapshot): Text {
    CarrierTextForSimState(cfg, provisioned, sub.simState, SubCarrierName(cfg, sub))
  }

  /**
   * The SIM is ready and data is in service, where registration over IWLAN
   * counts only while Wi-Fi is enabled and associated with an access point.
   */
  predicate ReadyAndInService(snap: Snapshot, sub: SubSnapshot) {
    && sub.simState == Some(Ready)
    && sub.serviceState.Some?
    && sub.serviceState.value.dataRegState == STATE_IN_SERVICE
    && (sub.serviceState.value.rilDataRadioTechnology != RIL_RADIO_TECHNOLOGY_IWLAN
        || (snap.wifiEnabled && snap.wifiBssid.Some?))
  }

  /** The display text folded left to right over the fragments of `subs`, starting from null. */
  function Accumulated(cfg: Config, provisioned: bool, subs: seq<SubSnapshot>): Text
    decreases |subs|
  {
    if |subs| == 0 then Null
    else
      var previous := Accumulated(cfg, provisioned, subs[..|subs| - 1]);
      var fragment := Fragment(cfg, provisioned, subs[|subs| - 1]);
      if fragment.Null? then previous else Str(Concatenate(cfg.separator, previous, fragment))
  }

  /** Every subscription's fragment is null. */
  predicate AllSimsMissing(cfg: Config, provisioned: bool, subs: seq<SubSnapshot>) {
    forall i :: 0 <= i < |subs| ==> Fragment(cfg, provisioned, subs[i]).Null?
  }

  /** Some subscription is ready and in service. */
  predicate AnySimReadyAndInService(snap: Snapshot, subs: seq<SubSnapshot>) {
    exists i :: 0 <= i < |subs| && ReadyAndInService(snap, subs[i])
  }

  /** Some subscription of a prefix one longer is ready exactly when one of the shorter prefix is or the added one is. */
  lemma AnySimReadyExtend(snap: Snapshot, subs: seq<SubSnapshot>, i: nat)
    requires i < |subs|
    ensures AnySimReadyAndInService(snap, subs[..i + 1])
        <==> AnySimReadyAndInService(snap, subs[..i]) || ReadyAndInService(snap, subs[i])
  {
  }

  /** The fold stays null exactly while every fragment so far is null. */
  lemma {:induction false} AccumulatedNullIff(cfg: Config, provisioned: bool, subs: seq<SubSnapshot>)
    ensures Accumulated(cfg, provisioned, subs).Null? <==> AllSimsMissing(cfg, provisioned, subs)
    decreases |subs|
  {
    if |subs| > 0 {
      var init := subs[..|subs| - 1];
      AccumulatedNullIff(cfg, provisioned, init);
      assert forall i :: 0 <= i < |init| ==> init[i] == subs[i];
    }
  }

  /**
   * The fold over two lists of subscriptions is the join of the two folds:
   * the text of several SIMs does not depend on how their fragments are grouped.
   */
  lemma {:induction false} AccumulatedAppend(cfg: Config, provisioned: bool, a: seq<SubSnapshot>, b: seq<SubSnapshot>)
    ensures var fa := Accumulated(cfg, provisioned, a);
      var fb := Accumulated(cfg, provisioned, b);
      Accumulated(cfg, provisioned, a + b)
        == if fb.Null? then fa else if fa.Null? then fb else Str(Concatenate(cfg.separator, fa, fb))
    decreases |b|
  {
    if |b| > 0 {
      var init := b[..|b| - 1];
      assert (a + b)[..|a + b| - 1] == a + init;
      assert (a + b)[|a + b| - 1] == b[|b| - 1];
      AccumulatedAppend(cfg, provisioned, a, init);
      var fa := Accumulated(cfg, provisioned, a);
      var fi := Accumulated(cfg, provisioned, init);
      var f := Fragment(cfg, provisioned, b[|b| - 1]);
      if f.Str? && fa.Str? && fi.Str? {
        ConcatenateAssociative(cfg.separator, fa, fi, f);
      }
    } else {
      assert a + b == a;
    }
  }

  /** The text joined with the missing-SIM message when there are no subscriptions. */
  function NoSubscriptionsText(cfg: Config, broadcast: Option<SpnBroadcast>): (r: Text)
    ensures broadcast.None? ==> r == Str(cfg.emergencyCallsOnly)
    ensures broadcast.Some? ==>
      var spn := if broadcast.value.showSpn then broadcast.value.spn else Str("");
      var plmn := if broadcast.value.showPlmn then broadcast.value.plmn else Str("");
      && (plmn == spn ==> r == plmn)
      && (plmn != spn ==> r == Str(Concatenate(cfg.separator, plmn, spn)))
  {
    match broadcast
    case None => Str(cfg.emergencyCallsOnly)
    case Some(i) =>
      var spn := if i.showSpn then i.spn else Str("");
      var plmn := if i.showPlmn then i.plmn else Str("");
      if plmn == spn then plmn else Str(Concatenate(cfg.separator, plmn, spn))
  }

  /** A PLMN equal to the SPN is shown once, never joined with itself. */
  lemma SamePlmnAndSpnShownOnce(cfg: Config, b: SpnBroadcast)
    requires b.showSpn && b.showPlmn && b.plmn == b.spn && !IsEmpty(b.plmn)
    ensures NoSubscriptionsText(cfg, Some(b)) == b.plmn
    ensures NoSubscriptionsText(cfg, Some(b)) != Str(Concatenate(cfg.separator, b.plmn, b.spn))
  {
  }

  /**
   * The "no SIM" text: the missing-SIM message joined, on a voice-capable
   * device, with the first subscription's own carrier name, or with the
   * PLMN/SPN text when there is no subscription.
   */
  function MissingSimText(cfg: Config, telephonyCapable: bool, snap: Snapshot): (r: string)
    ensures !cfg.isEmergencyCallCapable ==> r == MissingSimMessage(cfg, telephonyCapable)
    ensures |snap.subs| > 0 ==>
      r == MakeCarrierStringOnEmergencyCapable(cfg, MissingSimMessage(cfg, telephonyCapable), snap.subs[0].info.carrierName)
    ensures |snap.subs| == 0 ==>
      r == MakeCarrierStringOnEmergencyCapable(cfg, MissingSimMessage(cfg, telephonyCapable), NoSubscriptionsText(cfg, snap.spnBroadcast))
  {
    var emergencyText := if |snap.subs| != 0 then snap.subs[0].info.carrierName else NoSubscriptionsText(cfg, snap.spnBroadcast);
    MakeCarrierStringOnEmergencyCapable(cfg, MissingSimMessage(cfg, telephonyCapable), emergencyText)
  }

  /** The fragment of a faulty card with an empty carrier name. */
  function IoErrorText(cfg: Config, provisioned: bool): (r: Text)
    ensures r == Str(cfg.simErrorMessage)
  {
    CarrierTextForSimState(cfg, provisioned, Some(CardIoError), Str(""))
  }

  /** The overlay after visiting the first `k` slots: slot 0 prepends, every other set slot appends. */
  function OverlayUpTo(cfg: Config, provisioned: bool, text: Text, flags: seq<bool>, k: nat): Text
    requires k <= |flags|
  {
    if k == 0 then text
    else
      var t := OverlayUpTo(cfg, provisioned, text, flags, k - 1);
      if !flags[k - 1] then t
      else if k - 1 == 0 then Str(Concatenate(cfg.separator, IoErrorText(cfg, provisioned), t))
      else Str(Concatenate(cfg.separator, t, IoErrorText(cfg, provisioned)))
  }

  /** Some slot's flag is set. */
  predicate AnyFlagSet(flags: seq<bool>) {
    exists i :: 0 <= i < |flags| && flags[i]
  }

  /** The SIM I/O-error overlay of one recompute. */
  function WithSimIoError(cfg: Config, provisioned: bool, text: Text, noSims: bool, flags: seq<bool>): Text {
    if noSims && AnyFlagSet(flags) then Str(Concatenate(cfg.separator, IoErrorText(cfg, provisioned), Str(cfg.emergencyCallsOnly)))
    else OverlayUpTo(cfg, provisioned, text, flags, |flags|)
  }

  /** The overlay of a non-null text is non-null, and with no flag set in the visited slots it is the text itself. */
  lemma {:induction false} OverlayKeepsText(cfg: Config, provisioned: bool, text: Text, flags: seq<bool>, k: nat)
    requires k <= |flags|
    ensures text.Str? ==> OverlayUpTo(cfg, provisioned, text, flags, k).Str?
    ensures (forall i :: 0 <= i < k ==> !flags[i]) ==> OverlayUpTo(cfg, provisioned, text, flags, k) == text
  {
    if k > 0 {
      OverlayKeepsText(cfg, provisioned, text, flags, k - 1);
    }
  }

  /** The number of set flags. */
  function CountSet(flags: seq<bool>): nat {
    if |flags| == 0 then 0 else CountSet(flags[..|flags| - 1]) + (if flags[|flags| - 1] then 1 else 0)
  }

  /** `t` with the I/O-error message appended `n` times. */
  function AppendIoError(cfg: Config, provisioned: bool, t: Text, n: nat): Text {
    if n == 0 then t else Str(Concatenate(cfg.separator, AppendIoError(cfg, provisioned, t, n - 1), IoErrorText(cfg, provisioned)))
  }

  /**
   * The overlay in closed form: the message in front when slot 0 is set,
   * and once more at the end for every other set slot.
   */
  lemma {:induction false} OverlayClosedForm(cfg: Config, provisioned: bool, text: Text, flags: seq<bool>, k: nat)
    requires 0 < k <= |flags|
    ensures var head := if flags[0] then Str(Concatenate(cfg.separator, IoErrorText(cfg, provisioned), text)) else text;
      OverlayUpTo(cfg, provisioned, text, flags, k) == AppendIoError(cfg, provisioned, head, CountSet(flags[1..k]))
  {
    if k > 1 {
      OverlayClosedForm(cfg, provisioned, text, flags, k - 1);
      assert flags[1..k][..k - 2] == flags[1..k - 1];
      assert flags[1..k][k - 2] == flags[k - 1];
    } else {
      assert flags[1..1] == [];
    }
  }

  /**
   * The overlay's three outcomes: unchanged without a faulty slot; "invalid
   * card" with the emergency-calls text when there is no SIM; otherwise the
   * message in front for slot 0 and once at the end per other faulty slot.
   */
  lemma WithSimIoErrorCases(cfg: Config, provisioned: bool, text: Text, noSims: bool, flags: seq<bool>)
    ensures !AnyFlagSet(flags) ==> WithSimIoError(cfg, provisioned, text, noSims, flags) == text
    ensures noSims && AnyFlagSet(flags) ==>
      WithSimIoError(cfg, provisioned, text, noSims, flags)
        == Str(Concatenate(cfg.separator, Str(cfg.simErrorMessage), Str(cfg.emergencyCallsOnly)))
    ensures !noSims && |flags| > 0 ==>
      var head := if flags[0] then Str(Concatenate(cfg.separator, Str(cfg.simErrorMessage), text)) else text;
      WithSimIoError(cfg, provisioned, text, noSims, flags) == AppendIoError(cfg, provisioned, head, CountSet(flags[1..]))
  {
    OverlayKeepsText(cfg, provisioned, text, flags, |flags|);
    if |flags| > 0 {
      OverlayClosedForm(cfg, provisioned, text, flags, |flags|);
      assert flags[1..|flags|] == flags[1..];
    }
  }

  /**
   * The text one recompute shows: the folded fragments, or the "no SIM"
   * text when every SIM is missing; then the I/O-error overlay; then, if
   * nothing is ready and in service and airplane mode is on, the airplane
   * message instead of all of it.
   */
  function CarrierDisplayText(cfg: Config, telephonyCapable: bool, flags: seq<bool>, snap: Snapshot): (r: Text)
    ensures r.Str?
    ensures !AnySimReadyAndInService(snap, snap.subs) && snap.airplaneMode ==> r == Str(AirplaneModeMessage(cfg))
    ensures !(!AnySimReadyAndInService(snap, snap.subs) && snap.airplaneMode) && !AnyFlagSet(flags) ==>
      r == (if AllSimsMissing(cfg, snap.deviceProvisioned, snap.subs) then Str(MissingSimText(cfg, telephonyCapable, snap))
            else Accumulated(cfg, snap.deviceProvisioned, snap.subs))
    ensures !(!AnySimReadyAndInService(snap, snap.subs) && snap.airplaneMode) && AnyFlagSet(flags)
            && AllSimsMissing(cfg, snap.deviceProvisioned, snap.subs) ==>
      r == Str(Concatenate(cfg.separator, Str(cfg.simErrorMessage), Str(cfg.emergencyCallsOnly)))
    ensures !(!AnySimReadyAndInService(snap, snap.subs) && snap.airplaneMode)
            && !AllSimsMissing(cfg, snap.deviceProvisioned, snap.subs) && |flags| > 0 ==>
      var text := Accumulated(cfg, snap.deviceProvisioned, snap.subs);
      var head := if flags[0] then Str(Concatenate(cfg.separator, Str(cfg.simErrorMessage), text)) else text;
      r == AppendIoError(cfg, snap.deviceProvisioned, head, CountSet(flags[1..]))
  {
    var provisioned := snap.deviceProvisioned;
    var allSimsMissing := AllSimsMissing(cfg, provisioned, snap.subs);
    var displayText := if allSimsMissing then Str(MissingSimText(cfg, telephonyCapable, snap))
                       else Accumulated(cfg, provisioned, snap.subs);
    AccumulatedNullIff(cfg, provisioned, snap.subs);
    var withIoError := WithSimIoError(cfg, provisioned, displayText, allSimsMissing, flags);
    OverlayKeepsText(cfg, provisioned, displayText, flags, |flags|);
    WithSimIoErrorCases(cfg, provisioned, displayText, allSimsMissing, flags);
    if !AnySimReadyAndInService(snap, snap.subs) && snap.airplaneMode then Str(AirplaneModeMessage(cfg))
    else withIoError
  }

  /** Appending keeps every prefix of the text it starts from. */
  lemma {:induction false} AppendIoErrorKeepsPrefix(cfg: Config, provisioned: bool, t: Text, n: nat, m: string)
    requires t.Str? && |m| <= |t.s| && t.s[..|m|] == m
    ensures var u := AppendIoError(cfg, provisioned, t, n); u.Str? && |m| <= |u.s| && u.s[..|m|] == m
  {
    if n > 0 {
      AppendIoErrorKeepsPrefix(cfg, provisioned, t, n - 1, m);
      var p := AppendIoError(cfg, provisioned, t, n - 1);
      var u := AppendIoError(cfg, provisioned, t, n);
      if !IsEmpty(p) && !IsEmpty(IoErrorText(cfg, provisioned)) {
        assert u.s == p.s + (cfg.separator + cfg.simErrorMessage);
      }
    }
  }

  /**
   * A faulty card in slot 0 puts the I/O-error message first, unless every
   * SIM is missing or the airplane message replaces the text.
   */
  lemma SlotZeroErrorLeads(cfg: Config, telephonyCapable: bool, flags: seq<bool>, snap: Snapshot)
    requires |flags| > 0 && flags[0]
    requires !AllSimsMissing(cfg, snap.deviceProvisioned, snap.subs)
    requires AnySimReadyAndInService(snap, snap.subs) || !snap.airplaneMode
    ensures var r := CarrierDisplayText(cfg, telephonyCapable, flags, snap);
      var m := cfg.simErrorMessage;
      r.Str? && |m| <= |r.s| && r.s[..|m|] == m
  {
    var provisioned := snap.deviceProvisioned;
    var text := Accumulated(cfg, provisioned, snap.subs);
    var m := cfg.simErrorMessage;
    AccumulatedNullIff(cfg, provisioned, snap.subs);
    OverlayClosedForm(cfg, provisioned, text, flags, |flags|);
    var head := Str(Concatenate(cfg.separator, IoErrorText(cfg, provisioned), text));
    if m != "" && !IsEmpty(text) {
      assert head.s == m + (cfg.separator + text.s);
    }
    AppendIoErrorKeepsPrefix(cfg, provisioned, head, CountSet(flags[1..|flags|]), m);
  }

  /**
   * One ready SIM with its carrier name and no presentation rewrite shows
   * exactly that name.
   */
  lemma SingleReadySimShowsCarrierName(cfg: Config, telephonyCapable: bool, flags: seq<bool>, snap: Snapshot, name: string)
    requires |snap.subs| == 1
    requires snap.subs[0].simState == Some(Ready) && snap.subs[0].info.carrierName == Str(name) && name != ""
    requires !cfg.showLocale && !cfg.showRat
    requires ReadyAndInService(snap, snap.subs[0]) || !snap.airplaneMode
    requires forall i :: 0 <= i < |flags| ==> !flags[i]
    ensures CarrierDisplayText(cfg, telephonyCapable, flags, snap) == Str(name)
  {
    var provisioned := snap.deviceProvisioned;
    assert Fragment(cfg, provisioned, snap.subs[0]) == Str(name);
    assert snap.subs[..0] == [];
    assert !AllSimsMissing(cfg, provisioned, snap.subs);
    assert !AnyFlagSet(flags);
    assert Accumulated(cfg, provisioned, snap.subs) == Str(name);
    if ReadyAndInService(snap, snap.subs[0]) {
      assert AnySimReadyAndInService(snap, snap.subs);
    }
  }
}
