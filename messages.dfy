/**
 * From a SIM state to the message fragment it contributes: the status
 * mapping, the separator join, the emergency-call gate and the missing-SIM
 * and airplane-mode messages.
 */
module Messages {
  import opened CarrierTypes

  /**
   * Joins two texts with the separator; null and empty texts are the
   * identity of the join.
   */
  function Concatenate(sep: string, a: Text, b: Text): (r: string)
    ensures !IsEmpty(a) && !IsEmpty(b) ==> r == a.s + sep + b.s
    ensures !IsEmpty(a) && IsEmpty(b) ==> r == a.s
    ensures IsEmpty(a) && !IsEmpty(b) ==> r == b.s
    ensures r == "" <==> IsEmpty(a) && IsEmpty(b)
  {
    var aValid := !IsEmpty(a);
    var bValid := !IsEmpty(b);
    if aValid && bValid then a.s + sep + b.s
    else if aValid then a.s
    else if bValid then b.s
    else ""
  }

  /** The empty text and null are both left and right identities. */
  lemma ConcatenateIdentity(sep: string, e: Text, t: Text)
    requires IsEmpty(e)
    ensures Concatenate(sep, e, t) == Chars(t)
    ensures Concatenate(sep, t, e) == Chars(t)
  {
  }

  /** Folding fragments left to right or right to left gives the same text. */
  lemma ConcatenateAssociative(sep: string, a: Text, b: Text, c: Text)
    ensures Concatenate(sep, Str(Concatenate(sep, a, b)), c)
         == Concatenate(sep, a, Str(Concatenate(sep, b, c)))
  {
  }

  /**
   * The status of a SIM state. A missing state is `Normal`; an unprovisioned
   * device reads `Absent` and `PermDisabled` as `NetworkLocked`; the rest is
   * a fixed table defaulting to `SimUnknown`.
   */
  function StatusForIccState(state: Option<IccState>, provisioned: bool): (r: StatusMode)
    ensures state.None? ==> r == Normal
    ensures !provisioned && (state == Some(Absent) || state == Some(PermDisabled)) ==> r == SimMissingLocked
    ensures r != StatusMode.NetworkLocked
    ensures r == Normal <==> state.None? || state == Some(Ready)
    ensures r == SimIoError <==> state == Some(CardIoError)
    ensures r == SimMissing <==> provisioned && state == Some(Absent)
    ensures r == SimPermDisabled <==> provisioned && state == Some(PermDisabled)
    ensures r == SimLocked <==> state == Some(PinRequired)
    ensures r == SimPukLocked <==> state == Some(PukRequired)
    ensures r == SimNotReady <==> state == Some(NotReady)
    ensures r == SimUnknown <==> state == Some(Unknown) || state == Some(Unlisted)
    ensures r == SimMissingLocked <==>
      state == Some(IccState.NetworkLocked) || (!provisioned && (state == Some(Absent) || state == Some(PermDisabled)))
  {
    if state.None? then Normal
    else
      var missingAndNotProvisioned := !provisioned && (state.value == Absent || state.value == PermDisabled);
      var s := if missingAndNotProvisioned then IccState.NetworkLocked else state.value;
      match s
      case Absent => SimMissing
      case NetworkLocked => SimMissingLocked
      case NotReady => SimNotReady
      case PinRequired => SimLocked
      case PukRequired => SimPukLocked
      case Ready => Normal
      case PermDisabled => SimPermDisabled
      case Unknown => SimUnknown
      case CardIoError => SimIoError
      case Unlisted => SimUnknown
  }

  /** On an unprovisioned device a missing or disabled SIM reads as network locked. */
  lemma ProvisioningOverride(state: IccState, provisioned: bool)
    requires !provisioned && (state == Absent || state == PermDisabled)
    ensures StatusForIccState(Some(state), provisioned) == StatusForIccState(Some(IccState.NetworkLocked), provisioned)
  {
  }

  /**
   * On a provisioned device the named states map one-to-one, except that
   * `Unknown` and the unlisted states share `SimUnknown`.
   */
  lemma StatusForIccStateInjective(s1: IccState, s2: IccState)
    requires s1 != s2 && !(s1 in {Unknown, Unlisted} && s2 in {Unknown, Unlisted})
    ensures StatusForIccState(Some(s1), true) != StatusForIccState(Some(s2), true)
  {
  }

  /** The resource template shown for a status that is not `Normal`, missing or pending. */
  function StatusMessage(cfg: Config, status: StatusMode): string {
    match status
    case NetworkLocked => cfg.networkLockedMessage
    case SimPermDisabled => cfg.permDisabledMessage
    case SimLocked => cfg.simLockedMessage
    case SimPukLocked => cfg.pukLockedMessage
    case SimIoError => cfg.simErrorMessage
    case _ => ""
  }

  /** Adds the emergency-call text to a SIM message only on a voice-capable device. */
  function MakeCarrierStringOnEmergencyCapable(cfg: Config, simMessage: string, emergencyCallMessage: Text): (r: string)
    ensures !cfg.isEmergencyCallCapable || IsEmpty(emergencyCallMessage) ==> r == simMessage
    ensures cfg.isEmergencyCallCapable && simMessage == "" ==> r == Chars(emergencyCallMessage)
    ensures cfg.isEmergencyCallCapable && simMessage != "" && !IsEmpty(emergencyCallMessage)
            ==> r == simMessage + cfg.separator + emergencyCallMessage.s
  {
    if cfg.isEmergencyCallCapable then Concatenate(cfg.separator, Str(simMessage), emergencyCallMessage)
    else simMessage
  }

  /**
   * The fragment one SIM contributes: null means "missing", the empty text
   * means "nothing to show yet", anything else is shown.
   */
  function CarrierTextForSimState(cfg: Config, provisioned: bool, state: Option<IccState>, text: Text): (r: Text)
    ensures var status := StatusForIccState(state, provisioned);
      && (r.Null? <==> status in {SimMissing, SimMissingLocked, SimUnknown} || (status == Normal && text.Null?))
      && (status == SimNotReady ==> r == Str(""))
      && (status == Normal ==> r == text)
      && (status in {SimLocked, SimPukLocked, SimPermDisabled, SimIoError} ==>
            r == Str(if cfg.isEmergencyCallCapable
                     then Concatenate(cfg.separator, Str(StatusMessage(cfg, status)), text)
                     else StatusMessage(cfg, status)))
  {
    var status := StatusForIccState(state, provisioned);
    match status
    case Normal => text
    case SimNotReady => Str("")
    case NetworkLocked => Str(MakeCarrierStringOnEmergencyCapable(cfg, cfg.networkLockedMessage, text))
    case SimMissing => Null
    case SimPermDisabled => Str(MakeCarrierStringOnEmergencyCapable(cfg, cfg.permDisabledMessage, text))
    case SimMissingLocked => Null
    case SimLocked => Str(MakeCarrierStringOnEmergencyCapable(cfg, cfg.simLockedMessage, text))
    case SimPukLocked => Str(MakeCarrierStringOnEmergencyCapable(cfg, cfg.pukLockedMessage, text))
    case SimIoError => Str(MakeCarrierStringOnEmergencyCapable(cfg, cfg.simErrorMessage, text))
    case SimUnknown => Null
  }

  /** The fragment of a locked or faulty SIM starts with its template, whatever the carrier text. */
  lemma LockedFragmentStartsWithTemplate(cfg: Config, provisioned: bool, state: Option<IccState>, text: Text)
    requires StatusForIccState(state, provisioned) in {SimLocked, SimPukLocked, SimPermDisabled, SimIoError}
    ensures var m := StatusMessage(cfg, StatusForIccState(state, provisioned));
      var r := CarrierTextForSimState(cfg, provisioned, state, text);
      r.Str? && |m| <= |r.s| && r.s[..|m|] == m
  {
  }

  /** "No SIM card", shown only when configured and the telephony stack is up. */
  function MissingSimMessage(cfg: Config, telephonyCapable: bool): (r: string)
    ensures cfg.showMissingSim && telephonyCapable ==> r == cfg.missingSimMessage
    ensures !(cfg.showMissingSim && telephonyCapable) ==> r == ""
  {
    if cfg.showMissingSim && telephonyCapable then cfg.missingSimMessage else ""
  }

  /** "Airplane mode", shown only when configured. */
  function AirplaneModeMessage(cfg: Config): (r: string)
    ensures cfg.showAirplaneMode ==> r == cfg.airplaneModeMessage
    ensures !cfg.showAirplaneMode ==> r == ""
  {
    if cfg.showAirplaneMode then cfg.airplaneModeMessage else ""
  }
}
