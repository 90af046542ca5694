/**
 * The values the lock-screen carrier text is computed from: SIM states, the
 * derived status modes, subscriptions with the per-subscription platform
 * queries already answered, the device-wide snapshot, and the widget's
 * configuration (resource strings and flags).
 */
module CarrierTypes {

  datatype Option<T> = None | Some(value: T)

  /** A Java `CharSequence` that may be `null`. */
  datatype Text = Null | Str(s: string)

  /** `TextUtils.isEmpty`: null or of length zero. */
  predicate IsEmpty(t: Text) {
    t.Null? || t.s == ""
  }

  /** The text a `StringBuilder.append` of a non-empty `Text` contributes. */
  function Chars(t: Text): string {
    if t.Null? then "" else t.s
  }

  /**
   * `IccCardConstants.State`. `Unlisted` stands for any value of the enum
   * that the mapping's switch does not name.
   */
  datatype IccState =
    | Absent | PinRequired | PukRequired | NetworkLocked | Ready
    | NotReady | PermDisabled | CardIoError | Unknown | Unlisted

  /** `CarrierText.StatusMode`. */
  datatype StatusMode =
    | Normal | NetworkLocked | SimMissing | SimMissingLocked | SimPukLocked
    | SimLocked | SimPermDisabled | SimNotReady | SimIoError | SimUnknown

  // Platform constants the source compares against.
  const STATE_IN_SERVICE: int := 0               // ServiceState.STATE_IN_SERVICE
  const RIL_RADIO_TECHNOLOGY_UNKNOWN: int := 0   // ServiceState.RIL_RADIO_TECHNOLOGY_UNKNOWN
  const RIL_RADIO_TECHNOLOGY_IWLAN: int := 18    // ServiceState.RIL_RADIO_TECHNOLOGY_IWLAN
  const NETWORK_TYPE_UNKNOWN: int := 0           // TelephonyManager.NETWORK_TYPE_UNKNOWN
  const NETWORK_TYPE_LTE: int := 13              // TelephonyManager.NETWORK_TYPE_LTE
  const NETWORK_TYPE_LTE_CA: int := 19           // TelephonyManager.NETWORK_TYPE_LTE_CA

  /** The parts of an `android.telephony.ServiceState` the widget reads. */
  datatype ServiceState = ServiceState(
    dataRegState: int,
    voiceRegState: int,
    rilDataRadioTechnology: int,
    rilVoiceRadioTechnology: int,
    dataNetworkType: int,
    voiceNetworkType: int)

  /** The parts of a `SubscriptionInfo` the widget reads. */
  datatype SubscriptionInfo = SubscriptionInfo(
    subscriptionId: int,
    simSlotIndex: int,
    carrierName: Text)

  /**
   * One active subscription together with the answers of the platform
   * queries the recompute makes about it.
   */
  datatype SubSnapshot = SubSnapshot(
    info: SubscriptionInfo,
    simState: Option<IccState>,          // KeyguardUpdateMonitor.getSimState(subId)
    serviceState: Option<ServiceState>,  // mServiceStates.get(subId), possibly null
    nsaConnected: bool,                  // 5G service state of the subscription's slot: connected on NSA
    tmDataNetworkType: int)              // TelephonyManager.getDataNetworkType(subId)

  /** The sticky SPN_STRINGS_UPDATED broadcast, when there is one. */
  datatype SpnBroadcast = SpnBroadcast(
    showSpn: bool,
    spn: Text,
    showPlmn: bool,
    plmn: Text)

  /** The device-wide state a recompute reads, taken at one instant. */
  datatype Snapshot = Snapshot(
    subs: seq<SubSnapshot>,
    deviceProvisioned: bool,
    wifiEnabled: bool,
    wifiBssid: Option<string>,           // None: no connection info or no BSSID
    airplaneMode: bool,
    spnBroadcast: Option<SpnBroadcast>)

  /** The message separator; never empty, so that splitting on it is well defined. */
  type Separator = s: string | |s| > 0 witness " | "

  /** The four network-class names, indexed by network class (unknown, 2G, 3G, 4G). */
  type RatNames = s: seq<string> | |s| == 4 witness ["", "2G", "3G", "4G"]

  /** Configuration and resource strings of one widget. */
  datatype Config = Config(
    separator: Separator,               // kg_text_message_separator
    isEmergencyCallCapable: bool,       // config_voice_capable
    showMissingSim: bool,
    showAirplaneMode: bool,
    showLocale: bool,                   // config_monitor_locale_change
    showRat: bool,                      // config_display_rat
    networkLockedMessage: string,
    permDisabledMessage: string,
    simLockedMessage: string,
    pukLockedMessage: string,
    simErrorMessage: string,
    missingSimMessage: string,
    airplaneModeMessage: string,
    emergencyCallsOnly: string,
    fiveGName: string,                  // data_connection_5g
    ratNames: RatNames,                 // config_rat_unknown, _2g, _3g, _4g
    localeTable: seq<(string, string)>, // origin_carrier_names paired with the locale names' strings
    foldCase: char -> char,             // the case folding equalsIgnoreCase applies
    networkClassOf: int -> nat)         // TelephonyManager.getNetworkClass
}
