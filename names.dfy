/**
 * The carrier-name rewrite: the network-class suffix (2G/3G/4G or the 5G
 * override), the localization table lookup, and the split of a compound
 * name into at most two segments that are rewritten one by one and joined
 * again with adjacent duplicates dropped.
 */
module CarrierNames {
  import opened CarrierTypes

  // ---------------------------------------------------------------------
  // Network class suffix
  // ---------------------------------------------------------------------

  /** The configured name of a network class; classes past the table give "". */
  function NetworkClassToString(cfg: Config, networkClass: nat): (r: string)
    ensures networkClass < 4 ==> r == cfg.ratNames[networkClass]
    ensures networkClass >= 4 ==> r == ""
  {
    if networkClass < |cfg.ratNames| then cfg.ratNames[networkClass] else ""
  }

  /** The data network type TelephonyManager reports is LTE or LTE carrier aggregation. */
  predicate IsDataRegisteredOnLte(dataType: int) {
    dataType == NETWORK_TYPE_LTE || dataType == NETWORK_TYPE_LTE_CA
  }

  /** The 5G label, when the subscription's slot is on 5G NSA anchored to LTE data. */
  function FiveGNetworkClass(cfg: Config, sub: SubSnapshot): (r: Option<string>)
    ensures r.Some? <==> sub.nsaConnected && IsDataRegisteredOnLte(sub.tmDataNetworkType)
    ensures r.Some? ==> r.value == cfg.fiveGName
  {
    if sub.nsaConnected && IsDataRegisteredOnLte(sub.tmDataNetworkType) then Some(cfg.fiveGName) else None
  }

  /** Data or voice is registered. */
  predicate InService(ss: ServiceState) {
    ss.dataRegState == STATE_IN_SERVICE || ss.voiceRegState == STATE_IN_SERVICE
  }

  /** The network type of the data radio when it is known, else of the voice radio, else unknown. */
  function NetworkTypeOf(ss: ServiceState): int {
    if ss.rilDataRadioTechnology != RIL_RADIO_TECHNOLOGY_UNKNOWN then ss.dataNetworkType
    else if ss.rilVoiceRadioTechnology != RIL_RADIO_TECHNOLOGY_UNKNOWN then ss.voiceNetworkType
    else NETWORK_TYPE_UNKNOWN
  }

  /** The network-class suffix of a subscription's carrier name. */
  function NetworkClassFor(cfg: Config, sub: SubSnapshot): (r: string)
    ensures r != "" ==> cfg.showRat && sub.serviceState.Some? && InService(sub.serviceState.value)
    ensures r == "" || r == cfg.fiveGName || r in cfg.ratNames
    ensures (cfg.showRat && sub.serviceState.Some? && InService(sub.serviceState.value)
             && FiveGNetworkClass(cfg, sub).Some?) ==> r == cfg.fiveGName
    ensures (cfg.showRat && sub.serviceState.Some? && InService(sub.serviceState.value)
             && FiveGNetworkClass(cfg, sub).None?)
            ==> r == NetworkClassToString(cfg, cfg.networkClassOf(NetworkTypeOf(sub.serviceState.value)))
  {
    if cfg.showRat && sub.serviceState.Some? && InService(sub.serviceState.value) then
      var networkClass := NetworkClassToString(cfg, cfg.networkClassOf(NetworkTypeOf(sub.serviceState.value)));
      match FiveGNetworkClass(cfg, sub)
      case Some(fiveG) => fiveG
      case None => networkClass
    else ""
  }

  // ---------------------------------------------------------------------
  // Localization table
  // ---------------------------------------------------------------------

  /** Two characters are equal up to the case folding. */
  predicate CharsMatch(fold: char -> char, c1: char, c2: char) {
    c1 == c2 || fold(c1) == fold(c2)
  }

  /** `String.equalsIgnoreCase`: same length and pointwise equal up to case. */
  predicate EqualsIgnoreCase(fold: char -> char, a: string, b: string) {
    |a| == |b| && forall i :: 0 <= i < |a| ==> CharsMatch(fold, a[i], b[i])
  }

  /** Row `i` is the first row of the table whose original name matches `name`. */
  predicate IsFirstMatch(table: seq<(string, string)>, fold: char -> char, name: string, i: int) {
    && 0 <= i < |table|
    && EqualsIgnoreCase(fold, table[i].0, name)
    && forall j :: 0 <= j < i ==> !EqualsIgnoreCase(fold, table[j].0, name)
  }

  /** The localized name of `name`, or `name` itself when the table has no row for it. */
  function LocalString(table: seq<(string, string)>, fold: char -> char, name: string): string
    decreases |table|
  {
    if |table| == 0 then name
    else if EqualsIgnoreCase(fold, table[0].0, name) then table[0].1
    else LocalString(table[1..], fold, name)
  }

  /** The lookup returns the local name of the first matching row, or the input when no row matches. */
  lemma {:induction false} LocalStringFirstMatch(table: seq<(string, string)>, fold: char -> char, name: string)
    ensures forall i :: IsFirstMatch(table, fold, name, i) ==> LocalString(table, fold, name) == table[i].1
    ensures (forall i :: 0 <= i < |table| ==> !EqualsIgnoreCase(fold, table[i].0, name))
            ==> LocalString(table, fold, name) == name
    decreases |table|
  {
    if |table| > 0 && !EqualsIgnoreCase(fold, table[0].0, name) {
      LocalStringFirstMatch(table[1..], fold, name);
      forall i | IsFirstMatch(table, fold, name, i)
        ensures LocalString(table, fold, name) == table[i].1
      {
        assert IsFirstMatch(table[1..], fold, name, i - 1);
      }
      if forall i :: 0 <= i < |table| ==> !EqualsIgnoreCase(fold, table[i].0, name) {
        forall i | 0 <= i < |table| - 1
          ensures !EqualsIgnoreCase(fold, table[1..][i].0, name)
        {
          assert table[1..][i] == table[i + 1];
        }
      }
    }
  }

  /** `getLocalString`: a linear search of the table that returns on the first match. */
  method GetLocalString(table: seq<(string, string)>, fold: char -> char, originalString: string) returns (r: string)
    ensures r == LocalString(table, fold, originalString)
  {
    var i := 0;
    while i < |table|
      invariant 0 <= i <= |table|
      invariant LocalString(table[i..], fold, originalString) == LocalString(table, fold, originalString)
    {
      if EqualsIgnoreCase(fold, table[i].0, originalString) {
        return table[i].1;
      }
      assert table[i..][1..] == table[i + 1..];
      i := i + 1;
    }
    return originalString;
  }

  // ---------------------------------------------------------------------
  // Splitting on the separator
  // ---------------------------------------------------------------------

  /** The separator occurs in `s` starting at index `i`. */
  predicate OccursAt(s: string, sep: string, i: int) {
    0 <= i && i + |sep| <= |s| && s[i..i + |sep|] == sep
  }

  /** The first index at or after `from` where the separator occurs. */
  function FirstOccurrence(s: string, sep: Separator, from: nat): (r: Option<nat>)
    ensures r.Some? ==> from <= r.value && OccursAt(s, sep, r.value)
    ensures r.Some? ==> forall j :: from <= j < r.value ==> !OccursAt(s, sep, j)
    ensures r.None? ==> forall j :: from <= j ==> !OccursAt(s, sep, j)
    decreases |s| - from
  {
    if from + |sep| > |s| then None
    else if OccursAt(s, sep, from) then Some(from)
    else FirstOccurrence(s, sep, from + 1)
  }

  /**
   * `split(separator, 2)` read literally: the text before the first
   * occurrence of the separator and the text after it, or the whole string.
   */
  function SplitOnce(s: string, sep: Separator): (r: seq<string>)
    ensures 1 <= |r| <= 2
    ensures |r| == 1 <==> forall j :: !OccursAt(s, sep, j)
    ensures |r| == 1 ==> r[0] == s
    ensures |r| == 2 ==> s == r[0] + sep + r[1]
    ensures |r| == 2 ==> OccursAt(s, sep, |r[0]|) && forall j :: 0 <= j < |r[0]| ==> !OccursAt(s, sep, j)
  {
    match FirstOccurrence(s, sep, 0)
    case None => [s]
    case Some(k) =>
      assert s == s[..k] + s[k..k + |sep|] + s[k + |sep|..];
      [s[..k], s[k + |sep|..]]
  }

  // ---------------------------------------------------------------------
  // Rewriting the carrier name
  // ---------------------------------------------------------------------

  /** A non-empty segment gets " " and the network class when the suffix is enabled and known. */
  function Decorate(cfg: Config, segment: string, networkClass: string): string {
    if segment == "" then ""
    else if networkClass != "" && cfg.showRat then segment + " " + networkClass
    else segment
  }

  /**
   * One segment, localized when enabled and then decorated: empty exactly when
   * the localized segment is, suffixed with " " and the class only when the
   * suffix is enabled and the class known, and otherwise the localized segment.
   */
  function RewriteSegment(cfg: Config, segment: string, networkClass: string): (r: string)
    ensures var loc := if cfg.showLocale then LocalString(cfg.localeTable, cfg.foldCase, segment) else segment;
      && (r == "" <==> loc == "")
      && (loc != "" && cfg.showRat && networkClass != "" ==> r == loc + " " + networkClass)
      && (!cfg.showRat || networkClass == "" ==> r == loc)
  {
    Decorate(cfg, if cfg.showLocale then LocalString(cfg.localeTable, cfg.foldCase, segment) else segment, networkClass)
  }

  /** Every segment rewritten. */
  function RewriteAll(cfg: Config, segments: seq<string>, networkClass: string): (r: seq<string>)
    ensures |r| == |segments|
    ensures forall j :: 0 <= j < |r| ==> r[j] == RewriteSegment(cfg, segments[j], networkClass)
  {
    seq(|segments|, j requires 0 <= j < |segments| => RewriteSegment(cfg, segments[j], networkClass))
  }

  /**
   * The new name built from the first `k` rewritten segments: a segment adds
   * nothing when it is empty or repeats the segment before it, else it is
   * appended, after the separator unless it is the first segment.
   */
  function JoinPrefix(sep: string, names: seq<string>, k: nat): string
    requires k <= |names|
  {
    if k == 0 then ""
    else
      var acc := JoinPrefix(sep, names, k - 1);
      var j := k - 1;
      if names[j] == "" || (j > 0 && names[j] == names[j - 1]) then acc
      else (if j > 0 then acc + sep else acc) + names[j]
  }

  /** The carrier name after the rewrite. */
  function RewrittenName(cfg: Config, carrierName: string, networkClass: string): string {
    var names := RewriteAll(cfg, SplitOnce(carrierName, cfg.separator), networkClass);
    JoinPrefix(cfg.separator, names, |names|)
  }

  /**
   * The rewrite in closed form: the first segment rewritten, followed by the
   * separator and the second segment rewritten unless that one is empty or
   * equal to the first.
   */
  lemma {:induction false} RewrittenNameShape(cfg: Config, carrierName: string, networkClass: string)
    ensures var segments := SplitOnce(carrierName, cfg.separator);
      var first := RewriteSegment(cfg, segments[0], networkClass);
      && (|segments| == 1 ==> RewrittenName(cfg, carrierName, networkClass) == first)
      && (|segments| == 2 ==>
            var second := RewriteSegment(cfg, segments[1], networkClass);
            RewrittenName(cfg, carrierName, networkClass)
              == if second == "" || second == first then first else first + cfg.separator + second)
  {
    var segments := SplitOnce(carrierName, cfg.separator);
    var names := RewriteAll(cfg, segments, networkClass);
    assert JoinPrefix(cfg.separator, names, 1) == names[0];
  }

  /** A name without the separator is rewritten as one segment. */
  lemma RewriteSingleSegment(cfg: Config, carrierName: string, networkClass: string)
    requires forall j :: !OccursAt(carrierName, cfg.separator, j)
    ensures RewrittenName(cfg, carrierName, networkClass) == RewriteSegment(cfg, carrierName, networkClass)
  {
    RewrittenNameShape(cfg, carrierName, networkClass);
  }

  /** A second segment that rewrites to the same text as the first is dropped. */
  lemma RewriteDropsRepeatedSegment(cfg: Config, carrierName: string, networkClass: string)
    requires var segments := SplitOnce(carrierName, cfg.separator);
      |segments| == 2 && RewriteSegment(cfg, segments[0], networkClass) == RewriteSegment(cfg, segments[1], networkClass)
    ensures RewrittenName(cfg, carrierName, networkClass)
         == RewriteSegment(cfg, SplitOnce(carrierName, cfg.separator)[0], networkClass)
  {
    RewrittenNameShape(cfg, carrierName, networkClass);
  }

  /**
   * An empty first segment adds nothing itself, but the separator in front
   * of the second segment is still written.
   */
  lemma RewriteKeepsLeadingSeparator(cfg: Config, carrierName: string, networkClass: string)
    requires var segments := SplitOnce(carrierName, cfg.separator);
      |segments| == 2 && RewriteSegment(cfg, segments[0], networkClass) == ""
      && RewriteSegment(cfg, segments[1], networkClass) != ""
    ensures RewrittenName(cfg, carrierName, networkClass)
         == cfg.separator + RewriteSegment(cfg, SplitOnce(carrierName, cfg.separator)[1], networkClass)
  {
    RewrittenNameShape(cfg, carrierName, networkClass);
  }

  /** With the suffix enabled and known, every non-empty segment ends in " " and the network class. */
  lemma DecoratedSegmentHasSuffix(cfg: Config, segment: string, networkClass: string)
    requires cfg.showRat && networkClass != ""
    requires RewriteSegment(cfg, segment, networkClass) != ""
    ensures var r := RewriteSegment(cfg, segment, networkClass);
      |" " + networkClass| <= |r| && r[|r| - |" " + networkClass|..] == " " + networkClass
  {
  }

  /**
   * The segment loop of the rewrite: each segment is localized and decorated
   * in place in the `names` array, and the new name is built by appending.
   */
  method RewriteCarrierName(cfg: Config, carrierName: string, networkClass: string) returns (r: string)
    ensures r == RewrittenName(cfg, carrierName, networkClass)
  {
    var parts := SplitOnce(carrierName, cfg.separator);
    ghost var rewritten := RewriteAll(cfg, parts, networkClass);
    var names := new string[|parts|](i requires 0 <= i < |parts| => parts[i]);
    var newCarrierName := "";
    for j := 0 to names.Length
      invariant forall k :: 0 <= k < j ==> names[k] == rewritten[k]
      invariant forall k :: j <= k < names.Length ==> names[k] == parts[k]
      invariant newCarrierName == JoinPrefix(cfg.separator, rewritten, j)
    {
      ghost var previous := if j > 0 then rewritten[j - 1] else "";
      assert j > 0 ==> names[j - 1] == previous;
      RewriteEntry(cfg, names, j, networkClass);
      assert names[j] == rewritten[j];
      if names[j] != "" {
        if j > 0 && names[j] == names[j - 1] {
          continue;
        }
        if j > 0 {
          newCarrierName := newCarrierName + cfg.separator;
        }
        newCarrierName := newCarrierName + names[j];
      }
    }
    r := newCarrierName;
  }

  /**
   * One entry of the segment array rewritten in place: localized when
   * enabled, then, when non-empty, given the network-class suffix.
   */
  method RewriteEntry(cfg: Config, names: array<string>, j: nat, networkClass: string)
    requires j < names.Length
    modifies names
    ensures names[..] == old(names[..])[j := RewriteSegment(cfg, old(names[j]), networkClass)]
  {
    if cfg.showLocale {
      names[j] := GetLocalString(cfg.localeTable, cfg.foldCase, names[j]);
    }
    if names[j] != "" {
      if networkClass != "" && cfg.showRat {
        names[j] := names[j] + " " + networkClass;
      }
    }
  }

  /** The carrier name shown for a subscription: rewritten only when a rewrite is enabled and the name is non-empty. */
  function DisplayedCarrierName(cfg: Config, carrierName: Text, networkClass: string): (r: Text)
    ensures !(cfg.showLocale || cfg.showRat) || IsEmpty(carrierName) ==> r == carrierName
    ensures (cfg.showLocale || cfg.showRat) && !IsEmpty(carrierName)
            ==> r == Str(RewrittenName(cfg, carrierName.s, networkClass))
  {
    if (cfg.showLocale || cfg.showRat) && !IsEmpty(carrierName) then Str(RewrittenName(cfg, carrierName.s, networkClass))
    else carrierName
  }
}
