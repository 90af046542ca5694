# Lock-screen carrier text

This project models the Android SystemUI keyguard widget `CarrierText` and proves
properties of the model. The widget computes the single line shown on the lock
screen from three kinds of input:

- the SIM state of every active subscription;
- the subscriptions' carrier names;
- a few radio, Wi-Fi and airplane-mode facts.

The line is built in these steps:

1. Each SIM state maps to a status. On an unprovisioned device, an absent or
   permanently disabled SIM reads as network locked.
2. Each status gives a message fragment. The fragment is one of three kinds:
   `null` means the SIM is missing, `""` means there is nothing to show yet,
   and anything else is shown.
3. Before that, each carrier name may be rewritten. The rewrite splits the name
   on the separator, localizes each segment, adds a network-class suffix and
   drops a repeated second segment.
4. The fragments are joined with the separator. Null and empty texts are the
   identity of the join.
5. When every SIM is missing, the text falls back to a "no SIM" message.
6. A card the radio reports as faulty adds "invalid card" to the text. This
   uses sticky per-slot flags.
7. Airplane mode replaces everything when no SIM is ready and in service.

Modules:

- `CarrierTypes` (`types.dfy`) holds the values. These are `Text` (a nullable
  string), SIM states, status modes, subscriptions, a device snapshot and the
  widget configuration.
- `Messages` (`messages.dfy`) holds the join, the status mapping and the
  per-SIM fragment.
- `CarrierNames` (`names.dfy`) holds the network-class name, the 5G override,
  the locale table lookup and the carrier-name rewrite.
- `Resolution` (`resolution.dfy`) holds the functions that specify one
  recompute. These are the fold over subscriptions, the no-SIM fallback, the
  I/O-error overlay and the airplane override.
- `Keyguard` (`keyguard.dfy`) holds the class `CarrierText`. It has the sticky
  `simErrorState` array, the `telephonyCapable` flag and the imperative
  recompute. Each of its methods is proved equal to the corresponding
  `Resolution` or `CarrierNames` function.

Platform queries are inputs. These are the SIM and service state per
subscription, the 5G NSA state of its slot, the data network type, Wi-Fi, the
airplane-mode setting and the sticky SPN/PLMN broadcast. Resource strings,
resource flags and `TelephonyManager.getNetworkClass` are fields of `Config`.
The text a recompute would pass to `setText` is the method's result. The
contracts listed under "## Model" are verified by Dafny; the remarks about the
Java code elsewhere in this file are read from its source, not verified.

Two behaviours of the code are modelled as written:

- In the carrier-name rewrite, an empty first segment still puts the separator
  in front of the second segment. Line 236 tests `j > 0`, not whether anything
  was appended before. `CarrierNames.RewriteKeepsLeadingSeparator` states this.
- `getCarrierTextForSimState` returns `null` for a ready SIM whose carrier name
  is null. Such a subscription therefore counts as missing.

## Model

| member | source | states |
|---|---|---|
| Messages.Concatenate | packages/SystemUI/src/com/android/keyguard/CarrierText.java:488-500 | both texts non-empty give `a + separator + b`; exactly one non-empty gives that one; the result is empty exactly when both are null or empty |
| Messages.ConcatenateIdentity | packages/SystemUI/src/com/android/keyguard/CarrierText.java:488-500 | a null or empty text is a left and a right identity of the join |
| Messages.ConcatenateAssociative | packages/SystemUI/src/com/android/keyguard/CarrierText.java:488-500 | joining three texts gives the same string whichever pair is joined first |
| Messages.StatusForIccState | packages/SystemUI/src/com/android/keyguard/CarrierText.java:452-486 | a missing state is `Normal`; unprovisioned `ABSENT`/`PERM_DISABLED` give `SimMissingLocked`; the result is never `NetworkLocked`; `Normal` exactly for no state or `READY`; `SimIoError` exactly for `CARD_IO_ERROR`; `SimMissing`/`SimPermDisabled` exactly for the provisioned `ABSENT`/`PERM_DISABLED`; `SimLocked` exactly for `PIN_REQUIRED`, `SimPukLocked` exactly for `PUK_REQUIRED`, `SimNotReady` exactly for `NOT_READY`; `SimUnknown` exactly for `UNKNOWN` and unlisted states; `SimMissingLocked` exactly for `NETWORK_LOCKED` and the unprovisioned `ABSENT`/`PERM_DISABLED` |
| Messages.ProvisioningOverride | packages/SystemUI/src/com/android/keyguard/CarrierText.java:459-466 | on an unprovisioned device `ABSENT` and `PERM_DISABLED` get the status of `NETWORK_LOCKED` |
| Messages.StatusForIccStateInjective | packages/SystemUI/src/com/android/keyguard/CarrierText.java:467-485 | on a provisioned device distinct states give distinct statuses, except `UNKNOWN` and unlisted states, which share `SimUnknown` |
| Messages.MakeCarrierStringOnEmergencyCapable | packages/SystemUI/src/com/android/keyguard/CarrierText.java:441-447 | without emergency capability, or with an empty emergency text, the SIM message alone; otherwise the message joined with the emergency text |
| Messages.CarrierTextForSimState | packages/SystemUI/src/com/android/keyguard/CarrierText.java:380-436 | null exactly for `SimMissing`, `SimMissingLocked`, `SimUnknown` (and `Normal` with a null name); `""` for `SimNotReady`; the text unchanged for `Normal`; for locked, disabled and faulty SIMs the template joined with the text when emergency capable, the bare template otherwise |
| Messages.LockedFragmentStartsWithTemplate | packages/SystemUI/src/com/android/keyguard/CarrierText.java:399-431 | the fragment of a locked, disabled or faulty SIM is non-null and starts with its template, whatever the carrier text |
| Messages.MissingSimMessage | packages/SystemUI/src/com/android/keyguard/CarrierText.java:315-318 | the missing-SIM message when configured and telephony is up, `""` otherwise |
| Messages.AirplaneModeMessage | packages/SystemUI/src/com/android/keyguard/CarrierText.java:320-323 | the airplane-mode message when configured, `""` otherwise |
| CarrierNames.NetworkClassToString | packages/SystemUI/src/com/android/keyguard/CarrierText.java:553-564 | classes 0 to 3 give their configured name; a class of 4 or more gives `""` |
| CarrierNames.FiveGNetworkClass | packages/SystemUI/src/com/android/keyguard/CarrierText.java:587-614 | the 5G name exactly when the slot is connected on NSA and data is registered on LTE or LTE_CA; no override otherwise |
| CarrierNames.NetworkClassFor | packages/SystemUI/src/com/android/keyguard/CarrierText.java:194-217 | non-empty only with network-class display on and voice or data in service; then the 5G name when it applies, otherwise the name of the class of the data (else voice) network type; always `""`, the 5G name or a configured class name |
| CarrierNames.LocalStringFirstMatch | packages/SystemUI/src/com/android/keyguard/CarrierText.java:574-585 | the lookup returns the local name of the first entry that matches ignoring case, and the original string when no entry matches |
| CarrierNames.GetLocalString | packages/SystemUI/src/com/android/keyguard/CarrierText.java:574-585 | the linear search with early return computes the table lookup |
| CarrierNames.FirstOccurrence | packages/SystemUI/src/com/android/keyguard/CarrierText.java:220 | the first position at or after `from` where the separator occurs, or none when it does not occur there |
| CarrierNames.SplitOnce | packages/SystemUI/src/com/android/keyguard/CarrierText.java:220 | one or two segments; one exactly when the separator does not occur, and then the whole name; with two, the name is first + separator + second and the split is at the first occurrence |
| CarrierNames.RewriteSegment | packages/SystemUI/src/com/android/keyguard/CarrierText.java:223-232 | the rewritten segment is empty exactly when the (optionally localized) segment is; it gets `" " + class` when non-empty with network-class display on and a non-empty class, and is the localized segment unchanged when display is off or the class is empty |
| CarrierNames.RewriteEntry | packages/SystemUI/src/com/android/keyguard/CarrierText.java:223-232 | `names[j]` is overwritten in place by the rewrite of its old value; every other entry is unchanged |
| CarrierNames.RewrittenNameShape | packages/SystemUI/src/com/android/keyguard/CarrierText.java:218-241 | closed form of the rewrite: one segment gives its rewrite; two give the first alone when the second is empty or equal to it, and first + separator + second otherwise |
| CarrierNames.RewriteSingleSegment | packages/SystemUI/src/com/android/keyguard/CarrierText.java:220-237 | a name without the separator is rewritten as one segment |
| CarrierNames.RewriteDropsRepeatedSegment | packages/SystemUI/src/com/android/keyguard/CarrierText.java:233-235 | a second segment equal to the first after rewriting is dropped |
| CarrierNames.RewriteKeepsLeadingSeparator | packages/SystemUI/src/com/android/keyguard/CarrierText.java:236 | an empty first segment still leaves the separator in front of a non-empty second segment |
| CarrierNames.DecoratedSegmentHasSuffix | packages/SystemUI/src/com/android/keyguard/CarrierText.java:228-232 | with network-class display on and a non-empty class, a non-empty rewritten segment ends in `" " + class` |
| CarrierNames.RewriteCarrierName | packages/SystemUI/src/com/android/keyguard/CarrierText.java:219-241 | the loop over the `names` array, rewriting each entry in place and appending to the builder, computes the rewrite |
| CarrierNames.DisplayedCarrierName | packages/SystemUI/src/com/android/keyguard/CarrierText.java:218-241 | the name is rewritten only when locale or network-class display is on and the name is non-empty; otherwise it is kept as is |
| Resolution.AnySimReadyExtend | packages/SystemUI/src/com/android/keyguard/CarrierText.java:250-265 | "some SIM is ready and in service" over one more subscription is the old answer or that subscription's |
| Resolution.AccumulatedNullIff | packages/SystemUI/src/com/android/keyguard/CarrierText.java:246-249 | the folded text stays null exactly when every fragment is null, so `allSimsMissing` means every SIM is missing |
| Resolution.AccumulatedAppend | packages/SystemUI/src/com/android/keyguard/CarrierText.java:246-249 | the fold over two lists of subscriptions is the join of the two folds |
| Resolution.NoSubscriptionsText | packages/SystemUI/src/com/android/keyguard/CarrierText.java:282-301 | without a sticky broadcast, the emergency-calls text; with one, the shown PLMN alone when it equals the shown SPN, else their join |
| Resolution.SamePlmnAndSpnShownOnce | packages/SystemUI/src/com/android/keyguard/CarrierText.java:296-297 | a PLMN equal to the SPN is shown once, not joined with itself |
| Resolution.MissingSimText | packages/SystemUI/src/com/android/keyguard/CarrierText.java:267-303 | the missing-SIM message joined, when emergency capable, with the first subscription's original carrier name, or without subscriptions with the PLMN/SPN text |
| Resolution.IoErrorText | packages/SystemUI/src/com/android/keyguard/CarrierText.java:160-161 | the fragment of a faulty card with an empty name is the SIM-error message itself |
| Resolution.OverlayKeepsText | packages/SystemUI/src/com/android/keyguard/CarrierText.java:162-179 | the overlay never turns a text into null, and with no flag set it returns the text unchanged |
| Resolution.OverlayClosedForm | packages/SystemUI/src/com/android/keyguard/CarrierText.java:162-179 | walking the slots in order puts the message in front for slot 0 and appends it once per other flagged slot |
| Resolution.WithSimIoErrorCases | packages/SystemUI/src/com/android/keyguard/CarrierText.java:158-179 | no flag leaves the text unchanged; with no SIM and a flag, the result is the error message joined with the emergency-calls text, whatever the input; otherwise the closed form |
| Resolution.AppendIoErrorKeepsPrefix | packages/SystemUI/src/com/android/keyguard/CarrierText.java:174-176 | appending the error message keeps the text's prefix |
| Resolution.SlotZeroErrorLeads | packages/SystemUI/src/com/android/keyguard/CarrierText.java:170-172 | a faulty card in slot 0 puts the error message first in the displayed text, unless every SIM is missing or the airplane message applies |
| Resolution.CarrierDisplayText | packages/SystemUI/src/com/android/keyguard/CarrierText.java:181-313 | the recompute's text is never null; the airplane message when nothing is ready and in service and airplane mode is on; otherwise without flags the fold, or the no-SIM text when every SIM is missing; with every SIM missing and a flag, the error message joined with the emergency-calls text; with some SIM present and at least one slot, the fold with the error message in front when slot 0 is faulty and appended once per other faulty slot |
| Resolution.SingleReadySimShowsCarrierName | packages/SystemUI/src/com/android/keyguard/CarrierText.java:181-313 | one ready SIM with a non-empty name and no rewrite shows exactly that name |
| Keyguard.CarrierText.constructor | packages/SystemUI/src/com/android/keyguard/CarrierText.java:67 | one flag per phone slot, all clear; telephony not yet capable |
| Keyguard.CarrierText.OnTelephonyCapable | packages/SystemUI/src/com/android/keyguard/CarrierText.java:88-93 | records the flag and returns the recomputed text |
| Keyguard.CarrierText.OnSimStateChanged | packages/SystemUI/src/com/android/keyguard/CarrierText.java:95-110 | a negative slot changes nothing; otherwise only the slot's flag changes, set exactly when the status is `SimIoError`; the text is recomputed exactly when the flag is or was set |
| Keyguard.CarrierText.UpdateCarrierTextWithSimIoError | packages/SystemUI/src/com/android/keyguard/CarrierText.java:158-179 | the loop with early return computes the overlay over the current flags |
| Keyguard.CarrierText.SubscriptionCarrierText | packages/SystemUI/src/com/android/keyguard/CarrierText.java:194-242 | computes the subscription's fragment from its network class, rewritten name and SIM state |
| Keyguard.CarrierText.MissingSimCarrierText | packages/SystemUI/src/com/android/keyguard/CarrierText.java:267-304 | computes the no-SIM text |
| Keyguard.CarrierText.FoldSubscriptions | packages/SystemUI/src/com/android/keyguard/CarrierText.java:193-266 | the loop's three accumulators end as the fold of the fragments, "every SIM missing" and "some SIM ready and in service" |
| Keyguard.CarrierText.UpdateCarrierText | packages/SystemUI/src/com/android/keyguard/CarrierText.java:181-313 | one recompute returns the display text specified by the fold, the fallback, the overlay and the airplane override |

## Left out

- View lifecycle and presentation are not modelled: `onFinishInflate`, attach and detach, visibility, marquee and `setText`. A recompute returns its text instead of setting it. A device without mobile networking, which shows `""`, is not modelled.
- `CarrierTextTransformationMethod` is not modelled. It upper-cases the shown text by locale.
- Callback and receiver plumbing is not modelled: `KeyguardUpdateMonitor` registration, the other callbacks (`onRefreshCarrierInfo` only recomputes; sleep and wake only change selection), and the lazy creation of the 5G service client.
- The sticky SPN broadcast query is an optional record in the snapshot. The 5G NSA state of a subscription's slot is a field of the subscription.
- Resource and system-service lookups are configuration values: strings, flags, the network-class function and the locale table. The two parallel resource arrays of `getLocalString` are one table of pairs, plus a resolution of the local name. In the source, a local array shorter than the original array would make the lookup fail.
- CarrierNames.CharsMatch: `equalsIgnoreCase` is modelled as a pointwise match under an abstract case-folding function, not Java's Unicode rules.
- CarrierNames.SplitOnce: `String.split` treats the separator as a regular expression. The model splits on the literal separator, with at most two parts, and requires a non-empty separator.
- The static separator field is taken to be set (not null) before any recompute.
- `getCarrierHelpTextForSimState` is not modelled. It is private and never called.
- Logging and `DEBUG` branches are not modelled.
- Keyguard.CarrierText.OnSimStateChanged: a slot index at or beyond the array length is excluded by `requires`. In the source, the array access at lines 104 and 106 would throw there.
- CarrierNames.NetworkClassToString: network classes are naturals, so a negative class, on which the array access at line 561 would throw, is not modelled. `TelephonyManager.getNetworkClass` is not part of this model; it is the abstract function `networkClassOf` of the configuration.
- Keyguard.CarrierText.FoldSubscriptions, Keyguard.CarrierText.SubscriptionCarrierText, Keyguard.CarrierText.MissingSimCarrierText and CarrierNames.RewriteCarrierName are blocks inlined in `updateCarrierText`, and CarrierNames.RewriteEntry is the body of the segment loop at lines 223-232. Here they are separate methods, each proved against its specification.
- Keyguard.CarrierText.FoldSubscriptions: the nested readiness tests at lines 250-265 are evaluated as one predicate, `Resolution.ReadyAndInService`.
