# AndroidAPS core, modelled in Dafny

AndroidAPS is an artificial-pancreas application. A dosing loop decides on insulin actions. Commands on a queue carry them to a pump driver, and each command reports one `PumpEnactResult` (success, enacted, comment) to an optional callback. This project models a slice of that system and proves properties of the model:

- `SmbCommand` models the automated micro-bolus (SMB) command. Its `execute` has two guards:
  - an interval guard, which rejects a request made less than three minutes after the last recorded bolus;
  - a staleness guard, which rejects a request whose delivery deadline is unset, or a minute or more in the past.

  Only a request that passes both guards reaches the pump driver. `cancel` reports a failure and never reaches the pump.
- `PluginList` models the assembly of the plugin list.
  - The map of all plugins, keyed by integer priority, is overlaid with up to four further maps. The pump-driver, APS and non-NSClient maps are each admitted by a build flag (`PUMPDRIVERS`, `APS`, `!NSCLIENT`). The unfinished plugins are admitted by `buildHelper.isUnfinishedMode()`. Each map is read only when admitted.
  - A later map wins on a shared key.
  - The result is listed in ascending key order.
- `BuildHelper` models the build helper. It switches engineering mode on at construction and classifies the version string as a development build.
- `ProfileSwitchPoint` models the graph point of an effective profile switch, with its label built from percentage and time shift.
- `CobText` models the two carbs-on-board texts of the overview.
- `LoopEnable` models the automation action that enables the loop.
- `CarePortal` models the care-portal menu element of the automation editor: its four event types, their resources, the spinner labels and the selected value.
- `Interfaces` holds what these modules share: `Option`, `PumpEnactResult`, the `Callback` that records results, and the build `Config` flags.
- `Texts` holds a fact about character membership in concatenated strings.

Objects the source updates in place are classes: the SMB command and its pump driver, the lazy plugin maps, the build helper, the loop plugin with the settings store, event bus and user-entry log, and the care-portal menu. Their methods state the new state in terms of the old one. The small collaborators and the menu state it directly: a recorder appends one entry, and the menu's value becomes the selected type. The three main operations are each specified by a pure function, and the properties are proved about that function:
- `CommandSmbBolus.Execute` is specified by `Decide` and `ExecuteResult`.
- `ProvidesPlugins` is specified by `PluginOrder`.
- `ActionLoopEnable.DoAction` is specified by `DoActionEffect`.

The two carbs-on-board texts are methods, because the code builds a local string step by step. Code that only computes is modelled as functions and lemmas: the profile-switch label and its parts, and the event-type mappings.

The interval guard of the SMB command runs inside the command's `execute`, at dispatch time. The rejection comments are the code's own strings, "SMB requested but still in 3 min interval" and "SMB request too old".

## Model

| member | source | states |
|---|---|---|
| `Interfaces.Callback.Deliver` | implementation/src/main/java/info/nightscout/implementation/queue/commands/CommandSMBBolus.kt:41 | handing a result to the callback appends exactly that result to what it has received |
| `SmbCommand.LastBolusTime` | implementation/src/main/java/info/nightscout/implementation/queue/commands/CommandSMBBolus.kt:29 | a missing last-bolus record reads as time 0, a present one as its timestamp |
| `SmbCommand.Decide` | implementation/src/main/java/info/nightscout/implementation/queue/commands/CommandSMBBolus.kt:31-39 | the verdict is "still in interval" iff a last bolus is set and less than 3 min before now; "deliver" iff not in the interval and the deadline is set and less than 1 min past; "too old" otherwise (all three as iffs) |
| `SmbCommand.ExecuteResult` | implementation/src/main/java/info/nightscout/implementation/queue/commands/CommandSMBBolus.kt:31-38 | a delivered request yields exactly the pump's answer; each rejection yields success=false, enacted=false with its own comment |
| `SmbCommand.PumpDriver.DeliverTreatment` | implementation/src/main/java/info/nightscout/implementation/queue/commands/CommandSMBBolus.kt:35 | each call to the driver is recorded once and answered with the driver's answer |
| `SmbCommand.CommandSmbBolus.constructor` | implementation/src/main/java/info/nightscout/implementation/queue/commands/CommandSMBBolus.kt:17-25 | the command keeps its bolus request, its optional callback and its collaborators |
| `SmbCommand.CommandSmbBolus.Execute` | implementation/src/main/java/info/nightscout/implementation/queue/commands/CommandSMBBolus.kt:27-42 | the pump receives the request exactly once when the verdict is "deliver" and not at all otherwise; a non-null callback receives exactly one result, the one `ExecuteResult` gives; the pump's answer and the repository are unchanged |
| `SmbCommand.CommandSmbBolus.Cancel` | implementation/src/main/java/info/nightscout/implementation/queue/commands/CommandSMBBolus.kt:47-50 | a non-null callback receives exactly one result, the connection-timed-out failure; the pump is untouched |
| `SmbCommand.IntervalGuardRejects` | implementation/src/main/java/info/nightscout/implementation/queue/commands/CommandSMBBolus.kt:31-33 | with a last bolus set and `last + 3 min > now` the pump is not asked and the result is the interval rejection |
| `SmbCommand.MissingRecordNeverInInterval` | implementation/src/main/java/info/nightscout/implementation/queue/commands/CommandSMBBolus.kt:29-31 | without a last-bolus record the interval guard never fires |
| `SmbCommand.IntervalBoundaryIsStrict` | implementation/src/main/java/info/nightscout/implementation/queue/commands/CommandSMBBolus.kt:31 | exactly 3 min after the last bolus the interval is over; 1 ms earlier (with a last bolus set) it still holds |
| `SmbCommand.DeadlineBoundaryIsStrict` | implementation/src/main/java/info/nightscout/implementation/queue/commands/CommandSMBBolus.kt:34-37 | past the interval guard, a request exactly 1 min after its deadline is too old, and 1 ms earlier it goes to the pump |
| `SmbCommand.IntervalGuardTakesPrecedence` | implementation/src/main/java/info/nightscout/implementation/queue/commands/CommandSMBBolus.kt:31-37 | when both guards would reject, the interval comment is reported |
| `SmbCommand.StaleRequestRejected` | implementation/src/main/java/info/nightscout/implementation/queue/commands/CommandSMBBolus.kt:34-38 | past the interval guard, an unset deadline or one at least 1 min past gives the "too old" failure with no pump call |
| `SmbCommand.RejectionsNeverEnact` | implementation/src/main/java/info/nightscout/implementation/queue/commands/CommandSMBBolus.kt:31-38 | every guard rejection is unsuccessful and not enacted |
| `SmbCommand.CancelResultFails` | implementation/src/main/java/info/nightscout/implementation/queue/commands/CommandSMBBolus.kt:49 | the cancel result is unsuccessful, not enacted, with the connection-timed-out comment |
| `PluginList.KeysAscending` | app/src/main/java/info/nightscout/androidaps/di/AppModule.kt:101 | the keys of a set listed strictly ascending, each once: same count, only members, every member |
| `PluginList.SortedEntries` | app/src/main/java/info/nightscout/androidaps/di/AppModule.kt:101 | `toList().sortedBy { it.first }`: one entry per key, each a key with its own value, keys strictly ascending, and every entry of the map present |
| `PluginList.PluginsInKeyOrder` | app/src/main/java/info/nightscout/androidaps/di/AppModule.kt:101 | `toList().sortedBy { it.first }.map { it.second }` of a map: one plugin per key, the i-th being the value at the i-th smallest key, the keys strictly ascending and all present |
| `PluginList.Owner` | app/src/main/java/info/nightscout/androidaps/di/AppModule.kt:96-100 | the last merged map that holds a key, or none |
| `PluginList.Overlay` | app/src/main/java/info/nightscout/androidaps/di/AppModule.kt:96-100 | a key is in the merged map iff some merged map holds it, and its value comes from the last one that does |
| `PluginList.OverlayStep` | app/src/main/java/info/nightscout/androidaps/di/AppModule.kt:97-100 | merging one more map is Kotlin's map `+=` on the merged map so far |
| `PluginList.LazyPluginMap.Get` | app/src/main/java/info/nightscout/androidaps/di/AppModule.kt:97-100 | reading a lazy map yields its contents and counts one read |
| `PluginList.MergeIfAdmitted` | app/src/main/java/info/nightscout/androidaps/di/AppModule.kt:97-100 | a guarded `plugins += lazy.get()` adds the map as the top layer and reads it once if admitted; otherwise it changes nothing and does not read it |
| `PluginList.ProvidesPlugins` | app/src/main/java/info/nightscout/androidaps/di/AppModule.kt:86-102 | the list is the plugin order of the admitted overlay, and each lazy map is read once if its guard (a build flag, or unfinished mode) admits it, never otherwise |
| `PluginList.AllConfigsRepresented` | app/src/main/java/info/nightscout/androidaps/di/AppModule.kt:96-101 | every key of `allConfigs` survives the merge and appears in the sorted entries |
| `PluginList.OverlayPlusIf` | app/src/main/java/info/nightscout/androidaps/di/AppModule.kt:97-100 | adding a layer only when its guard holds is the guarded `+=` |
| `PluginList.MergedIsChain` | app/src/main/java/info/nightscout/androidaps/di/AppModule.kt:96-100 | the merged map equals the source's chain of four guarded `+=`, in source order |
| `PluginList.LaterMergeWins` | app/src/main/java/info/nightscout/androidaps/di/AppModule.kt:96-100 | a key is merged iff some admitted map holds it; its value is taken in the precedence unfinished > notNsClient > aps > pumpDrivers > allConfigs |
| `PluginList.ExcludedMapsIgnored` | app/src/main/java/info/nightscout/androidaps/di/AppModule.kt:97-100 | a map whose guard does not admit it (`PUMPDRIVERS`, `APS`, `!NSCLIENT`, or `isUnfinishedMode()`) can be replaced by an empty map without changing the list |
| `PluginList.OnePluginPerKey` | app/src/main/java/info/nightscout/androidaps/di/AppModule.kt:101 | the list has exactly one element per distinct key of the merged map |
| `PluginList.ProvidedListInKeyOrder` | app/src/main/java/info/nightscout/androidaps/di/AppModule.kt:96-101 | the provided list has one plugin per merged key, the i-th being the merged plugin at the i-th smallest merged key |
| `BuildHelper.ContainsDash` | app/src/main/java/info/nightscout/androidaps/utils/buildHelper/BuildHelperImpl.kt:18 | true iff some character of the version is '-' |
| `BuildHelper.MatchesLetterPattern` | app/src/main/java/info/nightscout/androidaps/utils/buildHelper/BuildHelperImpl.kt:18 | whole-string match of `.*[a-zA-Z]+.*`: true iff the version has an ASCII letter and no line terminator |
| `BuildHelper.NoLineTerminator` | app/src/main/java/info/nightscout/androidaps/utils/buildHelper/BuildHelperImpl.kt:18 | true iff no character is one that the regex's `.` does not match |
| `BuildHelper.DevVersionOfOneLine` | app/src/main/java/info/nightscout/androidaps/utils/buildHelper/BuildHelperImpl.kt:18 | for a one-line version, a development build iff it contains '-' or an ASCII letter |
| `BuildHelper.BuildHelperImpl.constructor` | app/src/main/java/info/nightscout/androidaps/utils/buildHelper/BuildHelperImpl.kt:16-19 | after construction engineering mode is on and the dev flag is the version's classification |
| `BuildHelper.BuildHelperImpl.IsEngineeringModeOrRelease` | app/src/main/java/info/nightscout/androidaps/utils/buildHelper/BuildHelperImpl.kt:21-22 | true whenever APS is off; with APS on and engineering mode off it is the negated dev flag; under the construction invariant it is always true |
| `BuildHelper.BuildHelperImpl.IsEngineeringMode` | app/src/main/java/info/nightscout/androidaps/utils/buildHelper/BuildHelperImpl.kt:24 | true under the construction invariant |
| `BuildHelper.ConstructedHelper` | app/src/main/java/info/nightscout/androidaps/utils/buildHelper/BuildHelperImpl.kt:16-26 | a freshly built helper reports engineering mode and engineering-or-release, and `isDev` is the version's classification |
| `ProfileSwitchPoint.DigitChar` | core/core-main/src/main/java/info/nightscout/androidaps/plugins/general/overview/graphExtensions/EffectiveProfileSwitchDataPoint.kt:20 | the character for a digit value is a digit with that value |
| `ProfileSwitchPoint.NatString` | core/core-main/src/main/java/info/nightscout/androidaps/plugins/general/overview/graphExtensions/EffectiveProfileSwitchDataPoint.kt:20 | the decimal notation of a natural number is nonempty, all digits, with no leading zero |
| `ProfileSwitchPoint.DecimalString` | core/core-main/src/main/java/info/nightscout/androidaps/plugins/general/overview/graphExtensions/EffectiveProfileSwitchDataPoint.kt:20-22 | the notation of an integer is nonempty digits, with a leading '-' exactly for negative numbers |
| `ProfileSwitchPoint.NatStringRoundTrip` | core/core-main/src/main/java/info/nightscout/androidaps/plugins/general/overview/graphExtensions/EffectiveProfileSwitchDataPoint.kt:20 | the digits of a natural read back to it |
| `ProfileSwitchPoint.DecimalStringRoundTrip` | core/core-main/src/main/java/info/nightscout/androidaps/plugins/general/overview/graphExtensions/EffectiveProfileSwitchDataPoint.kt:20-22 | the notation of an integer reads back to it, so distinct percentages and shifts print differently |
| `ProfileSwitchPoint.PointGeometry` | core/core-main/src/main/java/info/nightscout/androidaps/plugins/general/overview/graphExtensions/EffectiveProfileSwitchDataPoint.kt:15-23 | x is the switch's timestamp, the duration is 0, and `setY` leaves the point as it is |
| `ProfileSwitchPoint.LabelEmptyIffDefault` | core/core-main/src/main/java/info/nightscout/androidaps/plugins/general/overview/graphExtensions/EffectiveProfileSwitchDataPoint.kt:18-22 | the label is empty iff the percentage is 100 and the shift is 0 |
| `ProfileSwitchPoint.LabelStartsWithPercentage` | core/core-main/src/main/java/info/nightscout/androidaps/plugins/general/overview/graphExtensions/EffectiveProfileSwitchDataPoint.kt:20 | a percentage other than 100 begins the label as "<percentage>%"; at 100 the label is the shift part alone |
| `ProfileSwitchPoint.LabelEndsWithShift` | core/core-main/src/main/java/info/nightscout/androidaps/plugins/general/overview/graphExtensions/EffectiveProfileSwitchDataPoint.kt:22 | a shift other than 0 ends the label as "<hours><short hour>"; without a shift the label is the percentage part alone |
| `ProfileSwitchPoint.NoCommaInDecimal` | core/core-main/src/main/java/info/nightscout/androidaps/plugins/general/overview/graphExtensions/EffectiveProfileSwitchDataPoint.kt:20-22 | printed numbers contain no comma |
| `ProfileSwitchPoint.CommaIffBothParts` | core/core-main/src/main/java/info/nightscout/androidaps/plugins/general/overview/graphExtensions/EffectiveProfileSwitchDataPoint.kt:21 | when the short-hour text has no comma, the label contains a comma iff both the percentage and the shift are shown |
| `CobText.TruncateToInt` | core/core-main/src/main/java/info/nightscout/core/iob/CobInfoExtension.kt:22 | `toInt()` truncates toward zero: the result is within one of the value, on the zero side |
| `CobText.GenerateCobString` | core/core-main/src/main/java/info/nightscout/core/iob/CobInfoExtension.kt:9-18 | "--g" when carbs on board are unknown; otherwise the formatted value, the future-carbs part and "g"; always ending in 'g' |
| `CobText.DisplayText` | core/core-main/src/main/java/info/nightscout/core/iob/CobInfoExtension.kt:20-27 | absent iff carbs on board are unknown; otherwise the formatted whole grams, the future-carbs part, and a newline with the time iff in a dev build |
| `CobText.ParenthesisIffFutureCarbs` | core/core-main/src/main/java/info/nightscout/core/iob/CobInfoExtension.kt:13-14 | when the number format writes no '(', the short text has a '(' iff there are future carbs |
| `LoopEnable.LoopPlugin.SetPluginEnabled` | automation/src/main/java/info/nightscout/automation/actions/ActionLoopEnable.kt:32 | the loop plugin's enabled state becomes the requested one |
| `LoopEnable.ConfigBuilder.StoreSettings` | automation/src/main/java/info/nightscout/automation/actions/ActionLoopEnable.kt:33 | one settings store is recorded with its origin |
| `LoopEnable.RxBus.Send` | automation/src/main/java/info/nightscout/automation/actions/ActionLoopEnable.kt:34 | one event is recorded as sent |
| `LoopEnable.UserEntryLogger.Log` | automation/src/main/java/info/nightscout/automation/actions/ActionLoopEnable.kt:35 | one user entry is recorded with its action, source and note |
| `LoopEnable.DoActionEffect` | automation/src/main/java/info/nightscout/automation/actions/ActionLoopEnable.kt:30-40 | afterwards the loop is enabled and the result is successful. If it was disabled, one settings store, one overview refresh event and one LOOP_ENABLED user entry are added and the comment is "ok". If it was already enabled, nothing changes and the comment is "already enabled". |
| `LoopEnable.DoActionIdempotent` | automation/src/main/java/info/nightscout/automation/actions/ActionLoopEnable.kt:31-38 | a second action right after the first takes the "already enabled" branch and changes nothing |
| `LoopEnable.ActionLoopEnable.constructor` | automation/src/main/java/info/nightscout/automation/actions/ActionLoopEnable.kt:19-24 | the action keeps its collaborators and title |
| `LoopEnable.ActionLoopEnable.DoAction` | automation/src/main/java/info/nightscout/automation/actions/ActionLoopEnable.kt:30-40 | the collaborators end up as `DoActionEffect` says, and the callback receives exactly one result, the one it says |
| `LoopEnable.ActionLoopEnable.IsValid` | automation/src/main/java/info/nightscout/automation/actions/ActionLoopEnable.kt:42 | the action is always valid |
| `CarePortal.EventType.Ordinal` | automation/src/main/java/info/nightscout/androidaps/plugins/general/automation/elements/InputCarePortalMenu.kt:19-23 | each of the four types has an ordinal below four |
| `CarePortal.OrdinalRoundTrip` | automation/src/main/java/info/nightscout/androidaps/plugins/general/automation/elements/InputCarePortalMenu.kt:78-83 | every type sits in `values()` at its ordinal |
| `CarePortal.PositionRoundTrip` | automation/src/main/java/info/nightscout/androidaps/plugins/general/automation/elements/InputCarePortalMenu.kt:78-83 | the type at each spinner position has that position as its ordinal |
| `CarePortal.TherapyTypesDistinct` | automation/src/main/java/info/nightscout/androidaps/plugins/general/automation/elements/InputCarePortalMenu.kt:19-23 | each type maps to its own therapy-event type, and no two types share one |
| `CarePortal.ResourcesDistinct` | automation/src/main/java/info/nightscout/androidaps/plugins/general/automation/elements/InputCarePortalMenu.kt:25-46 | no two types share a name, a message or an icon resource |
| `CarePortal.Labels` | automation/src/main/java/info/nightscout/androidaps/plugins/general/automation/elements/InputCarePortalMenu.kt:49-55 | one label per type, in declaration order, each the looked-up name of that type |
| `CarePortal.InputCarePortalMenu.constructor` | automation/src/main/java/info/nightscout/androidaps/plugins/general/automation/elements/InputCarePortalMenu.kt:63 | a new menu's value is NOTE |
| `CarePortal.InputCarePortalMenu.WithValue` | automation/src/main/java/info/nightscout/androidaps/plugins/general/automation/elements/InputCarePortalMenu.kt:59-61 | the secondary constructor starts from the given type |
| `CarePortal.InputCarePortalMenu.InitialSelection` | automation/src/main/java/info/nightscout/androidaps/plugins/general/automation/elements/InputCarePortalMenu.kt:83 | the spinner starts at a valid position holding the current value |
| `CarePortal.InputCarePortalMenu.OnItemSelected` | automation/src/main/java/info/nightscout/androidaps/plugins/general/automation/elements/InputCarePortalMenu.kt:78 | selecting a position makes that position's type the value, and the next layout preselects the same position |
| `CarePortal.InputCarePortalMenu.SetValue` | automation/src/main/java/info/nightscout/androidaps/plugins/general/automation/elements/InputCarePortalMenu.kt:87-90 | the value becomes the given type and the same menu is returned |

## Left out

- Logging (`aapsLogger.debug`), `status()` and `log()` of the SMB command, and every user-interface part are not modelled. The UI parts are `addToLayout`, the spinner adapter and layout parameters, `color`, `getY`, `shape`, `size`, `friendlyName`, `shortDescription` and `icon`. They produce only text, layout or log output.
- The command queue around the SMB command, the constraint engine, dependency injection and the pump driver's internals are not part of this model. The pump driver is a recorder that answers with a given result.
- Clocks are parameters: `dateUtil.now()` and `System.currentTimeMillis()` are two independent inputs of `Execute`.
- `DecimalFormatter.to0Decimal`, `T.msecs(..).hours()`, resource lookups (`rh.gs`, `format_carbs`, `shorthour`) and `dateUtil.timeString` are opaque functions passed as parameters. Properties that depend on their output say what they assume about it, for example that the number format writes no '(' or that the short-hour text has no comma.
- Timestamps and Kotlin `Long`/`Int` values are unbounded integers: overflow of `lastBolusTime + 3 min` or `deliverAtTheLatest + 1 min` near the `Long` limit is not modelled.
- Kotlin `Double` values are reals. There is no NaN or infinity, and `getX` gives the timestamp as an integer rather than its `Double` conversion.
- CobText.TruncateToInt: `Double.toInt()` also saturates at the `Int` range and maps NaN to 0. The model truncates toward zero without a bound.
- `PumpEnactResultObject` is not part of this model. A fresh result is taken as unsuccessful, not enacted, with an empty comment. The commands set every field they rely on, except `enacted` in `cancel` and in the loop action, which keep that default.
- Comments given by a string resource (`connectiontimedout`, `ok`, `alreadyenabled`) are modelled by the resource name, not by the localized text.
- `BuildHelperImpl` does not define `isUnfinishedMode()`, so its answer is a boolean input of `ProvidesPlugins`.
- PluginList.ProvidesPlugins: requires the four lazy maps to be distinct objects. With Dagger they are four distinct qualified bindings.
- `PluginBase` values are an arbitrary type parameter; nothing about plugins beyond their identity is modelled.
- `BuildConfig.VERSION` is a constructor parameter of the build helper, and `fileListProvider` is unused by the code and left out.
- BuildHelper.MatchesLetterPattern: `.*[a-zA-Z]+.*` is stricter than "contains a letter". A version with a line terminator does not match it, and the model keeps that. For one-line versions the two agree (`DevVersionOfOneLine`).
- The loop plugin, settings store, event bus and user-entry log are recorders of what the action asks of them. Persisting settings and delivering events are not modelled.
- The title of the loop action, inherited from its base class, is a constructor parameter.
- Only the four care-portal event types of the menu are modelled, not the other `TherapyEvent.Type` values. Resource identifiers are their resource names.
- CarePortal.InputCarePortalMenu.OnItemSelected: requires a position within the four entries. The spinner only reports positions of its own adapter, and any other position would throw in `values()[position]`.
