# Smart-home dashboard: decision rules, modelled in Dafny

The dashboard lists smart-home devices and lets the user edit them. A device is
a water heater, light, air conditioner, door lock or curtain. Most of the
program draws screens. This project models the small decision rules inside
those screens:

- the per-type parameter schema and its constants;
- how the creation form normalises parameters, checks a submission, and picks
  an initial status;
- the three edit-in-place widgets (text, number, 24-hour time);
- the status toggle, and which request each device edit sends;
- the table of editable parameters per device type;
- the list view's grouping, title-case labels and ID-uniqueness check;
- how device IDs become queries, and how query results are combined;
- the alert chosen for a failed request, and the cache effects of each mutation.

One Dafny module per source file:

| module | file | models |
|---|---|---|
| `Values` | `values.dfy` | shared vocabulary: `Option`, JSON-like `Value` with JavaScript truthiness, the `Device` record |
| `Constants` | `constants.dfy` | `src/constants/index.js` |
| `TimeInput` | `time_input.dfy` | `src/components/TimeInput.jsx` |
| `NumberInput` | `number_input.dfy` | `src/components/NumberInput.jsx` |
| `TextInput` | `text_input.dfy` | `src/components/TextInput.jsx` |
| `NewDeviceForm` | `new_device_form.dfy` | `src/components/NewDeviceForm.jsx` |
| `DeviceView` | `device.dfy` | `src/components/Device.jsx` |
| `DeviceOptions` | `device_options.dfy` | `src/components/DeviceOptions.jsx` |
| `DeviceList` | `device_list.dfy` | `src/components/DeviceList.jsx` |
| `Queries` | `queries.dfy` | `src/services/queries.js` |
| `Mutations` | `mutations.dfy` | `src/services/mutations.js` |

Modelling choices:

- **Parameter map.** A parameter object is a `map<string, Value>`. An absent
  key stands for `undefined`; `null` is the value `VNull`.
- **Form normalisation.** `cleanParameters` writes defaults into a copy one
  field at a time, then filters the keys. It is modelled as methods that do
  the same, each proved equal to a declarative function (`WithDefaults`,
  `Cleaned`). The per-type properties are lemmas about those functions.
- **Widgets.** Each widget is a class. Its fields are:
  - `editing`;
  - the text or number in the input element (`None` while the element's ref
    is `null`);
  - a log of `onSave` arguments;
  - a log of alerts, where the widget raises any.
- **Effects as values.** `alert`, `confirm`, `onSave`, `addDevice` and the
  query-cache calls appear as returned values or logs, never as side effects.
- **Code as written.** Three quirks are reproduced exactly:
  - the water heater's allowed-key list spells `"temeprature"`;
  - the type selector's `curtain` case has no `break`, so it falls through;
  - `capitalize` replaces only the first underscore.

## Model

| member | source | states |
|---|---|---|
| `Constants.RangesNonEmpty` | src/constants/index.js:1-12 | each range has minimum ≤ maximum: water 49..60, AC 16..30, brightness 0..100 |
| `Constants.DefaultsInRange` | src/constants/index.js:1-35 | the water-heater default (60) is in its range, at the upper bound; the AC default (24) and the brightness default (80) are in theirs |
| `DeviceOptions.DefaultsAreOffered` | src/components/DeviceOptions.jsx:152-193 | the default AC mode "cool", fan "low" and swing "off" are among the options offered for those fields |
| `NewDeviceForm.CleanParameters` | src/components/NewDeviceForm.jsx:52-142 | `cleanParameters`: the result equals `Cleaned`, the defaulted working copy restricted to the type's allowed keys |
| `NewDeviceForm.ApplyDefaults` | src/components/NewDeviceForm.jsx:53-132 | the `switch` produces the type's allowed-key list and the working copy `WithDefaults` describes; an unknown type keeps an empty list |
| `NewDeviceForm.FillWaterHeater` | src/components/NewDeviceForm.jsx:65-81 | water-heater defaults: `temperature`, `target_temperature` and `timer_enabled` are filled when undefined; the schedule is filled only when the timer flag is truthy |
| `NewDeviceForm.FillLight` | src/components/NewDeviceForm.jsx:85-100 | light defaults: `brightness` is filled only when dimmable, and `color` only when dynamic colour is on; each flag is read after its own default |
| `NewDeviceForm.FillDoorLock` | src/components/NewDeviceForm.jsx:104-109 | door-lock defaults: with auto-lock on, `battery_level` is overwritten with 100 |
| `NewDeviceForm.FillAirConditioner` | src/components/NewDeviceForm.jsx:117-128 | the four AC fields are each filled when undefined |
| `NewDeviceForm.KeepAllowed` | src/components/NewDeviceForm.jsx:135-141 | the filter-and-reduce keeps exactly the keys of the working copy that are in the allowed list, each with its value there |
| `NewDeviceForm.CleanedIsRestriction` | src/components/NewDeviceForm.jsx:135-141 | every key of the result is allowed for the type, and its value equals the one in the defaulted working copy |
| `NewDeviceForm.UnknownTypeCleansToEmpty` | src/components/NewDeviceForm.jsx:55-56 | for an empty or unknown type the allowed list stays empty, so the result is the empty map |
| `NewDeviceForm.AirConditionerComplete` | src/components/NewDeviceForm.jsx:115-129 | an air conditioner always has exactly the keys `temperature`, `mode`, `fan_speed` and `swing` |
| `NewDeviceForm.AirConditionerKeepsSupplied` | src/components/NewDeviceForm.jsx:117-128 | supplied AC values are kept, and missing ones become 24, "cool", "low" and "off" |
| `NewDeviceForm.WaterHeaterShape` | src/components/NewDeviceForm.jsx:57-81 | `target_temperature` and `timer_enabled` are always present; the schedule is defaulted iff the timer is on, and otherwise kept only if supplied; `temperature` never survives, because the list spells it "temeprature" |
| `NewDeviceForm.DefaultScheduleValid` | src/components/NewDeviceForm.jsx:74-81 | with the timer on and no schedule supplied, the schedule becomes "06:30" to "08:00": both pass the time widget's 24-hour check, and the start is earlier in the day than the stop |
| `NewDeviceForm.LightShape` | src/components/NewDeviceForm.jsx:83-101 | both light flags are always present; `brightness` is defaulted only when dimmable, and `color` only when dynamic colour is on |
| `NewDeviceForm.DoorLockAndCurtainOverwrite` | src/components/NewDeviceForm.jsx:102-114 | with auto-lock on, the battery level is 100 whatever was supplied; a curtain's parameters are exactly `{position: 100}` |
| `NewDeviceForm.StatusForType` | src/components/NewDeviceForm.jsx:216-225 | the status is "unlocked" iff the new type is door_lock or curtain (the curtain case falls through); otherwise it is "off" |
| `NewDeviceForm.DeviceForm.SelectType` | src/components/NewDeviceForm.jsx:213-226 | the type select stores the type, and the status that the last `setStatus` write leaves |
| `NewDeviceForm.DeviceForm.SetId` | src/components/NewDeviceForm.jsx:175-177 | the ID field's `onSave` stores the new ID |
| `NewDeviceForm.DeviceForm.SetName` | src/components/NewDeviceForm.jsx:185-187 | the name field's `onSave` stores the new name |
| `NewDeviceForm.DeviceForm.SetRoom` | src/components/NewDeviceForm.jsx:195-197 | the room field's `onSave` stores the new room |
| `NewDeviceForm.DeviceForm.SetParameter` | src/components/NewDeviceForm.jsx:240-243 | a parameter widget's `onSave` sets that one key and keeps every other parameter |
| `NewDeviceForm.DeviceForm.ToggleParameter` | src/components/NewDeviceForm.jsx:255-261 | a flag checkbox stores the negation of `parameters[key] ?? default`, and leaves other keys unchanged |
| `NewDeviceForm.DeviceForm.Submit` | src/components/NewDeviceForm.jsx:144-167 | `addDevice` is called iff id ≠ "", `verifyId` returns true, and name, room and type ≠ ""; when `verifyId` throws, neither an alert nor a device results; otherwise exactly one alert is raised, for the first failing check in that order; the added record carries the cleaned parameters |
| `TimeInput.VerifyValueIsClockFace` | src/components/TimeInput.jsx:27-39 | `verifyValue` accepts exactly the strings `HH:MM` with HH in 00..23 and MM in 00..59 |
| `TimeInput.VerifyValue` | src/components/TimeInput.jsx:27-39 | `null` is rejected; a text is accepted iff it has five characters, ':' in the middle and digits elsewhere, the two-digit hour is below 24 and the two-digit minute below 60 |
| `TimeInput.ClockFaceRoundTrip` | src/components/TimeInput.jsx:30-34 | the hour and minute read from a zero-padded clock face are the ones it was made from |
| `TimeInput.RejectedForms` | src/components/TimeInput.jsx:34-38 | null, "6:30", "06:30x", "x06:30", "24:00", "12:60" and "" are rejected; "00:00" and "23:59" are accepted |
| `TimeInput.TimeField.Click` | src/components/TimeInput.jsx:42-53 | while editing, a valid time leaves edit mode and is saved once; an invalid one keeps edit mode, raises the alert and saves nothing; while viewing, the click enters edit mode and never saves |
| `TimeInput.TimeField.Shown` | src/components/TimeInput.jsx:65-66 | while viewing, the widget shows `initValue` while the ref is null, and otherwise the input's last text |
| `TimeInput.EditSession` | src/components/TimeInput.jsx:42-53 | one edit saves the typed text exactly when it is a valid time, and that text is then shown |
| `NumberInput.FiniteRange` | src/components/NumberInput.jsx:30-32 | with finite bounds, a value is accepted iff min ≤ v ≤ max, both bounds inclusive |
| `NumberInput.VerifyValue` | src/components/NumberInput.jsx:30-32 | with finite bounds a value passes iff min ≤ v ≤ max; with the default bounds every value passes; a value passes only when min ≤ max |
| `NumberInput.DefaultBoundsAcceptAll` | src/components/NumberInput.jsx:9-11 | with the default bounds −∞ and +∞, every number is accepted |
| `NumberInput.AlertFor` | src/components/NumberInput.jsx:41-47 | the "between" message iff both bounds are finite; "lower than max" iff min is −∞; "greater than min" otherwise |
| `NumberInput.AlertNamesViolatedBound` | src/components/NumberInput.jsx:40-47 | a one-sided message names a bound the rejected value actually violates |
| `NumberInput.NumberField.Click` | src/components/NumberInput.jsx:35-52 | a value in range leaves edit mode and is saved once; a value out of range keeps edit mode, saves nothing and raises the chosen alert; a click while viewing only enters edit mode |
| `NumberInput.NumberField.Shown` | src/components/NumberInput.jsx:64-65 | while viewing, the widget shows `initValue` while the ref is null, and otherwise the last input |
| `NumberInput.EditSession` | src/components/NumberInput.jsx:35-52 | one edit within `[lo, hi]` is saved with no alert; an edit outside it is not saved and raises the "between" alert |
| `TextInput.TextField.Click` | src/components/TextInput.jsx:27-32 | every click flips `editing`; `onSave` runs iff the click leaves edit mode, then exactly once with the input's text; entering edit mode never saves |
| `TextInput.TextField.Shown` | src/components/TextInput.jsx:44-45 | while viewing, the widget shows `initValue` while the ref is null, and otherwise the last input text |
| `TextInput.EditSession` | src/components/TextInput.jsx:27-32 | any text, the empty one included, is saved by one edit with no validation, and is then shown |
| `DeviceView.NextStatus` | src/components/Device.jsx:46-76 | the toggle lands on one of the type's two statuses, and from either of them it moves to the other one |
| `DeviceView.Checked` | src/components/Device.jsx:44-74 | the checkbox is checked only in one of the type's two statuses ("open", "locked" or "on") |
| `DeviceView.NextStatusCanonical` | src/components/Device.jsx:38-84 | the toggle always lands on one of the type's two statuses; from any other status it goes to "open", "unlocked" or "on" |
| `DeviceView.ToggleIsInvolution` | src/components/Device.jsx:46-76 | from a canonical status, toggling twice returns it (open→closed→open, unlocked→locked→unlocked, on→off→on), and each toggle flips the checkbox |
| `DeviceView.DoorLockUnknownStatusStaysUnchecked` | src/components/Device.jsx:59-61 | a door lock in an unknown status shows unchecked, and its first toggle goes to "unlocked", which is still unchecked |
| `DeviceView.Dispatch` | src/components/Device.jsx:21-126 | status, name and room edits call `updateDevice` with this id and a one-key `changes` object; parameter edits call `deviceAction` with the payload; `removeDevice(id)` is called only when confirmed |
| `DeviceView.FieldEditsAreSingleKeyUpdates` | src/components/Device.jsx:21-28 | field edits always use the update channel, with exactly one key among status, name and room |
| `DeviceOptions.Editors` | src/components/DeviceOptions.jsx:24-230 | at most four editors and no key twice; every numeric editor has a non-empty range and every select a non-empty option list; types other than water heater, light and air conditioner get none |
| `DeviceOptions.Admissible` | src/components/DeviceOptions.jsx:24-230 | a value a widget hands over is within the numeric widget's bounds, and one of the options for a select; a time widget accepts a value iff it is the zero-padded `HH:MM` clock face of an hour below 24 and a minute below 60; a checkbox ignores the value |
| `DeviceOptions.Payload` | src/components/DeviceOptions.jsx:36-200 | every `onSave` payload has exactly one key; a checkbox sends the negation of the current flag, and every other widget sends its value |
| `DeviceOptions.WaterHeaterEdits` | src/components/DeviceOptions.jsx:25-90 | each water-heater edit sends one key among `target_temperature`, `timer_enabled`, `scheduled_on` and `scheduled_off`; the timer checkbox sends `!timer_enabled` |
| `DeviceOptions.LightEditorsFollowFlags` | src/components/DeviceOptions.jsx:91-131 | `brightness` is editable iff `is_dimmable` is truthy, `color` iff `dynamic_color` is truthy, and nothing else is editable |
| `DeviceOptions.AirConditionerEdits` | src/components/DeviceOptions.jsx:132-204 | the four AC fields are edited separately; mode ∈ {cool, heat, fan}, fan ∈ {off, low, medium, high}, swing ∈ {off, on, auto} |
| `DeviceOptions.ReadOnlyTypes` | src/components/DeviceOptions.jsx:205-229 | door locks, curtains and unknown types offer no editor, so nothing reaches `onSave` |
| `DeviceOptions.NumericEditsBounded` | src/components/DeviceOptions.jsx:32-35 | a numeric edit its widget accepts lies within the type's constant range: water [49,60], brightness [0,100], AC [16,30] |
| `DeviceList.Present` | src/components/DeviceList.jsx:86 | undefined results are dropped: the devices kept are exactly those that were present |
| `DeviceList.PresentAppend` | src/components/DeviceList.jsx:86 | dropping undefined results keeps relative order (it distributes over concatenation) |
| `DeviceList.PropertyKey` | src/components/DeviceList.jsx:88-95 | a present field value is used as the group key; a missing one becomes the key "null" |
| `DeviceList.GroupKey` | src/components/DeviceList.jsx:88-95 | a device's group key is its type or its room, depending on the mode, and "null" when that field is missing |
| `DeviceList.GroupBy` | src/components/DeviceList.jsx:88-95 | there is one group per key that occurs; each group lists the devices with that key, in their original order; a missing field is grouped under "null" |
| `DeviceList.MembersExact` | src/components/DeviceList.jsx:88-95 | a device is in a group iff it occurs in the input with that group's key, so every device lands in exactly one group |
| `DeviceList.MembersEmpty` | src/components/DeviceList.jsx:88-95 | a key's group is empty iff no device has that key |
| `DeviceList.GroupSizesAddUp` | src/components/DeviceList.jsx:88-95 | the devices in one group plus those outside it account for every device |
| `DeviceList.GroupsFor` | src/components/DeviceList.jsx:89-98 | "type" and "room" group by that field; any other setting renders the error page |
| `DeviceList.Capitalize` | src/components/DeviceList.jsx:103-109 | `capitalize` returns a label iff the text, after its first underscore becomes a space, has no empty word; the label has the text's length |
| `DeviceList.ReplaceFirstUnderscore` | src/components/DeviceList.jsx:105 | only the first underscore becomes a space: every character at any other position, later underscores included, is kept |
| `DeviceList.CapitalizeSpec` | src/components/DeviceList.jsx:103-109 | `capitalize` fails iff, after its first underscore is replaced, the text has an empty word; otherwise it keeps the length, upper-cases the first letter of each word and lower-cases the rest |
| `DeviceList.EmptyWordIff` | src/components/DeviceList.jsx:106-107 | splitting on spaces yields an empty word iff the text is empty, starts or ends with a space, or has two spaces in a row |
| `DeviceList.TitleCaseByCharacter` | src/components/DeviceList.jsx:105-108 | title-casing word by word and rejoining equals title-casing character by character |
| `DeviceList.CapitalizeSnakePair` | src/components/DeviceList.jsx:103-109 | `a_b`, with no underscore in `a`, becomes the title-cased words `A B` |
| `DeviceList.TypeLabelExample` | src/components/DeviceList.jsx:103-109 | "water_heater" becomes "Water Heater" |
| `DeviceList.NullAndEmptyLabels` | src/components/DeviceList.jsx:103-113 | the "null" group is labelled "Null", and an empty label throws |
| `DeviceList.BuildGroupViews` | src/components/DeviceList.jsx:111-122 | given an enumeration of exactly the group keys, each once: one view per key, in enumeration order, each with its capitalised title and its devices; every group appears exactly once; `None` iff some label throws; the `label !== null` test never drops a group |
| `DeviceList.ViewsInOrder` | src/components/DeviceList.jsx:111-122 | the loop itself, for any label function: the views follow the keys one to one, and it stops at the first key whose label throws |
| `DeviceList.EveryGroupListedOnce` | src/components/DeviceList.jsx:111-122 | views that follow an enumeration of the keys of `groups` list every group, each under a different key |
| `DeviceList.VerifyId` | src/components/DeviceList.jsx:179-187 | false iff a device with this id comes before any undefined entry; true iff every entry is present and has a different id; otherwise reading `device.id` throws |
| `DeviceList.ListView.ToggleGroupBy` | src/components/DeviceList.jsx:153-156 | the group-by button alternates between "room" and "type" |
| `DeviceList.ListView.OpenForm` | src/components/DeviceList.jsx:160-166 | "Add device" shows the form |
| `DeviceList.ListView.CloseForm` | src/components/DeviceList.jsx:40-44 | the reset callback hides the form |
| `DeviceList.ListView.Groups` | src/components/DeviceList.jsx:86-95 | with a stored setting, the view always groups the present devices, by type or by room |
| `Queries.NormalizeIds` | src/services/queries.js:6-10 | an array is used unchanged, null or undefined becomes [], and any other value becomes a one-element list |
| `Queries.NormalizeIdsIdempotent` | src/services/queries.js:6-10 | normalising a normalised list changes nothing; a non-array gives at most one ID |
| `Queries.DeviceQueries` | src/services/queries.js:12-17 | one query per ID, keyed ["device", id], in the order of the IDs |
| `Queries.DeviceQueriesOnePerId` | src/services/queries.js:12-17 | every query key starts with "device" and gives back its ID; two keys are equal iff their IDs are equal |
| `Queries.AnyPending` | src/services/queries.js:25 | true iff some result is pending |
| `Queries.AnyError` | src/services/queries.js:26 | true iff some result has an error |
| `Queries.CombineDevices` | src/services/queries.js:22-29 | `data` and `errors` have the results' length; `data[i]` is result i's data; `errors[i]` is its error, or "" when it has none; each flag holds iff some result has it |
| `Mutations.HandleError` | src/services/mutations.js:8-16 | the alert is `response.data.error` when the response and its data are objects, and `error.message` otherwise |
| `Mutations.HandleErrorPrefersServerMessage` | src/services/mutations.js:9-15 | the alert differs from the error's own message only when the server answered with a JSON object; an object without `error` shows "undefined" |
| `Mutations.Effects` | src/services/mutations.js:21-80 | the callbacks run at least one effect; a failure starts with `handleError`'s alert and raises no other alert; only a delete removes a query, as its last effect; the form is reset first iff a create succeeded |
| `Mutations.OneAlertPerFailure` | src/services/mutations.js:26-72 | a failed mutation raises exactly one alert, the one `handleError` chooses, before anything else; a successful one raises none |
| `Mutations.CreateRefreshesEverything` | src/services/mutations.js:27-32 | after a create, `resetForm` runs first, then ["device_ids"] is invalidated, then ["device"], which covers every per-device query of `useDevices` |
| `Mutations.CreateIsResetThenReload` | src/components/DeviceList.jsx:48-52 | a successful create is the form reset followed by exactly what the Reload button does |
| `Mutations.UpdateRefreshesItsDevice` | src/services/mutations.js:42-48 | after an update, ["device_ids"] and then ["device", id] are invalidated, and no other device's query is touched |
| `Mutations.DeleteAlwaysDropsItsDevice` | src/services/mutations.js:57-63 | a delete removes ["device", id] last, whether it succeeded or failed; ["device_ids"] is refreshed iff it succeeded |
| `Mutations.ActionRefreshesOnlyItsDevice` | src/services/mutations.js:73-78 | after an action only ["device", id] is invalidated: never the ID list, never another device |
| `Mutations.FailureRefreshesNothing` | src/services/mutations.js:26-72 | a failed create, update or action touches no cached query |
| `Mutations.FromRequest` | src/components/DeviceGroup.jsx:35-43 | a panel's update, action and remove callbacks call the update, action and delete mutations with the same ID and changes |
| `Mutations.PanelEditTouchesOnlyItsDevice` | src/components/DeviceGroup.jsx:35-43 | whatever the user does in a device's panel, once the request succeeds that device's query is refreshed or dropped, and no other device's query is touched |

## Left out

- Rendering, styling and focus effects (`useEffect` with `focus()`) are not
  modelled. Neither are `Select.jsx`, the `disabled` flag that
  `DeviceGroup.jsx` passes to each panel, and the loading/error status lines
  of the list view. `DeviceGroup.jsx` is represented only by the wiring of a
  panel's callbacks to the mutations (`Mutations.FromRequest`).
- The HTTP client `src/services/api.js` is not part of this model. It makes
  six calls on four paths: GET `/api/ids`; GET, PUT and DELETE
  `/api/devices/{id}`; POST `/api/devices`; POST `/api/devices/{id}/action`.
- The query library's fetching, caching, retries and concurrency are not
  modelled. A query is its key. An invalidation or removal is an effect
  carrying a key filter. Prefix matching (`Queries.Matches`) is assumed to be
  how a filter selects queries.
- The 60-second idle reload, `setTimeout`/`clearTimeout`, the window
  `mousemove`/`keydown` listeners, `Date.now()`, `toLocaleTimeString` and the
  `formKey` reset are left out: they are timers, clocks and DOM events.
- `alert`, `confirm` and `console.log` appear only as returned messages or
  boolean inputs.
- JavaScript coercion is simplified:
  - `NumberInput` compares the input's string against numbers and saves a
    string. The model uses integers on both sides, so NaN, fractions and
    empty inputs are not covered.
  - Truthiness ignores NaN and objects.
  - A parameter key bound explicitly to `undefined` is treated as absent.
- `TimeInput.VerifyValue` is a character-level predicate, not a regular
  expression engine. Characters above ASCII are never digits, so the result
  is the same.
- `DeviceList.Present`: `Option` has one case for a missing result, so a
  `null` entry in the query data is dropped like `undefined`. The source
  keeps a `null` (it tests `result !== undefined`) and then throws on
  `device.type` while grouping; that crash is not modelled.
- `DeviceList.Capitalize` maps case only for ASCII letters. JavaScript's
  `toUpperCase`/`toLowerCase` also map other scripts.
- `DeviceList.BuildGroupViews` takes the order in which `for…in` enumerates
  the group keys as a parameter. The engine's own rule is not modelled:
  integer-like keys first, then insertion order.
- `Mutations.HandleError`: the crash when `response` or `response.data` is
  `null` (`typeof null === "object"`) is excluded by the datatype, which has
  no null response. Calling `alert(undefined)` shows the text "undefined".
- Widgets (`TimeInput.TimeField`, `NumberInput.NumberField`,
  `TextInput.TextField`): the last input is kept until a `Rerender`, which
  models React setting the ref back to `null` once the input element
  unmounts. A render between two clicks is not forced.
- The list view's `errors[0].message` display is not modelled. Neither are
  the checkbox `disabled` flags of the form's time inputs.
