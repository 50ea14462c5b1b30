# Yandex smart-home desktop panel: a verified model of its decisions

This project models the logic of a desktop panel for the Yandex smart-home service. The
panel is a React renderer inside an Electron shell. The model covers:

- the application shell's state machine over the screen (`appState`), the OAuth token
  and the held snapshot of the user's home;
- the normalisation of each snapshot (`stableSortData`);
- the local rewrite of a device's `on_off` capability after a successful toggle;
- what the dashboard, the device tiles and the group cards derive from a snapshot;
- the keyword rules that choose scenario and device icons;
- the action lists and settings records built by the four settings dialogs (group light,
  climate, fan, brightness);
- the version comparison of the "about" dialog;
- the tray menu built from the favourites;
- the colour theme and the token form.

One Dafny module stands for each core source file; `Types` is the one for `types.ts` and
holds the data model. Three shared helper modules sit beside them: `Lookup` holds the
repeated `find`/`filter` capability lookups, `Text` the string helpers (substring test,
lower-casing, `trim`, decimal text), and `Sorting` a stable insertion sort standing in for
`Array.prototype.sort`.

State that the source changes in place is a class with `modifies` clauses: the React
state of a component, the refs, the tray's module variables. The rest is functions.

Every remote call is a parameter holding its outcome (`Fetch`, `Call`, `CheckOutcome`,
`succeeded`). A handler is one atomic transition over that outcome. Where a guard flag
can be seen between the start of a call and its end, the handler is split into
`Start…`/`Finish…` methods: the card `loading` flags, the fan dialog's `isApplyingRef`,
the "about" dialog's check. The shell starts its un-awaited calls (`loadData(...)`,
`refreshDashboardData(token)`) by returning the token they were started with. Their
completion is the separate transition `FinishLoadData` or `Refresh`.

The types in `types.ts` become datatypes:

- a state value is exactly one of `BoolV`, `NumV`, `StrV`;
- a device always has its capability list, while `room` and `properties` are `Option`s;
- a room has one `householdId` and a list of device ids;
- `AppState` has exactly the four variants;
- a tray item is a `DeviceItem` or a `ScenarioItem`, with optional `isToggleable`/`isOn`.

Notes on behaviour the proofs make explicit:

- The API client's own auth-failure message (yandex-api.js:27-28) carries no status
  code. The shell's `'401'`/`'403'` substring test therefore never recognises it
  (`App.ApiAuthMessageNotRecognised`). The predicate is modelled exactly as written.
- The "optimistic" rewrite of a device happens only once the remote toggle has
  succeeded. A failed toggle leaves the data alone and starts no refresh.
- With no rooms and at least one device, the dashboard shows every device twice: once
  in the flat list and once in the "no room" section (`Dashboard.NoRoomsShowsDevicesTwice`).
- The party rule's keyword `вечерин` can never fire, because the earlier evening rule's
  `вечер` is part of it (`Icons.PartyNeedsOtherKeyword`).
- `Math.round((min + max) / 2)` on integers rounds halves up, towards positive infinity.
  With Dafny's floor division that is `(min + max + 1) / 2` (`GroupLight.Midpoint`).

## Model

| member | source | states |
|---|---|---|
| App.StableSortData | App.tsx:22-38 | devices are ordered by id and rooms and scenarios by name; each list is a permutation of the input; every other field is kept |
| App.StableSortKeepsTies | App.tsx:24-30 | the sort is stable: entries with the same id or name keep their relative input order |
| App.NormalizedIsFixed | App.tsx:22-38 | an already normalised snapshot is returned unchanged |
| App.StableSortIdempotent | App.tsx:22-38 | sorting a sorted snapshot changes nothing |
| Sorting.SortByIdempotent | App.tsx:24-30 | sorting a sorted list again changes nothing |
| Sorting.SortByCanonical | App.tsx:24-30 | when no two distinct elements share a key, the sorted list is fully determined by its contents: two permutations of one list sort to the same list |
| App.ToggledCapability | App.tsx:161-169 | an `on_off` capability gets state instance `on` and value `newState` and keeps its other fields; any other capability is untouched |
| App.ToggledDevices | App.tsx:158-173 | `prevData.devices.map(...)`: the same length, and each device is its rewritten self at the same position |
| App.ToggledDevice | App.tsx:158-173 | only the device with the matching id changes, and only in its capabilities, each rewritten in place |
| App.ApplyToggle | App.tsx:155-176 | the snapshot after a successful toggle: the matching device rewritten, then the whole snapshot re-sorted; its effect is characterised by `App.ApplyToggleIsolated` |
| App.ApplyToggleIsolated | App.tsx:155-176 | on normalised data, the rewrite keeps every device at its position, changes only the matching device, and no other field |
| App.ToggledDeviceIsOn | App.tsx:149-169 | after the rewrite, a device with `on_off` reads as on exactly when the new state is `true` |
| App.IsAuthFailure | App.tsx:50 | a thrown `Error` whose message contains `401` or `403`; the same test appears at App.tsx:81 |
| App.ApiAuthMessageNotRecognised | App.tsx:50 | the API client's 401/403 message is not recognised as an auth failure, since it contains neither `401` nor `403` |
| App.StatusCodeRecognised | App.tsx:81 | an `Error` whose message contains `401` or `403` anywhere is recognised as an auth failure |
| App.Render | App.tsx:204-241 | the loading screen exactly in LOADING; the dashboard exactly in DASHBOARD with data; otherwise the token form with the error message |
| App.MessageOr | App.tsx:73-77 | a thrown `Error` contributes its message, anything else the fallback text |
| App.AppModel.constructor | App.tsx:9-15 | the first state is LOADING with no token, data, error or notification |
| App.AppModel.StartLoadData | App.tsx:64-66 | `loadData` starts on the loading screen with the error cleared |
| App.AppModel.FinishLoadData | App.tsx:67-85 | success shows DASHBOARD with the sorted data; failure shows AUTH with the error message; only a recognised auth failure also drops the token |
| App.AppModel.Refresh | App.tsx:41-60 | success replaces the data with the sorted data and keeps the screen; an auth failure drops token and data and shows AUTH; any other failure only notifies |
| App.AppModel.CheckToken | App.tsx:90-105 | a truthy stored token is adopted and loading starts with it; otherwise the token form shows |
| App.AppModel.HandleTokenSubmit | App.tsx:111-118 | the token is adopted and stored, and loading starts with it; the token the load was started with is returned |
| App.AppModel.HandleLogout | App.tsx:120-128 | token and data are dropped, and AUTH shows with no error |
| App.AppModel.HandleExecuteScenario | App.tsx:130-144 | nothing without a token; success notifies and starts a refresh with the same token; failure notifies with the message and is passed back |
| App.AppModel.HandleToggleDevice | App.tsx:146-188 | nothing without token or data; otherwise it asks for `!currentState`; success rewrites the data and starts a refresh; failure changes no data, starts no refresh, notifies and is passed back |
| App.DashboardStateRendersDashboard | App.tsx:217 | in every state the machine can reach, DASHBOARD has data and renders the dashboard; ERROR is never entered |
| Dashboard.ActiveScenarios | components/Dashboard.tsx:17 | exactly the scenarios with `is_active` |
| Dashboard.ActiveScenariosInOrder | components/Dashboard.tsx:17 | the active scenarios keep their input order |
| Dashboard.SectionOf | components/Dashboard.tsx:115 | a room section carries the room's id and name and lists exactly the devices whose id the room lists |
| Dashboard.SectionInOrder | components/Dashboard.tsx:115 | a section lists its devices in `data.devices` order, each as often as there |
| Dashboard.AllSections | components/Dashboard.tsx:114-116 | one section per room, position by position |
| Dashboard.RoomSections | components/Dashboard.tsx:114-116 | exactly the sections of rooms holding a known device |
| Dashboard.RoomSectionsInOrder | components/Dashboard.tsx:114-116 | the sections follow `data.rooms`: one for each room holding a known device, in room order |
| Dashboard.AssignedIds | components/Dashboard.tsx:136 | exactly the ids listed by some room |
| Dashboard.Unassigned | components/Dashboard.tsx:136-137 | exactly the devices whose id no room lists |
| Dashboard.ShowFlatList | components/Dashboard.tsx:105 | the flat list shows exactly with no rooms and some device |
| Dashboard.View | components/Dashboard.tsx:62-138 | the counters equal the list lengths; the flat list appears only with no rooms and some device; the "no room" section appears exactly when it is non-empty |
| Dashboard.EveryDeviceShown | components/Dashboard.tsx:115-137 | every device appears in a room section or in the "no room" section |
| Dashboard.UnassignedDisjoint | components/Dashboard.tsx:136-137 | a device in the "no room" section appears in no room section |
| Dashboard.NoRoomsShowsDevicesTwice | components/Dashboard.tsx:105-138 | with no rooms and some device, both the flat list and the "no room" section hold every device |
| DeviceCard.IsOn | components/DeviceCard.tsx:21 | a device reads as on only if it is toggleable |
| DeviceCard.IsToggleable | components/DeviceCard.tsx:17-20 | a device is toggleable when it has an `on_off` capability; characterised by `DeviceCard.ToggleableIff` |
| DeviceCard.ToggleableIff | components/DeviceCard.tsx:17-20 | toggleable exactly when some capability is `on_off` |
| Lookup.OnOffIsTrueIff | components/DeviceCard.tsx:21 | on exactly when the first `on_off` capability's state value is boolean `true` |
| DeviceCard.PropertyInstance | components/DeviceCard.tsx:27 | the parameters' instance, else the state's, else none |
| DeviceCard.SensorProperty | components/DeviceCard.tsx:24-33 | the first property in list order with a `devices.properties` type and an instance, or none exactly when there are no properties or none qualifies |
| DeviceCard.RawSensorUnit | components/DeviceCard.tsx:40-41 | the parameters' unit when present (even empty), otherwise the state's unit, and none without a sensor property |
| DeviceCard.IsSensor | components/DeviceCard.tsx:35 | a sensor is a device that is not toggleable and has a sensor property |
| DeviceCard.ResolvedUnit | components/DeviceCard.tsx:43-45 | a non-empty given unit wins; otherwise `%` for humidity, `°C` for temperature, and nothing else |
| DeviceCard.FormattedSensorValue | components/DeviceCard.tsx:47-52 | present exactly for a number or string value; it is the value's text followed by the unit |
| DeviceCard.DeviceReading | components/DeviceCard.tsx:40-52 | the reading shown: the sensor's value formatted with the resolved unit |
| DeviceCard.StatusText | components/DeviceCard.tsx:135-141 | updating first, then a non-empty sensor reading, then switched on, then switched off |
| DeviceCard.ToggleableShowsFixedText | components/DeviceCard.tsx:35 | a toggleable device never shows a reading |
| DeviceCard.NumericSensorShowsReading | components/DeviceCard.tsx:47-52 | an idle sensor with a number shows the number followed by its unit |
| DeviceCard.DeviceCardState.StartClick | components/DeviceCard.tsx:54-59 | ignored when not toggleable or loading; otherwise loading starts and a toggle from the current state is asked for |
| DeviceCard.DeviceCardState.FinishClick | components/DeviceCard.tsx:63-65 | loading ends whatever the outcome |
| GroupCard.GroupDevices | components/GroupCard.tsx:31-33 | exactly the devices whose id the group lists |
| GroupCard.GroupDevicesInOrder | components/GroupCard.tsx:31-33 | the group's devices come in device-list order, each as often as there |
| Lookup.DevicesWithIdsInOrder | components/GroupCard.tsx:31-33 | selecting by id keeps the device-list order and multiplicity: a single device is kept exactly when listed, and a concatenation selects from each part in turn |
| GroupCard.IsLightGroup | components/GroupCard.tsx:36-38 | a non-empty member list whose every device is a light |
| GroupCard.IsThermostatGroup | components/GroupCard.tsx:41-45 | a non-empty member list whose every device is a thermostat or an air conditioner |
| GroupCard.GroupKindsExclusive | components/GroupCard.tsx:36-45 | no group is both a light group and a climate group |
| GroupCard.OnMembers | components/GroupCard.tsx:51-54 | exactly the members whose first `on_off` state is `true` |
| GroupCard.GroupIsOn | components/GroupCard.tsx:48-57 | all members on, as the source computes it through the on-members filter; characterised by `GroupCard.GroupIsOnIff` |
| GroupCard.GroupIsOnIff | components/GroupCard.tsx:48-57 | false for an empty group, otherwise true exactly when every member is on |
| GroupCard.GroupIsEnabled | components/GroupCard.tsx:63-67 | decided by the group's own first `on_off` capability alone; a group without one is never enabled |
| GroupCard.HeaderButtons | components/GroupCard.tsx:106-125 | the toggle exactly with `on_off`; a settings button only with `on_off` and a light or climate group |
| GroupCard.AtMostOneSettingsButton | components/GroupCard.tsx:106-125 | at most one settings button, and only beside the toggle |
| GroupCard.GroupCardState.StartToggleGroup | components/GroupCard.tsx:69-74 | ignored without `on_off` or while loading; otherwise loading starts and a toggle from the group's own state is asked for |
| GroupCard.GroupCardState.FinishToggleGroup | components/GroupCard.tsx:77-79 | loading ends whatever the outcome |
| Icons.FirstMatchIndex | constants.tsx:49-61 | the position of the first matching rule: every earlier rule fails |
| Icons.IconForScenario | constants.tsx:43-64 | a known, non-empty icon name decides; without a keyword match the result is Play |
| Icons.PlayMeansNoKeyword | constants.tsx:44-63 | Play comes only from the `default` name or from a name no rule matches |
| Icons.PartyNeedsOtherKeyword | constants.tsx:53-57 | PartyPopper needs `гост`, `тусов` or `party`: `вечерин` is caught earlier by `вечер` |
| Icons.IconForDevice | constants.tsx:66-81 | a type containing `light` gives Lightbulb; Zap exactly when no rule matches |
| Icons.IconForDeviceIgnoresCase | constants.tsx:67 | device types are matched regardless of letter case |
| Text.LowerIdempotent | constants.tsx:48 | lower-casing twice is lower-casing once |
| GroupLight.FirstGroupDevice | components/GroupLightSettingsModal.tsx:40-41 | the first group device is the first device in list order that the group lists |
| GroupLight.OnlyFirstDeviceCounts | components/GroupLightSettingsModal.tsx:40-61 | two device lists with the same first group device give the same starting brightness and temperature and the same answer to "has an HSV capability": the other members are ignored |
| GroupLight.ColorModelCapability | components/GroupLightSettingsModal.tsx:49-56 | the first `color_setting` capability in list order with the given colour model (`hsv`, `rgb`), and none exactly when none has it |
| GroupLight.TemperatureCapability | components/GroupLightSettingsModal.tsx:59-61 | the first `color_setting` capability in list order with a `temperature_k` range, and none exactly when none has one |
| GroupLight.Midpoint | components/GroupLightSettingsModal.tsx:101 | half of `min + max`, rounded half up, and within the range |
| GroupLight.Invert | components/GroupLightSettingsModal.tsx:135 | `min + max - value`, which maps the range onto itself |
| GroupLight.InvertInvolution | components/GroupLightSettingsModal.tsx:135 | inverting twice gives the value back |
| GroupLight.TemperatureRange | components/GroupLightSettingsModal.tsx:110 | a missing or zero precision becomes 100 |
| GroupLight.DefaultTemperatureSendsItself | components/GroupLightSettingsModal.tsx:116-117 | the default 4000 is the middle of 1500..6500, so it is sent unchanged |
| GroupLight.BrightnessStart | components/GroupLightSettingsModal.tsx:98-106 | the middle of the brightness range, present exactly when a range exists |
| GroupLight.TemperatureStart | components/GroupLightSettingsModal.tsx:108-118 | the middle of the capability's range, or 4000 in 1500..6500 without the capability |
| GroupLight.Settings | components/GroupLightSettingsModal.tsx:123-136 | brightness exactly when value and range exist; hsv only in colour mode with a colour and an HSV capability; otherwise the inverted temperature; never both |
| GroupLight.GroupLightModal.Open | components/GroupLightSettingsModal.tsx:94-119 | on opening, brightness and temperature start from the first device's capabilities |
| GroupLight.GroupLightModal.HandleApply | components/GroupLightSettingsModal.tsx:123-148 | no call for an empty record; otherwise the record is sent and loading ends |
| Lookup.ModeCapabilityByInstance | components/ThermostatSettingsModal.tsx:64-74 | a `mode` capability of the instance taken from the list, and none exactly when no capability qualifies |
| Lookup.ModeCapabilityIsFind | components/ThermostatSettingsModal.tsx:69-74 | it is the first capability in list order that is a `mode` capability of the instance |
| Lookup.ModeCapabilityIsFilterFind | components/ThermostatSettingsModal.tsx:64-74 | filtering the `mode` capabilities and then searching them by instance gives the same capability |
| Lookup.CurrentModeValue | components/ThermostatSettingsModal.tsx:81-88 | the mode capability's state value exactly when it is truthy, otherwise the empty string |
| Lookup.Modes | components/ThermostatSettingsModal.tsx:91-101 | the `modes` list exactly when capability, parameters and list are present, otherwise empty |
| Lookup.RangeCapability | components/ThermostatSettingsModal.tsx:44-46 | the first `range` capability in list order with the given instance (`temperature` here, `brightness` in the group light and brightness dialogs), and none exactly when none qualifies |
| Lookup.RangeStart | components/ThermostatSettingsModal.tsx:48-61 | no value without a range; otherwise the state's number, else the bottom of the range |
| Thermostat.OfferedBy | components/ThermostatSettingsModal.tsx:76-78 | which of thermostat, swing, fan speed and temperature the device offers |
| Thermostat.ThermostatActions | components/ThermostatSettingsModal.tsx:198-211 | the list the four conditional pushes build; its contents and order are stated by the two lemmas below |
| Thermostat.ThermostatActionsContents | components/ThermostatSettingsModal.tsx:200-222 | each action appears exactly when its capability exists and a value is selected; values are sent as text |
| Thermostat.ThermostatActionsOrdered | components/ThermostatSettingsModal.tsx:200-211 | actions come in the order thermostat, swing, fan speed, temperature, each at most once |
| Thermostat.CollectActions | components/ThermostatSettingsModal.tsx:198-211 | the pushes build exactly the specified action list |
| Thermostat.ThermostatModal.InitTemperature | components/ThermostatSettingsModal.tsx:48-61 | temperature and range start from the temperature capability |
| Thermostat.ThermostatModal.Open | components/ThermostatSettingsModal.tsx:186-192 | on opening, each selection starts at the device's current value |
| Thermostat.ThermostatModal.HandleApply | components/ThermostatSettingsModal.tsx:196-229 | no call without actions; otherwise the actions are sent with `turnOn` true and loading ends |
| Fan.FanSpeedCapability | components/FanSettingsModal.tsx:36-48 | a `mode` capability with instance `fan_speed` from the list, and none exactly when there is none |
| Fan.OscillationCapability | components/FanSettingsModal.tsx:51-53 | the first `toggle` capability in list order with instance `oscillation`, and none exactly when none qualifies |
| Fan.CurrentFanSpeed | components/FanSettingsModal.tsx:56-63 | the fan speed capability's state value exactly when it is truthy, otherwise the empty string |
| Fan.CurrentOscillation | components/FanSettingsModal.tsx:66-72 | the oscillation state's value, otherwise `false` |
| Fan.FanActions | components/FanSettingsModal.tsx:164-177 | the list the two conditional pushes build; its contents are stated by `Fan.FanActionsContents` |
| Fan.FanActionsContents | components/FanSettingsModal.tsx:167-181 | fan speed is sent exactly when offered, selected and changed; oscillation, typed `toggle`, exactly when offered and changed; fan speed first; nothing when nothing changed |
| Fan.UnchangedSelectionSendsNothing | components/FanSettingsModal.tsx:145-181 | selections still at the current values send nothing |
| Fan.ShouldTurnOn | components/FanSettingsModal.tsx:184-186 | turn on exactly when an `on_off` capability exists and is not `true`; a device without one counts as on |
| Fan.CollectFanActions | components/FanSettingsModal.tsx:164-177 | the pushes build exactly the changed-settings list |
| Fan.FanModal.Open | components/FanSettingsModal.tsx:145-150 | on opening, both selections start at the current values |
| Fan.FanModal.SelectFanSpeed | components/FanSettingsModal.tsx:241 | a speed button sets the selected speed to its mode value; the oscillation, loading flag and guard are unchanged |
| Fan.FanModal.SelectOscillation | components/FanSettingsModal.tsx:257-287 | an oscillation button sets the selection to `false` or `true`; the speed, loading flag and guard are unchanged |
| Fan.FanModal.StartApply | components/FanSettingsModal.tsx:154-191 | ignored while an apply is pending; no call when nothing changed; otherwise the guard is set, loading starts and the changes are sent |
| Fan.FanModal.FinishApply | components/FanSettingsModal.tsx:190-198 | the modal closes only after success; loading ends and the guard is cleared |
| Fan.DoubleApply | components/FanSettingsModal.tsx:156-158 | a second apply before the first settles sends nothing |
| Brightness.BrightnessModal.Init | components/BrightnessSettingsModal.tsx:27-40 | range and value from the brightness capability: the state's number, else the range minimum, none without a range |
| Brightness.BrightnessModal.SetBrightness | components/BrightnessSettingsModal.tsx:95 | the slider sets the brightness |
| Brightness.BrightnessModal.HandleApply | components/BrightnessSettingsModal.tsx:44-55 | nothing without a brightness; otherwise it is sent with `turnOn` true and loading ends |
| Brightness.BrightnessModal.Renders | components/BrightnessSettingsModal.tsx:42 | the dialog renders exactly when it is open and has a brightness range |
| Brightness.ApplyAfterInit | components/BrightnessSettingsModal.tsx:27-55 | a modal that renders always has a brightness to send |
| InfoModal.StripV | components/InfoModal.tsx:24-25 | one leading `v` is dropped |
| InfoModal.Split | components/InfoModal.tsx:24-25 | at least one piece, even for the empty string |
| InfoModal.SplitPieces | components/InfoModal.tsx:24-25 | no piece holds a dot |
| InfoModal.SplitAtDot | components/InfoModal.tsx:24-25 | splitting at a dot splits each side on its own |
| InfoModal.JoinSplit | components/InfoModal.tsx:24-25 | joining the pieces with dots gives the text back |
| InfoModal.NumberOf | components/InfoModal.tsx:24-25 | a digit string (possibly empty) is a number, anything else is not |
| InfoModal.Parts | components/InfoModal.tsx:24-25 | the leading `v` stripped, the text split at dots, each piece read as a number; characterised by `InfoModal.StripV`, `InfoModal.Split` and `InfoModal.NumberOf` |
| InfoModal.Component | components/InfoModal.tsx:28-29 | a missing or non-numeric component counts as 0, as `InfoModal.CompareZeroIff` uses |
| InfoModal.CompareFrom | components/InfoModal.tsx:27-33 | the result is -1, 0 or 1 |
| InfoModal.Compare | components/InfoModal.tsx:23-34 | the comparison as a value, always -1, 0 or 1; its laws are the lemmas below |
| InfoModal.CompareVersions | components/InfoModal.tsx:23-34 | the loop returns the specified comparison |
| InfoModal.CompareReflexive | components/InfoModal.tsx:23-34 | a version equals itself |
| InfoModal.CompareAntisymmetric | components/InfoModal.tsx:23-34 | swapping the arguments negates the result |
| InfoModal.CompareTransitive | components/InfoModal.tsx:27-33 | newer-than is transitive |
| InfoModal.CompareZeroIff | components/InfoModal.tsx:28-29 | equal exactly when every component agrees, missing and non-numeric ones counting as 0 |
| InfoModal.FirstDifferenceDecides | components/InfoModal.tsx:27-31 | the first differing component decides |
| InfoModal.LeadingVIgnored | components/InfoModal.tsx:24-25 | a leading `v` changes nothing |
| InfoModal.TrailingZeroIgnored | components/InfoModal.tsx:28-29 | a trailing `.0` changes nothing, so "1.2" equals "1.2.0" |
| InfoModal.LatestVersion | components/InfoModal.tsx:65 | the release's tag when it is non-empty |
| InfoModal.UpdateAvailable | components/InfoModal.tsx:66 | an update is offered when there is a tag and it compares newer than the running version |
| InfoModal.SameVersionNoUpdate | components/InfoModal.tsx:66 | a release tagged with the running version, with or without `v`, is no update |
| InfoModal.InfoModalState.Effect | components/InfoModal.tsx:57-61 | a check starts exactly when the dialog is open and no check has finished |
| InfoModal.InfoModalState.StartCheck | components/InfoModal.tsx:37-38 | loading starts and the error is cleared |
| InfoModal.InfoModalState.FinishCheck | components/InfoModal.tsx:39-54 | a release is kept; a failure records its message; the check counts as done and loading ends |
| InfoModal.ReopenAfterCheck | components/InfoModal.tsx:57-61 | once a check has finished, reopening starts no other |
| InfoModal.InfoModalState.CheckButtonShown | components/InfoModal.tsx:135 | the "check for updates" button shows when no check is loading and there is neither a latest version nor a non-empty error |
| InfoModal.InfoModalState.ManualCheck | components/InfoModal.tsx:135-137 | the button starts a check whatever `hasChecked` says: loading starts and the error is cleared |
| InfoModal.RecheckByButton | components/InfoModal.tsx:36-61 | after a fresh dialog's first check, the button offers another exactly when the release had an empty tag or an `Error` had an empty message, and pressing it starts one |
| Tray.Label | main.js:71-83 | a device's sensor value follows its name; otherwise a toggleable device gets 🟢 or 🔴; otherwise the name |
| Tray.Click | main.js:86-102 | a toggle with `isOn` for a toggleable device, an execution for a scenario, nothing otherwise |
| Tray.EnabledIff | main.js:107 | enabled exactly when the item has a click command |
| Tray.FavoriteEntry | main.js:104-109 | one favourite's entry: its label, its click command, and `enabled` exactly when there is one, as `Tray.EnabledIff` states |
| Tray.FavoriteEntries | main.js:66-110 | one entry per favourite, in order |
| Tray.Template | main.js:113-136 | the menu template; its layout is stated by `Tray.TemplateLayout` and `Tray.MenuFavorites` |
| Tray.TemplateLayout | main.js:113-136 | "open" first; a separator only with favourites; the favourites in order; a separator; "exit" last |
| Tray.MenuFavorites | main.js:113-136 | the favourite entries of the menu are exactly the mapped favourites |
| Tray.TrayState.UpdateTrayMenu | main.js:62-139 | nothing without a tray; otherwise the menu is rebuilt from the favourites |
| Tray.TrayState.UpdateFavorites | main.js:252-255 | the favourites are replaced wholesale and the menu rebuilt |
| Theme.InitialTheme | contexts/ThemeContext.tsx:15-37 | light exactly when storage exists and holds `light`; otherwise dark |
| Theme.StoredThemeReadBack | contexts/ThemeContext.tsx:18-19 | a stored theme is read back as itself |
| Theme.Toggled | contexts/ThemeContext.tsx:65-67 | the toggle changes the theme |
| Theme.ToggleInvolution | contexts/ThemeContext.tsx:65-67 | toggling twice restores the theme |
| Theme.ThemeName | contexts/ThemeContext.tsx:48 | the attribute and stored spelling is `light` or `dark` |
| Theme.Palette | contexts/ThemeContext.tsx:51-57 | the body colours of each theme |
| Theme.ThemeProvider.constructor | contexts/ThemeContext.tsx:15-37 | the initial theme, applied to the document at once when storage exists |
| Theme.ThemeProvider.Effect | contexts/ThemeContext.tsx:39-63 | the `dark` class exactly for dark, the `data-theme` attribute, the body colours, and the theme stored |
| Theme.ThemeProvider.ToggleTheme | contexts/ThemeContext.tsx:65-67 | the theme flips and nothing else changes |
| Theme.Restart | contexts/ThemeContext.tsx:15-62 | after the effect, a fresh start reads the same theme back |
| TokenInput.TokenForm.OnChange | components/TokenInput.tsx:42 | the typed text becomes the token, untrimmed |
| TokenInput.TokenForm.HandleSubmit | components/TokenInput.tsx:13-18 | submits exactly when the text has a non-space character; the token is the trimmed text |
| TokenInput.SubmittedIsTypedText | components/TokenInput.tsx:16 | the submitted token is a contiguous part of the typed text, with no space at either end |
| TokenInput.TokenForm.ButtonDisabled | components/TokenInput.tsx:58 | the button is disabled while loading or while the raw text is empty |
| TokenInput.WhitespaceOnly | components/TokenInput.tsx:15-58 | whitespace-only text enables the button, yet submitting it does nothing |
| TokenInput.ErrorShown | components/TokenInput.tsx:50-54 | the error box shows exactly for a non-empty error |

## Left out

- Network, IPC and storage calls are not modelled: fetching the snapshot, toggling, running a scenario, the GitHub release request, keytar and localStorage. Their outcomes are parameters. The shell's own `console.error` logging is omitted.
- The notification timers (App.tsx:17-20) are not modelled. A notification is set and never auto-hidden.
- Async interleavings are not modelled, such as a refresh racing a toggle or a second dialog check while one is in flight. Each handler is an atomic transition, and un-awaited calls are returned rather than run.
- The window and tray lifecycle, the single-instance lock and autostart in main.js are not modelled. A click command is shown as the command sent, and the `mainWindow` check is omitted.
- `localeCompare` is ordinal lexicographic order on characters, not locale collation.
- `toLowerCase` covers ASCII and the basic Cyrillic letters only.
- Numbers are integers. Float formatting of sensor values and `Math.round` on fractions are not modelled.
- `Number()` on a version component accepts digit strings only. Hex, exponents, signs and surrounding white space count as `NaN`, that is as 0.
- `SCENARIO_ICON_MAP` does not find inherited object keys such as `toString`.
- The `rgb` capability is computed but never used. The colour palette, the icon of each fan speed and all JSX layout are not modelled.
- components/ScenarioCard.tsx is not modelled. Its icon choice is `Icons.IconForScenario`.
- services/yandexIoT.ts, yandex-api.js (beyond its auth message), preload.cjs and electron-api.d.ts are forwarding layers, not modelled.
- Households, favourites persistence, polling and change detection are not in the shell at all.
- Thermostat.ThermostatModal.HandleApply: the values are stringified as they are pushed, rather than by the later `map`. The list sent is the same.
- Brightness.BrightnessModal.HandleApply: the `disabled={isLoading}` of the buttons is not a guard in `handleApply` itself, so the model has none either.
