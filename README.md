# Release validator extension: glue layer model

This project models the entry point of the AirDC++ release-validator extension (`src/main.js`). That module contains the extension's own decision logic:

- **the validator provider**: the list of validators passed to the scan runners is filtered against the live settings on every call;
- **the chat-command recogniser**: `/help` returns the help text, and `/rvalidator scan` starts a full share scan;
- **the outgoing hub and private message hooks**: they post the recogniser's text as an `info` status message and always accept the message;
- **startup**: it registers the bundle-finished hook, the new-share-directory hook, the two message hooks and the two context-menu groups, depending on two settings and the API feature level;
- **shutdown**: it stops the scan runners;
- **the settings definition list**: the list handed to the settings manager.

The scan runners (`./ScanRunners`) and the validators (`./validators`) lie outside this model, which treats them as abstract. The calls the extension makes after initialisation are recorded as an `Effect` in an ordered log, kept by the `Extension.ReleaseValidator` class. These are its call to `settings.load()` (logged as `LoadSettings`), its calls into the scan runners (`scanShare`, `stop`) and its calls into the host API (`socket.addHook`, `socket.post`, `addContextMenuItems`, a hook's `accept`/`reject`). Construction is not logged. The settings manager is kept as the definition list it receives, and creating the scan runners is not modelled beyond the validator provider handed to them.

Modules:

- `Wrappers` (wrappers.dfy): `Option`, which stands for `null`/`undefined`.
- `Settings` (settings.dfy): JavaScript values and their truthiness, the settings store and `getValue`, and the two built-in setting definitions.
- `Subsequences` (subsequences.dfy): order-preserving subsequences and the lemmas for building them.
- `Validators` (validators.dfy): a validator's identifier and optional setting, `validatorEnabled`, the filter, and the definition list.
- `ChatCommand` (chat_command.dfy): a character-counted stand-in for `String.prototype.indexOf`, and `checkChatCommand` as a pure function that also reports whether it requested a scan.
- `Extension` (extension.dfy): the effect log, pure functions giving the effects of each hook and of startup, and the class whose methods append those effects.

Two behaviours of the code are easy to miss:

- `validators.map(validator => validator.setting)` gives `undefined` for a validator that has no setting, and that `undefined` is passed on in the definitions list. `Validators.Definitions` keeps these entries as `None`.
- Commands are matched by prefix. So `/rvalidator scanner` starts a scan, and `/helpme` gets the help text.

## Model

| member | source | states |
|---|---|---|
| Settings.Truthy | src/main.js:36-40 | the falsy values are exactly `undefined`, `null`, `false`, `0` and the empty string; every other value is truthy |
| Settings.GetValue | src/main.js:37 | a key the store does not hold reads as `undefined` (and so is falsy); otherwise the stored value is returned |
| Settings.BuiltinDefinitions | src/main.js:3-15 | the extension declares exactly two settings, `scan_finished_bundles` then `scan_new_share_directories`, both boolean with default `true` |
| Validators.ValidatorEnabled | src/main.js:36-38 | a validator without a setting is enabled; one whose setting key is not in the store is disabled; otherwise it is enabled iff the stored value is truthy |
| Validators.EnabledValidators | src/main.js:36-40 | the filtered list is no longer than the input, and a validator is in it iff it is in the input and either has no setting or its setting's current value is truthy |
| Validators.EnabledIsSubsequence | src/main.js:40 | the filtered list is an order-preserving subsequence of the validator list |
| Validators.EnabledMultiplicity | src/main.js:36-40 | each enabled validator keeps all of its occurrences and each disabled one keeps none; with the subsequence lemma, this fixes the result completely |
| Validators.EnabledDependsOnlyOnSettings | src/main.js:36-40 | the filter depends on nothing but the current truthiness of the validators' own settings; it reads no snapshot taken earlier |
| Validators.ToggleTakesEffect | src/main.js:36-40 | after a validator's setting is set to a value, the next evaluation includes that validator iff the value is truthy |
| Validators.ValidatorSettings | src/main.js:31 | entry i is validator i's setting, `None` (undefined) when it has none, and the length is preserved |
| Validators.Definitions | src/main.js:30-33 | the definition list is the validators' settings in order, followed by the two built-in definitions, and it contains every built-in definition |
| ChatCommand.IndexOfFrom | src/main.js:49 | for a start within the text, the result (counted in characters) is -1 or an index at or after the start where the pattern occurs, and no earlier index from the start on has an occurrence |
| ChatCommand.IndexOf | src/main.js:49-57 | the index of the first occurrence, counted in characters, or -1, and `indexOf(p) === 0` holds exactly when `p` is a prefix of the text |
| ChatCommand.Recognise | src/main.js:44-62 | empty text or text not starting with `/` gives null and no scan; a reply exists iff the text starts with `/help`, and the reply is then the help text; a scan is requested iff the text starts with `/rvalidator scan`; never both; any other text gives null and no scan |
| ChatCommand.LongerScanCommand | src/main.js:49-61 | `/rvalidator scanner` starts a scan, `/rvalidator` does nothing, `/helpme` gets help, ` /help` is ignored |
| Extension.StatusTruthy | src/main.js:66 | `if (statusMessage)` holds iff the recogniser returned a string and that string is truthy (non-empty); null never posts |
| Extension.HelpTextTruthy | src/main.js:50-56 | the help text is a non-empty string, so `if (statusMessage)` posts it |
| Extension.PrivateStatusPath | src/main.js:80 | the private status endpoint is `private_chat/`, then the user's CID, then `/status_message` |
| Extension.MessageEffects | src/main.js:64-87 | an outgoing message causes exactly: a scan request iff the text starts with the scan command, then the help-text post with severity `info` iff it starts with `/help`, then one accept, and nothing else; accept is the last call and comes once; reject never comes |
| Extension.HubMessageEffects | src/main.js:64-75 | as above, with the status posted to `hubs/status_message` for the message's own hub URL |
| Extension.PrivateMessageEffects | src/main.js:77-87 | as above, with the status posted to `private_chat/<cid>/status_message` of the message's user and no hub list |
| Extension.HookRegistrations | src/main.js:98-107 | only hooks: the bundle hook iff `scan_finished_bundles` is truthy; the share-directory hook iff `scan_new_share_directories` is truthy and the feature level is at least 4; then the hub hook and the private-chat hook as the last two; each once (the length formula) |
| Extension.MenuRegistrations | src/main.js:109-146 | only menu groups: none below feature level 4; otherwise exactly two, the share-root group first and then the extension group |
| Extension.StartRegistrations | src/main.js:98-146 | the bundle hook iff `scan_finished_bundles` is truthy; the share-directory hook iff `scan_new_share_directories` is truthy and the feature level is at least 4; both message hooks always; each menu group iff the feature level is at least 4; nothing else, each at most once (the length formula) |
| Extension.StartRegistrationsOrder | src/main.js:98-146 | every hook registration comes before any context-menu registration |
| Extension.StartRegistrationsInOrder | src/main.js:98-146 | the registrations are an order-preserving subsequence of bundle hook, share-directory hook, hub hook, private-chat hook, share-root menu, extension menu; with the membership clauses this fixes the list |
| Extension.HookArguments | src/main.js:99-107 | the subsystem and hook id passed to each `addHook` call, and no two hooks share a hook id |
| Extension.MenuArguments | src/main.js:110-145 | the menu each `addContextMenuItems` call targets and its one item: id `scan_missing_extra`, with a click that scans the share roots or the whole share |
| Extension.ReleaseValidator.constructor | src/main.js:24-40 | the settings manager gets the definition list `Definitions(validators)`; the log starts empty |
| Extension.ReleaseValidator.ActiveValidators | src/main.js:40 | the provider returns, from the settings held at the moment of the call, exactly the enabled validators as an order-preserving subsequence |
| Extension.ReleaseValidator.CheckChatCommand | src/main.js:44-62 | returns the recogniser's reply and logs one scan request exactly when the recogniser requests one; the settings are unchanged |
| Extension.ReleaseValidator.OnOutgoingHubMessage | src/main.js:64-75 | appends exactly `HubMessageEffects(message)` to the log |
| Extension.ReleaseValidator.OnOutgoingPrivateMessage | src/main.js:77-87 | appends exactly `PrivateMessageEffects(message)` to the log |
| Extension.ReleaseValidator.OnStart | src/main.js:90-147 | logs the load. If loading fails, nothing else happens and the settings are unchanged. Otherwise the settings become the loaded store, and exactly the registrations `StartRegistrations` gives for that store and feature level are appended, under the subscriber (extension name, `Release validator`) |
| Extension.ReleaseValidator.OnStop | src/main.js:149-152 | appends exactly one stop call to the runners and changes nothing else |

## Left out

- The scan runners (`./ScanRunners`) lie outside this model, which treats them as abstract. This covers tree walking, scan jobs, cancellation, the at-most-one-scan rule, `onBundleFinished`, `onShareDirectoryAdded` and `scanShareRoots`. The model records only that a scan or a stop was requested, and which runner callback a hook names.
- The validators (`./validators`) lie outside this model, which treats them as abstract: a validator is only an identifier and an optional setting.
- Constructing `SettingsManager(...)` and `ScanRunners(...)` is not logged as an effect. The first is kept as the definition list it receives; the second only as the validator provider (`ActiveValidators`).
- Socket I/O and host calls are recorded as effects, not performed. The responses and failures of `socket.post`, `socket.addHook` and `addContextMenuItems` are not modelled.
- Settings persistence is left out: the `SettingsManager` library, the configuration file path and `CONFIG_VERSION`. `settings.load()` is modelled by `OnStart`'s `loaded` argument. `Some(store)` replaces the store; `None` stands for a rejected load, after which `onStart` makes no registrations. How the rejection reaches the host is not modelled. Before loading, the store is empty here.
- The async/await ordering of `onStart` and of the menu `onClick` is left out. `runners.scanShare()` inside `checkChatCommand` is not awaited in the source; the model logs it as a call, not as its completion.
- Context-menu metadata is left out: titles, icons, access strings, and the `filter` on extension ids. A menu item keeps only its id and the action its click runs. Clicks themselves are host events and are not modelled.
- JavaScript numbers are integers here, so reading NaN or a fraction from the settings store is not modelled. An `api_feature_level` that is missing, where `undefined >= 4` is false, is not modelled either: the level is an integer argument.
- Strings are sequences of Unicode characters, not UTF-16 code units: an index after a character outside the Basic Multilingual Plane differs from JavaScript's, and lone surrogates cannot be represented. The prefix test `indexOf(p) === 0` is unaffected.
- ChatCommand.IndexOfFrom: does not model JavaScript's clamping of a start position past the end of the text (for an empty pattern, `indexOf` then returns the length). The source only ever searches from position 0.
- The arguments of `reject` are not modelled, because the handlers never call it.
