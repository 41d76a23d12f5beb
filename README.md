# Eglo Remote ZHA, modelled in Dafny

This project models the core of the `eglo_remote_zha` Home Assistant integration and its ZHA quirk for the AwoX ERCU_3groups_Zm (99099) remote.

- **The three-bank quirk** (`AwoxThreeBanks`).
  - The remote addresses each command to one of three Touchlink groups (0x800A, 0x800B, 0x800C).
  - Each of the four custom clusters (OnOff, Scenes, Color, LevelControl) resolves that group to a bank from 1 to 3. It records the bank in `_current_bank`, then hands the request unchanged to the parent handler.
  - The Color and LevelControl clusters each override one slot of the parent's command table.
  - A nested loop expands the 22 base triggers into 66 device automation triggers, one per bank, with `_<bank>` appended to the action.
- **The device records the helpers are derived from** (`DeviceRegistry`).
  - Filter by manufacturer "AwoX" and model "ERCU_3groups_Zm".
  - Take the IEEE address from the first `zha` identifier and remove its colons.
  - Look up the area name.
  - Build `eglo_remote_<ieee>_<suffix>` unique ids.
- **The three helper platforms** (`InputSelectPlatform`, `InputTextPlatform`, `InputDatetimePlatform`).
  - Each has a setup loop over the device registry.
  - Each has an entity class whose methods update its state.
- **The integration entry points** (`Integration`).
  - The four-helper list and its skip-already-registered loop, with the service data built per domain.
  - The ZHA join-event handler's registry search and filter, and the startup scan.
  - The per-entry data kept in `hass.data` on setup and unload.
- **The config flow** (`ConfigFlow`): one instance only, created from the user step or from a YAML import.

**How the source is represented:**
- **Loops** are `method`s with loop invariants.
  - Most are proved equal to a specification function: a recursive function for the setup loops, the identifier and device searches, and the helper loop.
  - The trigger generator is proved equal to a map comprehension.
  - The startup scan is proved to produce, for each remote in registry order, the result HelperResult gives for it.
  - Further lemmas are proved about those functions.
- **Objects whose fields the source reassigns** are classes with `modifies` clauses:
  - `AwoxCluster`;
  - the three entity classes;
  - `IntegrationData`.
- **`async_write_ha_state`** is represented by a counter, `stateWrites`, so a call that writes no state is visible.
- **Inputs:**
  - The device registry is a sequence of device records. The iteration order of `devices.values()` and of an identifier set is the sequence order.
  - The area registry is a map from area id to area name.
  - The entity registry is the set of registered entity ids.
  - The current time, the parent request handler and the parent command tables are parameters.

## Model

| member | source | states |
|---|---|---|
| AwoxThreeBanks.ResolveBank | custom_components/eglo_remote_zha/eglo_ercu_awox_3banks.py:100-107 | The resolved bank is always 1, 2 or 3. It is other than 1 only when the group id is one of the three mapped ids. |
| AwoxThreeBanks.KnownGroupsResolve | custom_components/eglo_remote_zha/eglo_ercu_awox_3banks.py:61-70 | 0x800A, 0x800B and 0x800C resolve to banks 1, 2 and 3. |
| AwoxThreeBanks.GroupToBankIsBijection | custom_components/eglo_remote_zha/eglo_ercu_awox_3banks.py:66-70 | The group table's keys are exactly the three group ids and its values exactly {1, 2, 3}. No two ids share a bank. |
| AwoxThreeBanks.UnknownGroupsResolveToBankOne | custom_components/eglo_remote_zha/eglo_ercu_awox_3banks.py:101-107 | These all resolve to bank 1: no addressing, addressing without a group, a group of 0, and any group id outside the table. |
| AwoxThreeBanks.ResolveBankExactly | custom_components/eglo_remote_zha/eglo_ercu_awox_3banks.py:107 | Both directions: the bank is b exactly when the group id maps to b, or when b is 1 and the id is not in the table. |
| AwoxThreeBanks.ServerCommands | custom_components/eglo_remote_zha/eglo_ercu_awox_3banks.py:146-151 | Color: the parent table with id 0x30 set to `awox_color(param1, color)`, manufacturer specific. LevelControl (lines 188-193): id 0x10 set to `awox_refresh(param1, press)`. Every other id keeps the parent's entry. OnOff and Scenes inherit the parent table unchanged. |
| AwoxThreeBanks.AwoxCluster.constructor | custom_components/eglo_remote_zha/eglo_ercu_awox_3banks.py:143-151 | A cluster's command table is ServerCommands of its kind and its parent's table. No bank is recorded before the first request. |
| AwoxThreeBanks.AwoxCluster.HandleClusterRequest | custom_components/eglo_remote_zha/eglo_ercu_awox_3banks.py:100-115 | `_current_bank` becomes the bank resolved from this request's addressing, overwriting any earlier value. The header, arguments and addressing go to the parent handler unchanged, and its result is returned. |
| AwoxThreeBanks.SuffixedInverse | custom_components/eglo_remote_zha/eglo_ercu_awox_3banks.py:445 | Appending `_<bank>` can be undone: the key without its last two characters and the bank from its last digit are recovered. |
| AwoxThreeBanks.SuffixedInjective | custom_components/eglo_remote_zha/eglo_ercu_awox_3banks.py:442-453 | Two (key, bank) pairs that produce the same suffixed key are the same pair, so no generated trigger overwrites another. |
| AwoxThreeBanks.ExpansionStep | custom_components/eglo_remote_zha/eglo_ercu_awox_3banks.py:445-453 | One insertion of the loop adds exactly the entry of that (key, bank) pair to the table built so far. |
| AwoxThreeBanks.ExpandedTriggersEntries | custom_components/eglo_remote_zha/eglo_ercu_awox_3banks.py:442-453 | For every base trigger (p, a) and bank b, the table holds (p, a_b). Its entry is the base entry plus endpoint 1 and bank b. |
| AwoxThreeBanks.ExpandedTriggersOrigin | custom_components/eglo_remote_zha/eglo_ercu_awox_3banks.py:442-453 | Every generated key is a base key with a bank suffix. Its entry keeps the base command, cluster and parameters and adds endpoint 1 and that bank. |
| AwoxThreeBanks.KeysOfAllPairsSize | custom_components/eglo_remote_zha/eglo_ercu_awox_3banks.py:442-453 | The keys generated from n base keys number exactly 3n. |
| AwoxThreeBanks.ExpandedTriggersSize | custom_components/eglo_remote_zha/eglo_ercu_awox_3banks.py:439-453 | The generated table has exactly three times as many entries as the base table. |
| AwoxThreeBanks.GenerateDeviceAutomationTriggers | custom_components/eglo_remote_zha/eglo_ercu_awox_3banks.py:440-453 | The nested loop builds exactly the expanded table, whatever order it visits the base keys in. |
| AwoxThreeBanks.BaseTriggerKeys | custom_components/eglo_remote_zha/eglo_ercu_awox_3banks.py:322-436 | The base triggers are keyed by 13 short-press actions and 9 long-press actions. |
| AwoxThreeBanks.DeviceAutomationTriggersCount | custom_components/eglo_remote_zha/eglo_ercu_awox_3banks.py:438-453 | There are 22 base triggers and 66 generated triggers. |
| AwoxThreeBanks.RedTriggerPerBank | custom_components/eglo_remote_zha/eglo_ercu_awox_3banks.py:328-332 | The short press of "red" appears as red_1, red_2 and red_3. Each is `awox_color` on cluster 768 with color 255, endpoint 1 and its bank. |
| DeviceRegistry.FirstZhaIdIsFirst | custom_components/eglo_remote_zha/__init__.py:128-132 | Both directions: the address found is v exactly when some identifier is ("zha", v) and no earlier identifier has domain "zha". |
| DeviceRegistry.FirstZhaIdNone | custom_components/eglo_remote_zha/__init__.py:128-136 | Both directions: no address is found exactly when no identifier has domain "zha". |
| DeviceRegistry.FindZhaIeee | custom_components/eglo_remote_zha/__init__.py:128-132 | The identifier loop with `break` returns the first "zha" identifier's value. The three platforms use the same loop (input_select.py:33-37). |
| DeviceRegistry.RemoveColons | custom_components/eglo_remote_zha/__init__.py:139 | The result has no ':', is no longer than the input, and equals the input when the input has no ':'. |
| DeviceRegistry.RemoveColonsAppend | custom_components/eglo_remote_zha/__init__.py:139 | Removing colons distributes over concatenation, so the other characters keep their order. |
| DeviceRegistry.RemoveColonsIdempotent | custom_components/eglo_remote_zha/__init__.py:139 | Cleaning a clean address changes nothing. |
| DeviceRegistry.RemoveColonsMultiset | custom_components/eglo_remote_zha/__init__.py:139 | The result holds every character other than ':' with its original multiplicity, and no ':'. |
| DeviceRegistry.QualifyingDevices | custom_components/eglo_remote_zha/input_select.py:28-40 | Every kept device is in the registry and is an AwoX ERCU_3groups_Zm with a non-empty "zha" identifier. There are never more kept devices than registry devices. |
| DeviceRegistry.QualifyingDevicesComplete | custom_components/eglo_remote_zha/input_select.py:28-40 | The other direction: every registry device that qualifies is kept. |
| DeviceRegistry.QualifyingIndices | custom_components/eglo_remote_zha/input_select.py:28-40 | The positions the setup loop keeps are strictly increasing, and a registry position is kept exactly when its device qualifies. |
| DeviceRegistry.QualifyingDevicesIsFilter | custom_components/eglo_remote_zha/input_select.py:28-40 | The k-th kept device is the device at the k-th kept position, so the kept devices keep their registry order. |
| InputSelectPlatform.SetupEntry | custom_components/eglo_remote_zha/input_select.py:18-77 | The setup loop builds the selectors of every qualifying device in registry order, and adds entities exactly when it built at least one. |
| InputSelectPlatform.SelectConfigsPerRemote | custom_components/eglo_remote_zha/input_select.py:42-73 | Each qualifying device yields exactly two selectors: `eglo_remote_<ieee>_current_area`, starting at the area name or "all", then `_current_light`, starting at "all". |
| InputSelectPlatform.SelectConfigsOfferAll | custom_components/eglo_remote_zha/input_select.py:54-73 | Every selector offers ["all"] and starts at a non-empty value. |
| InputSelectPlatform.CurrentAreaStartsOffered | custom_components/eglo_remote_zha/input_select.py:57-59 | Both directions: the current-area selector starts at an offered option exactly when the area name is empty or "all". |
| InputSelectPlatform.OptionAfterSetOptions | custom_components/eglo_remote_zha/input_select.py:114-119 | After new options are set, the current option is offered, or the list is empty and there is none. It keeps its value if still offered, and otherwise falls back to the first new option. |
| InputSelectPlatform.InputSelectEntity.constructor | custom_components/eglo_remote_zha/input_select.py:83-96 | A selector starts with the configured id, name, options and initial option, and no state written. |
| InputSelectPlatform.InputSelectEntity.SelectOption | custom_components/eglo_remote_zha/input_select.py:108-112 | An offered option becomes current with one state write. Any other option changes nothing and writes nothing. Consistency is preserved. |
| InputSelectPlatform.InputSelectEntity.SetOptions | custom_components/eglo_remote_zha/input_select.py:114-119 | The options are replaced and the current option follows OptionAfterSetOptions, with one state write. The selector is consistent afterwards. |
| InputTextPlatform.SetupEntry | custom_components/eglo_remote_zha/input_text.py:18-65 | The setup loop builds one text per qualifying device in registry order, and adds entities exactly when it built at least one. |
| InputTextPlatform.TextConfigsPerRemote | custom_components/eglo_remote_zha/input_text.py:42-61 | Each qualifying device yields exactly one text, `eglo_remote_<ieee>_default_area`. It starts at the area name, or "" when the device has no known area. |
| InputTextPlatform.InputTextEntity.constructor | custom_components/eglo_remote_zha/input_text.py:71-82 | A text starts with the configured id, name and initial value. |
| InputTextPlatform.InputTextEntity.SetValue | custom_components/eglo_remote_zha/input_text.py:94-97 | The value is overwritten unconditionally, with one state write. |
| InputDatetimePlatform.SetupEntry | custom_components/eglo_remote_zha/input_datetime.py:20-59 | The setup loop builds one entity per qualifying device in registry order, and adds entities exactly when it built at least one. |
| InputDatetimePlatform.DatetimeConfigsPerRemote | custom_components/eglo_remote_zha/input_datetime.py:44-55 | Each qualifying device yields exactly one entity, `eglo_remote_<ieee>_last_activity`. |
| InputDatetimePlatform.DatetimeConfigsHaveDateAndTime | custom_components/eglo_remote_zha/input_datetime.py:51-52 | Every entity built has both a date and a time. |
| InputDatetimePlatform.InputDatetimeEntity.constructor | custom_components/eglo_remote_zha/input_datetime.py:65-79 | An entity starts at the current time, which is passed in, with the configured flags. |
| InputDatetimePlatform.InputDatetimeEntity.SetValue | custom_components/eglo_remote_zha/input_datetime.py:91-94 | The value is overwritten unconditionally, with one state write. |
| Integration.ServiceDataOf | custom_components/eglo_remote_zha/__init__.py:195-203 | The service data always carries the name. It carries the options exactly for an input_select, and the date and time flags exactly for an input_datetime. |
| Integration.PendingSkipsRegistered | custom_components/eglo_remote_zha/__init__.py:183-189 | Both directions: an entity id is processed exactly when some helper has it and it is not registered. |
| Integration.CreateHelpersForDevice | custom_components/eglo_remote_zha/__init__.py:123-203 | A device without a usable "zha" identifier is an error and nothing is processed, in both directions. Otherwise the four helpers of the clean address, device name and area are processed in order, skipping registered ones. The result equals HelperResult of the device. |
| Integration.HelpersMatchPlatforms | custom_components/eglo_remote_zha/__init__.py:152-180 | There are exactly four helpers: select, select, text, date-time. Their unique ids, names, options and initial values are those the three platforms give the same remote. |
| Integration.HelperEntityIdsDistinct | custom_components/eglo_remote_zha/__init__.py:152-185 | The four helpers' entity ids `<domain>.<unique id>` are pairwise distinct. |
| Integration.FirstDeviceWithIdIsFirst | custom_components/eglo_remote_zha/__init__.py:82-90 | Both directions: the device found is d exactly when d is the first device in registry order with an identifier, of any domain, of that value. |
| Integration.FindDeviceByIdentifier | custom_components/eglo_remote_zha/__init__.py:82-90 | The device loop around the identifier loop, both left at the first match, finds that first device. |
| Integration.HandleZhaDeviceJoined | custom_components/eglo_remote_zha/__init__.py:75-102 | The event is ignored when it has no IEEE address, when no device has it, or when the first device that has it is not the remote. Otherwise that device's helpers are processed. |
| Integration.CheckExistingDevices | custom_components/eglo_remote_zha/__init__.py:108-116 | A load event for another component does nothing. For ZHA, there is one outcome per AwoX ERCU_3groups_Zm device, in registry order. Each outcome is that device's helper processing: the NoIeee error, or the pending helpers of its clean address. |
| Integration.RemotesAreTheRemotes | custom_components/eglo_remote_zha/__init__.py:114-115 | Both directions: a device is among those the startup scan processes exactly when it is in the registry and is an AwoX ERCU_3groups_Zm. |
| Integration.IntegrationData.constructor | custom_components/eglo_remote_zha/__init__.py:68 | The integration's slot does not exist before the first setup. |
| Integration.IntegrationData.SetupEntry | custom_components/eglo_remote_zha/__init__.py:68-69 | The slot is created if missing, and the entry is recorded in it. |
| Integration.IntegrationData.UnloadEntry | custom_components/eglo_remote_zha/__init__.py:213-221 | When the platforms unloaded, the entry's data is removed and true is returned. Otherwise nothing changes and false is returned. A missing entry raises KeyError. |
| ConfigFlow.StepUser | custom_components/eglo_remote_zha/config_flow.py:20-34 | Each in both directions: abort with "single_instance_allowed" whenever an entry exists; create "Eglo Remote ZHA" with empty data when none exists and input was submitted; show the "user" form when none exists and there is no input. |
| ConfigFlow.StepImport | custom_components/eglo_remote_zha/config_flow.py:36-38 | Import never shows the form. It creates the entry exactly when none exists, and aborts otherwise. |
| ConfigFlow.ImportIgnoresData | custom_components/eglo_remote_zha/config_flow.py:36-38 | The import outcome does not depend on the imported data. |
| ConfigFlow.SingleInstance | custom_components/eglo_remote_zha/config_flow.py:25-32 | A run of user steps from no entries ends with one entry exactly when some input was submitted, and never with more. A run that starts with entries adds none. |

## Left out

- **Logging** is not modelled: every `_LOGGER` call, including the diagnostic warnings in the OnOff and LevelControl handlers.
- **The `cmd_name` lookup** in the Color handler is not modelled; its result is never used.
- **The parent handler and parent command tables.** The zigpy/ZHA parent `handle_cluster_request` and event emission are a function parameter. The parent command tables are an abstract map.
- **Copy-before-update** of `server_commands` and of each trigger definition is implicit. Maps are values here, so the parent tables and the base triggers cannot be changed by the model.
- **The quirk's `signature` and `replacement`** device-matching data are not modelled.
- **The other quirk files:**
  - `eglo_ercu_awox.py` and `eglo_ercu_3groups.py` are declarative trigger and signature data. The one operation in `eglo_ercu_awox.py`, a command-table override, has the same shape as ServerCommands.
  - `quirks/__init__.py` only imports.
- **Home Assistant plumbing** is not modelled:
  - the event bus (`async_listen`, `async_listen_once`);
  - `async_forward_entry_setups` and `async_unload_platforms`, whose outcome is the boolean passed to UnloadEntry;
  - `async_add_entities`, which is the `added` result of each SetupEntry;
  - `async_write_ha_state`, which is the `stateWrites` counter.
- **The device, entity and area registries** are inputs: a device sequence, a set of registered entity ids, and a map from area id to name. Python's set and dict iteration order is taken to be the sequence order.
- **The `device_info` properties** of the entities are not modelled; they only copy device fields.
- **`dt_util.now()`** is the `now` parameter of the date-time entity constructor.
- **The import `try/except`** around the quirk imports in `__init__.py` is not modelled.
- **The helper "creation"** in `create_helpers_for_device` is a no-op `try: pass`. The model stops at the list of (entity id, service data) pairs that would be created.
- **`async_setup`** always returns true and is not modelled.
- **The config flow steps** are passed the number of existing entries; `_async_current_entries` is treated as truthy when that number is positive.
- **Action and command names the quirk imports from zhaquirks** (`turn_on`, `dim_up`, `on`, `step_with_on_off` and the others) take the values zhaquirks defines. zhaquirks itself is not part of this model.
- **The ZCL header and arguments** are type parameters, passed through untouched.
