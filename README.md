# Android TV / Fire TV integration — a Dafny model

This project models the core of the `androidtv_custom` integration for Home
Assistant. The integration drives Android TV and Fire TV devices over ADB.
It has three parts:

- **The media-player entity** (`media_player.dfy`, `telemetry.dfy`). One
  failure-recovery policy wraps every device call:
  - an unavailable device is not called;
  - a busy ADB lock is skipped;
  - an exception closes the session and marks the device unavailable, and
    escapes unless the integration recognises it.

  The polling update reconnects with a consecutive-failure counter and turns
  what the device reports into the entity state and the source list. The
  app-name tables are built from the options, and a selected source is read as
  "launch app" or, with a leading `!`, "stop app".
- **The configuration flows** (`config_flow.dfy`):
  - the setup step's decision chain;
  - the connection check;
  - state-detection rule validation;
  - the options editor, which edits three tables in place and saves them
    back.
- **The entry points of the integration package** (`integration.dfy`):
  - choosing the device's MAC address;
  - the result of connecting;
  - migrating legacy option keys;
  - the reload-or-hot-update decision when options change;
  - unloading an entry.

`values.dfy` models Python values: truthiness, `dict.get` and `str.strip`.
`const.dfy` holds the shared keys.

The ADB library is foreign code. The entity keeps a log (`calls`) of every
call it makes into the library, and what each call returns or raises is a
parameter of the modelled method. Other code the model cannot see is a
parameter too: the hub's `format_mac`, Python's `json.loads`, the ADB
library's state-detection rule validator, and the file-system test of the
integration's own `_is_file` on the ADB key path.

## Model

| member | source | states |
|---|---|---|
| `Values.LStrip` | custom_components/androidtv_custom/media_player.py:388 | the result is a suffix of the input, everything removed is whitespace, and the result does not start with whitespace |
| `Values.Strip` | custom_components/androidtv_custom/media_player.py:410-411 | the result has no whitespace at either end, it is empty exactly when the input is all whitespace, and it is a slice of the input with only whitespace before and after it |
| `Values.LStripPadding` | custom_components/androidtv_custom/media_player.py:388 | stripping whitespace off whitespace followed by a text that does not start with whitespace gives back that text |
| `Telemetry.EntityStateExactly` | custom_components/androidtv_custom/media_player.py:87-93 | the five-entry state table is a bijection: a report yields a state exactly when it is that state's name, and any other report (or none) yields no state |
| `Telemetry.EntityState` | custom_components/androidtv_custom/media_player.py:495 | a state comes only from its own name in the report; an unknown or missing report gives no state |
| `Telemetry.DisplayName` | custom_components/androidtv_custom/media_player.py:504-506 | an app with a configured name shows that name; an unnamed app shows its ID, or nothing when unnamed apps are excluded or the ID is empty |
| `Telemetry.Sources` | custom_components/androidtv_custom/media_player.py:503-511 | the source list is no longer than the running apps, and none of its entries is empty |
| `Telemetry.SourceList` | custom_components/androidtv_custom/media_player.py:499-511 | there is no list at all exactly when no app is running; otherwise the list is the display names of the running apps in running order, with empty entries dropped |
| `Telemetry.SourcesAppend` | custom_components/androidtv_custom/media_player.py:503-511 | the list is built app by app: the list of a concatenation is the concatenation of the lists, so running order is kept |
| `Telemetry.SourcesMembership` | custom_components/androidtv_custom/media_player.py:503-511 | a name is listed exactly when it is the non-empty display name (configured name, else the raw ID unless excluded) of some running app |
| `Telemetry.SourcesOfUnnamedApps` | custom_components/androidtv_custom/media_player.py:503-508 | when unnamed apps are kept and no running app is configured, the list is the running app IDs themselves |
| `Telemetry.ExcludedAppsNeverShow` | custom_components/androidtv_custom/media_player.py:503-508 | when unnamed apps are excluded, every listed name is the configured name of some running app |
| `Telemetry.CurrentSource` | custom_components/androidtv_custom/media_player.py:500-502 | the current source is absent exactly when the current app is; it is the configured name of that app when it has one, and the raw app ID otherwise |
| `Telemetry.AppTables` | custom_components/androidtv_custom/media_player.py:281-291 | ID→name is the built-in table overridden by the user's apps; name→ID holds every non-empty name and sends each name to an app carrying it; each user name resolves to a user app, so a user entry wins over a built-in one |
| `Telemetry.Resolve` | custom_components/androidtv_custom/media_player.py:384-389 | a name in the name→ID table resolves to its ID, and any other text is passed on as the app ID itself |
| `Telemetry.SourceAction` | custom_components/androidtv_custom/media_player.py:384-389 | a non-string source asks for nothing; a string that starts with `!` stops the app resolved from the rest with its leading whitespace removed, and any other string (leading whitespace included) launches the app resolved from the whole text |
| `Telemetry.StopMirrorsLaunch` | custom_components/androidtv_custom/media_player.py:384-389 | a name launches its resolved app, and the same name after `!` and any whitespace stops that very app |
| `Telemetry.SelectingANameLaunchesItsApp` | custom_components/androidtv_custom/media_player.py:384-387 | with consistent tables, selecting a known name launches an app whose configured name it is |
| `MediaPlayer.Customizations` | custom_components/androidtv_custom/media_player.py:299-302 | every customizable command is pushed once, in order, with its configured text or `None` |
| `MediaPlayer.RecognisedErrors` | custom_components/androidtv_custom/media_player.py:251-265 | the Python ADB implementation swallows the timeout, pipe, reset, value (so also decoding) and protocol errors; an ADB server swallows only a connection reset and `RuntimeError`; no other exception is swallowed |
| `MediaPlayer.AdbDevice.constructor` | custom_components/androidtv_custom/media_player.py:245-274 | a new entity is available, has no failed connect attempts, empty app tables and the default switches, and has called nothing |
| `MediaPlayer.AdbDevice.Recover` | custom_components/androidtv_custom/media_player.py:181-202 | a busy lock changes nothing and returns `None`; an exception closes the session and makes the device unavailable, then returns `None` if recognised and re-raises otherwise |
| `MediaPlayer.AdbDevice.ProcessConfig` | custom_components/androidtv_custom/media_player.py:276-302 | the app tables satisfy the table properties above; the three switches take the option or its default; the customizations are pushed after the earlier calls |
| `MediaPlayer.AdbDevice.SendCommand` | custom_components/androidtv_custom/media_player.py:343-376 | an unavailable device is not called; otherwise the one library call is made and its failure is recovered as above |
| `MediaPlayer.AdbDevice.CommandName` | custom_components/androidtv_custom/media_player.py:343-376 | each one-shot command calls the library method of its name; stop (lines 513-516 and 599-602 of the same file) is `media_stop` on Android TV and `back` on Fire TV, and no other command uses either name |
| `MediaPlayer.AdbDevice.CommandNamesDistinct` | custom_components/androidtv_custom/media_player.py:343-376 | different remote commands, stop included, never become the same library call |
| `MediaPlayer.AdbDevice.SelectSource` | custom_components/androidtv_custom/media_player.py:378-389 | an unavailable device is not called; a non-string does nothing; a string makes the one launch or stop call read off the source, with its failure recovered |
| `MediaPlayer.AdbDevice.AdbCommand` | custom_components/androidtv_custom/media_player.py:392-414 | a known key name sends that key event and stores nothing; `GET_PROPERTIES` stores the properties' text; any other command runs in the shell, where a decoding error is swallowed and a non-blank answer is stored stripped; apart from the properties text, a stored answer is never blank or whitespace-led |
| `MediaPlayer.AdbDevice.ShellFailure` | custom_components/androidtv_custom/media_player.py:405-408 | a shell command fails toward the wrapper exactly when it raised something other than a decoding error, and then with what it raised |
| `MediaPlayer.AdbDevice.MuteVolumeTo` | custom_components/androidtv_custom/media_player.py:519-525 | the mute state is queried, and the toggle is sent only when that state is known and differs from the one asked for |
| `MediaPlayer.AdbDevice.Update` | custom_components/androidtv_custom/media_player.py:469-511 | an unavailable device first tries to connect, logging errors only when the failure count is 0. Success resets the count; failure adds one and reads nothing. An available device is never reconnected and keeps its count. Once the link is up, the report is read, or its failure is recovered. |
| `MediaPlayer.AdbDevice.ShowReport` | custom_components/androidtv_custom/media_player.py:495-511 | the entity state is the table's, and an unknown state makes the entity unavailable. App, HDMI input and (Android TV only) mute are taken over. With running apps, the source is the current app's name and the list is rebuilt; without, there is no list. |
| `MediaPlayer.PollWhileUnreachable` | custom_components/androidtv_custom/media_player.py:472-485 | `n` polls of an unreachable device add `n` to the failure count, make only connect attempts (logging on the first only when the count started at 0), and change nothing else: the state, app, source, list, mute, HDMI input, ADB response, app tables and switches all stay as they were |
| `MediaPlayer.ReconnectThenDrop` | custom_components/androidtv_custom/media_player.py:472-482 | from any failure count, a connection that comes back and is lost again leaves the count at one: the device is reconnected, polled, closed, and the next attempt logs its errors again |
| `Integration.FirstMac` | custom_components/androidtv_custom/__init__.py:50-55 | none exactly when no listed property gives a usable MAC; otherwise the formatted MAC of the first property that does |
| `Integration.AndroidTvMac` | custom_components/androidtv_custom/__init__.py:48-55 | the Ethernet MAC when usable, else the WiFi MAC when usable, else none; never `ff:ff:ff:ff:ff:ff` |
| `Integration.DeviceName` | custom_components/androidtv_custom/__init__.py:103-108 | each of the two device classes gets its own name, and every other class the generic one |
| `Integration.ConnectResult` | custom_components/androidtv_custom/__init__.py:101-113 | the device is returned exactly when it is available; otherwise no device and the message naming class, address and ADB route |
| `Integration.MigrateOptionsKey` | custom_components/androidtv_custom/__init__.py:116-136 | no update without legacy keys; otherwise the legacy keys become a fresh custom-commands table under their new names, the legacy keys are gone and every other option is kept |
| `Integration.MigrateTwice` | custom_components/androidtv_custom/__init__.py:116-136 | migration is idempotent: migrated options need no second update |
| `Integration.OptionsRequireReload` | custom_components/androidtv_custom/__init__.py:183-190 | reload exactly when some new option among the reload options has an old value that is missing, `None` or different, whatever the iteration order |
| `Integration.OnlyRulesForceReload` | custom_components/androidtv_custom/__init__.py:43 | options that keep the same non-`None` rules, or set no rules, never force a reload, whatever else changes |
| `Integration.ChangedRulesForceReload` | custom_components/androidtv_custom/__init__.py:185-190 | new rules that differ from the stored ones always force a reload |
| `Integration.DomainStore.UpdateListener` | custom_components/androidtv_custom/__init__.py:181-197 | a reload is requested and the stored copy left alone, or the copy becomes the new options and the entity is signalled; nothing else changes |
| `Integration.DomainStore.UnloadEntry` | custom_components/androidtv_custom/__init__.py:171-178 | only when the platforms unloaded is the device's session closed and the entry's data dropped; the result is the platforms' result |
| `Integration.RepeatedHotUpdate` | custom_components/androidtv_custom/__init__.py:181-197 | with unchanged rules, two updates in a row are both hot updates and leave the new options stored |
| `ConfigFlow.CheckConnection` | custom_components/androidtv_custom/config_flow.py:99-125 | `unknown` exactly when connecting raised, `cannot_connect` exactly when no device came back; otherwise no error, the MAC as unique ID and the session closed |
| `ConfigFlow.StoredInput` | custom_components/androidtv_custom/config_flow.py:134-138 | without a server address the server port is dropped; every other field is kept as given |
| `ConfigFlow.UserStep` | custom_components/androidtv_custom/config_flow.py:127-159 | `key_and_server` exactly when a server and a key are both given. Otherwise, in order: a key that is not a readable file shows `adbkey_not_file`; a configured host aborts with `already_configured`; a connection that threw shows `unknown`; no device shows `cannot_connect`; no usable or an empty MAC aborts with `invalid_unique_id`; a configured MAC aborts with `already_configured`; else an entry titled by the host stores the input. |
| `ConfigFlow.KeyAndServerNeverConnects` | custom_components/androidtv_custom/config_flow.py:134-136 | with a key and a server the result is `key_and_server` whatever connecting would do, so no connection is needed |
| `ConfigFlow.NoUsableMacAborts` | custom_components/androidtv_custom/config_flow.py:145-148 | a device with no usable MAC aborts the setup with `invalid_unique_id` |
| `ConfigFlow.NewDeviceCreatesEntry` | custom_components/androidtv_custom/config_flow.py:145-156 | a new host whose device has a usable MAC (Ethernet, or WiFi when Ethernet is unusable) that is non-empty and not yet configured creates the entry titled by the host with the stored input |
| `ConfigFlow.AsRuleList` | custom_components/androidtv_custom/config_flow.py:376-377 | a parsed rule is a list, or is wrapped in a one-element list |
| `ConfigFlow.ValidateStateDetRules` | custom_components/androidtv_custom/config_flow.py:368-384 | a result exactly when the text parses and the validator accepts the listed value; the result is always a list |
| `ConfigFlow.TableOf` | custom_components/androidtv_custom/config_flow.py:175-180 | a table reads as the stored dictionary, or as empty when absent |
| `ConfigFlow.SavedOptions` | custom_components/androidtv_custom/config_flow.py:186-200 | every submitted non-table key is kept. Each table is present exactly when it is non-empty, holding the edited table. Nothing else is added. |
| `ConfigFlow.SaveThenReopen` | custom_components/androidtv_custom/config_flow.py:175-200 | reopening the editor on saved options gives back the edited tables |
| `ConfigFlow.OptionsFlow.constructor` | custom_components/androidtv_custom/config_flow.py:171-183 | the editor starts from copies of the three tables, editing nothing |
| `ConfigFlow.OptionsFlow.SelectApp` | custom_components/androidtv_custom/config_flow.py:257-259 | the selected app is remembered (none for a new app) and its form is shown |
| `ConfigFlow.OptionsFlow.SelectRule` | custom_components/androidtv_custom/config_flow.py:324-326 | the selected rule is remembered (none for a new rule) and its form is shown |
| `ConfigFlow.OptionsFlow.StepInit` | custom_components/androidtv_custom/config_flow.py:202-214 | the first truthy selection wins, apps before commands before rules, and only that selection is remembered; with none, the options are saved and nothing changes |
| `ConfigFlow.OptionsFlow.StepApps` | custom_components/androidtv_custom/config_flow.py:255-269 | without an app ID nothing changes. A delete removes the ID, or is a `KeyError` with the table unchanged when the ID is absent. Otherwise the ID maps to the given name, or `""`. No other app changes. |
| `ConfigFlow.OptionsFlow.StepCommands` | custom_components/androidtv_custom/config_flow.py:293-304 | an empty or missing value removes the command (absent is fine), and any other value sets it; no other command changes and every stored command stays set |
| `ConfigFlow.OptionsFlow.StepRules` | custom_components/androidtv_custom/config_flow.py:322-343 | a delete removes the rule or is a `KeyError`. A rejected text shows the rules form with `invalid_det_rules` and changes nothing. An accepted text is stored as a list. Rules stay lists. |

## Left out

- Volume level and volume up and down are left out. They involve floating point.
- The media image hash is left out. It is built from the clock.
- The screen capture (`_adb_screencap` and `async_get_media_image`) is left out. It is a library call that returns image bytes. It is left out together with its gate: no image when screen capture is off, the state is off or unknown, or the device is unavailable.
- `learn_sendevent` and the upload and download services are left out. Each is a library call behind the same wrapper. The upload and download services first refuse a local path the hub does not allow, and `learn_sendevent` stores a non-empty output as the ADB response and announces it in a notification.
- Generating and loading the ADB key is file-system I/O, and so is the rest of `_setup_androidtv`. The `adb_log` text and the `host:port` address are parameters of `Integration.ConnectResult`.
- The form schemas, the device info of the entity and service registration are left out, and so are logging, `async_write_ha_state` and the dispatcher signal's name.
- The setting up of an entry (`async_setup_entry`, beyond the migration it runs) is not modelled.
- Async scheduling and the ADB lock are not modelled. The model is sequential, and a busy lock is one outcome value of a device call.
- The exception hierarchy is flattened. `UnicodeDecodeError` appears as its own constructor, and it is in the recognised set of the Python ADB implementation because it is a subclass of `ValueError`. Errors raised by closing the session are not modelled.
- The integration's constants file is not part of this model. The key strings follow the constants' names, the library's key-code and app tables are parameters, and the proofs use only that the keys are distinct.
- Python dictionary order is not modelled. Where it matters, the model leaves it open: when several apps share a name, which one that name resolves to is left open.
- `MediaPlayer.AdbDevice.AdbCommand`: the key event stands for the shell command `input keyevent <code>`, and `GET_PROPERTIES` stores the string rendering of the properties as a parameter.
- Python's `True == 1` equality between booleans and integers is not modelled in the reload decision. Values are compared structurally.
- `ConfigFlow.OptionsFlow.StepCommands` requires a selected command when input is submitted. The commands form is reachable only from a selection, and a `None` key cannot be stored in the model's string-keyed tables.
- `ConfigFlow.UserStep`: the configured hosts and unique IDs are passed in as sets, and both abort checks report `already_configured`.
