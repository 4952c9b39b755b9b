/** The configuration flows: the setup step that checks a new device and
    creates its config entry, and the options editor that edits the app
    names, custom commands and state-detection rules of an entry in place and
    saves them back into its options. */
module ConfigFlow {
  import opened Values
  import opened Const
  import opened Integration

  // Keys and markers of the forms.
  const AppsNewId: string := "NewApp"
  const ConfAppDelete: string := "app_delete"
  const ConfAppId: string := "app_id"
  const ConfAppName: string := "app_name"
  const ConfCmdValue: string := "cmd_value"
  const RulesNewId: string := "NewRule"
  const ConfRuleDelete: string := "rule_delete"
  const ConfRuleId: string := "rule_id"
  const ConfRuleValues: string := "rule_values"

  // Errors and abort reasons.
  const ResultConnError: string := "cannot_connect"
  const ResultUnknown: string := "unknown"
  const KeyAndServer: string := "key_and_server"
  const AdbKeyNotFile: string := "adbkey_not_file"
  const AlreadyConfigured: string := "already_configured"
  const InvalidUniqueId: string := "invalid_unique_id"
  const InvalidDetRules: string := "invalid_det_rules"

  /** The forms a flow can show. */
  datatype Form =
    | UserForm
    | InitForm
    | AppsForm(appId: string)
    | CommandsForm(cmdId: Option<string>)
    | RulesForm(ruleId: string, defaultId: string)

  /** What a flow step hands back to the hub; a `KeyError` escaping a step
      is one outcome among the others. */
  datatype FlowResult =
    | ShowForm(form: Form, error: Option<string>)
    | CreateEntry(title: Value, data: Dictionary)
    | Abort(reason: string)
    | KeyErrorRaised(key: string)

  /** The init form, which a step shows when it hands back to the menu. */
  const InitShown: FlowResult := ShowForm(InitForm, None)

  // ------------------------------------------------------------ setup step

  /** What connecting to the device did: it raised, it found no available
      device, or it returned one with these properties. */
  datatype ConnectAttempt = Threw | NoDevice | Device(properties: Dictionary)

  /** The result of checking a connection: an error, or none and the unique
      ID; `closed` says whether the session was closed. */
  datatype Check = Check(error: Option<string>, uniqueId: Option<string>, closed: bool)

  /** `_async_check_connection`: `unknown` when connecting raised,
      `cannot_connect` without a device, otherwise no error and the device's
      MAC as unique ID, after the session was closed. */
  function CheckConnection(attempt: ConnectAttempt, formatMac: Value -> string): (c: Check)
    ensures c.error == Some(ResultUnknown) <==> attempt == Threw
    ensures c.error == Some(ResultConnError) <==> attempt == NoDevice
    ensures c.error.None? <==> attempt.Device?
    ensures c.closed <==> attempt.Device?
    ensures c.error.None? ==> c.uniqueId == AndroidTvMac(attempt.properties, formatMac)
    ensures c.error.Some? ==> c.uniqueId.None?
  {
    match attempt
    case Threw => Check(Some(ResultUnknown), None, false)
    case NoDevice => Check(Some(ResultConnError), None, false)
    case Device(props) => Check(None, AndroidTvMac(props, formatMac), true)
  }

  /** The setup input as stored: without an ADB server address the server
      port is dropped. */
  function StoredInput(input: Dictionary): (d: Dictionary)
    ensures ConfAdbServerPort in d ==> ConfAdbServerIp in d
    ensures forall k :: k in d <==> k in input && (k != ConfAdbServerPort || ConfAdbServerIp in input)
    ensures forall k :: k in d ==> d[k] == input[k]
  {
    if ConfAdbServerIp in input then input else input - {ConfAdbServerPort}
  }

  /** `async_step_user`. Without input the form is shown. An ADB key together
      with a server is refused, a key that is not a readable file too; a host
      already configured aborts; then the connection is checked, and a device
      without a usable unique ID aborts, one already configured aborts, and
      any other creates an entry titled by the host. `isFile` stands for the
      file-system test on the key path. */
  function UserStep(input: Option<Dictionary>, isFile: Value -> bool, configuredHosts: set<Value>,
                    configuredIds: set<string>, attempt: ConnectAttempt, formatMac: Value -> string)
    : (r: FlowResult)
    requires input.Some? ==> ConfHost in input.value
    ensures input.None? ==> r == ShowForm(UserForm, None)
    ensures input.Some? ==>
      (r == ShowForm(UserForm, Some(KeyAndServer)) <==>
         ConfAdbServerIp in input.value && Truthy(Get(input.value, ConfAdbKey)))
    ensures r == ShowForm(UserForm, Some(ResultUnknown)) ==> attempt == Threw
    ensures r == ShowForm(UserForm, Some(ResultConnError)) ==> attempt == NoDevice
    ensures r.CreateEntry? ==>
      && input.Some?
      && r.title == input.value[ConfHost]
      && r.data == StoredInput(input.value)
      && r.title !in configuredHosts
      && attempt.Device?
      && var id := AndroidTvMac(attempt.properties, formatMac);
         id.Some? && id.value != "" && id.value != InvalidMac && id.value !in configuredIds
    // Once the key checks pass, each later outcome in turn.
    ensures input.Some? && !(ConfAdbServerIp in input.value && Truthy(Get(input.value, ConfAdbKey))) ==>
      var d := input.value;
      var keyIsNotFile := Truthy(Get(d, ConfAdbKey)) && !isFile(Get(d, ConfAdbKey));
      && (keyIsNotFile ==> r == ShowForm(UserForm, Some(AdbKeyNotFile)))
      && (!keyIsNotFile && d[ConfHost] in configuredHosts ==> r == Abort(AlreadyConfigured))
      && (!keyIsNotFile && d[ConfHost] !in configuredHosts ==>
            match attempt
            case Threw => r == ShowForm(UserForm, Some(ResultUnknown))
            case NoDevice => r == ShowForm(UserForm, Some(ResultConnError))
            case Device(props) =>
              var id := AndroidTvMac(props, formatMac);
              if id.None? || id.value == "" then r == Abort(InvalidUniqueId)
              else if id.value in configuredIds then r == Abort(AlreadyConfigured)
              else r == CreateEntry(d[ConfHost], StoredInput(d)))
  {
    if input.None? then ShowForm(UserForm, None)
    else
      var d := input.value;
      var adbKey := Get(d, ConfAdbKey);
      if ConfAdbServerIp in d && Truthy(adbKey) then ShowForm(UserForm, Some(KeyAndServer))
      else if Truthy(adbKey) && !isFile(adbKey) then ShowForm(UserForm, Some(AdbKeyNotFile))
      else if d[ConfHost] in configuredHosts then Abort(AlreadyConfigured)
      else
        var c := CheckConnection(attempt, formatMac);
        if c.error.Some? then ShowForm(UserForm, c.error)
        else if c.uniqueId.None? || c.uniqueId.value == "" then Abort(InvalidUniqueId)
        else if c.uniqueId.value in configuredIds then Abort(AlreadyConfigured)
        else CreateEntry(d[ConfHost], StoredInput(d))
  }

  /** An ADB key together with a server is refused before any connection is
      attempted: the result is the same whatever connecting would do. */
  lemma KeyAndServerNeverConnects(input: Dictionary, isFile: Value -> bool, configuredHosts: set<Value>,
                                  configuredIds: set<string>, a: ConnectAttempt, b: ConnectAttempt,
                                  formatMac: Value -> string)
    requires ConfHost in input && ConfAdbServerIp in input && Truthy(Get(input, ConfAdbKey))
    ensures UserStep(Some(input), isFile, configuredHosts, configuredIds, a, formatMac)
         == UserStep(Some(input), isFile, configuredHosts, configuredIds, b, formatMac)
         == ShowForm(UserForm, Some(KeyAndServer))
  {
  }

  /** A device whose properties give no usable MAC (none, empty, or only the
      invalid one) aborts the setup with `invalid_unique_id`. */
  lemma NoUsableMacAborts(input: Dictionary, isFile: Value -> bool, configuredHosts: set<Value>,
                          configuredIds: set<string>, props: Dictionary, formatMac: Value -> string)
    requires ConfHost in input && input[ConfHost] !in configuredHosts
    requires !(ConfAdbServerIp in input && Truthy(Get(input, ConfAdbKey)))
    requires Truthy(Get(input, ConfAdbKey)) ==> isFile(Get(input, ConfAdbKey))
    requires !UsableMac(props, PropEthMac, formatMac) && !UsableMac(props, PropWifiMac, formatMac)
    ensures UserStep(Some(input), isFile, configuredHosts, configuredIds, Device(props), formatMac)
         == Abort(InvalidUniqueId)
  {
  }

  /** A new host whose device has a usable, new MAC becomes an entry titled by
      the host that stores the input (the server port only with a server). */
  lemma NewDeviceCreatesEntry(input: Dictionary, isFile: Value -> bool, configuredHosts: set<Value>,
                              configuredIds: set<string>, props: Dictionary, formatMac: Value -> string)
    requires ConfHost in input && input[ConfHost] !in configuredHosts
    requires !(ConfAdbServerIp in input && Truthy(Get(input, ConfAdbKey)))
    requires Truthy(Get(input, ConfAdbKey)) ==> isFile(Get(input, ConfAdbKey))
    requires AndroidTvMac(props, formatMac).Some?
    requires AndroidTvMac(props, formatMac).value != "" && AndroidTvMac(props, formatMac).value !in configuredIds
    ensures UserStep(Some(input), isFile, configuredHosts, configuredIds, Device(props), formatMac)
         == CreateEntry(input[ConfHost], StoredInput(input))
  {
  }

  // ---------------------------------------------------- rule validation

  /** A parsed rule value as the library wants it: a list, or wrapped in one. */
  function AsRuleList(v: Value): (r: Value)
    ensures r.List?
    ensures v.List? ==> r == v
    ensures !v.List? ==> r.items == [v]
  {
    if v.List? then v else List([v])
  }

  /** `_validate_state_det_rules`: the text is parsed as JSON (`parse`, none
      when it is not JSON), a non-list is wrapped in a list, and the result
      is returned when the library's validator (`accept`) takes it. */
  function ValidateStateDetRules(text: string, parse: string -> Option<Value>, accept: Value -> bool)
    : (r: Option<Value>)
    ensures r.Some? <==> parse(text).Some? && accept(AsRuleList(parse(text).value))
    ensures r.Some? ==> r.value.List? && r.value == AsRuleList(parse(text).value)
  {
    match parse(text)
    case None => None
    case Some(json) =>
      var rules := AsRuleList(json);
      if accept(rules) then Some(rules) else None
  }

  // --------------------------------------------------------- saving

  /** The three tables the options editor edits. */
  predicate IsTableKey(k: string)
  {
    k == ConfApps || k == ConfCustomCommands || k == ConfStateDetectionRules
  }

  /** A table as the editor reads it from the options: `{}` when absent. */
  function TableOf(options: Dictionary, key: string): (t: Dictionary)
    requires key in options ==> options[key].Dict?
    ensures key in options ==> t == options[key].entries
    ensures key !in options ==> t == map[]
  {
    if key in options then options[key].entries else map[]
  }

  /** Whether the options hold the three tables as dictionaries (or not at all). */
  predicate TablesAreDicts(options: Dictionary)
  {
    forall k :: k in options && IsTableKey(k) ==> options[k].Dict?
  }

  /** `_save_config`: the submitted data without the table keys, and each
      edited table added back only when it is not empty. */
  function SavedOptions(data: Dictionary, apps: Dictionary, commands: Dictionary, rules: Dictionary)
    : (r: Dictionary)
    ensures forall k :: k in data && !IsTableKey(k) ==> k in r && r[k] == data[k]
    ensures forall k :: k in r ==> k in data || IsTableKey(k)
    ensures ConfApps in r <==> apps != map[]
    ensures ConfCustomCommands in r <==> commands != map[]
    ensures ConfStateDetectionRules in r <==> rules != map[]
    ensures ConfApps in r ==> r[ConfApps] == Dict(apps)
    ensures ConfCustomCommands in r ==> r[ConfCustomCommands] == Dict(commands)
    ensures ConfStateDetectionRules in r ==> r[ConfStateDetectionRules] == Dict(rules)
  {
    var kept := map k | k in data && !IsTableKey(k) :: data[k];
    var withApps := if apps != map[] then kept[ConfApps := Dict(apps)] else kept;
    var withCommands := if commands != map[] then withApps[ConfCustomCommands := Dict(commands)] else withApps;
    if rules != map[] then withCommands[ConfStateDetectionRules := Dict(rules)] else withCommands
  }

  /** Saving and reopening the editor gives back the edited tables: an empty
      table that was left out reads back as empty. */
  lemma SaveThenReopen(data: Dictionary, apps: Dictionary, commands: Dictionary, rules: Dictionary)
    ensures TablesAreDicts(SavedOptions(data, apps, commands, rules))
    ensures var saved := SavedOptions(data, apps, commands, rules);
      && TableOf(saved, ConfApps) == apps
      && TableOf(saved, ConfCustomCommands) == commands
      && TableOf(saved, ConfStateDetectionRules) == rules
  {
  }

  /** The input fields that the forms declare as strings hold strings. */
  predicate StrOrAbsent(input: Dictionary, key: string)
  {
    key in input ==> input[key].Str?
  }

  /** An ID field of a form: its string when given, else the remembered one. */
  function IdOf(input: Dictionary, key: string, remembered: Option<string>): (r: Option<string>)
    requires StrOrAbsent(input, key)
    ensures key in input ==> r == Some(input[key].s)
    ensures key !in input ==> r == remembered
  {
    if key in input then Some(input[key].s) else remembered
  }

  // ------------------------------------------------------- options editor

  /** The options editor of one config entry: working copies of its three
      tables and the IDs of the app, command and rule being edited. */
  class OptionsFlow {
    var apps: Dictionary
    var customCommands: Dictionary
    var stateDetRules: Dictionary
    var confAppId: Option<string>
    var confCmdId: Option<string>
    var confRuleId: Option<string>

    /** Every stored rule is a list, as validation leaves it. */
    ghost predicate RulesAreLists()
      reads this
    {
      forall k :: k in stateDetRules ==> stateDetRules[k].List?
    }

    /** Every stored command is set: an empty one is removed instead. */
    ghost predicate CommandsAreSet()
      reads this
    {
      forall k :: k in customCommands ==> Truthy(customCommands[k])
    }

    /** Copy the tables out of the entry's options; nothing is being edited yet. */
    constructor (options: Dictionary)
      requires TablesAreDicts(options)
      ensures apps == TableOf(options, ConfApps)
      ensures customCommands == TableOf(options, ConfCustomCommands)
      ensures stateDetRules == TableOf(options, ConfStateDetectionRules)
      ensures confAppId.None? && confCmdId.None? && confRuleId.None?
    {
      apps := TableOf(options, ConfApps);
      customCommands := TableOf(options, ConfCustomCommands);
      stateDetRules := TableOf(options, ConfStateDetectionRules);
      confAppId, confCmdId, confRuleId := None, None, None;
    }

    /** The apps step entered from the menu with a selected app: remember it
        (none for a new app) and show its form. */
    method SelectApp(appId: string) returns (r: FlowResult)
      modifies this`confAppId
      ensures confAppId == (if appId != AppsNewId then Some(appId) else None)
      ensures r == ShowForm(AppsForm(appId), None)
    {
      confAppId := if appId != AppsNewId then Some(appId) else None;
      r := ShowForm(AppsForm(appId), None);
    }

    /** The rules step entered from the menu with a selected rule. */
    method SelectRule(ruleId: string) returns (r: FlowResult)
      modifies this`confRuleId
      ensures confRuleId == (if ruleId != RulesNewId then Some(ruleId) else None)
      ensures r == ShowForm(RulesForm(ruleId, ""), None)
    {
      confRuleId := if ruleId != RulesNewId then Some(ruleId) else None;
      r := ShowForm(RulesForm(ruleId, ""), None);
    }

    /** `async_step_init`: without input show the menu; otherwise the first
        truthy selection wins, apps before commands before rules, and with
        none the options are saved. */
    method StepInit(input: Option<Dictionary>) returns (r: FlowResult)
      requires input.Some? ==>
        StrOrAbsent(input.value, ConfApps) && StrOrAbsent(input.value, ConfCustomCommands)
        && StrOrAbsent(input.value, ConfStateDetectionRules)
      modifies this`confAppId, this`confCmdId, this`confRuleId
      ensures input.None? ==> r == InitShown && unchanged(this)
      ensures input.Some? && Truthy(Get(input.value, ConfApps)) ==>
        var id := input.value[ConfApps].s;
        && r == ShowForm(AppsForm(id), None)
        && confAppId == (if id != AppsNewId then Some(id) else None)
        && confCmdId == old(confCmdId) && confRuleId == old(confRuleId)
      ensures input.Some? && !Truthy(Get(input.value, ConfApps)) && Truthy(Get(input.value, ConfCustomCommands)) ==>
        && r == ShowForm(CommandsForm(Some(input.value[ConfCustomCommands].s)), None)
        && confCmdId == Some(input.value[ConfCustomCommands].s)
        && confAppId == old(confAppId) && confRuleId == old(confRuleId)
      ensures input.Some? && !Truthy(Get(input.value, ConfApps)) && !Truthy(Get(input.value, ConfCustomCommands))
              && Truthy(Get(input.value, ConfStateDetectionRules)) ==>
        var id := input.value[ConfStateDetectionRules].s;
        && r == ShowForm(RulesForm(id, ""), None)
        && confRuleId == (if id != RulesNewId then Some(id) else None)
        && confAppId == old(confAppId) && confCmdId == old(confCmdId)
      ensures input.Some? && !Truthy(Get(input.value, ConfApps)) && !Truthy(Get(input.value, ConfCustomCommands))
              && !Truthy(Get(input.value, ConfStateDetectionRules)) ==>
        && r == CreateEntry(Str(""), SavedOptions(input.value, apps, customCommands, stateDetRules))
        && unchanged(this)
    {
      if input.None? {
        return InitShown;
      }
      var data := input.value;
      if Truthy(Get(data, ConfApps)) {
        r := SelectApp(data[ConfApps].s);
        return;
      }
      if Truthy(Get(data, ConfCustomCommands)) {
        confCmdId := Some(data[ConfCustomCommands].s);
        return ShowForm(CommandsForm(confCmdId), None);
      }
      if Truthy(Get(data, ConfStateDetectionRules)) {
        r := SelectRule(data[ConfStateDetectionRules].s);
        return;
      }
      r := CreateEntry(Str(""), SavedOptions(data, apps, customCommands, stateDetRules));
    }

    /** `async_step_apps` submitted: with a non-empty app ID (the field, else
        the remembered app) delete it when asked to, which fails on an ID
        that is not there, or store its name (`""` when none is given). */
    method StepApps(input: Option<Dictionary>) returns (r: FlowResult)
      requires input.Some? ==> StrOrAbsent(input.value, ConfAppId)
      modifies this`apps
      ensures input.None? ==> r == InitShown && apps == old(apps)
      ensures input.Some? ==>
        var id := IdOf(input.value, ConfAppId, confAppId);
        && (id.None? || id.value == "" ==> r == InitShown && apps == old(apps))
        && (id.Some? && id.value != "" && Truthy(GetOr(input.value, ConfAppDelete, Bool(false))) ==>
              if id.value in old(apps) then r == InitShown && apps == old(apps) - {id.value}
              else r == KeyErrorRaised(id.value) && apps == old(apps))
        && (id.Some? && id.value != "" && !Truthy(GetOr(input.value, ConfAppDelete, Bool(false))) ==>
              r == InitShown && apps == old(apps)[id.value := GetOr(input.value, ConfAppName, Str(""))])
    {
      if input.Some? {
        var data := input.value;
        var appId := IdOf(data, ConfAppId, confAppId);
        if appId.Some? && appId.value != "" {
          if Truthy(GetOr(data, ConfAppDelete, Bool(false))) {
            if appId.value !in apps {
              return KeyErrorRaised(appId.value);
            }
            apps := apps - {appId.value};
          } else {
            apps := apps[appId.value := GetOr(data, ConfAppName, Str(""))];
          }
        }
      }
      r := InitShown;
    }

    /** `async_step_commands`: without input show the form of the selected
        command; otherwise an empty or missing value removes the command (if
        it is there) and any other value sets it. */
    method StepCommands(input: Option<Dictionary>) returns (r: FlowResult)
      requires input.Some? ==> confCmdId.Some?
      modifies this`customCommands
      ensures input.None? ==> r == ShowForm(CommandsForm(confCmdId), None) && customCommands == old(customCommands)
      ensures input.Some? ==> r == InitShown
      ensures input.Some? && !Truthy(Get(input.value, ConfCmdValue)) ==>
        customCommands == old(customCommands) - {confCmdId.value}
      ensures input.Some? && Truthy(Get(input.value, ConfCmdValue)) ==>
        customCommands == old(customCommands)[confCmdId.value := input.value[ConfCmdValue]]
      ensures old(CommandsAreSet()) ==> CommandsAreSet()
    {
      if input.None? {
        return ShowForm(CommandsForm(confCmdId), None);
      }
      var value := Get(input.value, ConfCmdValue);
      if !Truthy(value) {
        customCommands := customCommands - {confCmdId.value};
      } else {
        customCommands := customCommands[confCmdId.value := value];
      }
      r := InitShown;
    }

    /** `async_step_rules` submitted: with a non-empty rule ID (the field, else
        the remembered rule) delete it when asked to, which fails on an ID
        that is not there, or validate the given text: a rejected text shows
        the rules form again with `invalid_det_rules` and changes nothing, an
        accepted one is stored as a list. No text changes nothing. */
    method StepRules(input: Option<Dictionary>, parse: string -> Option<Value>, accept: Value -> bool)
      returns (r: FlowResult)
      requires input.Some? ==> StrOrAbsent(input.value, ConfRuleId) && StrOrAbsent(input.value, ConfRuleValues)
      modifies this`stateDetRules
      ensures input.None? ==> r == InitShown && stateDetRules == old(stateDetRules)
      ensures input.Some? ==>
        var data := input.value;
        var id := IdOf(data, ConfRuleId, confRuleId);
        var delete := Truthy(GetOr(data, ConfRuleDelete, Bool(false)));
        var text := Get(data, ConfRuleValues);
        && (id.None? || id.value == "" ==> r == InitShown && stateDetRules == old(stateDetRules))
        && (id.Some? && id.value != "" && delete ==>
              if id.value in old(stateDetRules) then r == InitShown && stateDetRules == old(stateDetRules) - {id.value}
              else r == KeyErrorRaised(id.value) && stateDetRules == old(stateDetRules))
        && (id.Some? && id.value != "" && !delete && !Truthy(text) ==>
              r == InitShown && stateDetRules == old(stateDetRules))
        && (id.Some? && id.value != "" && !delete && Truthy(text) ==>
              var checked := ValidateStateDetRules(text.s, parse, accept);
              if checked.None? then
                && r == ShowForm(RulesForm(if confRuleId.Some? && confRuleId.value != "" then confRuleId.value else RulesNewId,
                                           id.value), Some(InvalidDetRules))
                && stateDetRules == old(stateDetRules)
              else r == InitShown && stateDetRules == old(stateDetRules)[id.value := checked.value])
      ensures old(RulesAreLists()) ==> RulesAreLists()
    {
      if input.Some? {
        var data := input.value;
        var ruleId := IdOf(data, ConfRuleId, confRuleId);
        if ruleId.Some? && ruleId.value != "" {
          var text := Get(data, ConfRuleValues);
          if Truthy(GetOr(data, ConfRuleDelete, Bool(false))) {
            if ruleId.value !in stateDetRules {
              return KeyErrorRaised(ruleId.value);
            }
            stateDetRules := stateDetRules - {ruleId.value};
          } else if Truthy(text) {
            var checked := ValidateStateDetRules(text.s, parse, accept);
            if checked.None? {
              var shown := if confRuleId.Some? && confRuleId.value != "" then confRuleId.value else RulesNewId;
              return ShowForm(RulesForm(shown, ruleId.value), Some(InvalidDetRules));
            }
            stateDetRules := stateDetRules[ruleId.value := checked.value];
          }
        }
      }
      r := InitShown;
    }
  }
}
