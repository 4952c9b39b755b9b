/** The media-player entity of an Android TV or Fire TV device: the uniform
    failure-recovery policy wrapped around every device call, the polling
    update that reconnects with a consecutive-failure counter, and the
    commands. The ADB library is foreign: each call into it is recorded in
    `calls`, and what it returns or raises is a parameter. */
module MediaPlayer {
  import opened Values
  import opened Const
  import opened Telemetry

  /** The two entity classes of the source; they differ only where noted. */
  datatype DeviceKind = AndroidTv | FireTv

  /** The exceptions the integration tells apart (flat: subclasses that the
      source catches through a parent are listed as their own constructor). */
  datatype AdbError =
    | AdbTimeoutError | BrokenPipeError | ConnectionResetError | ValueError
    | UnicodeDecodeError  // a subclass of ValueError
    | InvalidChecksumError | InvalidCommandError | InvalidResponseError
    | TcpTimeoutException | RuntimeError
    | OtherError(name: string)

  /** Why a device call did not return: the ADB lock was busy, or an exception. */
  datatype Failure = LockNotAcquired | Adb(error: AdbError)

  /** What one call into the ADB library does. */
  datatype Outcome<T> = Ok(value: T) | Raised(failure: Failure)

  /** What a wrapped entity method does for its caller: every modelled method
      returns `None`, or an exception escapes. */
  datatype Reply = ReturnedNone | Reraised(error: AdbError)

  function FailureOf<T>(o: Outcome<T>): Option<Failure>
  {
    match o
    case Ok(_) => None
    case Raised(f) => Some(f)
  }

  /** The exceptions the wrapper swallows: a long list for the Python ADB
      implementation, two for an ADB server. */
  function RecognisedErrors(usesAdbServer: bool): (s: set<AdbError>)
    ensures ConnectionResetError in s
    ensures RuntimeError in s <==> usesAdbServer
    ensures !usesAdbServer <==> ValueError in s && UnicodeDecodeError in s && AdbTimeoutError in s && TcpTimeoutException in s
    ensures !usesAdbServer ==>
      s == {AdbTimeoutError, BrokenPipeError, ConnectionResetError, ValueError, UnicodeDecodeError,
            InvalidChecksumError, InvalidCommandError, InvalidResponseError, TcpTimeoutException}
    ensures usesAdbServer ==> s == {ConnectionResetError, RuntimeError}
    ensures forall n :: OtherError(n) !in s
  {
    if !usesAdbServer then
      {AdbTimeoutError, BrokenPipeError, ConnectionResetError, ValueError, UnicodeDecodeError,
       InvalidChecksumError, InvalidCommandError, InvalidResponseError, TcpTimeoutException}
    else
      {ConnectionResetError, RuntimeError}
  }

  /** One call into the ADB library. */
  datatype DeviceCall =
    | Connect(logErrors: bool)
    | Close
    | FetchUpdate(getSources: Value)
    | Command(name: string)
    | LaunchApp(appId: string)
    | StopApp(appId: string)
    | KeyEvent(code: int)          // the shell command "input keyevent <code>"
    | Shell(command: string)
    | GetProperties
    | IsVolumeMuted
    | MuteVolume
    | CustomizeCommand(name: string, value: Value)

  /** The one-shot remote commands, each a single device call. */
  datatype RemoteCommand = Play | Pause | PlayPause | TurnOn | TurnOff | PreviousTrack | NextTrack | StopMedia

  /** What one poll of the device reports (the volume level is not modelled;
      Fire TV reports no mute state). `runningApps` is empty also when the
      library reports none at all, which the source treats alike. */
  datatype Report = Report(
    state: Option<string>,
    currentApp: Option<string>,
    runningApps: seq<string>,
    isVolumeMuted: Option<bool>,
    hdmiInput: Option<string>)

  function AppCall(a: AppAction): DeviceCall
  {
    match a
    case Launch(id) => LaunchApp(id)
    case Stop(id) => StopApp(id)
  }

  /** The customizations the entity pushes to the library: every customizable
      command, with the configured text or `None` to reset it. */
  function Customizations(names: seq<string>, commands: Dictionary): (r: seq<DeviceCall>)
    ensures |r| == |names|
    ensures forall i :: 0 <= i < |names| ==> r[i] == CustomizeCommand(names[i], Get(commands, names[i]))
  {
    seq(|names|, i requires 0 <= i < |names| => CustomizeCommand(names[i], Get(commands, names[i])))
  }

  /** The connect attempts of `n` consecutive polls that all fail to connect,
      starting from a failure count of `count`. */
  function ConnectAttempts(count: nat, n: nat): (r: seq<DeviceCall>)
    ensures |r| == n
    ensures forall i :: 0 <= i < n ==> r[i] == Connect(count + i == 0)
  {
    seq(n, i requires 0 <= i < n => Connect(count + i == 0))
  }

  class AdbDevice {
    const kind: DeviceKind
    /** Whether the library talks to an ADB server rather than the device. */
    const usesAdbServer: bool
    /** The library's built-in app table (APPS) and key-code table (KEYS). */
    const builtinApps: map<string, string>
    const keyCodes: map<string, int>
    /** The library's customizable commands. */
    const customizableCommands: seq<string>

    var available: bool
    /** The number of consecutive failed connect attempts. */
    var failedConnectCount: nat
    var state: Option<PlayerState>
    var appId: Option<string>
    var appName: Option<string>
    var source: Option<string>
    var sourceList: Option<seq<string>>
    var isVolumeMuted: Option<bool>
    var hdmiInput: Option<string>
    var adbResponse: Option<string>
    var appIdToName: map<string, string>
    var appNameToId: map<string, string>
    var getSources: Value
    var excludeUnnamedApps: Value
    var screencap: Value
    /** Every call made into the ADB library, in order. */
    var calls: seq<DeviceCall>

    constructor (kind: DeviceKind, usesAdbServer: bool, builtinApps: map<string, string>,
                 keyCodes: map<string, int>, customizableCommands: seq<string>)
      ensures this.kind == kind && this.usesAdbServer == usesAdbServer
      ensures this.builtinApps == builtinApps && this.keyCodes == keyCodes
      ensures this.customizableCommands == customizableCommands
      ensures available && failedConnectCount == 0 && calls == []
      ensures state.None? && appId.None? && appName.None? && source.None? && sourceList.None?
      ensures isVolumeMuted.None? && hdmiInput.None? && adbResponse.None?
      ensures appIdToName == map[] && appNameToId == map[]
      ensures getSources == DefaultGetSources && excludeUnnamedApps == DefaultExcludeUnnamedApps
      ensures screencap == DefaultScreencap
    {
      this.kind := kind;
      this.usesAdbServer := usesAdbServer;
      this.builtinApps := builtinApps;
      this.keyCodes := keyCodes;
      this.customizableCommands := customizableCommands;
      available := true;
      failedConnectCount := 0;
      state, appId, appName, source, sourceList := None, None, None, None, None;
      isVolumeMuted, hdmiInput, adbResponse := None, None, None;
      appIdToName, appNameToId := map[], map[];
      getSources, excludeUnnamedApps, screencap := DefaultGetSources, DefaultExcludeUnnamedApps, DefaultScreencap;
      calls := [];
    }

    /** The wrapper's handling of a failed body: a busy lock is skipped and
        changes nothing; any exception closes the session and marks the
        device unavailable, and escapes unless it is a recognised one. */
    ghost predicate Recovered(wasAvailable: bool, before: seq<DeviceCall>, f: Failure, r: Reply)
      reads this
    {
      match f
      case LockNotAcquired => available == wasAvailable && calls == before && r == ReturnedNone
      case Adb(e) =>
        && !available
        && calls == before + [Close]
        && r == (if e in RecognisedErrors(usesAdbServer) then ReturnedNone else Reraised(e))
    }

    /** A wrapped body that made the calls `made` and then completed or failed. */
    ghost predicate Settled(wasAvailable: bool, before: seq<DeviceCall>, made: seq<DeviceCall>, f: Option<Failure>, r: Reply)
      reads this
    {
      match f
      case None => available == wasAvailable && calls == before + made && r == ReturnedNone
      case Some(failure) => Recovered(wasAvailable, before + made, failure, r)
    }

    /** The wrapper's gate: an unavailable device is not called at all. */
    ghost predicate Skipped(before: seq<DeviceCall>, r: Reply)
      reads this
    {
      !available && calls == before && r == ReturnedNone
    }

    method Recover(f: Failure) returns (r: Reply)
      modifies this`available, this`calls
      ensures Recovered(old(available), old(calls), f, r)
    {
      match f
      case LockNotAcquired =>
        r := ReturnedNone;
      case Adb(e) =>
        calls := calls + [Close];
        available := false;
        r := if e in RecognisedErrors(usesAdbServer) then ReturnedNone else Reraised(e);
    }

    /** Load the options: rebuild the app tables, read the three switches and
        push the customizable commands to the library. */
    method ProcessConfig(options: Dictionary)
      requires ConfApps in options ==> IsStrDict(options[ConfApps])
      requires ConfCustomCommands in options ==> options[ConfCustomCommands].Dict?
      modifies this`appIdToName, this`appNameToId, this`getSources, this`excludeUnnamedApps, this`screencap, this`calls
      ensures var apps := if ConfApps in options then StrEntries(options[ConfApps]) else map[];
        && appIdToName == builtinApps + apps
        && ConsistentTables(appIdToName, appNameToId)
        && (forall id :: id in appIdToName && appIdToName[id] != "" ==> appIdToName[id] in appNameToId)
        && (forall id :: id in apps ==> apps[id] in appNameToId && appNameToId[apps[id]] in apps)
        && (forall n :: n in appNameToId ==> n != "" || n in apps.Values)
      ensures getSources == GetOr(options, ConfGetSources, DefaultGetSources)
      ensures excludeUnnamedApps == GetOr(options, ConfExcludeUnnamedApps, DefaultExcludeUnnamedApps)
      ensures screencap == GetOr(options, ConfScreencap, DefaultScreencap)
      ensures var commands := if ConfCustomCommands in options then options[ConfCustomCommands].entries else map[];
        calls == old(calls) + Customizations(customizableCommands, commands)
    {
      var apps := if ConfApps in options then StrEntries(options[ConfApps]) else map[];
      appIdToName, appNameToId := AppTables(builtinApps, apps);
      getSources := GetOr(options, ConfGetSources, DefaultGetSources);
      excludeUnnamedApps := GetOr(options, ConfExcludeUnnamedApps, DefaultExcludeUnnamedApps);
      screencap := GetOr(options, ConfScreencap, DefaultScreencap);
      var commands := if ConfCustomCommands in options then options[ConfCustomCommands].entries else map[];
      ghost var pushed := Customizations(customizableCommands, commands);
      for i := 0 to |customizableCommands|
        invariant calls == old(calls) + pushed[..i]
        invariant appIdToName == builtinApps + apps && ConsistentTables(appIdToName, appNameToId)
        invariant forall id :: id in appIdToName && appIdToName[id] != "" ==> appIdToName[id] in appNameToId
        invariant forall id :: id in apps ==> apps[id] in appNameToId && appNameToId[apps[id]] in apps
        invariant forall n :: n in appNameToId ==> n != "" || n in apps.Values
        invariant getSources == GetOr(options, ConfGetSources, DefaultGetSources)
        invariant excludeUnnamedApps == GetOr(options, ConfExcludeUnnamedApps, DefaultExcludeUnnamedApps)
        invariant screencap == GetOr(options, ConfScreencap, DefaultScreencap)
      {
        var name := customizableCommands[i];
        calls := calls + [CustomizeCommand(name, Get(commands, name))];
        assert pushed[..i + 1] == pushed[..i] + [pushed[i]];
      }
      assert pushed[..|customizableCommands|] == pushed;
    }

    /** The library call behind a remote command; "stop" is "back" on Fire TV. */
    function CommandName(c: RemoteCommand): (n: string)
      ensures n == "back" <==> kind == FireTv && c == StopMedia
      ensures n == "media_stop" <==> kind == AndroidTv && c == StopMedia
      ensures c == Play ==> n == "media_play"
      ensures c == Pause ==> n == "media_pause"
      ensures c == PlayPause ==> n == "media_play_pause"
      ensures c == PreviousTrack ==> n == "media_previous_track"
      ensures c == NextTrack ==> n == "media_next_track"
      ensures n == "turn_on" <==> c == TurnOn
      ensures n == "turn_off" <==> c == TurnOff
    {
      match c
      case Play => "media_play"
      case Pause => "media_pause"
      case PlayPause => "media_play_pause"
      case TurnOn => "turn_on"
      case TurnOff => "turn_off"
      case PreviousTrack => "media_previous_track"
      case NextTrack => "media_next_track"
      case StopMedia => if kind == AndroidTv then "media_stop" else assert kind == FireTv; "back"
    }

    /** Different remote commands never reach the library as the same call. */
    lemma CommandNamesDistinct(c1: RemoteCommand, c2: RemoteCommand)
      ensures CommandName(c1) == CommandName(c2) ==> c1 == c2
    {
    }

    /** Send a one-shot remote command through the wrapper. */
    method SendCommand(c: RemoteCommand, outcome: Outcome<()>) returns (r: Reply)
      modifies this`available, this`calls
      ensures !old(available) ==> Skipped(old(calls), r)
      ensures old(available) ==> Settled(true, old(calls), [Command(CommandName(c))], FailureOf(outcome), r)
    {
      if !available {
        return ReturnedNone;
      }
      calls := calls + [Command(CommandName(c))];
      match outcome
      case Ok(_) => r := ReturnedNone;
      case Raised(f) => r := Recover(f);
    }

    /** Select a source: launch or stop the app it names; a non-string does nothing. */
    method SelectSource(src: Value, outcome: Outcome<()>) returns (r: Reply)
      modifies this`available, this`calls
      ensures !old(available) ==> Skipped(old(calls), r)
      ensures old(available) && !src.Str? ==> Settled(true, old(calls), [], None, r)
      ensures old(available) && src.Str? ==>
        Settled(true, old(calls), [AppCall(SourceAction(src, appNameToId).value)], FailureOf(outcome), r)
    {
      if !available {
        return ReturnedNone;
      }
      match SourceAction(src, appNameToId)
      case None =>
        r := ReturnedNone;
      case Some(action) =>
        calls := calls + [AppCall(action)];
        match outcome
        case Ok(_) => r := ReturnedNone;
        case Raised(f) => r := Recover(f);
    }

    /** The failure of a raw shell command that reaches the wrapper: a
        decoding error is caught by the command itself. */
    static function ShellFailure(o: Outcome<Option<string>>): (f: Option<Failure>)
      ensures f.None? <==> o.Ok? || o.failure == Adb(UnicodeDecodeError)
      ensures f.Some? ==> f == FailureOf(o)
    {
      match o
      case Ok(_) => None
      case Raised(f) => if f == Adb(UnicodeDecodeError) then None else Some(f)
    }

    /** Send an ADB command: a key name becomes a key event, GET_PROPERTIES
        stores the device properties' text, anything else is run in the shell
        and a non-blank answer is stored stripped. */
    method AdbCommand(command: string, shellOutcome: Outcome<Option<string>>, propsOutcome: Outcome<string>)
      returns (r: Reply)
      modifies this`available, this`calls, this`adbResponse
      ensures !old(available) ==> Skipped(old(calls), r) && adbResponse == old(adbResponse)
      ensures old(available) && command in keyCodes && keyCodes[command] != 0 ==>
        && Settled(true, old(calls), [KeyEvent(keyCodes[command])], FailureOf(shellOutcome), r)
        && adbResponse == old(adbResponse)
      ensures old(available) && !(command in keyCodes && keyCodes[command] != 0) && command == "GET_PROPERTIES" ==>
        && Settled(true, old(calls), [GetProperties], FailureOf(propsOutcome), r)
        && adbResponse == (if propsOutcome.Ok? then Some(propsOutcome.value) else old(adbResponse))
      ensures old(available) && !(command in keyCodes && keyCodes[command] != 0) && command != "GET_PROPERTIES" ==>
        && Settled(true, old(calls), [Shell(command)], ShellFailure(shellOutcome), r)
        && adbResponse == (if shellOutcome.Ok? && shellOutcome.value.Some? && Strip(shellOutcome.value.value) != ""
                           then Some(Strip(shellOutcome.value.value)) else old(adbResponse))
      ensures adbResponse != old(adbResponse) && command != "GET_PROPERTIES" ==>
        adbResponse.Some? && adbResponse.value != "" && !IsSpace(adbResponse.value[0])
    {
      if !available {
        return ReturnedNone;
      }
      if command in keyCodes && keyCodes[command] != 0 {
        calls := calls + [KeyEvent(keyCodes[command])];
        match shellOutcome {
          case Ok(_) => r := ReturnedNone;
          case Raised(f) => r := Recover(f);
        }
        return;
      }
      if command == "GET_PROPERTIES" {
        calls := calls + [GetProperties];
        match propsOutcome {
          case Ok(text) =>
            adbResponse := Some(text);
            r := ReturnedNone;
          case Raised(f) =>
            r := Recover(f);
        }
        return;
      }
      calls := calls + [Shell(command)];
      match shellOutcome
      case Raised(f) =>
        if f == Adb(UnicodeDecodeError) {
          r := ReturnedNone;
        } else {
          r := Recover(f);
        }
      case Ok(response) =>
        if response.Some? && Strip(response.value) != "" {
          adbResponse := Some(Strip(response.value));
        }
        r := ReturnedNone;
    }

    /** Mute or unmute (Android TV only): toggle only when the current mute
        state is known and differs from the one asked for. */
    method MuteVolumeTo(mute: bool, queryOutcome: Outcome<Option<bool>>, toggleOutcome: Outcome<()>)
      returns (r: Reply)
      requires kind == AndroidTv
      modifies this`available, this`calls
      ensures !old(available) ==> Skipped(old(calls), r)
      ensures old(available) && queryOutcome.Raised? ==>
        Settled(true, old(calls), [IsVolumeMuted], Some(queryOutcome.failure), r)
      ensures old(available) && queryOutcome.Ok? && queryOutcome.value.Some? && queryOutcome.value.value != mute ==>
        Settled(true, old(calls), [IsVolumeMuted, MuteVolume], FailureOf(toggleOutcome), r)
      ensures old(available) && queryOutcome.Ok? && (queryOutcome.value.None? || queryOutcome.value.value == mute) ==>
        Settled(true, old(calls), [IsVolumeMuted], None, r)
    {
      if !available {
        return ReturnedNone;
      }
      calls := calls + [IsVolumeMuted];
      match queryOutcome
      case Raised(f) =>
        r := Recover(f);
      case Ok(isMuted) =>
        if isMuted.Some? && isMuted.value != mute {
          calls := calls + [MuteVolume];
          match toggleOutcome
          case Ok(_) => r := ReturnedNone;
          case Raised(f) => r := Recover(f);
        } else {
          r := ReturnedNone;
        }
    }

    /** Poll the device. The wrapper's gate is overridden: while unavailable
        the poll first tries to reconnect, logging errors only on the first
        attempt of a run of failures; a failed attempt counts and reads
        nothing. When the link is up the report is read: an unknown state
        makes the entity unavailable, and the source list is rebuilt from the
        running apps. */
    method Update(connected: Outcome<bool>, report: Outcome<Report>) returns (r: Reply)
      modifies this`available, this`failedConnectCount, this`calls, this`state, this`appId,
               this`appName, this`source, this`sourceList, this`isVolumeMuted, this`hdmiInput
      // Reconnection.
      ensures old(available) ==> failedConnectCount == old(failedConnectCount)
      ensures !old(available) ==> |calls| > |old(calls)| && calls[|old(calls)|] == Connect(old(failedConnectCount) == 0)
      ensures !old(available) && connected == Ok(false) ==>
        && failedConnectCount == old(failedConnectCount) + 1
        && Skipped(old(calls) + [Connect(old(failedConnectCount) == 0)], r)
      ensures !old(available) && connected.Raised? ==>
        && failedConnectCount == old(failedConnectCount)
        && Recovered(false, old(calls) + [Connect(old(failedConnectCount) == 0)], connected.failure, r)
      ensures !old(available) && connected == Ok(true) ==> failedConnectCount == 0
      // Nothing is read unless the link is up.
      ensures !(old(available) || connected == Ok(true)) || report.Raised? ==>
        && state == old(state) && appId == old(appId) && appName == old(appName) && source == old(source)
        && sourceList == old(sourceList) && isVolumeMuted == old(isVolumeMuted) && hdmiInput == old(hdmiInput)
      // Reading the report.
      ensures old(available) || connected == Ok(true) ==>
        var before := old(calls) + (if old(available) then [] else [Connect(old(failedConnectCount) == 0)]);
        var fetched := before + [FetchUpdate(getSources)];
        match report
        case Raised(f) => Recovered(true, fetched, f, r)
        case Ok(t) =>
          && calls == fetched && r == ReturnedNone
          && state == EntityState(t.state)
          && available == state.Some?
          && appId == t.currentApp
          && hdmiInput == t.hdmiInput
          && isVolumeMuted == (if kind == AndroidTv then t.isVolumeMuted else old(isVolumeMuted))
          && sourceList == SourceList(t.runningApps, appIdToName, Truthy(excludeUnnamedApps))
          && source == (if t.runningApps != [] then CurrentSource(t.currentApp, appIdToName) else old(source))
          && appName == (if kind == AndroidTv && t.runningApps != [] then source else old(appName))
    {
      if !available {
        calls := calls + [Connect(failedConnectCount == 0)];
        match connected {
          case Raised(f) =>
            r := Recover(f);
            return;
          case Ok(ok) =>
            if ok {
              failedConnectCount := 0;
              available := true;
            } else {
              failedConnectCount := failedConnectCount + 1;
            }
        }
      }
      if !available {
        return ReturnedNone;
      }
      calls := calls + [FetchUpdate(getSources)];
      match report
      case Raised(f) =>
        r := Recover(f);
      case Ok(t) =>
        ShowReport(t);
        r := ReturnedNone;
    }

    /** Take over what a poll reported (the part of `Update` after a
        successful read). */
    method ShowReport(t: Report)
      requires available
      modifies this`available, this`state, this`appId, this`appName, this`source, this`sourceList,
               this`isVolumeMuted, this`hdmiInput
      ensures state == EntityState(t.state)
      ensures available == state.Some?
      ensures appId == t.currentApp
      ensures hdmiInput == t.hdmiInput
      ensures isVolumeMuted == (if kind == AndroidTv then t.isVolumeMuted else old(isVolumeMuted))
      ensures sourceList == SourceList(t.runningApps, appIdToName, Truthy(excludeUnnamedApps))
      ensures source == (if t.runningApps != [] then CurrentSource(t.currentApp, appIdToName) else old(source))
      ensures appName == (if kind == AndroidTv && t.runningApps != [] then source else old(appName))
    {
      appId := t.currentApp;
      if kind == AndroidTv {
        isVolumeMuted := t.isVolumeMuted;
      }
      hdmiInput := t.hdmiInput;
      state := EntityState(t.state);
      if state.None? {
        available := false;
      }
      if t.runningApps != [] {
        source := CurrentSource(appId, appIdToName);
        if kind == AndroidTv {
          appName := source;
        }
        sourceList := Some(Sources(t.runningApps, appIdToName, Truthy(excludeUnnamedApps)));
      } else {
        sourceList := None;
      }
    }
  }

  /** `n` polls of a device that stays unreachable: the failure count grows
      by `n`, only an attempt made at count 0 logs errors, and the device is
      asked for nothing but a connection. */
  method PollWhileUnreachable(d: AdbDevice, n: nat, report: Outcome<Report>)
    requires !d.available
    modifies d
    ensures !d.available
    ensures d.failedConnectCount == old(d.failedConnectCount) + n
    ensures d.calls == old(d.calls) + ConnectAttempts(old(d.failedConnectCount), n)
    ensures unchanged(d`state, d`appId, d`appName, d`source, d`sourceList, d`isVolumeMuted, d`hdmiInput,
        d`adbResponse, d`appIdToName, d`appNameToId, d`getSources, d`excludeUnnamedApps, d`screencap)
  {
    var i := 0;
    while i < n
      invariant 0 <= i <= n
      invariant !d.available
      invariant d.failedConnectCount == old(d.failedConnectCount) + i
      invariant d.calls == old(d.calls) + ConnectAttempts(old(d.failedConnectCount), i)
      invariant unchanged(d`state, d`appId, d`appName, d`source, d`sourceList, d`isVolumeMuted, d`hdmiInput,
          d`adbResponse, d`appIdToName, d`appNameToId, d`getSources, d`excludeUnnamedApps, d`screencap)
    {
      var _ := d.Update(Ok(false), report);
      assert ConnectAttempts(old(d.failedConnectCount), i + 1)
          == ConnectAttempts(old(d.failedConnectCount), i) + [Connect(old(d.failedConnectCount) + i == 0)];
      i := i + 1;
    }
  }

  /** A link that comes back and drops again: the next run of failures logs
      its first attempt again, because success reset the count. */
  method ReconnectThenDrop(d: AdbDevice, t: Report, e: AdbError)
    requires !d.available
    modifies d
    ensures d.failedConnectCount == 1
    ensures d.calls == old(d.calls) + [Connect(old(d.failedConnectCount) == 0), FetchUpdate(d.getSources), Close, Connect(true)]
  {
    var _ := d.Update(Ok(true), Raised(Adb(e)));
    var _ := d.Update(Ok(false), Ok(t));
  }
}
