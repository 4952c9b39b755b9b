/** The pure parts of the media-player entity: the reported-state table, the
    source list built from the running apps, the app-name tables built from
    the options, and the reading of a selected source. */
module Telemetry {
  import opened Values

  /** The entity states the hub knows a media player by. */
  datatype PlayerState = Off | Idle | Standby | Playing | Paused

  /** The state strings the Android TV / Fire TV library reports, with the
      entity state each becomes. */
  const AndroidTvStates: map<string, PlayerState> :=
    map["off" := Off, "idle" := Idle, "standby" := Standby, "playing" := Playing, "paused" := Paused]

  /** The reported string that stands for an entity state. */
  function ReportedName(p: PlayerState): string
  {
    match p
    case Off => "off"
    case Idle => "idle"
    case Standby => "standby"
    case Playing => "playing"
    case Paused => "paused"
  }

  /** `ANDROIDTV_STATES.get(state)`: no entity state for an unknown or missing report. */
  function EntityState(reported: Option<string>): (r: Option<PlayerState>)
    ensures r.Some? ==> reported == Some(ReportedName(r.value))
    ensures r.None? <==> reported.None? || reported.value !in AndroidTvStates
  {
    if reported.Some? && reported.value in AndroidTvStates then Some(AndroidTvStates[reported.value]) else None
  }

  /** The table is a bijection: a report yields entity state `p` exactly when
      it is the name of `p`, so every other report (or none) yields no state. */
  lemma EntityStateExactly(reported: Option<string>, p: PlayerState)
    ensures EntityState(reported) == Some(p) <==> reported == Some(ReportedName(p))
  {
  }

  /** What the source list shows for one running app: its configured name,
      else its raw ID unless unnamed apps are excluded. The empty string
      stands for an entry the list drops (an empty name, an empty ID, or an
      excluded unnamed app). */
  function DisplayName(appId: string, idToName: map<string, string>, excludeUnnamed: bool): (r: string)
    ensures appId in idToName ==> r == idToName[appId]
    ensures appId !in idToName ==> (r == "" <==> excludeUnnamed || appId == "")
    ensures appId !in idToName && !excludeUnnamed ==> r == appId
    ensures r == "" || r == appId || r in idToName.Values
  {
    if appId in idToName then idToName[appId] else if excludeUnnamed then "" else appId
  }

  /** The non-empty display names of the running apps, in their order. */
  function Sources(running: seq<string>, idToName: map<string, string>, excludeUnnamed: bool): (r: seq<string>)
    ensures |r| <= |running|
    ensures forall i :: 0 <= i < |r| ==> r[i] != ""
  {
    if running == [] then []
    else
      var name := DisplayName(running[0], idToName, excludeUnnamed);
      (if name == "" then [] else [name]) + Sources(running[1..], idToName, excludeUnnamed)
  }

  /** The source list of the entity: none at all when no app is running,
      otherwise the display names of the running apps. */
  function SourceList(running: seq<string>, idToName: map<string, string>, excludeUnnamed: bool): (r: Option<seq<string>>)
    ensures r.None? <==> running == []
    ensures r.Some? ==> r.value == Sources(running, idToName, excludeUnnamed)
    ensures r.Some? ==> forall i :: 0 <= i < |r.value| ==> r.value[i] != ""
  {
    if running == [] then None else Some(Sources(running, idToName, excludeUnnamed))
  }

  /** The list is built app by app: the list of a concatenation is the
      concatenation of the lists, so order is preserved. */
  lemma {:induction false} SourcesAppend(a: seq<string>, b: seq<string>, idToName: map<string, string>, excludeUnnamed: bool)
    ensures Sources(a + b, idToName, excludeUnnamed) == Sources(a, idToName, excludeUnnamed) + Sources(b, idToName, excludeUnnamed)
  {
    if a == [] {
      assert a + b == b;
    } else {
      assert (a + b)[0] == a[0];
      assert (a + b)[1..] == a[1..] + b;
      SourcesAppend(a[1..], b, idToName, excludeUnnamed);
    }
  }

  /** A name is listed exactly when it is the non-empty display name of some running app. */
  lemma {:induction false} SourcesMembership(running: seq<string>, idToName: map<string, string>, excludeUnnamed: bool, x: string)
    ensures x in Sources(running, idToName, excludeUnnamed) <==>
      x != "" && exists i :: 0 <= i < |running| && DisplayName(running[i], idToName, excludeUnnamed) == x
  {
    if running != [] {
      SourcesMembership(running[1..], idToName, excludeUnnamed, x);
      if x != "" && DisplayName(running[0], idToName, excludeUnnamed) != x {
        if exists i :: 0 <= i < |running| && DisplayName(running[i], idToName, excludeUnnamed) == x {
          var i :| 0 <= i < |running| && DisplayName(running[i], idToName, excludeUnnamed) == x;
          assert running[1..][i - 1] == running[i];
        }
      }
    }
  }

  /** With unnamed apps kept and no app configured, the list is the running
      app IDs themselves (empty IDs aside, of which there are none here). */
  lemma {:induction false} SourcesOfUnnamedApps(running: seq<string>, idToName: map<string, string>)
    requires forall i :: 0 <= i < |running| ==> running[i] !in idToName && running[i] != ""
    ensures Sources(running, idToName, false) == running
  {
    if running != [] {
      SourcesOfUnnamedApps(running[1..], idToName);
    }
  }

  /** Excluding unnamed apps drops exactly them: an app that is not configured never shows. */
  lemma {:induction false} ExcludedAppsNeverShow(running: seq<string>, idToName: map<string, string>, x: string)
    requires x in Sources(running, idToName, true)
    ensures exists i :: 0 <= i < |running| && running[i] in idToName && idToName[running[i]] == x
  {
    SourcesMembership(running, idToName, true, x);
    var i :| 0 <= i < |running| && DisplayName(running[i], idToName, true) == x;
    assert running[i] in idToName;
  }

  /** The current source: the current app's configured name, else its ID. */
  function CurrentSource(appId: Option<string>, idToName: map<string, string>): (r: Option<string>)
    ensures r.None? <==> appId.None?
    ensures appId.Some? && appId.value !in idToName ==> r == appId
    ensures appId.Some? && appId.value in idToName ==> r == Some(idToName[appId.value])
  {
    match appId
    case None => None
    case Some(a) => Some(if a in idToName then idToName[a] else a)
  }

  /** The name and ID tables agree: every name looks up an app that carries it. */
  ghost predicate ConsistentTables(idToName: map<string, string>, nameToId: map<string, string>)
  {
    forall n :: n in nameToId ==> nameToId[n] in idToName && idToName[nameToId[n]] == n
  }

  /** Rebuild the app tables from the built-in table and the user's apps:
      ID to name is the built-in table overridden by the user's entries;
      name to ID holds every non-empty name, and every name the user gave
      resolves to one of the user's apps. Which app a name resolves to when
      several share it depends on dictionary order and is left open. */
  method AppTables(builtin: map<string, string>, apps: map<string, string>)
    returns (idToName: map<string, string>, nameToId: map<string, string>)
    ensures idToName == builtin + apps
    ensures ConsistentTables(idToName, nameToId)
    ensures forall id :: id in idToName && idToName[id] != "" ==> idToName[id] in nameToId
    ensures forall id :: id in apps ==> apps[id] in nameToId && nameToId[apps[id]] in apps
    ensures forall n :: n in nameToId ==> n != "" || n in apps.Values
  {
    idToName := builtin + apps;
    nameToId := map[];
    var pending := idToName.Keys;
    while pending != {}
      invariant pending <= idToName.Keys
      invariant ConsistentTables(idToName, nameToId)
      invariant forall id :: id in idToName && id !in pending && idToName[id] != "" ==> idToName[id] in nameToId
      invariant forall n :: n in nameToId ==> n != ""
      decreases pending
    {
      var id :| id in pending;
      if idToName[id] != "" {
        nameToId := nameToId[idToName[id] := id];
      }
      pending := pending - {id};
    }
    var rest := apps.Keys;
    while rest != {}
      invariant rest <= apps.Keys
      invariant ConsistentTables(idToName, nameToId)
      invariant forall id :: id in idToName && idToName[id] != "" ==> idToName[id] in nameToId
      invariant forall id :: id in apps && id !in rest ==> apps[id] in nameToId && nameToId[apps[id]] in apps
      invariant forall n :: n in nameToId ==> n != "" || n in apps.Values
      decreases rest
    {
      var id :| id in rest;
      nameToId := nameToId[apps[id] := id];
      rest := rest - {id};
    }
  }

  /** `name_to_id.get(name, name)`. */
  function Resolve(name: string, nameToId: map<string, string>): (r: string)
    ensures name in nameToId ==> r == nameToId[name]
    ensures name !in nameToId ==> r == name
    ensures r == name || r in nameToId.Values
  {
    if name in nameToId then nameToId[name] else name
  }

  datatype AppAction = Launch(appId: string) | Stop(appId: string)

  /** What selecting a source asks of the device: a source starting with `!`
      stops the app named after it (leading whitespace removed), any other
      text launches; both resolve the name to an ID. A non-string does nothing. */
  function SourceAction(source: Value, nameToId: map<string, string>): (r: Option<AppAction>)
    ensures r.None? <==> !source.Str?
    ensures r.Some? ==> (r.value.Stop? <==> |source.s| > 0 && source.s[0] == '!')
    ensures source.Str? && !(|source.s| > 0 && source.s[0] == '!') ==>
      r == Some(Launch(Resolve(source.s, nameToId)))
    ensures source.Str? && |source.s| > 0 && source.s[0] == '!' ==>
      r == Some(Stop(Resolve(LStrip(source.s[1..]), nameToId)))
  {
    match source
    case Str(s) =>
      if |s| > 0 && s[0] == '!' then Some(Stop(Resolve(LStrip(s[1..]), nameToId)))
      else Some(Launch(Resolve(s, nameToId)))
    case _ => None
  }

  /** Prefixing a name with `!` (and any whitespace) turns launching that
      app into stopping the very same app. */
  lemma StopMirrorsLaunch(ws: string, name: string, nameToId: map<string, string>)
    requires AllSpace(ws)
    requires name == [] || (!IsSpace(name[0]) && name[0] != '!')
    ensures SourceAction(Str(name), nameToId) == Some(Launch(Resolve(name, nameToId)))
    ensures SourceAction(Str("!" + ws + name), nameToId) == Some(Stop(Resolve(name, nameToId)))
  {
    var s := "!" + ws + name;
    assert s[1..] == ws + name;
    LStripPadding(ws, name);
  }

  /** With tables built by `AppTables`, selecting a listed name launches an
      app that carries that name. */
  lemma SelectingANameLaunchesItsApp(idToName: map<string, string>, nameToId: map<string, string>, name: string)
    requires ConsistentTables(idToName, nameToId)
    requires name in nameToId && (name == [] || name[0] != '!')
    ensures SourceAction(Str(name), nameToId).Some?
    ensures var a := SourceAction(Str(name), nameToId).value;
            a.Launch? && a.appId in idToName && idToName[a.appId] == name
  {
  }
}
