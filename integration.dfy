/** The integration's entry points outside the entity: choosing the MAC
    address that identifies a device, the outcome of connecting, migrating
    legacy option keys, deciding between a reload and a hot update when the
    options change, and unloading an entry. The per-entry store of the
    integration (`hass.data[DOMAIN]`) is a class whose methods update it. */
module Integration {
  import opened Values
  import opened Const

  /** The one formatted MAC the integration refuses as an identity. */
  const InvalidMac: string := "ff:ff:ff:ff:ff:ff"

  /** The device properties tried for a MAC, in order of preference. */
  const MacProperties: seq<string> := [PropEthMac, PropWifiMac]

  /** The options whose change needs the entry to be reloaded. */
  const ReloadOptions: seq<string> := [ConfStateDetectionRules]

  // ---------------------------------------------------------------- MAC

  /** A device property that yields an identity: present and truthy, and not
      formatted (by the host's `format_mac`, a parameter here) to the invalid MAC. */
  predicate UsableMac(props: Dictionary, key: string, formatMac: Value -> string)
  {
    Truthy(Get(props, key)) && formatMac(Get(props, key)) != InvalidMac
  }

  /** The formatted MAC of the first usable property among `keys`. */
  function FirstMac(keys: seq<string>, props: Dictionary, formatMac: Value -> string): (r: Option<string>)
    ensures r.None? <==> forall i :: 0 <= i < |keys| ==> !UsableMac(props, keys[i], formatMac)
    ensures r.Some? ==> exists i :: (0 <= i < |keys| && UsableMac(props, keys[i], formatMac)
      && r.value == formatMac(Get(props, keys[i]))
      && forall j :: 0 <= j < i ==> !UsableMac(props, keys[j], formatMac))
  {
    if keys == [] then None
    else if UsableMac(props, keys[0], formatMac) then Some(formatMac(Get(props, keys[0])))
    else
      var r := FirstMac(keys[1..], props, formatMac);
      assert forall i :: 1 <= i < |keys| ==> keys[1..][i - 1] == keys[i];
      r
  }

  /** `get_androidtv_mac`: the Ethernet MAC when usable, else the WiFi MAC
      when usable, else none; never the invalid MAC. */
  function AndroidTvMac(props: Dictionary, formatMac: Value -> string): (r: Option<string>)
    ensures UsableMac(props, PropEthMac, formatMac) ==> r == Some(formatMac(Get(props, PropEthMac)))
    ensures !UsableMac(props, PropEthMac, formatMac) && UsableMac(props, PropWifiMac, formatMac) ==>
      r == Some(formatMac(Get(props, PropWifiMac)))
    ensures r.None? <==> !UsableMac(props, PropEthMac, formatMac) && !UsableMac(props, PropWifiMac, formatMac)
    ensures r.Some? ==> r.value != InvalidMac
  {
    var r := FirstMac(MacProperties, props, formatMac);
    assert MacProperties[0] == PropEthMac && MacProperties[1] == PropWifiMac;
    r
  }

  // ---------------------------------------------------------- connecting

  /** The device named in the connection error, by device class. */
  function DeviceName(deviceClass: Value): (r: string)
    ensures r == "Android TV device" <==> deviceClass == Str(DeviceAndroidTv)
    ensures r == "Fire TV device" <==> deviceClass == Str(DeviceFireTv)
    ensures r == "Android TV / Fire TV device" <==>
      deviceClass != Str(DeviceAndroidTv) && deviceClass != Str(DeviceFireTv)
  {
    if deviceClass == Str(DeviceAndroidTv) then "Android TV device"
    else if deviceClass == Str(DeviceFireTv) then "Fire TV device"
    else "Android TV / Fire TV device"
  }

  /** What connecting returns: the device, or no device and a message. */
  datatype Connection<D> = Connection(device: Option<D>, error: Option<string>)

  /** The result of `async_connect_androidtv` once the library has set the
      device up: the device itself when it is available, otherwise a message
      naming the device class, the address and how ADB was reached. */
  function ConnectResult<D>(device: D, available: bool, deviceClass: Value, address: string, adbLog: string)
    : (r: Connection<D>)
    ensures r.device.Some? <==> available
    ensures r.device.Some? ==> r.device.value == device && r.error.None?
    ensures r.device.None? ==>
      r.error == Some("Could not connect to " + DeviceName(deviceClass) + " at " + address + " " + adbLog)
  {
    if available then Connection(Some(device), None)
    else Connection(None, Some("Could not connect to " + DeviceName(deviceClass) + " at " + address + " " + adbLog))
  }

  // ----------------------------------------------------------- migration

  /** Whether an options dictionary still holds a legacy command key. */
  predicate HasLegacyKeys(options: Dictionary)
  {
    ConfTurnOffCommand in options || ConfTurnOnCommand in options
  }

  /** `_migrate_options_key`: with no legacy key there is nothing to update;
      otherwise the legacy turn-off / turn-on commands move under their new
      names into a fresh custom-commands table (replacing any earlier one),
      the legacy keys go, and every other option is kept. */
  method MigrateOptionsKey(options: Dictionary) returns (updated: Option<Dictionary>)
    ensures updated.None? <==> !HasLegacyKeys(options)
    ensures updated.Some? ==>
      var u := updated.value;
      && u.Keys == options.Keys - {ConfTurnOffCommand, ConfTurnOnCommand} + {ConfCustomCommands}
      && !HasLegacyKeys(u)
      && (forall k :: k in options && k != ConfTurnOffCommand && k != ConfTurnOnCommand && k != ConfCustomCommands
            ==> u[k] == options[k])
      && u[ConfCustomCommands].Dict?
      && var c := u[ConfCustomCommands].entries;
         && (forall k :: k in c ==> k == CustomTurnOff || k == CustomTurnOn)
         && (CustomTurnOff in c <==> ConfTurnOffCommand in options)
         && (CustomTurnOn in c <==> ConfTurnOnCommand in options)
         && (ConfTurnOffCommand in options ==> c[CustomTurnOff] == options[ConfTurnOffCommand])
         && (ConfTurnOnCommand in options ==> c[CustomTurnOn] == options[ConfTurnOnCommand])
  {
    var renames := [(ConfTurnOffCommand, CustomTurnOff), (ConfTurnOnCommand, CustomTurnOn)];
    var commands: Dictionary := map[];
    for i := 0 to |renames|
      invariant forall k :: k in commands ==> exists j :: 0 <= j < i && renames[j].1 == k
      invariant forall j :: 0 <= j < i ==>
        (renames[j].1 in commands <==> renames[j].0 in options)
        && (renames[j].0 in options ==> commands[renames[j].1] == options[renames[j].0])
    {
      var (oldKey, newKey) := renames[i];
      if oldKey in options {
        commands := commands[newKey := options[oldKey]];
      }
    }
    assert renames[0] == (ConfTurnOffCommand, CustomTurnOff) && renames[1] == (ConfTurnOnCommand, CustomTurnOn);
    assert CustomTurnOff in commands <==> ConfTurnOffCommand in options;
    assert CustomTurnOn in commands <==> ConfTurnOnCommand in options;
    if commands == map[] {
      return None;
    }
    var newOptions := map k | k in options && k != ConfTurnOffCommand && k != ConfTurnOnCommand :: options[k];
    newOptions := newOptions[ConfCustomCommands := Dict(commands)];
    return Some(newOptions);
  }

  /** Migrating is idempotent: options that were migrated once need no
      second update. */
  method MigrateTwice(options: Dictionary) returns (first: Option<Dictionary>, second: Option<Dictionary>)
    ensures first.Some? <==> HasLegacyKeys(options)
    ensures second.None?
  {
    first := MigrateOptionsKey(options);
    second := MigrateOptionsKey(if first.Some? then first.value else options);
  }

  // ------------------------------------------------------ options update

  /** A new option forces a reload when it is one of the reload options and
      its old value is missing, `None`, or different. */
  predicate ForcesReload(oldOptions: Dictionary, newOptions: Dictionary, k: string)
  {
    k in newOptions && k in ReloadOptions && (Get(oldOptions, k) == Null || Get(oldOptions, k) != newOptions[k])
  }

  /** The loop of `update_listener` over the new options, stopping at the
      first option that forces a reload. Python dictionary order is left
      open: the answer does not depend on it. */
  method OptionsRequireReload(oldOptions: Dictionary, newOptions: Dictionary) returns (reload: bool)
    ensures reload <==> exists k :: ForcesReload(oldOptions, newOptions, k)
  {
    reload := false;
    var pending := newOptions.Keys;
    while pending != {}
      invariant pending <= newOptions.Keys
      invariant !reload
      invariant forall k :: k in newOptions && k !in pending ==> !ForcesReload(oldOptions, newOptions, k)
      decreases pending
    {
      var k :| k in pending;
      if k in ReloadOptions {
        var oldValue := Get(oldOptions, k);
        if oldValue == Null || oldValue != newOptions[k] {
          reload := true;
          assert ForcesReload(oldOptions, newOptions, k);
          break;
        }
      }
      pending := pending - {k};
    }
  }

  /** Only the state-detection rules decide: options that keep the same,
      non-`None` rules (or set none) never force a reload, whatever else changes. */
  lemma OnlyRulesForceReload(oldOptions: Dictionary, newOptions: Dictionary)
    requires ConfStateDetectionRules in newOptions ==>
      ConfStateDetectionRules in oldOptions && oldOptions[ConfStateDetectionRules] != Null
      && oldOptions[ConfStateDetectionRules] == newOptions[ConfStateDetectionRules]
    ensures !exists k :: ForcesReload(oldOptions, newOptions, k)
  {
  }

  /** Changing the rules always forces a reload. */
  lemma ChangedRulesForceReload(oldOptions: Dictionary, newOptions: Dictionary)
    requires ConfStateDetectionRules in newOptions
    requires Get(oldOptions, ConfStateDetectionRules) != newOptions[ConfStateDetectionRules]
    ensures exists k :: ForcesReload(oldOptions, newOptions, k)
  {
    assert ForcesReload(oldOptions, newOptions, ConfStateDetectionRules);
  }

  // --------------------------------------------------------- entry store

  /** What the integration keeps per config entry: the device (by a handle)
      and a copy of the options it was set up or last updated with. */
  datatype EntryData = EntryData(device: nat, options: Dictionary)

  /** The integration's data in the hub, keyed by config-entry ID, with the
      side effects on the hub recorded in order. */
  class DomainStore {
    var entries: map<string, EntryData>
    /** Devices whose ADB session was closed. */
    var closed: seq<nat>
    /** Entries for which the configuration signal was sent to the entity. */
    var signalled: seq<string>
    /** Entries the hub was asked to reload. */
    var reloaded: seq<string>

    constructor ()
      ensures entries == map[] && closed == [] && signalled == [] && reloaded == []
    {
      entries, closed, signalled, reloaded := map[], [], [], [];
    }

    /** `update_listener`: reload the entry when the state-detection rules
        changed; otherwise take a copy of the new options and signal the
        entity. A reload leaves the stored copy alone. */
    method UpdateListener(entryId: string, newOptions: Dictionary) returns (reload: bool)
      requires entryId in entries
      modifies this
      ensures reload <==> exists k :: ForcesReload(old(entries)[entryId].options, newOptions, k)
      ensures closed == old(closed)
      ensures reload ==>
        entries == old(entries) && reloaded == old(reloaded) + [entryId] && signalled == old(signalled)
      ensures !reload ==>
        && entries == old(entries)[entryId := old(entries)[entryId].(options := newOptions)]
        && signalled == old(signalled) + [entryId] && reloaded == old(reloaded)
    {
      reload := OptionsRequireReload(entries[entryId].options, newOptions);
      if reload {
        reloaded := reloaded + [entryId];
        return;
      }
      entries := entries[entryId := entries[entryId].(options := newOptions)];
      signalled := signalled + [entryId];
    }

    /** `async_unload_entry`: only when the hub unloaded the platforms is the
        device's session closed and the entry's data dropped. */
    method UnloadEntry(entryId: string, platformsUnloaded: bool) returns (ok: bool)
      requires platformsUnloaded ==> entryId in entries
      modifies this
      ensures ok == platformsUnloaded
      ensures signalled == old(signalled) && reloaded == old(reloaded)
      ensures ok ==> entries == old(entries) - {entryId} && closed == old(closed) + [old(entries)[entryId].device]
      ensures !ok ==> entries == old(entries) && closed == old(closed)
    {
      ok := platformsUnloaded;
      if ok {
        closed := closed + [entries[entryId].device];
        entries := entries - {entryId};
      }
    }
  }

  /** An update that repeats the stored options with unchanged rules is a hot
      update, and a second one is again a hot update: the copy it stores
      never makes the next listener call reload. */
  method RepeatedHotUpdate(store: DomainStore, entryId: string, newOptions: Dictionary)
    returns (first: bool, second: bool)
    requires entryId in store.entries
    requires ConfStateDetectionRules in newOptions ==>
      Get(store.entries[entryId].options, ConfStateDetectionRules) == newOptions[ConfStateDetectionRules] != Null
    modifies store
    ensures !first && !second
    ensures store.entries == old(store.entries)[entryId := old(store.entries)[entryId].(options := newOptions)]
    ensures store.signalled == old(store.signalled) + [entryId, entryId]
  {
    OnlyRulesForceReload(store.entries[entryId].options, newOptions);
    first := store.UpdateListener(entryId, newOptions);
    OnlyRulesForceReload(store.entries[entryId].options, newOptions);
    second := store.UpdateListener(entryId, newOptions);
  }
}
