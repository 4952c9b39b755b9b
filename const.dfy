/** The option, configuration and device-property keys the integration
    shares between its files, and the defaults it falls back on. The
    integration's constants file is not part of this model: the strings
    below follow the constants' names, and every proof relies only on their
    being distinct. */
module Const {
  import opened Values

  // Keys of the configuration data (the setup form).
  const ConfHost: string := "host"
  const ConfAdbKey: string := "adbkey"
  const ConfAdbServerIp: string := "adb_server_ip"
  const ConfAdbServerPort: string := "adb_server_port"

  // Keys of the options.
  const ConfApps: string := "apps"
  const ConfCustomCommands: string := "custom_commands"
  const ConfStateDetectionRules: string := "state_detection_rules"
  const ConfGetSources: string := "get_sources"
  const ConfExcludeUnnamedApps: string := "exclude_unnamed_apps"
  const ConfScreencap: string := "screencap"
  const ConfTurnOffCommand: string := "turn_off_command"
  const ConfTurnOnCommand: string := "turn_on_command"

  const DefaultGetSources: Value := Bool(true)
  const DefaultExcludeUnnamedApps: Value := Bool(false)
  const DefaultScreencap: Value := Bool(true)

  // Device classes.
  const DeviceAndroidTv: string := "androidtv"
  const DeviceFireTv: string := "firetv"

  // Device properties that carry the network interfaces' MAC addresses.
  const PropEthMac: string := "ethmac"
  const PropWifiMac: string := "wifimac"

  // Names of the customizable commands of the Android TV library.
  const CustomTurnOff: string := "turn_off"
  const CustomTurnOn: string := "turn_on"
}
