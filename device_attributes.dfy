/**
 * The default device attributes that the push module reports for a device:
 * a snapshot built from the SDK configuration, the platform's device
 * information, the stored debugger UID and the answer of the platform's
 * push-subscription query.
 */
module DeviceAttributes {

  datatype Option<+T> = None | Some(value: T)

  /** The part of the SDK configuration the provider reads. */
  datatype SdkConfig = SdkConfig(autoTrackDeviceAttributes: bool)

  /** The synchronous accessors of the platform's device information. */
  datatype DeviceInfo = DeviceInfo(
    sdkVersion: string,
    customerAppVersion: string,
    deviceLocale: string,
    deviceManufacturer: string,
    deviceModel: Option<string>,
    osVersion: Option<string>
  )

  /** The globally stored values the provider reads. */
  datatype GlobalDataStore = GlobalDataStore(debuggerUID: Option<string>)

  // Attribute names, as the provider stores them (source lines 27-40).
  const SdkVersionKey: string := "cio_sdk_version"
  const AppVersionKey: string := "app_version"
  const DeviceLocaleKey: string := "device_locale"
  const DeviceManufacturerKey: string := "device_manufacturer"
  const DebuggerUidKey: string := "_cio_debugger_uid"
  const DeviceModelKey: string := "device_model"
  const DeviceOsKey: string := "device_os"
  const PushEnabledKey: string := "push_enabled"

  /** Swift's `String(Bool)`: the boolean's literal spelling. */
  function BoolString(b: bool): (s: string)
    ensures s == "true" || s == "false"
    ensures ParseBool(s) == Some(b)
  {
    if b then "true" else "false"
  }

  /** The inverse of BoolString: reads a boolean back from its spelling. */
  function ParseBool(s: string): (r: Option<bool>)
  {
    if s == "true" then Some(true)
    else if s == "false" then Some(false)
    else None
  }

  /** The five attributes present whenever collection is enabled. */
  function RequiredKeys(): (keys: set<string>)
    ensures PushEnabledKey !in keys && DeviceModelKey !in keys && DeviceOsKey !in keys
  {
    {SdkVersionKey, AppVersionKey, DeviceLocaleKey, DeviceManufacturerKey, DebuggerUidKey}
  }

  /** The optional attributes that apply to a device: those the platform has a value for. */
  function OptionalKeys(info: DeviceInfo): (keys: set<string>)
    ensures DeviceModelKey in keys <==> info.deviceModel.Some?
    ensures DeviceOsKey in keys <==> info.osVersion.Some?
    ensures keys <= {DeviceModelKey, DeviceOsKey}
  {
    (if info.deviceModel.Some? then {DeviceModelKey} else {}) +
    (if info.osVersion.Some? then {DeviceOsKey} else {})
  }

  /** The attribute names of a snapshot: none when collection is disabled. */
  function SnapshotKeys(config: SdkConfig, info: DeviceInfo): (keys: set<string>)
    ensures !config.autoTrackDeviceAttributes ==> keys == {}
    ensures config.autoTrackDeviceAttributes ==> RequiredKeys() <= keys
    ensures config.autoTrackDeviceAttributes <==> PushEnabledKey in keys
  {
    if config.autoTrackDeviceAttributes
    then RequiredKeys() + OptionalKeys(info) + {PushEnabledKey}
    else {}
  }

  /** The five required attributes hold the values they are taken from. */
  ghost predicate HoldsRequired(info: DeviceInfo, uid: string, m: map<string, string>)
  {
    && RequiredKeys() <= m.Keys
    && m[SdkVersionKey] == info.sdkVersion
    && m[AppVersionKey] == info.customerAppVersion
    && m[DeviceLocaleKey] == info.deviceLocale
    && m[DeviceManufacturerKey] == info.deviceManufacturer
    && m[DebuggerUidKey] == uid
  }

  /**
   * The snapshot the provider delivers, stated attribute by attribute: the
   * attribute names are SnapshotKeys, and each attribute holds the value it
   * is taken from.
   */
  ghost predicate IsDefaultSnapshot(
    config: SdkConfig, info: DeviceInfo, store: GlobalDataStore, isSubscribed: bool,
    m: map<string, string>)
  {
    && m.Keys == SnapshotKeys(config, info)
    && (config.autoTrackDeviceAttributes ==>
          && store.debuggerUID.Some?
          && HoldsRequired(info, store.debuggerUID.value, m)
          && (info.deviceModel.Some? ==> m[DeviceModelKey] == info.deviceModel.value)
          && (info.osVersion.Some? ==> m[DeviceOsKey] == info.osVersion.value)
          && m[PushEnabledKey] == BoolString(isSubscribed))
  }

  /**
   * The dictionary gathered on the enabled path before the push-subscription
   * query answers: every attribute of the snapshot except push_enabled.
   */
  ghost predicate IsGathered(info: DeviceInfo, store: GlobalDataStore, m: map<string, string>)
  {
    && m.Keys == RequiredKeys() + OptionalKeys(info)
    && store.debuggerUID.Some?
    && HoldsRequired(info, store.debuggerUID.value, m)
    && (info.deviceModel.Some? ==> m[DeviceModelKey] == info.deviceModel.value)
    && (info.osVersion.Some? ==> m[DeviceOsKey] == info.osVersion.value)
  }

  /** Storing the push answer in the gathered dictionary completes the snapshot. */
  lemma AnswerCompletes(
    config: SdkConfig, info: DeviceInfo, store: GlobalDataStore, isSubscribed: bool,
    m: map<string, string>)
    requires config.autoTrackDeviceAttributes
    requires IsGathered(info, store, m)
    ensures IsDefaultSnapshot(config, info, store, isSubscribed, m[PushEnabledKey := BoolString(isSubscribed)])
  {
  }

  /**
   * The synchronous part of getDefaultDeviceAttributes on the enabled path:
   * the five required attributes, then each optional attribute the platform
   * has a value for.
   */
  method GatherDeviceAttributes(deviceInfo: DeviceInfo, globalDataStore: GlobalDataStore)
    returns (deviceAttributes: map<string, string>)
    requires globalDataStore.debuggerUID.Some?
    ensures IsGathered(deviceInfo, globalDataStore, deviceAttributes)
  {
    deviceAttributes := map[
      SdkVersionKey := deviceInfo.sdkVersion,
      AppVersionKey := deviceInfo.customerAppVersion,
      DeviceLocaleKey := deviceInfo.deviceLocale,
      DeviceManufacturerKey := deviceInfo.deviceManufacturer,
      DebuggerUidKey := globalDataStore.debuggerUID.value
    ];
    if deviceInfo.deviceModel.Some? {
      deviceAttributes := deviceAttributes[DeviceModelKey := deviceInfo.deviceModel.value];
    }
    if deviceInfo.osVersion.Some? {
      deviceAttributes := deviceAttributes[DeviceOsKey := deviceInfo.osVersion.value];
    }
  }

  /**
   * getDefaultDeviceAttributes. The platform's push-subscription query
   * answers through a callback; `answers` lists the answers it calls back
   * with, in order (normally exactly one). Each callback stores its answer in
   * the captured dictionary and hands the dictionary to the completion, so
   * the result `delivered` lists every dictionary the completion receives.
   * The ghost `pushQueries` counts the push-subscription queries issued.
   */
  method GetDefaultDeviceAttributes(
    config: SdkConfig, deviceInfo: DeviceInfo, globalDataStore: GlobalDataStore, answers: seq<bool>)
    returns (delivered: seq<map<string, string>>, ghost pushQueries: nat)
    requires config.autoTrackDeviceAttributes ==> globalDataStore.debuggerUID.Some?
    ensures pushQueries == if config.autoTrackDeviceAttributes then 1 else 0
    ensures !config.autoTrackDeviceAttributes ==> delivered == [map[]]
    ensures config.autoTrackDeviceAttributes ==> |delivered| == |answers|
    ensures config.autoTrackDeviceAttributes ==>
      forall i | 0 <= i < |delivered| ::
        IsDefaultSnapshot(config, deviceInfo, globalDataStore, answers[i], delivered[i])
  {
    pushQueries, delivered := 0, [];
    if !config.autoTrackDeviceAttributes {
      delivered := delivered + [map[]];
      return;
    }

    var deviceAttributes := GatherDeviceAttributes(deviceInfo, globalDataStore);

    // The push-subscription query; each of its callbacks completes the snapshot.
    pushQueries := pushQueries + 1;
    ghost var gathered := deviceAttributes;
    for i := 0 to |answers|
      invariant |delivered| == i
      invariant i == 0 ==> deviceAttributes == gathered
      invariant i > 0 ==> deviceAttributes == gathered[PushEnabledKey := BoolString(answers[i - 1])]
      invariant forall j | 0 <= j < i ::
        IsDefaultSnapshot(config, deviceInfo, globalDataStore, answers[j], delivered[j])
    {
      deviceAttributes := deviceAttributes[PushEnabledKey := BoolString(answers[i])];
      assert deviceAttributes == gathered[PushEnabledKey := BoolString(answers[i])];
      AnswerCompletes(config, deviceInfo, globalDataStore, answers[i], gathered);
      delivered := delivered + [deviceAttributes];
    }
  }

  /** What a snapshot holds, attribute by attribute. */
  lemma SnapshotAttributes(
    config: SdkConfig, info: DeviceInfo, store: GlobalDataStore, isSubscribed: bool,
    m: map<string, string>)
    requires IsDefaultSnapshot(config, info, store, isSubscribed, m)
    ensures !config.autoTrackDeviceAttributes ==> m == map[]
    ensures config.autoTrackDeviceAttributes ==>
      && SdkVersionKey in m && m[SdkVersionKey] == info.sdkVersion
      && AppVersionKey in m && m[AppVersionKey] == info.customerAppVersion
      && DeviceLocaleKey in m && m[DeviceLocaleKey] == info.deviceLocale
      && DeviceManufacturerKey in m && m[DeviceManufacturerKey] == info.deviceManufacturer
      && DebuggerUidKey in m && store.debuggerUID == Some(m[DebuggerUidKey])
    ensures DeviceModelKey in m <==> config.autoTrackDeviceAttributes && info.deviceModel.Some?
    ensures DeviceModelKey in m ==> m[DeviceModelKey] == info.deviceModel.value
    ensures DeviceOsKey in m <==> config.autoTrackDeviceAttributes && info.osVersion.Some?
    ensures DeviceOsKey in m ==> m[DeviceOsKey] == info.osVersion.value
    ensures PushEnabledKey in m <==> config.autoTrackDeviceAttributes
    ensures PushEnabledKey in m ==> m[PushEnabledKey] == BoolString(isSubscribed)
    ensures forall k | k in m :: k in RequiredKeys() || k == DeviceModelKey || k == DeviceOsKey || k == PushEnabledKey
  {
  }

  /** The inputs determine the snapshot: two snapshots of the same inputs are equal. */
  lemma SnapshotUnique(
    config: SdkConfig, info: DeviceInfo, store: GlobalDataStore, isSubscribed: bool,
    m1: map<string, string>, m2: map<string, string>)
    requires IsDefaultSnapshot(config, info, store, isSubscribed, m1)
    requires IsDefaultSnapshot(config, info, store, isSubscribed, m2)
    ensures m1 == m2
  {
  }

  /** The size of a snapshot: six attributes plus the optional ones that apply, or none when disabled. */
  lemma SnapshotSize(
    config: SdkConfig, info: DeviceInfo, store: GlobalDataStore, isSubscribed: bool,
    m: map<string, string>)
    requires IsDefaultSnapshot(config, info, store, isSubscribed, m)
    ensures |m| == if config.autoTrackDeviceAttributes
                   then 6 + (if info.deviceModel.Some? then 1 else 0) + (if info.osVersion.Some? then 1 else 0)
                   else 0
  {
  }

  /** push_enabled reads back as the answer of the push-subscription query. */
  lemma PushEnabledRoundTrip(
    config: SdkConfig, info: DeviceInfo, store: GlobalDataStore, isSubscribed: bool,
    m: map<string, string>)
    requires IsDefaultSnapshot(config, info, store, isSubscribed, m)
    ensures PushEnabledKey in m ==> ParseBool(m[PushEnabledKey]) == Some(isSubscribed)
  {
  }
}
