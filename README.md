# Default device attributes of the push module

This project models `SdkDeviceAttributesProvider.getDefaultDeviceAttributes`
of the push-messaging module. The operation builds the device attributes the
SDK reports for a device. These are a dictionary from attribute name to
string value.

- When the SDK configuration turns `autoTrackDeviceAttributes` off, the
  completion gets the empty dictionary at once. The push-subscription query is
  never made.
- Otherwise the dictionary holds five required attributes:
  `cio_sdk_version`, `app_version`, `device_locale`, `device_manufacturer` and
  `_cio_debugger_uid`.
- It holds `device_model` and `device_os` only when the platform has a value
  for them.
- It then issues the platform's push-subscription query. When the query
  calls back, the answer is stored under `push_enabled` as `"true"` or
  `"false"`, and only then is the dictionary handed to the completion. The
  completion runs once for each callback of the query. A query that calls
  back exactly once gives exactly one completion.

Everything is in `device_attributes.dfy`, module `DeviceAttributes`:

- The provider's three collaborators (lines 10-18 of the source) become
  value datatypes: `SdkConfig`, `DeviceInfo` and `GlobalDataStore`. The
  configuration flag is read once. On the enabled path each device-info
  accessor and the debugger UID are read once.
- The asynchronous push-subscription query becomes the parameter `answers`:
  the answers its callback is invoked with, in order.
- The completion becomes the result `delivered`: every dictionary handed to
  the completion, in order. A ghost output, `pushQueries`, counts the
  push-subscription queries issued.
- `GatherDeviceAttributes` is the synchronous part of the enabled path
  (lines 26-38). `GetDefaultDeviceAttributes` runs one loop step per callback
  of the query (lines 39-43). Each step updates the captured dictionary and
  delivers it.
- `IsDefaultSnapshot` states the expected result attribute by attribute. It
  is the specification the imperative method is proved against.
- The lemmas derive from it the result's key set, its size and the
  read-back of `push_enabled`. They also show that it fixes the map uniquely.
- An empty model or OS string is still reported: the code checks only for
  nil (lines 33-38).
- A nil debugger UID aborts at the force-unwrap (line 31). So
  `GetDefaultDeviceAttributes` requires a present UID on the enabled path.

## Model

| member | source | states |
|---|---|---|
| `DeviceAttributes.GetDefaultDeviceAttributes` | Sources/MessagingPush/util/DeviceAttributesProvider.swift:20-44 | Flag off: no push query, and the completion receives the empty dictionary exactly once. Flag on: one push query, and the completion receives one dictionary per callback of the query. The i-th satisfies `IsDefaultSnapshot` for the i-th answer. On the enabled path a present debugger UID is required (the force-unwrap). |
| `DeviceAttributes.GatherDeviceAttributes` | Sources/MessagingPush/util/DeviceAttributesProvider.swift:26-38 | The dictionary gathered before the query answers: the five required attributes with their values, plus `device_model` / `device_os` exactly when the platform has them, and no `push_enabled`. |
| `DeviceAttributes.AnswerCompletes` | Sources/MessagingPush/util/DeviceAttributesProvider.swift:39-40 | Storing a push answer in the gathered dictionary gives the snapshot for that answer. |
| `DeviceAttributes.SnapshotAttributes` | Sources/MessagingPush/util/DeviceAttributesProvider.swift:21-42 | Disabled gives the empty map. Enabled gives the five required keys, each with the value it came from. `device_model` / `device_os` are present iff enabled and the platform value is non-nil, and then hold it. `push_enabled` is present iff enabled and holds the spelling of the push answer. No other key appears. |
| `DeviceAttributes.RequiredKeys` | Sources/MessagingPush/util/DeviceAttributesProvider.swift:26-32 | The five required names, disjoint from `device_model`, `device_os` and `push_enabled`. |
| `DeviceAttributes.OptionalKeys` | Sources/MessagingPush/util/DeviceAttributesProvider.swift:33-38 | `device_model` is included iff the device model is non-nil, and `device_os` iff the OS version is non-nil. Nothing else is included. |
| `DeviceAttributes.SnapshotKeys` | Sources/MessagingPush/util/DeviceAttributesProvider.swift:21-42 | Empty when the flag is off. When on, it contains the required names. `push_enabled` is in it iff the flag is on. |
| `DeviceAttributes.BoolString` | Sources/MessagingPush/util/DeviceAttributesProvider.swift:40 | Swift's `String(Bool)`: the result is `"true"` or `"false"` and reads back as the boolean it came from. |
| `DeviceAttributes.PushEnabledRoundTrip` | Sources/MessagingPush/util/DeviceAttributesProvider.swift:39-40 | The stored `push_enabled` reads back as the push-subscription answer. |
| `DeviceAttributes.SnapshotSize` | Sources/MessagingPush/util/DeviceAttributesProvider.swift:21-42 | A snapshot has 0 entries when disabled. When enabled it has 6, plus 1 for each of model and OS version that is present. |
| `DeviceAttributes.SnapshotUnique` | Sources/MessagingPush/util/DeviceAttributesProvider.swift:20-44 | The inputs determine the snapshot: two maps that both satisfy the specification for the same inputs are equal. |

## Left out

- The `MessagingInApp` relay and its tests (`Tests/MessagingInApp/MessagingInAppTest.swift`): the relay's own source, the message projection and the vendor in-app SDK are not part of this model, and the test only checks forwarding to mocks.
- The dependency-injection registration (`InjectRegister`) and the `AutoMockable` mock generation: construction plumbing with no behaviour of its own.
- The platform implementation of the device information: the locale, the manufacturer and the real asynchronous push-permission query. These are inputs here; the push query's answers are the parameter `answers` of `GetDefaultDeviceAttributes` (`isSubscribed` in `IsDefaultSnapshot` and the lemmas).
- Asynchrony and threading: the escaping completion closure becomes the result sequence `delivered`, and the query's callbacks become the list `answers`. The model says nothing about which thread a callback runs on or when it runs relative to other calls.
- The `[String: Any]` value type: every value the operation stores is a string, so values are modelled as `string`.
- Persistence of the configuration store and the global data store: only the current flag value and the current debugger UID are read.
