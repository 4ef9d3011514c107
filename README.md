# BluetoothScanner core, modelled in Dafny

BluetoothScanner is a small Bluetooth LE scanner app. Its core is made of three parts:

- **CBTManager**: a registry that maps peripheral identifiers to device objects. It starts and stops scanning and expires devices that are no longer advertised. It also routes the radio stack's callbacks (power state, discovery, connect, fail, disconnect) to the right device.
- **CBTDevice**: one object per peripheral, holding a small connection state machine:
  - connect and disconnect;
  - a periodic signal-strength poll while a connection is wanted;
  - a connect timeout and the "lost device" rule;
  - edge-triggered notifications for state, name and signal-strength changes;
  - the fan-out of service, characteristic and descriptor discovery.
- **rssiBars**: the device card's grading of a signal strength into 0-5 bars.

The model has six modules:

- `Adapter` (adapter.dfy) is the boundary with the platform. The radio stack becomes a `Central`: an environment-controlled power state plus an append-only log of the requests the core issues to it. The notification center becomes an append-only log of `(topic, sender)` notices.
- `Signal` (signal.dfy) grades signal strength into bars.
- `UuidOrder` (uuid_order.dfy) gives the display order of identifiers: lexicographic on the identifier string, with the sort behind `uuids`.
- `DeviceSpec` (device_spec.dfy) is the device as a value, `DeviceData`. Each device operation is a step function returning an `Outcome`: the new data, the requests issued and the notices posted, in order.
- `DeviceModel` (device.dfy) is the device as a class updated in place. Each method that changes the device is proved to perform a `DeviceSpec` step on its own fields and on the two shared logs: `Connect` performs `ConnectStep`, a signal-strength reading performs `RssiStep`, a name update performs `BroadcastStep`, and so on. `Produced(step(old data))` states the whole new state. The other methods state exactly the requests or notices they append.
- `ManagerModel` (manager.dfy) is the registry as a class. It holds a map from identifier to `Device` and flags for "running", "sweep timer scheduled" and "radio stack created". Every callback is proved to drive the devices through their `DeviceSpec` steps and to keep the registry invariant `Valid()`: each entry is keyed by its device's identifier, and the sweep-timer flag is set only while the registry is running.

Times are integer milliseconds. Every read of the wall clock in the code is a parameter (`now` or `clock`).

## Model

| member | source | states |
|---|---|---|
| Signal.RssiBars | Shared/DeviceCard.swift:42-64 | The grade is between 0 and 5. It is 0 exactly when the strength is above 0 dBm or below -90 dBm. |
| Signal.RssiBarsBands | Shared/DeviceCard.swift:45-59 | Each of the five closed bands (-40..0, -67..-41, -70..-68, -80..-71, -90..-81) gets its own number of bars, 5 down to 1. |
| Signal.FloorsReached | Shared/DeviceCard.swift:45-63 | Counting the band floors a value reaches gives at most one per floor. This is an independent reading of the grading. |
| Signal.FloorsReachedMonotone | Shared/DeviceCard.swift:45-63 | A stronger signal reaches at least as many band floors. |
| Signal.RssiBarsCountsFloors | Shared/DeviceCard.swift:45-63 | For values up to 0 dBm, the grade equals the number of band floors (-90, -80, -70, -67, -40) reached. Above 0 it is 0. |
| Signal.RssiBarsMonotone | Shared/DeviceCard.swift:45-59 | On -90..0, a stronger signal never shows fewer bars. |
| UuidOrder.CommonPrefix | Shared/CBTManager.swift:30-31 | The result is the length of the longest common prefix: the strings agree up to it, and there one of them ends or the characters differ. |
| UuidOrder.LessLexicographic | Shared/CBTManager.swift:30-31 | `Less`, the comparison behind `uuidString <` in the sort, holds iff, past the common prefix, `a` ends while `b` goes on or `a` has the smaller character. |
| UuidOrder.LessIrreflexive | Shared/CBTManager.swift:29-33 | No identifier sorts before itself. |
| UuidOrder.LessAsymmetric | Shared/CBTManager.swift:29-33 | Two identifiers are never each before the other. |
| UuidOrder.LessTransitive | Shared/CBTManager.swift:29-33 | The string comparison used for sorting is transitive. |
| UuidOrder.LessTotal | Shared/CBTManager.swift:29-33 | Any two different identifiers are ordered one way or the other. |
| UuidOrder.Insert | Shared/CBTManager.swift:29-33 | Inserting a new key into an ascending list keeps it ascending, grows it by one, and adds exactly that key. |
| UuidOrder.SortKeys | Shared/CBTManager.swift:29-33 | The result is strictly ascending and holds exactly the given keys, each once. |
| UuidOrder.AscendingUnique | Shared/CBTManager.swift:29-33 | Two ascending lists with the same elements are equal, so the sorted view is determined by the key set. |
| DeviceSpec.StateOf | Shared/CBTDevice.swift:89-106 | Each peripheral state maps to its namesake device state, in both directions. |
| DeviceSpec.NameOf | Shared/CBTDevice.swift:107-109 | The displayed name is the peripheral's name, or "unknown" when it has none. |
| DeviceSpec.Created | Shared/CBTDevice.swift:142-152 | A new device is stamped seen now and holds the given strength. Its last state is disconnected, its last name is the current display name, its connect date is the distant past, and no poll timer is live. |
| DeviceSpec.RssiStep | Shared/CBTDevice.swift:79-87 | Storing a strength changes only the strength and requests nothing. It posts one RSSI notice exactly when the value differs. |
| DeviceSpec.BroadcastStep | Shared/CBTDevice.swift:188-203 | Afterwards the last state and name match the current ones. A state notice is posted iff the state changed, and a name notice iff the name changed. Service discovery is requested iff the state changed into connected. Nothing is posted or requested iff nothing changed. |
| DeviceSpec.BroadcastStepOnly | Shared/CBTDevice.swift:188-203 | A broadcast posts only state and name notices from the device and requests only service discovery. |
| DeviceSpec.BroadcastIdempotent | Shared/CBTDevice.swift:191-202 | A second broadcast with no change in between changes nothing, posts nothing and requests nothing. |
| DeviceSpec.ConnectStep | Shared/CBTDevice.swift:158-173 | Outside disconnected/disconnecting it is a no-op. Otherwise it starts a poll, which adds one live poll timer because a running one is replaced without being stopped. It stamps seen and connect times with the clock and takes the peripheral state the radio stack reports after the connect request. The connect request comes first, then service discovery iff that state is a new connected state. A state notice is posted iff the reported state differs from the last announced one, and afterwards the device is quiet. |
| DeviceSpec.ConnectAnnounced | Shared/CBTDevice.swift:158-173 | Connecting a quiet disconnected device whose peripheral reports connecting leaves it connecting. Exactly one connect request and one state-changed notice are issued. |
| DeviceSpec.FailedAttemptLeaksPoll | Shared/CBTDevice.swift:161-186 | A connect, a refusal and a second connect leave one poll timer live even after a disconnect. The first timer was overwritten, not stopped. |
| DeviceSpec.DisconnectStep | Shared/CBTDevice.swift:175-186 | Afterwards the current poll is stopped, and timers replaced earlier stay live. `lastSeen` is re-stamped only if a poll was running. A cancel is requested iff the peripheral is connected or connecting. Without a running poll the device data is unchanged and nothing is posted. |
| DeviceSpec.DisconnectStepOnly | Shared/CBTDevice.swift:175-186 | A disconnect requests only a cancel or service discovery, and everything it posts comes from the device. |
| DeviceSpec.DisconnectTwice | Shared/CBTDevice.swift:175-186 | A second disconnect leaves the device as the first left it and posts nothing. Its only request is the repeated cancel, when one applies. |
| DeviceSpec.Lost | Shared/CBTDevice.swift:211 | A device is lost iff it is disconnected and was last seen strictly more than 10 s before the sweep time. A lost device is always disconnected. |
| DeviceSpec.ExpiryStep | Shared/CBTDevice.swift:205-208 | A connection attempt still connecting 10 s or more after it began is cancelled and its poll stopped. Otherwise the check changes nothing. |
| DeviceSpec.ExpiryStepFromDevice | Shared/CBTDevice.swift:205-208 | Whatever the liveness check posts, it posts as the device. |
| DeviceSpec.ExpiryKeepsVerdict | Shared/CBTDevice.swift:205-212 | The forced disconnect never changes whether the device is lost. |
| DeviceSpec.ActiveNeverLost | Shared/CBTDevice.swift:211 | A device that is not disconnected is never lost, however stale. |
| DeviceSpec.AdvertisementStep | Shared/CBTManager.swift:179-183 | A known device's advertisement stamps seen time and strength and leaves the device quiet. It keeps identity, peripheral state, poll and connect date. An RSSI notice is posted iff the strength changed. |
| DeviceSpec.AdvertisementRepeated | Shared/CBTManager.swift:179-183 | The same advertisement repeated posts nothing and requests nothing. |
| DeviceSpec.SeenStep | Shared/CBTManager.swift:195-199 | A connect or fail callback stamps seen time and leaves the device quiet. Strength, poll and connect date are untouched. |
| DeviceSpec.DroppedStep | Shared/CBTManager.swift:217-221 | After a disconnection callback the current poll is stopped, timers replaced earlier stay live, and the device is quiet. A cancel is requested iff the peripheral was connected or connecting. |
| DeviceSpec.Probes | Shared/CBTDevice.swift:231-237 | Discovery fans out to one request per element. |
| DeviceSpec.ProbesAt | Shared/CBTDevice.swift:231-237 | The i-th request is the one for the i-th element. |
| DeviceSpec.ProbesAppend | Shared/CBTDevice.swift:231-237 | One more element adds its request at the end. |
| DeviceSpec.ServicesStep | Shared/CBTDevice.swift:220-238 | Discovered services leave the device unchanged and post one services notice. Two requests are issued per service, none for an absent list. |
| DeviceSpec.ServicesStepRequests | Shared/CBTDevice.swift:231-237 | Every service is asked first for its characteristics, in order, then for its included services, in order. |
| DeviceSpec.CharacteristicsStep | Shared/CBTDevice.swift:260-275 | Discovered characteristics post one notice naming the service and issue one request per characteristic. |
| DeviceSpec.CharacteristicsStepRequests | Shared/CBTDevice.swift:271-273 | Each characteristic is asked for its descriptors, in order. |
| DeviceModel.Device.constructor | Shared/CBTDevice.swift:142-152 | The new object holds exactly `Created(...)`. |
| DeviceModel.Device.SetRssi | Shared/CBTDevice.swift:79-87 | Assigning the strength performs `RssiStep` on the fields and the notice log. |
| DeviceModel.Device.BroadcastStateChange | Shared/CBTDevice.swift:188-203 | Performs `BroadcastStep` on the fields and both logs. |
| DeviceModel.Device.Connect | Shared/CBTDevice.swift:158-173 | Performs `ConnectStep` with the peripheral state the radio stack reports. |
| DeviceModel.Device.Attempt | Shared/CBTDevice.swift:161-171 | Replaces the poll (counting a running one as still live), stamps both times, and appends exactly one connect request. |
| DeviceModel.Device.Disconnect | Shared/CBTDevice.swift:175-186 | Performs `DisconnectStep`. |
| DeviceModel.Device.IsLost | Shared/CBTDevice.swift:205-212 | Performs `ExpiryStep` with the wall-clock reading. It answers `Lost` at the sweep time, and the answer is the same for the old and new data. |
| DeviceModel.Device.RssiTimerFired | Shared/CBTDevice.swift:161-165 | A tick of any live poll timer appends exactly one signal-strength read request for this device. |
| DeviceModel.Device.DidReadRssi | Shared/CBTDevice.swift:250-258 | A read signal strength performs `RssiStep`. |
| DeviceModel.Device.PeripheralDidUpdateName | Shared/CBTDevice.swift:240-248 | A name update performs `BroadcastStep`. |
| DeviceModel.Device.DidDiscoverServices | Shared/CBTDevice.swift:220-238 | Performs `ServicesStep`. |
| DeviceModel.Device.SendProbes | Shared/CBTDevice.swift:231-237 | The loop appends exactly `Probes(kind, refs)` to the request log. |
| DeviceModel.Device.DidDiscoverCharacteristics | Shared/CBTDevice.swift:260-275 | Performs `CharacteristicsStep`. |
| DeviceModel.Device.DidDiscoverIncludedServices | Shared/CBTDevice.swift:277-286 | Posts exactly one notice naming the service. |
| DeviceModel.Device.DidDiscoverDescriptors | Shared/CBTDevice.swift:288-297 | Posts exactly one notice naming the characteristic's service. |
| ManagerModel.ConnectedOnly | Shared/CBTManager.swift:71-75 | Keeps an entry iff its peripheral is connected, with the same device. |
| ManagerModel.Change | Shared/CBTManager.swift:22-28 | The observer posts something iff the map changed, and then exactly one registry-changed notice. |
| ManagerModel.DisconnectRequestsCancel | Shared/CBTManager.swift:148-150 | Disconnecting a list of devices in order requests a cancel for each connected or connecting one. |
| ManagerModel.DisconnectNoticesFromDevices | Shared/CBTManager.swift:148-150 | Everything the disconnects post comes from the devices. |
| ManagerModel.Manager.constructor | Shared/CBTManager.swift:21-43 | A new registry is not running, empty, has no timer and no radio stack yet, and is valid. |
| ManagerModel.Manager.SetDevices | Shared/CBTManager.swift:22-28 | Assigning the map stores it. One registry-changed notice is posted iff the new map differs from the old. |
| ManagerModel.Manager.Uuids | Shared/CBTManager.swift:29-33 | The identifiers are strictly ascending, each registered one appears once, and there are no others. |
| ManagerModel.Manager.Devices | Shared/CBTManager.swift:34-36 | The devices appear in identifier order, one per entry, each under its own key, all distinct. |
| ManagerModel.Manager.Start | Shared/CBTManager.swift:67-87 | The radio state is never changed. A second start changes nothing. Otherwise only connected devices are kept, announced iff the map changed, and the registry runs. A first start issues no request and leaves the kept devices and the sweep-timer flag untouched. A later start then runs the power-state handler on the pruned registry. Powered on: one scan request and the sweep flag. Powered off: stop-scan, then each kept device's `DisconnectStep` in display order with exactly their requests and notices, then the registry emptied. Other states leave devices and requests untouched. Every later start ends with one radio-state notice. |
| ManagerModel.Manager.Prune | Shared/CBTManager.swift:70-75 | Marks the registry running and keeps exactly the connected devices, announcing the change iff there is one. |
| ManagerModel.Manager.Resume | Shared/CBTManager.swift:70-81 | The later-start path: prune, then the power-state handler on the pruned registry, with the same outcomes as `Start` states for it. |
| ManagerModel.Manager.Stop | Shared/CBTManager.swift:89-105 | The radio state is never changed. Stopping while stopped changes nothing. Otherwise scanning stops with one request, the sweep timer is dropped, and only connected devices are kept. Registry-changed is posted iff the map changed. |
| ManagerModel.Manager.TimerFired | Shared/CBTManager.swift:107-116 | The radio state is kept. A device stays iff it was not lost at the sweep time, and survivors are the same objects. Every device takes its liveness step. Each timed-out attempt gets a cancel request. Device notices are followed by registry-changed iff the map changed. |
| ManagerModel.Manager.Expire | Shared/CBTManager.swift:110-115 | The radio state is kept. The filter keeps exactly the devices not lost, under the same keys. Every device takes its liveness step, and each timed-out attempt gets a cancel request. |
| ManagerModel.Manager.DidUpdateState | Shared/CBTManager.swift:122-175 | Every state ends with one radio-state notice, and non-power-off states leave the registry and devices untouched. Powered on while running: one scan request with duplicates allowed, and the sweep flag set. Powered off while running: one stop-scan request, then each device's `DisconnectStep` in display order. Requests and notices are exactly those steps' own, in that order, and a cancel goes to every connected or connecting device. Then the registry is emptied (announced iff it was non-empty) and the flag dropped. |
| ManagerModel.Manager.PowerOther | Shared/CBTManager.swift:156-174 | Powered on while running: one scan request and the sweep flag. Otherwise requests and flag are untouched. Exactly one radio-state notice is posted. |
| ManagerModel.Manager.PowerOff | Shared/CBTManager.swift:140-174 | Stop-scan first, then the devices' disconnect requests in display order, with a cancel for every connected or connecting peripheral. The registry ends empty. The devices' notices come first in the same order, then registry-changed iff the map was non-empty, then the radio-state notice. |
| ManagerModel.Manager.Purge | Shared/CBTManager.swift:144-151 | The sweep flag is dropped, and every device takes its disconnect step in display order. Requests and notices are exactly those steps' own, in that order. The map ends empty, announced iff it was non-empty. |
| ManagerModel.Manager.StopAndDisconnect | Shared/CBTManager.swift:144-150 | A stop-scan request, then every registered device takes its disconnect step in display order. The requests and notices are exactly the steps' own, in that order, with a cancel for each connected or connecting device. |
| ManagerModel.Manager.DisplayOrder | Shared/CBTManager.swift:34-36 | The devices listed in ascending identifier order, each under its own key and distinct, with the data each holds. |
| ManagerModel.Manager.DidDiscover | Shared/CBTManager.swift:177-190 | The radio state is kept. A known identifier leaves the map as is and performs `AdvertisementStep` on that device only. An unknown one adds exactly one fresh device holding `Created(...)`, leaves every existing device untouched, and posts registry-changed. |
| ManagerModel.Manager.DidConnect | Shared/CBTManager.swift:192-201 | The radio state is kept. A registered device performs `SeenStep`. An unknown identifier changes nothing, and other devices are untouched. |
| ManagerModel.Manager.DidFailToConnect | Shared/CBTManager.swift:203-212 | The same as a connection: the radio state is kept, `SeenStep` runs on the registered device, and nothing else changes. |
| ManagerModel.Manager.DidDisconnectPeripheral | Shared/CBTManager.swift:214-223 | The radio state is kept. A registered device performs `DroppedStep`. An unknown identifier changes nothing, and other devices are untouched. |
| ManagerModel.Readvertised | Shared/CBTManager.swift:179-183 | Stamping, storing the strength and broadcasting performs `AdvertisementStep` and keeps the radio state. |
| ManagerModel.Dropped | Shared/CBTManager.swift:220-221 | Disconnecting then broadcasting performs `DroppedStep` and keeps the radio state. |
| ManagerModel.Sweep | Shared/CBTManager.swift:111-115 | The radio state is kept. The loop asks every device once. It keeps exactly those not lost, each under its own identifier, and gathers their cancel requests and device notices. |
| ManagerModel.DisconnectAll | Shared/CBTManager.swift:148-150 | The loop performs each device's `DisconnectStep` once, in list order. Requests and notices are exactly the steps' own, concatenated in that order. Every connected or connecting device gets a cancel, and all notices come from devices. |

## Left out

- The radio stack (CoreBluetooth) is not modelled. Its calls become entries in a request log, and its state and each peripheral's state and name are fields that the environment sets. Scan and connect options are reduced to what matters here: duplicates allowed, notify on disconnection.
- Work dispatched to the main queue is modelled as running in place, in program order. In particular, the strength assignment in `didDiscover` posts its RSSI notice straight away. In the app that notice goes through the main queue and arrives after the state and name notices of the same advertisement.
- Timers are flags: `rssiTimer` on the device, `timer` on the registry. On the device, `leakedPolls` also counts poll timers that a repeated connect replaced without stopping, since they keep firing. The ticks are the methods `RssiTimerFired` and `TimerFired`, which the environment calls.
- A repeated powered-on report while running schedules another sweep timer without invalidating the previous one. The flag cannot show two live timers.
- Reads of the wall clock (`Date()`) are parameters. The sweep passes its own `now` as the clock for the connect timeout.
- Times are whole milliseconds, and `Date.distantPast` is a constant.
- Loss uses a strict comparison, as the code does: a device last seen exactly 10 s before the sweep is kept.
- The sweep asks the devices in display order. The dictionary filter in the app visits them in an unspecified order, and the contracts do not depend on that order. The power-off branch walks `devices`, which is in display order, and the model keeps that order.
- In the power-off branch the sweep flag is dropped after the device disconnects, not before. The disconnects do not read it, so no request or notice moves.
- ManagerModel.Manager.TimerFired: the new request and notice logs are stated as containing each timed-out device's cancel and only device notices before registry-changed. The exact interleaving of the devices' requests and notices is not stated, since it follows the unspecified dictionary order.
- ManagerModel.Manager.Expire: weaker on the exact request and notice sequence, as for `TimerFired`.
- ManagerModel.Sweep: weaker on the exact request and notice sequence, as for `TimerFired`.
- DeviceModel.Device.IsLost: the cancel sent for a timed-out attempt does not change the peripheral state within the call. The verdict reads the state from before the cancel; in the app the radio stack may already report the cancel. The reported state is an environment parameter only for connects.
- DeviceSpec.ExpiryKeepsVerdict: holds because the cancel leaves the peripheral state as it was, as for `IsLost`.
- `deinit` of both classes (stop or disconnect when the object is freed) is left out, because object lifetime has no counterpart here.
- The `shared` singleton and its private initializer are not modelled. The model's constructor takes the radio stack and the notification center as arguments.
- The `state` accessor of the registry, which only reads the radio stack's state, is left out.
- The device's `services`, `chacteristics` and `includedServices` accessors are left out. They are read-only views of radio-stack objects.
- `image` and `largeImage` always return nothing and are left out.
- `State.name` and `State.color` are left out as presentation.
- The write-value and update-value callbacks are left out. They only print in debug builds.
- Notification payloads are reduced to the service identity they carry.
- Debug printing is left out.
- The `@unknown default: fatalError()` arms are left out. The model's state enumerations are closed, so that arm cannot be reached.
- Identifier strings are compared character by character. For the uppercase hexadecimal form of a UUID this is the platform's string order.
