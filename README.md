# PopBluetooth, modelled in Dafny

PopBluetooth is a Swift package that wraps Apple's CoreBluetooth for use from SwiftUI.
It has two halves. The central role is `BluetoothManager`, which scans, lets its owner
decide which discovered peripherals to connect to, keeps one `BluetoothPeripheralHandler`
per accepted peripheral and maintains a table of discovered devices. The peripheral role
is `BluetoothPeripheral`, which registers and advertises the owner's services, forwards
incoming writes to the owner and pushes value updates to subscribed centrals.

All radio work happens inside CoreBluetooth. This project models the package's own
bookkeeping and decisions around those calls:

- `wrappers.dfy` (`Wrappers`): `Option`, `Result`, `Outcome` for Swift optionals and throws.
- `platform.dfy` (`Platform`): CoreBluetooth objects as plain records. A peripheral is an
  id, an optional name, a state and optional services. A service is a uuid and optional
  characteristics. A characteristic is plain or mutable; only a mutable one has
  subscribed centrals. `as? CBMutableCharacteristic` becomes the `MutableCharacteristic?` test.
- `sequences.dfy` (`Sequences`): the Swift `Array` operations the code relies on
  (`map`, `filter`, `first`, `first(where:)`).
- `core_bluetooth.dfy` (`CoreBluetoothLookups`): the three uuid lookups.
- `bluetooth_device.dfy` (`BluetoothDevices`): `BluetoothDevice`, `debugColour`, the device table
  with Swift's `Set.update(with:)`, and the name order behind `devices`.
- `bluetooth_manager.dfy` (`CentralRole`): the handler and manager classes.
- `bluetooth_peripheral.dfy` (`PeripheralRole`): the `SetValue` decision chain,
  `WriteMeta`, the error list and service registration.

Calls into CoreBluetooth (`connect`, `scanForPeripherals`, `discoverServices`,
`discoverCharacteristics`, `add`, `startAdvertising`, `updateValue`) are not performed.
Each is appended to a request log on the object that issues it (`centralRequests`,
`peripheralRequests`, `managerRequests`). Calls to owner closures and to the overridable
hooks are logged the same way (`ownerConsulted`, `hookCalls`, `writesDelivered`).
Whether an overridden hook throws is an argument of the delegate callback that calls it.
Values the framework reports, such as `central.state`, `isScanning` or
`peripheralManager.isAdvertising`, are parameters.

Swift compares `BluetoothDevice`s for equality by id alone, so `deviceStates` behaves
as a table keyed by id. The model keeps it as a `set<Device>` with the invariant
`UniqueIds`: no two members share an id. `Set.update(with:)` becomes `BluetoothDevices.Update`,
which removes the member with the same id and inserts the new one.

## Model

| member | source | states |
|---|---|---|
| `Platform.ServiceList` | Source/BluetoothManager.swift:296 | a peripheral's services, or none when they are nil |
| `Platform.CharacteristicList` | Source/BluetoothManager.swift:150 | a service's characteristics, or none when they are nil |
| `Sequences.Map` | Source/BluetoothPeripheral.swift:140 | one result per element, the i-th being `f` of the i-th element |
| `Sequences.Filter` | Source/CoreBluetooth.swift:15-18 | every kept element satisfies the predicate, and each element that does is kept as many times as it occurs; the result never grows |
| `Sequences.FilterAppend` | Source/CoreBluetooth.swift:15-18 | filtering distributes over concatenation, so kept elements stay in their input order |
| `Sequences.First` | Source/CoreBluetooth.swift:19 | nil iff empty, otherwise the first element |
| `Sequences.FirstWhere` | Source/BluetoothPeripheral.swift:160 | a result is an element that satisfies the predicate; nil iff no element does |
| `Sequences.FirstWhereIsEarliest` | Source/BluetoothPeripheral.swift:160 | the earliest satisfying element is the one returned |
| `Sequences.FilterFirstIsFirstWhere` | Source/CoreBluetooth.swift:14-19 | `filter` then `first` equals `first(where:)` |
| `CoreBluetoothLookups.GetService` | Source/CoreBluetooth.swift:12-20 | a result has the queried uuid and is a discovered service; nil iff no service matches, including when services are absent; it is the first match |
| `CoreBluetoothLookups.GetServiceIsEarliest` | Source/CoreBluetooth.swift:12-20 | the earliest service with the uuid is the one returned |
| `CoreBluetoothLookups.GetCharacteristic` | Source/CoreBluetooth.swift:25-33 | a result has the queried uuid and belongs to the service; nil iff no characteristic matches; it is the first match |
| `CoreBluetoothLookups.GetCharacteristicIsEarliest` | Source/CoreBluetooth.swift:25-33 | the earliest characteristic with the uuid is the one returned |
| `CoreBluetoothLookups.GetMutableCharacteristic` | Source/CoreBluetooth.swift:36-45 | a result is mutable, has the uuid and is the first uuid match; non-nil iff the first uuid match is mutable |
| `CoreBluetoothLookups.MutableLookupStopsAtFirstMatch` | Source/CoreBluetooth.swift:38-44 | a non-mutable first match gives nil even if a later match is mutable |
| `BluetoothDevices.DebugColour` | Source/BluetoothManager.swift:202-217 | yellow iff connecting, green iff connected, clear iff disconnected or disconnecting |
| `BluetoothDevices.DeviceName` | Source/BluetoothManager.swift:295 | the peripheral's name when present, else the identifier's string form |
| `BluetoothDevices.DeviceOf` | Source/BluetoothManager.swift:295-297 | the snapshot carries the peripheral's id, state and services (none if nil) and its display name |
| `BluetoothDevices.Update` | Source/BluetoothManager.swift:186-189 | after `update(with: d)`, `d` is present and is the only member with its id; membership of every other id is unchanged; the id set gains `d`'s id |
| `BluetoothDevices.UpdateKeepsIdsUnique` | Source/BluetoothManager.swift:302 | updating never creates two members with the same id |
| `BluetoothDevices.UpdateSize` | Source/BluetoothManager.swift:302 | the table grows by one exactly when the id is new, and otherwise keeps its size |
| `BluetoothDevices.UpdateTwiceKeepsLatest` | Source/BluetoothManager.swift:302 | of two updates with the same id only the later snapshot remains |
| `BluetoothDevices.NameLess` | Source/BluetoothManager.swift:183 | a name is never less than itself |
| `BluetoothDevices.NameLessIsLexicographic` | Source/BluetoothManager.swift:183 | `<` on names holds exactly when the first is a proper prefix of the second or they first differ at a smaller character |
| `BluetoothDevices.Less` | Source/BluetoothManager.swift:181-184 | devices compare by name only, so a device less than another has a different name |
| `BluetoothDevices.NameLessAsymmetric` | Source/BluetoothManager.swift:181-184 | name order is asymmetric |
| `BluetoothDevices.NameNotLessTransitive` | Source/BluetoothManager.swift:181-184 | "not less than" on names is transitive |
| `BluetoothDevices.Insert` | Source/BluetoothManager.swift:259 | insertion adds exactly the inserted device and loses none |
| `BluetoothDevices.InsertSorted` | Source/BluetoothManager.swift:259 | insertion into a name-sorted list keeps it sorted |
| `BluetoothDevices.PrependSorted` | Source/BluetoothManager.swift:259 | a head that no element is less than keeps a sorted list sorted |
| `BluetoothDevices.SortedNoneLessThan` | Source/BluetoothManager.swift:259 | in a sorted list nothing is less than a device the head is not less than |
| `BluetoothDevices.InsertNoneLessThan` | Source/BluetoothManager.swift:259 | insertion keeps "no element is less than x" when the inserted device is not less than x |
| `BluetoothDevices.SortByNameSorted` | Source/BluetoothManager.swift:259 | the sort yields a list sorted ascending by name |
| `BluetoothDevices.SortByName` | Source/BluetoothManager.swift:259 | the sort yields a permutation of its input |
| `CentralRole.MissingValue` | Source/BluetoothManager.swift:93 | the message starts "Missing characteristic ", ends " value", and the characteristic's uuid is what lies between |
| `CentralRole.ValueRoute` | Source/BluetoothManager.swift:80-97 | the hook gets the value iff there is no error and the value is present; a given error is recorded as is, a missing value as "Missing characteristic … value" |
| `CentralRole.DiscoverEach` | Source/BluetoothManager.swift:69-72 | one characteristic-discovery request per service, in order |
| `CentralRole.BluetoothPeripheralHandler.constructor` | Source/BluetoothManager.swift:16-23 | a new handler holds its peripheral, no error and no requests |
| `CentralRole.BluetoothPeripheralHandler.Name` | Source/BluetoothManager.swift:12 | the peripheral's name when present, else the identifier's string form |
| `CentralRole.BluetoothPeripheralHandler.OnConnected` | Source/BluetoothManager.swift:35-41 | appends exactly one service-discovery request |
| `CentralRole.BluetoothPeripheralHandler.OnError` | Source/BluetoothManager.swift:44-52 | the error becomes the stored error |
| `CentralRole.BluetoothPeripheralHandler.DidDiscoverServices` | Source/BluetoothManager.swift:54-74 | on error: stores it, requests nothing; otherwise one characteristic discovery per discovered service, in order, error untouched |
| `CentralRole.BluetoothPeripheralHandler.DidUpdateNotificationStateFor` | Source/BluetoothManager.swift:78-103 | the hook is called once with the value iff `ValueRoute` succeeds; otherwise no hook call and the routed error is stored; an error thrown by the hook is stored |
| `CentralRole.BluetoothPeripheralHandler.DidUpdateValueFor` | Source/BluetoothManager.swift:106-127 | the same routing as a notification-state change |
| `CentralRole.BluetoothPeripheralHandler.DidWriteValueFor` | Source/BluetoothManager.swift:129-139 | stores the error if one is given, otherwise changes nothing |
| `CentralRole.BluetoothPeripheralHandler.DidDiscoverCharacteristicsFor` | Source/BluetoothManager.swift:141-162 | on error: stores it, no hook call; otherwise one hook call with the service's characteristics (none if nil); an error thrown by the hook is stored |
| `CentralRole.DefaultHandler` | Source/BluetoothManager.swift:281-284 | the default owner callback declines every peripheral |
| `CentralRole.BluetoothManager.constructor` | Source/BluetoothManager.swift:260-279 | unknown state, not scanning, empty tables and logs, the owner's callback (by default `DefaultHandler`) and required services (by default nil) kept |
| `CentralRole.BluetoothManager.UpdateDeviceState` | Source/BluetoothManager.swift:287-304 | the table afterwards holds exactly one device with the peripheral's id, namely its fresh snapshot; every other id is unchanged; ids stay unique |
| `CentralRole.BluetoothManager.Devices` | Source/BluetoothManager.swift:259 | the result is sorted ascending by name and holds every table entry exactly once |
| `CentralRole.BluetoothManager.DidDiscover` | Source/BluetoothManager.swift:306-326 | with a handler registered: owner not asked, table of handlers and requests unchanged; otherwise the owner is asked once, and a handler is stored and `connect` issued iff it returns one; the device table is updated in every case |
| `CentralRole.BluetoothManager.DidConnect` | Source/BluetoothManager.swift:329-341 | the device table is updated; the registered handler, and only it, gains a service-discovery request, its peripheral, error and hook calls unchanged; with no handler no handler changes |
| `CentralRole.BluetoothManager.DidUpdateState` | Source/BluetoothManager.swift:343-352 | copies state and scanning flag; issues one scan for the required services iff powered on |
| `PeripheralRole.Message` | Source/BluetoothPeripheral.swift:162-174 | each failure text is its fixed prefix ("No such service ", "No such [mutable] characteristic ", "No subscribed peer ") followed by the uuid it names; the second text is the characteristic uuid, " on service " and the service uuid |
| `PeripheralRole.MessagesDistinguishFailures` | Source/BluetoothPeripheral.swift:162-174 | the three `SetValue` failure messages differ from each other whatever the uuids |
| `PeripheralRole.PlanSetValue` | Source/BluetoothPeripheral.swift:158-184 | "No such service" iff no service has the uuid; "No such [mutable] characteristic" iff the first matching service has no mutable first match; with a peer, "No subscribed peer" iff it is not subscribed, and success iff service, mutable characteristic and subscribed peer all exist; no other error is ever produced; success updates exactly the characteristic the mutable lookup finds in the first matching service, targeting exactly that one subscribed central, or broadcasting (nil targets) without a peer |
| `PeripheralRole.WriteMetaOf` | Source/BluetoothPeripheral.swift:151-153 | peer and characteristic come from the request; a missing value becomes empty data |
| `PeripheralRole.AddEach` | Source/BluetoothPeripheral.swift:135 | one registration per service, in order |
| `PeripheralRole.ServiceUuids` | Source/BluetoothPeripheral.swift:140 | the advertised uuids are the services' uuids in order |
| `PeripheralRole.Join` | Source/BluetoothPeripheral.swift:33 | no parts give the empty string, one part gives itself, and the result starts with the first part |
| `PeripheralRole.JoinAppend` | Source/BluetoothPeripheral.swift:33 | joining one more part appends the separator and that part |
| `PeripheralRole.Descriptions` | Source/BluetoothPeripheral.swift:33 | one description per error, in order |
| `PeripheralRole.ErrorText` | Source/BluetoothPeripheral.swift:33 | nil iff there are no errors; a single error gives its own description |
| `PeripheralRole.ErrorTextAfterAppend` | Source/BluetoothPeripheral.swift:33 | one more error adds a newline and its description to the end of the text |
| `PeripheralRole.BluetoothPeripheral.constructor` | Source/BluetoothPeripheral.swift:27-53 | unknown state, not advertising, no services, errors, peers or requests |
| `PeripheralRole.BluetoothPeripheral.AdvertisingServices` | Source/BluetoothPeripheral.swift:28 | the services iff advertising, else nil |
| `PeripheralRole.BluetoothPeripheral.Error` | Source/BluetoothPeripheral.swift:33 | nil iff the error list is empty, else the descriptions joined by "\n" |
| `PeripheralRole.BluetoothPeripheral.OnStateChanged` | Source/BluetoothPeripheral.swift:56-70 | the state becomes the new state |
| `PeripheralRole.BluetoothPeripheral.OnError` | Source/BluetoothPeripheral.swift:72-79 | appends the error at the end; the error text gains a newline and its description |
| `PeripheralRole.BluetoothPeripheral.OnPeripheralStateChanged` | Source/BluetoothPeripheral.swift:82-89 | the advertising flag mirrors the manager's |
| `PeripheralRole.BluetoothPeripheral.DidStartAdvertising` | Source/BluetoothPeripheral.swift:91-99 | mirrors the advertising flag and appends the error if one is given |
| `PeripheralRole.BluetoothPeripheral.InitPlayerListService` | Source/BluetoothPeripheral.swift:130-144 | appends the created services in order, registers each in order, then advertises the name and their uuids in the same order |
| `PeripheralRole.BluetoothPeripheral.DidUpdateState` | Source/BluetoothPeripheral.swift:103-126 | records the state; sets up and advertises services iff powered on, otherwise services and requests are unchanged |
| `PeripheralRole.BluetoothPeripheral.DidReceiveWrite` | Source/BluetoothPeripheral.swift:146-156 | the owner callback runs once per request, in request order, with that request's `WriteMeta` |
| `PeripheralRole.BluetoothPeripheral.SetValue` | Source/BluetoothPeripheral.swift:158-184 | throws exactly `PlanSetValue`'s error and issues nothing, or issues exactly its one update; no other field can change; the peer defaults to nil |

## Left out

- The CoreBluetooth framework itself (central and peripheral managers, the radio, GATT, ATT). Its calls are only logged.
- `DispatchQueue.main.async` and `Task { @MainActor }` hops. The updates they schedule happen immediately here.
- Combine and SwiftUI: `@Published`, `ObservableObject`, `objectWillChange.send()`. So the handler's `OnPeripheralStateChanged` has no modelled effect. `Color` is the three-value `Colour`.
- `print` logging, `hash(into:)`, and the `CustomStringConvertible` tables for the two state enums.
- The `fatalError` bodies of `OnCharacteristicsFound` and `OnCharacteristicValueChanged`. A call is logged, and what an override throws is a parameter.
- The tvOS-only initialiser and throw, and `Package.swift`.
- The unused `advertisementData` and `rssi` arguments of `didDiscover`, and `updateValue`'s Bool result, which the source ignores.
- The commented-out `showNoNameDevices` filter. The field is kept and never read, as in the source.
- `BluetoothError` is not part of this model. Its description is taken to be its message.
- BluetoothDevices.NameLess: compares strings character by character. Swift's `String <` also treats canonically equivalent Unicode sequences as equal, which is not modelled.
- A CBUUID is modelled by its uuid string. In messages CoreBluetooth may describe well-known uuids by name instead.
- PeripheralRole.Message: the second `SetValue` message in the source interpolates the matched service object. The model uses that service's uuid, which equals the queried one.
- CentralRole.BluetoothManager.Devices: enumerating a Swift `Set` has no specified order, and neither has `sorted()` for equal names. So the contract promises only sortedness and a permutation, not a particular order of devices with equal names.
- CentralRole.BluetoothManager.DidDiscover: the owner's `onPeripheralFound` closure is a pure function here. It gives the same answer for the same peripheral record, and its own side effects are not modelled beyond the call log.
- PeripheralRole.BluetoothPeripheral.InitPlayerListService: `createServices` is likewise a pure function, so each power-on appends the same services again.
- Platform objects are values. CoreBluetooth updates `CBPeripheral` and `CBService` in place and they can be shared, but that aliasing is not captured. Among the values passed between components, only the handlers are objects; the two managers and the handler are classes.
- The handler's `id`, `services` and `state` accessors (Source/BluetoothManager.swift:10-13) are not modelled. Nothing in the package reads them, and each only forwards a field of `peripheral`; `name` is modelled as `Name`.
