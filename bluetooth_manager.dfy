/**
 * The central role: `BluetoothPeripheralHandler`, the per-device delegate, and
 * `BluetoothManager`, which scans, decides which peripherals to connect to, keeps their
 * handlers and maintains the table of discovered devices.
 *
 * Calls into CoreBluetooth are not performed: each one is appended to a request log
 * of the object that issues it. Calls to the owner's closures and to the overridable
 * hooks are logged the same way.
 */
module CentralRole {
  import opened Wrappers
  import opened Platform
  import opened Sequences
  import opened BluetoothDevices

  /** A call the handler makes on its `CBPeripheral`. */
  datatype PeripheralRequest =
    | DiscoverServices
    | DiscoverCharacteristics(service: Service)

  /** A call into one of the two overridable hooks of a handler. */
  datatype HookCall =
    | CharacteristicsFound(characteristics: seq<Characteristic>, service: Service)
    | CharacteristicValueChanged(value: Data, characteristicUid: AttributeUuid)

  /** A call the manager makes on its `CBCentralManager`. */
  datatype CentralRequest =
    | Connect(peripheral: Uuid)
    | ScanForPeripherals(withServices: Option<seq<AttributeUuid>>)

  /** The error thrown when a characteristic reports a change but carries no value. */
  function MissingValue(uid: AttributeUuid): (r: BleError)
    ensures var m := r.localizedDescription;
      |m| == 29 + |uid.uuidString| && m[..23] == "Missing characteristic " && m[23..|m| - 6] == uid.uuidString &&
      m[|m| - 6..] == " value"
  {
    BleError("Missing characteristic " + uid.uuidString + " value")
  }

  /**
   * How a value or notification-state update is routed: to the value-changed hook with
   * the characteristic's value, or to the error it records instead.
   */
  function ValueRoute(c: Characteristic, error: Option<BleError>): (r: Result<Data, BleError>)
    ensures r.Success? <==> error.None? && c.value.Some?
    ensures r.Success? ==> r.value == c.value.value
    ensures error.Some? ==> r == Failure(error.value)
    ensures error.None? && c.value.None? ==> r == Failure(MissingValue(c.uuid))
  {
    match error
    case Some(e) => Failure(e)
    case None =>
      match c.value
      case None => Failure(MissingValue(c.uuid))
      case Some(v) => Success(v)
  }

  /** The characteristic-discovery requests issued for `services`, one per service, in order. */
  function DiscoverEach(services: seq<Service>): (r: seq<PeripheralRequest>)
    ensures |r| == |services|
    ensures forall i :: 0 <= i < |services| ==> r[i] == DiscoverCharacteristics(services[i])
  {
    Map(services, (s: Service) => DiscoverCharacteristics(s))
  }

  /**
   * The delegate of one connected `CBPeripheral`. An application subclasses it and
   * overrides the two hooks; here every hook call is logged in `hookCalls`, and
   * whether the override throws is an argument of the callback that calls it.
   */
  class BluetoothPeripheralHandler {
    var peripheral: Peripheral
    var error: Option<BleError>
    var peripheralRequests: seq<PeripheralRequest>
    var hookCalls: seq<HookCall>

    constructor (peripheral: Peripheral)
      ensures this.peripheral == peripheral && error == None
      ensures peripheralRequests == [] && hookCalls == []
    {
      this.peripheral := peripheral;
      error := None;
      peripheralRequests := [];
      hookCalls := [];
    }

    function Name(): (name: string)
      reads this
      ensures peripheral.name.Some? ==> name == peripheral.name.value
      ensures peripheral.name.None? ==> name == peripheral.identifier.uuidString
    {
      DeviceName(peripheral)
    }

    /** Once connected, the handler asks for all of the peripheral's services. */
    method OnConnected()
      modifies this`peripheralRequests
      ensures peripheralRequests == old(peripheralRequests) + [DiscoverServices]
    {
      peripheralRequests := peripheralRequests + [DiscoverServices];
    }

    /** Records `e` as the handler's latest error. */
    method OnError(e: BleError)
      modifies this`error
      ensures error == Some(e)
    {
      error := Some(e);
    }

    /**
     * `didDiscoverServices`: on error, stores it and requests nothing; otherwise asks for
     * the characteristics of every discovered service, once each, in order.
     */
    method DidDiscoverServices(p: Peripheral, err: Option<BleError>)
      modifies this`error, this`peripheralRequests
      ensures err.Some? ==> error == err && peripheralRequests == old(peripheralRequests)
      ensures err.None? ==> error == old(error)
      ensures err.None? ==> peripheralRequests == old(peripheralRequests) + DiscoverEach(ServiceList(p))
    {
      if err.Some? {
        error := err;
        return;
      }
      var services := ServiceList(p);
      var i := 0;
      while i < |services|
        invariant 0 <= i <= |services|
        invariant peripheralRequests == old(peripheralRequests) + DiscoverEach(services[..i])
        invariant error == old(error)
      {
        assert services[..i + 1][..i] == services[..i];
        peripheralRequests := peripheralRequests + [DiscoverCharacteristics(services[i])];
        i := i + 1;
      }
      assert services[..i] == services;
    }

    /**
     * `didUpdateNotificationStateFor`: an error is recorded; otherwise the current value
     * goes to the value-changed hook, and a missing value is recorded as an error.
     * An error thrown by the hook (`hookError`) is recorded too.
     */
    method DidUpdateNotificationStateFor(c: Characteristic, err: Option<BleError>, hookError: Option<BleError>)
      modifies this`error, this`hookCalls
      ensures ValueRoute(c, err).Failure? ==> hookCalls == old(hookCalls) && error == Some(ValueRoute(c, err).error)
      ensures ValueRoute(c, err).Success? ==>
        hookCalls == old(hookCalls) + [CharacteristicValueChanged(ValueRoute(c, err).value, c.uuid)]
      ensures ValueRoute(c, err).Success? ==> error == if hookError.Some? then hookError else old(error)
    {
      if err.Some? {
        OnError(err.value);
        return;
      }
      if c.value.None? {
        OnError(MissingValue(c.uuid));
        return;
      }
      hookCalls := hookCalls + [CharacteristicValueChanged(c.value.value, c.uuid)];
      if hookError.Some? {
        OnError(hookError.value);
      }
    }

    /**
     * `didUpdateValueFor`: the same routing as a notification-state change, written in
     * the source as a throw caught by one handler.
     */
    method DidUpdateValueFor(c: Characteristic, err: Option<BleError>, hookError: Option<BleError>)
      modifies this`error, this`hookCalls
      ensures ValueRoute(c, err).Failure? ==> hookCalls == old(hookCalls) && error == Some(ValueRoute(c, err).error)
      ensures ValueRoute(c, err).Success? ==>
        hookCalls == old(hookCalls) + [CharacteristicValueChanged(ValueRoute(c, err).value, c.uuid)]
      ensures ValueRoute(c, err).Success? ==> error == if hookError.Some? then hookError else old(error)
    {
      var thrown: Option<BleError> := None;
      if err.Some? {
        thrown := err;
      } else if c.value.None? {
        thrown := Some(MissingValue(c.uuid));
      } else {
        hookCalls := hookCalls + [CharacteristicValueChanged(c.value.value, c.uuid)];
        thrown := hookError;
      }
      if thrown.Some? {
        OnError(thrown.value);
      }
    }

    /** `didWriteValueFor`: records an error if there is one; nothing else happens. */
    method DidWriteValueFor(c: Characteristic, err: Option<BleError>)
      modifies this`error
      ensures error == if err.Some? then err else old(error)
    {
      if err.Some? {
        OnError(err.value);
      }
    }

    /**
     * `didDiscoverCharacteristicsFor`: on error, records it; otherwise hands the service's
     * characteristics (none if nil) to the characteristics-found hook.
     */
    method DidDiscoverCharacteristicsFor(s: Service, err: Option<BleError>, hookError: Option<BleError>)
      modifies this`error, this`hookCalls
      ensures err.Some? ==> error == err && hookCalls == old(hookCalls)
      ensures err.None? ==> hookCalls == old(hookCalls) + [CharacteristicsFound(CharacteristicList(s), s)]
      ensures err.None? ==> error == if hookError.Some? then hookError else old(error)
    {
      if err.Some? {
        OnError(err.value);
        return;
      }
      var characteristics := CharacteristicList(s);
      hookCalls := hookCalls + [CharacteristicsFound(characteristics, s)];
      if hookError.Some? {
        OnError(hookError.value);
      }
    }
  }

  /** `BluetoothManager.DefaultHandler`: the default owner callback, which declines every peripheral. */
  function DefaultHandler(p: Peripheral): (h: Option<BluetoothPeripheralHandler>)
    ensures h.None?
  {
    None
  }

  /** The central-role manager. */
  class BluetoothManager {
    var lastState: ManagerState
    var isScanning: bool
    var deviceStates: set<Device>
    var showNoNameDevices: bool
    /** The owner's callback: returns a handler for a peripheral it wants connected. */
    const onPeripheralFound: Peripheral -> Option<BluetoothPeripheralHandler>
    const requiredServices: Option<seq<AttributeUuid>>
    var connectingPeripherals: map<Uuid, BluetoothPeripheralHandler>
    /** The peripherals `onPeripheralFound` was called with, in call order. */
    var ownerConsulted: seq<Peripheral>
    var centralRequests: seq<CentralRequest>

    /** The device table: one entry per id. */
    ghost predicate Valid()
      reads this
    {
      UniqueIds(deviceStates)
    }

    constructor (onPeripheralFound: Peripheral -> Option<BluetoothPeripheralHandler> := DefaultHandler,
                 requireServices: Option<seq<AttributeUuid>> := None)
      ensures Valid()
      ensures this.onPeripheralFound == onPeripheralFound && requiredServices == requireServices
      ensures lastState == Unknown && !isScanning && deviceStates == {} && !showNoNameDevices
      ensures connectingPeripherals == map[] && ownerConsulted == [] && centralRequests == []
    {
      this.onPeripheralFound := onPeripheralFound;
      requiredServices := requireServices;
      lastState := Unknown;
      isScanning := false;
      deviceStates := {};
      showNoNameDevices := false;
      connectingPeripherals := map[];
      ownerConsulted := [];
      centralRequests := [];
    }

    /** The handler registered for `id`, as a frame. */
    function HandlerFrame(id: Uuid): set<BluetoothPeripheralHandler>
      reads this
    {
      if id in connectingPeripherals then {connectingPeripherals[id]} else {}
    }

    /**
     * `updateDeviceState`: the table entry for the peripheral's id is replaced by a fresh
     * snapshot (latest name, state and services); entries for other ids are unchanged.
     */
    method UpdateDeviceState(p: Peripheral)
      requires Valid()
      modifies this`deviceStates
      ensures Valid()
      ensures deviceStates == Update(old(deviceStates), DeviceOf(p))
      ensures forall d :: d in deviceStates && d.deviceUid == p.identifier <==> d == DeviceOf(p)
      ensures forall d: Device :: d.deviceUid != p.identifier ==> (d in deviceStates <==> d in old(deviceStates))
    {
      var device := DeviceOf(p);
      UpdateKeepsIdsUnique(deviceStates, device);
      deviceStates := Update(deviceStates, device);
    }

    /**
     * `devices`: the table listed in name order (`Array(deviceStates).sorted()`). The
     * order in which the set is enumerated is not specified, so it is left open here.
     */
    method Devices() returns (ds: seq<Device>)
      ensures SortedByName(ds)
      ensures multiset(ds) == multiset(deviceStates)
      ensures |ds| == |deviceStates|
    {
      var listed: seq<Device> := [];
      var rest := deviceStates;
      while rest != {}
        invariant multiset(listed) + multiset(rest) == multiset(deviceStates)
        decreases |rest|
      {
        var d :| d in rest;
        assert multiset(rest) == multiset(rest - {d}) + multiset{d};
        listed := listed + [d];
        rest := rest - {d};
      }
      SortByNameSorted(listed);
      ds := SortByName(listed);
      assert |multiset(ds)| == |multiset(deviceStates)|;
    }

    /**
     * `didDiscover`: when no handler is registered for the id, the owner is asked; a
     * handler it returns is stored and the peripheral connected. A registered handler is
     * never replaced. The device table is updated in every case.
     */
    method DidDiscover(p: Peripheral)
      requires Valid()
      modifies this`deviceStates, this`connectingPeripherals, this`ownerConsulted, this`centralRequests
      ensures Valid()
      ensures deviceStates == Update(old(deviceStates), DeviceOf(p))
      ensures p.identifier in old(connectingPeripherals) ==>
        connectingPeripherals == old(connectingPeripherals) && ownerConsulted == old(ownerConsulted) && centralRequests == old(centralRequests)
      ensures p.identifier !in old(connectingPeripherals) ==> ownerConsulted == old(ownerConsulted) + [p]
      ensures p.identifier !in old(connectingPeripherals) && onPeripheralFound(p).None? ==>
        connectingPeripherals == old(connectingPeripherals) && centralRequests == old(centralRequests)
      ensures p.identifier !in old(connectingPeripherals) && onPeripheralFound(p).Some? ==>
        connectingPeripherals == old(connectingPeripherals)[p.identifier := onPeripheralFound(p).value] &&
        centralRequests == old(centralRequests) + [Connect(p.identifier)]
    {
      if p.identifier !in connectingPeripherals {
        ownerConsulted := ownerConsulted + [p];
        var newHandler := onPeripheralFound(p);
        if newHandler.Some? {
          connectingPeripherals := connectingPeripherals[p.identifier := newHandler.value];
          centralRequests := centralRequests + [Connect(p.identifier)];
        }
      }
      UpdateDeviceState(p);
    }

    /**
     * `didConnect`: the device table is updated; the registered handler, if any, is told
     * it is connected (and so requests service discovery).
     */
    method DidConnect(p: Peripheral)
      requires Valid()
      modifies this`deviceStates, HandlerFrame(p.identifier)
      ensures Valid()
      ensures deviceStates == Update(old(deviceStates), DeviceOf(p))
      ensures p.identifier in connectingPeripherals ==>
        connectingPeripherals[p.identifier].peripheralRequests ==
          old(connectingPeripherals[p.identifier].peripheralRequests) + [DiscoverServices]
      ensures p.identifier in connectingPeripherals ==>
        connectingPeripherals[p.identifier].error == old(connectingPeripherals[p.identifier].error) &&
        connectingPeripherals[p.identifier].hookCalls == old(connectingPeripherals[p.identifier].hookCalls) &&
        connectingPeripherals[p.identifier].peripheral == old(connectingPeripherals[p.identifier].peripheral)
    {
      UpdateDeviceState(p);
      if p.identifier !in connectingPeripherals {
        return;
      }
      var handler := connectingPeripherals[p.identifier];
      handler.OnConnected();
    }

    /**
     * `centralManagerDidUpdateState`: copies the central's state and scanning flag; when
     * powered on, starts a scan for the required services.
     */
    method DidUpdateState(centralState: ManagerState, centralIsScanning: bool)
      modifies this`lastState, this`isScanning, this`centralRequests
      ensures lastState == centralState && isScanning == centralIsScanning
      ensures centralState == PoweredOn ==> centralRequests == old(centralRequests) + [ScanForPeripherals(requiredServices)]
      ensures centralState != PoweredOn ==> centralRequests == old(centralRequests)
    {
      lastState := centralState;
      isScanning := centralIsScanning;
      if centralState == PoweredOn {
        centralRequests := centralRequests + [ScanForPeripherals(requiredServices)];
      }
    }
  }
}
