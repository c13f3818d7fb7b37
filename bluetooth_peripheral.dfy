/**
 * The peripheral role: `BluetoothPeripheral`, which registers and advertises the
 * owner's services, forwards incoming writes to the owner and pushes value updates to
 * subscribed centrals. Calls into `CBPeripheralManager` are logged, not performed.
 */
module PeripheralRole {
  import opened Wrappers
  import opened Platform
  import opened Sequences
  import opened CoreBluetoothLookups

  /** What the owner's write callback receives for one write request. */
  datatype WriteMeta = WriteMeta(peer: Uuid, characteristic: AttributeUuid, data: Data)

  /** The advertisement data: local name and service uuids. */
  datatype Advertisement = Advertisement(localName: string, serviceUuids: seq<AttributeUuid>)

  /** A call on the `CBPeripheralManager`. */
  datatype ManagerRequest =
    | AddService(service: Service)
    | StartAdvertising(advertisement: Advertisement)
    | UpdateValue(value: Data, characteristic: Characteristic, onSubscribedCentrals: Option<seq<Central>>)

  /** The three ways `SetValue` can fail. */
  datatype SetValueError =
    | NoSuchService(service: AttributeUuid)
    | NoSuchMutableCharacteristic(characteristic: AttributeUuid, service: AttributeUuid)
    | NoSubscribedPeer(peer: Uuid)

  /** The message of the error `SetValue` throws: a fixed text that ends with the uuid it names. */
  function Message(e: SetValueError): (r: string)
    ensures e.NoSuchService? ==>
      |r| == 16 + |e.service.uuidString| && r[..16] == "No such service " && r[16..] == e.service.uuidString
    ensures e.NoSuchMutableCharacteristic? ==>
      |r| >= 33 + |e.service.uuidString| && r[..33] == "No such [mutable] characteristic " &&
      r[|r| - |e.service.uuidString|..] == e.service.uuidString
    ensures e.NoSuchMutableCharacteristic? ==>
      |r| == 45 + |e.characteristic.uuidString| + |e.service.uuidString| &&
      r[33..33 + |e.characteristic.uuidString|] == e.characteristic.uuidString &&
      r[33 + |e.characteristic.uuidString|..|r| - |e.service.uuidString|] == " on service "
    ensures e.NoSubscribedPeer? ==>
      |r| == 19 + |e.peer.uuidString| && r[..19] == "No subscribed peer " && r[19..] == e.peer.uuidString
  {
    match e
    case NoSuchService(s) => "No such service " + s.uuidString
    case NoSuchMutableCharacteristic(c, s) => "No such [mutable] characteristic " + c.uuidString + " on service " + s.uuidString
    case NoSubscribedPeer(p) => "No subscribed peer " + p.uuidString
  }

  /** The three failure messages are told apart by their text, whatever the uuids. */
  lemma MessagesDistinguishFailures(e1: SetValueError, e2: SetValueError)
    requires Message(e1) == Message(e2)
    ensures e1.NoSuchService? == e2.NoSuchService?
    ensures e1.NoSuchMutableCharacteristic? == e2.NoSuchMutableCharacteristic?
    ensures e1.NoSubscribedPeer? == e2.NoSubscribedPeer?
  {
    var m1, m2 := Message(e1), Message(e2);
    assert m1[..9] == m2[..9];
    match e1 {
      case NoSuchService(_) => assert m1[..9] == "No such s";
      case NoSuchMutableCharacteristic(_, _) => assert m1[..9] == "No such [";
      case NoSubscribedPeer(_) => assert m1[..9] == "No subscr";
    }
    match e2 {
      case NoSuchService(_) => assert m2[..9] == "No such s";
      case NoSuchMutableCharacteristic(_, _) => assert m2[..9] == "No such [";
      case NoSubscribedPeer(_) => assert m2[..9] == "No subscr";
    }
  }

  /** The filter predicate `{ $0.identifier == peer }` on centrals. */
  function CentralHasId(peer: Uuid): Central -> bool {
    (c: Central) => c.identifier == peer
  }

  /** The centrals subscribed to a mutable characteristic, none if nil. */
  function Subscribers(c: Characteristic): seq<Central>
    requires c.MutableCharacteristic?
  {
    c.subscribedCentrals.GetOr([])
  }

  /**
   * The decision `SetValue` takes: the update it issues, or the error it throws. It
   * looks up the service by uuid, then the mutable characteristic, then, if a peer is
   * given, that peer among the subscribers.
   */
  function PlanSetValue(services: seq<Service>, service: AttributeUuid, characteristic: AttributeUuid,
                        value: Data, peer: Option<Uuid>): (r: Result<ManagerRequest, SetValueError>)
    ensures r == Failure(NoSuchService(service)) <==> forall i :: 0 <= i < |services| ==> services[i].uuid != service
    ensures var s := FirstWhere(services, ServiceHasUuid(service));
      r == Failure(NoSuchMutableCharacteristic(characteristic, service)) <==>
        s.Some? && GetMutableCharacteristic(s.value, characteristic).None?
    ensures var s := FirstWhere(services, ServiceHasUuid(service));
      peer.Some? ==>
        (r == Failure(NoSubscribedPeer(peer.value)) <==>
          s.Some? && GetMutableCharacteristic(s.value, characteristic).Some? &&
          forall x :: x in Subscribers(GetMutableCharacteristic(s.value, characteristic).value) ==> x.identifier != peer.value)
    ensures var s := FirstWhere(services, ServiceHasUuid(service));
      peer.None? ==> (r.Success? <==> s.Some? && GetMutableCharacteristic(s.value, characteristic).Some?)
    ensures var s := FirstWhere(services, ServiceHasUuid(service));
      peer.Some? ==>
        (r.Success? <==>
          s.Some? && GetMutableCharacteristic(s.value, characteristic).Some? &&
          exists x :: x in Subscribers(GetMutableCharacteristic(s.value, characteristic).value) && x.identifier == peer.value)
    ensures r.Failure? ==>
      r.error == NoSuchService(service) || r.error == NoSuchMutableCharacteristic(characteristic, service) ||
      (peer.Some? && r.error == NoSubscribedPeer(peer.value))
    ensures r.Success? ==> r.value.UpdateValue? && r.value.value == value
    ensures var s := FirstWhere(services, ServiceHasUuid(service));
      r.Success? ==>
        (s.Some? && GetMutableCharacteristic(s.value, characteristic).Some? &&
         r.value.characteristic == GetMutableCharacteristic(s.value, characteristic).value)
    ensures r.Success? ==>
      exists s :: s in services && s.uuid == service && r.value.characteristic in CharacteristicList(s)
    ensures r.Success? ==> r.value.characteristic.MutableCharacteristic? && r.value.characteristic.uuid == characteristic
    ensures r.Success? && peer.None? ==> r.value.onSubscribedCentrals == None
    ensures r.Success? && peer.Some? ==>
      r.value.onSubscribedCentrals.Some? && |r.value.onSubscribedCentrals.value| == 1 &&
      r.value.onSubscribedCentrals.value[0].identifier == peer.value &&
      r.value.onSubscribedCentrals.value[0] in Subscribers(r.value.characteristic)
  {
    match FirstWhere(services, ServiceHasUuid(service))
    case None => Failure(NoSuchService(service))
    case Some(s) =>
      match GetMutableCharacteristic(s, characteristic)
      case None => Failure(NoSuchMutableCharacteristic(characteristic, service))
      case Some(c) =>
        match peer
        case None => Success(UpdateValue(value, c, None))
        case Some(id) =>
          match FirstWhere(Subscribers(c), CentralHasId(id))
          case None => Failure(NoSubscribedPeer(id))
          case Some(central) => Success(UpdateValue(value, c, Some([central])))
  }

  /** The `WriteMeta` built from one request; a missing value becomes empty data. */
  function WriteMetaOf(request: AttRequest): (w: WriteMeta)
    ensures w.peer == request.central.identifier && w.characteristic == request.characteristic.uuid
    ensures request.value.Some? ==> w.data == request.value.value
    ensures request.value.None? ==> w.data == []
  {
    WriteMeta(request.central.identifier, request.characteristic.uuid, request.value.GetOr([]))
  }

  /** The registration requests for `services`, one per service, in order. */
  function AddEach(services: seq<Service>): (r: seq<ManagerRequest>)
    ensures |r| == |services|
    ensures forall i :: 0 <= i < |services| ==> r[i] == AddService(services[i])
  {
    Map(services, (s: Service) => AddService(s))
  }

  /** `services.map { $0.uuid }`. */
  function ServiceUuids(services: seq<Service>): (r: seq<AttributeUuid>)
    ensures |r| == |services|
    ensures forall i :: 0 <= i < |services| ==> r[i] == services[i].uuid
  {
    Map(services, (s: Service) => s.uuid)
  }

  /** `joined(separator:)`. */
  function Join(parts: seq<string>, separator: string): (r: string)
    ensures parts == [] ==> r == ""
    ensures |parts| == 1 ==> r == parts[0]
    ensures parts != [] ==> |parts[0]| <= |r| && r[..|parts[0]|] == parts[0]
  {
    if |parts| == 0 then ""
    else if |parts| == 1 then parts[0]
    else parts[0] + separator + Join(parts[1..], separator)
  }

  /** Joining one more part appends the separator and that part. */
  lemma {:induction false} JoinAppend(parts: seq<string>, part: string, separator: string)
    requires parts != []
    ensures Join(parts + [part], separator) == Join(parts, separator) + separator + part
  {
    if |parts| > 1 {
      assert (parts + [part])[1..] == parts[1..] + [part];
      JoinAppend(parts[1..], part, separator);
    }
  }

  /** The descriptions of `errors`, in order. */
  function Descriptions(errors: seq<BleError>): (r: seq<string>)
    ensures |r| == |errors|
    ensures forall i :: 0 <= i < |errors| ==> r[i] == errors[i].localizedDescription
  {
    Map(errors, (e: BleError) => e.localizedDescription)
  }

  /** The `error` property: nil with no errors, else every description joined by newlines. */
  function ErrorText(errors: seq<BleError>): (r: Option<string>)
    ensures r.None? <==> errors == []
    ensures |errors| == 1 ==> r == Some(errors[0].localizedDescription)
  {
    if errors == [] then None else Some(Join(Descriptions(errors), "\n"))
  }

  /** After one more error, the text gains a newline and that error's description. */
  lemma ErrorTextAfterAppend(errors: seq<BleError>, e: BleError)
    ensures errors == [] ==> ErrorText(errors + [e]) == Some(e.localizedDescription)
    ensures errors != [] ==> ErrorText(errors + [e]) == Some(ErrorText(errors).value + "\n" + e.localizedDescription)
  {
    if errors != [] {
      MapAppend(errors, [e], (e: BleError) => e.localizedDescription);
      JoinAppend(Descriptions(errors), e.localizedDescription, "\n");
    }
  }

  class BluetoothPeripheral {
    var state: ManagerState
    var isAdverting: bool
    var services: seq<Service>
    var errors: seq<BleError>
    var peers: seq<Uuid>
    /** The owner's service factory. */
    const createServices: () -> seq<Service>
    const advertisedName: string
    /** Every `WriteMeta` handed to the owner's write callback, in call order. */
    var writesDelivered: seq<WriteMeta>
    var managerRequests: seq<ManagerRequest>

    constructor (advertisedName: string, createServices: () -> seq<Service>)
      ensures this.advertisedName == advertisedName && this.createServices == createServices
      ensures state == Unknown && !isAdverting && services == [] && errors == [] && peers == []
      ensures writesDelivered == [] && managerRequests == []
    {
      this.advertisedName := advertisedName;
      this.createServices := createServices;
      state := Unknown;
      isAdverting := false;
      services := [];
      errors := [];
      peers := [];
      writesDelivered := [];
      managerRequests := [];
    }

    /** `advertisingServices`: the registered services while advertising, else nil. */
    function AdvertisingServices(): (r: Option<seq<Service>>)
      reads this
      ensures r.Some? <==> isAdverting
      ensures r.Some? ==> r.value == services
    {
      if isAdverting then Some(services) else None
    }

    /** `error`: nil iff no error was recorded, else the descriptions joined by newlines. */
    function Error(): (r: Option<string>)
      reads this
      ensures r.None? <==> errors == []
      ensures r.Some? ==> r.value == Join(Descriptions(errors), "\n")
    {
      ErrorText(errors)
    }

    method OnStateChanged(newState: ManagerState)
      modifies this`state
      ensures state == newState
    {
      state := newState;
    }

    /** Appends `e` to the error list. */
    method OnError(e: BleError)
      modifies this`errors
      ensures errors == old(errors) + [e]
      ensures Error() == if old(errors) == [] then Some(e.localizedDescription)
                         else Some(old(Error()).value + "\n" + e.localizedDescription)
    {
      ErrorTextAfterAppend(errors, e);
      errors := errors + [e];
    }

    /** Mirrors the manager's `isAdvertising` flag. */
    method OnPeripheralStateChanged(managerIsAdvertising: bool)
      modifies this`isAdverting
      ensures isAdverting == managerIsAdvertising
    {
      isAdverting := managerIsAdvertising;
    }

    /** `peripheralManagerDidStartAdvertising`: mirrors the flag, then records an error if any. */
    method DidStartAdvertising(managerIsAdvertising: bool, err: Option<BleError>)
      modifies this`isAdverting, this`errors
      ensures isAdverting == managerIsAdvertising
      ensures errors == old(errors) + (if err.Some? then [err.value] else [])
    {
      OnPeripheralStateChanged(managerIsAdvertising);
      if err.Some? {
        OnError(err.value);
      }
    }

    /**
     * `InitPlayerListService`: appends the owner's services in order, registers each,
     * then advertises the name with their uuids in the same order.
     */
    method InitPlayerListService()
      modifies this`services, this`managerRequests
      ensures services == old(services) + createServices()
      ensures managerRequests == old(managerRequests) + AddEach(createServices()) +
        [StartAdvertising(Advertisement(advertisedName, ServiceUuids(createServices())))]
    {
      var created := createServices();
      var i := 0;
      while i < |created|
        invariant 0 <= i <= |created|
        invariant services == old(services) + created[..i]
        invariant managerRequests == old(managerRequests)
      {
        assert created[..i + 1] == created[..i] + [created[i]];
        services := services + [created[i]];
        i := i + 1;
      }
      assert created[..i] == created;
      i := 0;
      while i < |created|
        invariant 0 <= i <= |created|
        invariant services == old(services) + created
        invariant managerRequests == old(managerRequests) + AddEach(created[..i])
      {
        assert created[..i + 1][..i] == created[..i];
        managerRequests := managerRequests + [AddService(created[i])];
        i := i + 1;
      }
      assert created[..i] == created;
      var adverts := Advertisement(advertisedName, ServiceUuids(created));
      managerRequests := managerRequests + [StartAdvertising(adverts)];
    }

    /** `peripheralManagerDidUpdateState`: records the state; on power-on, sets up and advertises the services. */
    method DidUpdateState(newState: ManagerState)
      modifies this`state, this`services, this`managerRequests
      ensures state == newState
      ensures newState == PoweredOn ==> services == old(services) + createServices()
      ensures newState == PoweredOn ==>
        (managerRequests == old(managerRequests) + AddEach(createServices()) +
          [StartAdvertising(Advertisement(advertisedName, ServiceUuids(createServices())))])
      ensures newState != PoweredOn ==> services == old(services) && managerRequests == old(managerRequests)
    {
      OnStateChanged(newState);
      if newState == PoweredOn {
        InitPlayerListService();
      }
    }

    /** `didReceiveWrite`: one owner callback per request, in request order. */
    method DidReceiveWrite(requests: seq<AttRequest>)
      modifies this`writesDelivered
      ensures writesDelivered == old(writesDelivered) + Map(requests, WriteMetaOf)
    {
      var i := 0;
      while i < |requests|
        invariant 0 <= i <= |requests|
        invariant writesDelivered == old(writesDelivered) + Map(requests[..i], WriteMetaOf)
      {
        assert requests[..i + 1][..i] == requests[..i];
        var write := WriteMetaOf(requests[i]);
        writesDelivered := writesDelivered + [write];
        i := i + 1;
      }
      assert requests[..i] == requests;
    }

    /**
     * `SetValue`: issues the update `PlanSetValue` decides on, or throws its error. The
     * frame allows no field but the request log to change.
     */
    method SetValue(service: AttributeUuid, characteristic: AttributeUuid, value: Data, peer: Option<Uuid> := None)
      returns (r: Outcome<SetValueError>)
      modifies this`managerRequests
      ensures var plan := PlanSetValue(services, service, characteristic, value, peer);
        plan.Failure? ==> r == Fail(plan.error) && managerRequests == old(managerRequests)
      ensures var plan := PlanSetValue(services, service, characteristic, value, peer);
        plan.Success? ==> r == Pass && managerRequests == old(managerRequests) + [plan.value]
    {
      var found := FirstWhere(services, ServiceHasUuid(service));
      if found.None? {
        return Fail(NoSuchService(service));
      }
      var s := found.value;
      var mutableMatch := GetMutableCharacteristic(s, characteristic);
      if mutableMatch.None? {
        return Fail(NoSuchMutableCharacteristic(characteristic, service));
      }
      var c := mutableMatch.value;
      if peer.Some? {
        var central := FirstWhere(Subscribers(c), CentralHasId(peer.value));
        if central.None? {
          return Fail(NoSubscribedPeer(peer.value));
        }
        managerRequests := managerRequests + [UpdateValue(value, c, Some([central.value]))];
      } else {
        managerRequests := managerRequests + [UpdateValue(value, c, None)];
      }
      return Pass;
    }
  }
}
