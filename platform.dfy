/**
 * The CoreBluetooth and Foundation objects the package works with, abstracted as plain
 * records. What the framework does with them (radio, link layer, ATT) is not modelled.
 */
module Platform {
  import opened Wrappers

  /** `Data`: a byte string. */
  type Data = seq<bv8>

  /** Foundation's `UUID`, identifying a peripheral or a central; `"\(id)"` is its `uuidString`. */
  datatype Uuid = Uuid(uuidString: string)

  /** `CBUUID`, identifying a service or a characteristic. */
  datatype AttributeUuid = AttributeUuid(uuidString: string)

  /** `CBPeripheralState`. */
  datatype PeripheralState = Disconnected | Connecting | Connected | Disconnecting

  /** `CBManagerState`, the power state of a central or peripheral manager. */
  datatype ManagerState = Unknown | Resetting | Unsupported | Unauthorized | PoweredOff | PoweredOn

  /** `CBCentral`: a remote central as the peripheral role sees it. */
  datatype Central = Central(identifier: Uuid)

  /**
   * `CBCharacteristic`, and its subclass `CBMutableCharacteristic`, which is what a
   * peripheral publishes and which knows the centrals subscribed to it.
   */
  datatype Characteristic =
    | Characteristic(uuid: AttributeUuid, value: Option<Data>)
    | MutableCharacteristic(uuid: AttributeUuid, value: Option<Data>, subscribedCentrals: Option<seq<Central>>)

  /** `CBService` / `CBMutableService`; `characteristics` is nil until discovered. */
  datatype Service = Service(uuid: AttributeUuid, characteristics: Option<seq<Characteristic>>)

  /** `CBPeripheral`: a remote peripheral as the central role sees it; `services` is nil until discovered. */
  datatype Peripheral = Peripheral(identifier: Uuid, name: Option<string>, state: PeripheralState, services: Option<seq<Service>>)

  /** `CBATTRequest`: one write request received by the peripheral role. */
  datatype AttRequest = AttRequest(central: Central, characteristic: Characteristic, value: Option<Data>)

  /** A Swift `Error`, reduced to its `localizedDescription`. */
  datatype BleError = BleError(localizedDescription: string)

  /** `peripheral.services ?? []`. */
  function ServiceList(p: Peripheral): (r: seq<Service>)
    ensures p.services.Some? ==> r == p.services.value
    ensures p.services.None? ==> r == []
  {
    p.services.GetOr([])
  }

  /** `service.characteristics ?? []`. */
  function CharacteristicList(s: Service): (r: seq<Characteristic>)
    ensures s.characteristics.Some? ==> r == s.characteristics.value
    ensures s.characteristics.None? ==> r == []
  {
    s.characteristics.GetOr([])
  }
}
