/** The lookup extensions on `CBPeripheral` and `CBService`: first element whose uuid matches. */
module CoreBluetoothLookups {
  import opened Wrappers
  import opened Platform
  import opened Sequences

  /** The filter predicate `{ $0.uuid == uid }` on services. */
  function ServiceHasUuid(uid: AttributeUuid): Service -> bool {
    (s: Service) => s.uuid == uid
  }

  /** The filter predicate `{ $0.uuid == uid }` on characteristics. */
  function CharacteristicHasUuid(uid: AttributeUuid): Characteristic -> bool {
    (c: Characteristic) => c.uuid == uid
  }

  /** `CBPeripheral.GetService`: the first discovered service with uuid `serviceUid`. */
  function GetService(p: Peripheral, serviceUid: AttributeUuid): (r: Option<Service>)
    ensures r.Some? ==> r.value.uuid == serviceUid && r.value in ServiceList(p)
    ensures r.None? <==> forall i :: 0 <= i < |ServiceList(p)| ==> ServiceList(p)[i].uuid != serviceUid
    ensures p.services.None? ==> r.None?
    ensures r == FirstWhere(ServiceList(p), ServiceHasUuid(serviceUid))
  {
    var matches := Filter(ServiceList(p), ServiceHasUuid(serviceUid));
    FilterFirstIsFirstWhere(ServiceList(p), ServiceHasUuid(serviceUid));
    First(matches)
  }

  /** `CBService.GetCharacteristic`: the first discovered characteristic with uuid `characteristicUid`. */
  function GetCharacteristic(s: Service, characteristicUid: AttributeUuid): (r: Option<Characteristic>)
    ensures r.Some? ==> r.value.uuid == characteristicUid && r.value in CharacteristicList(s)
    ensures r.None? <==> forall i :: 0 <= i < |CharacteristicList(s)| ==> CharacteristicList(s)[i].uuid != characteristicUid
    ensures r == FirstWhere(CharacteristicList(s), CharacteristicHasUuid(characteristicUid))
  {
    var matches := Filter(CharacteristicList(s), CharacteristicHasUuid(characteristicUid));
    FilterFirstIsFirstWhere(CharacteristicList(s), CharacteristicHasUuid(characteristicUid));
    First(matches)
  }

  /**
   * `CBService.GetMutableCharacteristic`: the first uuid match, cast to a mutable
   * characteristic. The cast is applied to the first match only.
   */
  function GetMutableCharacteristic(s: Service, characteristicUid: AttributeUuid): (r: Option<Characteristic>)
    ensures r.Some? ==> r.value.MutableCharacteristic? && r.value.uuid == characteristicUid
    ensures r.Some? ==> r.value in CharacteristicList(s)
    ensures r.Some? <==> GetCharacteristic(s, characteristicUid).Some? && GetCharacteristic(s, characteristicUid).value.MutableCharacteristic?
    ensures r.Some? ==> r == GetCharacteristic(s, characteristicUid)
  {
    var matches := Filter(CharacteristicList(s), CharacteristicHasUuid(characteristicUid));
    FilterFirstIsFirstWhere(CharacteristicList(s), CharacteristicHasUuid(characteristicUid));
    match First(matches)
    case Some(c) => if c.MutableCharacteristic? then Some(c) else None
    case None => None
  }

  /** The earliest characteristic whose uuid matches is the one `GetCharacteristic` returns. */
  lemma GetCharacteristicIsEarliest(s: Service, characteristicUid: AttributeUuid, i: nat)
    requires i < |CharacteristicList(s)| && CharacteristicList(s)[i].uuid == characteristicUid
    requires forall j :: 0 <= j < i ==> CharacteristicList(s)[j].uuid != characteristicUid
    ensures GetCharacteristic(s, characteristicUid) == Some(CharacteristicList(s)[i])
  {
    FirstWhereIsEarliest(CharacteristicList(s), CharacteristicHasUuid(characteristicUid), i);
  }

  /** The earliest service whose uuid matches is the one `GetService` returns. */
  lemma GetServiceIsEarliest(p: Peripheral, serviceUid: AttributeUuid, i: nat)
    requires i < |ServiceList(p)| && ServiceList(p)[i].uuid == serviceUid
    requires forall j :: 0 <= j < i ==> ServiceList(p)[j].uuid != serviceUid
    ensures GetService(p, serviceUid) == Some(ServiceList(p)[i])
  {
    FirstWhereIsEarliest(ServiceList(p), ServiceHasUuid(serviceUid), i);
  }

  /**
   * When the first characteristic with the uuid is not mutable, `GetMutableCharacteristic`
   * gives nil, whatever mutable characteristics with that uuid come later.
   */
  lemma MutableLookupStopsAtFirstMatch(s: Service, characteristicUid: AttributeUuid, i: nat)
    requires i < |CharacteristicList(s)| && CharacteristicList(s)[i].uuid == characteristicUid
    requires forall j :: 0 <= j < i ==> CharacteristicList(s)[j].uuid != characteristicUid
    requires !CharacteristicList(s)[i].MutableCharacteristic?
    ensures GetMutableCharacteristic(s, characteristicUid).None?
  {
    GetCharacteristicIsEarliest(s, characteristicUid, i);
  }
}
