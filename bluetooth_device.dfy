/**
 * `BluetoothDevice`: the central role's snapshot of one discovered peripheral, the
 * device table it lives in, and the name order the table is listed in.
 */
module BluetoothDevices {
  import opened Platform

  /** A discovered device. Swift compares devices for equality by `deviceUid` only. */
  datatype Device = Device(deviceUid: Uuid, name: string, state: PeripheralState, services: seq<Service>)

  /** The three colours `debugColour` uses. */
  datatype Colour = Yellow | Green | Clear

  /** `debugColour`: yellow while connecting, green once connected, clear otherwise. */
  function DebugColour(d: Device): (c: Colour)
    ensures c == Yellow <==> d.state == Connecting
    ensures c == Green <==> d.state == Connected
    ensures c == Clear <==> d.state == Disconnected || d.state == Disconnecting
  {
    var isConnected := d.state == Connected;
    var isConnecting := d.state == Connecting;
    if isConnecting then Yellow
    else if isConnected then Green
    else Clear
  }

  /** The display name: the advertised name if there is one, else the identifier's string form. */
  function DeviceName(p: Peripheral): (name: string)
    ensures p.name.Some? ==> name == p.name.value
    ensures p.name.None? ==> name == p.identifier.uuidString
  {
    p.name.GetOr(p.identifier.uuidString)
  }

  /** The device record `updateDeviceState` builds from a peripheral. */
  function DeviceOf(p: Peripheral): (d: Device)
    ensures d.deviceUid == p.identifier && d.state == p.state
    ensures p.name.Some? ==> d.name == p.name.value
    ensures p.name.None? ==> d.name == p.identifier.uuidString
    ensures p.services.Some? ==> d.services == p.services.value
    ensures p.services.None? ==> d.services == []
  {
    Device(p.identifier, DeviceName(p), p.state, ServiceList(p))
  }

  // ---- the device table: a Swift Set whose element equality is equality of ids ----

  /** No two devices of the table share an id, as in a Swift set whose `==` compares ids. */
  ghost predicate UniqueIds(s: set<Device>) {
    forall a, b :: a in s && b in s && a.deviceUid == b.deviceUid ==> a == b
  }

  /** The ids present in the table. */
  function Ids(s: set<Device>): set<Uuid> {
    set d | d in s :: d.deviceUid
  }

  /**
   * `Set.update(with:)`: inserts `d`, replacing the member equal to it (same id) if
   * there is one.
   */
  function Update(s: set<Device>, d: Device): (r: set<Device>)
    ensures d in r
    ensures forall x :: x in r && x.deviceUid == d.deviceUid ==> x == d
    ensures forall x: Device :: x.deviceUid != d.deviceUid ==> (x in r <==> x in s)
    ensures Ids(r) == Ids(s) + {d.deviceUid}
  {
    var r := (set x | x in s && x.deviceUid != d.deviceUid) + {d};
    assert forall u :: u in Ids(s) + {d.deviceUid} ==> u in Ids(r) by {
      forall u | u in Ids(s) + {d.deviceUid} ensures u in Ids(r) {
        if u != d.deviceUid {
          var x :| x in s && x.deviceUid == u;
          assert x in r;
        }
      }
    }
    r
  }

  /** Updating keeps ids unique. */
  lemma UpdateKeepsIdsUnique(s: set<Device>, d: Device)
    requires UniqueIds(s)
    ensures UniqueIds(Update(s, d))
  {
  }

  /** Updating replaces rather than grows: the table grows by one exactly when the id is new. */
  lemma UpdateSize(s: set<Device>, d: Device)
    requires UniqueIds(s)
    ensures d.deviceUid in Ids(s) ==> |Update(s, d)| == |s|
    ensures d.deviceUid !in Ids(s) ==> |Update(s, d)| == |s| + 1
  {
    var rest := set x | x in s && x.deviceUid != d.deviceUid;
    assert Update(s, d) == rest + {d};
    assert d !in rest;
    if d.deviceUid in Ids(s) {
      var prev :| prev in s && prev.deviceUid == d.deviceUid;
      assert rest == s - {prev} by {
        forall x | x in s - {prev} ensures x in rest {
          assert x.deviceUid != d.deviceUid;
        }
      }
    } else {
      assert rest == s;
    }
  }

  /** Of two updates for the same id, only the later one's snapshot remains. */
  lemma UpdateTwiceKeepsLatest(s: set<Device>, first: Device, latest: Device)
    requires first.deviceUid == latest.deviceUid
    ensures Update(Update(s, first), latest) == Update(s, latest)
  {
  }

  // ---- the name order `<` and the sort behind `devices` ----

  /** Swift's `String <`, taken as lexicographic order on characters. */
  predicate NameLess(a: string, b: string)
    ensures NameLess(a, b) ==> a != b
  {
    if |b| == 0 then false
    else if |a| == 0 then true
    else if a[0] != b[0] then a[0] < b[0]
    else NameLess(a[1..], b[1..])
  }

  /** `BluetoothDevice <`: compares names only. */
  predicate Less(a: Device, b: Device)
    ensures Less(a, b) ==> a.name != b.name
  {
    NameLess(a.name, b.name)
  }

  /** Lexicographic order spelled out: a proper prefix, or equal up to a first smaller character. */
  ghost predicate Lexicographic(a: string, b: string) {
    (|a| < |b| && a == b[..|a|]) ||
    exists k :: 0 <= k < |a| && k < |b| && a[..k] == b[..k] && a[k] < b[k]
  }

  /** `NameLess` is exactly lexicographic order. */
  lemma {:induction false} NameLessIsLexicographic(a: string, b: string)
    ensures NameLess(a, b) <==> Lexicographic(a, b)
  {
    if |b| == 0 {
    } else if |a| == 0 {
      assert a == b[..0];
    } else if a[0] != b[0] {
      if a[0] < b[0] {
        assert a[..0] == b[..0];
      }
      if |a| <= |b| {
        assert b[..|a|][0] == b[0];
      }
      forall k | 0 < k < |a| && k < |b| ensures a[..k] != b[..k] {
        assert a[..k][0] == a[0] && b[..k][0] == b[0];
      }
    } else {
      var a', b' := a[1..], b[1..];
      NameLessIsLexicographic(a', b');
      if Lexicographic(a', b') {
        if |a'| < |b'| && a' == b'[..|a'|] {
          assert a == [a[0]] + a' && b[..|a|] == [b[0]] + b'[..|a'|];
        } else {
          var k :| 0 <= k < |a'| && k < |b'| && a'[..k] == b'[..k] && a'[k] < b'[k];
          assert a[..k + 1] == [a[0]] + a'[..k] && b[..k + 1] == [b[0]] + b'[..k];
        }
      }
      if Lexicographic(a, b) {
        if |a| < |b| && a == b[..|a|] {
          assert a' == b'[..|a'|];
        } else {
          var k :| 0 <= k < |a| && k < |b| && a[..k] == b[..k] && a[k] < b[k];
          assert k > 0;
          assert a'[..k - 1] == a[..k][1..] && b'[..k - 1] == b[..k][1..];
        }
      }
    }
  }

  /** `<` on names is asymmetric. */
  lemma {:induction false} NameLessAsymmetric(a: string, b: string)
    requires NameLess(a, b)
    ensures !NameLess(b, a)
  {
    if |a| > 0 && a[0] == b[0] {
      NameLessAsymmetric(a[1..], b[1..]);
    }
  }

  /** "Not less than" on names is transitive; with asymmetry this makes `<` a strict weak order. */
  lemma {:induction false} NameNotLessTransitive(a: string, b: string, c: string)
    requires !NameLess(b, a) && !NameLess(c, b)
    ensures !NameLess(c, a)
  {
    if |a| > 0 && |b| > 0 && |c| > 0 && a[0] == b[0] && b[0] == c[0] {
      NameNotLessTransitive(a[1..], b[1..], c[1..]);
    }
  }

  /** What `sorted()` promises: no element is less than one before it. */
  predicate SortedByName(ds: seq<Device>) {
    forall i, j :: 0 <= i < j < |ds| ==> !Less(ds[j], ds[i])
  }

  /** Inserts `d` before the first element that is not less than it. */
  function Insert(d: Device, ds: seq<Device>): (r: seq<Device>)
    ensures multiset(r) == multiset(ds) + multiset{d}
  {
    if ds == [] || !Less(ds[0], d) then [d] + ds
    else
      assert ds == [ds[0]] + ds[1..];
      [ds[0]] + Insert(d, ds[1..])
  }

  /** `Array(...).sorted()` on devices: insertion sort by name, a permutation of its input. */
  function SortByName(ds: seq<Device>): (r: seq<Device>)
    ensures multiset(r) == multiset(ds)
  {
    if ds == [] then []
    else
      assert ds == [ds[0]] + ds[1..];
      Insert(ds[0], SortByName(ds[1..]))
  }

  /** No element of `ts` is less than `x`. */
  predicate NoneLessThan(x: Device, ts: seq<Device>) {
    forall j :: 0 <= j < |ts| ==> !Less(ts[j], x)
  }

  /** A sorted list stays sorted under a head that no element is less than. */
  lemma PrependSorted(x: Device, ts: seq<Device>)
    requires SortedByName(ts) && NoneLessThan(x, ts)
    ensures SortedByName([x] + ts)
  {
    var r := [x] + ts;
    forall i, j | 0 <= i < j < |r| ensures !Less(r[j], r[i]) {
      if i == 0 {
        assert r[j] == ts[j - 1];
      } else {
        assert r[i] == ts[i - 1] && r[j] == ts[j - 1];
      }
    }
  }

  /** In a sorted list, nothing is less than a device the head is not less than. */
  lemma SortedNoneLessThan(d: Device, ds: seq<Device>)
    requires SortedByName(ds) && ds != [] && !Less(ds[0], d)
    ensures NoneLessThan(d, ds)
  {
    forall j | 0 <= j < |ds| ensures !Less(ds[j], d) {
      if j > 0 {
        NameNotLessTransitive(d.name, ds[0].name, ds[j].name);
      }
    }
  }

  /** What holds of every element of `ds` and of `d` holds of every element of `Insert(d, ds)`. */
  lemma InsertNoneLessThan(x: Device, d: Device, ds: seq<Device>)
    requires NoneLessThan(x, ds) && !Less(d, x)
    ensures NoneLessThan(x, Insert(d, ds))
  {
    var r := Insert(d, ds);
    forall j | 0 <= j < |r| ensures !Less(r[j], x) {
      assert r[j] in multiset(ds) + multiset{d};
      if r[j] != d {
        assert r[j] in ds;
      }
    }
  }

  /** Insertion keeps a name-sorted list sorted. */
  lemma {:induction false} InsertSorted(d: Device, ds: seq<Device>)
    requires SortedByName(ds)
    ensures SortedByName(Insert(d, ds))
  {
    if ds == [] {
    } else if !Less(ds[0], d) {
      SortedNoneLessThan(d, ds);
      PrependSorted(d, ds);
    } else {
      var tail := ds[1..];
      assert SortedByName(tail);
      InsertSorted(d, tail);
      assert NoneLessThan(ds[0], tail) by {
        forall j | 0 <= j < |tail| ensures !Less(tail[j], ds[0]) {
          assert tail[j] == ds[j + 1];
        }
      }
      NameLessAsymmetric(ds[0].name, d.name);
      InsertNoneLessThan(ds[0], d, tail);
      PrependSorted(ds[0], Insert(d, tail));
    }
  }

  /** The sort yields a list sorted ascending by name. */
  lemma {:induction false} SortByNameSorted(ds: seq<Device>)
    ensures SortedByName(SortByName(ds))
  {
    if ds != [] {
      SortByNameSorted(ds[1..]);
      InsertSorted(ds[0], SortByName(ds[1..]));
    }
  }
}
