/**
 * Identity resolver: vendor and device names looked up in the two static
 * tables (`PciVenTable`, `PciDevTable`), whose contents are parameters here.
 * A linear scan, first match wins; a miss is `None` (the C code's NULL).
 */
module Identity {
  import opened Wrappers

  datatype VendorEntry = VendorEntry(vendorId: bv32, name: string)
  datatype DeviceEntry = DeviceEntry(deviceId: bv32, vendorId: bv32, name: string)

  /** The name of the first vendor entry with the given identifier. */
  function VendorName(table: seq<VendorEntry>, vendorId: bv32): Option<string>
  {
    if table == [] then None
    else if table[0].vendorId == vendorId then Some(table[0].name)
    else VendorName(table[1..], vendorId)
  }

  /** The name of the first device entry matching both identifiers. */
  function DeviceName(table: seq<DeviceEntry>, deviceId: bv32, vendorId: bv32): Option<string>
  {
    if table == [] then None
    else if table[0].deviceId == deviceId && table[0].vendorId == vendorId then Some(table[0].name)
    else DeviceName(table[1..], deviceId, vendorId)
  }

  /** `VendorName` finds the first matching entry, and finds nothing only when no entry matches. */
  lemma {:induction false} VendorNameFirstMatch(table: seq<VendorEntry>, vendorId: bv32)
    ensures VendorName(table, vendorId).None? <==> forall i :: 0 <= i < |table| ==> table[i].vendorId != vendorId
    ensures VendorName(table, vendorId).Some? ==>
      exists i :: 0 <= i < |table| && table[i].vendorId == vendorId && VendorName(table, vendorId).value == table[i].name
               && forall j :: 0 <= j < i ==> table[j].vendorId != vendorId
  {
    if table != [] && table[0].vendorId != vendorId {
      VendorNameFirstMatch(table[1..], vendorId);
      if VendorName(table[1..], vendorId).Some? {
        var i :| 0 <= i < |table[1..]| && table[1..][i].vendorId == vendorId
                 && VendorName(table[1..], vendorId).value == table[1..][i].name
                 && forall j :: 0 <= j < i ==> table[1..][j].vendorId != vendorId;
        assert table[i + 1] == table[1..][i];
        assert forall j :: 0 <= j < i + 1 ==> table[j].vendorId != vendorId by {
          forall j | 0 <= j < i + 1 ensures table[j].vendorId != vendorId {
            if j > 0 { assert table[j] == table[1..][j - 1]; }
          }
        }
      } else {
        forall i | 0 <= i < |table| ensures table[i].vendorId != vendorId {
          if i > 0 { assert table[i] == table[1..][i - 1]; }
        }
      }
    } else if table != [] {
      assert table[0].vendorId == vendorId;
    }
  }

  /** `DeviceName` finds the first entry matching on both identifiers, and nothing only when none does. */
  lemma {:induction false} DeviceNameFirstMatch(table: seq<DeviceEntry>, deviceId: bv32, vendorId: bv32)
    ensures DeviceName(table, deviceId, vendorId).None? <==>
      forall i :: 0 <= i < |table| ==> !(table[i].deviceId == deviceId && table[i].vendorId == vendorId)
    ensures DeviceName(table, deviceId, vendorId).Some? ==>
      exists i :: 0 <= i < |table| && table[i].deviceId == deviceId && table[i].vendorId == vendorId
               && DeviceName(table, deviceId, vendorId).value == table[i].name
               && forall j :: 0 <= j < i ==> !(table[j].deviceId == deviceId && table[j].vendorId == vendorId)
  {
    if table != [] && !(table[0].deviceId == deviceId && table[0].vendorId == vendorId) {
      DeviceNameFirstMatch(table[1..], deviceId, vendorId);
      if DeviceName(table[1..], deviceId, vendorId).Some? {
        var i :| 0 <= i < |table[1..]| && table[1..][i].deviceId == deviceId && table[1..][i].vendorId == vendorId
                 && DeviceName(table[1..], deviceId, vendorId).value == table[1..][i].name
                 && forall j :: 0 <= j < i ==> !(table[1..][j].deviceId == deviceId && table[1..][j].vendorId == vendorId);
        assert table[i + 1] == table[1..][i];
        assert forall j :: 0 <= j < i + 1 ==> !(table[j].deviceId == deviceId && table[j].vendorId == vendorId) by {
          forall j | 0 <= j < i + 1 ensures !(table[j].deviceId == deviceId && table[j].vendorId == vendorId) {
            if j > 0 { assert table[j] == table[1..][j - 1]; }
          }
        }
      } else {
        forall i | 0 <= i < |table| ensures !(table[i].deviceId == deviceId && table[i].vendorId == vendorId) {
          if i > 0 { assert table[i] == table[1..][i - 1]; }
        }
      }
    } else if table != [] {
      assert table[0].deviceId == deviceId && table[0].vendorId == vendorId;
    }
  }

  /** `extractVendorName`: index loop with early return. */
  method FindVendorName(table: seq<VendorEntry>, vendorId: bv32) returns (name: Option<string>)
    ensures name == VendorName(table, vendorId)
  {
    var i := 0;
    while i < |table|
      invariant 0 <= i <= |table|
      invariant VendorName(table[i..], vendorId) == VendorName(table, vendorId)
    {
      assert table[i..][1..] == table[i + 1..];
      if table[i].vendorId == vendorId {
        return Some(table[i].name);
      }
      i := i + 1;
    }
    return None;
  }

  /** `extractDeviceName`: index loop with early return, matching on both identifiers. */
  method FindDeviceName(table: seq<DeviceEntry>, deviceId: bv32, vendorId: bv32) returns (name: Option<string>)
    ensures name == DeviceName(table, deviceId, vendorId)
  {
    var i := 0;
    while i < |table|
      invariant 0 <= i <= |table|
      invariant DeviceName(table[i..], deviceId, vendorId) == DeviceName(table, deviceId, vendorId)
    {
      assert table[i..][1..] == table[i + 1..];
      if table[i].deviceId == deviceId && table[i].vendorId == vendorId {
        return Some(table[i].name);
      }
      i := i + 1;
    }
    return None;
  }
}
