/**
 * Identification of the SpaceMouse among the enumerated HID devices
 * (the search at the top of `SpaceMouseThread.run` in spacemouse_plugin.py).
 *
 * A descriptor matches when its lower-cased manufacturer string contains
 * "3dconnex", or its lower-cased product string contains "space", or its
 * vendor id is one of the known vendor ids AND its product id is one of the
 * known product ids. The two id lists are tested separately: any listed
 * vendor with any listed product matches. The first match in enumeration
 * order wins.
 */
module DeviceLocator {
  import opened Wrappers

  /** What the HID enumeration reports about one attached device. */
  datatype Descriptor = Descriptor(
    vendorId: int,
    productId: int,
    productString: string,
    manufacturerString: string)

  /** 3Dconnexion (newer devices) and Logitech/3Dconnexion (older devices). */
  const VendorIds: seq<int> := [0x256f, 0x046d]

  /** Known SpaceMouse product ids of both vendors, as one list. */
  const ProductIds: seq<int> := [
    0xc62e, 0xc62f, 0xc631, 0xc632, 0xc633, 0xc635, 0xc636, 0xc640,
    0xc603, 0xc605, 0xc606, 0xc621, 0xc623, 0xc625, 0xc626, 0xc627,
    0xc628, 0xc629, 0xc62b, 0xc62e, 0xc62f, 0xc631, 0xc632, 0xc633]

  const ManufacturerKey: string := "3dconnex"
  const ProductKey: string := "space"

  /** ASCII lower-casing of one character. */
  function LowerChar(c: char): (l: char)
    ensures 'A' <= c <= 'Z' ==> 'a' <= l <= 'z' && l as int - c as int == 32
    ensures !('A' <= c <= 'Z') ==> l == c
  {
    if 'A' <= c <= 'Z' then (c as int + 32) as char else c
  }

  /** ASCII lower-casing of a string, character by character. */
  function Lower(s: string): (l: string)
    ensures |l| == |s|
    ensures forall i :: 0 <= i < |s| ==> l[i] == LowerChar(s[i])
  {
    seq(|s|, i requires 0 <= i < |s| => LowerChar(s[i]))
  }

  /** `sub` occurs in `s` starting at index `i`. */
  predicate OccursAt(s: string, sub: string, i: int)
  {
    0 <= i <= |s| - |sub| && s[i..i + |sub|] == sub
  }

  /** Python's substring test `sub in s`. */
  predicate Contains(s: string, sub: string)
  {
    exists i | 0 <= i <= |s| - |sub| :: OccursAt(s, sub, i)
  }

  /** The three-way test of the search loop. */
  predicate IsSpaceMouse(d: Descriptor)
  {
    || Contains(Lower(d.manufacturerString), ManufacturerKey)
    || Contains(Lower(d.productString), ProductKey)
    || (d.vendorId in VendorIds && d.productId in ProductIds)
  }

  /** Index of the first matching descriptor at or after `from`. */
  function FirstMatchFrom(devices: seq<Descriptor>, from: nat): (r: Option<nat>)
    requires from <= |devices|
    ensures r.Some? ==> from <= r.value < |devices| && IsSpaceMouse(devices[r.value])
    ensures r.Some? ==> forall j :: from <= j < r.value ==> !IsSpaceMouse(devices[j])
    ensures r.None? <==> forall j :: from <= j < |devices| ==> !IsSpaceMouse(devices[j])
    decreases |devices| - from
  {
    if from == |devices| then None
    else if IsSpaceMouse(devices[from]) then Some(from)
    else FirstMatchFrom(devices, from + 1)
  }

  /** The descriptor the search settles on, if any. */
  function Locate(devices: seq<Descriptor>): Option<Descriptor>
  {
    match FirstMatchFrom(devices, 0)
    case Some(k) => Some(devices[k])
    case None => None
  }

  /** The search loop: scan in order and stop at the first match. */
  method FindDevice(devices: seq<Descriptor>) returns (found: Option<Descriptor>)
    ensures found == Locate(devices)
  {
    found := None;
    for i := 0 to |devices|
      invariant found == None
      invariant FirstMatchFrom(devices, 0) == FirstMatchFrom(devices, i)
    {
      if IsSpaceMouse(devices[i]) {
        found := Some(devices[i]);
        break;
      }
    }
  }

  /** The located descriptor is the first match in enumeration order; none means no match. */
  lemma LocateIsFirstMatch(devices: seq<Descriptor>)
    ensures Locate(devices).Some? ==>
      exists k :: 0 <= k < |devices| && devices[k] == Locate(devices).value && IsSpaceMouse(devices[k])
        && forall j :: 0 <= j < k ==> !IsSpaceMouse(devices[j])
    ensures Locate(devices).None? <==> forall j :: 0 <= j < |devices| ==> !IsSpaceMouse(devices[j])
  {
  }

  /** A matching descriptor placed before the rest of the enumeration is the one located. */
  lemma LocateFirstWins(d: Descriptor, rest: seq<Descriptor>)
    requires IsSpaceMouse(d)
    ensures Locate([d] + rest) == Some(d)
  {
  }

  /** Lower-casing a slice is slicing the lower-cased string. */
  lemma LowerSlice(s: string, i: nat, j: nat)
    requires i <= j <= |s|
    ensures Lower(s)[i..j] == Lower(s[i..j])
  {
  }

  /**
   * The manufacturer test ignores letter case: any stretch of the string that
   * lower-cases to "3dconnex", in any mixture of cases, makes the descriptor match.
   */
  lemma ManufacturerMatchIgnoresCase(d: Descriptor, i: nat)
    requires i + |ManufacturerKey| <= |d.manufacturerString|
    requires Lower(d.manufacturerString[i..i + |ManufacturerKey|]) == ManufacturerKey
    ensures IsSpaceMouse(d)
  {
    LowerSlice(d.manufacturerString, i, i + |ManufacturerKey|);
    assert OccursAt(Lower(d.manufacturerString), ManufacturerKey, i);
  }

  /** Likewise for the product test and "space". */
  lemma ProductMatchIgnoresCase(d: Descriptor, i: nat)
    requires i + |ProductKey| <= |d.productString|
    requires Lower(d.productString[i..i + |ProductKey|]) == ProductKey
    ensures IsSpaceMouse(d)
  {
    LowerSlice(d.productString, i, i + |ProductKey|);
    assert OccursAt(Lower(d.productString), ProductKey, i);
  }

  /** The manufacturer name as the device reports it, in mixed case, matches. */
  lemma MixedCaseManufacturerMatches(vid: int, pid: int)
    ensures IsSpaceMouse(Descriptor(vid, pid, "", "3DConnexion"))
  {
    assert OccursAt(Lower("3DConnexion"), ManufacturerKey, 0);
  }

  /** A product name as the device reports it, in mixed case, matches. */
  lemma MixedCaseProductMatches(vid: int, pid: int)
    ensures IsSpaceMouse(Descriptor(vid, pid, "SpaceMouse Compact", ""))
  {
    assert OccursAt(Lower("SpaceMouse Compact"), ProductKey, 0);
  }

  /**
   * The id lists are independent: a 3Dconnexion vendor id with a product id
   * that is only listed for the Logitech vendor still matches.
   */
  lemma IdListsAreIndependent()
    ensures IsSpaceMouse(Descriptor(0x256f, 0xc603, "", ""))
  {
  }

  /** A descriptor with no matching strings and an unlisted vendor is not matched. */
  lemma UnlistedVendorNotMatched(pid: int)
    ensures !IsSpaceMouse(Descriptor(0x1234, pid, "", ""))
  {
  }
}
