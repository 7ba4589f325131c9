/**
 * The device-target dropdowns of the servo and DAC panels: the zero-padded ids
 * offered for the current device total, and the repair of a dropdown's
 * selection whenever the list is rebuilt.
 */
module DeviceLists {
  import opened Text

  /** The ids "001", "002", ... up to n. */
  function IdsUpTo(n: nat): (ids: seq<string>)
    ensures |ids| == n
    ensures forall i :: 0 <= i < n ==> ids[i] == Pad3(i + 1)
  {
    if n == 0 then [] else IdsUpTo(n - 1) + [Pad3(n)]
  }

  /** The ids a dropdown offers for a device total: one per device, or the single
      id "001" when no device is known. */
  function DeviceIds(total: nat): seq<string> {
    if total > 0 then IdsUpTo(total) else ["001"]
  }

  /** A dropdown: the values it offers and the value it shows. */
  datatype Picker = Picker(values: seq<string>, selection: string)

  /** The shown value is one of the offered values. */
  predicate Consistent(p: Picker) {
    p.selection in p.values
  }

  /** The state a dropdown starts in, and is reset to when no device is known. */
  const Initial: Picker := Picker(["001"], "001")

  /** Rebuilding a dropdown for a device total: the values become the ids for that
      total; the selection is kept when it is still offered and otherwise moves to
      the first id. */
  function Rebuilt(p: Picker, total: nat): (q: Picker)
    ensures q.values == DeviceIds(total) && Consistent(q)
    ensures p.selection in q.values ==> q.selection == p.selection
    ensures p.selection !in q.values ==> q.selection == q.values[0]
  {
    if total > 0 then
      var ids := IdsUpTo(total);
      assert ids[0] in ids;
      Picker(ids, if p.selection in ids then p.selection else ids[0])
    else
      Picker(["001"], "001")
  }

  lemma Pad3One()
    ensures Pad3(1) == "001"
  {
    assert NatToString(1) == "1";
  }

  /** With no device known the dropdown offers exactly what it offers for one device. */
  lemma NoDevicesLikeOne()
    ensures DeviceIds(0) == DeviceIds(1)
  {
    Pad3One();
  }

  /** The offered ids are distinct numerals of at least three digits, and the i-th
      reads back as device number i + 1. */
  lemma DeviceIdsNumbered(total: nat)
    ensures var ids := DeviceIds(total);
            forall i :: 0 <= i < |ids| ==> AllDigits(ids[i]) && |ids[i]| >= 3 && DigitsToNat(ids[i]) == i + 1
    ensures var ids := DeviceIds(total);
            forall i, j :: 0 <= i < j < |ids| ==> ids[i] != ids[j]
  {
    var ids := DeviceIds(total);
    Pad3One();
    forall i | 0 <= i < |ids| ensures AllDigits(ids[i]) && |ids[i]| >= 3 && DigitsToNat(ids[i]) == i + 1 {
      Pad3RoundTrip(i + 1);
    }
  }

  /** Rebuilding twice for the same total is rebuilding once. */
  lemma RebuiltIdempotent(p: Picker, total: nat)
    ensures Rebuilt(Rebuilt(p, total), total) == Rebuilt(p, total)
  {
  }

  /** A selection that is still offered survives a rebuild for a larger total. */
  lemma RebuiltKeepsLowerIds(p: Picker, total: nat, larger: nat)
    requires total <= larger && p.selection in DeviceIds(total) && total > 0
    ensures Rebuilt(p, larger).selection == p.selection
  {
    var k :| 0 <= k < total && DeviceIds(total)[k] == p.selection;
    assert DeviceIds(larger)[k] == p.selection;
  }
}
