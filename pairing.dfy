/** The pairing state of the main screen: the scanned items not yet paired,
    the pairs made so far and the item picked first, with the three events
    that change them (a scan result, a click on an item, a click on a pair's
    delete button). */
module Pairing {
  import opened Wrappers
  import opened Items
  import opened Lists
  import opened Json
  import Export

  /** The result code of an activity that finished successfully. */
  const ResultOk: int := -1

  /** The decision the scan-result callback takes: an item is made only from
      a successful capture that carries both a photo and a decoded value. */
  function ScanFilter(resultCode: int, imageUri: Option<Uri>, qrCodeValue: Option<string>): (r: Option<QRItem>)
    ensures r.Some? <==> resultCode == ResultOk && imageUri.Some? && qrCodeValue.Some?
    ensures r.Some? ==> r.value.uri == imageUri.value && r.value.value == qrCodeValue.value
  {
    if resultCode == ResultOk && imageUri.Some? && qrCodeValue.Some? then
      Some(QRItem(imageUri.value, qrCodeValue.value))
    else
      None
  }

  class PairingState {
    var allScans: seq<QRItem>
    var pairs: seq<seq<QRItem>>
    var selected: Option<QRItem>

    /** Every pair holds exactly two items. */
    ghost predicate Valid()
      reads this
    {
      forall p :: p in pairs ==> |p| == 2
    }

    constructor ()
      ensures Valid()
      ensures allScans == [] && pairs == [] && selected == None
    {
      allScans := [];
      pairs := [];
      selected := None;
    }

    /** The scan-result callback: appends the new item when the filter lets
        it through, and changes nothing else. */
    method OnScanResult(resultCode: int, imageUri: Option<Uri>, qrCodeValue: Option<string>)
      requires Valid()
      modifies this
      ensures Valid()
      ensures resultCode == ResultOk && imageUri.Some? && qrCodeValue.Some? ==>
                allScans == old(allScans) + [QRItem(imageUri.value, qrCodeValue.value)]
      ensures !(resultCode == ResultOk && imageUri.Some? && qrCodeValue.Some?) ==>
                allScans == old(allScans)
      ensures pairs == old(pairs) && selected == old(selected)
    {
      match ScanFilter(resultCode, imageUri, qrCodeValue)
      case Some(item) =>
        allScans := allScans + [item];
      case None =>
    }

    /** A click on a scanned item. The first click only remembers the item,
        which stays among the scans. The second one appends the pair
        (first, second), removes every scan equal to either of them, and
        forgets the first. */
    method OnSelect(item: QRItem)
      requires Valid()
      modifies this
      ensures Valid()
      ensures old(selected).None? ==>
                selected == Some(item) && allScans == old(allScans) && pairs == old(pairs)
      ensures old(selected).Some? ==>
                pairs == old(pairs) + [[old(selected).value, item]] &&
                allScans == RemoveAll(old(allScans), [old(selected).value, item]) &&
                selected == None
      ensures old(selected).Some? ==>
                old(selected).value !in allScans && item !in allScans &&
                forall x :: x in old(allScans) && x != old(selected).value && x != item ==> x in allScans
      ensures old(selected).Some? && old(selected).value != item &&
              multiset(old(allScans))[old(selected).value] == 1 && multiset(old(allScans))[item] == 1 ==>
                |allScans| + 2 * |pairs| == |old(allScans)| + 2 * |old(pairs)|
    {
      match selected
      case None =>
        selected := Some(item);
      case Some(first) =>
        pairs := pairs + [[first, item]];
        RemoveAllTwoDistinct(allScans, first, item);
        allScans := RemoveAll(allScans, [first, item]);
        selected := None;
    }

    /** A click on a pair's delete button: the first pair equal to `pair`
        goes, and the pair's items are appended to the scans whether or not
        it was found. */
    method OnDeletePair(pair: seq<QRItem>)
      requires Valid()
      modifies this
      ensures Valid()
      ensures pairs == RemoveFirst(old(pairs), pair)
      ensures pair in old(pairs) ==> |pairs| == |old(pairs)| - 1
      ensures allScans == old(allScans) + pair
      ensures selected == old(selected)
    {
      RemoveFirstKeeps(pairs, pair);
      pairs := RemoveFirst(pairs, pair);
      allScans := allScans + pair;
    }

    /** The text first offered in the send dialog: the task object around the
        exported pairs. Since every pair holds two items, every row of the
        solution is an array of two strings. */
    method DefaultExport() returns (payload: Value)
      requires Valid()
      ensures payload == Export.CreateJsonObject(JArray(Export.SolutionArray(pairs)))
      ensures payload.members["solution"].JArray?
      ensures |payload.members["solution"].elems| == |pairs|
      ensures forall row :: row in payload.members["solution"].elems ==>
                row.JArray? && |row.elems| == 2 && row.elems[0].JString? && row.elems[1].JString?
    {
      var solution := Export.ToJsonArray(pairs);
      payload := Export.CreateJsonObject(solution);
    }
  }
}
