/** Clients of the pairing state: whole event sequences and what they leave
    behind, proved from the contracts of the three events and the lemmas
    about `RemoveAll` and `RemoveFirst` (and, for the export, the contracts
    of `PairArray` and `SolutionArray`). */
module Scenarios {
  import opened Wrappers
  import opened Items
  import opened Lists
  import opened Json
  import opened Pairing

  /** When nothing is selected and no pair equal to [a, b] exists yet,
      pairing two different items that occur once each and deleting the pair
      again returns the board to its earlier pairs, with the same scans, the
      two items now at the end. */
  method PairThenDelete(g: PairingState, a: QRItem, b: QRItem)
    requires g.Valid() && g.selected == None
    requires a != b && multiset(g.allScans)[a] == 1 && multiset(g.allScans)[b] == 1
    requires [a, b] !in g.pairs
    modifies g
    ensures g.Valid() && g.selected == None
    ensures g.pairs == old(g.pairs)
    ensures g.allScans == RemoveAll(old(g.allScans), [a, b]) + [a, b]
    ensures multiset(g.allScans) == multiset(old(g.allScans))
  {
    g.OnSelect(a);
    g.OnSelect(b);
    RemoveFirstOfAppended(old(g.pairs), [a, b]);
    RemoveAllTwoDistinct(old(g.allScans), a, b);
    g.OnDeletePair([a, b]);
  }

  /** Two scans "A" and "B", selected in that order, export as
      {"task": "Memory", "solution": [["A", "B"]]}. */
  method ScanPairExport(photoA: Uri, photoB: Uri) returns (payload: Value)
    ensures payload == JObject(map["task" := JString("Memory"),
                                   "solution" := JArray([JArray([JString("A"), JString("B")])])])
  {
    var g := new PairingState();
    g.OnScanResult(ResultOk, Some(photoA), Some("A"));
    g.OnScanResult(ResultOk, Some(photoB), Some("B"));
    var a, b := QRItem(photoA, "A"), QRItem(photoB, "B");
    assert g.allScans == [a, b] + [];
    PairFirstTwo(g, a, b, []);
    assert Export.PairArray([a, b]) == [JString("A"), JString("B")];
    assert Export.SolutionArray(g.pairs) == [JArray([JString("A"), JString("B")])];
    payload := g.DefaultExport();
  }

  /** Four scans paired as (A, B) and (C, D); deleting (A, B) leaves the scans
      [A, B] and the pairs [(C, D)]. */
  method DeleteOneOfTwoPairs(photo: Uri) returns (scans: seq<QRItem>, pairs: seq<seq<QRItem>>)
    ensures scans == [QRItem(photo, "A"), QRItem(photo, "B")]
    ensures pairs == [[QRItem(photo, "C"), QRItem(photo, "D")]]
  {
    var a, b, c, d := QRItem(photo, "A"), QRItem(photo, "B"), QRItem(photo, "C"), QRItem(photo, "D");
    var g := new PairingState();
    g.OnScanResult(ResultOk, Some(photo), Some("A"));
    g.OnScanResult(ResultOk, Some(photo), Some("B"));
    g.OnScanResult(ResultOk, Some(photo), Some("C"));
    g.OnScanResult(ResultOk, Some(photo), Some("D"));
    assert g.allScans == [a, b] + [c, d];
    PairFirstTwo(g, a, b, [c, d]);
    assert g.allScans == [c, d] + [];
    PairFirstTwo(g, c, d, []);
    g.OnDeletePair([a, b]);
    scans, pairs := g.allScans, g.pairs;
  }

  /** A cancelled capture, one without a photo URI, or one without a decoded
      value adds nothing. */
  method IncompleteScansAddNothing(photo: Uri, resultCode: int) returns (scans: seq<QRItem>)
    requires resultCode != ResultOk
    ensures scans == []
  {
    var g := new PairingState();
    g.OnScanResult(resultCode, Some(photo), Some("A"));
    g.OnScanResult(ResultOk, None, Some("A"));
    g.OnScanResult(ResultOk, Some(photo), None);
    scans := g.allScans;
  }

  /** Clicking the same item twice pairs it with itself and removes it from
      the scans. */
  method SelectSameItemTwice(photo: Uri) returns (scans: seq<QRItem>, pairs: seq<seq<QRItem>>)
    ensures scans == [] && pairs == [[QRItem(photo, "A"), QRItem(photo, "A")]]
  {
    var a := QRItem(photo, "A");
    var g := new PairingState();
    g.OnScanResult(ResultOk, Some(photo), Some("A"));
    g.OnSelect(a);
    assert g.allScans == [a];
    g.OnSelect(a);
    scans, pairs := g.allScans, g.pairs;
  }

  /** Deleting the same pair twice is not idempotent: the second delete finds
      no pair, yet appends the two items once more. */
  method DeletePairTwice(photo: Uri) returns (scans: seq<QRItem>, pairs: seq<seq<QRItem>>)
    ensures pairs == []
    ensures scans == [QRItem(photo, "A"), QRItem(photo, "B"), QRItem(photo, "A"), QRItem(photo, "B")]
  {
    var a, b := QRItem(photo, "A"), QRItem(photo, "B");
    var g := new PairingState();
    g.OnScanResult(ResultOk, Some(photo), Some("A"));
    g.OnScanResult(ResultOk, Some(photo), Some("B"));
    assert g.allScans == [a, b] + [];
    PairFirstTwo(g, a, b, []);
    g.OnDeletePair([a, b]);
    g.OnDeletePair([a, b]);
    scans, pairs := g.allScans, g.pairs;
  }

  /** When an equal pair already exists, pairing the same two items again
      and deleting the pair removes the older, first one: the pairs come back
      reordered, not restored. */
  method PairThenDeleteReorders(g: PairingState, a: QRItem, b: QRItem, c: QRItem, d: QRItem)
    requires g.Valid() && g.selected == None
    requires g.pairs == [[a, b], [c, d]] && [a, b] != [c, d]
    modifies g
    ensures g.selected == None
    ensures g.pairs == [[c, d], [a, b]]
  {
    g.OnSelect(a);
    g.OnSelect(b);
    assert g.pairs == [[a, b], [c, d], [a, b]];
    g.OnDeletePair([a, b]);
  }

  /** Clicking, one after the other, the first two scans, when they are
      different and occur nowhere else, moves them into a new pair. */
  method PairFirstTwo(g: PairingState, a: QRItem, b: QRItem, rest: seq<QRItem>)
    requires g.Valid() && g.selected == None && g.allScans == [a, b] + rest
    requires a != b && a !in rest && b !in rest
    modifies g
    ensures g.Valid() && g.selected == None
    ensures g.allScans == rest && g.pairs == old(g.pairs) + [[a, b]]
  {
    g.OnSelect(a);
    g.OnSelect(b);
    RemoveAllPrefixPair([a, b], rest);
  }
}
