# Memory: scan pairing and export, in Dafny

The Memory app scans QR codes with the camera, lets the user pair two
scans into a card, lets them delete a pair back into the pool of unpaired
scans, and exports the pairs as JSON for a logbook app. Its logic is the
state kept in `MainActivity.onCreate`: the unpaired scans `allScans`, the
pairs made so far `pairs`, and the item clicked first `selected`. Three
events change that state:

- a scan result from the camera activity;
- a click on a scan (`onSelect`);
- a click on a pair's delete button (`onDeletePair`).

The export is `toJsonArray` over the pairs and `createJsonObject`, which
wraps the array as `{"task": "Memory", "solution": …}`.

Modules:

- `Items`: `QRItem` holds a photo reference `uri` and the decoded `value`.
  Its Kotlin definition is not part of this model. It is assumed to compare
  by value, so the `equals` the Kotlin list operations use is taken to be
  equality of both fields.
- `Lists`: Kotlin's `removeAll(collection)` and `remove(element)` as
  functions on sequences. Lemmas state what each removes and what it keeps,
  with order and multiplicity.
- `Json`: an abstract JSON value (string, array, object as a map).
- `Export`: the `ToJsonArray` method with its two nested loops, proved equal
  to the recursive `SolutionArray`. Also `CreateJsonObject`, a decoder and
  the round-trip lemma that reads the export back.
- `Pairing`: the scan filter `ScanFilter` and the class `PairingState`.
  The class has the three fields and one method per event. `Valid()` (every
  pair has two items) is kept by every method.
- `Scenarios`: clients that run whole event sequences on a fresh or a
  given `PairingState`. They are proved from the event contracts and the
  lemmas about `RemoveAll` and `RemoveFirst`.

The model follows the code where it differs from the intended design:

- The first click on a scan does not take it out of `allScans`. It stays
  there and is only highlighted.
- Clicking the same scan twice makes the pair `[item, item]` and removes
  every copy of that scan.
- `removeAll` takes out every scan equal to either member of the new pair,
  not just one occurrence of each.
- Deleting a pair appends its items to `allScans` even when the pair is no
  longer in `pairs`. Deleting the same pair twice therefore appends its
  items twice; it is not a no-op (`Scenarios.DeletePairTwice`).

## Model

| member | source | states |
|---|---|---|
| `Pairing.ScanFilter` | Memory/app/src/main/java/com/swipesquad/memory/MainActivity.kt:82-95 | an item is produced iff the result code is the platform's OK code (-1) and both the URI and the decoded value are present; the item is built from exactly that URI and value |
| `Pairing.PairingState.constructor` | Memory/app/src/main/java/com/swipesquad/memory/MainActivity.kt:74-76 | the state starts with no scans, no pairs and nothing selected |
| `Pairing.PairingState.OnScanResult` | Memory/app/src/main/java/com/swipesquad/memory/MainActivity.kt:82-95 | appends exactly `QRItem(uri, value)` at the end of `allScans` when the filter accepts; otherwise `allScans` is unchanged; `pairs` and `selected` are never touched |
| `Pairing.PairingState.OnSelect` | Memory/app/src/main/java/com/swipesquad/memory/MainActivity.kt:128-136 | with nothing selected, the item becomes `selected` and both lists are unchanged, so the item stays in `allScans`; with `p` selected, `[p, item]` is appended to `pairs`, `allScans` becomes `removeAll` of both, so neither is left and every other scan stays, and `selected` is cleared; if `p != item` and each occurs once, `|allScans| + 2*|pairs|` is unchanged |
| `Pairing.PairingState.OnDeletePair` | Memory/app/src/main/java/com/swipesquad/memory/MainActivity.kt:137-140 | `pairs` loses the first pair equal to the argument, if any, and shrinks by one exactly when it held it; the pair's items are appended to `allScans` in pair order whether or not it was found; `selected` is unchanged |
| `Pairing.PairingState.DefaultExport` | Memory/app/src/main/java/com/swipesquad/memory/MainActivity.kt:146-197 | the dialog's initial text (`initialText = pairs.toJsonArray()` at line 153, wrapped by `createJsonObject` at line 197) is the task object whose solution is the export of the current pairs; as every pair holds two items, that solution has one row per pair and every row is an array of two strings |
| `Lists.RemoveAll` | Memory/app/src/main/java/com/swipesquad/memory/MainActivity.kt:133 | `removeAll`: an element is in the result iff it was in the list and is not one of the dropped elements; the result is no longer |
| `Lists.RemoveAllAppend` | Memory/app/src/main/java/com/swipesquad/memory/MainActivity.kt:133 | removal distributes over concatenation, so the kept elements keep their relative order |
| `Lists.RemoveAllCount` | Memory/app/src/main/java/com/swipesquad/memory/MainActivity.kt:133 | every dropped element loses all its occurrences; every other element keeps all of its own |
| `Lists.RemoveAllTwoDistinct` | Memory/app/src/main/java/com/swipesquad/memory/MainActivity.kt:132-133 | removing two different elements that occur once each takes out exactly those two occurrences, so the list shrinks by 2 |
| `Lists.RemoveAllKeeps` | Memory/app/src/main/java/com/swipesquad/memory/MainActivity.kt:133 | `removeAll` of elements none of which is in the list leaves it unchanged |
| `Lists.RemoveAllPrefixPair` | Memory/app/src/main/java/com/swipesquad/memory/MainActivity.kt:133 | removing the two different leading elements, when neither occurs later, leaves exactly the rest |
| `Lists.RemoveFirst` | Memory/app/src/main/java/com/swipesquad/memory/MainActivity.kt:138 | `remove`: an absent element leaves the list unchanged; a present one shortens it by one |
| `Lists.RemoveFirstCount` | Memory/app/src/main/java/com/swipesquad/memory/MainActivity.kt:138 | `remove` takes out one occurrence of the element, if any, and nothing else |
| `Lists.RemoveFirstKeeps` | Memory/app/src/main/java/com/swipesquad/memory/MainActivity.kt:138 | every element left after `remove` was in the list before |
| `Lists.FirstIndex` | Memory/app/src/main/java/com/swipesquad/memory/MainActivity.kt:138 | the position holds the element and no earlier position does |
| `Lists.RemoveFirstSplice` | Memory/app/src/main/java/com/swipesquad/memory/MainActivity.kt:138 | `remove` cuts out exactly the first occurrence; the pairs before and after it keep their order |
| `Lists.RemoveFirstOfAppended` | Memory/app/src/main/java/com/swipesquad/memory/MainActivity.kt:132-138 | removing a pair that was just appended, with no earlier equal pair, gives the earlier list back |
| `Export.PairArray` | Memory/app/src/main/java/com/swipesquad/memory/QRItemExtensions.kt:8-11 | the inner array has as many elements as the pair, and element j is the string `pair[j].value` |
| `Export.SolutionArray` | Memory/app/src/main/java/com/swipesquad/memory/QRItemExtensions.kt:6-14 | the outer array has one element per pair (none for no pairs), and element i is the inner array of pair i |
| `Export.ToJsonArray` | Memory/app/src/main/java/com/swipesquad/memory/QRItemExtensions.kt:5-15 | the nested loops that put each value into a fresh inner array and each inner array into the outer one build exactly `SolutionArray(pairs)` |
| `Export.SolutionArrayAppend` | Memory/app/src/main/java/com/swipesquad/memory/QRItemExtensions.kt:7-13 | the export of `a + b` is the export of `a` followed by the export of `b` |
| `Export.Values` | Memory/app/src/main/java/com/swipesquad/memory/QRItemExtensions.kt:7-11 | one row per pair; row i is the values of pair i, whose element j is `pairs[i][j].value` |
| `Export.PairIgnoresUris` | Memory/app/src/main/java/com/swipesquad/memory/QRItemExtensions.kt:9-11 | two pairs with the same values give the same inner array, whatever their URIs |
| `Export.SolutionIgnoresUris` | Memory/app/src/main/java/com/swipesquad/memory/QRItemExtensions.kt:7-13 | only values are exported: pair lists with the same values give the same array, whatever their URIs |
| `Export.DecodeToJsonArray` | Memory/app/src/main/java/com/swipesquad/memory/QRItemExtensions.kt:5-15 | round trip: reading the export back as an array of arrays of strings gives exactly the values of the pairs, in pair order and item order |
| `Export.ReadBackValues` | Memory/app/src/main/java/com/swipesquad/memory/QRItemExtensions.kt:5-15 | reading the export back succeeds, has one row per pair, row i as long as pair i, and element j of row i is `pairs[i][j].value` |
| `Export.CreateJsonObject` | Memory/app/src/main/java/com/swipesquad/memory/MainActivity.kt:182-188 | an object with exactly the keys `task` and `solution`; `task` is the string `Memory` and `solution` is the argument unchanged |
| `Scenarios.PairThenDelete` | Memory/app/src/main/java/com/swipesquad/memory/MainActivity.kt:128-140 | when nothing is selected and no equal pair exists yet, selecting two different scans that occur once each and then deleting their pair restores `pairs`; `allScans` holds the same scans, with the two at the end |
| `Scenarios.PairThenDeleteReorders` | Memory/app/src/main/java/com/swipesquad/memory/MainActivity.kt:128-140 | when an equal pair already exists, pairing the same two items again and deleting the pair removes the older one, so `[[a, b], [c, d]]` becomes `[[c, d], [a, b]]` |
| `Scenarios.ScanPairExport` | Memory/app/src/main/java/com/swipesquad/memory/MainActivity.kt:82-188 | scans "A" and "B", selected in that order, export as `{"task": "Memory", "solution": [["A", "B"]]}` |
| `Scenarios.DeleteOneOfTwoPairs` | Memory/app/src/main/java/com/swipesquad/memory/MainActivity.kt:128-140 | after pairing (A, B) and (C, D), deleting (A, B) leaves scans `[A, B]` and pairs `[(C, D)]` |
| `Scenarios.IncompleteScansAddNothing` | Memory/app/src/main/java/com/swipesquad/memory/MainActivity.kt:82-95 | a failed capture, or one missing the URI or the value, adds no scan |
| `Scenarios.SelectSameItemTwice` | Memory/app/src/main/java/com/swipesquad/memory/MainActivity.kt:128-136 | clicking one scan twice pairs it with itself and removes it from the scans |
| `Scenarios.DeletePairTwice` | Memory/app/src/main/java/com/swipesquad/memory/MainActivity.kt:137-140 | deleting the same pair twice appends its items twice; the second delete is not a no-op |

## Left out

- The Compose UI (`MainScreen`, `Header`, `ScanGallery`, `InputPopup`, `PhotoPreviewScreen`, the preview): declarative rendering. The selection highlight only reads `selected`.
- The camera-permission request, the launch of the camera activity, the two `getParcelableExtra` branches for different Android versions, and the Toasts: platform I/O. The extras are `Option` inputs of the scan filter. The "New scan added" Toast is shown on every successful result code, even when no item was added.
- `sendLogbookIntent`: an intent sent to another app, with a caught and logged `ActivityNotFoundException`.
- `Export.CreateJsonObject`: returns the JSON value, not its text; `JSONObject.toString()`, string escaping and key order are `org.json` behaviour that is not part of this model.
- The dialog's text field: the user may replace the exported text with any string before sending, so nothing links the sent string to the export.
- The `showDialog` flag and the observation and recomposition behaviour of Compose state lists; the lists are plain sequences changed one event at a time.
- The definition of `QRItem` is not part of this model; it is taken to be a value with structural equality on its URI and value, and every property is stated with `==` on `QRItem`.
