/** The export of the pairing: `toJsonArray` over the list of pairs, and
    `createJsonObject`, which wraps that array for the logbook app. */
module Export {
  import opened Wrappers
  import opened Items
  import opened Json

  /** The task name the export carries. */
  const TaskName: string := "Memory"

  /** The elements of the inner array for one pair. */
  function PairArray(pair: seq<QRItem>): (r: seq<Value>)
    ensures |r| == |pair|
    ensures forall j :: 0 <= j < |pair| ==> r[j] == JString(pair[j].value)
  {
    if pair == [] then []
    else PairArray(pair[..|pair| - 1]) + [JString(pair[|pair| - 1].value)]
  }

  /** The elements of the outer array: one inner array per pair. */
  function SolutionArray(pairs: seq<seq<QRItem>>): (r: seq<Value>)
    ensures |r| == |pairs|
    ensures forall i :: 0 <= i < |pairs| ==> r[i] == JArray(PairArray(pairs[i]))
  {
    if pairs == [] then []
    else SolutionArray(pairs[..|pairs| - 1]) + [JArray(PairArray(pairs[|pairs| - 1]))]
  }

  /** `List<List<QRItem>>.toJsonArray`: a fresh outer array, and for each pair
      a fresh inner array into which the pair's values are put one by one. */
  method ToJsonArray(pairs: seq<seq<QRItem>>) returns (outer: Value)
    ensures outer == JArray(SolutionArray(pairs))
  {
    var outerArray: seq<Value> := [];
    for i := 0 to |pairs|
      invariant outerArray == SolutionArray(pairs[..i])
    {
      var pair := pairs[i];
      var innerArray: seq<Value> := [];
      for j := 0 to |pair|
        invariant innerArray == PairArray(pair[..j])
      {
        assert pair[..j + 1][..j] == pair[..j];
        innerArray := innerArray + [JString(pair[j].value)];
      }
      assert pair[..|pair|] == pair;
      assert pairs[..i + 1][..i] == pairs[..i];
      outerArray := outerArray + [JArray(innerArray)];
    }
    assert pairs[..|pairs|] == pairs;
    outer := JArray(outerArray);
  }

  /** `createJsonObject`: an object holding the task name and the solution. */
  function CreateJsonObject(solution: Value): (r: Value)
    ensures r.JObject? && r.members.Keys == {"task", "solution"}
    ensures r.members["task"] == JString("Memory")
    ensures r.members["solution"] == solution
  {
    JObject(map["task" := JString(TaskName), "solution" := solution])
  }

  /** The outer array is built pair after pair, so the export of a
      concatenation is the concatenation of the exports. */
  lemma SolutionArrayAppend(a: seq<seq<QRItem>>, b: seq<seq<QRItem>>)
    ensures SolutionArray(a + b) == SolutionArray(a) + SolutionArray(b)
  {
  }

  /** The decoded values of the pairs, in order: all the export may carry. */
  function Values(pairs: seq<seq<QRItem>>): (r: seq<seq<string>>)
    ensures |r| == |pairs|
    ensures forall i :: 0 <= i < |pairs| ==> r[i] == PairValues(pairs[i])
  {
    if pairs == [] then []
    else Values(pairs[..|pairs| - 1]) + [PairValues(pairs[|pairs| - 1])]
  }

  /** The decoded values of one pair, in item order. */
  function PairValues(pair: seq<QRItem>): (r: seq<string>)
    ensures |r| == |pair|
    ensures forall j :: 0 <= j < |pair| ==> r[j] == pair[j].value
  {
    if pair == [] then []
    else PairValues(pair[..|pair| - 1]) + [pair[|pair| - 1].value]
  }

  lemma PairIgnoresUris(a: seq<QRItem>, b: seq<QRItem>)
    requires PairValues(a) == PairValues(b)
    ensures PairArray(a) == PairArray(b)
  {
  }

  /** Only the values are exported: pairs that agree on every value but not
      on the photo references give the same array. */
  lemma {:induction false} SolutionIgnoresUris(a: seq<seq<QRItem>>, b: seq<seq<QRItem>>)
    requires Values(a) == Values(b)
    ensures SolutionArray(a) == SolutionArray(b)
  {
    if a != [] {
      var v := Values(a);
      assert Values(a[..|a| - 1]) == v[..|v| - 1] == Values(b[..|b| - 1]);
      SolutionIgnoresUris(a[..|a| - 1], b[..|b| - 1]);
      PairIgnoresUris(a[|a| - 1], b[|b| - 1]);
    }
  }

  /** Reads back an array of strings, as a receiver of the export would. */
  function DecodeStrings(elems: seq<Value>): (r: Option<seq<string>>)
    ensures r.Some? ==> |r.value| == |elems|
  {
    if elems == [] then Some([])
    else match (DecodeStrings(elems[..|elems| - 1]), elems[|elems| - 1])
      case (Some(init), JString(s)) => Some(init + [s])
      case _ => None
  }

  /** Reads back an array of arrays of strings. */
  function DecodeSolution(v: Value): (r: Option<seq<seq<string>>>)
  {
    match v
    case JArray(rows) => DecodeRows(rows)
    case _ => None
  }

  function DecodeRows(rows: seq<Value>): (r: Option<seq<seq<string>>>)
    ensures r.Some? ==> |r.value| == |rows|
  {
    if rows == [] then Some([])
    else match (DecodeRows(rows[..|rows| - 1]), rows[|rows| - 1])
      case (Some(init), JArray(elems)) =>
        (match DecodeStrings(elems)
         case Some(row) => Some(init + [row])
         case None => None)
      case _ => None
  }

  /** Reading back an array that has one more string at the end. */
  lemma DecodeStringsSnoc(elems: seq<Value>, init: seq<string>, s: string)
    requires DecodeStrings(elems) == Some(init)
    ensures DecodeStrings(elems + [JString(s)]) == Some(init + [s])
  {
  }

  /** Reading back an array of arrays that has one more row at the end. */
  lemma DecodeRowsSnoc(rows: seq<Value>, init: seq<seq<string>>, elems: seq<Value>, row: seq<string>)
    requires DecodeRows(rows) == Some(init) && DecodeStrings(elems) == Some(row)
    ensures DecodeRows(rows + [JArray(elems)]) == Some(init + [row])
  {
  }

  lemma {:induction false} DecodePairArray(pair: seq<QRItem>)
    ensures DecodeStrings(PairArray(pair)) == Some(PairValues(pair))
  {
    if pair != [] {
      var init, last := pair[..|pair| - 1], pair[|pair| - 1];
      DecodePairArray(init);
      DecodeStringsSnoc(PairArray(init), PairValues(init), last.value);
    }
  }

  /** Round trip: reading the export back gives the values of every pair, in
      pair order and, inside each pair, in item order (the contracts of
      `Values` and `PairValues` say which string stands where). */
  lemma {:induction false} DecodeToJsonArray(pairs: seq<seq<QRItem>>)
    ensures DecodeSolution(JArray(SolutionArray(pairs))) == Some(Values(pairs))
  {
    if pairs != [] {
      var init, last := pairs[..|pairs| - 1], pairs[|pairs| - 1];
      DecodeToJsonArray(init);
      DecodePairArray(last);
      DecodeRowsSnoc(SolutionArray(init), Values(init), PairArray(last), PairValues(last));
    }
  }

  /** What a receiver reads back, element by element: one row per pair, and
      in row i the decoded value of item j of pair i at position j. */
  lemma ReadBackValues(pairs: seq<seq<QRItem>>, i: nat, j: nat)
    requires i < |pairs| && j < |pairs[i]|
    ensures var d := DecodeSolution(JArray(SolutionArray(pairs)));
            d.Some? && |d.value| == |pairs| && |d.value[i]| == |pairs[i]| &&
            d.value[i][j] == pairs[i][j].value
  {
    DecodeToJsonArray(pairs);
  }
}
