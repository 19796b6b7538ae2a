/** The bookkeeping of cubit_cmd (src/femref/cubit_utils.py): which entity IDs a
    command added. The meshing session is reduced to the two ID lists it
    reports before and after the command. */
module NewEntities {

  /** What cubit_cmd returns: a bare ID, or a list of IDs. */
  datatype Reported = Single(id: int) | Many(ids: seq<int>)

  /** The IDs a report carries, whichever form it takes. */
  function Ids(r: Reported): seq<int>
  {
    match r
    case Single(id) => [id]
    case Many(ids) => ids
  }

  /** The set difference of the two ID lists taken as sets. */
  function Added(before: seq<int>, after: seq<int>): set<int>
  {
    (set x | x in after) - (set x | x in before)
  }

  predicate Distinct(s: seq<int>)
  {
    forall i, j :: 0 <= i < j < |s| ==> s[i] != s[j]
  }

  /** A list without repetitions has as many elements as its set. */
  lemma {:induction false} DistinctCardinality(s: seq<int>)
    requires Distinct(s)
    ensures |set x | x in s| == |s|
    decreases |s|
  {
    if s != [] {
      DistinctCardinality(s[1..]);
      assert (set x | x in s) == {s[0]} + (set x | x in s[1..]);
      assert s[0] !in s[1..];
    }
  }

  /** The flattening step: a one-element list becomes a bare ID when allowed.
      Unflattening gives the list back. */
  function Flatten(ids: seq<int>, flattenIfPossible: bool): (r: Reported)
    ensures Ids(r) == ids
    ensures r.Single? <==> |ids| == 1 && flattenIfPossible
  {
    if |ids| == 1 && flattenIfPossible then Single(ids[0]) else Many(ids)
  }

  /** The IDs added by the command, each once, in an order the contract leaves
      open (Python's list of a set has none), flattened when there is exactly
      one and flattening is allowed, as it is by default. */
  method CubitCmd(before: seq<int>, after: seq<int>, flattenIfPossible: bool := true) returns (r: Reported)
    ensures forall x :: x in Ids(r) <==> x in after && x !in before
    ensures forall x :: x in before ==> x !in Ids(r)
    ensures Distinct(Ids(r))
    ensures |Ids(r)| == |Added(before, after)|
    ensures r.Single? <==> |Added(before, after)| == 1 && flattenIfPossible
    ensures Added(before, after) == {} ==> r == Many([])
  {
    var ids: seq<int> := [];
    var i := 0;
    while i < |after|
      invariant 0 <= i <= |after|
      invariant Distinct(ids)
      invariant forall x :: x in ids <==> x in after[..i] && x !in before
    {
      var x := after[i];
      if x !in before && x !in ids {
        ids := ids + [x];
      }
      assert after[..i + 1] == after[..i] + [x];
      i := i + 1;
    }
    assert after[..i] == after;
    assert (set x | x in ids) == Added(before, after);
    DistinctCardinality(ids);
    r := Flatten(ids, flattenIfPossible);
  }
}
