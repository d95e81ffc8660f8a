/**
 * The prediction records kept in `test_data` (frontend/app.py) and the
 * aggregate reads shown on the results tab.
 */
module RecordStore {
  import opened Wrappers

  /** What `predict_placement(cgpa, iq)` returns: the outcome, its probability and the key factor. */
  datatype Prediction = Prediction(placement: int, confidence: real, influence: string)

  /** One saved prediction: the row appended to `test_data`. */
  datatype Record = Record(
    cgpa: real,
    iq: real,
    branch: string,
    year: string,
    predictedPlacement: int,
    confidence: real,
    actualPlacement: Option<int>,
    timestamp: string)

  /** The three choices of the placement-status radio, in display order. */
  const PlacementStatuses: seq<string> := ["Not Yet Decided", "Placed", "Not Placed"]

  /** The `actual_placement` value stored for a status: 1 for placed, 0 for not placed, None otherwise. */
  function ActualPlacement(status: string): (a: Option<int>)
    ensures a == Some(1) <==> status == "Placed"
    ensures a == Some(0) <==> status == "Not Placed"
    ensures a == None <==> status != "Placed" && status != "Not Placed"
  {
    if status == "Placed" then Some(1) else if status == "Not Placed" then Some(0) else None
  }

  /** The status that a stored `actual_placement` value stands for. */
  function StatusLabel(a: Option<int>): string
  {
    match a
    case Some(1) => "Placed"
    case Some(0) => "Not Placed"
    case _ => "Not Yet Decided"
  }

  /** On the radio's choices the mapping loses nothing: the status can be read back from the record. */
  lemma StatusRoundTrip(status: string)
    requires status in PlacementStatuses
    ensures StatusLabel(ActualPlacement(status)) == status
  {
  }

  /** Every stored prediction is 0 or 1. */
  predicate BinaryPredictions(records: seq<Record>)
  {
    forall i :: 0 <= i < |records| ==> records[i].predictedPlacement == 0 || records[i].predictedPlacement == 1
  }

  /** `df['predicted_placement'].sum()`. */
  function PredictedPlaced(records: seq<Record>): (sum: int)
    ensures BinaryPredictions(records) ==> 0 <= sum <= |records|
  {
    if |records| == 0 then 0
    else PredictedPlaced(records[..|records| - 1]) + records[|records| - 1].predictedPlacement
  }

  /** The positions below `n` of records predicted as placed. */
  function PlacedPositions(records: seq<Record>, n: nat): set<nat>
    requires n <= |records|
  {
    set i: nat | i < n && records[i].predictedPlacement == 1
  }

  /** With 0/1 predictions, the sum is the number of records predicted as placed. */
  lemma {:induction false} PredictedPlacedCountsPlaced(records: seq<Record>, n: nat)
    requires n <= |records| && BinaryPredictions(records)
    ensures PredictedPlaced(records[..n]) == |PlacedPositions(records, n)|
  {
    if n > 0 {
      PredictedPlacedCountsPlaced(records, n - 1);
      assert records[..n][..n - 1] == records[..n - 1];
      var before := PlacedPositions(records, n - 1);
      if records[n - 1].predictedPlacement == 1 {
        assert PlacedPositions(records, n) == before + {n - 1};
      } else {
        assert PlacedPositions(records, n) == before;
      }
    }
  }
}
