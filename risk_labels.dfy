/**
 The labelling pass of the record generator: a zero-initialised array gets,
 at each index, the risk level of the row at that index, scored step by step.
 */
module RiskLabels {
  import opened RiskScore

  /** The label column of a table, built left to right as the loop builds it. */
  function Labels(rows: seq<Sample>): (labels: seq<int>)
    ensures |labels| == |rows|
  {
    if rows == [] then []
    else Labels(rows[..|rows| - 1]) + [RiskLevel(rows[|rows| - 1])]
  }

  /** Entry k of the label column is the level of row k. */
  lemma {:induction false} LabelsAt(rows: seq<Sample>, k: int)
    requires 0 <= k < |rows|
    ensures Labels(rows)[k] == RiskLevel(rows[k])
  {
    if k < |rows| - 1 {
      LabelsAt(rows[..|rows| - 1], k);
    }
  }

  /** Every label is one of 0, 1 and 2. */
  lemma {:induction false} LabelsInRange(rows: seq<Sample>)
    ensures forall k :: 0 <= k < |rows| ==> 0 <= Labels(rows)[k] <= 2
  {
    forall k | 0 <= k < |rows| ensures 0 <= Labels(rows)[k] <= 2 {
      LabelsAt(rows, k);
    }
  }

  /** An entry depends on its own row alone: two tables that agree on row k
      agree on label k, whatever the other rows and however long the tables. */
  lemma {:induction false} LabelsLocal(rows: seq<Sample>, others: seq<Sample>, k: int)
    requires 0 <= k < |rows| && k < |others|
    requires rows[k] == others[k]
    ensures Labels(rows)[k] == Labels(others)[k]
  {
    LabelsAt(rows, k);
    LabelsAt(others, k);
  }

  /** No daytime row is labelled high. */
  lemma {:induction false} DaytimeRowsNeverHigh(rows: seq<Sample>)
    ensures forall k :: 0 <= k < |rows| && IsDaytime(rows[k].hour) ==> Labels(rows)[k] <= 1
  {
    forall k | 0 <= k < |rows| && IsDaytime(rows[k].hour) ensures Labels(rows)[k] <= 1 {
      LabelsAt(rows, k);
      DaytimeNeverHigh(rows[k]);
    }
  }

  /** Scores every row of the table and writes its level into a fresh
      zero-initialised array of one entry per row. */
  method GenerateLabels(rows: seq<Sample>) returns (riesgo: array<int>)
    ensures fresh(riesgo)
    ensures riesgo.Length == |rows|
    ensures riesgo[..] == Labels(rows)
    ensures forall k :: 0 <= k < |rows| ==> riesgo[k] == RiskLevel(rows[k])
  {
    var n := |rows|;
    riesgo := new int[n](_ => 0);
    for i := 0 to n
      invariant riesgo[..i] == Labels(rows[..i])
      invariant forall k :: i <= k < n ==> riesgo[k] == 0
    {
      var row := rows[i];
      var score := 0;
      if row.hour >= 20 || row.hour <= 6 {
        score := score + 2;
      } else if row.hour >= 18 || row.hour <= 8 {
        score := score + 1;
      }
      if row.weekday >= 5 {
        score := score + 1;
      }
      if row.latitude < SouthOf {
        score := score + 1;
      }
      if row.crimeType == 0 || row.crimeType == 1 {
        score := score + 1;
      }
      assert score == Score(row);
      if score >= 4 {
        riesgo[i] := 2;
      } else if score >= 2 {
        riesgo[i] := 1;
      } else {
        riesgo[i] := 0;
      }
      assert rows[..i + 1][..i] == rows[..i];
      assert riesgo[..i + 1] == riesgo[..i] + [riesgo[i]];
    }
    assert rows[..n] == rows;
    assert riesgo[..n] == riesgo[..];
    forall k | 0 <= k < n ensures riesgo[k] == RiskLevel(rows[k]) {
      LabelsAt(rows, k);
    }
  }
}
