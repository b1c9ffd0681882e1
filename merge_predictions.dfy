/**
  The prediction-column merge script: the rows of a records CSV, held as a
  list of rows that the script extends in place, gain the header cells
  "invariant" and "variant" and, on each data row, two fields of the
  matching prediction line.
 */
module MergePredictions {
  import opened Outcomes
  import opened Text

  /** `preds[i][0].split('\t')`, or None where `preds[i]` or its first cell is missing. */
  function PredictionFields(preds: seq<seq<string>>, i: nat): (r: Option<seq<string>>)
    ensures r.Some? <==> i < |preds| && |preds[i]| > 0
    ensures r.Some? ==> |r.value| >= 1 && Join(r.value, '\t') == preds[i][0]
    ensures r.Some? ==> forall k :: 0 <= k < |r.value| ==> '\t' !in r.value[k]
  {
    if i < |preds| && |preds[i]| > 0 then
      JoinSplit(preds[i][0], '\t');
      SplitFieldsSeparatorFree(preds[i][0], '\t');
      Some(Split(preds[i][0], '\t'))
    else None
  }

  /** Data row `i` (from 1) has a prediction with at least the three tab-separated fields 0, 1 and 2. */
  predicate RowMergeable(preds: seq<seq<string>>, i: nat)
    requires i >= 1
  {
    var f := PredictionFields(preds, i - 1);
    f.Some? && |f.value| >= 3
  }

  /**
    The cells appended to data row `i`: fields 1 and 2 of its prediction; when
    field 2 is missing, field 1 has already been appended when the lookup of
    field 2 fails.
   */
  function MergedCells(preds: seq<seq<string>>, i: nat): (cells: seq<string>)
    requires i >= 1
    ensures |cells| <= 2
    ensures forall k :: 0 <= k < |cells| ==> '\t' !in cells[k]
    ensures RowMergeable(preds, i) ==> |cells| == 2
  {
    match PredictionFields(preds, i - 1)
    case None => []
    case Some(f) => if |f| >= 3 then [f[1], f[2]] else if |f| == 2 then [f[1]] else []
  }

  /** A row can be merged exactly when its prediction has a first cell holding at least two tabs. */
  lemma RowMergeableIffTwoTabs(preds: seq<seq<string>>, i: nat)
    requires i >= 1
    ensures RowMergeable(preds, i) <==>
      (i - 1 < |preds| && |preds[i - 1]| > 0 && CountChar(preds[i - 1][0], '\t') >= 2)
    ensures RowMergeable(preds, i) ==> |MergedCells(preds, i)| == 2
  {
    if i - 1 < |preds| && |preds[i - 1]| > 0 {
      SplitFieldCount(preds[i - 1][0], '\t');
    }
  }

  /** Prediction rows past the last data row, and cells after the first, play no part. */
  lemma ExtraPredictionsIgnored(preds: seq<seq<string>>, more: seq<seq<string>>, i: nat)
    requires 1 <= i <= |preds|
    ensures RowMergeable(preds + more, i) == RowMergeable(preds, i)
    ensures MergedCells(preds + more, i) == MergedCells(preds, i)
    ensures |preds[i - 1]| > 0 ==> MergedCells(preds[i - 1 := [preds[i - 1][0]]], i) == MergedCells(preds, i)
  {
    assert (preds + more)[i - 1] == preds[i - 1];
  }

  /**
    The whole script on the in-memory rows `c`: the header row gains
    "invariant" then "variant", then every data row `c[i]` gains the cells of
    prediction row `i - 1`, in order, until one is missing. On success every
    row has grown by exactly two cells; on failure the rows after the failing
    one are untouched, and with no rows at all nothing changes.
   */
  method MergeColumns(c: array<seq<string>>, preds: seq<seq<string>>) returns (r: Result<()>)
    modifies c
    ensures c.Length == 0 ==> r == Err(IndexError)
    ensures c.Length > 0 ==> c[0] == old(c[0]) + ["invariant", "variant"]
    ensures r.Ok? <==> c.Length > 0 && forall i :: 1 <= i < c.Length ==> RowMergeable(preds, i)
    ensures r.Ok? ==> forall i :: 1 <= i < c.Length ==> c[i] == old(c[i]) + MergedCells(preds, i)
    ensures r.Ok? ==> forall i :: 0 <= i < c.Length ==>
      |c[i]| == |old(c[i])| + 2 && c[i][..|old(c[i])|] == old(c[i])
    ensures r.Err? && c.Length > 0 ==> exists i :: (1 <= i < c.Length && !RowMergeable(preds, i)
      && (forall j :: 1 <= j < i ==> RowMergeable(preds, j) && c[j] == old(c[j]) + MergedCells(preds, j))
      && c[i] == old(c[i]) + MergedCells(preds, i)
      && forall j :: i < j < c.Length ==> c[j] == old(c[j]))
  {
    if c.Length == 0 {
      return Err(IndexError);
    }
    c[0] := c[0] + ["invariant"];
    c[0] := c[0] + ["variant"];
    for i := 1 to c.Length
      invariant c[0] == old(c[0]) + ["invariant", "variant"]
      invariant forall j :: 1 <= j < i ==> RowMergeable(preds, j) && c[j] == old(c[j]) + MergedCells(preds, j)
      invariant forall j :: i <= j < c.Length ==> c[j] == old(c[j])
    {
      if i - 1 >= |preds| || |preds[i - 1]| == 0 {
        assert !RowMergeable(preds, i) && MergedCells(preds, i) == [];
        assert c[i] == old(c[i]) + MergedCells(preds, i);
        return Err(IndexError);
      }
      var pred := Split(preds[i - 1][0], '\t');
      if |pred| < 2 {
        assert !RowMergeable(preds, i) && MergedCells(preds, i) == [];
        assert c[i] == old(c[i]) + MergedCells(preds, i);
        return Err(IndexError);
      }
      c[i] := c[i] + [pred[1]];
      if |pred| < 3 {
        assert !RowMergeable(preds, i);
        return Err(IndexError);
      }
      c[i] := c[i] + [pred[2]];
    }
    forall i | 1 <= i < c.Length
      ensures |MergedCells(preds, i)| == 2
    {
      RowMergeableIffTwoTabs(preds, i);
    }
    return Ok(());
  }
}
