/** The backend's result record (backend/data_processing.py): for one queued
    reading `(machine_id, data, condition)` the predictor is consulted, the
    per-axis features are read from fixed columns of the first row of
    `data`, and both are packed into the record the dashboard serves. The
    surrounding queue loop is not modelled. */
module DataProcessing {
  import opened Wrappers
  import opened Telemetry
  import Predictor
  import FrontendApp

  /** Column of each feature, in series order (rms, kurtosis, peak-to-peak,
      crest factor), within one axis' block of the row. */
  const FeatureColumn: seq<nat> := [3, 6, 5, 7]

  /** First column of an axis' block: the y and z blocks follow the x block
      at strides of 9. */
  function AxisOffset(a: Axis): nat {
    match a
    case X => 0
    case Y => 9
    case Z => 18
  }

  /** The number of columns the first row needs: the last one read is
      column 7 + 18 = 25. */
  const RowWidth := 26

  /** Why a reading produced no record. */
  datatype ProcessError =
    | PredictionFailed(cause: Predictor.PredictError)  // raised inside `predict_fault`
    | IndexError                                       // `data[0][...]` out of range

  /** The column the feature `k` of axis `a` is read from. */
  function ColumnOf(a: Axis, k: nat): nat
    requires k < FeatureCount
  {
    AxisOffset(a) + FeatureColumn[k]
  }

  /** The twelve columns read are all different and all inside a row of
      `RowWidth` columns. */
  lemma ColumnsDistinct(a: Axis, k: nat, b: Axis, l: nat)
    requires k < FeatureCount && l < FeatureCount
    ensures ColumnOf(a, k) < RowWidth
    ensures ColumnOf(a, k) == ColumnOf(b, l) <==> a == b && k == l
  {
  }

  /** One axis' features from its block of `row`. */
  function AxisFeaturesAt(row: seq<real>, a: Axis): Features
    requires |row| >= RowWidth
  {
    var o := AxisOffset(a);
    Features(row[o + 3], row[o + 6], row[o + 5], row[o + 7])
  }

  /** `graph_value`: the three axes read from the first row, or an
      `IndexError` when there is no first row or it is too short. */
  function GraphValueOf(data: seq<seq<real>>): (r: Result<AxisFeatures, ProcessError>)
    ensures r.Success? <==> |data| > 0 && |data[0]| >= RowWidth
    ensures r.Failure? ==> r.error == IndexError
    ensures r.Success? ==> forall a: Axis, k: nat | k < FeatureCount ::
      Component(r.value.Get(a), k) == data[0][ColumnOf(a, k)]
  {
    if |data| == 0 || |data[0]| < RowWidth then Failure(IndexError)
    else Success(AxisFeatures(AxisFeaturesAt(data[0], X), AxisFeaturesAt(data[0], Y), AxisFeaturesAt(data[0], Z)))
  }

  /** Only the first row matters: readings that agree on it give the same
      `graph_value`. */
  lemma GraphValueReadsFirstRow(data: seq<seq<real>>, other: seq<seq<real>>)
    requires |data| > 0 && |other| > 0 && data[0] == other[0]
    ensures GraphValueOf(data) == GraphValueOf(other)
  {
  }

  /** A chunk as the streaming producer reads it has four columns (time, x,
      y, z), too few for the columns read here. */
  lemma FourColumnChunkRejected(data: seq<seq<real>>)
    requires |data| > 0 && |data[0]| == 4
    ensures GraphValueOf(data) == Failure(IndexError)
  {
  }

  /** The record put on the result queue (without its machine id). */
  datatype Record = Record(expected: string, predictedFault: string, confidence: string,
                           models: Models, graphValue: AxisFeatures)

  /** One pass of the processing loop. The predictor runs first, so its
      error wins over a short row. */
  function ProcessItem(machineId: int, data: seq<seq<real>>, condition: string, svm: int, knn: int, gnb: int)
    : (r: Result<(int, Record), ProcessError>)
    ensures r.Success? <==> Predictor.Predict(svm, knn, gnb).Success? && GraphValueOf(data).Success?
    ensures r.Success? ==>
      && r.value.0 == machineId && r.value.1.expected == condition
      && r.value.1.graphValue == GraphValueOf(data).value
      && r.value.1.predictedFault == Predictor.Predict(svm, knn, gnb).value.fault
  {
    var prediction := Predictor.Predict(svm, knn, gnb);
    if prediction.Failure? then Failure(PredictionFailed(prediction.error))
    else
      var graph := GraphValueOf(data);
      if graph.Failure? then Failure(graph.error)
      else
        var p := prediction.value;
        Success((machineId, Record(condition, p.fault, p.confidence, Models(p.gnb, p.knn, p.svm), graph.value)))
  }

  /** A record is produced exactly when the prediction succeeds and the
      first row is wide enough; a failed prediction is reported before a
      short row. */
  lemma ProcessOutcome(machineId: int, data: seq<seq<real>>, condition: string, svm: int, knn: int, gnb: int)
    ensures var r := ProcessItem(machineId, data, condition, svm, knn, gnb);
      && (r.Success? <==> Predictor.Predict(svm, knn, gnb).Success? && |data| > 0 && |data[0]| >= RowWidth)
      && (Predictor.Predict(svm, knn, gnb).Failure? ==>
            r == Failure(PredictionFailed(Predictor.Predict(svm, knn, gnb).error)))
      && (Predictor.Predict(svm, knn, gnb).Success? && !(|data| > 0 && |data[0]| >= RowWidth) ==>
            r == Failure(IndexError))
  {
  }

  /** A produced record is tagged with the reading's machine id, echoes the
      reading's condition as `expected`, copies the predictor's fault,
      confidence and per-model labels, and carries the columns of the first
      row. */
  lemma ProcessCopiesFields(machineId: int, data: seq<seq<real>>, condition: string, svm: int, knn: int, gnb: int)
    requires ProcessItem(machineId, data, condition, svm, knn, gnb).Success?
    ensures var (id, rec) := ProcessItem(machineId, data, condition, svm, knn, gnb).value;
      var p := Predictor.Predict(svm, knn, gnb).value;
      && id == machineId && rec.expected == condition
      && rec.predictedFault == p.fault && rec.confidence == p.confidence
      && rec.models.svm == p.svm && rec.models.knn == p.knn && rec.models.gnb == p.gnb
      && forall a: Axis, k: nat | k < FeatureCount :: Component(rec.graphValue.Get(a), k) == data[0][ColumnOf(a, k)]
  {
  }

  /** The record as a feed entry: every `graph_value` field present. */
  function FeedEntry(rec: Record): MachineData {
    var part := (f: Features) => PartialFeatures(Some(f.rms), Some(f.kurtosis), Some(f.pp), Some(f.crestf));
    MachineData(rec.confidence, rec.models, Some(rec.predictedFault), None,
                Some(GraphValue(Some(part(rec.graphValue.x)), Some(part(rec.graphValue.y)), Some(part(rec.graphValue.z)))))
  }

  /** A record reaches the dashboard's chart history unchanged: since every
      field is present, the zero defaults never apply, and the card is
      emerald exactly when the decided fault is "normal". */
  lemma FeedEntryReachesChart(rec: Record, now: int)
    ensures FrontendApp.SampleOf(FeedEntry(rec).graphValue, now).axes == rec.graphValue
    ensures StatusColor(FeedEntry(rec)) == Emerald <==> rec.predictedFault == "normal"
  {
    var s := FrontendApp.SampleOf(FeedEntry(rec).graphValue, now);
    forall a: Axis, k: nat | k < FeatureCount
      ensures Component(s.axes.Get(a), k) == Component(rec.graphValue.Get(a), k)
    {
    }
    assert s.axes.x == rec.graphValue.Get(X) by {
      assert forall k :: 0 <= k < FeatureCount ==> Component(s.axes.Get(X), k) == Component(rec.graphValue.Get(X), k);
    }
  }
}
