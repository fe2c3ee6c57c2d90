/** The telemetry feed and the dashboard's machine records, shared by both
    dashboard variants: the per-axis vibration features, one feed entry per
    machine, the user-editable fields carried across refreshes, and the
    three-way status classification drawn on every machine card. */
module Telemetry {
  import opened Wrappers
  import opened Seqs

  /** One axis' scalar features; floating-point values are kept opaque. */
  datatype Features = Features(rms: real, kurtosis: real, pp: real, crestf: real)

  const ZeroFeatures := Features(0.0, 0.0, 0.0, 0.0)

  /** Number of features per axis; also the number of chart series. */
  const FeatureCount := 4

  /** Feature `k` in series order: 0 rms, 1 kurtosis, 2 peak-to-peak,
      3 crest factor. */
  function Component(f: Features, k: nat): real
    requires k < FeatureCount
  {
    match k
    case 0 => f.rms
    case 1 => f.kurtosis
    case 2 => f.pp
    case _ => f.crestf
  }

  datatype Axis = X | Y | Z

  datatype AxisFeatures = AxisFeatures(x: Features, y: Features, z: Features) {
    function Get(a: Axis): Features {
      match a
      case X => x
      case Y => y
      case Z => z
    }
  }

  /** A feature group in which every field may be missing. */
  datatype PartialFeatures = PartialFeatures(rms: Option<real>, kurtosis: Option<real>,
                                             pp: Option<real>, crestf: Option<real>)

  /** The backend's `graph_value`, in which every axis may be missing. */
  datatype GraphValue = GraphValue(x: Option<PartialFeatures>, y: Option<PartialFeatures>,
                                   z: Option<PartialFeatures>)

  /** The three classifiers' individual verdicts. */
  datatype Models = Models(gnb: string, knn: string, svm: string)

  /** One machine's entry in a feed snapshot. */
  datatype MachineData = MachineData(
    confidence: string,
    models: Models,
    predictedFault: Option<string>,
    features: Option<AxisFeatures>,
    graphValue: Option<GraphValue>)

  /** A feed snapshot: machine id to entry, in `Object.entries` order. */
  type Snapshot = seq<(string, MachineData)>

  function FeedIds(snap: Snapshot): (r: seq<string>)
    ensures |r| == |snap|
  {
    seq(|snap|, i requires 0 <= i < |snap| => snap[i].0)
  }

  /** `data[id]`: the snapshot's entry for `id`, if any. */
  function Lookup(snap: Snapshot, id: string): (r: Option<MachineData>)
    ensures r.Some? <==> id in FeedIds(snap)
    decreases |snap|
  {
    if snap == [] then None
    else
      assert FeedIds(snap) == [snap[0].0] + FeedIds(snap[1..]);
      if snap[0].0 == id then Some(snap[0].1) else Lookup(snap[1..], id)
  }

  /** With distinct ids (as the keys of a JSON object are), `data[id]` is
      the entry stored under `id`. */
  lemma {:induction false} LookupDistinct(snap: Snapshot, i: int)
    requires Distinct(FeedIds(snap)) && 0 <= i < |snap|
    ensures Lookup(snap, snap[i].0) == Some(snap[i].1)
    decreases |snap|
  {
    assert FeedIds(snap) == [snap[0].0] + FeedIds(snap[1..]);
    if i > 0 {
      assert FeedIds(snap)[0] != FeedIds(snap)[i];
      assert FeedIds(snap[1..]) == FeedIds(snap)[1..];
      DistinctSlice(FeedIds(snap), 1, |snap|);
      LookupDistinct(snap[1..], i - 1);
    }
  }

  /** The fields a user sees and may edit on a machine card. */
  datatype Info = Info(name: string, machineType: string, location: string, lastMaintenance: string)

  /** A machine on the dashboard; `S` is the variant's history sample. */
  datatype Machine<S> = Machine(id: string, info: Info, data: MachineData, history: seq<S>)

  function Ids<S>(ms: seq<Machine<S>>): (r: seq<string>)
    ensures |r| == |ms|
  {
    seq(|ms|, i requires 0 <= i < |ms| => ms[i].id)
  }

  /** Filtering a list of machines never creates a repeated id. */
  lemma FilterKeepsIdsDistinct<S>(ms: seq<Machine<S>>, keep: Machine<S> -> bool)
    requires Distinct(Ids(ms))
    ensures Distinct(Ids(Filter(ms, keep)))
  {
    var r := Filter(ms, keep);
    var idx := FilterIndices(ms, keep);
    FilterIsSubsequence(ms, keep);
    forall a, b | 0 <= a < b < |r|
      ensures Ids(r)[a] != Ids(r)[b]
    {
      assert r[a] == ms[idx[a]] && r[b] == ms[idx[b]] && idx[a] < idx[b];
      assert Ids(ms)[idx[a]] != Ids(ms)[idx[b]];
    }
  }

  /** Appending a machine to a list with distinct ids keeps the ids distinct
      exactly when the new machine's id is not listed yet. */
  lemma AppendKeepsIdsDistinct<S>(ms: seq<Machine<S>>, m: Machine<S>)
    requires Distinct(Ids(ms))
    ensures Distinct(Ids(ms + [m])) <==> m.id !in Ids(ms)
  {
    var r := ms + [m];
    if m.id in Ids(ms) {
      var i :| 0 <= i < |ms| && Ids(ms)[i] == m.id;
      assert Ids(r)[i] == Ids(r)[|ms|];
    } else {
      forall a, b | 0 <= a < b < |r|
        ensures Ids(r)[a] != Ids(r)[b]
      {
        if b == |ms| {
          assert Ids(r)[a] == Ids(ms)[a];
        } else {
          assert Ids(r)[a] == Ids(ms)[a] && Ids(r)[b] == Ids(ms)[b];
        }
      }
    }
  }

  /** The add-machine form. */
  datatype Draft = Draft(name: string, machineType: string, location: string)

  const DefaultType := "Conveyor"
  const DefaultLocation := "Floor 1"
  const DefaultDraft := Draft("", DefaultType, DefaultLocation)

  /** Position of the first machine with id `id` (`Array.prototype.find`). */
  function FindIndex<S>(ms: seq<Machine<S>>, id: string): (r: Option<nat>)
    ensures r.None? <==> id !in Ids(ms)
    ensures r.Some? ==> r.value < |ms| && ms[r.value].id == id
    ensures r.Some? ==> forall j :: 0 <= j < r.value ==> ms[j].id != id
    decreases |ms|
  {
    if ms == [] then None
    else
      assert Ids(ms) == [ms[0].id] + Ids(ms[1..]);
      if ms[0].id == id then Some(0)
      else
        match FindIndex(ms[1..], id)
        case None => None
        case Some(j) => Some(j + 1)
  }

  /** The first position holding `id` is the one `FindIndex` returns. */
  lemma FindIndexAt<S>(ms: seq<Machine<S>>, id: string, i: int)
    requires 0 <= i < |ms| && ms[i].id == id
    requires forall j :: 0 <= j < i ==> ms[j].id != id
    ensures FindIndex(ms, id) == Some(i)
  {
    assert Ids(ms)[i] == id;
  }

  function Find<S>(ms: seq<Machine<S>>, id: string): Option<Machine<S>> {
    match FindIndex(ms, id)
    case None => None
    case Some(i) => Some(ms[i])
  }

  /** `existing?.field || fallback`: a present, non-empty value wins. */
  function OrDefault(existing: Option<string>, fallback: string): string {
    if existing.Some? && existing.value != "" then existing.value else fallback
  }

  /** The user fields a refreshed machine gets: the previous machine's
      non-empty fields, else `Machine <id>`, `Conveyor`, `Floor 1` and
      today's date. */
  function CarriedInfo(existing: Option<Info>, id: string, today: string): (r: Info)
    ensures existing.Some? && existing.value.name != "" ==> r.name == existing.value.name
    ensures existing.Some? && existing.value.machineType != "" ==> r.machineType == existing.value.machineType
    ensures existing.Some? && existing.value.location != "" ==> r.location == existing.value.location
    ensures existing.Some? && existing.value.lastMaintenance != "" ==> r.lastMaintenance == existing.value.lastMaintenance
    ensures existing.None? ==> r == Info("Machine " + id, DefaultType, DefaultLocation, today)
    ensures existing.Some? && existing.value.name == "" ==> r.name == "Machine " + id
    ensures existing.Some? && existing.value.machineType == "" ==> r.machineType == DefaultType
    ensures existing.Some? && existing.value.location == "" ==> r.location == DefaultLocation
    ensures existing.Some? && existing.value.lastMaintenance == "" ==> r.lastMaintenance == today
  {
    var e := existing;
    Info(OrDefault(if e.Some? then Some(e.value.name) else None, "Machine " + id),
         OrDefault(if e.Some? then Some(e.value.machineType) else None, DefaultType),
         OrDefault(if e.Some? then Some(e.value.location) else None, DefaultLocation),
         OrDefault(if e.Some? then Some(e.value.lastMaintenance) else None, today))
  }

  /** Colour of a machine card. */
  datatype Color = Emerald | Red | Amber

  /** `getStatusColor`: emerald for a normal verdict; otherwise red for a
      high-confidence verdict and amber for any other confidence. */
  function StatusColor(d: MachineData): (c: Color)
    ensures c == Emerald <==> d.predictedFault == Some("normal")
    ensures c == Red <==> d.predictedFault != Some("normal") && d.confidence == "high"
    ensures c == Amber <==> d.predictedFault != Some("normal") && d.confidence != "high"
  {
    if d.predictedFault == Some("normal") then Emerald
    else if d.confidence == "high" then Red
    else Amber
  }

  /** Icon of a machine card. */
  datatype Icon = CheckCircle | AlertTriangle | AlertCircle

  /** The card icon: a check for a normal verdict; otherwise a triangle for a
      low-confidence verdict and a circle for any other confidence. */
  function StatusIcon(d: MachineData): (i: Icon)
    ensures i == CheckCircle <==> d.predictedFault == Some("normal")
    ensures i == AlertTriangle <==> d.predictedFault != Some("normal") && d.confidence == "low"
    ensures i == AlertCircle <==> d.predictedFault != Some("normal") && d.confidence != "low"
  {
    if d.predictedFault == Some("normal") then CheckCircle
    else if d.confidence == "low" then AlertTriangle
    else AlertCircle
  }

  /** The colour each icon is drawn in. */
  function IconColor(i: Icon): Color {
    match i
    case CheckCircle => Emerald
    case AlertTriangle => Amber
    case AlertCircle => Red
  }

  /** The card's colour and its icon agree exactly when the verdict is
      normal or the confidence is one of the two values the backend emits;
      any other confidence shows an amber card with a red icon. */
  lemma IconAgreesWithColor(d: MachineData)
    ensures IconColor(StatusIcon(d)) == StatusColor(d)
        <==> d.predictedFault == Some("normal") || d.confidence == "high" || d.confidence == "low"
    ensures d.predictedFault != Some("normal") && d.confidence != "high" && d.confidence != "low"
        ==> StatusColor(d) == Amber && IconColor(StatusIcon(d)) == Red
  {
  }
}
