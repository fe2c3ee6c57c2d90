/** The live chart's rolling window (frontend/src/components/RealTimeChart.tsx
    and its copy inside frontend/src/App.tsx): on each refresh tick one point
    per feature is pushed into the four series (rms, kurtosis, peak-to-peak,
    crest factor), then every point at or before `now - 20000` ms is dropped. */
module RollingChart {
  import opened Wrappers
  import opened Seqs
  import opened Telemetry
  import FrontendApp

  /** One chart point: time in milliseconds and the plotted value. */
  datatype Point = Point(x: int, y: real)

  /** The retention window in milliseconds. */
  const WindowMs := 20000

  /** `point => point.x > removeTime` */
  function RecentAfter(removeTime: int): Point -> bool {
    (p: Point) => p.x > removeTime
  }

  /** `dataset.data.filter(...)`: the points strictly after `removeTime`. */
  function Evict(s: seq<Point>, removeTime: int): seq<Point> {
    Filter(s, RecentAfter(removeTime))
  }

  /** Series `i` after its point for `now` has been pushed. */
  function PushedSeries(series: seq<seq<Point>>, v: Features, now: int, i: nat): seq<Point>
    requires |series| == FeatureCount && i < FeatureCount
  {
    series[i] + [Point(now, Component(v, i))]
  }

  /** The four series after a tick that pushes the features `v` at `now`. */
  function TickSeries(series: seq<seq<Point>>, v: Features, now: int): (r: seq<seq<Point>>)
    requires |series| == FeatureCount
    ensures |r| == FeatureCount
  {
    seq(FeatureCount, i requires 0 <= i < FeatureCount => Evict(PushedSeries(series, v, now, i), now - WindowMs))
  }

  /** After a tick every kept point lies strictly inside the window. */
  lemma TickWindow(series: seq<seq<Point>>, v: Features, now: int)
    requires |series| == FeatureCount
    ensures forall i, k :: 0 <= i < FeatureCount && 0 <= k < |TickSeries(series, v, now)[i]| ==>
      TickSeries(series, v, now)[i][k].x > now - WindowMs
  {
    forall i, k | 0 <= i < FeatureCount && 0 <= k < |TickSeries(series, v, now)[i]|
      ensures TickSeries(series, v, now)[i][k].x > now - WindowMs
    {
      assert RecentAfter(now - WindowMs)(TickSeries(series, v, now)[i][k]);
    }
  }

  /** The point just pushed always survives: every series ends with a point
      stamped `now` carrying the feature of that series, in the order rms,
      kurtosis, peak-to-peak, crest factor. */
  lemma TickEndsWithPushed(series: seq<seq<Point>>, v: Features, now: int)
    requires |series| == FeatureCount
    ensures forall i :: 0 <= i < FeatureCount ==>
      var s := TickSeries(series, v, now)[i];
      |s| > 0 && s[|s| - 1] == Point(now, Component(v, i))
  {
    forall i | 0 <= i < FeatureCount
      ensures var s := TickSeries(series, v, now)[i];
        |s| > 0 && s[|s| - 1] == Point(now, Component(v, i))
    {
      var p := Point(now, Component(v, i));
      FilterAppend(series[i], [p], RecentAfter(now - WindowMs));
      assert Filter([p], RecentAfter(now - WindowMs)) == Filter([], RecentAfter(now - WindowMs)) + [p];
    }
  }

  /** Eviction is a filter of the pushed series: the kept points are exactly
      those strictly after `now - 20000`, in their original order. */
  lemma TickIsWindowFilter(series: seq<seq<Point>>, v: Features, now: int, i: nat)
    requires |series| == FeatureCount && i < FeatureCount
    ensures var pushed := PushedSeries(series, v, now, i);
      var idx := FilterIndices(pushed, RecentAfter(now - WindowMs));
      && EmbeddedAt(TickSeries(series, v, now)[i], pushed, idx)
      && forall j :: 0 <= j < |pushed| ==> (j in idx <==> pushed[j].x > now - WindowMs)
  {
    var pushed := PushedSeries(series, v, now, i);
    FilterIsSubsequence(pushed, RecentAfter(now - WindowMs));
    forall j | 0 <= j < |pushed|
      ensures RecentAfter(now - WindowMs)(pushed[j]) == (pushed[j].x > now - WindowMs)
    {
    }
  }

  /** Points at 0, 5000, 10000 and 15000 ms and a tick at 21000 ms: the point
      at 0 is evicted, the other three stay, followed by the new point. */
  lemma WindowExample(a: real, b: real, c: real, d: real, v: Features)
    ensures var s := [Point(0, a), Point(5000, b), Point(10000, c), Point(15000, d)];
      TickSeries([s, s, s, s], v, 21000)[0]
        == [Point(5000, b), Point(10000, c), Point(15000, d), Point(21000, v.rms)]
  {
    var s := [Point(0, a), Point(5000, b), Point(10000, c), Point(15000, d)];
    var keep := RecentAfter(1000);
    var pushed := s + [Point(21000, v.rms)];
    assert PushedSeries([s, s, s, s], v, 21000, 0) == pushed;
    assert pushed[..4] == s;
    var s1, s2, s3 := [Point(0, a)], [Point(0, a), Point(5000, b)], [Point(0, a), Point(5000, b), Point(10000, c)];
    assert s[..3] == s3 && s3[..2] == s2 && s2[..1] == s1 && s1[..0] == [];
    assert Filter(s1, keep) == [];
    assert Filter(s2, keep) == [Point(5000, b)];
    assert Filter(s3, keep) == [Point(5000, b), Point(10000, c)];
    assert Filter(s, keep) == [Point(5000, b), Point(10000, c), Point(15000, d)];
  }

  /** The features of the selected axis in the newest history entry, if the
      history is non-empty and that entry has the axis. */
  function LatestAxis(history: seq<map<string, Features>>, axis: string): (r: Option<Features>)
    ensures r.Some? <==> |history| > 0 && axis in history[|history| - 1]
    ensures r.Some? ==> r.value == history[|history| - 1][axis]
  {
    if |history| == 0 then None
    else
      var latest := history[|history| - 1];
      if axis in latest then Some(latest[axis]) else None
  }

  /** The chart's four datasets (rms, kurtosis, peak-to-peak, crest factor). */
  class StreamingChart {
    var datasets: array<seq<Point>>

    ghost predicate Valid()
      reads this
    {
      datasets.Length == FeatureCount
    }

    constructor ()
      ensures Valid() && fresh(datasets)
      ensures forall i :: 0 <= i < FeatureCount ==> datasets[i] == []
    {
      datasets := new seq<Point>[FeatureCount](_ => []);
    }

    /** Pushes one point per feature in place, then reassigns each dataset
        to its filtered copy. */
    method Tick(v: Features, now: int)
      requires Valid()
      modifies datasets
      ensures datasets[..] == TickSeries(old(datasets[..]), v, now)
    {
      datasets[0] := datasets[0] + [Point(now, v.rms)];
      datasets[1] := datasets[1] + [Point(now, v.kurtosis)];
      datasets[2] := datasets[2] + [Point(now, v.pp)];
      datasets[3] := datasets[3] + [Point(now, v.crestf)];
      ghost var pushed := datasets[..];
      assert forall i :: 0 <= i < FeatureCount ==> pushed[i] == PushedSeries(old(datasets[..]), v, now, i);
      var removeTime := now - WindowMs;
      var i := 0;
      while i < FeatureCount
        invariant 0 <= i <= FeatureCount
        invariant forall j :: 0 <= j < i ==> datasets[j] == Evict(pushed[j], removeTime)
        invariant forall j :: i <= j < FeatureCount ==> datasets[j] == pushed[j]
      {
        datasets[i] := Evict(datasets[i], removeTime);
        i := i + 1;
      }
    }

    /** `onRefresh` of RealTimeChart.tsx: a tick with the newest sample's
        features for `axis`; nothing changes when the history is empty or the
        newest sample lacks the axis. */
    method OnRefresh(history: seq<map<string, Features>>, axis: string, now: int)
      requires Valid()
      modifies datasets
      ensures datasets[..] == match LatestAxis(history, axis)
        case None => old(datasets[..])
        case Some(v) => TickSeries(old(datasets[..]), v, now)
    {
      var latest := LatestAxis(history, axis);
      if latest.Some? {
        Tick(latest.value, now);
      }
    }

    /** `onRefresh` of the chart inside App.tsx: a tick with the selected
        machine's newest sample for `axis`; nothing changes when no machine
        is selected or its history is empty. */
    method OnRefreshInline(selected: Option<FrontendApp.FrontendMachine>, axis: Axis, now: int)
      requires Valid()
      modifies datasets
      ensures selected.None? || selected.value.history == [] ==> datasets[..] == old(datasets[..])
      ensures selected.Some? && selected.value.history != [] ==>
        var h := selected.value.history;
        datasets[..] == TickSeries(old(datasets[..]), h[|h| - 1].axes.Get(axis), now)
    {
      if selected.Some? && |selected.value.history| > 0 {
        var h := selected.value.history;
        Tick(h[|h| - 1].axes.Get(axis), now);
      }
    }
  }
}
