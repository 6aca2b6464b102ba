/** The `survival_profile` callback of the patient-similarity page: encode
    the selected TNM stage, pick the nearest cluster centroid, and chart that
    cluster's survival profile. Every exception the callback can raise is an
    explicit `Fault`, in the order the callback would meet it. */
module Similarity {
  import opened Wrappers
  import opened Staging
  import opened Matching
  import opened Profile

  /** Why the callback produces no chart. */
  datatype Fault =
    | InvalidStage(axis: Axis)  // the label is not on its axis: `np.where(...)[0][0]` has no hit
    | NoResults                 // `centroids` or `profiles` is still `None`: nothing was retrieved
    | DimensionMismatch         // a centroid does not have the three coordinates of the query
    | NoClusters                // the centroid list is empty: `np.argmin` of an empty list
    | MissingProfile            // no profile at the matched cluster's index
    | ProfileLength             // the profile does not have one rate per day of the axis

  /** What the callback renders: an empty text, or the chart of one cluster. */
  datatype View = Blank | Chart(cluster: nat, series: seq<SeriesPoint>)

  /** Centroids and profiles as retrieved: `None` until a task completes. */
  type Centroids = Option<seq<seq<real>>>
  type Profiles = Option<seq<seq<real>>>

  /** A dropdown value that Python treats as true: selected and non-empty. */
  predicate Selected(v: Option<string>)
  {
    v.Some? && v.value != ""
  }

  /** The stage as the point `[t, n, m]` the distances are measured from. */
  function Query(scheme: Scheme, t: string, n: string, m: string): (q: seq<real>)
    requires t in scheme.t && n in scheme.n && m in scheme.m
    ensures |q| == 3
  {
    [Encode(scheme.t, t) as real, Encode(scheme.n, n) as real, Encode(scheme.m, m) as real]
  }

  /** The callback on the current `centroids` and `profiles`. */
  function SurvivalProfile(scheme: Scheme, centroids: Centroids, profiles: Profiles,
                           t: Option<string>, n: Option<string>, m: Option<string>): (out: Result<View, Fault>)
    ensures out == Ok(Blank) <==> !(Selected(t) && Selected(n) && Selected(m))
  {
    if !(Selected(t) && Selected(n) && Selected(m)) then Ok(Blank)
    else if t.value !in scheme.t then Err(InvalidStage(T))
    else if n.value !in scheme.n then Err(InvalidStage(N))
    else if m.value !in scheme.m then Err(InvalidStage(M))
    else if centroids.None? then Err(NoResults)
    else
      var q := Query(scheme, t.value, n.value, m.value);
      var cs := centroids.value;
      if !SameDimension(q, cs) then Err(DimensionMismatch)
      else if |cs| == 0 then Err(NoClusters)
      else
        var k := Nearest(q, cs);
        if profiles.None? then Err(NoResults)
        else if k >= |profiles.value| then Err(MissingProfile)
        else
          match Series(profiles.value[k])
          case None => Err(ProfileLength)
          case Some(series) => Ok(Chart(k, series))
  }

  /** A chart is produced only for a stage on the scheme, and shows the
      cluster nearest to it, with ties going to the lowest index, paired
      with the retrieved profile of that cluster day by day. */
  lemma ChartIsNearestProfile(scheme: Scheme, centroids: Centroids, profiles: Profiles,
                              t: Option<string>, n: Option<string>, m: Option<string>)
    requires SurvivalProfile(scheme, centroids, profiles, t, n, m).Ok?
    requires SurvivalProfile(scheme, centroids, profiles, t, n, m).value.Chart?
    ensures Selected(t) && Selected(n) && Selected(m)
    ensures t.value in scheme.t && n.value in scheme.n && m.value in scheme.m
    ensures centroids.Some? && profiles.Some?
    ensures var q := Query(scheme, t.value, n.value, m.value);
            var cs := centroids.value;
            var k := SurvivalProfile(scheme, centroids, profiles, t, n, m).value.cluster;
            && SameDimension(q, cs)
            && k < |cs| && k < |profiles.value|
            && (forall j :: 0 <= j < |cs| ==> SqDist(q, cs[k]) <= SqDist(q, cs[j]))
            && (forall j :: 0 <= j < k ==> SqDist(q, cs[k]) < SqDist(q, cs[j]))
    ensures var view := SurvivalProfile(scheme, centroids, profiles, t, n, m).value;
            && |profiles.value[view.cluster]| == AxisLength
            && |view.series| == AxisLength
            && forall i :: 0 <= i < AxisLength ==>
                 view.series[i] == SeriesPoint(30 * i, profiles.value[view.cluster][i])
  {
  }

  /** A stage that is not on the scheme is rejected before any matching:
      the outcome does not depend on what was retrieved. */
  lemma InvalidStageBeforeMatching(scheme: Scheme, c1: Centroids, p1: Profiles, c2: Centroids, p2: Profiles,
                                   t: Option<string>, n: Option<string>, m: Option<string>)
    requires Selected(t) && Selected(n) && Selected(m)
    requires t.value !in scheme.t || n.value !in scheme.n || m.value !in scheme.m
    ensures SurvivalProfile(scheme, c1, p1, t, n, m).Err?
    ensures SurvivalProfile(scheme, c1, p1, t, n, m).error.InvalidStage?
    ensures SurvivalProfile(scheme, c1, p1, t, n, m) == SurvivalProfile(scheme, c2, p2, t, n, m)
  {
  }

  /** Before any retrieval (`centroids` is `None`) a selected stage on the
      scheme cannot be matched. */
  lemma NoMatchBeforeRetrieval(scheme: Scheme, profiles: Profiles,
                               t: Option<string>, n: Option<string>, m: Option<string>)
    requires Selected(t) && Selected(n) && Selected(m)
    requires t.value in scheme.t && n.value in scheme.n && m.value in scheme.m
    ensures SurvivalProfile(scheme, None, profiles, t, n, m) == Err(NoResults)
  {
  }

  /** Well-formed results (three coordinates per centroid, one profile of
      25 rates per centroid) always give a chart for a stage on the scheme. */
  lemma WellFormedResultsGiveChart(scheme: Scheme, cs: seq<seq<real>>, ps: seq<seq<real>>,
                                   t: string, n: string, m: string)
    requires t != "" && n != "" && m != ""
    requires t in scheme.t && n in scheme.n && m in scheme.m
    requires |cs| > 0 && |ps| == |cs|
    requires forall j :: 0 <= j < |cs| ==> |cs[j]| == 3
    requires forall j :: 0 <= j < |ps| ==> |ps[j]| == AxisLength
    ensures SurvivalProfile(scheme, Some(cs), Some(ps), Some(t), Some(n), Some(m)).Ok?
    ensures SurvivalProfile(scheme, Some(cs), Some(ps), Some(t), Some(n), Some(m)).value
            == Chart(Nearest(Query(scheme, t, n, m), cs), Series(ps[Nearest(Query(scheme, t, n, m), cs)]).value)
  {
  }

  /** `x` is a whole number that indexes `stage` on `axis`. */
  ghost predicate IndexesStage(axis: Labels, x: real, stage: string)
  {
    x == x.Floor as real && 0 <= x.Floor < |axis| && Decode(axis, x.Floor) == stage
  }

  /** Each coordinate of the query point is a whole number that decodes to
      the label selected on its axis. */
  lemma QueryDecodes(scheme: Scheme, t: string, n: string, m: string)
    requires t in scheme.t && n in scheme.n && m in scheme.m
    ensures IndexesStage(scheme.t, Query(scheme, t, n, m)[0], t)
    ensures IndexesStage(scheme.n, Query(scheme, t, n, m)[1], n)
    ensures IndexesStage(scheme.m, Query(scheme, t, n, m)[2], m)
  {
    DecodeEncode(scheme.t, t);
    DecodeEncode(scheme.n, n);
    DecodeEncode(scheme.m, m);
  }
}

/** A worked example: a scheme with two labels per axis and two clusters,
    one at the lowest stage and one at the highest. */
module Scenarios {
  import opened Wrappers
  import opened Staging
  import opened Matching
  import opened Profile
  import opened Similarity

  /** Two distinct, non-empty labels on each axis. */
  predicate TwoLabelsEach(s: Scheme)
  {
    && |s.t| == 2 && |s.n| == 2 && |s.m| == 2
    && s.t[0] != s.t[1] && s.n[0] != s.n[1] && s.m[0] != s.m[1]
    && s.t[0] != "" && s.t[1] != "" && s.n[0] != "" && s.n[1] != "" && s.m[0] != "" && s.m[1] != ""
  }

  function Corners(): seq<seq<real>>
  {
    [[0.0, 0.0, 0.0], [1.0, 1.0, 1.0]]
  }

  lemma CornerQueries(s: Scheme)
    requires TwoLabelsEach(s)
    ensures Query(s, s.t[0], s.n[0], s.m[0]) == Corners()[0]
    ensures Query(s, s.t[1], s.n[1], s.m[1]) == Corners()[1]
  {
  }

  lemma CornersNearest()
    ensures Nearest(Corners()[0], Corners()) == 0
    ensures Nearest(Corners()[1], Corners()) == 1
  {
    var a, b := Corners()[0], Corners()[1];
    assert a[1..][1..][1..] == [] && b[1..][1..][1..] == [];
    assert SqDist(a[1..][1..], b[1..][1..]) == 1.0;
    assert SqDist(a[1..], b[1..]) == 2.0;
    assert SqDist(b[1..][1..], a[1..][1..]) == 1.0;
    assert SqDist(b[1..], a[1..]) == 2.0;
    assert SqDist(a, b) == 3.0 && SqDist(b, a) == 3.0;
    assert SqDist(a, a) == 0.0 && SqDist(b, b) == 0.0;
  }

  /** The lowest stage is the origin and matches cluster 0. */
  lemma LowestStageMatchesFirstCorner(s: Scheme, p0: seq<real>, p1: seq<real>)
    requires TwoLabelsEach(s) && |p0| == |p1| == AxisLength
    ensures SurvivalProfile(s, Some(Corners()), Some([p0, p1]), Some(s.t[0]), Some(s.n[0]), Some(s.m[0]))
            == Ok(Chart(0, Series(p0).value))
  {
    CornerQueries(s);
    CornersNearest();
    WellFormedResultsGiveChart(s, Corners(), [p0, p1], s.t[0], s.n[0], s.m[0]);
  }

  /** The highest stage sits on the second centroid and matches cluster 1. */
  lemma HighestStageMatchesSecondCorner(s: Scheme, p0: seq<real>, p1: seq<real>)
    requires TwoLabelsEach(s) && |p0| == |p1| == AxisLength
    ensures SurvivalProfile(s, Some(Corners()), Some([p0, p1]), Some(s.t[1]), Some(s.n[1]), Some(s.m[1]))
            == Ok(Chart(1, Series(p1).value))
  {
    CornerQueries(s);
    CornersNearest();
    WellFormedResultsGiveChart(s, Corners(), [p0, p1], s.t[1], s.n[1], s.m[1]);
  }

  /** Two clusters at the same place: the first one is chosen. */
  lemma EqualCentroidsPickFirst(s: Scheme, c: seq<real>, p0: seq<real>, p1: seq<real>)
    requires TwoLabelsEach(s) && |c| == 3 && |p0| == |p1| == AxisLength
    ensures SurvivalProfile(s, Some([c, c]), Some([p0, p1]), Some(s.t[0]), Some(s.n[1]), Some(s.m[0]))
            == Ok(Chart(0, Series(p0).value))
  {
    WellFormedResultsGiveChart(s, [c, c], [p0, p1], s.t[0], s.n[1], s.m[0]);
  }

  /** A T label the scheme does not have is rejected. */
  lemma UnknownStageRejected(s: Scheme, t: string, cs: Centroids, ps: Profiles)
    requires TwoLabelsEach(s) && t != "" && t !in s.t
    ensures SurvivalProfile(s, cs, ps, Some(t), Some(s.n[0]), Some(s.m[0])) == Err(InvalidStage(T))
  {
  }
}
