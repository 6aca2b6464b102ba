/** Nearest-centroid selection: the distance from an encoded stage to every
    cluster centroid, and numpy's `argmin` over those distances. Euclidean
    distance is modelled by its square, which orders points the same way
    (lemmas EuclideanArgMinAgrees and NearestIsEuclideanArgMin). */
module Matching {

  /** Squared Euclidean distance between two points of equal dimension. */
  function SqDist(a: seq<real>, b: seq<real>): (r: real)
    requires |a| == |b|
    ensures r >= 0.0
    ensures a == b ==> r == 0.0
  {
    if a == [] then 0.0
    else
      var d := a[0] - b[0];
      SquareNonNegative(d);
      d * d + SqDist(a[1..], b[1..])
  }

  lemma SquareNonNegative(x: real)
    ensures x * x >= 0.0
  {
    if x < 0.0 {
      ProductNonNegative(-x, -x);
      assert (-x) * (-x) == x * x;
    } else {
      ProductNonNegative(x, x);
    }
  }

  /** `k` is where `np.argmin` lands: a smallest entry, and no entry before it
      is as small. */
  ghost predicate IsFirstMin(ds: seq<real>, k: int)
  {
    && 0 <= k < |ds|
    && (forall j :: 0 <= j < |ds| ==> ds[k] <= ds[j])
    && (forall j :: 0 <= j < k ==> ds[k] < ds[j])
  }

  /** `np.argmin`: the index of the first minimum of a non-empty list. */
  function ArgMin(ds: seq<real>): (k: nat)
    requires |ds| > 0
    ensures IsFirstMin(ds, k)
  {
    if |ds| == 1 then 0
    else
      var last := |ds| - 1;
      var k := ArgMin(ds[..last]);
      if ds[last] < ds[k] then last else k
  }

  /** The first-minimum property determines the argmin: the lowest-index
      tie-break makes the choice unique, so matching is deterministic. */
  lemma ArgMinCharacterised(ds: seq<real>, k: int)
    requires |ds| > 0
    ensures IsFirstMin(ds, k) <==> k == ArgMin(ds)
  {
  }

  /** Two lists whose entries compare the same way have the same argmin. */
  lemma ArgMinOrderInvariant(ds: seq<real>, es: seq<real>)
    requires |ds| == |es| > 0
    requires forall i, j :: 0 <= i < |ds| && 0 <= j < |ds| ==> (ds[i] < ds[j] <==> es[i] < es[j])
    ensures ArgMin(ds) == ArgMin(es)
  {
    var k := ArgMin(ds);
    assert IsFirstMin(es, k) by {
      forall j | 0 <= j < |es| ensures es[k] <= es[j] {
        assert !(ds[j] < ds[k]);
      }
    }
    ArgMinCharacterised(es, k);
  }

  lemma ProductPositive(a: real, b: real)
    requires a > 0.0 && b > 0.0
    ensures a * b > 0.0
  {
  }

  lemma ProductNonNegative(a: real, b: real)
    requires a >= 0.0 && b >= 0.0
    ensures a * b >= 0.0
  {
  }

  /** Squaring preserves and reflects the order of non-negative reals. */
  lemma SquareOrder(x: real, y: real)
    requires x >= 0.0 && y >= 0.0
    ensures x < y <==> x * x < y * y
  {
    if x < y {
      ProductPositive(y - x, y + x);
      assert (y - x) * (y + x) == y * y - x * x;
    } else {
      ProductNonNegative(x - y, x + y);
      assert (x - y) * (x + y) == x * x - y * y;
    }
  }

  /** Taking the argmin over the Euclidean distances (`eu`, the non-negative
      square roots of the squared distances `sq`) picks the same cluster as
      taking it over the squared distances. */
  lemma EuclideanArgMinAgrees(sq: seq<real>, eu: seq<real>)
    requires |sq| == |eu| > 0
    requires forall i :: 0 <= i < |eu| ==> eu[i] >= 0.0 && eu[i] * eu[i] == sq[i]
    ensures ArgMin(eu) == ArgMin(sq)
  {
    forall i, j | 0 <= i < |eu| && 0 <= j < |eu| ensures sq[i] < sq[j] <==> eu[i] < eu[j] {
      SquareOrder(eu[i], eu[j]);
    }
    ArgMinOrderInvariant(sq, eu);
  }

  /** Every centroid has the dimension of the query point. */
  predicate SameDimension(q: seq<real>, centroids: seq<seq<real>>)
  {
    forall j :: 0 <= j < |centroids| ==> |centroids[j]| == |q|
  }

  /** The cluster nearest to `q`: no centroid is closer, and every centroid
      before it is strictly farther, so ties go to the lowest index. */
  function Nearest(q: seq<real>, centroids: seq<seq<real>>): (k: nat)
    requires |centroids| > 0 && SameDimension(q, centroids)
    ensures k < |centroids|
    ensures forall j :: 0 <= j < |centroids| ==> SqDist(q, centroids[k]) <= SqDist(q, centroids[j])
    ensures forall j :: 0 <= j < k ==> SqDist(q, centroids[k]) < SqDist(q, centroids[j])
  {
    var ds := seq(|centroids|, j requires 0 <= j < |centroids| => SqDist(q, centroids[j]));
    assert forall j :: 0 <= j < |ds| ==> ds[j] == SqDist(q, centroids[j]);
    ArgMin(ds)
  }

  /** The matcher as written takes `np.argmin` over Euclidean distances
      (`eu`, the non-negative square roots of the squared distances); it
      picks the cluster `Nearest` picks. */
  lemma NearestIsEuclideanArgMin(q: seq<real>, centroids: seq<seq<real>>, eu: seq<real>)
    requires |centroids| > 0 && SameDimension(q, centroids)
    requires |eu| == |centroids|
    requires forall i :: 0 <= i < |eu| ==> eu[i] >= 0.0 && eu[i] * eu[i] == SqDist(q, centroids[i])
    ensures ArgMin(eu) == Nearest(q, centroids)
  {
    var sq := seq(|centroids|, j requires 0 <= j < |centroids| => SqDist(q, centroids[j]));
    EuclideanArgMinAgrees(sq, eu);
  }
}
