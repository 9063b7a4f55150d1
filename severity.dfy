/**
 * The choropleth colouring of static/js/dashboard.js: `d3.scaleThreshold`
 * over cases per million with four thresholds and five colours, and grey for
 * a map feature that no record of the snapshot describes.
 */
module SeverityScale {
  import opened Wrappers
  import opened Api

  /** The scale's domain: the lower bounds of the moderate, high, very high and critical buckets. */
  const Thresholds: seq<real> := [10000.0, 50000.0, 100000.0, 200000.0]

  /** The scale's range, from low to critical. */
  const Palette: seq<string> := ["#4CAF50", "#8BC34A", "#FFC107", "#FF9800", "#F44336"]

  /** The fill of a feature with no record. */
  const NoDataColor: string := "#ccc"

  /**
   * The bucket `scaleThreshold` picks: the number of leading thresholds that
   * are at most `x` (a value equal to a threshold goes to the bucket above it).
   */
  function BucketIndex(domain: seq<real>, x: real): (i: nat)
    ensures i <= |domain|
    ensures forall j :: 0 <= j < i ==> domain[j] <= x
    ensures i < |domain| ==> x < domain[i]
  {
    if domain == [] || x < domain[0] then 0 else 1 + BucketIndex(domain[1..], x)
  }

  /** A larger value never lands in a lower bucket. */
  lemma {:induction false} BucketIndexMonotone(domain: seq<real>, x: real, y: real)
    requires x <= y
    ensures BucketIndex(domain, x) <= BucketIndex(domain, y)
  {
    if domain != [] && !(x < domain[0]) {
      BucketIndexMonotone(domain[1..], x, y);
    }
  }

  /** `colorScale(casesPerMillion)`. */
  function ThresholdColor(casesPerMillion: real): (c: string)
    ensures c in Palette
  {
    Palette[BucketIndex(Thresholds, casesPerMillion)]
  }

  /** The five buckets, each with both of its bounds. */
  lemma ThresholdColorBuckets(x: real)
    ensures ThresholdColor(x) == "#4CAF50" <==> x < 10000.0
    ensures ThresholdColor(x) == "#8BC34A" <==> 10000.0 <= x < 50000.0
    ensures ThresholdColor(x) == "#FFC107" <==> 50000.0 <= x < 100000.0
    ensures ThresholdColor(x) == "#FF9800" <==> 100000.0 <= x < 200000.0
    ensures ThresholdColor(x) == "#F44336" <==> 200000.0 <= x
  {
    var i := BucketIndex(Thresholds, x);
    assert Thresholds[0] == 10000.0 && Thresholds[1] == 50000.0;
    assert Thresholds[2] == 100000.0 && Thresholds[3] == 200000.0;
    assert ThresholdColor(x) == Palette[i];
    assert Palette[0] == "#4CAF50" && Palette[1] == "#8BC34A" && Palette[2] == "#FFC107";
    assert Palette[3] == "#FF9800" && Palette[4] == "#F44336";
  }

  /** The colour only moves up the palette as cases per million grow. */
  lemma ThresholdColorMonotone(x: real, y: real)
    requires x <= y
    ensures exists i, j :: 0 <= i <= j < |Palette| && ThresholdColor(x) == Palette[i] && ThresholdColor(y) == Palette[j]
  {
    BucketIndexMonotone(Thresholds, x, y);
    var i, j := BucketIndex(Thresholds, x), BucketIndex(Thresholds, y);
    assert ThresholdColor(x) == Palette[i] && ThresholdColor(y) == Palette[j];
  }

  /** `data.countries.find(c => c.iso_code === d.id)`, from index `k` on. */
  function FirstWithCode(countries: seq<MapCountry>, featureId: string, k: nat): (r: Option<nat>)
    requires k <= |countries|
    ensures r.None? <==> forall i :: k <= i < |countries| ==> countries[i].isoCode != featureId
    ensures r.Some? ==> k <= r.value < |countries| && countries[r.value].isoCode == featureId
    ensures r.Some? ==> forall i :: k <= i < r.value ==> countries[i].isoCode != featureId
    decreases |countries| - k
  {
    if k == |countries| then None
    else if countries[k].isoCode == featureId then Some(k)
    else FirstWithCode(countries, featureId, k + 1)
  }

  /**
   * The fill `updateMap` gives the feature with id `featureId`: grey when no
   * record carries that code, otherwise the bucket colour of the first record
   * that does.
   */
  function FeatureFill(countries: seq<MapCountry>, featureId: string): (fill: string)
    ensures fill == NoDataColor <==> forall c :: c in countries ==> c.isoCode != featureId
    ensures fill != NoDataColor ==>
      exists k :: 0 <= k < |countries| && countries[k].isoCode == featureId &&
        fill == ThresholdColor(countries[k].casesPerMillion) &&
        forall i :: 0 <= i < k ==> countries[i].isoCode != featureId
  {
    match FirstWithCode(countries, featureId, 0)
    case None => NoDataColor
    case Some(k) => ThresholdColor(countries[k].casesPerMillion)
  }
}
