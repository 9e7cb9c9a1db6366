/** The asset filter applied before markers are drawn (src/components/map/utils/filterAssets.ts). */
module AssetFilter {
  import opened Js
  import opened Types
  import opened MapUtils
  import opened Seqs

  /**
   * The four conditions an asset must meet: its type is selected (no
   * selection selects every type), its coordinates are valid, it has a risk
   * score inside the risk range and an install year inside the year range
   * (all bounds inclusive).
   */
  predicate Matches(a: Asset, f: AssetFilters) {
    (|f.assetTypes| == 0 || a.assetType in f.assetTypes)
    && IsValidCoordinate(a.longitude, a.latitude)
    && a.riskScore.Some? && f.riskLevel.min <= a.riskScore.value <= f.riskLevel.max
    && f.yearRange.min <= a.installYear <= f.yearRange.max
  }

  /** `filterAssets`: the matching assets, in their original order. */
  function FilterAssets(assets: seq<Asset>, f: AssetFilters): (r: seq<Asset>)
    ensures forall i :: 0 <= i < |r| ==> Matches(r[i], f)
    ensures forall a :: a in assets && Matches(a, f) ==> a in r
    ensures Subsequence(r, assets)
    ensures |r| <= |assets|
    decreases |assets|
  {
    if assets == [] then []
    else
      var rest := FilterAssets(assets[1..], f);
      assert forall a :: a in assets ==> a == assets[0] || a in assets[1..];
      if Matches(assets[0], f) then [assets[0]] + rest else rest
  }

  /** Filtering twice with the same filters changes nothing. */
  lemma {:induction false} FilterAssetsIdempotent(assets: seq<Asset>, f: AssetFilters)
    ensures FilterAssets(FilterAssets(assets, f), f) == FilterAssets(assets, f)
    decreases |assets|
  {
    if assets != [] {
      FilterAssetsIdempotent(assets[1..], f);
      if Matches(assets[0], f) {
        assert ([assets[0]] + FilterAssets(assets[1..], f))[1..] == FilterAssets(assets[1..], f);
      }
    }
  }

  /** Filtering a concatenation filters each part. */
  lemma {:induction false} FilterAssetsAppend(a: seq<Asset>, b: seq<Asset>, f: AssetFilters)
    ensures FilterAssets(a + b, f) == FilterAssets(a, f) + FilterAssets(b, f)
    decreases |a|
  {
    if a != [] {
      assert (a + b)[0] == a[0] && (a + b)[1..] == a[1..] + b;
      FilterAssetsAppend(a[1..], b, f);
    } else {
      assert a + b == b;
    }
  }

  /** An asset without a risk score never survives the filter, whatever the filters are. */
  lemma UnscoredAssetsExcluded(assets: seq<Asset>, f: AssetFilters)
    ensures forall i :: 0 <= i < |FilterAssets(assets, f)| ==> FilterAssets(assets, f)[i].riskScore.Some?
  {
  }
}
