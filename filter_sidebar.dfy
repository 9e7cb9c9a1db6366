/**
 * The filter handlers of the sidebar (src/components/FilterSidebar.tsx):
 * each builds the filters passed to `onFiltersChange` from the current ones.
 * A slider's `value` is the list of its two thumb positions.
 */
module FilterSidebar {
  import opened Types
  import opened Seqs
  import opened AssetFilter

  /** `filters.assetTypes.filter(t => t !== type)`. */
  function WithoutType(types: seq<AssetType>, t: AssetType): (r: seq<AssetType>)
    ensures t !in r
    ensures forall u :: u != t ==> multiset(r)[u] == multiset(types)[u]
    ensures |r| == |types| - multiset(types)[t]
    ensures Subsequence(r, types)
    decreases |types|
  {
    if types == [] then []
    else
      var rest := WithoutType(types[1..], t);
      assert types == [types[0]] + types[1..];
      if types[0] == t then rest else [types[0]] + rest
  }

  /** Removing a type that is not selected leaves the selection as it was. */
  lemma {:induction false} WithoutAbsentType(types: seq<AssetType>, t: AssetType)
    requires t !in types
    ensures WithoutType(types, t) == types
    decreases |types|
  {
    if types != [] {
      assert types[0] in types && types[0] != t;
      WithoutAbsentType(types[1..], t);
    }
  }

  /** Removing everything after an appended copy equals removing it before the append. */
  lemma {:induction false} WithoutAfterAppend(types: seq<AssetType>, t: AssetType)
    ensures WithoutType(types + [t], t) == WithoutType(types, t)
    decreases |types|
  {
    if types == [] {
      assert [t][1..] == [];
    } else {
      assert (types + [t])[1..] == types[1..] + [t];
      WithoutAfterAppend(types[1..], t);
    }
  }

  /**
   * `handleAssetTypeChange`: checking appends the type at the end even when
   * it is already selected (so the selection grows by one and the type's
   * count by one); unchecking removes every occurrence and keeps the other
   * types in order. The ranges are carried over.
   */
  function AssetTypeChanged(filters: AssetFilters, t: AssetType, checked: bool): (r: AssetFilters)
    ensures r.riskLevel == filters.riskLevel && r.yearRange == filters.yearRange
    ensures checked ==> |r.assetTypes| == |filters.assetTypes| + 1
                        && r.assetTypes[..|filters.assetTypes|] == filters.assetTypes
                        && r.assetTypes[|filters.assetTypes|] == t
                        && multiset(r.assetTypes)[t] == multiset(filters.assetTypes)[t] + 1
    ensures !checked ==> t !in r.assetTypes && Subsequence(r.assetTypes, filters.assetTypes)
    ensures forall u :: u != t ==> multiset(r.assetTypes)[u] == multiset(filters.assetTypes)[u]
  {
    var newTypes := if checked then filters.assetTypes + [t] else WithoutType(filters.assetTypes, t);
    filters.(assetTypes := newTypes)
  }

  /**
   * Checking and then unchecking a type removes it altogether, so the
   * filters come back as they were exactly when the type had not been
   * selected before.
   */
  lemma CheckThenUncheck(filters: AssetFilters, t: AssetType)
    ensures AssetTypeChanged(AssetTypeChanged(filters, t, true), t, false)
            == filters.(assetTypes := WithoutType(filters.assetTypes, t))
    ensures t !in filters.assetTypes ==>
      AssetTypeChanged(AssetTypeChanged(filters, t, true), t, false) == filters
  {
    WithoutAfterAppend(filters.assetTypes, t);
    if t !in filters.assetTypes {
      WithoutAbsentType(filters.assetTypes, t);
    }
  }

  /** `handleRiskLevelChange`: the two thumbs become the risk range; the rest is carried over. */
  function RiskLevelChanged(filters: AssetFilters, value: seq<real>): (r: AssetFilters)
    requires |value| >= 2
    ensures r.riskLevel.min == value[0] && r.riskLevel.max == value[1]
    ensures r.assetTypes == filters.assetTypes && r.yearRange == filters.yearRange
  {
    filters.(riskLevel := RiskRange(value[0], value[1]))
  }

  /** `handleYearRangeChange`: the two thumbs become the year range; the rest is carried over. */
  function YearRangeChanged(filters: AssetFilters, value: seq<int>): (r: AssetFilters)
    requires |value| >= 2
    ensures r.yearRange.min == value[0] && r.yearRange.max == value[1]
    ensures r.assetTypes == filters.assetTypes && r.riskLevel == filters.riskLevel
  {
    filters.(yearRange := YearRange(value[0], value[1]))
  }

  /**
   * Moving a slider back to the filters' own range (the slider's default
   * value) changes nothing; a later move of the same slider overrides an
   * earlier one; and moves of the two sliders commute.
   */
  lemma SliderMoves(filters: AssetFilters, risk1: seq<real>, risk2: seq<real>, years1: seq<int>, years2: seq<int>)
    requires |risk1| >= 2 && |risk2| >= 2 && |years1| >= 2 && |years2| >= 2
    ensures RiskLevelChanged(filters, [filters.riskLevel.min, filters.riskLevel.max]) == filters
    ensures YearRangeChanged(filters, [filters.yearRange.min, filters.yearRange.max]) == filters
    ensures RiskLevelChanged(RiskLevelChanged(filters, risk1), risk2) == RiskLevelChanged(filters, risk2)
    ensures YearRangeChanged(YearRangeChanged(filters, years1), years2) == YearRangeChanged(filters, years2)
    ensures YearRangeChanged(RiskLevelChanged(filters, risk1), years1)
            == RiskLevelChanged(YearRangeChanged(filters, years1), risk1)
  {
  }

  /** The "Clear Selection" button is shown only while some type is selected. */
  predicate ClearShown(filters: AssetFilters) {
    |filters.assetTypes| > 0
  }

  /** The "Clear Selection" click: no type selected, the ranges carried over. */
  function SelectionCleared(filters: AssetFilters): (r: AssetFilters)
    ensures r.assetTypes == [] && r.riskLevel == filters.riskLevel && r.yearRange == filters.yearRange
    ensures !ClearShown(r)
  {
    filters.(assetTypes := [])
  }

  /**
   * With no type selected every type passes the type test, so after a clear
   * an asset matches exactly when its coordinates, risk score and install
   * year pass, whatever types had been selected.
   */
  lemma ClearedSelectsEveryType(filters: AssetFilters, a: Asset)
    ensures Matches(a, SelectionCleared(filters))
      <==> Matches(a, filters.(assetTypes := [a.assetType]))
  {
  }

  /**
   * Unchecking the one type left selected does what a clear does: every
   * type becomes visible again.
   */
  lemma UncheckLastIsClear(filters: AssetFilters, t: AssetType)
    requires forall u :: u in filters.assetTypes ==> u == t
    ensures AssetTypeChanged(filters, t, false) == SelectionCleared(filters)
  {
    OnlyTypeCount(filters.assetTypes, t);
  }

  /** A selection holding nothing but `t` holds it as many times as it is long. */
  lemma {:induction false} OnlyTypeCount(types: seq<AssetType>, t: AssetType)
    requires forall u :: u in types ==> u == t
    ensures multiset(types)[t] == |types|
    decreases |types|
  {
    if types != [] {
      assert types == [types[0]] + types[1..];
      assert types[0] in types;
      assert forall u :: u in types[1..] ==> u in types;
      OnlyTypeCount(types[1..], t);
    }
  }
}
