# Grid-asset map core, modelled in Dafny

The model covers the map dashboard of a utility-asset viewer. It shows grid
assets (substations, transformers, poles, solar panels, wind turbines and
batteries), solar houses and PG&E substations on a Mapbox map. It keeps a
monthly map-load quota in browser storage. It filters the assets, classifies
them by risk score, and links each house to its nearest substation.

The model covers five parts:

- **Quota and map session.** The monthly map-load quota (free limit 50 000,
  warning band 1 000, rolled over by month) and the per-tab session flag.
  The initialization hook is a state machine over its refs. The 300 ms
  delayed initialization, the map's `load` event and the 5 s load timeout
  are explicit events.
- **Marker reconciliation.** The asset filter, the asset marker rebuild, and
  the house and substation marker passes. All of them fill the shared
  `markers` and rendered-keys dictionaries, keyed `asset-<id>`,
  `palmetto-<id>` and `pge-substation-<slug>`. The model also covers zoom
  visibility, the unmount clean-up, the connection-line layer list, and the
  bounds fitting.
- **Nearest-substation search.** The search for house popups, and the
  assignment of houses to the nearest substation within two miles with its
  connection table. It also covers the data loader that reuses stored
  connections and the connected-houses query.
- **Classification.** The marker classes and popup text, the risk colour and
  risk notes, the mock grid-constraint entries, and the failure-risk
  estimate.
- **Filter sidebar.** The handlers that compute the new filter record.

Where the source changes state in place, the model uses classes: markers,
the refs, the quota store, the map view, the connection table and the map
session. The pure rules are functions, and each loop is a method proved
against a function of its inputs.

External calls are parameters:

- the distance function;
- whether a map SDK call throws;
- the outcome of each database read and upsert;
- the `Math.random()` draws;
- the current month.

## Model

| member | source | states |
|---|---|---|
| MapUtils.LoadsRead | src/components/map/mapUtils.ts:56-64 | In a new month the stored month becomes the current one, the count becomes 0, and 0 is returned. In the same month nothing is written and the stored count (missing reads as 0) is returned. |
| MapUtils.LoadsIncremented | src/components/map/mapUtils.ts:34-54 | The session flag is always set. In a new month the count is stored as 1 and 1 is returned. Otherwise stored+1 is persisted and returned. |
| MapUtils.InitPermitted | src/components/map/mapUtils.ts:15-26 | In a new month the result is true, with the same storage a read produces. In the same month nothing is written and the result is true iff count < 50 000. |
| MapUtils.WarningShown | src/components/map/mapUtils.ts:85-94 | True iff the stored month is current and at most 1 000 loads remain. |
| MapUtils.SessionFlagReset | src/components/map/mapUtils.ts:29-32 | Only the session flag is cleared; the month and count are unchanged. |
| MapUtils.ReadThenIncrementInNewMonth | src/components/map/mapUtils.ts:42-47 | In a new month a read reports 0 and the following increment returns 1. |
| MapUtils.ReadThenIncrement | src/components/map/mapUtils.ts:50-63 | An increment right after a read returns one more than the read. |
| MapUtils.NoWarningAfterRollover | src/components/map/mapUtils.ts:85-89 | A stale month never warns, before or after the rollover read. |
| MapUtils.LimitReachedAt50000 | src/components/map/mapUtils.ts:15-26 | From 49 999 the map may still start. The increment returns 50 000, after which permission is refused and the warning shows. |
| MapUtils.CountMonotonicWithinMonth | src/components/map/mapUtils.ts:50-63 | Within a month, reads and permission checks keep the count and an increment adds exactly one. |
| MapUtils.QuotaStore.constructor | src/components/map/mapUtils.ts:4-8 | The store starts in the given storage state. |
| MapUtils.QuotaStore.GetMapboxLoads | src/components/map/mapUtils.ts:56-64 | The new storage and the result are those of `LoadsRead`. |
| MapUtils.QuotaStore.IncrementMapboxLoads | src/components/map/mapUtils.ts:34-54 | The new storage and the result are those of `LoadsIncremented`. |
| MapUtils.QuotaStore.ShouldInitializeMapbox | src/components/map/mapUtils.ts:15-26 | The new storage and the result are those of `InitPermitted`. |
| MapUtils.QuotaStore.ResetMapboxSessionFlag | src/components/map/mapUtils.ts:29-32 | The new storage is `SessionFlagReset` of the old one. |
| MapUtils.QuotaStore.ShouldShowWarning | src/components/map/mapUtils.ts:85-94 | Storage is only read, and the result is `WarningShown`. |
| MapUtils.PlottableInlineIsValidAndNonZero | src/components/map/mapUtils.ts:97-102 | The inline marker and bounds check is `isValidCoordinate` (no NaN, inclusive ranges) with an exact 0 on either axis excluded. |
| MapUtils.ZeroCoordinateDisagreement | src/components/map/mapUtils.ts:97-102 | A point on the prime meridian is a valid coordinate but fails the inline check. |
| MapUtils.ClearAllMarkers | src/components/map/mapUtils.ts:67-83 | Every marker whose `remove` does not throw is detached, a throwing one is left as it was, and the empty dictionary is returned. |
| MapSurface.RegisterMarker | src/components/map/MapMarkers.tsx:94-98 | The marker is stored under its key in the marker dictionary, and the key is added to the rendered keys. |
| MapSurface.RemoveAll | src/components/map/hooks/useMapInitialization.ts:101 | Every marker of the dictionary is detached; visibility is unchanged. |
| MapSurface.MapView.RemoveLayerAndSource | src/components/map/components/ConnectionLines.tsx:25-37 | With a style, the layer and the source of the id are gone. Without one, nothing changes. |
| MapInitialization.MapSession.constructor | src/components/map/hooks/useMapInitialization.ts:25-27 | No map, no marker, all flags clear, and the session invariant holds. |
| MapInitialization.MapSession.MountEffect | src/components/map/hooks/useMapInitialization.ts:30-46 | Unless a map is up, the session flag is reset first. Then the shown load count is `LoadsRead` and the warning is `WarningShown`. No control flag changes. |
| MapInitialization.MapSession.InitEffect | src/components/map/hooks/useMapInitialization.ts:59-82 | An attempt starts iff no session map exists, no attempt is in flight, the container and a non-empty token are present, and the stored loads are below 50 000. Starting sets `attempted` and schedules the timer. When the guards fail, storage is untouched. The counter is never incremented here. |
| MapInitialization.MapSession.FireInitTimer | src/components/map/hooks/useMapInitialization.ts:83-96 | A pending timer increments the count exactly once. At ≥ 50 000 the warning shows, `attempted` is reset and no map is made. Otherwise the outcome is that of `CreateMap`. |
| MapInitialization.MapSession.CreateMap | src/components/map/hooks/useMapInitialization.ts:98-141 | Any old map is removed with all its markers detached and the dictionary emptied. Then either the constructor throws (token input shown, `attempted` reset) or a fresh map is the only live one and waits for `load` and the 5 s timeout. |
| MapInitialization.MapSession.TearDownMap | src/components/map/hooks/useMapInitialization.ts:99-105 | Every marker is detached, the dictionary is emptied, and the map is removed and dropped. |
| MapInitialization.MapSession.FireLoad | src/components/map/hooks/useMapInitialization.ts:121-126 | The `load` event marks the session and the state initialized and clears `attempted`. |
| MapInitialization.MapSession.FireTimeout | src/components/map/hooks/useMapInitialization.ts:129-135 | The timeout shows the token input and clears `attempted` only if the map has not loaded. |
| MapInitialization.MapSession.Cleanup | src/components/map/hooks/useMapInitialization.ts:144-156 | The timer is cancelled. An existing map is torn down and the map ref nulled. `attempted` is unchanged. |
| MapInitialization.MapSession.SetToken | src/components/map/hooks/useMapInitialization.ts:144-157 | A changed token runs the clean-up and then the effect body, so it starts exactly when the guards and the quota allow. An unchanged token does nothing. |
| MapInitialization.MapSession.CleanupCorrected | src/components/map/hooks/useMapInitialization.ts:144-156 | Cancelling a pending timer also ends the attempt, so every attempt in flight keeps a timer that will end it. |
| MapInitialization.MapSession.SetTokenCorrected | src/components/map/hooks/useMapInitialization.ts:59-82 | With the corrected clean-up, a new non-empty token gets an attempt whenever the session, container and quota allow, unless the 5 s timeout of an existing map is still pending. |
| MapInitialization.QuickTokenEditStalls | src/components/map/hooks/useMapInitialization.ts:59-156 | Mounting with a token starts an attempt; the map does not load and the 5 s timeout shows the token input. A first edit there starts an attempt; after a second edit within 300 ms, `attempted` stays set with no timer, listener or timeout left to clear it. |
| MapInitialization.LimitScenario | src/components/map/hooks/useMapInitialization.ts:87-96 | With 49 999 stored loads an attempt starts. Its timer raises the count to 50 000, creates no map and shows the warning, and the next attempt is refused. |
| AssetFilter.FilterAssets | src/components/map/utils/filterAssets.ts:5-16 | The result is an order-preserving subsequence of the input. It holds every asset that matches (type selected or none selected, valid coordinates, a risk score and install year within the inclusive ranges) and only such assets. |
| AssetFilter.FilterAssetsIdempotent | src/components/map/utils/filterAssets.ts:5-16 | Filtering twice equals filtering once. |
| AssetFilter.FilterAssetsAppend | src/components/map/utils/filterAssets.ts:5-16 | Filtering a concatenation filters each part. |
| AssetFilter.UnscoredAssetsExcluded | src/components/map/utils/filterAssets.ts:11-13 | No asset without a risk score is returned. |
| MarkerPass.PassKeys | src/components/map/MapMarkers.tsx:82-99 | A marker pass registers exactly the eligible keys that were not rendered before. |
| MarkerPass.PassFirstWins | src/components/map/MapMarkers.tsx:91-92 | An id that appears twice yields one marker, for the first eligible item with that key. |
| MarkerPass.PassAgainAddsNothing | src/components/map/components/HouseMarkers.tsx:31-32 | Re-running a pass over items whose keys are all rendered creates nothing. |
| MapMarkers.MeridianAssetFilteredButNotPlaced | src/components/map/MapMarkers.tsx:81-92 | An asset at longitude 0 passes the filter but never gets a marker. |
| MapMarkers.MarkerLayer.constructor | src/components/map/MapMarkers.tsx:62-69 | The layer shares the given marker dictionary, and its rendered keys and flags start empty. |
| MapMarkers.MarkerLayer.OnFiltersChanged | src/components/map/MapMarkers.tsx:62-69 | With an initialized map, the creation flag and the rendered keys are cleared and the children are hidden until the next rebuild. The marker dictionary is untouched. |
| MapMarkers.MarkerLayer.Rebuild | src/components/map/MapMarkers.tsx:72-107 | The rebuild runs iff the map is initialized, the house data is loaded and the creation flag is clear. It detaches every old marker, houses and substations included. The keys are then exactly `asset-<id>` of the filtered assets that pass the inline check and do not throw. Each key holds a fresh marker for the first such asset, the rendered keys equal the marker keys, and the layer becomes stable. |
| MapMarkers.RenderAssetMarkers | src/components/map/MapMarkers.tsx:82-99 | The markers added are those of the generic pass. Both dictionaries gain exactly their keys, old entries are kept, and each new marker shows its asset. |
| HouseMarkers.NewHouseMarker | src/components/map/components/HouseMarkers.tsx:34-55 | A fresh `house-marker` element carries the house id, the house position, the system id, and the nearest-substation result of the search (none when the search finds none). |
| HouseMarkers.RenderHouseMarkers | src/components/map/components/HouseMarkers.tsx:22-61 | Houses with zero, NaN or out-of-range coordinates and already-rendered `palmetto-<id>` keys are skipped. The first house of each new key gets a marker. Both dictionaries gain exactly those keys and old markers are untouched. |
| SubstationMarkers.SubstationKeyShape | src/components/map/components/SubstationMarkers.tsx:36 | A key is `pge-substation-` followed by the name's slug (whitespace runs to `-`, lower-cased) or, for no or empty name, the object id. The suffix has no whitespace. |
| SubstationMarkers.NewSubstationMarker | src/components/map/components/SubstationMarkers.tsx:45-71 | The fresh marker's element carries the object id, and its popup title is the name or `PG&E Substation`. |
| SubstationMarkers.RenderSubstationMarkers | src/components/map/components/SubstationMarkers.tsx:20-77 | An empty list changes nothing. Substations failing `isValidCoordinate` (zero allowed) and already-rendered keys are skipped. The first substation of each new key gets a marker in both dictionaries. |
| SubstationMarkers.NamesDifferingInCaseAndSpacingCollide | src/components/map/components/SubstationMarkers.tsx:36-39 | Names differing only in letter case and in the whitespace between two words share one key, so only the first gets a marker. |
| SubstationMarkers.NumericNameCollidesWithObjectId | src/components/map/components/SubstationMarkers.tsx:36 | A substation named with another unnamed substation's object id shares its key. |
| SubstationMarkers.KeysOfTheThreePassesAreDisjoint | src/components/map/components/SubstationMarkers.tsx:36 | Asset, house and substation keys never coincide. |
| MarkerCleanup.HandleZoomEnd | src/components/map/hooks/useMarkerCleanup.ts:23-43 | Below zoom 2 every live marker is hidden, otherwise every one is shown. Nothing is attached or detached, and the dictionary is unchanged. |
| MarkerCleanup.ZoomEffect | src/components/map/hooks/useMarkerCleanup.ts:46-49 | With a map, the visibility for the current zoom is applied at once; without one nothing changes. |
| MarkerCleanup.ZoomedOutThenNewMarker | src/components/map/hooks/useMarkerCleanup.ts:23-49 | After a zoom-out below 2, a substation marker registered under its new key is visible in the dictionary, while every other marker in it is hidden. |
| MarkerCleanup.UnmountCleanup | src/components/map/hooks/useMarkerCleanup.ts:61-80 | Every marker is removed (errors swallowed), the dictionary is emptied and the creation flag cleared. With a non-empty layer list, the listed layers and sources are removed only when the style exists. |
| MarkerCreator.RiskClassBands | src/components/map/components/MarkerCreator.tsx:35-47 | Exactly one risk class: critical at ≥ 0.8, high at ≥ 0.6, medium at ≥ 0.3, low otherwise or for an undefined score. |
| MarkerCreator.CapacityRingShape | src/components/map/components/MarkerCreator.tsx:18-33 | The ring exists only for substations and transformers. The grid-capacity level wins. The score band is used only for a truthy score, so score 0 leaves no constraint class. |
| MarkerCreator.CreateMarkerElementClasses | src/components/map/components/MarkerCreator.tsx:11-50 | The classes start with `react-map-marker` and `asset-<type>`. `has-capacity-indicator` is present iff the asset is a capacity type. The only risk class is the last one. |
| MarkerCreator.CreateMarkerPopupLayout | src/components/map/components/MarkerCreator.tsx:52-60 | The popup starts with the capitalised type and ` (id)`, and has a `Capacity: ` line iff grid capacity exists. |
| MarkerCreator.CreateMapMarker | src/components/map/components/MarkerCreator.tsx:62-97 | The result is null iff a coordinate is zero, NaN or out of range, or the SDK throws. Otherwise it is a fresh visible marker showing the asset and selecting it on click. |
| ConnectionLines.FindById | src/components/map/components/ConnectionLines.tsx:41-42 | For the houses and the substations alike: an element is found iff some element has the id; the one found has the id, and no earlier element does. |
| ConnectionLines.ConnectionLayerIdsMembers | src/components/map/components/ConnectionLines.tsx:40-46 | The layer list holds exactly `connection-<id>` of the connections whose house and substation are both found, at most one per connection. |
| ConnectionLines.LinePaintFor | src/components/map/components/ConnectionLines.tsx:77-80 | The highlighted substation's lines are `#3b82f6`, width 3, opacity 0.9. Other lines have opacity 0.2 while some substation is highlighted and 0.6 when none is. |
| ConnectionLines.DrawKeepsLayersSourced | src/components/map/components/ConnectionLines.tsx:49-86 | Drawing never leaves a layer without its source. |
| ConnectionLines.DrawnLayersComeFromConnections | src/components/map/components/ConnectionLines.tsx:49-86 | Every new layer belongs to a linked connection and is painted for its substation. |
| ConnectionLines.DrawWithoutErrorsShowsEveryLine | src/components/map/components/ConnectionLines.tsx:40-86 | When the map library accepts every call, each listed id is a layer on the map. |
| ConnectionLines.RemoveConnectionLayers | src/components/map/components/ConnectionLines.tsx:25-37 | With a style, the listed layers and sources are removed; without one, nothing changes. |
| ConnectionLines.DrawConnections | src/components/map/components/ConnectionLines.tsx:25-88 | The previous layers are removed before any line is added. The list ends as the ids of the linked connections in connection order, even when the map library rejects a call, because each id is pushed before `addSource`. |
| MapBounds.PointsOf | src/components/map/components/MapBounds.tsx:28-40 | One point per asset, house, substation row or PG&E substation, with its coordinates, in list order. |
| MapBounds.ContributedEmptyIff | src/components/map/components/MapBounds.tsx:28-36 | Nothing is added to the bounds iff no point passes the inline check. |
| MapBounds.ContributedPositions | src/components/map/components/MapBounds.tsx:28-36 | The added positions are exactly those of the points that pass the check. |
| MapBounds.ContributedInRange | src/components/map/components/MapBounds.tsx:29-32 | Every added position is non-zero and within the inclusive ranges. |
| MapBounds.ContributedConcat | src/components/map/components/MapBounds.tsx:28-49 | Scanning two lists in turn adds the positions of each. |
| MapBounds.FitMapBounds | src/components/map/components/MapBounds.tsx:22-60 | The combined list, then the PG&E substations, add their passing positions under one rule. `fitBounds` is called iff something was added, and its errors are swallowed. |
| MapBounds.PointsContribute | src/components/map/components/MapBounds.tsx:28-49 | Each of the four lists (assets, houses, substation rows, PG&E substations) adds a position iff one of its elements passes the check. |
| MapBounds.FitCalledIffSomePointPasses | src/components/map/components/MapBounds.tsx:51-56 | The map is fitted iff some asset, house, substation row or PG&E substation passes the check. |
| SubstationUtils.FirstNearestUnique | src/components/map/utils/substationUtils.ts:21-24 | At most one index is the first nearest candidate. |
| SubstationUtils.NearestChoiceDeterministic | src/components/map/utils/substationUtils.ts:5-28 | Two results that both meet the search's specification are equal. |
| SubstationUtils.FindNearestSubstation | src/components/map/utils/substationUtils.ts:5-28 | The result is none iff every substation has a falsy coordinate (an empty list included). Otherwise it is the candidate of least distance, ties going to the first, with no distance threshold. |
| PalmettoConnections.NearestIsFirstNearestWithin | src/services/palmettoConnections.ts:16-34 | The inner scan finds nothing iff no substation is within 2 miles. Otherwise it finds the first nearest one within 2 miles, with its distance. |
| PalmettoConnections.NearestWithinMax | src/services/palmettoConnections.ts:11-28 | Every chosen distance is at most 2 miles. |
| PalmettoConnections.AssignedComesFromNearest | src/services/palmettoConnections.ts:16-57 | At most one connection per house. Each returned connection is the stored row of an upsert of some house with its nearest substation within reach. |
| PalmettoConnections.NoneWithinReachAssignsNothing | src/services/palmettoConnections.ts:34 | With no substation within reach of any house, nothing is returned. |
| PalmettoConnections.ConnectionTable.constructor | src/services/palmettoConnections.ts:14 | The table holds the given rows. |
| PalmettoConnections.ConnectionTable.DeleteAllButZero | src/services/palmettoConnections.ts:14 | Exactly the rows with id `0` remain, in order. |
| PalmettoConnections.ConnectionTable.Store | src/services/palmettoConnections.ts:36-44 | A stored upsert appends its row. |
| PalmettoConnections.KeptByDelete | src/services/palmettoConnections.ts:14 | A row survives the delete iff its id is `0`. |
| PalmettoConnections.AssignHousesToSubstations | src/services/palmettoConnections.ts:6-58 | The old connections are deleted before any assignment (unless the delete fails). The result is the successful upserts of each house's nearest substation within 2 miles, in house order, and the table gains exactly those rows. |
| PalmettoConnections.NearestSubstationWithin | src/services/palmettoConnections.ts:17-32 | The inner loop computes the first nearest substation within 2 miles. |
| PalmettoHouses.ConnectedIds | src/hooks/usePalmettoHouses.ts:64-66 | The ids are exactly the house ids of the connections to the substation. |
| PalmettoHouses.KeepConnected | src/hooks/usePalmettoHouses.ts:68-70 | In house order, the houses whose id is listed, and only those. |
| PalmettoHouses.ConnectedHouses | src/hooks/usePalmettoHouses.ts:63-71 | In house order, exactly the houses whose id appears in a connection to the substation. |
| PalmettoHouses.LoadPalmettoData | src/hooks/usePalmettoHouses.ts:11-84 | Any failed read (or a null substation list with houses present) yields empty data and an untouched table. An empty house table is replaced by mock houses. Connections are computed only with houses and substations both present: stored ones are reused unchanged; an empty table or a null connections read runs the assignment. |
| TextureApi.CapacityLevel | src/services/textureApi.ts:88-91 | Critical at ≥ 90, high at ≥ 75, medium at ≥ 50, else low. |
| TextureApi.Capacity | src/services/textureApi.ts:84-86 | For a truthy risk score the capacity percentage is at most 100. |
| TextureApi.ConstraintFactorsOrdered | src/services/textureApi.ts:98-117 | The constraint factors come in push order, each at most once. |
| TextureApi.ConstraintFactorsListed | src/services/textureApi.ts:98-117 | A constraint factor is listed exactly when its condition holds. |
| TextureApi.ConstraintEntryFacts | src/services/textureApi.ts:84-126 | The entry has the asset's id, kind `substation` or `feeder`, the capacity ladder, and a failure risk of at most 0.95. Each factor is listed iff its condition holds ("Predicted load growth" iff the level is critical or high), in push order. |
| TextureApi.SetByAssetIdKeys | src/services/textureApi.ts:82-119 | The keys are exactly the ids of the substations and transformers. |
| TextureApi.SetByAssetIdLastWins | src/services/textureApi.ts:119 | Each key holds the entry of the last substation or transformer with that id. |
| TextureApi.FetchGridConstraintData | src/services/textureApi.ts:77-131 | The map is the `Map.set` over the substations and transformers of their entries, each made with its own draw. |
| TextureApi.EstimatedRiskListed | src/services/textureApi.ts:155-183 | A risk factor is listed exactly when its condition holds. |
| TextureApi.EstimatedRiskOrdered | src/services/textureApi.ts:155-183 | Age, maintenance and location come first in that order, then the type-specific factor; none repeats. |
| TextureApi.AtMostOneTypeSpecific | src/services/textureApi.ts:160-183 | At most one type-specific factor is listed. |
| TextureApi.WeightsOfWeightless | src/services/textureApi.ts:155-157 | Factors without weight add nothing to the score. |
| TextureApi.WeightsOfOne | src/services/textureApi.ts:160-183 | With one weighted factor, the score gains exactly its weight. |
| TextureApi.EstimatedRiskScore | src/services/textureApi.ts:138-188 | The score is at most 0.95. It is the capped general score (base risk, 0.2 for a falsy one, weighted with age) plus the weight of the type-specific factor when one applies. |
| TextureApi.CalculateFailureRisk | src/services/textureApi.ts:134-189 | Constraint data, when given, is returned as it is. Otherwise the result is the estimate. |
| TextureApi.AddTypeSpecificFactor | src/services/textureApi.ts:160-183 | Only the check of the asset's own type can push. The score rises by that factor's weight. |
| RiskAssessment.RiskColorFollowsBand | src/hooks/useRiskAssessment.ts:23-29 | An undefined score is grey. A defined one has the colour of its band on the 0.8/0.6/0.3 ladder. |
| RiskAssessment.TransformerRiskMessage | src/hooks/useRiskAssessment.ts:3-38 | No message iff the score is undefined. Otherwise the message comes from the list of its band, and the critical and high bands share one list. |
| RiskAssessment.TransformerNotes | src/hooks/useRiskAssessment.ts:44-47 | A transformer has exactly one note iff its score is defined, drawn from its band's list. |
| RiskAssessment.TypeNotesListed | src/hooks/useRiskAssessment.ts:51-76 | Each type-specific note is listed iff its check passes. |
| RiskAssessment.OtherNotesListed | src/hooks/useRiskAssessment.ts:49-76 | For other assets, a note is listed iff its check passes. Type-specific notes appear only for solar panels, wind turbines and batteries. |
| RiskAssessment.OtherNotesOrdered | src/hooks/useRiskAssessment.ts:42-76 | The notes are in push order, and the age note comes first iff (2023 − year)/50 > 0.6. |
| RiskAssessment.TypeNotesByCase | src/hooks/useRiskAssessment.ts:51-76 | Each `switch` case pushes its two notes check by check; the other types push nothing. |
| RiskAssessment.GetRiskFactors | src/hooks/useRiskAssessment.ts:40-79 | The pushes build exactly `RiskNotes`. |
| FilterSidebar.WithoutType | src/components/FilterSidebar.tsx:55 | Every occurrence of the type is removed, and the other types keep their counts and their order. |
| FilterSidebar.WithoutAbsentType | src/components/FilterSidebar.tsx:55 | Removing an unselected type changes nothing. |
| FilterSidebar.AssetTypeChanged | src/components/FilterSidebar.tsx:49-62 | Checking appends the type at the end without de-duplication. Unchecking removes every occurrence. The ranges are carried over. |
| FilterSidebar.CheckThenUncheck | src/components/FilterSidebar.tsx:49-62 | Check then uncheck removes the type altogether. The filters come back as they were exactly when the type had not been selected. |
| FilterSidebar.RiskLevelChanged | src/components/FilterSidebar.tsx:64-72 | min = value[0] and max = value[1]; the types and the year range are unchanged. |
| FilterSidebar.YearRangeChanged | src/components/FilterSidebar.tsx:74-82 | min = value[0] and max = value[1]; the types and the risk range are unchanged. |
| FilterSidebar.SliderMoves | src/components/FilterSidebar.tsx:64-82 | Moving a slider to the filters' own range changes nothing. A later move of the same slider overrides an earlier one, and moves of the two sliders commute. |
| FilterSidebar.SelectionCleared | src/components/FilterSidebar.tsx:119-123 | No type stays selected and the ranges are carried over, so the clear button is hidden afterwards. |
| FilterSidebar.ClearedSelectsEveryType | src/components/FilterSidebar.tsx:123 | After a clear, every type passes the type test of the filter. |
| FilterSidebar.UncheckLastIsClear | src/components/FilterSidebar.tsx:55 | Unchecking the only type left selected does what a clear does. |

## Left out

- Storage strings: `parseInt` of the stored count is the count as an integer, and a missing count reads as 0. A malformed stored string is not modelled.
- `getCurrentMonth` and `Date`: the current month is a parameter.
- `Math.random()`: each draw is a parameter (`random`, `draw`).
- The haversine distance (`calculateDistance`) is an uninterpreted function `dist`. The Web Mercator conversions of the PG&E substations are not modelled: the model takes converted coordinates.
- Supabase reads, deletes and upserts are values that say whether the call failed or what it returned. The mock-house generator is a parameter (`mockHouses`). React Query caching is not modelled.
- Mapbox GL is reduced to opaque handles: a marker with visibility and attachment, and a map view with its line layers and sources. Bounds arithmetic, rendering, navigation and scale controls, and the `accessToken` assignment are not modelled. `MapBounds.FitMapBounds` returns the added positions and whether `fitBounds` was called.
- Timers and asynchrony are explicit events (`FireInitTimer`, `FireLoad`, `FireTimeout`) called in any order; no concurrency is modelled.
- MapInitialization.MapSession.SetToken: the source registers its clean-up only on a run that scheduled the timer. The model runs `Cleanup` on every token change, which does the same, because a run that returned early leaves neither a map nor a timer behind.
- The clean-up of the mount effect (which clears the timer when `mapInitialized` changes) is not modelled. `mapInitialized` becomes true only on `load`, after the timer has fired.
- Console logging and debugging output are not modelled.
- JavaScript numbers: coordinates are `NaN` or a real; infinities are not modelled. Metadata comparisons are modelled on numbers only, so a numeric string in `metadata` is never coerced. Integer widths do not matter here; counts are unbounded integers.
- TextureApi.Capacity: the arithmetic is exact over the reals and IEEE-754 double rounding is not modelled, so a product on a rounding boundary can round the other way: for risk score 0.285 and draw 0 the model gives 29, where `Math.round(0.285*100 + 0*20)` in JavaScript gives 28.
- TextureApi.CalculateFailureRisk: the estimate (and `EstimatedRiskScore`, `EstimatedRiskListed` beneath it) is computed over exact reals without IEEE-754 rounding, so a comparison on a boundary can differ: for risk score 0.05 and install year 1956 the general score is exactly 0.7 in the model and no "High-stress geographic location" factor is listed, where JavaScript computes 0.7000000000000001 and pushes it.
- `Lower` and `Capitalize` map ASCII letters only; Unicode case mapping of other letters is not modelled. The whitespace of the slug is the full `\s` class of JavaScript regular expressions.
- Popup HTML: the asset popup is modelled as plain text without the HTML markup, and `toLocaleString` formatting of the house and substation popups is not modelled. The house popup holds the system id and the nearest-substation result.
- Factor and message texts: the constraint factors, risk factors, risk notes and transformer messages are datatype constructors, with their exact texts in `ConstraintFactorText`, `RiskFactorText`, `NoteText` and `MessageText`.
- RiskAssessment.TransformerRiskMessage: returns no message where the source returns the empty string for an undefined score. `getRiskFactors` never reaches that case, because it asks only for a defined score.
- TextureApi.AddTypeSpecificFactor: the five type-specific `if`s of `calculateFailureRisk` are written as one `match` on the asset type. Each `if` tests a different type, so at most one of them can pass.
- TextureApi.FetchGridConstraintData: the entry of one asset, with its six conditional factor pushes, is the function `ConstraintEntry`, built by `Pushed` over the check order. The loop over the assets is a method.
- FilterSidebar.RiskLevelChanged and FilterSidebar.YearRangeChanged require the slider to pass both thumb values; with fewer, the source would store `undefined`.
- `fetchGridCapacityData`, `fetchInterconnectionQueueData`, the Supabase edge functions and the sync call are network clients and are not modelled.
- The presentational components are not modelled: the alerts and risk panels, asset details, the substation summary, the capacity status, the token input, the warning and loading views, the page, and the document-level click handling of the map root. Neither is the `Math.random` use of the mock data services.

## Findings

| source | as written | input that shows it | evidently intended | confidence | as-written member | corrected member |
|---|---|---|---|---|---|---|
| src/components/map/hooks/useMapInitialization.ts:144-156 | The effect's clean-up cancels the pending 300 ms timer but leaves `mapInitAttempted` set. The next run returns early at lines 59-64, and no timer, listener or timeout is left that could clear the flag. | After the 5 s load timeout has shown the token input, two edits less than 300 ms apart (for example `x` → `xy`), with quota left and the container mounted | Cancelling the timer ends the attempt, so the new token gets its own attempt | not executed | MapInitialization.QuickTokenEditStalls | MapInitialization.MapSession.SetTokenCorrected |
