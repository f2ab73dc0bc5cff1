# Charts core, modelled in Dafny

This project models the data and bookkeeping layer of the Charts library for iOS and macOS, together with the SwiftyJSON value type bundled with its macOS demo. The drawing code sits on top of this layer. Each core Swift file becomes one Dafny module:

- `SortedArrays`: the comparator-ordered `SortedArray` collection. It covers binary search, insertion, lookups of the first, last or any equivalent element, filtering and the removal variants.
- `DataSetCollection`, `DataSetStandard`, `DataSetLegacy`: three generations of `ChartDataSet`. Each is a list of entries with cached x/y bounds, a rounding binary search by x, a refinement toward a y value, ordered insertion and removal. The legacy one is indexed by `xIndex` and also keeps a running sum of its values.
- `DataSetBase`: `ChartBaseDataSet`, which holds the colour lists, the value-text colours, the value formatter and the entry-removal wrappers.
- `ChartData`: the aggregate over data sets. It folds the bounds overall and per y axis, falls back to the other axis when one is empty, and forwards edits to the data sets. Its elements are the `ChartDataSetProtocol` data sets of the same generation, so its searches by x are those of `DataSetCollection`.
- `ViewPortHandler`: the content rectangle, the touch-matrix scale and translation, their clamping into the configured limits, and the zoom and bounds predicates.
- `AxisBase`, `ChartYAxis`: label-count clamping, granularity, custom minimum and maximum, the axis-range calculation with spacing, and the limit-line list.
- `Legend`: entry-size maxima and the legend's layout. The horizontal layout wraps entries into lines. Label sizes come from font measurement and are inputs here.
- `PieChartView`: slice angles, their running sums, the maximum-angle setter and the lookup from an angle to a slice.
- `ChartUtils`: angle normalisation, the closest-selection search, and the conversions between Swift arrays of optionals and Objective-C arrays that use `NSNull`.
- `SwiftyJSON`: the JSON value itself. It covers the checked subscripts by index, key and path, their setters, `merge`, `exists`, `boolValue` and `==`.
- `Common`: definitions these modules share. They are entries, colours, `Option`, the min/max folds, runs of equal x, and insertion into a sequence.

A `Double` or `CGFloat` is a `real`. `Double.greatestFiniteMagnitude` is written out exactly. NaN appears only where the source tests for it: the legacy data set's values, and the `closestToY: .nan` arguments, which become `Option<real>` with `None` standing for NaN. A class whose methods update its fields in place is a Dafny `class` whose methods state the new state. Value types and pure computations are functions over datatypes.

## Model

| member | source | states |
|---|---|---|
| Common.ColorAt | Charts/Classes/Data/ChartDataSet.swift:489-496 | The result is always one of the colours. An index inside the list yields that colour, and a negative index yields the first colour. |
| Common.ColorAtPeriodic | Charts/Classes/Data/ChartDataSet.swift:489-496 | For non-negative indices, the colour lookup repeats with the period of the colour count. |
| Common.FoldMin | Source/Charts/Data/ChartDataSet/ChartDataSet.swift:76-85 | The running minimum is at most the start value and at most every value folded. |
| Common.FoldMax | Source/Charts/Data/ChartDataSet/ChartDataSet.swift:76-85 | The running maximum is at least the start value and at least every value folded. |
| Common.FoldAttained | Source/Charts/Data/ChartDataSet/ChartDataSet.swift:76-85 | Each fold's result is either its start value or one of the values folded. |
| Common.FoldEntrySnoc | Source/Charts/Data/ChartDataSet/ChartDataSet.swift:101-118 | Folding one more entry into the bounds equals `min`/`max` of that entry with the earlier bounds, as `calcMinMax(entry:)` does. |
| Common.FoldYSliceSnoc | Source/Charts/Data/ChartDataSet/ChartDataSet.swift:87-99 | Extending a slice by one entry widens its y bounds by exactly that entry. |
| Common.BoundsOf | Source/Charts/Data/ChartDataSet/ChartDataSet.swift:76-85 | The recomputed bounds contain every entry. An empty list gives `±greatestFiniteMagnitude`. |
| Common.RunStart | Source/Charts/Data/ChartDataSet/ChartDataSet.swift:209-212 | The result is the first position of the run of entries at `xv` that ends at `i`. Everything from there to `i` is at `xv`, and the entry before it is not. |
| Common.StepBackOverRun | Source/Charts/Data/ChartDataSet/ChartDataSet.swift:209-212 | The backward loop stops exactly at the start of the run. |
| Common.RunEnd | Source/Charts/Data/ChartDataSet/ChartDataSet.swift:214-226 | The result is the first position after `i` whose x differs from `xv`, or the end of the list. |
| Common.RunHoldsAll | Source/Charts/Data/ChartDataSet/ChartDataSet.swift:166-171 | On x-sorted entries, every entry at `xv` lies inside the run that starts at that x's first position. |
| Common.InsertAt | Source/Charts/Data/ChartDataSet/ChartDataSet.swift:242-254 | Insertion places the entry at the given index, raises the count by one and adds exactly that entry to the multiset. |
| Common.InsertAtKeepsSorted | Source/Charts/Data/ChartDataSet/ChartDataSet.swift:242-254 | Inserting between the entries with smaller and larger x keeps the list x-sorted. |
| Common.CoversAfterInsert | Source/Charts/Data/ChartDataSet/ChartDataSet.swift:327-330 | Bounds widened to a new entry still contain the list after that entry is inserted at any position. |
| Common.WithX | Source/Charts/Data/ChartDataSet/ChartDataSet.swift:166-171 | The filter keeps only entries at `v` and is no longer than the list. |
| Common.WithXSlice | Source/Charts/Data/ChartDataSet/ChartDataSet.swift:166-171 | When the entries at `v` are exactly the slice `lo..<hi`, the filter returns that slice. |
| Common.WithXRun | Source/Charts/Data/ChartDataSet/ChartDataSet.swift:166-171 | On x-sorted entries, a maximal run at `v` holds every entry at `v`, in order. |
| Common.IndexOf | Source/Charts/Data/Implementations/Standard/ChartDataSet.swift:362-365 | The result is nil exactly when the element is absent. Otherwise it is the first position that holds the element. |
| SortedArrays.Compare | SortedArray.swift:347-357 | The result is ascending exactly when `l` comes first, descending exactly when only `r` comes first, and same exactly when the two are equivalent. |
| SortedArrays.Search | SortedArray.swift:395-410 | A hit names a position in the range that holds an element equivalent to the key. A miss names a position in the range; on a sorted array, everything before it is smaller than the key and everything from it on is larger. |
| SortedArrays.InsertionIndex | SortedArray.swift:363-368 | The insertion index lies within `0...count`. |
| SortedArrays.InsertionIndexKeepsSorted | SortedArray.swift:363-368 | Inserting at the insertion index keeps a sorted array sorted. |
| SortedArrays.InsertKeepsSorted | SortedArray.swift:52-58 | Inserting between the preceding and the following elements, or next to an equivalent one, keeps the order. |
| SortedArrays.RemoveRangeKeepsSorted | SortedArray.swift:154-186 | Deleting any contiguous block keeps the array sorted. |
| SortedArrays.EquivalentRunContiguous | SortedArray.swift:255-275 | In a sorted array, the elements equivalent to a key form one contiguous run. |
| SortedArrays.FilterSeq | SortedArray.swift:120-123 | The result holds exactly the elements that satisfy the predicate, and it is a sub-multiset of the input. |
| SortedArrays.FilterKeepsSorted | SortedArray.swift:120-123 | Filtering keeps the relative order, so a sorted array stays sorted. |
| SortedArrays.FirstEquivalent | SortedArray.swift:255-275 | This is the reference for `index(of:)`. The result is nil exactly when no element is equivalent. Otherwise it is an equivalent position with no equivalent element before it. |
| SortedArrays.RemoveFirstEquivalent | SortedArray.swift:244-247 | When no element is equivalent, the array is unchanged. Otherwise exactly the first equivalent element is removed. |
| SortedArrays.SearchMissHasNoEquivalent | SortedArray.swift:395-410 | On a sorted array, a miss of the search means no element in that range is equivalent to the key. |
| SortedArrays.SortedArray.constructor | SortedArray.swift:24-27 | The new array is empty and valid, and keeps the given comparator. |
| SortedArrays.SortedArray.FromSorted | SortedArray.swift:41-44 | An array the caller declares sorted is stored as given. |
| SortedArrays.SortedArray.FromUnsorted | SortedArray.swift:30-34 | The stored elements are a sorted permutation of the input. |
| SortedArrays.SortedArray.Insert | SortedArray.swift:52-58 | The element goes in at the insertion index, which is returned. The array stays sorted and grows by exactly that element. |
| SortedArrays.SortedArray.InsertContentsOf | SortedArray.swift:66-69 | The result is a sorted permutation of the old elements together with the new ones. |
| SortedArrays.SortedArray.IndexOf | SortedArray.swift:255-275 | The repeated binary search returns the first equivalent position, or nil; either way it agrees with the linear reference scan. |
| SortedArrays.SortedArray.LastIndexOf | SortedArray.swift:318-342 | The result is nil exactly when no element is equivalent. Otherwise it is an equivalent position with no equivalent element after it. |
| SortedArrays.SortedArray.AnyIndex | SortedArray.swift:308-313 | A result names an equivalent position. On a valid array, nil is returned exactly when none exists. |
| SortedArrays.SortedArray.Contains | SortedArray.swift:280-282 | On a valid array, the result is true exactly when some element is equivalent to the key. |
| SortedArrays.SortedArray.Min | SortedArray.swift:288-290 | An empty array gives nil. Otherwise the result is the first element, which no element precedes. |
| SortedArrays.SortedArray.Max | SortedArray.swift:296-298 | An empty array gives nil. Otherwise the result is the last element, which precedes no element. |
| SortedArrays.SortedArray.Filter | SortedArray.swift:120-123 | The result is a fresh, valid sorted array of the included elements, in their original order. |
| SortedArrays.SortedArray.RemoveAt | SortedArray.swift:144-146 | The element at the index is returned and removed, and the array stays sorted. |
| SortedArrays.SortedArray.RemoveSubrange | SortedArray.swift:154-186 | The block `lo..<hi` is removed, and the array stays sorted. |
| SortedArrays.SortedArray.RemoveFirstN | SortedArray.swift:196-198 | The first `n` elements are dropped. |
| SortedArrays.SortedArray.RemoveFirst | SortedArray.swift:206-208 | The first element is returned and dropped. |
| SortedArrays.SortedArray.RemoveLast | SortedArray.swift:216-218 | The last element is returned and dropped. |
| SortedArrays.SortedArray.RemoveLastN | SortedArray.swift:226-228 | The last `n` elements are dropped. |
| SortedArrays.SortedArray.RemoveAll | SortedArray.swift:236-238 | The array becomes empty and stays valid. |
| SortedArrays.SortedArray.Remove | SortedArray.swift:244-247 | Only the first equivalent element is deleted. When the element is absent, the array is unchanged. |
| DataSetCollection.SortedPartitionedAtLeast | Source/Charts/Data/ChartDataSet/ChartDataSet.swift:184 | On x-sorted entries, the test `x >= xValue` is false on a prefix and true on the rest, which is what a partition search needs. |
| DataSetCollection.PartitionFrom | Source/Charts/Data/ChartDataSet/ChartDataSet.swift:184 | The swift-algorithms partition search stays inside its window. On a partitioned list it returns the boundary: the test fails before it and holds from it on. When the last entry passes the test, the result is before the end. |
| DataSetCollection.PartitioningIndex | Source/Charts/Data/ChartDataSet/ChartDataSet.swift:184-185 | Over the whole list, the result is the boundary of a partitioned list and lies within `0...count`. |
| DataSetCollection.RoundedIndex | Source/Charts/Data/ChartDataSet/ChartDataSet.swift:184-206 | The search and rounding return `endIndex` exactly when no entry reaches `xValue`. Otherwise the result is a position in the list. |
| DataSetCollection.ScanY | Source/Charts/Data/ChartDataSet/ChartDataSet.swift:214-226 | The corrected forward y scan stays inside the run of entries at `xv`. Its answer is at least as close in y as the starting candidate. |
| DataSetCollection.ScanYUnfold | Source/Charts/Data/ChartDataSet/ChartDataSet.swift:217-226 | One scan step stops at the end of the list or of the run, moves to an entry at least as close, or passes over it. |
| DataSetCollection.ScanYMinimal | Source/Charts/Data/ChartDataSet/ChartDataSet.swift:214-226 | No entry the scan passes is closer in y than its answer. |
| DataSetCollection.EntryIndexSpec | Source/Charts/Data/ChartDataSet/ChartDataSet.swift:179-232 | The reference `entryIndex` answers `endIndex` exactly when no entry reaches `xValue`, and a position in the list otherwise. |
| DataSetCollection.ClosestYInRun | Source/Charts/Data/ChartDataSet/ChartDataSet.swift:209-228 | The y refinement answers a position in the list. |
| DataSetCollection.ClosestYInRunIsClosest | Source/Charts/Data/ChartDataSet/ChartDataSet.swift:209-228 | On x-sorted entries the refinement keeps the x that was found, and no entry with that x is closer in y. |
| DataSetCollection.EntryIndexClosestY | Source/Charts/Data/ChartDataSet/ChartDataSet.swift:179-232 | With `.closest` and a y value, the answer has the x of the first entry reaching `xValue`, and no entry at that x is closer in y. |
| DataSetCollection.EntryIndexClosestIsFirstAtLeast | Source/Charts/Data/ChartDataSet/ChartDataSet.swift:184-186 | With `.closest` and NaN, every entry before the answer is below `xValue` and every entry from it on reaches it. The answer is the end when there is none. |
| DataSetCollection.EntryIndexDownStepsBack | Source/Charts/Data/ChartDataSet/ChartDataSet.swift:196-200 | With `.down`, the search steps back one exactly when the found x exceeds `xValue` and the position is above the start; the entry stepped to is below `xValue`. In every other case it keeps the found position. |
| DataSetCollection.ScanYAsWritten | Source/Charts/Data/ChartDataSet/ChartDataSet.swift:214-226 | The y scan as written reads past the end exactly when the run at `xv` reaches the end of the list. |
| DataSetCollection.ScanYAsWrittenReadsPastEnd | Source/Charts/Data/ChartDataSet/ChartDataSet.swift:217-219 | For a one-entry data set searched with a y value, the scan as written reads past the end, while the corrected search answers the entry. |
| DataSetCollection.ScanYAsWrittenMissesClosest | Source/Charts/Data/ChartDataSet/ChartDataSet.swift:222-224 | For y = 10, 7, 5 at one x and target 0, the scan as written stops at 7, while the corrected scan reaches the closer 5. |
| DataSetCollection.RunFrom | Source/Charts/Data/ChartDataSet/ChartDataSet.swift:170 | `prefix(while:)` from `i` is the longest slice from `i` whose entries are at `xv`. |
| DataSetCollection.EntriesForXValueAsWritten | Source/Charts/Data/ChartDataSet/ChartDataSet.swift:166-171 | As written, the entries are the run at x = `xValue` starting where the partition search with the test `x == xValue` stops, and none when it stops past the end. On sorted entries that test does not split the list, so the search can stop past a match (see Findings). |
| DataSetCollection.EntriesForXValueAsWrittenMisses | Source/Charts/Data/ChartDataSet/ChartDataSet.swift:166-171 | For x = 1…5 and a query of 2, the partition search with an equality test returns nothing, although an entry at 2 exists. |
| DataSetCollection.RunFromIsWholeRun | Source/Charts/Data/ChartDataSet/ChartDataSet.swift:166-171 | On sorted entries, the run collected from the first position reaching `xValue` holds every entry at `xValue`. |
| DataSetCollection.EntryForXValueAsWrittenTraps | Source/Charts/Data/ChartDataSet/ChartDataSet.swift:144-147 | On an empty data set, or for an x beyond the last entry, the `index > -1` guard lets a read at `endIndex` through. |
| DataSetCollection.CalcMinMaxYAsWrittenTraps | Source/Charts/Data/ChartDataSet/ChartDataSet.swift:93-98 | A `toX` beyond the last entry makes the closed range `indexFrom...indexTo` reach one past the end. |
| DataSetCollection.LastVisited | Source/Charts/Data/ChartDataSet/ChartDataSet.swift:94-98 | The corrected range ends before the end of the list. |
| DataSetCollection.YRangeUnfold | Source/Charts/Data/ChartDataSet/ChartDataSet.swift:87-99 | The y bounds left by `calcMinMaxY(fromX:toX:)` are the fold over the entries from the rounded-down `fromX` to the rounded-up `toX`. They are the initial bounds when that range is empty. |
| DataSetCollection.LastIndexBelow | Source/Charts/Data/ChartDataSet/ChartDataSet.swift:245 | `lastIndex { $0.x < v }` from `from` names an entry below `v`, or is nil when all entries from there reach `v`. |
| DataSetCollection.OrderedPosition | Source/Charts/Data/ChartDataSet/ChartDataSet.swift:242-251 | The insertion point of `addEntryOrdered` lies within `0...count`. |
| DataSetCollection.OrderedInsertKeeps | Source/Charts/Data/ChartDataSet/ChartDataSet.swift:242-254 | The corrected ordered insertion keeps an x-sorted list sorted. With the bounds widened to the new entry, bounds that covered the list still cover it. |
| DataSetCollection.AddEntryOrderedAsWrittenBreaksOrder | Source/Charts/Data/ChartDataSet/ChartDataSet.swift:244-248 | For x = 5, 5, 6, inserting (4, 0) at the position found as written leaves the list out of x order. |
| DataSetCollection.AddEntryOrderedAsWrittenPosition | Source/Charts/Data/ChartDataSet/ChartDataSet.swift:244-246 | The start index searched with `closestToY: e.y`, with the corrected y scan, lands at position 1, between the two fives. |
| DataSetCollection.AddEntryOrderedAsWrittenScanReadsPastEnd | Source/Charts/Data/ChartDataSet/ChartDataSet.swift:216-219 | The `closestToY: e.y` search of `addEntryOrdered` also runs the y scan as written: for x = 5, 5 and the entry (4, 0) the run at 5 reaches the end and the scan reads past it. |
| DataSetCollection.OrderedPositionKeepsSorted | Source/Charts/Data/ChartDataSet/ChartDataSet.swift:242-254 | Searched without a y, the ordered insertion keeps an x-sorted list sorted. |
| DataSetCollection.ScanForward | Source/Charts/Data/ChartDataSet/ChartDataSet.swift:214-226 | The forward loop from the run start computes the corrected scan. |
| DataSetCollection.ChartDataSet.Empty | Source/Charts/Data/ChartDataSet/ChartDataSet.swift:25-29 | A new data set has no entries and the initial bounds `±greatestFiniteMagnitude`. |
| DataSetCollection.ChartDataSet.constructor | Source/Charts/Data/ChartDataSet/ChartDataSet.swift:35-41 | The given entries are stored, and the bounds are exactly those `calcMinMax` computes. |
| DataSetCollection.ChartDataSet.ReplaceEntries | Source/Charts/Data/ChartDataSet/ChartDataSet.swift:59-62 | The new entries replace the old ones, and the bounds are recomputed from them. |
| DataSetCollection.ChartDataSet.CalcMinMaxXForEntry | Source/Charts/Data/ChartDataSet/ChartDataSet.swift:101-104 | Only the x bounds widen, to include the entry. |
| DataSetCollection.ChartDataSet.CalcMinMaxYForEntry | Source/Charts/Data/ChartDataSet/ChartDataSet.swift:106-109 | Only the y bounds widen, to include the entry. |
| DataSetCollection.ChartDataSet.CalcMinMaxForEntry | Source/Charts/Data/ChartDataSet/ChartDataSet.swift:115-118 | All four bounds widen to include the entry, and the entries are unchanged. |
| DataSetCollection.ChartDataSet.CalcMinMax | Source/Charts/Data/ChartDataSet/ChartDataSet.swift:76-85 | The bounds are recomputed from the entries and contain every entry. An empty set gives `±greatestFiniteMagnitude`. |
| DataSetCollection.ChartDataSet.CalcMinMaxY | Source/Charts/Data/ChartDataSet/ChartDataSet.swift:87-99 | Only the y bounds change. They become the y bounds of the entries between the rounded-down `fromX` and the rounded-up `toX`. |
| DataSetCollection.ChartDataSet.FoldYOver | Source/Charts/Data/ChartDataSet/ChartDataSet.swift:98 | The `forEach(calcMinMaxY)` over a closed range of positions leaves that range's y fold. |
| DataSetCollection.ChartDataSet.EntryIndex | Source/Charts/Data/ChartDataSet/ChartDataSet.swift:179-232 | The loops compute the reference `entryIndex`, whose properties are the lemmas above. |
| DataSetCollection.ChartDataSet.ClosestYIndex | Source/Charts/Data/ChartDataSet/ChartDataSet.swift:209-228 | The backward and forward loops compute the y refinement. |
| DataSetCollection.ChartDataSet.EntryForXValue | Source/Charts/Data/ChartDataSet/ChartDataSet.swift:139-162 | The result is nil exactly when no entry reaches `xValue`, which on sorted entries means every x is below it. Otherwise it is the entry at the search's answer. |
| DataSetCollection.ChartDataSet.EntriesForXValue | Source/Charts/Data/ChartDataSet/ChartDataSet.swift:166-171 | On sorted entries the result is exactly the contiguous run of entries whose x equals `xValue`. |
| DataSetCollection.ChartDataSet.AddEntryOrdered | Source/Charts/Data/ChartDataSet/ChartDataSet.swift:242-254 | The method returns true, inserts the entry at the ordered position and widens the bounds to it. |
| DataSetCollection.ChartDataSet.Remove | Source/Charts/Data/ChartDataSet/ChartDataSet.swift:262-266 | The result is true exactly when the entry was present. In that case its first occurrence is removed and the bounds are recomputed; otherwise nothing changes. |
| DataSetCollection.ChartDataSet.Set | Source/Charts/Data/ChartDataSet/ChartDataSet.swift:309-312 | The entry is stored at the position, and the bounds widen to it, so bounds that covered the list still cover it. |
| DataSetCollection.ChartDataSet.Append | Source/Charts/Data/ChartDataSet/ChartDataSet.swift:327-330 | The entry is added at the end and the bounds widen to it, so covering or exact bounds stay covering or exact. |
| DataSetCollection.ChartDataSet.RemoveAt | Source/Charts/Data/ChartDataSet/ChartDataSet.swift:332-336 | The entry at the position is returned, the count drops by one, and the bounds are recomputed from the remaining entries. |
| DataSetCollection.ChartDataSet.RemoveFirst | Source/Charts/Data/ChartDataSet/ChartDataSet.swift:338-342 | The first entry is returned and dropped, and the bounds are recomputed. |
| DataSetCollection.ChartDataSet.RemoveFirstN | Source/Charts/Data/ChartDataSet/ChartDataSet.swift:344-347 | The first `n` entries are dropped, and the bounds are recomputed. |
| DataSetCollection.ChartDataSet.RemoveLast | Source/Charts/Data/ChartDataSet/ChartDataSet.swift:349-353 | The last entry is returned and dropped, and the bounds are recomputed. |
| DataSetCollection.ChartDataSet.RemoveLastN | Source/Charts/Data/ChartDataSet/ChartDataSet.swift:355-358 | The last `n` entries are dropped, and the bounds are recomputed. |
| DataSetCollection.ChartDataSet.RemoveSubrange | Source/Charts/Data/ChartDataSet/ChartDataSet.swift:360-363 | The block `lo..<hi` is removed, and the bounds are recomputed. |
| DataSetCollection.ChartDataSet.RemoveAll | Source/Charts/Data/ChartDataSet/ChartDataSet.swift:365-368 | No entries remain, and the bounds return to their initial values. |
| DataSetCollection.BoundsExactCover | Source/Charts/Data/ChartDataSet/ChartDataSet.swift:76-85 | Bounds equal to the folds contain every entry, and they are the initial ones for an empty list. |
| DataSetStandard.SearchStep | Source/Charts/Data/Implementations/Standard/ChartDataSet.swift:275-302 | One pass of the search loop keeps a window inside the old one and strictly smaller. |
| DataSetStandard.SearchStepKeepsInv | Source/Charts/Data/Implementations/Standard/ChartDataSet.swift:275-302 | On x-sorted entries, one pass keeps the search invariant. Entries to the left of the window lie below `v` and are no closer; entries to the right reach `v` and are no closer. |
| DataSetStandard.ClosestSearch | Source/Charts/Data/Implementations/Standard/ChartDataSet.swift:268-309 | The search loop, run to the end, leaves a position inside the starting window. |
| DataSetStandard.ClosestSearchIsClosest | Source/Charts/Data/Implementations/Standard/ChartDataSet.swift:268-309 | On x-sorted entries the search finds an entry of least x distance to `v`. Everything before it lies below `v`, and everything after it reaches `v`. |
| DataSetStandard.RoundedIndex | Source/Charts/Data/Implementations/Standard/ChartDataSet.swift:311-324 | Rounding moves the found position by at most one step and stays inside the list. |
| DataSetStandard.ScanY | Source/Charts/Data/Implementations/Standard/ChartDataSet.swift:334-350 | The corrected forward scan either keeps the candidate or moves to a later entry of the same run. Its answer is no farther in y than the candidate. |
| DataSetStandard.ScanYUnfold | Source/Charts/Data/Implementations/Standard/ChartDataSet.swift:334-350 | One step of the scan stops at the end of the run, or moves only to a strictly closer entry. |
| DataSetStandard.ScanYMinimal | Source/Charts/Data/Implementations/Standard/ChartDataSet.swift:334-350 | No entry of the run after the start is closer in y than the scan's answer. |
| DataSetStandard.ScanYFirstOnTies | Source/Charts/Data/Implementations/Standard/ChartDataSet.swift:339-344 | The scan moves only to strictly closer entries, so on a tie it keeps the first closest entry. |
| DataSetStandard.ScanYAsWritten | Source/Charts/Data/Implementations/Standard/ChartDataSet.swift:334-350 | The scan as written, which records the target y after an improvement, answers a position from the start onward. |
| DataSetStandard.ScanYAsWrittenMissesClosest | Source/Charts/Data/Implementations/Standard/ChartDataSet.swift:344-348 | For y = 10, 7, 5 at one x and target 0, the scan as written settles on 7, while the corrected scan reaches 5. |
| DataSetStandard.EntryIndexSpec | Source/Charts/Data/Implementations/Standard/ChartDataSet.swift:263-357 | The reference `entryIndex` answers -1 exactly when there are no entries, and a position in the list otherwise. |
| DataSetStandard.EntryIndexSpecUnfold | Source/Charts/Data/Implementations/Standard/ChartDataSet.swift:263-357 | `entryIndex` is the search, then the rounding step, then the y refinement when a y is given. |
| DataSetStandard.RefineY | Source/Charts/Data/Implementations/Standard/ChartDataSet.swift:327-353 | The y refinement answers a position in the list. |
| DataSetStandard.EntryIndexClosest | Source/Charts/Data/Implementations/Standard/ChartDataSet.swift:263-357 | With `.closest` and NaN on x-sorted entries, the answer has the least x distance to `xValue`. |
| DataSetStandard.EntryIndexUp | Source/Charts/Data/Implementations/Standard/ChartDataSet.swift:315-319 | With `.up`, every entry before the answer lies below `xValue`. The answer reaches `xValue` whenever some entry does. |
| DataSetStandard.EntryIndexDown | Source/Charts/Data/Implementations/Standard/ChartDataSet.swift:320-324 | With `.down`, every entry after the answer reaches `xValue`. The answer is at most `xValue` whenever some entry is. |
| DataSetStandard.RefineYIsClosest | Source/Charts/Data/Implementations/Standard/ChartDataSet.swift:327-353 | On x-sorted entries, the corrected refinement picks the entry closest in y among all entries at the found x, the first such on a tie. |
| DataSetStandard.ScanYClosestInRun | Source/Charts/Data/Implementations/Standard/ChartDataSet.swift:334-350 | When the run holds every entry at `xv`, the scan from the run start picks the first entry at `xv` closest in y. |
| DataSetStandard.EntryIndexClosestY | Source/Charts/Data/Implementations/Standard/ChartDataSet.swift:263-357 | With `.closest` and a y value, the answer shares the x of the entry closest in x, and it is the first entry at that x closest in y. |
| DataSetStandard.Advance | Source/Charts/Data/Implementations/Standard/ChartDataSet.swift:396-399 | The advance loop stops at the first position from `i` whose x reaches `v`, and that position exists because the last x exceeds `v`. |
| DataSetStandard.OrderedPosition | Source/Charts/Data/Implementations/Standard/ChartDataSet.swift:393-405 | The insertion point of `addEntryOrdered` lies within `0...count`. |
| DataSetStandard.OrderedPositionKeepsSorted | Source/Charts/Data/Implementations/Standard/ChartDataSet.swift:389-408 | Searched without a y, the ordered insertion keeps x-sorted entries sorted. |
| DataSetStandard.AddEntryOrderedAsWrittenBreaksOrder | Source/Charts/Data/Implementations/Standard/ChartDataSet.swift:395 | Searching with `closestToY: e.y`, inserting (4, 0) into x = 5, 5, 6 lands at position 1 and breaks the x order. |
| DataSetStandard.CalcMinMaxAsWritten | Source/Charts/Data/Implementations/Standard/ChartDataSet.swift:94-104 | With the guard placed before the reset, a non-empty set gets its exact bounds and an empty set keeps its old bounds. |
| DataSetStandard.CalcMinMaxAsWrittenKeepsStaleBounds | Source/Charts/Data/Implementations/Standard/ChartDataSet.swift:96 | After its only entry (1, 1) is removed, the data set keeps bounds of 1 instead of the initial bounds. |
| DataSetStandard.ScanForward | Source/Charts/Data/Implementations/Standard/ChartDataSet.swift:334-350 | The forward loop from the run start computes the corrected scan. |
| DataSetStandard.ChartDataSet.Empty | Source/Charts/Data/Implementations/Standard/ChartDataSet.swift:27-39 | A new data set has no entries and the initial bounds. |
| DataSetStandard.ChartDataSet.constructor | Source/Charts/Data/Implementations/Standard/ChartDataSet.swift:41-48 | The given entries are stored, with their exact bounds. |
| DataSetStandard.ChartDataSet.SetValues | Source/Charts/Data/Implementations/Standard/ChartDataSet.swift:75-86 | The new entries replace the old ones, and the bounds are recomputed. |
| DataSetStandard.ChartDataSet.NotifyDataSetChanged | Source/Charts/Data/Implementations/Standard/ChartDataSet.swift:89-92 | The bounds are recomputed from the unchanged entries. |
| DataSetStandard.ChartDataSet.CalcMinMax | Source/Charts/Data/Implementations/Standard/ChartDataSet.swift:94-104 | The corrected `calcMinMax` sets the bounds to exactly those of the entries, so they contain every entry. |
| DataSetStandard.ChartDataSet.CalcMinMaxY | Source/Charts/Data/Implementations/Standard/ChartDataSet.swift:106-118 | An empty set keeps its bounds. Otherwise the y bounds are those of the entries between the rounded-down `fromX` and the rounded-up `toX`, or the initial bounds when that range is empty. The x bounds do not change. |
| DataSetStandard.ChartDataSet.FoldYRange | Source/Charts/Data/Implementations/Standard/ChartDataSet.swift:117 | The loop over `indexFrom...indexTo` leaves that range's y fold. |
| DataSetStandard.ChartDataSet.CalcMinMaxXForEntry | Source/Charts/Data/Implementations/Standard/ChartDataSet.swift:120-124 | Only the x bounds widen, to include the entry. |
| DataSetStandard.ChartDataSet.CalcMinMaxYForEntry | Source/Charts/Data/Implementations/Standard/ChartDataSet.swift:126-130 | Only the y bounds widen, to include the entry. |
| DataSetStandard.ChartDataSet.CalcMinMaxForEntry | Source/Charts/Data/Implementations/Standard/ChartDataSet.swift:135-139 | All four bounds widen to include the entry. |
| DataSetStandard.ChartDataSet.EntryForIndex | Source/Charts/Data/Implementations/Standard/ChartDataSet.swift:159-165 | The result is nil exactly for an index out of range, and the entry at the index otherwise. |
| DataSetStandard.ChartDataSet.EntryIndex | Source/Charts/Data/Implementations/Standard/ChartDataSet.swift:263-357 | The loops compute the reference `entryIndex`, whose properties are the lemmas above. |
| DataSetStandard.ChartDataSet.SearchClosest | Source/Charts/Data/Implementations/Standard/ChartDataSet.swift:268-309 | The search loop answers -1 on no entries, and otherwise the search function's result. |
| DataSetStandard.ChartDataSet.ClosestYIndex | Source/Charts/Data/Implementations/Standard/ChartDataSet.swift:327-353 | The backward and forward loops compute the corrected y refinement. |
| DataSetStandard.ChartDataSet.EntryForXValue | Source/Charts/Data/Implementations/Standard/ChartDataSet.swift:173-196 | The result is nil exactly when there are no entries. Otherwise it is the entry that `entryIndex` picks. |
| DataSetStandard.ChartDataSet.EntriesForXValue | Source/Charts/Data/Implementations/Standard/ChartDataSet.swift:200-254 | Every returned entry is at `xValue`. On x-sorted entries, the result is all entries at `xValue`, in order. |
| DataSetStandard.ChartDataSet.CollectRun | Source/Charts/Data/Implementations/Standard/ChartDataSet.swift:213-238 | From a match, stepping back to the run start and collecting forward yields the entries at `xValue`, and on sorted entries all of them. |
| DataSetStandard.ChartDataSet.EntryIndexOf | Source/Charts/Data/Implementations/Standard/ChartDataSet.swift:362-365 | The result is -1 exactly when the entry is absent. Otherwise it is the entry's first position. |
| DataSetStandard.ChartDataSet.AddEntry | Source/Charts/Data/Implementations/Standard/ChartDataSet.swift:374-381 | The method returns true, appends the entry and widens the bounds to it; exact bounds stay exact. |
| DataSetStandard.ChartDataSet.AddEntryOrdered | Source/Charts/Data/Implementations/Standard/ChartDataSet.swift:389-408 | The method returns true and inserts at the ordered position. Sorted entries stay sorted, and covering bounds stay covering. |
| DataSetStandard.ChartDataSet.InsertionIndex | Source/Charts/Data/Implementations/Standard/ChartDataSet.swift:395-399 | The `.up` search followed by the advance loop computes the ordered insertion point. |
| DataSetStandard.ChartDataSet.RemoveEntry | Source/Charts/Data/Implementations/Standard/ChartDataSet.swift:415-423 | The result is false and nothing changes when the entry is absent. Otherwise its first occurrence is removed and the bounds are recomputed. On a set left empty the bounds are those of the corrected `calcMinMax` (see Findings); as written they stay stale. |
| DataSetStandard.ChartDataSet.RemoveFirst | Source/Charts/Data/Implementations/Standard/ChartDataSet.swift:429-437 | An empty set gives false and no change. Otherwise the first entry is dropped and the bounds are recomputed. On a set left empty the bounds are those of the corrected `calcMinMax` (see Findings); as written they stay stale. |
| DataSetStandard.ChartDataSet.RemoveLast | Source/Charts/Data/Implementations/Standard/ChartDataSet.swift:443-451 | An empty set gives false and no change. Otherwise the last entry is dropped and the bounds are recomputed. On a set left empty the bounds are those of the corrected `calcMinMax` (see Findings); as written they stay stale. |
| DataSetStandard.ChartDataSet.Contains | Source/Charts/Data/Implementations/Standard/ChartDataSet.swift:455-458 | The result is true exactly when some entry equals `e`. |
| DataSetStandard.ChartDataSet.Clear | Source/Charts/Data/Implementations/Standard/ChartDataSet.swift:461-465 | No entries remain, and the bounds return to their initial values. On a set left empty the bounds are those of the corrected `calcMinMax` (see Findings); as written they stay stale. |
| DataSetLegacy.Plus | Charts/Classes/Data/ChartDataSet.swift:146 | Adding doubles gives NaN exactly when an operand is NaN, and the real sum otherwise. |
| DataSetLegacy.Minus | Charts/Classes/Data/ChartDataSet.swift:408 | Subtracting doubles gives NaN exactly when an operand is NaN, and the real difference otherwise. |
| DataSetLegacy.Sum | Charts/Classes/Data/ChartDataSet.swift:140-148 | The running sum is a number exactly when no value is NaN. |
| DataSetLegacy.SumAppend | Charts/Classes/Data/ChartDataSet.swift:140-148 | Without NaN, the sum splits over a concatenation. |
| DataSetLegacy.SumRemoveAt | Charts/Classes/Data/ChartDataSet.swift:392-413 | Without NaN, removing the entry at `i` takes exactly its value off the sum. |
| DataSetLegacy.SumAround | Charts/Classes/Data/ChartDataSet.swift:392-413 | Without NaN, the sum is the sums on either side of an entry plus that entry's value. |
| DataSetLegacy.SumWithNaNStaysNaN | Charts/Classes/Data/ChartDataSet.swift:406-409 | One NaN makes the cached sum NaN, and subtracting the NaN entry's value on removal does not restore the sum of the remaining entries. |
| DataSetLegacy.Less | Charts/Classes/Data/ChartDataSet.swift:366-373 | `<` on doubles holds only when both sides are numbers and the left is smaller, so any comparison with NaN is false. |
| DataSetLegacy.EndValue | Charts/Classes/Data/ChartDataSet.swift:99-108 | The last index visited is the last entry when `end` is 0 or not below the count, and `end` otherwise. |
| DataSetLegacy.RangeBounds | Charts/Classes/Data/ChartDataSet.swift:113-137 | The y bounds left are the minimum and maximum of the values that are not NaN, and both 0 when the minimum is still `DBL_MAX`. |
| DataSetLegacy.CountedMin | Charts/Classes/Data/ChartDataSet.swift:113-131 | The running minimum over the values that are not NaN is at most `DBL_MAX` and at most every counted value. It is `DBL_MAX` when every value is NaN. |
| DataSetLegacy.CountedMax | Charts/Classes/Data/ChartDataSet.swift:113-131 | The running maximum over the values that are not NaN is at least `-DBL_MAX` and at least every counted value. It is `-DBL_MAX` when every value is NaN. |
| DataSetLegacy.VisitedSnoc | Charts/Classes/Data/ChartDataSet.swift:116-131 | Visiting one more entry updates the bounds with `<` and `>` exactly as the loop body does, skipping NaN. |
| DataSetLegacy.RangeBoundsSkipNaN | Charts/Classes/Data/ChartDataSet.swift:116-137 | NaN values do not count, and with nothing counted both bounds are 0. Otherwise every counted value lies between the bounds. |
| DataSetLegacy.RunStartX | Charts/Classes/Data/ChartDataSet.swift:239-242 | Stepping back over equal x indices stops at the first entry of the run. |
| DataSetLegacy.XSearch | Charts/Classes/Data/ChartDataSet.swift:232-259 | The search answers a position, or -1 only when no probe was made. |
| DataSetLegacy.FirstOfRun | Charts/Classes/Data/ChartDataSet.swift:239-242 | The inner loop after a hit computes the start of the run. |
| DataSetLegacy.EntryIndexSpec | Charts/Classes/Data/ChartDataSet.swift:226-260 | `entryIndex(xIndex:)` answers -1 exactly when there are no entries, and a position in the list otherwise. |
| DataSetLegacy.XSearchHit | Charts/Classes/Data/ChartDataSet.swift:237-245 | On sorted entries, a hit returns the start of its run, which splits the entries at `x`. |
| DataSetLegacy.XSearchMiss | Charts/Classes/Data/ChartDataSet.swift:247-259 | Once the window is empty, no entry is at `x`, and the last probe lies next to where `x` belongs. |
| DataSetLegacy.XSearchCorrect | Charts/Classes/Data/ChartDataSet.swift:232-259 | From any state that satisfies the loop invariant on sorted entries, the search keeps its promise about hits and misses. |
| DataSetLegacy.EntryIndexFirstOrNeighbour | Charts/Classes/Data/ChartDataSet.swift:226-260 | On sorted entries, the answer is at `x` exactly when some entry is. Either way, the answer lies next to the point that splits the entries at `x`. |
| DataSetLegacy.EntryIndexHitIsFirst | Charts/Classes/Data/ChartDataSet.swift:237-245 | On a hit, the answer is the first of the entries with that x index. |
| DataSetLegacy.InsertionPoint | Charts/Classes/Data/ChartDataSet.swift:380-385 | `addEntryOrdered` inserts next to the search result: just after it when its x index is smaller than the new entry's, and at it otherwise. |
| DataSetLegacy.AtXIndex | Charts/Classes/Data/ChartDataSet.swift:179-224 | The entries at `x`, in order, each with that x index. |
| DataSetLegacy.AtXIndexRun | Charts/Classes/Data/ChartDataSet.swift:193-210 | On sorted entries, a maximal run at `x` is every entry at `x`. |
| DataSetLegacy.RunEndX | Charts/Classes/Data/ChartDataSet.swift:199-210 | The collecting loop's end is the first position after `i` with another x index, or the end of the list. |
| DataSetLegacy.EntriesStepAsWritten | Charts/Classes/Data/ChartDataSet.swift:186-221 | One pass of the loop as written: on a hit it collects the run at the x index and then compares against the entry just past the run, with `high` reset to the count; that read traps (`None`) when the run ends the list. A miss halves the window as in a binary search. |
| DataSetLegacy.EntriesForXIndexAsWrittenNeverEnds | Charts/Classes/Data/ChartDataSet.swift:186-221 | For x indices 1, 2, 3, a search for 1 returns to the window `0...0` on every pass and collects the entry again each time. A search for 3 reads past the last entry. |
| DataSetLegacy.ChartDataSet.Empty | Charts/Classes/Data/ChartDataSet.swift:59-62 | A new data set has no entries, no colours, zero bounds and a sum that matches. |
| DataSetLegacy.ChartDataSet.constructor | Charts/Classes/Data/ChartDataSet.swift:64-76 | A nil list becomes empty, and the default colour is added. The bounds are taken over every entry, skipping NaN, and the sum matches the entries. |
| DataSetLegacy.ChartDataSet.NotifyDataSetChanged | Charts/Classes/Data/ChartDataSet.swift:84-88 | The bounds are recomputed over the remembered range, and the sum is recomputed from every value. |
| DataSetLegacy.ChartDataSet.CalcMinMax | Charts/Classes/Data/ChartDataSet.swift:90-138 | With no entries nothing changes. Otherwise the range is remembered, with an end of 0 or past the entries meaning the last entry. The y bounds come from its values that are not NaN, and are 0 when none counts. |
| DataSetLegacy.ChartDataSet.RangeMinMax | Charts/Classes/Data/ChartDataSet.swift:113-131 | The loop leaves the least and greatest counted values of the range. |
| DataSetLegacy.ChartDataSet.CalcYValueSum | Charts/Classes/Data/ChartDataSet.swift:140-148 | The cached sum becomes the sum of every value, and nothing else changes. |
| DataSetLegacy.ChartDataSet.EntryIndex | Charts/Classes/Data/ChartDataSet.swift:226-260 | The binary-search loop computes `entryIndex(xIndex:)`. |
| DataSetLegacy.ChartDataSet.EntryForXIndex | Charts/Classes/Data/ChartDataSet.swift:169-177 | The result is nil exactly when there are no entries. Otherwise it is the entry the search answers. |
| DataSetLegacy.ChartDataSet.YValForXIndex | Charts/Classes/Data/ChartDataSet.swift:158-164 | The result is the value of the entry found when it is at `x`, and NaN otherwise. On sorted entries it is NaN when no entry is at `x`. |
| DataSetLegacy.ChartDataSet.EntriesForXIndex | Charts/Classes/Data/ChartDataSet.swift:179-224 | The corrected loop leaves once the run is collected. On sorted entries it returns every entry at `x`, in order. |
| DataSetLegacy.ChartDataSet.CollectRun | Charts/Classes/Data/ChartDataSet.swift:193-210 | From a match, stepping back and collecting forward yields the entries at `x`, and on sorted entries all of them. |
| DataSetLegacy.ChartDataSet.EntryIndexOf | Charts/Classes/Data/ChartDataSet.swift:262-286 | The result is -1 exactly when the entry is absent. Otherwise it is the entry's first position. |
| DataSetLegacy.ChartDataSet.WidenBounds | Charts/Classes/Data/ChartDataSet.swift:324-341 | The first value sets both bounds; later values widen them only when `<` or `>` holds, which NaN never passes. The value is added to the sum. |
| DataSetLegacy.ChartDataSet.AddEntry | Charts/Classes/Data/ChartDataSet.swift:315-344 | The entry is appended, its value is added to the sum, and the bounds widen. A sum that matched the entries still matches. |
| DataSetLegacy.ChartDataSet.AddEntryOrdered | Charts/Classes/Data/ChartDataSet.swift:350-390 | The entry is inserted once, and its value is added to the sum. It is appended when it does not lie before the last entry. Otherwise it is inserted at `InsertionPoint` of the `entryIndex(xIndex:)` result: that result, plus one when its x index is smaller. Sorted entries stay sorted by x index. The bounds become the entry's value on an empty set and otherwise widen to it. |
| DataSetLegacy.ChartDataSet.InsertionIndex | Charts/Classes/Data/ChartDataSet.swift:378-385 | The position is the `entryIndex(xIndex:)` result, moved on by one when its x index is smaller. On sorted entries it is the first position whose x index reaches the entry's, so the entry goes before any equal x index, and sorted entries stay sorted. |
| DataSetLegacy.ChartDataSet.InsertAt | Charts/Classes/Data/ChartDataSet.swift:385 | The entry is inserted before the given position, so the entries gain exactly that entry. |
| DataSetLegacy.ChartDataSet.RemoveEntry | Charts/Classes/Data/ChartDataSet.swift:392-413 | The result is true exactly when the entry was present. On removal the first occurrence goes, its value is subtracted from the sum, and the bounds are recomputed over the remembered range. Otherwise nothing changes. Without NaN, the sum keeps matching. |
| DataSetLegacy.ChartDataSet.DropAt | Charts/Classes/Data/ChartDataSet.swift:419-421 | The entry at the index is dropped and its value is subtracted from the sum; with no NaN the cached sum keeps tracking the entries. The bounds and the remembered range are left for `calcMinMax`. |
| DataSetLegacy.ChartDataSet.RemoveEntryAtXIndex | Charts/Classes/Data/ChartDataSet.swift:415-429 | An empty set gives false. Otherwise the result is true, and the entry the search finds is removed (it may be at another x index when nothing is at `x`) and its value is subtracted. The bounds are then recomputed over the remembered range, or kept when no entry is left. |
| DataSetLegacy.ChartDataSet.RemoveFirst | Charts/Classes/Data/ChartDataSet.swift:434-450 | An empty set gives false and no change. Otherwise the first entry is dropped, its value is subtracted from the sum and the bounds are recomputed over the remembered range, or kept when no entry is left. |
| DataSetLegacy.ChartDataSet.RemoveLast | Charts/Classes/Data/ChartDataSet.swift:455-471 | An empty set gives false and no change. Otherwise the last entry is dropped, its value is subtracted from the sum and the bounds are recomputed over the remembered range, or kept when no entry is left. |
| DataSetLegacy.ChartDataSet.ResetColors | Charts/Classes/Data/ChartDataSet.swift:473-476 | The colour list becomes empty. |
| DataSetLegacy.ChartDataSet.AddColor | Charts/Classes/Data/ChartDataSet.swift:478-481 | The colour is appended. |
| DataSetLegacy.ChartDataSet.SetColor | Charts/Classes/Data/ChartDataSet.swift:483-487 | The colour list is exactly the one colour, so every index maps to it. |
| DataSetLegacy.ChartDataSet.Contains | Charts/Classes/Data/ChartDataSet.swift:510-521 | The result is true exactly when some entry equals `e`. |
| DataSetLegacy.ChartDataSet.Clear | Charts/Classes/Data/ChartDataSet.swift:524-530 | No entries remain, the remembered range is reset and the sum is 0. Because `calcMinMax` returns early on no entries, the y bounds keep their old values. |
| DataSetLegacy.AppendKeepsSortedByXIndex | Charts/Classes/Data/ChartDataSet.swift:389 | Appending at or above the last x index keeps the entries sorted. |
| DataSetLegacy.InsertKeepsSortedByXIndex | Charts/Classes/Data/ChartDataSet.swift:385 | Inserting at a point that splits the entries at `e`'s x index keeps the entries sorted. |
| DataSetBase.WithAlpha | Source/Charts/Data/Implementations/ChartBaseDataSet.swift:238-241 | `withAlphaComponent` changes only the alpha of a colour. |
| DataSetBase.ChartBaseDataSet.constructor | Source/Charts/Data/Implementations/ChartBaseDataSet.swift:18-25 | A new data set has the default colour, black value text and no formatter. |
| DataSetBase.ChartBaseDataSet.RemoveEntry | Source/Charts/Data/Implementations/ChartBaseDataSet.swift:129-132 | This is the subclass's `removeEntry(_:)`, which the base declares. The result is true exactly when the entry was present. Its first occurrence is removed; otherwise nothing changes. |
| DataSetBase.ChartBaseDataSet.RemoveEntryAtIndex | Source/Charts/Data/Implementations/ChartBaseDataSet.swift:134-141 | An index out of range gives false and no change. Otherwise the first occurrence of the entry at that index is removed (the position itself unless an equal entry comes earlier), and the remaining entries keep their order. |
| DataSetBase.ChartBaseDataSet.RemoveEntryAtX | Source/Charts/Data/Implementations/ChartBaseDataSet.swift:143-150 | An empty set gives false. Otherwise the first occurrence of the entry the `.closest` search picks for `x` is removed, and the remaining entries keep their order. |
| DataSetBase.ChartBaseDataSet.RemoveFirst | Source/Charts/Data/Implementations/ChartBaseDataSet.swift:152-162 | An empty set gives false and no change. Otherwise the first entry is removed. |
| DataSetBase.ChartBaseDataSet.RemoveLast | Source/Charts/Data/Implementations/ChartBaseDataSet.swift:164-174 | An empty set gives false and no change. Otherwise the first occurrence of the last entry is removed, which is the last position when that entry occurs nowhere earlier. |
| DataSetBase.RemoveLastDropsEarlierCopy | Source/Charts/Data/Implementations/ChartBaseDataSet.swift:164-174 | When the last entry also occurs earlier, `removeLast` drops the earlier copy and the last position stays. |
| DataSetBase.LastOccursOnlyLast | Source/Charts/Data/Implementations/ChartBaseDataSet.swift:164-174 | An entry that does not occur before the last position is first found at the last position. |
| DataSetBase.RemoveAtMultiset | Source/Charts/Data/Implementations/ChartBaseDataSet.swift:134-141 | Dropping a position takes exactly its element out of the multiset. |
| DataSetBase.ChartBaseDataSet.ColorAtIndex | Source/Charts/Data/Implementations/ChartBaseDataSet.swift:203-211 | The result is one of the colours. An index inside the list yields that colour, and a negative index yields the first colour. |
| DataSetBase.ChartBaseDataSet.ResetColors | Source/Charts/Data/Implementations/ChartBaseDataSet.swift:214-217 | The colour list becomes empty, and nothing else changes. |
| DataSetBase.ChartBaseDataSet.AddColor | Source/Charts/Data/Implementations/ChartBaseDataSet.swift:221-224 | The colour is appended. |
| DataSetBase.ChartBaseDataSet.SetColor | Source/Charts/Data/Implementations/ChartBaseDataSet.swift:229-233 | The colour list is exactly the one colour, so every index yields it. |
| DataSetBase.ChartBaseDataSet.SetColorAlpha | Source/Charts/Data/Implementations/ChartBaseDataSet.swift:238-241 | The colour list is the one colour with the given alpha. |
| DataSetBase.ChartBaseDataSet.SetColorsAlpha | Source/Charts/Data/Implementations/ChartBaseDataSet.swift:246-256 | The colours are the given ones, in order, each with the given alpha. |
| DataSetBase.ChartBaseDataSet.SetColors | Source/Charts/Data/Implementations/ChartBaseDataSet.swift:261-264 | The colours are exactly the given ones. |
| DataSetBase.ChartBaseDataSet.NeedsFormatter | Source/Charts/Data/Implementations/ChartBaseDataSet.swift:295-298 | `needsFormatter` holds exactly when no formatter of the caller's is stored. |
| DataSetBase.ChartBaseDataSet.ValueFormatter | Source/Charts/Data/Implementations/ChartBaseDataSet.swift:276-298 | `needsFormatter` holds exactly when no formatter is stored. In that case the getter returns the default formatter; otherwise it returns the stored one. |
| DataSetBase.ChartBaseDataSet.SetValueFormatter | Source/Charts/Data/Implementations/ChartBaseDataSet.swift:287-292 | Assigning nil is ignored. Any other value is stored and then read back, and no default is needed any more. |
| DataSetBase.ChartBaseDataSet.ValueTextColor | Source/Charts/Data/Implementations/ChartBaseDataSet.swift:303-308 | The getter returns the first value colour, the same one `valueTextColorAt(0)` returns. |
| DataSetBase.ChartBaseDataSet.SetValueTextColor | Source/Charts/Data/Implementations/ChartBaseDataSet.swift:309-313 | The value colours become exactly `[c]`, so the getter and every index return `c`. |
| DataSetBase.ChartBaseDataSet.ValueTextColorAt | Source/Charts/Data/Implementations/ChartBaseDataSet.swift:317-325 | The result is one of the value colours. An index in range yields that colour, and a negative index yields the first one. |
| ChartData.Widen | Source/Charts/Data/ChartData/ChartData.swift:138-142 | Each widened bound is the lower (or higher) of the old bound and the data set's bound, and it equals one of the two. |
| ChartData.Overall | Source/Charts/Data/ChartData/ChartData.swift:70-80 | The folded overall bounds contain every data set's bounds. With no data sets they are the starting bounds `±greatestFiniteMagnitude`. |
| ChartData.FirstOn | Source/Charts/Data/ChartData/ChartData.swift:292-299 | `getFirstLeft`/`getFirstRight` are nil exactly when no data set is on the axis. Otherwise the result is the first data set on it. |
| ChartData.AxisFold | Source/Charts/Data/ChartData/ChartData.swift:89-97 | The per-axis loop's minimum is at most every minimum among the data sets on that axis, and its maximum is at least every maximum; data sets on the other axis are skipped. |
| ChartData.AxisFoldAttained | Source/Charts/Data/ChartData/ChartData.swift:89-97 | The fold ends at its start or at a bound of a data set on the axis. |
| ChartData.AxisRangeExact | Source/Charts/Data/ChartData/ChartData.swift:82-116 | With no data set on an axis, its range stays `(DBL_MAX, -DBL_MAX)`. Otherwise the range is exactly the least minimum and the greatest maximum among that axis's data sets. |
| ChartData.AxisRangeIgnoresOtherAxis | Source/Charts/Data/ChartData/ChartData.swift:89 | A data set on the other axis does not move an axis's range. |
| ChartData.FirstOnPrefix | Source/Charts/Data/ChartData/ChartData.swift:292-294 | The first data set on an axis stays first when more data sets are appended. |
| ChartData.EntryCount | Source/Charts/Data/ChartData/ChartData.swift:348-350 | The total is 0 for no data sets and at least every data set's count. |
| ChartData.EntryCountUpdate | Source/Charts/Data/ChartData/ChartData.swift:348-350 | Replacing one data set changes the total by the difference of the two counts. |
| ChartData.EntryCountRemove | Source/Charts/Data/ChartData/ChartData.swift:348-350 | Dropping a data set takes exactly its entries off the total. |
| ChartData.OverallSameBounds | Source/Charts/Data/ChartData/ChartData.swift:70-117 | The folds depend only on the data sets' axes and bounds. |
| ChartData.OverallWidenOne | Source/Charts/Data/ChartData/ChartData.swift:120-124 | Widening one data set's bounds by an entry widens the overall bounds by exactly that entry. |
| ChartData.AddEntryTo | Source/Charts/Data/ChartData/ChartData.swift:248-249 | The data set's `addEntry` appends the entry, widens the set's bounds to it and keeps its axis. |
| ChartData.RemoveEntryFrom | Source/Charts/Data/ChartData/ChartData.swift:258 | The data set's `removeEntry` returns false and leaves it unchanged when the entry is absent. Otherwise it drops the first occurrence and recomputes the set's bounds. |
| ChartData.Other | Source/Charts/Data/ChartData/ChartData.swift:161-194 | The other axis differs from the given one. |
| ChartData.AxisRangeAppend | Source/Charts/Data/ChartData/ChartData.swift:396-399 | When its y bounds lie within `DBL_MAX`, an appended data set moves its axis's range exactly as `calcMinMax(dataSet:)` does, and leaves the other axis alone. |
| ChartData.AxisFoldNone | Source/Charts/Data/ChartData/ChartData.swift:89-97 | Without data sets on the axis, the fold leaves its start. |
| ChartData.AxisRangeWidenOne | Source/Charts/Data/ChartData/ChartData.swift:120-135 | Widening one data set by an entry widens its axis's range by the entry's y and leaves the other axis alone. |
| ChartData.AxisFoldStartShift | Source/Charts/Data/ChartData/ChartData.swift:89-97 | Widening the fold's start by `v` widens its result by `v`. |
| ChartData.ChartData.Empty | Source/Charts/Data/ChartData/ChartData.swift:42 | The new data has no data sets, and every bound is at its starting value. |
| ChartData.ChartData.constructor | Source/Charts/Data/ChartData/ChartData.swift:48-50 | The data sets are stored through the setter, and the cached bounds are recalculated to match them. |
| ChartData.ChartData.SetDataSets | Source/Charts/Data/ChartData/ChartData.swift:197-205 | The new data sets are stored, and the bounds are recalculated. |
| ChartData.ChartData.CalcMinMax | Source/Charts/Data/ChartData/ChartData.swift:70-117 | After recalculation, the overall bounds fold every data set, and each axis range is the exact range of its own data sets. |
| ChartData.ChartData.AxisLoop | Source/Charts/Data/ChartData/ChartData.swift:89-97 | The `where axisDependency == axis` loop computes the per-axis fold. |
| ChartData.ChartData.CalcMinMaxDataSet | Source/Charts/Data/ChartData/ChartData.swift:138-153 | The overall bounds and the range of the data set's own axis widen to its bounds. The other axis is unchanged. |
| ChartData.ChartData.CalcMinMaxEntry | Source/Charts/Data/ChartData/ChartData.swift:120-135 | The overall bounds and the range of the given axis widen to the entry. The other axis is unchanged. |
| ChartData.ChartData.GetYMin | Source/Charts/Data/ChartData/ChartData.swift:161-178 | The result is one of the two minima. The requested axis's own minimum is returned exactly when it is not `DBL_MAX` or the other axis's minimum is `DBL_MAX` too. |
| ChartData.ChartData.GetYMax | Source/Charts/Data/ChartData/ChartData.swift:180-194 | The result is one of the two maxima. The requested axis's own maximum is returned exactly when it is not `-DBL_MAX` or the other axis's maximum is `-DBL_MAX` too. |
| ChartData.ChartData.YRangeFallsBack | Source/Charts/Data/ChartData/ChartData.swift:161-194 | With the bounds in sync, an axis without data sets reports the other axis's range. An axis with real data reports a range containing every one of its data sets. |
| ChartData.ChartData.DataSetAt | Source/Charts/Data/ChartData/ChartData.swift:228-231 | The result is nil exactly for an index out of range, and the data set at the index otherwise. |
| ChartData.ChartData.IndexOfDataSet | Source/Charts/Data/ChartData/ChartData.swift:286-289 | The result is -1 exactly when the data set is absent. Otherwise it is the data set's first position. |
| ChartData.ChartData.ContainsDataSet | Source/Charts/Data/ChartData/ChartData.swift:343-345 | The result is true exactly when the index lookup finds the data set. |
| ChartData.ChartData.TotalEntryCount | Source/Charts/Data/ChartData/ChartData.swift:348-350 | `entryCount` is the sum of the data sets' entry counts. |
| ChartData.ChartData.Append | Source/Charts/Data/ChartData/ChartData.swift:396-399 | The data set is added at the end, and the bounds widen to it. The total grows by its count, and bounds in sync stay in sync. |
| ChartData.ChartData.RemoveAt | Source/Charts/Data/ChartData/ChartData.swift:401-405 | The data set at the position is removed and returned. The bounds are recalculated, and the total drops by its count. |
| ChartData.ChartData.RemoveDataSet | Source/Charts/Data/ChartData/ChartData.swift:237-240 | When the data set is absent, the result is nil and nothing changes. Otherwise its first position is removed, it is returned, and the bounds are recalculated. |
| ChartData.ChartData.RemoveFirst | Source/Charts/Data/ChartData/ChartData.swift:407-413 | The first data set is removed and returned, and the bounds are recalculated. |
| ChartData.ChartData.RemoveLast | Source/Charts/Data/ChartData/ChartData.swift:422-428 | The last data set is removed and returned, and the bounds are recalculated. |
| ChartData.ChartData.ClearValues | Source/Charts/Data/ChartData/ChartData.swift:336-338 | No data sets remain, and every bound, per axis too, returns to its starting value. |
| ChartData.ChartData.AppendEntry | Source/Charts/Data/ChartData/ChartData.swift:243-251 | An index out of range changes nothing. Otherwise the entry is appended to that data set. The overall bounds and that set's axis widen to it, the total grows by one, and the bounds stay in sync. |
| ChartData.ChartData.RemoveEntry | Source/Charts/Data/ChartData/ChartData.swift:254-265 | The result is true exactly when the index is valid and the set holds the entry. In that case the first occurrence is removed, the bounds are recalculated and the total drops by one; otherwise nothing changes. |
| ChartData.ChartData.RemoveEntryAtX | Source/Charts/Data/ChartData/ChartData.swift:271-278 | The result is true exactly when the index is valid and the data set's `.closest` search by x (`DataSetCollection.EntryIndexSpec`, Source/Charts/Data/ChartDataSet/ChartDataSet.swift:159-161 and 179-232) answers a position before `endIndex`. The data set at the index then becomes that set with the answered entry removed, the other sets are kept, and the total drops by one. Past the last entry the result is false under the corrected `entryForXValue` guard. |
| ChartData.RemovedAtXIsFirstAtLeast | Source/Charts/Data/ChartDataSet/ChartDataSet.swift:179-232 | On x-sorted entries, something is removed exactly when some entry has x at least `xValue`, and the removed entry is the first such entry. |
| ChartData.RemovedAtXIsNotNearest | Source/Charts/Data/ChartDataSet/ChartDataSet.swift:184-185 | For x = 1, 10 and `xValue` 2, the search answers the entry at 10, not the nearer one at 1. |
| ChartData.FirstOnSameAxes | Source/Charts/Data/ChartData/ChartData.swift:292-299 | Data sets with the same axes have the same first data set on each axis. |
| ChartData.AxisFoldWidenOne | Source/Charts/Data/ChartData/ChartData.swift:120-135 | Widening a data set on the axis by an entry widens the axis fold by the entry's y. |
| ChartData.AxisFoldWidenOther | Source/Charts/Data/ChartData/ChartData.swift:120-135 | Widening a data set on the other axis leaves the axis fold unchanged. |
| ViewPortHandler.ScaledBy | Source/Charts/Utils/ViewPortHandler.swift:172-175 | Within `zoom(scaleX:scaleY:)`, `scaledBy` keeps the translation. |
| ViewPortHandler.ApplyScaledBy | Source/Charts/Utils/ViewPortHandler.swift:172-175 | Applying `m.scaledBy(x:y:)` to a point is the same as scaling the point and then applying `m`. |
| ViewPortHandler.TranslatedBy | Source/Charts/Utils/ViewPortHandler.swift:178-184 | `translatedBy` keeps the linear part of the matrix. |
| ViewPortHandler.ApplyTranslatedBy | Source/Charts/Utils/ViewPortHandler.swift:178-184 | Applying `m.translatedBy(x:y:)` is the same as moving the point first and then applying `m`. |
| ViewPortHandler.ThenTranslated | Source/Charts/Utils/ViewPortHandler.swift:235-243 | Concatenating a translation moves every image point by that translation. |
| ViewPortHandler.ZoomAround | Source/Charts/Utils/ViewPortHandler.swift:178-184 | The zoom around (x, y) translates the touch matrix by (x, y), scales it by the factors, and translates it back by (-x, -y). |
| ViewPortHandler.ZoomAroundMapsPoint | Source/Charts/Utils/ViewPortHandler.swift:178-184 | The translate–scale–translate-back zoom scales each point's distance from the centre by the zoom factors, before `m` applies. |
| ViewPortHandler.ZoomAroundKeepsCentre | Source/Charts/Utils/ViewPortHandler.swift:178-184 | The zoom centre is a fixed point of the zoom, and every other point is scaled about it. |
| ViewPortHandler.LimitOf | Source/Charts/Utils/ViewPortHandler.swift:274-293 | Each scale is clamped into its minimum and maximum. `tx` is clamped into `[-width (scaleX-1) - offsetX, offsetX]` and `ty` into `[-offsetY, height (scaleY-1) + offsetY]`, the upper bound of `tx` and the lower one of `ty` winning when a range is empty. |
| ViewPortHandler.Limit | Source/Charts/Utils/ViewPortHandler.swift:295-298 | The matrix written back takes the clamped scales and translations and keeps its shear coefficients. |
| ViewPortHandler.LimitWithinBounds | Source/Charts/Utils/ViewPortHandler.swift:271-299 | With min ≤ max, each clamped scale lies within its limits. `tx` lies within `[-width (scaleX-1) - offsetX, offsetX]` and `ty` within `[-offsetY, height (scaleY-1) + offsetY]` whenever those ranges are non-empty. A value already inside is kept. |
| ViewPortHandler.LimitIdempotent | Source/Charts/Utils/ViewPortHandler.swift:271-299 | Limiting a matrix that was already limited changes nothing, whatever the limits are. |
| ViewPortHandler.MinimumScale | Source/Charts/Utils/ViewPortHandler.swift:302-314 | The stored minimum scale is at least 1. A request below 1 becomes 1, and any other request is kept. |
| ViewPortHandler.MaximumScale | Source/Charts/Utils/ViewPortHandler.swift:317-329 | A requested maximum of 0 means no limit, stored as `greatestFiniteMagnitude`; any other request is kept. |
| ViewPortHandler.MinMaxScaleXAsWritten | Source/Charts/Utils/ViewPortHandler.swift:332-350 | As written, `setMinMaxScaleX` stores the sanitised minimum but the maximum exactly as passed in, so a maximum of 0 is stored as 0 rather than as no limit. |
| ViewPortHandler.MinMaxScaleXAsWrittenCollapsesScale | Source/Charts/Utils/ViewPortHandler.swift:332-350 | As written, `setMinMaxScaleX(1, 0)` stores a maximum of 0, so the next limit forces the x scale to 0. With the sanitised maximum the scale would stay 1. |
| ViewPortHandler.FloorHundredths | Source/Charts/Utils/ViewPortHandler.swift:424-444 | The rounding down to hundredths used by the right and bottom bound checks never rounds up, and it lowers the value by less than 0.01. |
| ViewPortHandler.ViewPortHandler.constructor | Source/Charts/Utils/ViewPortHandler.swift:59-64 | The handler starts with the identity matrix, unit scales, no translation or drag offset, maxima of `greatestFiniteMagnitude`, and the content equal to the whole chart. |
| ViewPortHandler.ViewPortHandler.HasChartDimens | Source/Charts/Utils/ViewPortHandler.swift:79-89 | The chart has dimensions exactly when both its height and its width are positive. |
| ViewPortHandler.ViewPortHandler.OffsetLeft | Source/Charts/Utils/ViewPortHandler.swift:99-102 | The left offset is the x of the content origin. |
| ViewPortHandler.ViewPortHandler.OffsetRight | Source/Charts/Utils/ViewPortHandler.swift:104-107 | The right offset is the chart width less the content width and the content x. |
| ViewPortHandler.ViewPortHandler.OffsetTop | Source/Charts/Utils/ViewPortHandler.swift:109-112 | The top offset is the y of the content origin. |
| ViewPortHandler.ViewPortHandler.OffsetBottom | Source/Charts/Utils/ViewPortHandler.swift:114-117 | The bottom offset is the chart height less the content height and the content y. |
| ViewPortHandler.ViewPortHandler.ContentRight | Source/Charts/Utils/ViewPortHandler.swift:129-132 | The right edge of the content is the chart width less the right offset. |
| ViewPortHandler.ViewPortHandler.ContentBottom | Source/Charts/Utils/ViewPortHandler.swift:134-137 | The bottom edge of the content is the chart height less the bottom offset. |
| ViewPortHandler.ViewPortHandler.ContentCenter | Source/Charts/Utils/ViewPortHandler.swift:154-157 | The centre is equidistant from the left and right content edges, and from the top and bottom ones. |
| ViewPortHandler.ViewPortHandler.SetChartDimens | Source/Charts/Utils/ViewPortHandler.swift:66-77 | The new size is stored, and the four offsets read back unchanged. Matrix, scales and limits keep their values. |
| ViewPortHandler.ViewPortHandler.RestrainViewPort | Source/Charts/Utils/ViewPortHandler.swift:91-117 | The four offsets read back as given, and the content is the chart inset by them. Nothing else changes. |
| ViewPortHandler.ViewPortHandler.Zoom | Source/Charts/Utils/ViewPortHandler.swift:172-175 | The scales are multiplied by the factors, and the translation is kept. |
| ViewPortHandler.ViewPortHandler.ZoomAt | Source/Charts/Utils/ViewPortHandler.swift:178-184 | The zoom centre (x, y) maps where the touch matrix maps it. |
| ViewPortHandler.ViewPortHandler.ZoomIn | Source/Charts/Utils/ViewPortHandler.swift:187-190 | `zoomIn` is a zoom by 1.4 around the point, which stays fixed. |
| ViewPortHandler.ViewPortHandler.ZoomOut | Source/Charts/Utils/ViewPortHandler.swift:193-196 | `zoomOut` is a zoom by 0.7 around the point, which stays fixed. |
| ViewPortHandler.ViewPortHandler.ResetZoom | Source/Charts/Utils/ViewPortHandler.swift:199-202 | A zoom by 1 around the origin returns the touch matrix unchanged. |
| ViewPortHandler.ViewPortHandler.SetZoom | Source/Charts/Utils/ViewPortHandler.swift:205-211 | The scales are replaced, and every other coefficient is kept. |
| ViewPortHandler.ViewPortHandler.SetZoomAt | Source/Charts/Utils/ViewPortHandler.swift:214-223 | The pivot maps where the touch matrix with unit scales maps it. |
| ViewPortHandler.ViewPortHandler.FitScreen | Source/Charts/Utils/ViewPortHandler.swift:226-232 | Both minimum scales go back to 1, the identity is returned, and nothing else changes. |
| ViewPortHandler.ViewPortHandler.Translate | Source/Charts/Utils/ViewPortHandler.swift:235-243 | Every point's image is moved by `-(pt - (offsetLeft, offsetTop))`. |
| ViewPortHandler.ViewPortHandler.LimitTransAndScale | Source/Charts/Utils/ViewPortHandler.swift:271-299 | The stored scales and translations are the clamped values, and the matrix is rewritten with them, so it and the stored values agree. The limits and the content are unchanged. |
| ViewPortHandler.ViewPortHandler.Refresh | Source/Charts/Utils/ViewPortHandler.swift:258-268 | The new matrix, limited, becomes the touch matrix and is returned. Limiting the result again changes nothing. The content rectangle, chart size, scale limits and drag offsets are kept. |
| ViewPortHandler.ViewPortHandler.CenterViewPort | Source/Charts/Utils/ViewPortHandler.swift:248-255 | The touch matrix becomes the limited translation to `pt`. The content rectangle, chart size, scale limits and drag offsets are kept. |
| ViewPortHandler.ViewPortHandler.SetMinimumScaleX | Source/Charts/Utils/ViewPortHandler.swift:302-314 | The x minimum becomes the sanitised request, which is at least 1. The other limits are kept, and the touch matrix is re-limited. The content rectangle, chart size and drag offsets are kept. |
| ViewPortHandler.ViewPortHandler.SetMaximumScaleX | Source/Charts/Utils/ViewPortHandler.swift:317-329 | The x maximum becomes the request, with 0 meaning no limit. The other limits are kept, and the touch matrix is re-limited. The content rectangle, chart size and drag offsets are kept. |
| ViewPortHandler.ViewPortHandler.SetMinMaxScaleX | Source/Charts/Utils/ViewPortHandler.swift:332-350 | Both x limits are sanitised as by the single setters (the intended behaviour; see Findings), the y limits are kept, and the matrix is re-limited. The content rectangle, chart size and drag offsets are kept. |
| ViewPortHandler.ViewPortHandler.SetMinimumScaleY | Source/Charts/Utils/ViewPortHandler.swift:353-365 | The y minimum becomes the sanitised request, which is at least 1. The other limits are kept, and the touch matrix is re-limited. The content rectangle, chart size and drag offsets are kept. |
| ViewPortHandler.ViewPortHandler.SetMaximumScaleY | Source/Charts/Utils/ViewPortHandler.swift:368-380 | The y maximum becomes the request, with 0 meaning no limit. The other limits are kept, and the touch matrix is re-limited. The content rectangle, chart size and drag offsets are kept. |
| ViewPortHandler.ViewPortHandler.SetMinMaxScaleY | Source/Charts/Utils/ViewPortHandler.swift:382-400 | Both y limits are sanitised, the x limits are kept, and the matrix is re-limited. The content rectangle, chart size and drag offsets are kept. |
| ViewPortHandler.ViewPortHandler.IsInBoundsLeft | Source/Charts/Utils/ViewPortHandler.swift:424-427 | A point is in bounds on the left when it lies at most one point to the left of the content's left edge. |
| ViewPortHandler.ViewPortHandler.IsInBoundsRight | Source/Charts/Utils/ViewPortHandler.swift:429-433 | A point is in bounds on the right when, rounded down to hundredths, it lies at most one point to the right of the content's right edge. |
| ViewPortHandler.ViewPortHandler.IsInBoundsTop | Source/Charts/Utils/ViewPortHandler.swift:435-438 | A point is in bounds at the top when it is at or below the content's top edge. |
| ViewPortHandler.ViewPortHandler.IsInBoundsBottom | Source/Charts/Utils/ViewPortHandler.swift:440-444 | A point is in bounds at the bottom when, rounded down to hundredths, it is at or above the content's bottom edge. |
| ViewPortHandler.ViewPortHandler.IsInBoundsX | Source/Charts/Utils/ViewPortHandler.swift:409-412 | The point is in x bounds exactly when it is in bounds on the left and on the right. This holds on `[offsetLeft - 1, contentRight + 1]`, and never from `contentRight + 1.01` on. |
| ViewPortHandler.ViewPortHandler.IsInBoundsY | Source/Charts/Utils/ViewPortHandler.swift:414-417 | The point is in y bounds exactly when it is in bounds at the top and at the bottom. This holds on `[offsetTop, contentBottom]`, and never from `contentBottom + 0.01` on. |
| ViewPortHandler.ViewPortHandler.IsFullyZoomedOut | Source/Charts/Utils/ViewPortHandler.swift:495-498 | The chart is fully zoomed out exactly when it is fully zoomed out on both axes. |
| ViewPortHandler.ViewPortHandler.IsFullyZoomedOutY | Source/Charts/Utils/ViewPortHandler.swift:501-504 | The y axis is fully zoomed out when the y scale is not above its minimum and that minimum is at most 1. |
| ViewPortHandler.ViewPortHandler.IsFullyZoomedOutX | Source/Charts/Utils/ViewPortHandler.swift:507-510 | The x axis is fully zoomed out when the x scale is not above its minimum and that minimum is at most 1. |
| ViewPortHandler.ViewPortHandler.HasNoDragOffset | Source/Charts/Utils/ViewPortHandler.swift:525-528 | There is no drag offset exactly when neither drag offset is positive. |
| ViewPortHandler.ViewPortHandler.CanZoomOutMoreX | Source/Charts/Utils/ViewPortHandler.swift:531-534 | The chart can zoom out more on x exactly when the x scale is above its minimum. |
| ViewPortHandler.ViewPortHandler.CanZoomInMoreX | Source/Charts/Utils/ViewPortHandler.swift:537-540 | The chart can zoom in more on x exactly when the x scale is below its maximum. |
| ViewPortHandler.ViewPortHandler.CanZoomOutMoreY | Source/Charts/Utils/ViewPortHandler.swift:543-546 | The chart can zoom out more on y exactly when the y scale is above its minimum. |
| ViewPortHandler.ViewPortHandler.CanZoomInMoreY | Source/Charts/Utils/ViewPortHandler.swift:549-552 | The chart can zoom in more on y exactly when the y scale is below its maximum. |
| ViewPortHandler.ViewPortHandler.IsInBounds | Source/Charts/Utils/ViewPortHandler.swift:419-422 | A point is in bounds exactly when it is in bounds on x and on y. |
| ViewPortHandler.ViewPortHandler.ZoomFlagsAfterLimit | Source/Charts/Utils/ViewPortHandler.swift:495-552 | After a limit, with a minimum of 1, being fully zoomed out is the same as being unable to zoom out further. The scale lies within its limits, and zooming in is possible unless it sits at the maximum. |
| ViewPortHandler.ViewPortHandler.SetDragOffsetX | Source/Charts/Utils/ViewPortHandler.swift:513-516 | The x drag offset is stored, the y offset is kept, and `hasNoDragOffset` holds exactly when neither offset is positive. |
| ViewPortHandler.ViewPortHandler.SetDragOffsetY | Source/Charts/Utils/ViewPortHandler.swift:519-522 | The y drag offset is stored, the x offset is kept, and `hasNoDragOffset` holds exactly when neither offset is positive. |
| ViewPortHandler.ViewPortHandler.NoDragOffsetPinsTranslation | Source/Charts/Utils/ViewPortHandler.swift:525-528 | Without drag offsets and at unit scale limits, the limit pins both translations to 0. |
| AxisBase.LimitLine.constructor | Source/Charts/Components/AxisBase.swift:254-257 | A limit line keeps the value and the label it was made with. |
| AxisBase.ClampLabelCount | Source/Charts/Components/AxisBase.swift:224-245 | The stored label count always lies in [2, 25]. Counts inside the range are kept, a count above it becomes 25 and one below it 2. |
| AxisBase.ClampLabelCountIdempotent | Source/Charts/Components/AxisBase.swift:224-245 | Setting a clamped count again changes nothing. |
| AxisBase.WidenedRange | Source/Charts/Components/AxisBase.swift:358-371 | A non-empty range is kept, and a range of zero width is widened by 1 on each side. Either way the resulting range is positive. |
| AxisBase.WidenedRangeIdempotent | Source/Charts/Components/AxisBase.swift:358-371 | Recalculating with a range that was already widened leaves it unchanged. |
| AxisBase.FirstHitRemoved | Source/Charts/Components/AxisBase.swift:260-270 | The first match found by the scan in `removeLimitLine` is the line's first position. Removing it takes exactly one copy of the line out of the collection. |
| AxisBase.CalculateKeepsCustomEnds | Source/Charts/Components/AxisBase.swift:351-372 | With both ends custom and distinct, `calculate` leaves them as they are, whatever the data. |
| AxisBase.AxisBase.constructor | Source/Charts/Components/AxisBase.swift:19-22 | A new axis has 6 labels, no forcing, granularity 1 (switched off), no limit lines, no custom ends and a zero range. |
| AxisBase.AxisBase.EntryCount | Source/Charts/Components/AxisBase.swift:92 | `entryCount` is the number of computed label entries. |
| AxisBase.AxisBase.IsCenterAxisLabelsEnabled | Source/Charts/Components/AxisBase.swift:63-67 | Labels are centred exactly when the flag is on and there are entries. |
| AxisBase.AxisBase.SetLabelCountProperty | Source/Charts/Components/AxisBase.swift:224-245 | The label count becomes the clamped value, forcing is switched off, and the range and limit lines are kept. |
| AxisBase.AxisBase.SetLabelCount | Source/Charts/Components/AxisBase.swift:247-251 | The label count becomes the clamped value, forcing is set as asked, and nothing else changes. |
| AxisBase.AxisBase.SetGranularity | Source/Charts/Components/AxisBase.swift:119-132 | The granularity is stored and switched on, and nothing else changes. |
| AxisBase.AxisBase.AddLimitLine | Source/Charts/Components/AxisBase.swift:254-257 | The line is appended to the limit lines. |
| AxisBase.AxisBase.RemoveLimitLine | Source/Charts/Components/AxisBase.swift:260-270 | When the line is absent, nothing changes. Otherwise its first position is removed, so exactly one copy leaves the lines. |
| AxisBase.AxisBase.RemoveAllLimitLines | Source/Charts/Components/AxisBase.swift:273-276 | No limit lines remain, and the range is kept. |
| AxisBase.AxisBase.ResetCustomAxisMin | Source/Charts/Components/AxisBase.swift:287-290 | The minimum is no longer custom, but its value is kept until the next `calculate`. |
| AxisBase.AxisBase.ResetCustomAxisMax | Source/Charts/Components/AxisBase.swift:293-296 | The maximum is no longer custom, but its value is kept until the next `calculate`. |
| AxisBase.AxisBase.SetAxisMinimum | Source/Charts/Components/AxisBase.swift:317-329 | The minimum becomes custom with the given value. The range becomes its distance to the maximum, which is kept. |
| AxisBase.AxisBase.SetAxisMaximum | Source/Charts/Components/AxisBase.swift:334-346 | The maximum becomes custom with the given value. The range becomes its distance from the minimum, which is kept. |
| AxisBase.AxisBase.Calculate | Source/Charts/Components/AxisBase.swift:351-372 | Each end is the custom value or the data's end less or plus its space. Equal ends are pushed 1 apart, so the range is positive and equals the distance between the ends. A custom minimum survives unless the ends coincide. |
| AxisBase.AxisBase.StartMin | Source/Charts/Components/AxisBase.swift:354 | `calculate` starts from the custom minimum when there is one, and otherwise from the data minimum less `spaceMin`. |
| AxisBase.AxisBase.StartMax | Source/Charts/Components/AxisBase.swift:355 | `calculate` starts from the custom maximum when there is one, and otherwise from the data maximum plus `spaceMax`. |
| ChartYAxis.AxisMaximumRangeAsWritten | Charts/Classes/Components/AxisBase.swift:336-339 | As written, the `axisMaximum` setter records as the range the distance from the stored maximum, which already holds the new value, to the new value. |
| ChartYAxis.AxisMaximumRangeAsWrittenIsZero | Charts/Classes/Components/AxisBase.swift:329-341 | As written, the `axisMaximum` setter measures the range from the new maximum to itself. Setting a maximum of 5 over a minimum of 0 therefore records a range of 0, not 5. |
| ChartYAxis.SpacedMin | Charts/Classes/Components/ChartYAxis.swift:296-310 | A computed minimum is the data minimum, lowered by 1 when the ends coincide, less `spaceBottom` times the data's own range. |
| ChartYAxis.SpacedMax | Charts/Classes/Components/ChartYAxis.swift:296-317 | A computed maximum is the data maximum, raised by 1 when the ends coincide, plus `spaceTop` times the data's own range. |
| ChartYAxis.SpacedRangeCoversData | Charts/Classes/Components/ChartYAxis.swift:289-321 | For ordered data and non-negative spaces, the computed axis covers the data, and its range is the data's range grown by the two spaces. Data of zero range becomes the data ± 1, because the spaces are taken from the range before widening. |
| ChartYAxis.ChartYAxis.constructor | Charts/Classes/Components/ChartYAxis.swift:166-177 | A new y axis is on the given side, enabled, with 6 labels and no forcing. Granularity is 1 and switched off, both spaces are 0.1, labels sit outside the chart, and there are no custom ends and a zero range. |
| ChartYAxis.ChartYAxis.SetLabelCount | Charts/Classes/Components/ChartYAxis.swift:184-198 | The count is clamped into [2, 25], and forcing is set as asked. The range is kept. |
| ChartYAxis.ChartYAxis.SetLabelCountProperty | Charts/Classes/Components/ChartYAxis.swift:205-215 | The `labelCount` setter clamps the count and switches forcing off. |
| ChartYAxis.ChartYAxis.SetGranularity | Charts/Classes/Components/ChartYAxis.swift:140-153 | The granularity is stored and switched on, and nothing else changes. |
| ChartYAxis.ChartYAxis.NeedsOffset | Charts/Classes/Components/ChartYAxis.swift:261-271 | The axis needs horizontal room exactly when it is enabled, draws its labels and draws them outside the chart. |
| ChartYAxis.ChartYAxis.ResetCustomAxisMin | Charts/Classes/Components/AxisBase.swift:278-281 | The minimum is no longer custom, and its value and the range are kept. |
| ChartYAxis.ChartYAxis.ResetCustomAxisMax | Charts/Classes/Components/AxisBase.swift:286-289 | The maximum is no longer custom, and its value and the range are kept. |
| ChartYAxis.ChartYAxis.SetAxisMinimum | Charts/Classes/Components/AxisBase.swift:313-324 | The minimum becomes custom with the given value, and the maximum is kept. The range stays the distance between the ends. |
| ChartYAxis.ChartYAxis.SetAxisMaximum | Charts/Classes/Components/AxisBase.swift:329-341 | The maximum becomes custom with the given value, and the minimum is kept. The range stays the distance between the ends (the intended behaviour; see Findings). |
| ChartYAxis.ChartYAxis.SetStartAtZeroEnabled | Charts/Classes/Components/ChartYAxis.swift:60-77 | Setting true gives a custom minimum of 0, and setting false drops the custom minimum. Either way the getter reads back what was set, and the maximum is kept. |
| ChartYAxis.ChartYAxis.Calculate | Charts/Classes/Components/ChartYAxis.swift:289-321 | Custom ends are kept. A computed end is the data's, widened when the ends coincide and pushed out by the space times the range taken before widening. The range stays the distance between the ends. |
| ChartYAxis.ChartYAxis.StartAtZeroEnabled | Charts/Classes/Components/ChartYAxis.swift:62-65 | The `startAtZeroEnabled` getter holds exactly when the minimum is custom and equal to 0. |
| Legend.CountTrue | Source/Charts/Components/Legend.swift:280-336 | The number of line breaks flagged among the entries is at most the number of entries. |
| Legend.CountTrueSnoc | Source/Charts/Components/Legend.swift:280-336 | One more flag adds one break exactly when it is set. |
| Legend.CountTrueUpdate | Source/Charts/Components/Legend.swift:313-318 | Flagging a break at the group's first entry adds one break to every prefix that contains it, and none to the others. |
| Legend.CountTrueSetFalse | Source/Charts/Components/Legend.swift:280-336 | Clearing the flag of the current entry leaves the breaks counted up to it, as the loop resets each entry's flag. |
| Legend.RowWidth | Source/Charts/Components/Legend.swift:211-248 | The row width an entry leaves: a label closing a stacked group starts a row of its own, a label after its own form adds the form-to-text space, and an entry without a label extends the stacked row by its form and, unless it is last, the stack space. |
| Legend.VerticalRowsStep | Source/Charts/Components/Legend.swift:201-254 | The vertical layout adds the rows of one entry at a time. |
| Legend.VerticalRowsAtLeastLabels | Source/Charts/Components/Legend.swift:201-254 | Each labelled entry takes one or two rows, so the row count lies between the label count and twice it. |
| Legend.LabelWidthMax | Source/Charts/Components/Legend.swift:134-163 | The widest label is at least as wide as every label, and not negative. |
| Legend.LabelHeightMax | Source/Charts/Components/Legend.swift:134-163 | The tallest label is at least as tall as every label, and not negative. |
| Legend.FormSizeMax | Source/Charts/Components/Legend.swift:134-163 | The largest form size, with NaN meaning the legend's own form size, is at least every entry's form size, and not negative. |
| Legend.LabelWidthMaxAttained | Source/Charts/Components/Legend.swift:134-163 | The widest label width belongs to a label, unless no label is wider than 0. |
| Legend.FormSizeMaxAttained | Source/Charts/Components/Legend.swift:134-163 | The largest form size belongs to an entry, unless none exceeds 0. |
| Legend.PlaceGroup | Source/Charts/Components/Legend.swift:310-332 | The group goes on the current line exactly when word wrap is off, the line is empty, or the group fits after the entry space. The line then grows by the entry space (none on an empty line) plus the group's width. Otherwise the line's size is appended, the widest line is updated, the group's first entry is flagged as a break and the new line is the group alone. The last entry appends the current line too. |
| Legend.HorizontalLayout | Source/Charts/Components/Legend.swift:256-340 | The results are `LayoutOf` the entries: one label size per entry (zero for stacked entries), and the break flags, line sizes and widest line of the greedy filling `LinesAfter`, the widest line being the maximum of its line widths. What that filling guarantees is `LinesFilledGreedily`. |
| Legend.VerticalLayout | Source/Charts/Components/Legend.swift:201-254 | The width is the widest of the row widths `RowWidths`, the rows of stacked forms and labels the loop builds. The height is the line height plus the entry space, added once per row (`Stacked`): one row per labelled entry and one more for each that closes a stacked group. |
| Legend.MaxOfBounds | Source/Charts/Components/Legend.swift:321-331 | Each line width is at most the widest, as `max` keeps it. |
| Legend.MaxOfAttained | Source/Charts/Components/Legend.swift:321-331 | The widest line is one of the lines, unless none is wider than 0. |
| Legend.GroupStart | Source/Charts/Components/Legend.swift:287-308 | The stacked group an entry belongs to starts at or before it. |
| Legend.GroupClose | Source/Charts/Components/Legend.swift:310 | The group an entry belongs to is closed by a later (or the same) entry that has a label or is the last. |
| Legend.GroupCloseInGroup | Source/Charts/Components/Legend.swift:304-335 | Every entry from a group's start to its closing entry has that entry as its closer. |
| Legend.GroupStartRun | Source/Charts/Components/Legend.swift:304-308 | The entries of a group before its closing one have no label. |
| Legend.GroupStartAfterLabel | Source/Charts/Components/Legend.swift:335 | A group never starts at or before a labelled entry that precedes it. |
| Legend.RequiredWidth | Source/Charts/Components/Legend.swift:287-302 | The width an entry needs is its form (with the form-to-text space when it has a label) plus its label's width, added to the group's width so far and the stack space when it continues a stacked group. |
| Legend.LinesAfter | Source/Charts/Components/Legend.swift:280-336 | After the first `k` entries the greedy filling has one break flag per entry. A group that fits (or any group without word wrap, or on an empty line) extends the open line; otherwise it closes the line and flags its first entry as a break. |
| Legend.LinesInvAfter | Source/Charts/Components/Legend.swift:280-336 | After every prefix of the entries, the filling has one closed line per break, no break without word wrap, and only justified breaks. With word wrap, each line fits or is as wide as one group on it. |
| Legend.LinesStep | Source/Charts/Components/Legend.swift:310-332 | One entry more keeps that invariant. With word wrap, the line left open by a closing group fits or holds that group alone. |
| Legend.KeepStep | Source/Charts/Components/Legend.swift:285-318 | An entry that does not close its group, or a group that fits, adds a clear flag and no closed line, and keeps the invariant. |
| Legend.FitStep | Source/Charts/Components/Legend.swift:313-318 | A group that fits extends the open line by the spacing and its own width. With word wrap that line still fits or holds the group alone. |
| Legend.BreakStep | Source/Charts/Components/Legend.swift:319-327 | A group that does not fit closes the open line and flags its first entry. The new line holds that group alone, and the invariant is kept. |
| Legend.BreakCount | Source/Charts/Components/Legend.swift:325 | Flagging the group's first entry adds exactly one break, and the breaks before it are those of the closed lines. |
| Legend.PlacedFlags | Source/Charts/Components/Legend.swift:313-327 | The flags `PlaceGroup` leaves, set at the group's first entry exactly when the group does not fit, are those of the filling after one more entry. |
| Legend.LinesFilledGreedily | Source/Charts/Components/Legend.swift:280-340 | The complete filling has one line per break plus the last, and none without entries. It never breaks without word wrap, and breaks only before the first entry of a group that does not fit after a non-empty line. With word wrap, a line wider than the content width is exactly as wide as one group on it. |
| Legend.OverfullLineAfterEmptyGroup | Source/Charts/Components/Legend.swift:311-318 | A label of width 0 leaves the line at width 0, so the next group is placed as if the line were empty. With content width 50, a group 100 wide then shares the first line with it, and that line is 100 wide: as wide as one of its groups. |
| Legend.GroupMarkClear | Source/Charts/Components/Legend.swift:285-325 | The flag of the entry at which a closing group would break is still clear when the group is placed. |
| Legend.GroupPlaced | Source/Charts/Components/Legend.swift:310-332 | Placing a group as `PlaceGroup` does moves the flags, line sizes, widest line and current line from the filling after `i` entries to the one after `i + 1`. |
| Legend.PlacedLines | Source/Charts/Components/Legend.swift:321-331 | Appending the closed line and the last line keeps the line sizes and the widest line in step with the line widths. |
| Legend.HorizontalEntry | Source/Charts/Components/Legend.swift:281-335 | One pass of the horizontal loop moves the layout state from the filling after `i` entries to the one after `i + 1`. |
| Legend.WidestRowStep | Source/Charts/Components/Legend.swift:233-250 | One entry more widens the widest row by the rows it finishes: the stacked row closed by a label, then its own row. |
| Legend.VerticalEntry | Source/Charts/Components/Legend.swift:212-250 | One pass of the vertical loop moves the row width, the widest row, the height and the stacking flag from the first `i` entries to the first `i + 1`. |
| Legend.Sized | Source/Charts/Components/Legend.swift:321-330 | Each line size has the line's width and the label line height. |
| Legend.StackedIsProduct | Source/Charts/Components/Legend.swift:201-254 | Stacking `n` rows of height `h` gives `h * n`. |
| Legend.LinesHeight | Source/Charts/Components/Legend.swift:339-340 | No lines have no height, one line is one line height, and each further line adds the space and a line height. |
| Legend.LinesHeightIsProduct | Source/Charts/Components/Legend.swift:339-340 | The height of `n` lines is `n` line heights plus `n - 1` entry spaces, and 0 for no lines, the product the source computes. |
| Legend.Legend.constructor | Source/Charts/Components/Legend.swift:121-126 | A new legend has no entries, is horizontal, has word wrap on and offsets of 5 and 3, and carries the default sizes and spaces. |
| Legend.Legend.SetCustom | Source/Charts/Components/Legend.swift:353-356 | The given entries are stored and the legend reports itself custom. |
| Legend.Legend.ResetCustom | Source/Charts/Components/Legend.swift:359-361 | The legend is no longer custom, and its entries are kept. |
| Legend.Legend.GetMaximumEntrySize | Source/Charts/Components/Legend.swift:134-163 | The width is the widest label plus the largest form plus the form-to-text space. The height is the tallest label. |
| Legend.Legend.CalculateDimensions | Source/Charts/Components/Legend.swift:187-345 | The text maxima are those of the maximum entry size. The needed width is the widest line (horizontal) or the widest row (vertical), plus `xOffset`. The needed height and the line arrays are those of the layout for the legend's orientation, with the horizontal one over `ContentWidth`, and the vertical layout leaves the arrays untouched. |
| Legend.Legend.SetTextMax | Source/Charts/Components/Legend.swift:188-199 | The text maxima become the widest label plus the largest form and the form-to-text space, and the tallest label. |
| Legend.Legend.CalculateVertical | Source/Charts/Components/Legend.swift:201-254 | The needed width is the widest row of `RowWidths` plus `xOffset`. The needed height is one line height plus entry space per row, added up as the loop does, plus `yOffset`. |
| Legend.Legend.CalculateHorizontal | Source/Charts/Components/Legend.swift:256-344 | The label sizes, break flags and line sizes are those of the greedy filling over `ContentWidth`, the view port's content width times `maxSizePercent`. The needed width is its widest line plus `xOffset`, and the needed height is `LinesHeight` of its lines plus `yOffset`. |
| PieChartView.CalcAngle | Source/Charts/Charts/PieChartView.swift:268-270 | The angle of a value is its share of `yValueSum`, taken of `maxAngle` degrees. |
| PieChartView.CalcAngleShares | Source/Charts/Charts/PieChartView.swift:268-270 | The angle is a linear share of `maxAngle`. The whole sum spans `maxAngle`, a value of 0 spans nothing, and the angle of a sum is the sum of the angles. |
| PieChartView.CalcAngleNonNegative | Source/Charts/Charts/PieChartView.swift:268-270 | A non-negative value of a positive sum gets a non-negative angle. |
| PieChartView.DrawAngles | Source/Charts/Charts/PieChartView.swift:241-246 | `calcAngles` draws one angle per entry: the angle of the entry's absolute y value. Without entries there are no angles and no division. |
| PieChartView.DrawAnglesNonNegative | Source/Charts/Charts/PieChartView.swift:241-246 | With a positive sum, every slice angle is non-negative, since absolute values are taken. |
| PieChartView.DrawAnglesSnoc | Source/Charts/Charts/PieChartView.swift:241-246 | Appending an entry appends exactly its angle. |
| PieChartView.SumOfDrawAngles | Source/Charts/Charts/PieChartView.swift:241-246 | The slice angles sum to the angle of the summed absolute values. |
| PieChartView.AbsAll | Source/Charts/Charts/PieChartView.swift:246 | Each entry contributes its absolute value. |
| PieChartView.AbsAllOfNonNegative | Source/Charts/Charts/PieChartView.swift:246 | Non-negative values are their own absolute values. |
| PieChartView.Accumulated | Source/Charts/Charts/PieChartView.swift:248-252 | There is one running angle per slice, and the first is the first slice's angle. |
| PieChartView.AccumulatedStep | Source/Charts/Charts/PieChartView.swift:248-252 | Each later running angle is the previous one plus its own slice angle. |
| PieChartView.AccumulatedSnoc | Source/Charts/Charts/PieChartView.swift:248-252 | Appending a slice appends the previous running angle plus the slice angle. |
| PieChartView.AngleAppended | Source/Charts/Charts/PieChartView.swift:244-252 | Appending the angle of `y` and the running angle after it gives the draw and absolute angles of one more entry. |
| PieChartView.AccumulatedIsPrefixSum | Source/Charts/Charts/PieChartView.swift:248-252 | Each running angle is the sum of the slice angles up to and including its own. |
| PieChartView.AccumulatedNondecreasing | Source/Charts/Charts/PieChartView.swift:248-252 | With non-negative slice angles, the running angles never decrease. |
| PieChartView.FlattenStep | Source/Charts/Charts/PieChartView.swift:243-244 | The entries are visited data set by data set, in order. |
| PieChartView.FlattenPrefix | Source/Charts/Charts/PieChartView.swift:241-244 | The data sets visited so far hold no more entries than all of them, so an entry seen means the sum is used. |
| PieChartView.SlicesFillMaxAngle | Source/Charts/Charts/PieChartView.swift:227-255 | When non-negative values sum to `yValueSum`, the last running angle is exactly `maxAngle`, so the slices fill the pie. |
| PieChartView.FirstAbove | Source/Charts/Charts/PieChartView.swift:278-282 | `firstIndex { $0 > a }` is nil exactly when no running angle exceeds `a`. Otherwise it is the first one that does. |
| PieChartView.FirstAboveOfRunningAngles | Source/Charts/Charts/PieChartView.swift:278-282 | Over non-negative slice angles, the index found is the slice spanning the angle. It ends beyond it, the slice before ends at or before it, and every later slice ends beyond it. |
| PieChartView.IndexForAngleIsSpanningSlice | Source/Charts/Charts/PieChartView.swift:278-282 | With running angles from `calcAngles` and a positive sum, the index found for an angle is that of the slice spanning it. |
| PieChartView.PieChartView.constructor | Source/Charts/Charts/PieChartView.swift:82-88 | A new chart has no data and no angles. It spans a full circle of 360 degrees, with the rotation at 270, the top. |
| PieChartView.PieChartView.SetMaxAngle | Source/Charts/Charts/PieChartView.swift:532-547 | The maximum angle is clamped into [90, 360]: inside values are kept, above becomes 360 and below 90. The angles and the rotation are kept. |
| PieChartView.PieChartView.SetRotationAngle | Source/Charts/Charts/PieRadarChartViewBase.swift:330-341 | The raw rotation is kept as given, and the rotation used is its normal form in [0, 360). |
| PieChartView.PieChartView.CalcAngles | Source/Charts/Charts/PieChartView.swift:227-255 | Without data there are no angles. Otherwise there is one draw angle per entry, data set by data set, and the absolute angles are their running sums. A zero sum is allowed when there are no entries. |
| PieChartView.PieChartView.AppendDataSet | Source/Charts/Charts/PieChartView.swift:243-253 | The inner loop appends one data set's angles, and the running sums follow them. |
| PieChartView.PieChartView.AppendAngle | Source/Charts/Charts/PieChartView.swift:244-252 | One step appends the entry's angle, and the running angle at which its slice ends. |
| PieChartView.PieChartView.IndexForAngle | Source/Charts/Charts/PieChartView.swift:278-282 | With the touch angle taken relative to the rotation and normalised, the result is nil exactly when no slice ends beyond it. Otherwise it is the first slice that does. |
| ChartUtils.Normalized | Charts/Classes/Utils/ChartUtils.swift:303-314 | The normal form of an angle lies in [0, 360) and differs from the angle by whole turns of 360. |
| ChartUtils.NormalizedPeriodic | Charts/Classes/Utils/ChartUtils.swift:303-314 | Adding whole turns does not change the normalised angle. |
| ChartUtils.NormalizedInRange | Charts/Classes/Utils/ChartUtils.swift:303-314 | An angle already in [0, 360) is its own normal form. |
| ChartUtils.NormalizedWholeTurns | Charts/Classes/Utils/ChartUtils.swift:303-314 | The normalised angle differs from the input by a whole number of turns. |
| ChartUtils.TruncatingRemainder | Charts/Classes/Utils/ChartUtils.swift:313 | `truncatingRemainder(dividingBy:)` is the value less the divisor times the quotient rounded toward zero, so its sign is that of the value. |
| ChartUtils.RemainderOfNonNegative | Charts/Classes/Utils/ChartUtils.swift:313 | For a non-negative angle, `truncatingRemainder(dividingBy: 360)` is the normal form. |
| ChartUtils.NormalizedAngleFromAngle | Charts/Classes/Utils/ChartUtils.swift:304-314 | Adding 360 while the angle is negative, then taking the truncating remainder, gives an angle in [0, 360) that differs from the input by whole turns. |
| ChartUtils.ClosestSelectionDetailByValue | Charts/Classes/Utils/ChartUtils.swift:117-141 | The result is nil exactly when no detail passes the axis filter at a distance below `DBL_MAX`. Otherwise it is the first such detail at the least distance from the value. |
| ChartUtils.ClosestAtUnique | Charts/Classes/Utils/ChartUtils.swift:117-141 | The first closest detail is unique, so the choice is determined. |
| ChartUtils.BridgeRoundTrips | Charts/Classes/Utils/ChartUtils.swift:359-411 | Bridging one element to Objective-C and back returns it unchanged, nil included. Nil becomes `NSNull` and nothing else does, and an object of the right kind comes back as itself. |
| ChartUtils.BridgedColorsToObjC | Charts/Classes/Utils/ChartUtils.swift:359-374 | There is one object per colour, `NSNull` where the colour is nil. |
| ChartUtils.BridgedColorsFromObjC | Charts/Classes/Utils/ChartUtils.swift:376-384 | There is one optional colour per object, nil where the object is not a colour. |
| ChartUtils.BridgedStringsToObjC | Charts/Classes/Utils/ChartUtils.swift:386-401 | There is one object per string, `NSNull` where the string is nil. |
| ChartUtils.BridgedStringsFromObjC | Charts/Classes/Utils/ChartUtils.swift:403-411 | There is one optional string per object, nil where the object is not a string. |
| ChartUtils.StringArrayRoundTrip | Charts/Classes/Utils/ChartUtils.swift:386-411 | A string array bridged to Objective-C and back is unchanged, with nil exactly where it was. |
| ChartUtils.ColorArrayRoundTrip | Charts/Classes/Utils/ChartUtils.swift:359-384 | A colour array bridged to Objective-C and back is unchanged. |
| SwiftyJSON.IndexGet | ChartsDemo-OSX/ChartsDemo-OSX/SwiftyJSON.swift:371-383 | On an array, an index in bounds gives the element with no error, and any other index gives `null` with `ErrorIndexOutOfBounds`. On a value that is not an array it gives `null` carrying that value's own error, or `ErrorWrongType` when it has none. |
| SwiftyJSON.KeyGet | ChartsDemo-OSX/ChartsDemo-OSX/SwiftyJSON.swift:395-407 | On a dictionary, a present key gives its element with no error, and a missing key gives `null` with `ErrorNotExist`. On a value that is not a dictionary it gives `null` carrying that value's own error, or `ErrorWrongType` when it has none. |
| SwiftyJSON.SubGet | ChartsDemo-OSX/ChartsDemo-OSX/SwiftyJSON.swift:416-422 | An index step reads through the index getter and a key step through the key getter. |
| SwiftyJSON.PathGet | ChartsDemo-OSX/ChartsDemo-OSX/SwiftyJSON.swift:441-443 | The steps of the path are read one after another, starting from the value itself (the `reduce` of the getter). |
| SwiftyJSON.Exists | ChartsDemo-OSX/ChartsDemo-OSX/SwiftyJSON.swift:912-919 | `exists()` is false exactly when the error is one of `ErrorNotExist`, `ErrorIndexOutOfBounds` or `ErrorWrongType`, and true for no error or any other code. |
| SwiftyJSON.IndexSetAsWritten | ChartsDemo-OSX/ChartsDemo-OSX/SwiftyJSON.swift:384-389 | The index setter as written: on an array whose count exceeds the index, an error-free value is stored, and a negative index traps (`None`). Anything else leaves the value as it was. |
| SwiftyJSON.IndexSet | ChartsDemo-OSX/ChartsDemo-OSX/SwiftyJSON.swift:384-389 | The index setter with the bound the getter uses: an error-free value is stored at an index in bounds of an array, keeping the array's error; anything else leaves the value as it was (see Findings). |
| SwiftyJSON.KeySet | ChartsDemo-OSX/ChartsDemo-OSX/SwiftyJSON.swift:408-412 | On a dictionary, an error-free value is stored under the key, replacing or adding it, and the dictionary's error is kept; anything else leaves the value as it was. |
| SwiftyJSON.SubSet | ChartsDemo-OSX/ChartsDemo-OSX/SwiftyJSON.swift:423-428 | An index step writes through the index setter and a key step through the key setter. |
| SwiftyJSON.PathSet | ChartsDemo-OSX/ChartsDemo-OSX/SwiftyJSON.swift:444-456 | The empty path changes nothing. One step stores the new value's object, without its error, at that step. A longer path sets the rest of the path inside the element read at the first step and stores that element back. |
| SwiftyJSON.IndexGetBounds | ChartsDemo-OSX/ChartsDemo-OSX/SwiftyJSON.swift:371-383 | For an array, an index out of bounds gives `null` with error 900, and that value does not `exist()`. An index in bounds gives the element, which does. |
| SwiftyJSON.KeyGetPresence | ChartsDemo-OSX/ChartsDemo-OSX/SwiftyJSON.swift:395-407 | For a dictionary, a missing key gives `null` with error 500, and that value does not `exist()`. A present key gives its value, which does. |
| SwiftyJSON.PathGetIsLeftFold | ChartsDemo-OSX/ChartsDemo-OSX/SwiftyJSON.swift:440-443 | The empty path gives `self`. A path of one more step applies that step to the shorter path's result, so the path getter is the left fold of the single subscripts. |
| SwiftyJSON.ErrorPersistsAlongPath | ChartsDemo-OSX/ChartsDemo-OSX/SwiftyJSON.swift:416-443 | Once a step has failed, every later subscript keeps that `null` and its error to the end of the path. |
| SwiftyJSON.IndexSetAsWrittenTrapsOnNegativeIndex | ChartsDemo-OSX/ChartsDemo-OSX/SwiftyJSON.swift:384-389 | As written, the guard `count > index` admits index -1, so setting element -1 of a one-element array traps. |
| SwiftyJSON.IndexSetReadsBack | ChartsDemo-OSX/ChartsDemo-OSX/SwiftyJSON.swift:384-389 | The bounded setter agrees with the one as written wherever that one does not trap. Reading back an index just set gives the stored value. Other indices keep theirs, and the error is kept. |
| SwiftyJSON.KeySetReadsBack | ChartsDemo-OSX/ChartsDemo-OSX/SwiftyJSON.swift:408-412 | Setting a key on a dictionary stores the value, error-free, and adds the key if it is missing. Other keys keep their values, and the error is kept. |
| SwiftyJSON.PathSetKeepsError | ChartsDemo-OSX/ChartsDemo-OSX/SwiftyJSON.swift:444-456 | Setting along any path keeps the error of the value set into. |
| SwiftyJSON.PathSetThenGet | ChartsDemo-OSX/ChartsDemo-OSX/SwiftyJSON.swift:444-456 | Setting a value along a settable path and then reading the same path gives the value's object back, without an error. |
| SwiftyJSON.PathSetThroughMissingKey | ChartsDemo-OSX/ChartsDemo-OSX/SwiftyJSON.swift:444-456 | Setting through a missing key changes nothing, because the element reached carries error 500 and so nothing is stored back. |
| SwiftyJSON.Merging | ChartsDemo-OSX/ChartsDemo-OSX/SwiftyJSON.swift:148-167 | With equal types, two dictionaries merge key by key keeping `self`'s error, two arrays concatenate, and any other value is replaced by `other`. With differing types the checked level throws `ErrorWrongType`, and an unchecked level takes `other`. |
| SwiftyJSON.MergedValue | ChartsDemo-OSX/ChartsDemo-OSX/SwiftyJSON.swift:148-166 | The nested merge has the type of the value merged in. |
| SwiftyJSON.Merge | ChartsDemo-OSX/ChartsDemo-OSX/SwiftyJSON.swift:148-166 | The imperative key-by-key merge yields exactly the merge outcome: the new `self`, or a thrown `ErrorWrongType`. |
| SwiftyJSON.NestedMerge | ChartsDemo-OSX/ChartsDemo-OSX/SwiftyJSON.swift:151-154 | Merging an element read from `self` (null with error 500 when the key is missing) with an element of `other` gives their nested merge, error-free. |
| SwiftyJSON.MergeArraysConcatenates | ChartsDemo-OSX/ChartsDemo-OSX/SwiftyJSON.swift:155-156 | Merging two arrays gives their concatenation. |
| SwiftyJSON.MergeTypeCheck | ChartsDemo-OSX/ChartsDemo-OSX/SwiftyJSON.swift:160-166 | With differing types, the checked level throws `ErrorWrongType`, and a nested level is replaced by `other`. Equal primitive types are replaced too. |
| SwiftyJSON.MergedDictionaryKeys | ChartsDemo-OSX/ChartsDemo-OSX/SwiftyJSON.swift:151-154 | A dictionary merge keeps `self`'s error and every key of both sides. A key only in `self` keeps its value, and a key only in `other` takes its value. A key in both holds the nested merge of the two. |
| SwiftyJSON.MergeSelfArrayFree | ChartsDemo-OSX/ChartsDemo-OSX/SwiftyJSON.swift:148-166 | Merging a value without arrays into itself changes nothing. |
| SwiftyJSON.MergeSelfDoublesArrays | ChartsDemo-OSX/ChartsDemo-OSX/SwiftyJSON.swift:155-156 | Merging an array into itself doubles it, so merging is not idempotent. |
| SwiftyJSON.BoolValue | ChartsDemo-OSX/ChartsDemo-OSX/SwiftyJSON.swift:789-806 | `boolValue` is a bool's own value, true for a number other than 0, true for a string equal to "true", "y" or "t" ignoring case, and false for everything else. |
| SwiftyJSON.TruthyStrings | ChartsDemo-OSX/ChartsDemo-OSX/SwiftyJSON.swift:789-806 | A string is truthy exactly when it equals "true", "y" or "t", ignoring case. "yes", "1" and the empty string are false. |
| SwiftyJSON.JsonEqual | ChartsDemo-OSX/ChartsDemo-OSX/SwiftyJSON.swift:1225-1243 | `==` compares the objects of two values of the same type, holds for two nulls, and is false for differing types; the errors are not compared (see Left out). |
| SwiftyJSON.JsonEqualIsObjectEquality | ChartsDemo-OSX/ChartsDemo-OSX/SwiftyJSON.swift:1225-1243 | `==` holds exactly when the wrapped objects are equal. It is symmetric, false when the types differ, and ignores the errors. |

## Left out

- Floating point: every `Double` and `CGFloat` is an exact `real`. Rounding, overflow to infinity and NaN go unmodelled, except for the legacy data set's values and the `closestToY: .nan` arguments, where the source tests for NaN.
- `PieChartView.PieChartView.CalcAngles`: requires a non-zero `yValueSum` when the data holds at least one entry. In floating point the source divides by 0 and gets infinities or NaN, which exact reals cannot express.
- `PieChartView.CalcAngle`: carries the same requirement of a non-zero sum, for the same reason.
- Drawing: renderers, chart views, gestures, animation and display links draw or react to time and touch, and are not part of this model. So are the Realm data sets and all demo code apart from its SwiftyJSON value type.
- `Legend.Legend.CalculateDimensions`: label sizes come from font measurement, a foreign call. They are the parameter `measure`, and the font's line height and the view port's content width are plain inputs.
- SwiftyJSON: parsing, `rawString`, the numeric and string accessors, and the `NSNumber` comparisons are foreign-library work. Only the object model, the subscripts, `merge`, `exists`, `boolValue` and `==` are modelled.
- SwiftyJSON.JsonEqual: `==` (SwiftyJSON.swift:1225-1242) is modelled as structural equality of the object, and `JsonEqualIsObjectEquality` states this stronger-than-source equality. Two differences are not captured. Top-level strings compare with Swift `String ==`, which is canonical equivalence, so `"é"` and `"e\u{301}"` are equal there, while here strings are sequences of code points. Arrays and dictionaries compare as `NSArray`/`NSDictionary` with `isEqual:` on their elements, under which an `NSNumber` true equals the number 1, so `JSON([true]) == JSON([1])` holds there and not here. Both depend on Foundation semantics that lie outside the model.
- SwiftyJSON: `JSON` is a value type, so its `mutating` subscript setters are functions from the old value to the new one. `merge(with:)` is a method returning the new value or the error thrown.
- Identity: comparisons by `===` and `isEqual` become equality of values. Two distinct but equal entries, data sets or limit lines cannot be told apart.
- ChartData.ChartData.RemoveEntryAtX: the data set is the `ChartDataSetProtocol` one of Source/Charts/Data/ChartDataSet/ChartDataSet.swift. Its `.closest` search answers the first entry whose x reaches `xValue`, not the nearest one that the doc comment at ChartData.swift:267-268 suggests. When `xValue` lies past the last entry, that file's `entryForXValue` reads `self[endIndex]` and traps (see Findings). The model follows the corrected guard and returns false with nothing changed.
- `ChartData`: the data sets are value summaries (axis, bounds and entry count) held in a sequence. Sharing one data set object between charts, and edits made to it behind the aggregate's back, are not modelled.
- `ChartData`: the lookups by label or by highlight, the colour and formatter forwarding, `maxEntryCountSet`, `removeFirst(_:)`, `removeLast(_:)`, `removeSubrange`, `replaceSubrange` and `calcMinMaxY(fromX:toX:)` of the aggregate are left out. The lookups and forwarding keep no state. `removeFirst(_:)`, `removeLast(_:)` and `removeSubrange` end in a full recalculation, as the modelled removals do. `replaceSubrange` is different: it only widens the bounds by each new data set through `calcMinMax(dataSet:)`, so bounds contributed by the replaced data sets persist. The model does not capture those stale bounds.
- `ChartData.ChartData.RemoveFirst` and `ChartData.ChartData.RemoveLast`: require a data set to be present, since Swift's `removeFirst()` and `removeLast()` trap on an empty collection.
- `SortedArrays.SortedArray.InsertContentsOf`: inserts the new elements one by one. The result is a sorted permutation, as the source promises, but the order of equivalent elements that the source's stable sort produces is not pinned down.
- Data sets: the swift-algorithms `partitioningIndex(where:)` is not part of the sources here. It is modelled by `DataSetCollection.PartitionFrom`, the usual halving search over a window.
- `ViewPortHandler`: `hasChartDimens`, the fully-zoomed-out and can-zoom predicates are modelled only as predicates, tied together by `ZoomFlagsAfterLimit`. The intersection tests for lines belong to a variant of the file that is not part of this model.
- `PieChartView.PieChartView.IndexForAngle`: the `.normalizedAngle` extension is taken to be `ChartUtils.Normalized`, the normal form in [0, 360).
- `AxisBase.LimitLine.constructor`: `ChartLimitLine.swift` is not part of this model. A limit line is reduced to its value and label.
- Components: `isEnabled`, `drawLabelsEnabled` and the other plain stored flags of the component base classes are fields without behaviour of their own.
- Legacy data set: `average`, `valueFormatter`, `copyWithZone` and the display properties (label, visibility, fonts, highlight flags) carry no logic beyond a stored value and are left out.
- `removeAll(keepingCapacity:)`: capacity is not modelled, only the contents.
- Near-duplicate older or platform variants of the core files are left out. They include the pre-3.0 view port handler, chart data, legend and base data set, and the UIKit copy of the view port handler. Only the inherited axis setters of the legacy `AxisBase` are modelled, because the legacy `ChartYAxis` uses them.

## Findings

| source | as written | input that shows it | evidently intended | confidence | as-written member | corrected member |
|---|---|---|---|---|---|---|
| Source/Charts/Data/ChartDataSet/ChartDataSet.swift:216-219 | the y scan advances with `formIndex(after:)` while `closest < endIndex`, then reads `self[closest]` | one entry (1, 0), searched at x = 1 with a y value: the scan reads `self[1]` on a one-element set | stop the scan at the end of the entries | medium (not executed) | DataSetCollection.ScanYAsWrittenReadsPastEnd | DataSetCollection.ChartDataSet.ClosestYIndex |
| Source/Charts/Data/ChartDataSet/ChartDataSet.swift:222-224 | `closestYValue = yValue` records the target, not the entry's y | entries at x = 1 with y = 10, 7, 5 and target y 0: the scan stops at 7 | `closestYValue = value.y`, so the scan ends at the entry closest in y | high (not executed) | DataSetCollection.ScanYAsWrittenMissesClosest | DataSetCollection.ClosestYInRunIsClosest |
| Source/Charts/Data/ChartDataSet/ChartDataSet.swift:166-170 | `partitioningIndex(where: { $0.x == xValue })` over entries sorted by x, which are not partitioned by that test | x = 1, 2, 3, 4, 5 and the query x = 2 gives `[]` | partition by `x >= xValue`, then take the prefix with `x == xValue` | high (not executed) | DataSetCollection.EntriesForXValueAsWrittenMisses | DataSetCollection.RunFromIsWholeRun |
| Source/Charts/Data/ChartDataSet/ChartDataSet.swift:144-147 | `if index > -1 { return self[index] }` admits `endIndex` | an empty set, or one entry (1, 1) queried at x = 5: reads `self[endIndex]` | `index < endIndex` | high (not executed) | DataSetCollection.EntryForXValueAsWrittenTraps | DataSetCollection.ChartDataSet.EntryForXValue |
| Source/Charts/Data/ChartDataSet/ChartDataSet.swift:93-98 | `self[indexFrom ... indexTo]`, a closed range whose upper end may be `endIndex` | one entry (1, 1), `calcMinMaxY(fromX: 0, toX: 5)` | stop at the last entry | medium (not executed) | DataSetCollection.CalcMinMaxYAsWrittenTraps | DataSetCollection.ChartDataSet.CalcMinMaxY |
| Source/Charts/Data/ChartDataSet/ChartDataSet.swift:243-245 | the insertion point is searched with `closestToY: e.y`, which moves it inside a run of equal x | entries (5, 10), (5, 0), (6, 0), then `addEntryOrdered((4, 0))` inserts at position 1 (with the corrected y scan; as written the scan of 216-219 also reads past the end when the run reaches the last entry, as for (5, 0), (5, 1) and (4, 0)) | search by x alone, so the entries stay sorted by x | medium (not executed) | DataSetCollection.AddEntryOrderedAsWrittenBreaksOrder | DataSetCollection.OrderedPositionKeepsSorted |
| Source/Charts/Data/Implementations/Standard/ChartDataSet.swift:344-347 | `closestYValue = yValue` records the target, not the entry's y | entries at x = 1 with y = 10, 7, 5 and target y 0: the scan settles on 7 | `closestYValue = value.y` | high (not executed) | DataSetStandard.ScanYAsWrittenMissesClosest | DataSetStandard.RefineYIsClosest |
| Source/Charts/Data/Implementations/Standard/ChartDataSet.swift:394-395 | the insertion point is searched with `closestToY: e.y` | entries (5, 10), (5, 0), (6, 0), then `addEntryOrdered((4, 0))` inserts at position 1 | search by x alone | medium (not executed) | DataSetStandard.AddEntryOrderedAsWrittenBreaksOrder | DataSetStandard.OrderedPositionKeepsSorted |
| Source/Charts/Data/Implementations/Standard/ChartDataSet.swift:94-104 | `guard !_values.isEmpty else { return }` comes before the bounds are reset | remove the only entry (1, 1): the bounds stay at 1 | an empty set reports `±greatestFiniteMagnitude` | medium (not executed) | DataSetStandard.CalcMinMaxAsWrittenKeepsStaleBounds | DataSetStandard.ChartDataSet.CalcMinMax |
| Charts/Classes/Data/ChartDataSet.swift:179-224 | after collecting the run at the x index the loop does not return: it sets `high` again and goes on searching | x indices 1, 2, 3 and the query 1: the window 0...0 repeats forever; query 3 reads past the last entry | return the collected run | high (not executed) | DataSetLegacy.EntriesForXIndexAsWrittenNeverEnds | DataSetLegacy.ChartDataSet.EntriesForXIndex |
| Source/Charts/Utils/ViewPortHandler.swift:332-350 | stores `_maxScaleX = maxScaleX`, the raw argument, after computing the sanitised `newMax` | `setMinMaxScaleX(minScaleX: 1, maxScaleX: 0)`: the next limit forces the x scale to 0 | store `newMax`, as the y variant does | high (not executed) | ViewPortHandler.MinMaxScaleXAsWrittenCollapsesScale | ViewPortHandler.ViewPortHandler.SetMinMaxScaleX |
| Charts/Classes/Components/AxisBase.swift:339 | `axisRange = abs(_axisMaximum - newValue)` after `_axisMaximum = newValue`, which is always 0 | minimum 0, then `axisMaximum = 5`: the range is 0 | `abs(newValue - _axisMinimum)`, as the minimum setter does | high (not executed) | ChartYAxis.AxisMaximumRangeAsWrittenIsZero | ChartYAxis.ChartYAxis.SetAxisMaximum |
| ChartsDemo-OSX/ChartsDemo-OSX/SwiftyJSON.swift:386 | `if self.rawArray.count > index && newValue.error == nil` admits negative indices | storing into index -1 of a one-element array traps | `0 <= index < count`, the getter's check | high (not executed) | SwiftyJSON.IndexSetAsWrittenTrapsOnNegativeIndex | SwiftyJSON.IndexSetReadsBack |
