# AWS pricing browser: a verified model of its core

The pricing browser lets a user choose an AWS service, a price-list version,
regions, usage types and a duration. It then shows the Verified Permissions
on-demand prices for that choice as one aggregated row per usage type, with
a search box and a sort option. This project models in Dafny:

- the pricing table's pipeline (`VerifiedPermissionsTable.tsx`), in its own
  stage order:
  - the empty-state guard;
  - extraction of one price observation per USD-priced dimension;
  - grouping by usage type;
  - one row per group;
  - the search filter and the sort;
- the page's selection state (`App.tsx`): a class with the five selections
  and three panel flags, and the change handlers and button clicks that
  update them;
- the four pickers' option lists (`ProductSelector.tsx`, `RegionSelector.tsx`,
  `VersionSelector.tsx`, `ServiceSelector.tsx`), including the "Select All"
  sentinel;
- the backend's file allow-list, its error statuses and the duration
  options derived from the pricing document (`backend/server.js`).

Modules and files:

| file | module | contents |
|---|---|---|
| `common.dfy` | `Common` | optional fields, JSON objects as entry lists, picker options, fetch results |
| `strings.dfy` | `Strings` | `toLowerCase`, `includes`, `split`, `join` |
| `sequences.dfy` | `Sequences` | `[...new Set(s)]`, subsequences |
| `sorting.dfy` | `Sorting` | `localeCompare` as an abstract collation, the stable `sort` |
| `catalog.dfy` | `Catalog` | the served JSON documents as records |
| `verified_permissions_table.dfy` | `VerifiedPermissionsTable` | the table pipeline |
| `pickers.dfy` | `Pickers` | what the pickers share |
| `region_selector.dfy`, `service_selector.dfy`, `version_selector.dfy`, `product_selector.dfy` | one per picker | option lists |
| `app.dfy` | `AppState` | the selection state |
| `server.dfy` | `Server` | the backend handlers |

Modelling choices:

- A JSON object is the sequence of its entries, in the order
  `Object.entries` lists them. An absent field is `None`, and so is `null`
  wherever the code tests the field by truthiness or optional chaining.
- `a.localeCompare(b)` is a parameter `collate`. Lemmas that need its order
  properties require `IsCollation`: the sign flips when the arguments are
  swapped, and "not after" is transitive.
- `Array.prototype.sort` is stable, so its result depends only on the
  comparator. It is modelled as a stable insertion sort, `Sorting.SortBy`.
- Prices are `real`.
- Loops that push into an array or fill a dictionary or a `Set` are
  methods with `while` loops, proved equal to a specification function:
  - the three nested extraction loops;
  - the grouping `forEach`;
  - the picker's `productSet` loop.
- The pure `map`/`filter`/`sort` expressions are functions.
- A read of a field of an absent object throws while the component
  renders. Where the code can do that, the result is an `Option`, and
  `None` stands for the throw:
  - `product.attributes.regionCode` in the usage-type picker;
  - `info.versionEffectiveBeginDate.split` in the version picker.

Behaviour of the code that a reader might not expect, each stated and
proved in the model:

- **Tied rows stay in order both ways.** With a stable sort, "descending"
  is "ascending" reversed only when no two rows tie on the sort field
  (`VerifiedPermissionsTable.DescIsReversedAsc`). Rows that tie keep their filtered
  order under both directions (`VerifiedPermissionsTable.TiesAreNotReversed`).
- **The usage type is read only from `attributes`.** Extraction reads
  `product.attributes.usagetype`. A product whose `usagetype` sits at its
  top level, outside `attributes`, is grouped under its map key instead.
  Selecting "Requests" then shows no row for it
  (`VerifiedPermissionsTable.ExampleWithoutUsageType`). With the usage type inside
  `attributes`, the same product gives exactly one row
  (`VerifiedPermissionsTable.ExampleSingleRow`).
- **Table and picker use different fallbacks.** When `usagetype` is absent
  or empty:
  - the usage-type picker falls back to the product's `sku` field
    (`ProductSelector.EntryOf`);
  - the table falls back to the product's key in `products`
    (`VerifiedPermissionsTable.UsageTypeOf`).

  The two can differ, and then the picker offers a value that matches no
  table row. For a product under the key "K" with `sku` "S" and no usage
  type, the picker offers "S" (`ProductSelector.PickerOffersSku`), while
  choosing "S" extracts nothing and choosing "K" would extract its price
  (`ProductSelector.TableUsesKey`).
- **Loading wins over an error; the search is case-insensitive on both
  sides.** The empty-state message is "Loading pricing data..." whenever a
  load is running, even if an error is also set. The search text is
  lower-cased as well as the rows' fields, so a search matches regardless
  of case on either side.

## Model

| member | source | states |
|---|---|---|
| Common.Lookup | frontend/src/services/verified-permissions/VerifiedPermissionsTable.tsx:74 | `obj[key]` is absent exactly when no own entry has the key; when present it is the value of an entry with that key |
| Common.Keys | backend/server.js:54 | `Object.keys`: one key per entry, in entry order |
| Strings.ToLower | frontend/src/services/verified-permissions/VerifiedPermissionsTable.tsx:136-142 | `toLowerCase` keeps the length and lower-cases every character |
| Strings.ToLowerIdempotent | frontend/src/services/verified-permissions/VerifiedPermissionsTable.tsx:136-142 | lower-casing an already lower-cased text changes nothing |
| Strings.IncludesIff | frontend/src/services/verified-permissions/VerifiedPermissionsTable.tsx:139-142 | `s.includes(p)` holds exactly when `p` occurs in `s` at some index |
| Strings.SplitJoin | frontend/src/services/verified-permissions/VerifiedPermissionsTable.tsx:148 | no piece of `split(sep)` contains `sep`, and joining the pieces with `sep` gives the string back |
| Strings.FirstPiece | frontend/src/features/VersionSelector.tsx:17 | `split("T")[0]` is the prefix free of `T` that ends just before the first `T`, or the whole string if there is none |
| Strings.SplitNoSeparator | frontend/src/services/verified-permissions/VerifiedPermissionsTable.tsx:148 | a string without the separator splits into itself alone |
| Strings.SplitAtFirst | frontend/src/services/verified-permissions/VerifiedPermissionsTable.tsx:148 | splitting `head + sep + tail` gives `head` first, then the pieces of `tail` |
| Sequences.DedupSound | frontend/src/services/verified-permissions/VerifiedPermissionsTable.tsx:123-124 | `[...new Set(s)]` has no duplicates, holds exactly the values of `s`, and orders them by first occurrence in `s` |
| Sequences.PermutationKeepsNoDuplicates | frontend/src/features/ProductSelector.tsx:37-42 | reordering a list without duplicates leaves it without duplicates |
| Sorting.NegateComparator | frontend/src/services/verified-permissions/VerifiedPermissionsTable.tsx:158 | `-cmp` is a comparator whenever `cmp` is |
| Sorting.SortBySound | frontend/src/services/verified-permissions/VerifiedPermissionsTable.tsx:149-159 | `sort` returns a permutation of its input, ordered by the comparator |
| Sorting.SortByStable | frontend/src/services/verified-permissions/VerifiedPermissionsTable.tsx:149-159 | elements the comparator ties keep their input order |
| Sorting.SortedPermutationUnique | frontend/src/services/verified-permissions/VerifiedPermissionsTable.tsx:149-159 | two sorted permutations of a list without ties are equal |
| Sorting.NegatedSortIsReverse | frontend/src/services/verified-permissions/VerifiedPermissionsTable.tsx:158 | without ties, sorting by the negated comparator gives the reverse of sorting by the comparator |
| Sorting.ReverseSorted | frontend/src/services/verified-permissions/VerifiedPermissionsTable.tsx:158 | a list sorted ascending, reversed, is sorted by the negated comparator |
| VerifiedPermissionsTable.Extract | frontend/src/services/verified-permissions/VerifiedPermissionsTable.tsx:49-64 | when `showErrorOrEmpty` holds (no duration, loading, error, no document, no `products`, `terms` or `terms.OnDemand`, no region or no usage type chosen) nothing is extracted |
| VerifiedPermissionsTable.ExtractPricing | frontend/src/services/verified-permissions/VerifiedPermissionsTable.tsx:63-104 | the product loop computes the extraction: a product passes the region, usage-type and duration tests, then its on-demand terms are expanded |
| VerifiedPermissionsTable.CollectTerms | frontend/src/services/verified-permissions/VerifiedPermissionsTable.tsx:74-97 | the term loop skips terms without `priceDimensions` and concatenates the observations of the rest, in term order |
| VerifiedPermissionsTable.CollectDimensions | frontend/src/services/verified-permissions/VerifiedPermissionsTable.tsx:79-95 | the dimension loop pushes one observation per dimension with a USD price, in dimension order |
| VerifiedPermissionsTable.ExtractMatchesSelection | frontend/src/services/verified-permissions/VerifiedPermissionsTable.tsx:67-71 | every observation's region code is a selected region value and its usage type (the attribute, or the product's key) a selected usage-type value |
| VerifiedPermissionsTable.OnlyOnDemandExtracts | frontend/src/services/verified-permissions/VerifiedPermissionsTable.tsx:72 | a duration other than "OnDemand" extracts nothing |
| VerifiedPermissionsTable.TermItemsReport | frontend/src/services/verified-permissions/VerifiedPermissionsTable.tsx:74-95 | a retained product yields exactly one observation per USD-priced dimension, in order, carrying that dimension's price, unit and description; other dimensions are skipped |
| VerifiedPermissionsTable.TermItemsCarry | frontend/src/services/verified-permissions/VerifiedPermissionsTable.tsx:86-93 | every observation of a product carries the product's region code, location and usage type |
| VerifiedPermissionsTable.GroupByUsageType | frontend/src/services/verified-permissions/VerifiedPermissionsTable.tsx:107-115 | the `forEach` builds the groups: keys in order of first arrival (the order `Object.entries` gives for keys that are not integer-like), each group the observations of its usage type in extraction order |
| VerifiedPermissionsTable.GroupsPartition | frontend/src/services/verified-permissions/VerifiedPermissionsTable.tsx:107-115 | the keys are distinct; every group is non-empty, an order-preserving subsequence, and holds only its usage type; every observation is in its group; the group sizes sum to the observation count |
| VerifiedPermissionsTable.GroupShape | frontend/src/services/verified-permissions/VerifiedPermissionsTable.tsx:107-115 | a group holds exactly the observations of its usage type, in extraction order, and at least one |
| VerifiedPermissionsTable.GroupSizesSum | frontend/src/services/verified-permissions/VerifiedPermissionsTable.tsx:107-115 | the group sizes add up to the number of observations |
| VerifiedPermissionsTable.Min | frontend/src/services/verified-permissions/VerifiedPermissionsTable.tsx:119 | `Math.min` of a non-empty list is one of its elements and below all of them |
| VerifiedPermissionsTable.Max | frontend/src/services/verified-permissions/VerifiedPermissionsTable.tsx:120 | `Math.max` of a non-empty list is one of its elements and above all of them |
| VerifiedPermissionsTable.RowPrices | frontend/src/services/verified-permissions/VerifiedPermissionsTable.tsx:117-131 | a row's `minPrice`/`maxPrice` are the least and greatest group price, so `minPrice <= maxPrice`; the range is a single price exactly when they are equal; description and unit are the first observation's |
| VerifiedPermissionsTable.RowPlaces | frontend/src/services/verified-permissions/VerifiedPermissionsTable.tsx:123-124 | `regionCodes` and `locations` join the group's values, each once, in first-occurrence order |
| VerifiedPermissionsTable.KeepMatching | frontend/src/services/verified-permissions/VerifiedPermissionsTable.tsx:137-143 | `filter` keeps exactly the matching rows, in their order, each as many times as it occurs in the input |
| VerifiedPermissionsTable.FilterRows | frontend/src/services/verified-permissions/VerifiedPermissionsTable.tsx:134-144 | an empty search returns the rows unchanged; otherwise an order-preserving subsequence of exactly the rows whose usage type, regions, locations or description contains the lower-cased text, with their multiplicities |
| VerifiedPermissionsTable.SearchIgnoresTextCase | frontend/src/services/verified-permissions/VerifiedPermissionsTable.tsx:135-136 | searching for a text and for its lower-cased form keeps the same rows |
| VerifiedPermissionsTable.RowComparatorIsComparator | frontend/src/services/verified-permissions/VerifiedPermissionsTable.tsx:148-159 | whatever the sort option, the table's comparator is a comparator |
| VerifiedPermissionsTable.SortRowsSound | frontend/src/services/verified-permissions/VerifiedPermissionsTable.tsx:147-160 | the sorted rows are a permutation of the filtered rows, ordered by the comparator, with tied rows in filtered order |
| VerifiedPermissionsTable.ParseSortValue | frontend/src/services/verified-permissions/VerifiedPermissionsTable.tsx:148 | `"field_dir".split("_")` yields that field and that direction |
| VerifiedPermissionsTable.SortValueComparator | frontend/src/services/verified-permissions/VerifiedPermissionsTable.tsx:148-158 | the option `field_dir` compares by the field, negated unless the direction is "asc" |
| VerifiedPermissionsTable.DescNegatesAsc | frontend/src/services/verified-permissions/VerifiedPermissionsTable.tsx:158 | for every field, the "desc" comparator is the negation of the "asc" comparator |
| VerifiedPermissionsTable.MinPriceComparators | frontend/src/services/verified-permissions/VerifiedPermissionsTable.tsx:151-152 | "minPrice_asc" compares by `a.minPrice - b.minPrice`, "minPrice_desc" by its negation |
| VerifiedPermissionsTable.SkuComparators | frontend/src/services/verified-permissions/VerifiedPermissionsTable.tsx:153-154 | "sku_asc" compares usage types by collation, "sku_desc" by its negation |
| VerifiedPermissionsTable.RegionCodesComparators | frontend/src/services/verified-permissions/VerifiedPermissionsTable.tsx:155-156 | "regionCodes_asc" compares region lists by collation, "regionCodes_desc" by its negation |
| VerifiedPermissionsTable.SortByMinPrice | frontend/src/services/verified-permissions/VerifiedPermissionsTable.tsx:27-29 | the two price options give permutations ordered by ascending and descending minimum price |
| VerifiedPermissionsTable.SortBySku | frontend/src/services/verified-permissions/VerifiedPermissionsTable.tsx:30-31 | the two usage-type options give permutations in ascending and descending collation order of usage type |
| VerifiedPermissionsTable.SortByRegionCodes | frontend/src/services/verified-permissions/VerifiedPermissionsTable.tsx:32-33 | the two region options give permutations in ascending and descending collation order of the region list |
| VerifiedPermissionsTable.DescIsReversedAsc | frontend/src/services/verified-permissions/VerifiedPermissionsTable.tsx:147-160 | when the field separates all distinct rows, the descending order is the ascending order reversed |
| VerifiedPermissionsTable.TiesAreNotReversed | frontend/src/services/verified-permissions/VerifiedPermissionsTable.tsx:147-160 | two rows with equal minimum price keep their order under both price options, so descending is then not ascending reversed |
| VerifiedPermissionsTable.View | frontend/src/services/verified-permissions/VerifiedPermissionsTable.tsx:192-202 | a message is shown exactly when `showErrorOrEmpty` holds: the loading text while loading, else the error text on error, else the no-data text |
| VerifiedPermissionsTable.RenderTable | frontend/src/services/verified-permissions/VerifiedPermissionsTable.tsx:62-160 | running the extraction and grouping loops, building, filtering and sorting the rows produces the component's view |
| VerifiedPermissionsTable.ShownRowsMatchSelection | frontend/src/services/verified-permissions/VerifiedPermissionsTable.tsx:63-160 | every row on screen is for a selected usage type and has `minPrice <= maxPrice` |
| VerifiedPermissionsTable.VersionCell | frontend/src/services/verified-permissions/VerifiedPermissionsTable.tsx:177-189 | an absent or empty timestamp shows "N/A"; any other shows its prefix before the first `T` |
| VerifiedPermissionsTable.ExampleExtract | frontend/src/services/verified-permissions/VerifiedPermissionsTable.tsx:63-104 | the one-product example extracts exactly one observation, at 0.000004 USD |
| VerifiedPermissionsTable.ExampleRows | frontend/src/services/verified-permissions/VerifiedPermissionsTable.tsx:107-131 | that observation forms one group and one row with a single price |
| VerifiedPermissionsTable.ExampleSingleRow | frontend/src/services/verified-permissions/VerifiedPermissionsTable.tsx:63-160 | choosing us-east-1, "Requests" and on-demand shows exactly that row |
| VerifiedPermissionsTable.ExampleWithoutUsageType | frontend/src/services/verified-permissions/VerifiedPermissionsTable.tsx:70-71 | without `attributes.usagetype` the key `A1` stands in, and a "Requests" selection shows an empty table |
| Pickers.WithSelectAll | frontend/src/features/ProductSelector.tsx:44-45 | "Select All" is first, followed by exactly the real options |
| Pickers.ExpandSelectAll | frontend/src/features/ProductSelector.tsx:47-54 | a choice holding the `__ALL__` value becomes all real options, any other passes through unchanged |
| Pickers.ChoosingSentinelSelectsAll | frontend/src/features/RegionSelector.tsx:28-35 | choosing the sentinel selects exactly the real options |
| Pickers.ByLabelIsComparator | frontend/src/features/RegionSelector.tsx:21 | comparing options by `localeCompare` of their labels, an absent label read as "", is a comparator |
| Pickers.KeyedChoices | frontend/src/features/RegionSelector.tsx:16-20 | one option per entry, valued with the key and labelled from the entry's value |
| Pickers.KeyedChoicesByLabel | frontend/src/features/RegionSelector.tsx:14-22 | the sorted options are one per entry and nothing else, in ascending label order |
| RegionSelector.AllRegionOptions | frontend/src/features/RegionSelector.tsx:14-22 | no real options while loading, on error, or without `regions` |
| RegionSelector.RegionOptions | frontend/src/features/RegionSelector.tsx:25-26 | "Select All" first, then exactly the real options |
| RegionSelector.HandleRegionChange | frontend/src/features/RegionSelector.tsx:28-35 | choosing `__ALL__` selects all real options, otherwise the choice is kept |
| RegionSelector.RegionOptionsSound | frontend/src/features/RegionSelector.tsx:14-22 | one option per region entry, labelled with its `regionCode` and valued with its key, nothing else, in ascending label order |
| ServiceSelector.ServiceOptions | frontend/src/features/ServiceSelector.tsx:15-23 | no options while loading, on error, or without `offers` |
| ServiceSelector.ServiceOptionsSound | frontend/src/features/ServiceSelector.tsx:15-23 | one option per offer, labelled with its `offerCode` and valued with its key, nothing else, in ascending label order |
| VersionSelector.VersionLabelFormat | frontend/src/features/VersionSelector.tsx:17 | a label is the version, " (", the begin date's part before its first `T`, and ")" |
| VersionSelector.VersionChoices | frontend/src/features/VersionSelector.tsx:15-19 | one option per version entry, valued with the version key |
| VersionSelector.ByValueDescendingIsComparator | frontend/src/features/VersionSelector.tsx:20 | comparing options by `localeCompare` of their values reversed, an absent value read as "", is a comparator |
| VersionSelector.VersionOptions | frontend/src/features/VersionSelector.tsx:14-21 | no options while loading, on error, or without `versions`; rendering throws exactly when an entry lacks a begin date |
| VersionSelector.VersionOptionsSound | frontend/src/features/VersionSelector.tsx:14-21 | one option per version entry with its label, nothing else, in descending order of value |
| ProductSelector.ProductSet | frontend/src/features/ProductSelector.tsx:19-25 | `productSet` is empty while loading, on error, without `products` or without a region; the loop throws exactly when a product lacks `attributes` |
| ProductSelector.BuildProductSet | frontend/src/features/ProductSelector.tsx:19-35 | the `for…of` loop adding to the Set computes `productSet` |
| ProductSelector.RegionEntriesMembers | frontend/src/features/ProductSelector.tsx:26-34 | the loop adds a value exactly when a product in a selected region has it as usage type or, lacking one, as `sku` |
| ProductSelector.ProductSetMembers | frontend/src/features/ProductSelector.tsx:26-34 | `productSet` has no duplicates and holds exactly the usage types (or `sku` fallbacks) of products in selected regions |
| ProductSelector.ValueChoices | frontend/src/features/ProductSelector.tsx:37-41 | one option per value, labelled and valued with it |
| ProductSelector.AllProductOptionsSound | frontend/src/features/ProductSelector.tsx:37-42 | the real options have no duplicates, each label equals its value, they are exactly the values of `productSet`, in ascending label order |
| ProductSelector.ProductOptions | frontend/src/features/ProductSelector.tsx:44-45 | "Select All" first, then exactly the real options; absent exactly when rendering throws |
| ProductSelector.HandleProductChange | frontend/src/features/ProductSelector.tsx:37-54 | choosing `__ALL__` selects exactly the picker's real options, the sorted options built from `productSet` for the selected regions and the fetched document; otherwise the choice is kept |
| ProductSelector.DisabledOffersOnlySentinel | frontend/src/features/ProductSelector.tsx:70 | when the picker is disabled (no region, loading or error) it offers only "Select All" |
| ProductSelector.PickerOffersSku | frontend/src/features/ProductSelector.tsx:32 | a product without usage type is offered under its `sku` field: key "K", `sku` "S" gives the option "S" |
| ProductSelector.TableUsesKey | frontend/src/services/verified-permissions/VerifiedPermissionsTable.tsx:70-71 | the table files that product under its key: selecting the offered "S" extracts nothing, selecting "K" extracts its price |
| Server.FilePathInjective | backend/server.js:40 | two names never map to the same `pricelists/verifiedpermissions/<name>.json` path |
| Server.GetAllServices | backend/server.js:15-23 | the parsed `index.json`, or 404 when it cannot be read or parsed |
| Server.GetPricingFile | backend/server.js:30-47 | a name outside the three allowed files gives 400 "Invalid file requested"; an allowed one gives its parsed file or 404 |
| Server.PricingFileReadsOnlyItsPath | backend/server.js:36-43 | the response depends on the file system only through the one path of the requested allowed name |
| Server.PricingFileServedFromAllowedPath | backend/server.js:31-43 | a successful response comes from one of the three allowed paths |
| Server.DurationOptions | backend/server.js:54-59 | one option per top-level `terms` key, in key order, valued with the key and labelled "On-Demand" for `OnDemand`, the key otherwise; none without `terms` |
| Server.OnDemandOffered | backend/server.js:54-59 | the "On-Demand" option is offered exactly when the document has `terms.OnDemand` |
| Server.GetDurations | backend/server.js:50-64 | the duration options of the current document, or 500 when it cannot be read or parsed |
| AppState.App.constructor | frontend/src/App.tsx:21-28 | nothing is chosen and every panel is hidden |
| AppState.App.PricingTableShown | frontend/src/App.tsx:146 | the pricing table is on screen only with global search off and a complete selection |
| AppState.App.GlobalTableShown | frontend/src/App.tsx:142 | the global table is on screen exactly when global search is on, and then the pricing table is not |
| AppState.App.HandleServiceChange | frontend/src/App.tsx:35-43 | sets the service, clears regions, usage types and duration, hides the three panels, keeps the version |
| AppState.App.HandleVersionChange | frontend/src/App.tsx:44-52 | sets the version, clears regions, usage types and duration, hides the three panels, keeps the service |
| AppState.App.HandleRegionChange | frontend/src/App.tsx:53-60 | sets the regions, clears usage types and duration, hides the three panels, keeps service and version |
| AppState.App.HandleProductChange | frontend/src/App.tsx:61-66 | sets the usage types and hides the three panels; no other selection changes |
| AppState.App.HandleDurationChange | frontend/src/App.tsx:67-72 | sets the duration and hides the three panels; no other selection changes |
| AppState.App.ClickViewPricing | frontend/src/App.tsx:113-122 | "View Pricing" opens the table exactly when service, version, a region, a usage type and a duration are chosen; nothing else changes |
| AppState.App.ClickShowDiscounts | frontend/src/App.tsx:126-132 | "Show Discounts" opens the discounts panel only when a service is chosen; nothing else changes |
| AppState.App.ClickGlobalSearch | frontend/src/App.tsx:133-139 | "Global Search" toggles global search only when a service is chosen; nothing else changes |
| AppState.SelectedVersionInfo | frontend/src/App.tsx:75-82 | the index entry under the selected version's key when the index has that key, the empty record otherwise |
| AppState.ChosenVersionHasInfo | frontend/src/App.tsx:75-82 | a version chosen from the version picker finds its index entry, and that entry has a begin date |

## Left out

- Data-fetching hooks and API clients: they are asynchronous HTTP I/O. Their
  `{data, loading, error}` result is the input `Fetch`. The race between
  overlapping requests is concurrency and is not modelled.
- The chatbot route and modal: a third-party SDK behind network calls.
- `DurationSelector.tsx` and `NavBar.tsx`: they hold no logic.
- `PricingTable.tsx`, `GlobalPricingTable.tsx`, `HelpBar.tsx` and
  `ErrorBoundary.tsx`: imported by `App.tsx` but not part of this model.
  `PricingTable.tsx` is a different component from
  `VerifiedPermissionsTable.tsx`, which module `VerifiedPermissionsTable`
  models; `AppState.App.PricingTableShown` is about the former.
  `App` records only which panel is on screen.
- Cloudscape rendering, column definitions, placeholder strings, the
  discounts text and the Express set-up: UI and HTTP plumbing.
- `parseFloat`: `pricePerUnit.USD` is taken as an already-parsed price.
  A USD string that does not parse gives `NaN`, which the code pushes like
  any other price. The model has no `NaN`.
- `VerifiedPermissionsTable.HasUSD`: a USD price of `null` passes the
  code's `USD !== undefined` test (VerifiedPermissionsTable.tsx:84), and
  the code pushes an observation priced `parseFloat(null)`, that is `NaN`.
  The model has no `null` price, so it drops that dimension instead.
- `toFixed(6)`: only the choice between a single price and a range is
  modelled (`VerifiedPermissionsTable.PriceRange`).
- Floating-point arithmetic: prices and comparator results are exact
  reals.
- `localeCompare`: an abstract collation (`Sorting.IsCollation`), not
  locale rules.
- `Strings.ToLower`: lower-cases the ASCII letters only, not the full
  Unicode case mapping of `toLowerCase`.
- The `try/catch` around extraction and its `console.error`: every access
  inside it is guarded (optional chaining, truthiness tests, the
  `showErrorOrEmpty` guard), so on the typed documents of this model no
  statement in it throws and the catch path is not modelled.
- File reads and JSON parsing in the backend: a parameter `read` from a
  path to the parsed document, absent when reading or parsing fails.
- Duplicate keys in a JSON object: `JSON.parse` never produces them (a
  repeated key keeps its last value, at its first position), but the
  entry-list type does not exclude them. `Common.Lookup` takes the first
  entry with a key, so on such lists it covers inputs the code never sees.
- `Common.Lookup`: property access also finds names inherited from
  `Object.prototype`. A product key such as `constructor` makes
  `OnDemand[productSku]` at VerifiedPermissionsTable.tsx:74 an inherited
  function, whose `Object.keys` is empty, so it contributes no term and no
  item, which is the same outcome as the model's `None`.
- `VerifiedPermissionsTable.GroupByUsageType`: `skuGroups` is a plain
  object, and the model does not capture two consequences of that.
  - `Object.entries` lists integer-like keys (such as "2" or "10") first,
    in ascending numeric order, and only then the other keys in order of
    first arrival. The model keeps first-arrival order for every key, so
    for integer-like usage types its row order, and the order of tied rows
    after the stable sort, can differ from the code's.
  - A usage type naming an `Object.prototype` member ("constructor",
    "toString", "__proto__", ...) makes `groups[key]` already truthy, and
    the `push` then throws a TypeError while the component renders. The
    model groups such keys like any other and never throws here.
- `Array.isArray` on the selections (VerifiedPermissionsTable.tsx:50-51):
  the selections are sequences by type, so that test always passes.
- `AppState.App.ClickViewPricing`, `ClickShowDiscounts` and
  `ClickGlobalSearch` model a click on an enabled button. A disabled
  button never calls its handler, so a click on it changes nothing.
