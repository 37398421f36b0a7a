/** The region picker: one option per entry of the current region index,
    ordered by region code, behind a "Select All" sentinel. */
module RegionSelector {
  import opened Common
  import opened Catalog
  import opened Sorting
  import opened Pickers

  /** The index has loaded without error and has a `regions` map. */
  predicate Ready(fetch: Fetch<RegionIndex>)
  {
    !fetch.loading && !fetch.error && fetch.data.Some? && fetch.data.value.regions.Some?
  }

  /** An entry's label: its `regionCode`. */
  function RegionLabel(info: RegionInfo): Option<string>
  {
    info.regionCode
  }

  /** `allOptions`: empty unless the index is ready. */
  function AllRegionOptions(fetch: Fetch<RegionIndex>, collate: (string, string) -> int): (all: seq<Choice>)
    ensures !Ready(fetch) ==> all == []
  {
    if Ready(fetch) then SortBy(KeyedChoices(fetch.data.value.regions.value, RegionLabel), ByLabel(collate)) else []
  }

  /** `options`: the sentinel, then every real option. */
  function RegionOptions(fetch: Fetch<RegionIndex>, collate: (string, string) -> int): (options: seq<Choice>)
    ensures |options| > 0 && options[0] == SelectAll && options[1..] == AllRegionOptions(fetch, collate)
  {
    WithSelectAll(AllRegionOptions(fetch, collate))
  }

  /** `handleChange`: the new region selection. */
  function HandleRegionChange(selected: seq<Choice>, fetch: Fetch<RegionIndex>, collate: (string, string) -> int): (r: seq<Choice>)
    ensures ChoosesAll(selected) ==> r == AllRegionOptions(fetch, collate)
    ensures !ChoosesAll(selected) ==> r == selected
  {
    ExpandSelectAll(selected, AllRegionOptions(fetch, collate))
  }

  /** The real options are one per region entry, labelled with the entry's
      region code and valued with its key, and nothing else, in ascending
      label order. */
  lemma RegionOptionsSound(fetch: Fetch<RegionIndex>, collate: (string, string) -> int)
    requires IsCollation(collate)
    requires Ready(fetch)
    ensures var regions, all := fetch.data.value.regions.value, AllRegionOptions(fetch, collate);
      && |all| == |regions|
      && (forall k :: 0 <= k < |regions| ==> Choice(regions[k].1.regionCode, Some(regions[k].0)) in all)
      && (forall c :: c in all ==> exists k :: 0 <= k < |regions| && c == Choice(regions[k].1.regionCode, Some(regions[k].0)))
      && (forall i, j :: 0 <= i < j < |all| ==> collate(LabelKey(all[i]), LabelKey(all[j])) <= 0)
  {
    KeyedChoicesByLabel(fetch.data.value.regions.value, RegionLabel, collate);
  }
}
