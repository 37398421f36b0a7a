/** The page's selection state: the five selections that feed the pricing
    table and the three panel flags, with the handlers the pickers and
    buttons call. Each handler sets its own selection, clears the
    selections that depend on it and hides every panel. */
module AppState {
  import opened Common
  import opened Catalog
  import Sorting
  import VersionSelector

  class App {
    var selectedService: Option<Choice>
    var selectedVersion: Option<Choice>
    var selectedRegions: seq<Choice>
    var selectedProducts: seq<Choice>
    var selectedDuration: Option<Choice>
    var showPricingTable: bool
    var showDiscounts: bool
    var showGlobalSearch: bool

    /** A panel is only ever open for a selection that allows it: the
        pricing table for a complete selection, discounts and global search
        for a chosen service. */
    ghost predicate Valid()
      reads this
    {
      && (showPricingTable ==> ViewPricingEnabled())
      && (showDiscounts ==> selectedService.Some?)
      && (showGlobalSearch ==> selectedService.Some?)
    }

    /** "View Pricing" is enabled: service, version, a region, a usage type
        and a duration are all chosen. */
    predicate ViewPricingEnabled()
      reads this
    {
      selectedService.Some? && selectedVersion.Some? && |selectedRegions| > 0 && |selectedProducts| > 0 && selectedDuration.Some?
    }

    /** "Show Discounts" and "Global Search" are enabled: a service is chosen. */
    predicate ServiceButtonsEnabled()
      reads this
    {
      selectedService.Some?
    }

    /** The Verified Permissions pricing table is on screen. */
    predicate PricingTableShown()
      reads this
      requires Valid()
      ensures PricingTableShown() ==> ViewPricingEnabled() && !showGlobalSearch
    {
      !showGlobalSearch && showPricingTable
    }

    /** The global pricing table is on screen. */
    predicate GlobalTableShown()
      reads this
      requires Valid()
      ensures GlobalTableShown() <==> showGlobalSearch
      ensures GlobalTableShown() ==> !PricingTableShown()
    {
      showGlobalSearch && selectedService.Some?
    }

    /** Nothing is chosen and every panel is hidden. */
    constructor ()
      ensures Valid()
      ensures selectedService == None && selectedVersion == None && selectedDuration == None
      ensures selectedRegions == [] && selectedProducts == []
      ensures !showPricingTable && !showDiscounts && !showGlobalSearch
    {
      selectedService := None;
      selectedVersion := None;
      selectedRegions := [];
      selectedProducts := [];
      selectedDuration := None;
      showPricingTable := false;
      showDiscounts := false;
      showGlobalSearch := false;
    }

    /** `handleServiceChange`: keeps the version. */
    method HandleServiceChange(service: Option<Choice>)
      requires Valid()
      modifies this
      ensures Valid()
      ensures selectedService == service && selectedVersion == old(selectedVersion)
      ensures selectedRegions == [] && selectedProducts == [] && selectedDuration == None
      ensures !showPricingTable && !showDiscounts && !showGlobalSearch
    {
      selectedService := service;
      showPricingTable := false;
      showDiscounts := false;
      showGlobalSearch := false;
      selectedProducts := [];
      selectedDuration := None;
      selectedRegions := [];
    }

    /** `handleVersionChange`: keeps the service. */
    method HandleVersionChange(version: Option<Choice>)
      requires Valid()
      modifies this
      ensures Valid()
      ensures selectedVersion == version && selectedService == old(selectedService)
      ensures selectedRegions == [] && selectedProducts == [] && selectedDuration == None
      ensures !showPricingTable && !showDiscounts && !showGlobalSearch
    {
      selectedVersion := version;
      showPricingTable := false;
      showDiscounts := false;
      showGlobalSearch := false;
      selectedProducts := [];
      selectedDuration := None;
      selectedRegions := [];
    }

    /** `handleRegionChange`: keeps service and version. */
    method HandleRegionChange(regions: seq<Choice>)
      requires Valid()
      modifies this
      ensures Valid()
      ensures selectedRegions == regions
      ensures selectedService == old(selectedService) && selectedVersion == old(selectedVersion)
      ensures selectedProducts == [] && selectedDuration == None
      ensures !showPricingTable && !showDiscounts && !showGlobalSearch
    {
      selectedRegions := regions;
      showPricingTable := false;
      showDiscounts := false;
      showGlobalSearch := false;
      selectedProducts := [];
      selectedDuration := None;
    }

    /** `handleProductChange`: no other selection changes. */
    method HandleProductChange(products: seq<Choice>)
      requires Valid()
      modifies this
      ensures Valid()
      ensures selectedProducts == products
      ensures selectedService == old(selectedService) && selectedVersion == old(selectedVersion)
      ensures selectedRegions == old(selectedRegions) && selectedDuration == old(selectedDuration)
      ensures !showPricingTable && !showDiscounts && !showGlobalSearch
    {
      selectedProducts := products;
      showPricingTable := false;
      showDiscounts := false;
      showGlobalSearch := false;
    }

    /** `handleDurationChange`: no other selection changes. */
    method HandleDurationChange(duration: Option<Choice>)
      requires Valid()
      modifies this
      ensures Valid()
      ensures selectedDuration == duration
      ensures selectedService == old(selectedService) && selectedVersion == old(selectedVersion)
      ensures selectedRegions == old(selectedRegions) && selectedProducts == old(selectedProducts)
      ensures !showPricingTable && !showDiscounts && !showGlobalSearch
    {
      selectedDuration := duration;
      showPricingTable := false;
      showDiscounts := false;
      showGlobalSearch := false;
    }

    /** A click on "View Pricing" (`handleShowPricing`); a disabled button
        ignores it. */
    method ClickViewPricing()
      requires Valid()
      modifies this
      ensures Valid()
      ensures showPricingTable == (old(showPricingTable) || old(ViewPricingEnabled()))
      ensures selectedService == old(selectedService) && selectedVersion == old(selectedVersion)
      ensures selectedRegions == old(selectedRegions) && selectedProducts == old(selectedProducts)
      ensures selectedDuration == old(selectedDuration)
      ensures showDiscounts == old(showDiscounts) && showGlobalSearch == old(showGlobalSearch)
    {
      if ViewPricingEnabled() {
        showPricingTable := true;
      }
    }

    /** A click on "Show Discounts"; a disabled button ignores it. */
    method ClickShowDiscounts()
      requires Valid()
      modifies this
      ensures Valid()
      ensures showDiscounts == (old(showDiscounts) || old(ServiceButtonsEnabled()))
      ensures selectedService == old(selectedService) && selectedVersion == old(selectedVersion)
      ensures selectedRegions == old(selectedRegions) && selectedProducts == old(selectedProducts)
      ensures selectedDuration == old(selectedDuration)
      ensures showPricingTable == old(showPricingTable) && showGlobalSearch == old(showGlobalSearch)
    {
      if ServiceButtonsEnabled() {
        showDiscounts := true;
      }
    }

    /** A click on "Global Search" / "Show Filtered Table": toggles global
        search; a disabled button ignores it. */
    method ClickGlobalSearch()
      requires Valid()
      modifies this
      ensures Valid()
      ensures showGlobalSearch == (if old(ServiceButtonsEnabled()) then !old(showGlobalSearch) else old(showGlobalSearch))
      ensures selectedService == old(selectedService) && selectedVersion == old(selectedVersion)
      ensures selectedRegions == old(selectedRegions) && selectedProducts == old(selectedProducts)
      ensures selectedDuration == old(selectedDuration)
      ensures showPricingTable == old(showPricingTable) && showDiscounts == old(showDiscounts)
    {
      if ServiceButtonsEnabled() {
        showGlobalSearch := !showGlobalSearch;
      }
    }
  }

  /** `selectedVersionInfo`: the index entry of the selected version's key
      when the index has it, and the empty record otherwise. */
  function SelectedVersionInfo(selectedVersion: Option<Choice>, versionData: Option<VersionIndex>): (info: VersionInfo)
    ensures info != VersionInfo(None, None) ==>
      && selectedVersion.Some? && selectedVersion.value.value.Some?
      && versionData.Some? && versionData.value.versions.Some?
      && (exists k :: 0 <= k < |versionData.value.versions.value| &&
            versionData.value.versions.value[k] == (selectedVersion.value.value.value, info))
    ensures (&& selectedVersion.Some? && selectedVersion.value.value.Some?
             && versionData.Some? && versionData.value.versions.Some?)
      ==> var entry := Lookup(versionData.value.versions.value, selectedVersion.value.value.value);
          info == (if entry.Some? then entry.value else VersionInfo(None, None))
  {
    if && selectedVersion.Some? && selectedVersion.value.value.Some?
       && versionData.Some? && versionData.value.versions.Some?
    then
      var entry := Lookup(versionData.value.versions.value, selectedVersion.value.value.value);
      if entry.Some? then entry.value else VersionInfo(None, None)
    else VersionInfo(None, None)
  }

  /** A version chosen from the version picker always finds its entry, and
      that entry has a begin date. */
  lemma ChosenVersionHasInfo(fetch: Fetch<VersionIndex>, collate: (string, string) -> int, chosen: Choice)
    requires Sorting.IsCollation(collate)
    requires VersionSelector.Ready(fetch) && VersionSelector.AllDated(fetch.data.value.versions.value)
    requires chosen in VersionSelector.VersionOptions(fetch, collate).value
    ensures var info := SelectedVersionInfo(Some(chosen), fetch.data);
      && info.versionEffectiveBeginDate.Some?
      && (exists k :: 0 <= k < |fetch.data.value.versions.value| &&
            fetch.data.value.versions.value[k] == (chosen.value.value, info))
  {
    var versions := fetch.data.value.versions.value;
    VersionSelector.VersionOptionsSound(fetch, collate);
    var k :| 0 <= k < |versions| && chosen == VersionSelector.VersionChoice(versions[k].0, versions[k].1);
    assert Lookup(versions, chosen.value.value).Some?;
  }
}
