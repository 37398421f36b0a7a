/** The usage-type picker: the distinct usage types of the products in the
    selected regions, ordered by label, behind a "Select All" sentinel. */
module ProductSelector {
  import opened Common
  import opened Catalog
  import opened Sequences
  import opened Sorting
  import opened Pickers
  import VerifiedPermissionsTable

  /** The document has loaded without error, has `products`, and some
      region is selected. */
  predicate Ready(regions: seq<Choice>, fetch: Fetch<PricingDoc>)
  {
    !fetch.loading && !fetch.error && fetch.data.Some? && fetch.data.value.products.Some? && |regions| > 0
  }

  /** Every product has `attributes`; reading `regionCode` from one that has
      none throws. */
  predicate AllAttributed(ps: Entries<Product>)
  {
    forall k :: 0 <= k < |ps| ==> ps[k].1.attributes.Some?
  }

  /** `product.attributes.usagetype || product.sku`: the product's own `sku`
      field, not its key, is the fallback here. */
  function EntryOf(p: Product): Option<string>
    requires p.attributes.Some?
  {
    var u := p.attributes.value.usagetype;
    if u.Some? && u.value != "" then u else p.sku
  }

  /** The product lies in a selected region. */
  predicate InRegions(p: Product, regions: seq<Choice>)
    requires p.attributes.Some?
  {
    SomeValue(regions, p.attributes.value.regionCode)
  }

  /** The entries the loop adds, in document order, repeats included. */
  function RegionEntries(ps: Entries<Product>, regions: seq<Choice>): seq<Option<string>>
    requires AllAttributed(ps)
    decreases |ps|
  {
    if ps == [] then []
    else
      var init := RegionEntries(ps[..|ps| - 1], regions);
      var p := ps[|ps| - 1].1;
      if InRegions(p, regions) then init + [EntryOf(p)] else init
  }

  /** `productSet` in insertion order; absent when rendering throws. */
  function ProductSet(regions: seq<Choice>, fetch: Fetch<PricingDoc>): (r: Option<seq<Option<string>>>)
    ensures !Ready(regions, fetch) ==> r == Some([])
    ensures Ready(regions, fetch) ==> (r.None? <==> !AllAttributed(fetch.data.value.products.value))
  {
    if !Ready(regions, fetch) then Some([])
    else if !AllAttributed(fetch.data.value.products.value) then None
    else Some(Dedup(RegionEntries(fetch.data.value.products.value, regions)))
  }

  /** The loop that fills `productSet`; a Set ignores a value it holds. */
  method BuildProductSet(regions: seq<Choice>, fetch: Fetch<PricingDoc>) returns (r: Option<seq<Option<string>>>)
    ensures r == ProductSet(regions, fetch)
  {
    if !Ready(regions, fetch) {
      return Some([]);
    }
    var ps: Entries<Product> := fetch.data.value.products.value;
    var productSet: seq<Option<string>> := [];
    var i := 0;
    while i < |ps|
      invariant 0 <= i <= |ps|
      invariant AllAttributed(ps[..i])
      invariant productSet == Dedup(RegionEntries(ps[..i], regions))
    {
      var product := ps[i].1;
      if product.attributes.None? {
        assert !AllAttributed(ps);
        return None;
      }
      assert ps[..i + 1][..i] == ps[..i];
      if SomeValue(regions, product.attributes.value.regionCode) {
        var entry := EntryOf(product);
        if entry !in productSet {
          productSet := productSet + [entry];
        }
      }
      i := i + 1;
    }
    assert ps[..i] == ps;
    r := Some(productSet);
  }

  lemma {:induction false} RegionEntriesMembers(ps: Entries<Product>, regions: seq<Choice>)
    requires AllAttributed(ps)
    ensures forall x :: x in RegionEntries(ps, regions) ==>
      exists k :: 0 <= k < |ps| && InRegions(ps[k].1, regions) && EntryOf(ps[k].1) == x
    ensures forall k :: 0 <= k < |ps| && InRegions(ps[k].1, regions) ==> EntryOf(ps[k].1) in RegionEntries(ps, regions)
    decreases |ps|
  {
    if ps != [] {
      var init := ps[..|ps| - 1];
      RegionEntriesMembers(init, regions);
      forall x | x in RegionEntries(init, regions)
        ensures exists k :: 0 <= k < |ps| && InRegions(ps[k].1, regions) && EntryOf(ps[k].1) == x
      {
        var k :| 0 <= k < |init| && InRegions(init[k].1, regions) && EntryOf(init[k].1) == x;
        assert ps[k] == init[k];
      }
      forall k | 0 <= k < |ps| && InRegions(ps[k].1, regions)
        ensures EntryOf(ps[k].1) in RegionEntries(ps, regions)
      {
        if k < |init| {
          assert ps[k] == init[k];
        }
      }
    }
  }

  /** A value is in `productSet` exactly when some product in a selected
      region has it as usage type (or, lacking one, as `sku`); and it is
      there once. */
  lemma ProductSetMembers(regions: seq<Choice>, fetch: Fetch<PricingDoc>)
    requires Ready(regions, fetch) && AllAttributed(fetch.data.value.products.value)
    ensures var ps, found := fetch.data.value.products.value, ProductSet(regions, fetch).value;
      && NoDuplicates(found)
      && (forall x :: x in found ==> exists k :: 0 <= k < |ps| && InRegions(ps[k].1, regions) && EntryOf(ps[k].1) == x)
      && (forall k :: 0 <= k < |ps| && InRegions(ps[k].1, regions) ==> EntryOf(ps[k].1) in found)
  {
    var ps := fetch.data.value.products.value;
    RegionEntriesMembers(ps, regions);
    DedupSound(RegionEntries(ps, regions));
  }

  /** One option per value, labelled and valued with it. */
  function ValueChoices(found: seq<Option<string>>): (cs: seq<Choice>)
    ensures |cs| == |found|
    ensures forall k :: 0 <= k < |found| ==> cs[k] == Choice(found[k], found[k])
  {
    seq(|found|, k requires 0 <= k < |found| => Choice(found[k], found[k]))
  }

  /** `allOptions`. */
  function AllProductOptions(found: seq<Option<string>>, collate: (string, string) -> int): seq<Choice>
  {
    SortBy(ValueChoices(found), ByLabel(collate))
  }

  /** The real options are the values of `productSet`, each once, each with
      its value as label, in ascending label order. */
  lemma AllProductOptionsSound(found: seq<Option<string>>, collate: (string, string) -> int)
    requires IsCollation(collate)
    requires NoDuplicates(found)
    ensures var all := AllProductOptions(found, collate);
      && |all| == |found|
      && NoDuplicates(all)
      && (forall c :: c in all ==> c.text == c.value && c.value in found)
      && (forall x :: x in found ==> Choice(x, x) in all)
      && (forall i, j :: 0 <= i < j < |all| ==> collate(LabelKey(all[i]), LabelKey(all[j])) <= 0)
  {
    var cs := ValueChoices(found);
    var all := SortBy(cs, ByLabel(collate));
    ByLabelIsComparator(collate);
    SortBySound(cs, ByLabel(collate));
    assert |all| == |multiset(all)| == |multiset(cs)| == |cs|;
    assert NoDuplicates(cs) by {
      forall i, j | 0 <= i < j < |cs| ensures cs[i] != cs[j] {
        assert cs[i].value == found[i] && cs[j].value == found[j];
      }
    }
    PermutationKeepsNoDuplicates(cs, all);
    forall c | c in all ensures c.text == c.value && c.value in found {
      assert c in multiset(cs);
      var k :| 0 <= k < |cs| && cs[k] == c;
    }
    forall x | x in found ensures Choice(x, x) in all {
      var k :| 0 <= k < |found| && found[k] == x;
      assert cs[k] in multiset(all);
    }
  }

  /** `options`: the sentinel, then the real options; absent when rendering
      throws. */
  function ProductOptions(regions: seq<Choice>, fetch: Fetch<PricingDoc>, collate: (string, string) -> int): (r: Option<seq<Choice>>)
    ensures r.None? <==> ProductSet(regions, fetch).None?
    ensures r.Some? ==> r.value == [SelectAll] + AllProductOptions(ProductSet(regions, fetch).value, collate)
  {
    var found := ProductSet(regions, fetch);
    if found.None? then None else Some(WithSelectAll(AllProductOptions(found.value, collate)))
  }

  /** `handleChange`: the new usage-type selection. The handler exists only
      once the picker has rendered, that is when `productSet` was built. */
  function HandleProductChange(selected: seq<Choice>, regions: seq<Choice>, fetch: Fetch<PricingDoc>, collate: (string, string) -> int): (r: seq<Choice>)
    requires ProductSet(regions, fetch).Some?
    ensures ChoosesAll(selected) ==> r == AllProductOptions(ProductSet(regions, fetch).value, collate)
    ensures !ChoosesAll(selected) ==> r == selected
  {
    ExpandSelectAll(selected, AllProductOptions(ProductSet(regions, fetch).value, collate))
  }

  /** `disabled`: no region selected, loading, or failed. */
  predicate Disabled(regions: seq<Choice>, fetch: Fetch<PricingDoc>)
  {
    |regions| == 0 || fetch.loading || fetch.error
  }

  /** A disabled picker offers nothing but the sentinel. */
  lemma DisabledOffersOnlySentinel(regions: seq<Choice>, fetch: Fetch<PricingDoc>, collate: (string, string) -> int)
    requires Disabled(regions, fetch)
    ensures ProductOptions(regions, fetch, collate) == Some([SelectAll])
  {
    assert ProductSet(regions, fetch) == Some([]);
    assert ValueChoices([]) == [];
    assert AllProductOptions([], collate) == [];
    assert WithSelectAll([]) == [SelectAll];
  }

  // ---------------------------------------------------------------------
  // The picker's fallback against the table's

  /** One product under the key "K" whose `sku` field is "S", with no usage
      type, in region "r", and one on-demand price. */
  const FallbackDoc: PricingDoc :=
    PricingDoc(Some([("K", Product(Some("S"), Some(Attributes(Some("r"), None, None))))]),
               Some([("OnDemand", [("K", [("t", Term(Some([("d", PriceDimension(Some(Money(Some(1.0))), None, None))])))])])]))

  const FallbackRegions: seq<Choice> := [Choice(Some("r"), Some("r"))]

  const FallbackDuration: Option<Choice> := Some(Choice(Some("On-Demand"), Some("OnDemand")))

  /** The picker offers the product's `sku` field "S". */
  lemma PickerOffersSku()
    ensures ProductSet(FallbackRegions, Fetch(Some(FallbackDoc), false, false)) == Some([Some("S")])
  {
    var ps := FallbackDoc.products.value;
    assert InRegions(ps[0].1, FallbackRegions) by { assert FallbackRegions[0].value == Some("r"); }
    assert ps[..0] == [];
    assert RegionEntries(ps, FallbackRegions) == [Some("S")];
    assert [Some("S")][..0] == [];
  }

  /** The table files the same product under its key "K": choosing the
      offered "S" shows no observation, choosing "K" would show its price. */
  lemma TableUsesKey()
    ensures VerifiedPermissionsTable.Extract(FallbackRegions, [Choice(Some("S"), Some("S"))], FallbackDuration,
                                             Fetch(Some(FallbackDoc), false, false)) == []
    ensures VerifiedPermissionsTable.Extract(FallbackRegions, [Choice(Some("K"), Some("K"))], FallbackDuration,
                                             Fetch(Some(FallbackDoc), false, false)) != []
  {
    var p := FallbackDoc.products.value[0].1;
    assert VerifiedPermissionsTable.UsageTypeOf(p, "K") == "K";
    var offered: seq<Choice> := [Choice(Some("S"), Some("S"))];
    assert !SomeValue(offered, Some("K")) by {
      assert forall i :: 0 <= i < |offered| ==> offered[i].value == Some("S");
    }
    var key: seq<Choice> := [Choice(Some("K"), Some("K"))];
    assert SomeValue(key, Some("K")) by { assert key[0].value == Some("K"); }
    assert SomeValue(FallbackRegions, Some("r")) by { assert FallbackRegions[0].value == Some("r"); }
  }
}
