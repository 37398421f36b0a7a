/** The Verified Permissions pricing table: from the current pricing document
    and the user's selections to the rows on screen. The stages run in the
    order the component computes them: the empty-state guard, extraction of
    one observation per priced dimension, grouping by usage type, one
    aggregated row per group, the search filter and the sort. */
module VerifiedPermissionsTable {
  import opened Common
  import opened Catalog
  import opened Strings
  import opened Sequences
  import opened Sorting

  /** One price observation. */
  datatype PricingItem = PricingItem(
    regionCode: Option<string>,
    location: Option<string>,
    price: real,
    unit: Option<string>,
    description: Option<string>,
    usagetype: string)

  // ---------------------------------------------------------------------
  // The empty-state guard

  /** `showErrorOrEmpty`: no duration, still loading, failed, no document,
      no `products`, no `terms`, no `terms.OnDemand`, or no region or no
      usage type selected. */
  predicate ShowErrorOrEmpty(regions: seq<Choice>, products: seq<Choice>, duration: Option<Choice>, fetch: Fetch<PricingDoc>)
  {
    || duration.None?
    || fetch.loading
    || fetch.error
    || fetch.data.None?
    || fetch.data.value.products.None?
    || fetch.data.value.terms.None?
    || Lookup(fetch.data.value.terms.value, "OnDemand").None?
    || |regions| == 0
    || |products| == 0
  }

  // ---------------------------------------------------------------------
  // Extraction

  /** `product?.attributes?.regionCode`. */
  function RegionCodeOf(p: Product): Option<string>
  {
    if p.attributes.Some? then p.attributes.value.regionCode else None
  }

  /** `product?.attributes?.location`. */
  function LocationOf(p: Product): Option<string>
  {
    if p.attributes.Some? then p.attributes.value.location else None
  }

  /** `product?.attributes?.usagetype || productSku`: an absent or empty
      usage type falls back to the product's key. */
  function UsageTypeOf(p: Product, productSku: string): string
  {
    if p.attributes.Some? && p.attributes.value.usagetype.Some? && p.attributes.value.usagetype.value != ""
    then p.attributes.value.usagetype.value
    else productSku
  }

  predicate HasUSD(d: PriceDimension)
  {
    d.pricePerUnit.Some? && d.pricePerUnit.value.USD.Some?
  }

  /** The observation one price dimension yields, if it has a USD price. */
  function DimensionItem(d: PriceDimension, regionCode: Option<string>, location: Option<string>, usagetype: string): seq<PricingItem>
  {
    if HasUSD(d)
    then [PricingItem(regionCode, location, d.pricePerUnit.value.USD.value, d.unit, d.description, usagetype)]
    else []
  }

  /** The observations of the price dimensions of one term. */
  function DimensionItems(dims: Entries<PriceDimension>, regionCode: Option<string>, location: Option<string>, usagetype: string): seq<PricingItem>
    decreases |dims|
  {
    if dims == [] then []
    else
      var init := DimensionItems(dims[..|dims| - 1], regionCode, location, usagetype);
      init + DimensionItem(dims[|dims| - 1].1, regionCode, location, usagetype)
  }

  /** The observations of one term. */
  function TermItem(t: Term, regionCode: Option<string>, location: Option<string>, usagetype: string): seq<PricingItem>
  {
    if t.priceDimensions.Some? then DimensionItems(t.priceDimensions.value, regionCode, location, usagetype) else []
  }

  /** The observations of all the on-demand terms of one SKU. */
  function TermItems(terms: Entries<Term>, regionCode: Option<string>, location: Option<string>, usagetype: string): seq<PricingItem>
    decreases |terms|
  {
    if terms == [] then []
    else
      var init := TermItems(terms[..|terms| - 1], regionCode, location, usagetype);
      init + TermItem(terms[|terms| - 1].1, regionCode, location, usagetype)
  }

  /** A product passes the three filters: its region, its usage type and the
      duration were selected. */
  predicate Retained(productSku: string, p: Product, regions: seq<Choice>, products: seq<Choice>, duration: Choice)
  {
    && SomeValue(regions, RegionCodeOf(p))
    && SomeValue(products, Some(UsageTypeOf(p, productSku)))
    && duration.value == Some("OnDemand")
  }

  /** The observations one product contributes. */
  function ProductItems(productSku: string, p: Product, onDemand: SkuTerms, regions: seq<Choice>, products: seq<Choice>, duration: Choice): seq<PricingItem>
  {
    if !Retained(productSku, p, regions, products, duration) then []
    else
      var terms := Lookup(onDemand, productSku);
      if terms.None? then []
      else TermItems(terms.value, RegionCodeOf(p), LocationOf(p), UsageTypeOf(p, productSku))
  }

  /** The observations of a list of products, in document order. */
  function ProductsItems(ps: Entries<Product>, onDemand: SkuTerms, regions: seq<Choice>, products: seq<Choice>, duration: Choice): seq<PricingItem>
    decreases |ps|
  {
    if ps == [] then []
    else
      var init := ProductsItems(ps[..|ps| - 1], onDemand, regions, products, duration);
      init + ProductItems(ps[|ps| - 1].0, ps[|ps| - 1].1, onDemand, regions, products, duration)
  }

  lemma ProductsItemsSnoc(ps: Entries<Product>, i: nat, onDemand: SkuTerms, regions: seq<Choice>, products: seq<Choice>, duration: Choice)
    requires i < |ps|
    ensures ProductsItems(ps[..i + 1], onDemand, regions, products, duration)
      == ProductsItems(ps[..i], onDemand, regions, products, duration) + ProductItems(ps[i].0, ps[i].1, onDemand, regions, products, duration)
  {
    assert ps[..i + 1][..i] == ps[..i];
  }

  /** The extracted list `pricing`. */
  function Extract(regions: seq<Choice>, products: seq<Choice>, duration: Option<Choice>, fetch: Fetch<PricingDoc>): (r: seq<PricingItem>)
    ensures ShowErrorOrEmpty(regions, products, duration, fetch) ==> r == []
  {
    if ShowErrorOrEmpty(regions, products, duration, fetch) then []
    else ProductsItems(fetch.data.value.products.value, Lookup(fetch.data.value.terms.value, "OnDemand").value,
                       regions, products, duration.value)
  }

  /** The extraction loop: for each product, each of its on-demand terms and
      each of their price dimensions, push one observation when the
      dimension has a USD price. The two inner loops are the methods below. */
  method ExtractPricing(regions: seq<Choice>, products: seq<Choice>, duration: Option<Choice>, fetch: Fetch<PricingDoc>)
    returns (result: seq<PricingItem>)
    ensures result == Extract(regions, products, duration, fetch)
  {
    if ShowErrorOrEmpty(regions, products, duration, fetch) {
      return [];
    }
    var all: Entries<Product> := fetch.data.value.products.value;
    var onDemand: SkuTerms := Lookup(fetch.data.value.terms.value, "OnDemand").value;
    var selectedDuration := duration.value;
    result := [];
    var i := 0;
    while i < |all|
      invariant 0 <= i <= |all|
      invariant result == ProductsItems(all[..i], onDemand, regions, products, selectedDuration)
    {
      ProductsItemsSnoc(all, i, onDemand, regions, products, selectedDuration);
      var productSku, product := all[i].0, all[i].1;
      var regionCode := RegionCodeOf(product);
      var usagetype := UsageTypeOf(product, productSku);
      var onDemandTerms := Lookup(onDemand, productSku);
      if SomeValue(regions, regionCode) && SomeValue(products, Some(usagetype))
         && selectedDuration.value == Some("OnDemand") && onDemandTerms.Some?
      {
        var found := CollectTerms(onDemandTerms.value, regionCode, LocationOf(product), usagetype);
        result := result + found;
      }
      i := i + 1;
    }
    assert all[..i] == all;
  }

  /** The loop over the on-demand terms of one SKU. */
  method CollectTerms(terms: Entries<Term>, regionCode: Option<string>, location: Option<string>, usagetype: string)
    returns (found: seq<PricingItem>)
    ensures found == TermItems(terms, regionCode, location, usagetype)
  {
    found := [];
    var j := 0;
    while j < |terms|
      invariant 0 <= j <= |terms|
      invariant found == TermItems(terms[..j], regionCode, location, usagetype)
    {
      assert terms[..j + 1][..j] == terms[..j];
      var priceDimensions := terms[j].1.priceDimensions;
      if priceDimensions.Some? {
        var more := CollectDimensions(priceDimensions.value, regionCode, location, usagetype);
        found := found + more;
      }
      j := j + 1;
    }
    assert terms[..j] == terms;
  }

  /** The loop over the price dimensions of one term. */
  method CollectDimensions(dims: Entries<PriceDimension>, regionCode: Option<string>, location: Option<string>, usagetype: string)
    returns (found: seq<PricingItem>)
    ensures found == DimensionItems(dims, regionCode, location, usagetype)
  {
    found := [];
    var k := 0;
    while k < |dims|
      invariant 0 <= k <= |dims|
      invariant found == DimensionItems(dims[..k], regionCode, location, usagetype)
    {
      assert dims[..k + 1][..k] == dims[..k];
      var priceDimension := dims[k].1;
      if priceDimension.pricePerUnit.Some? && priceDimension.pricePerUnit.value.USD.Some? {
        found := found + [PricingItem(regionCode, location, priceDimension.pricePerUnit.value.USD.value,
                                      priceDimension.unit, priceDimension.description, usagetype)];
      }
      k := k + 1;
    }
    assert dims[..k] == dims;
  }

  /** Every observation of a term list carries the product's region,
      location and usage type. */
  lemma {:induction false} TermItemsCarry(terms: Entries<Term>, regionCode: Option<string>, location: Option<string>, usagetype: string)
    ensures forall it :: it in TermItems(terms, regionCode, location, usagetype) ==>
      it.regionCode == regionCode && it.location == location && it.usagetype == usagetype
    decreases |terms|
  {
    if terms != [] {
      TermItemsCarry(terms[..|terms| - 1], regionCode, location, usagetype);
      var t := terms[|terms| - 1].1;
      if t.priceDimensions.Some? {
        DimensionItemsCarry(t.priceDimensions.value, regionCode, location, usagetype);
      }
    }
  }

  lemma {:induction false} DimensionItemsCarry(dims: Entries<PriceDimension>, regionCode: Option<string>, location: Option<string>, usagetype: string)
    ensures forall it :: it in DimensionItems(dims, regionCode, location, usagetype) ==>
      it.regionCode == regionCode && it.location == location && it.usagetype == usagetype
    decreases |dims|
  {
    if dims != [] {
      DimensionItemsCarry(dims[..|dims| - 1], regionCode, location, usagetype);
    }
  }

  lemma {:induction false} ProductsItemsMatch(ps: Entries<Product>, onDemand: SkuTerms, regions: seq<Choice>, products: seq<Choice>, duration: Choice)
    ensures forall it :: it in ProductsItems(ps, onDemand, regions, products, duration) ==>
      SomeValue(regions, it.regionCode) && SomeValue(products, Some(it.usagetype))
    decreases |ps|
  {
    if ps != [] {
      ProductsItemsMatch(ps[..|ps| - 1], onDemand, regions, products, duration);
      var (sku, p) := ps[|ps| - 1];
      var terms := Lookup(onDemand, sku);
      if terms.Some? {
        TermItemsCarry(terms.value, RegionCodeOf(p), LocationOf(p), UsageTypeOf(p, sku));
      }
    }
  }

  /** Every extracted observation lies in a selected region and has a
      selected usage type. */
  lemma ExtractMatchesSelection(regions: seq<Choice>, products: seq<Choice>, duration: Option<Choice>, fetch: Fetch<PricingDoc>)
    ensures forall it :: it in Extract(regions, products, duration, fetch) ==>
      SomeValue(regions, it.regionCode) && SomeValue(products, Some(it.usagetype))
  {
    if !ShowErrorOrEmpty(regions, products, duration, fetch) {
      ProductsItemsMatch(fetch.data.value.products.value, Lookup(fetch.data.value.terms.value, "OnDemand").value,
                         regions, products, duration.value);
    }
  }

  lemma {:induction false} ProductsItemsNeedOnDemand(ps: Entries<Product>, onDemand: SkuTerms, regions: seq<Choice>, products: seq<Choice>, duration: Choice)
    requires duration.value != Some("OnDemand")
    ensures ProductsItems(ps, onDemand, regions, products, duration) == []
    decreases |ps|
  {
    if ps != [] {
      ProductsItemsNeedOnDemand(ps[..|ps| - 1], onDemand, regions, products, duration);
    }
  }

  /** Only the "OnDemand" duration yields observations. */
  lemma OnlyOnDemandExtracts(regions: seq<Choice>, products: seq<Choice>, duration: Option<Choice>, fetch: Fetch<PricingDoc>)
    requires duration.Some? && duration.value.value != Some("OnDemand")
    ensures Extract(regions, products, duration, fetch) == []
  {
    if !ShowErrorOrEmpty(regions, products, duration, fetch) {
      ProductsItemsNeedOnDemand(fetch.data.value.products.value, Lookup(fetch.data.value.terms.value, "OnDemand").value,
                                regions, products, duration.value);
    }
  }

  /** The price dimensions of a term list that have a USD price, in order:
      the reference the observations are checked against. */
  function PricedDimensions(terms: Entries<Term>): seq<PriceDimension>
    decreases |terms|
  {
    if terms == [] then []
    else
      var t := terms[|terms| - 1].1;
      PricedDimensions(terms[..|terms| - 1])
        + (if t.priceDimensions.Some? then PricedOf(t.priceDimensions.value) else [])
  }

  function PricedOf(dims: Entries<PriceDimension>): seq<PriceDimension>
    decreases |dims|
  {
    if dims == [] then []
    else PricedOf(dims[..|dims| - 1]) + (if HasUSD(dims[|dims| - 1].1) then [dims[|dims| - 1].1] else [])
  }

  /** The observation `it` reports dimension `d` of the given product. */
  predicate Reports(it: PricingItem, d: PriceDimension, regionCode: Option<string>, location: Option<string>, usagetype: string)
  {
    && HasUSD(d)
    && it == PricingItem(regionCode, location, d.pricePerUnit.value.USD.value, d.unit, d.description, usagetype)
  }

  lemma {:induction false} DimensionItemsReport(dims: Entries<PriceDimension>, regionCode: Option<string>, location: Option<string>, usagetype: string)
    ensures var items, priced := DimensionItems(dims, regionCode, location, usagetype), PricedOf(dims);
      |items| == |priced| && forall n :: 0 <= n < |items| ==> Reports(items[n], priced[n], regionCode, location, usagetype)
    decreases |dims|
  {
    if dims != [] {
      DimensionItemsReport(dims[..|dims| - 1], regionCode, location, usagetype);
    }
  }

  /** A retained product contributes exactly one observation per price
      dimension with a USD price, in document order; dimensions without one
      are skipped and do not disturb the others. */
  lemma {:induction false} TermItemsReport(terms: Entries<Term>, regionCode: Option<string>, location: Option<string>, usagetype: string)
    ensures var items, priced := TermItems(terms, regionCode, location, usagetype), PricedDimensions(terms);
      |items| == |priced| && forall n :: 0 <= n < |items| ==> Reports(items[n], priced[n], regionCode, location, usagetype)
    decreases |terms|
  {
    if terms != [] {
      TermItemsReport(terms[..|terms| - 1], regionCode, location, usagetype);
      var t := terms[|terms| - 1].1;
      if t.priceDimensions.Some? {
        DimensionItemsReport(t.priceDimensions.value, regionCode, location, usagetype);
      }
    }
  }

  // ---------------------------------------------------------------------
  // Grouping by usage type

  function UsageTypes(items: seq<PricingItem>): (r: seq<string>)
    ensures |r| == |items| && forall n :: 0 <= n < |items| ==> r[n] == items[n].usagetype
  {
    seq(|items|, n requires 0 <= n < |items| => items[n].usagetype)
  }

  /** The observations with usage type `key`, in extraction order. */
  function ItemsOf(items: seq<PricingItem>, key: string): seq<PricingItem>
    decreases |items|
  {
    if items == [] then []
    else ItemsOf(items[..|items| - 1], key) + (if items[|items| - 1].usagetype == key then [items[|items| - 1]] else [])
  }

  /** The group keys, in the order the first observation of each arrives. */
  function GroupKeys(items: seq<PricingItem>): seq<string>
  {
    Dedup(UsageTypes(items))
  }

  /** The groups under the keys `ks`. */
  function GroupsFor(items: seq<PricingItem>, ks: seq<string>): (r: Entries<seq<PricingItem>>)
    ensures |r| == |ks| && forall n :: 0 <= n < |ks| ==> r[n] == (ks[n], ItemsOf(items, ks[n]))
  {
    if ks == [] then [] else [(ks[0], ItemsOf(items, ks[0]))] + GroupsFor(items, ks[1..])
  }

  /** `Object.entries(skuGroups)`. */
  function Groups(items: seq<PricingItem>): Entries<seq<PricingItem>>
  {
    GroupsFor(items, GroupKeys(items))
  }

  /** The grouping loop: each observation is appended to the group of its
      usage type, which is created on first use. */
  method GroupByUsageType(items: seq<PricingItem>) returns (groups: Entries<seq<PricingItem>>)
    ensures groups == Groups(items)
  {
    var table: map<string, seq<PricingItem>> := map[];
    var order: seq<string> := [];
    var i := 0;
    while i < |items|
      invariant 0 <= i <= |items|
      invariant order == Dedup(UsageTypes(items[..i]))
      invariant forall k :: k in order ==> k in table
      invariant forall k :: k in table ==> k in order
      invariant forall k :: k in table ==> table[k] == ItemsOf(items[..i], k)
    {
      var item := items[i];
      var key := item.usagetype;
      assert items[..i + 1][..i] == items[..i];
      assert UsageTypes(items[..i + 1])[..i] == UsageTypes(items[..i]);
      if key !in table {
        DedupSound(UsageTypes(items[..i]));
        ItemsOfAbsentKey(items[..i], key);
        table := table[key := []];
        order := order + [key];
      }
      table := table[key := table[key] + [item]];
      i := i + 1;
    }
    assert items[..i] == items;
    groups := seq(|order|, n requires 0 <= n < |order| => (order[n], table[order[n]]));
  }

  lemma {:induction false} ItemsOfMembers(items: seq<PricingItem>, key: string)
    ensures forall it :: it in ItemsOf(items, key) ==> it in items && it.usagetype == key
    ensures forall it :: it in items && it.usagetype == key ==> it in ItemsOf(items, key)
    ensures IsSubsequence(ItemsOf(items, key), items)
    decreases |items|
  {
    if items != [] {
      var p, x := items[..|items| - 1], items[|items| - 1];
      assert items == p + [x];
      ItemsOfMembers(p, key);
      SubsequenceSnoc(ItemsOf(p, key), p, x, x.usagetype == key);
    }
  }

  /** Extending both sequences by the same last element, or only the longer
      one, keeps the subsequence relation. */
  lemma {:induction false} SubsequenceSnoc<T>(sub: seq<T>, s: seq<T>, x: T, take: bool)
    requires IsSubsequence(sub, s)
    ensures IsSubsequence(sub + (if take then [x] else []), s + [x])
    decreases |s|
  {
    if sub == [] {
      if take {
        assert sub + [x] == [x];
        SubsequenceOfLast(s, x);
      }
    } else {
      assert s != [];
      assert (sub + (if take then [x] else []))[1..] == sub[1..] + (if take then [x] else []);
      assert (s + [x])[1..] == s[1..] + [x];
      if sub[0] == s[0] {
        SubsequenceSnoc(sub[1..], s[1..], x, take);
      } else {
        SubsequenceSnoc(sub, s[1..], x, take);
      }
    }
  }

  lemma {:induction false} SubsequenceOfLast<T>(s: seq<T>, x: T)
    ensures IsSubsequence([x], s + [x])
    decreases |s|
  {
    if s != [] {
      assert (s + [x])[1..] == s[1..] + [x];
      if s[0] != x {
        SubsequenceOfLast(s[1..], x);
      }
    }
  }

  function GroupSizes(groups: Entries<seq<PricingItem>>): nat
  {
    if groups == [] then 0 else |groups[0].1| + GroupSizes(groups[1..])
  }

  lemma {:induction false} GroupSizesSnocItem(items: seq<PricingItem>, x: PricingItem, ks: seq<string>)
    requires NoDuplicates(ks)
    ensures GroupSizes(GroupsFor(items + [x], ks)) == GroupSizes(GroupsFor(items, ks)) + (if x.usagetype in ks then 1 else 0)
  {
    if ks != [] {
      assert (items + [x])[..|items|] == items;
      GroupSizesSnocItem(items, x, ks[1..]);
    }
  }

  lemma {:induction false} GroupSizesSnocKey(items: seq<PricingItem>, ks: seq<string>, k: string)
    ensures GroupSizes(GroupsFor(items, ks + [k])) == GroupSizes(GroupsFor(items, ks)) + |ItemsOf(items, k)|
  {
    if ks != [] {
      assert (ks + [k])[1..] == ks[1..] + [k];
      GroupSizesSnocKey(items, ks[1..], k);
    }
  }

  lemma {:induction false} ItemsOfAbsentKey(items: seq<PricingItem>, k: string)
    requires k !in UsageTypes(items)
    ensures ItemsOf(items, k) == []
    decreases |items|
  {
    if items != [] {
      assert UsageTypes(items[..|items| - 1]) == UsageTypes(items)[..|items| - 1];
      ItemsOfAbsentKey(items[..|items| - 1], k);
    }
  }

  /** The group sizes add up to the number of observations. */
  lemma {:induction false} GroupSizesSum(items: seq<PricingItem>)
    ensures GroupSizes(Groups(items)) == |items|
    decreases |items|
  {
    if items != [] {
      var p, x := items[..|items| - 1], items[|items| - 1];
      assert items == p + [x];
      GroupSizesSum(p);
      var ks := GroupKeys(p);
      DedupSound(UsageTypes(p));
      assert UsageTypes(items) == UsageTypes(p) + [x.usagetype];
      assert UsageTypes(items)[..|p|] == UsageTypes(p);
      GroupSizesSnocItem(p, x, ks);
      if x.usagetype !in ks {
        assert GroupKeys(items) == ks + [x.usagetype];
        GroupSizesSnocKey(items, ks, x.usagetype);
        ItemsOfAbsentKey(p, x.usagetype);
        assert ItemsOf(items, x.usagetype) == [x];
      }
    }
  }

  /** Each group is non-empty and holds exactly the observations of its
      usage type, in extraction order. */
  lemma GroupShape(items: seq<PricingItem>, n: nat)
    requires n < |Groups(items)|
    ensures var g := Groups(items)[n];
      && |g.1| > 0
      && IsSubsequence(g.1, items)
      && (forall it :: it in g.1 ==> it in items && it.usagetype == g.0)
      && (forall it :: it in items && it.usagetype == g.0 ==> it in g.1)
  {
    var ks := GroupKeys(items);
    DedupSound(UsageTypes(items));
    ItemsOfMembers(items, ks[n]);
    assert ks[n] in UsageTypes(items);
    var m :| 0 <= m < |items| && UsageTypes(items)[m] == ks[n];
    assert items[m] in ItemsOf(items, ks[n]);
  }

  /** Every observation lands in the group of its usage type. */
  lemma ItemGrouped(items: seq<PricingItem>, it: PricingItem)
    requires it in items
    ensures exists n :: 0 <= n < |Groups(items)| && Groups(items)[n].0 == it.usagetype && it in Groups(items)[n].1
  {
    var ks := GroupKeys(items);
    DedupSound(UsageTypes(items));
    var m :| 0 <= m < |items| && items[m] == it;
    assert UsageTypes(items)[m] == it.usagetype;
    assert it.usagetype in ks;
    var n :| 0 <= n < |ks| && ks[n] == it.usagetype;
    ItemsOfMembers(items, ks[n]);
    assert Groups(items)[n].0 == it.usagetype && it in Groups(items)[n].1;
  }

  /** Grouping is a partition: the keys are distinct, every group is
      non-empty and holds exactly the observations of its usage type in
      extraction order, every observation has its group, and the sizes add
      up to the number of observations. */
  lemma GroupsPartition(items: seq<PricingItem>)
    ensures NoDuplicates(Keys(Groups(items)))
    ensures NonEmptyGroups(Groups(items))
    ensures forall n :: 0 <= n < |Groups(items)| ==> IsSubsequence(Groups(items)[n].1, items)
    ensures forall n, it :: 0 <= n < |Groups(items)| && it in Groups(items)[n].1 ==> it.usagetype == Groups(items)[n].0
    ensures forall it :: it in items ==> exists n :: 0 <= n < |Groups(items)| && Groups(items)[n].0 == it.usagetype && it in Groups(items)[n].1
    ensures GroupSizes(Groups(items)) == |items|
  {
    DedupSound(UsageTypes(items));
    assert Keys(Groups(items)) == GroupKeys(items);
    forall n | 0 <= n < |Groups(items)|
      ensures |Groups(items)[n].1| > 0 && IsSubsequence(Groups(items)[n].1, items)
      ensures forall it :: it in Groups(items)[n].1 ==> it.usagetype == Groups(items)[n].0
    {
      GroupShape(items, n);
    }
    forall it | it in items
      ensures exists n :: 0 <= n < |Groups(items)| && Groups(items)[n].0 == it.usagetype && it in Groups(items)[n].1
    {
      ItemGrouped(items, it);
    }
    GroupSizesSum(items);
  }

  // ---------------------------------------------------------------------
  // One row per group

  /** `min === max ? min.toFixed(6) : "min - max"`: only the choice between a
      single price and a range is modelled. */
  datatype PriceRange = Single(price: real) | Between(low: real, high: real)

  datatype Row = Row(
    sku: string,
    regionCodes: string,
    locations: string,
    description: Option<string>,
    priceRange: PriceRange,
    minPrice: real,
    maxPrice: real,
    unit: Option<string>)

  function Prices(items: seq<PricingItem>): (r: seq<real>)
    ensures |r| == |items| && forall n :: 0 <= n < |items| ==> r[n] == items[n].price
  {
    seq(|items|, n requires 0 <= n < |items| => items[n].price)
  }

  /** `Math.min(...s)` on a non-empty list. */
  function Min(s: seq<real>): (m: real)
    requires |s| > 0
    ensures m in s
    ensures forall n :: 0 <= n < |s| ==> m <= s[n]
  {
    if |s| == 1 then s[0]
    else
      var rest := Min(s[1..]);
      if s[0] <= rest then s[0] else rest
  }

  /** `Math.max(...s)` on a non-empty list. */
  function Max(s: seq<real>): (m: real)
    requires |s| > 0
    ensures m in s
    ensures forall n :: 0 <= n < |s| ==> s[n] <= m
  {
    if |s| == 1 then s[0]
    else
      var rest := Max(s[1..]);
      if s[0] >= rest then s[0] else rest
  }

  function RegionCodesOf(items: seq<PricingItem>): (r: seq<Option<string>>)
    ensures |r| == |items| && forall n :: 0 <= n < |items| ==> r[n] == items[n].regionCode
  {
    seq(|items|, n requires 0 <= n < |items| => items[n].regionCode)
  }

  function LocationsOf(items: seq<PricingItem>): (r: seq<Option<string>>)
    ensures |r| == |items| && forall n :: 0 <= n < |items| ==> r[n] == items[n].location
  {
    seq(|items|, n requires 0 <= n < |items| => items[n].location)
  }

  /** `values.join(", ")`, where `join` writes an absent value as "". */
  function JoinValues(values: seq<Option<string>>): string
  {
    Join(seq(|values|, n requires 0 <= n < |values| => OrEmpty(values[n])), ", ")
  }

  /** The row of the group `items` of usage type `key`. */
  function BuildRow(key: string, items: seq<PricingItem>): Row
    requires |items| > 0
  {
    var min := Min(Prices(items));
    var max := Max(Prices(items));
    Row(key,
        JoinValues(Dedup(RegionCodesOf(items))),
        JoinValues(Dedup(LocationsOf(items))),
        items[0].description,
        if min == max then Single(min) else Between(min, max),
        min, max,
        items[0].unit)
  }

  /** A row's price bounds are the least and greatest price of its group,
      so they are in order, and the range collapses to one price exactly when
      they are equal; the description and unit are those of the group's first
      observation. */
  lemma RowPrices(key: string, items: seq<PricingItem>)
    requires |items| > 0
    ensures var r := BuildRow(key, items);
      && r.sku == key
      && r.minPrice <= r.maxPrice
      && (exists n :: 0 <= n < |items| && items[n].price == r.minPrice)
      && (exists n :: 0 <= n < |items| && items[n].price == r.maxPrice)
      && (forall n :: 0 <= n < |items| ==> r.minPrice <= items[n].price <= r.maxPrice)
      && (r.priceRange.Single? <==> r.minPrice == r.maxPrice)
      && (r.priceRange.Single? ==> r.priceRange.price == r.minPrice)
      && (r.priceRange.Between? ==> r.priceRange.low == r.minPrice && r.priceRange.high == r.maxPrice)
      && r.description == items[0].description
      && r.unit == items[0].unit
  {
    var ps := Prices(items);
    var min, max := Min(ps), Max(ps);
    var a :| 0 <= a < |ps| && ps[a] == min;
    var b :| 0 <= b < |ps| && ps[b] == max;
    assert items[a].price == min && items[b].price == max;
  }

  /** A row's region and location lists are the values of its group, each
      once, in the order they first occur in the group. */
  lemma RowPlaces(key: string, items: seq<PricingItem>)
    requires |items| > 0
    ensures var r, rs, ls := BuildRow(key, items), Dedup(RegionCodesOf(items)), Dedup(LocationsOf(items));
      && r.regionCodes == JoinValues(rs) && r.locations == JoinValues(ls)
      && NoDuplicates(rs) && NoDuplicates(ls)
      && (forall n :: 0 <= n < |items| ==> items[n].regionCode in rs && items[n].location in ls)
      && (forall x :: x in rs ==> x in RegionCodesOf(items))
      && (forall x :: x in ls ==> x in LocationsOf(items))
      && (forall i, j :: 0 <= i < j < |rs| ==> FirstIndex(RegionCodesOf(items), rs[i]) < FirstIndex(RegionCodesOf(items), rs[j]))
      && (forall i, j :: 0 <= i < j < |ls| ==> FirstIndex(LocationsOf(items), ls[i]) < FirstIndex(LocationsOf(items), ls[j]))
  {
    DedupSound(RegionCodesOf(items));
    DedupSound(LocationsOf(items));
    forall n | 0 <= n < |items| ensures items[n].regionCode in RegionCodesOf(items) && items[n].location in LocationsOf(items) {
      assert RegionCodesOf(items)[n] == items[n].regionCode;
      assert LocationsOf(items)[n] == items[n].location;
    }
  }

  predicate NonEmptyGroups(groups: Entries<seq<PricingItem>>)
  {
    forall n :: 0 <= n < |groups| ==> |groups[n].1| > 0
  }

  /** `Object.entries(skuGroups).map(...)`. */
  function BuildRows(groups: Entries<seq<PricingItem>>): (rows: seq<Row>)
    requires NonEmptyGroups(groups)
    ensures |rows| == |groups|
    ensures forall n :: 0 <= n < |groups| ==> rows[n] == BuildRow(groups[n].0, groups[n].1)
  {
    seq(|groups|, n requires 0 <= n < |groups| && NonEmptyGroups(groups) => BuildRow(groups[n].0, groups[n].1))
  }

  function RowsOf(items: seq<PricingItem>): seq<Row>
  {
    GroupsPartition(items);
    BuildRows(Groups(items))
  }

  // ---------------------------------------------------------------------
  // Search

  /** A row matches the lower-cased search text when its usage type, region
      list, location list or description contains it, ignoring case. */
  predicate RowMatches(row: Row, lower: string)
  {
    || Includes(ToLower(row.sku), lower)
    || Includes(ToLower(row.regionCodes), lower)
    || Includes(ToLower(row.locations), lower)
    || Includes(ToLower(OrEmpty(row.description)), lower)
  }

  function KeepMatching(rows: seq<Row>, lower: string): (r: seq<Row>)
    ensures IsSubsequence(r, rows)
    ensures forall row :: row in r ==> row in rows && RowMatches(row, lower)
    ensures forall row :: row in rows && RowMatches(row, lower) ==> row in r
    ensures forall row :: multiset(r)[row] == if RowMatches(row, lower) then multiset(rows)[row] else 0
  {
    if rows == [] then []
    else
      var rest := KeepMatching(rows[1..], lower);
      assert rows == [rows[0]] + rows[1..];
      if RowMatches(rows[0], lower) then [rows[0]] + rest else rest
  }

  /** `filteredRows`. */
  function FilterRows(rows: seq<Row>, searchText: string): (r: seq<Row>)
    ensures searchText == "" ==> r == rows
    ensures IsSubsequence(r, rows)
    ensures forall row :: row in r ==> row in rows
    ensures searchText != "" ==> forall row :: row in r ==> RowMatches(row, ToLower(searchText))
    ensures searchText != "" ==> forall row :: row in rows && RowMatches(row, ToLower(searchText)) ==> row in r
    ensures searchText != "" ==> forall row :: multiset(r)[row] == if RowMatches(row, ToLower(searchText)) then multiset(rows)[row] else 0
  {
    if searchText == "" then
      SubsequenceOfItself(rows);
      rows
    else KeepMatching(rows, ToLower(searchText))
  }

  /** The search ignores the case of the search text: searching for a text
      and for its lower-cased form keeps the same rows. */
  lemma SearchIgnoresTextCase(rows: seq<Row>, searchText: string)
    ensures FilterRows(rows, ToLower(searchText)) == FilterRows(rows, searchText)
  {
    ToLowerIdempotent(searchText);
  }

  // ---------------------------------------------------------------------
  // Sort

  /** `field` of `const [field, dir] = value.split("_")`. */
  function SortField(value: string): string
  {
    Split(value, '_')[0]
  }

  /** `dir` of `const [field, dir] = value.split("_")`; absent when there is no
      "_". */
  function SortDirection(value: string): Option<string>
  {
    var parts := Split(value, '_');
    if |parts| > 1 then Some(parts[1]) else None
  }

  /** `cmp` before the direction is applied. */
  function FieldCompare(field: string, collate: (string, string) -> int, a: Row, b: Row): real
  {
    if field == "minPrice" then a.minPrice - b.minPrice
    else if field == "sku" then collate(a.sku, b.sku) as real
    else if field == "regionCodes" then collate(a.regionCodes, b.regionCodes) as real
    else 0.0
  }

  /** The comparator the table sorts with: `dir === "asc" ? cmp : -cmp`. */
  function RowComparator(value: string, collate: (string, string) -> int): (Row, Row) -> real
  {
    var field := SortField(value);
    var ascending := SortDirection(value) == Some("asc");
    (a: Row, b: Row) => if ascending then FieldCompare(field, collate, a, b) else -FieldCompare(field, collate, a, b)
  }

  /** `sortedRows`. */
  function SortRows(rows: seq<Row>, value: string, collate: (string, string) -> int): seq<Row>
  {
    SortBy(rows, RowComparator(value, collate))
  }

  lemma FieldCompareIsComparator(field: string, collate: (string, string) -> int)
    requires IsCollation(collate)
    ensures IsComparator((a: Row, b: Row) => FieldCompare(field, collate, a, b))
  {
  }

  /** Whatever the sort option, the table's comparator is a comparator. */
  lemma RowComparatorIsComparator(value: string, collate: (string, string) -> int)
    requires IsCollation(collate)
    ensures IsComparator(RowComparator(value, collate))
  {
    var field := SortField(value);
    var up := (a: Row, b: Row) => FieldCompare(field, collate, a, b);
    FieldCompareIsComparator(field, collate);
    if SortDirection(value) != Some("asc") {
      NegateComparator(up);
      var down := (a: Row, b: Row) => -up(a, b);
      assert forall a, b :: RowComparator(value, collate)(a, b) == down(a, b);
    } else {
      assert forall a, b :: RowComparator(value, collate)(a, b) == up(a, b);
    }
  }

  /** The sorted rows are a permutation of the filtered rows, ordered by the
      chosen comparator, and rows it ties keep their filtered order. */
  lemma SortRowsSound(rows: seq<Row>, value: string, collate: (string, string) -> int)
    requires IsCollation(collate)
    ensures multiset(SortRows(rows, value, collate)) == multiset(rows)
    ensures SortedBy(SortRows(rows, value, collate), RowComparator(value, collate))
    ensures forall k :: Ties(SortRows(rows, value, collate), k, RowComparator(value, collate)) == Ties(rows, k, RowComparator(value, collate))
  {
    RowComparatorIsComparator(value, collate);
    SortBySound(rows, RowComparator(value, collate));
    forall k ensures Ties(SortRows(rows, value, collate), k, RowComparator(value, collate)) == Ties(rows, k, RowComparator(value, collate)) {
      SortByStable(rows, k, RowComparator(value, collate));
    }
  }

  /** An option value `field_dir` names its field and direction. */
  lemma ParseSortValue(field: string, dir: string)
    requires '_' !in field && '_' !in dir
    ensures SortField(field + "_" + dir) == field
    ensures SortDirection(field + "_" + dir) == Some(dir)
  {
    SplitAtFirst(field, '_', dir);
    SplitNoSeparator(dir, '_');
  }

  /** The comparator of the option `field_dir`: the field's comparison,
      negated unless the direction is "asc". */
  lemma SortValueComparator(field: string, dir: string, collate: (string, string) -> int)
    requires '_' !in field && '_' !in dir
    ensures forall a, b :: RowComparator(field + "_" + dir, collate)(a, b) == (if dir == "asc" then FieldCompare(field, collate, a, b) else -FieldCompare(field, collate, a, b))
  {
    ParseSortValue(field, dir);
  }

  /** For every field, "desc" is the negation of "asc". */
  lemma DescNegatesAsc(field: string, collate: (string, string) -> int)
    requires '_' !in field
    ensures forall a, b :: RowComparator(field + "_desc", collate)(a, b) == -RowComparator(field + "_asc", collate)(a, b)
    ensures forall a, b :: RowComparator(field + "_asc", collate)(a, b) == FieldCompare(field, collate, a, b)
  {
    assert field + "_desc" == field + "_" + "desc";
    assert field + "_asc" == field + "_" + "asc";
    SortValueComparator(field, "asc", collate);
    SortValueComparator(field, "desc", collate);
  }

  /** The comparators of the two minimum-price options. */
  lemma MinPriceComparators(collate: (string, string) -> int)
    ensures forall a, b :: RowComparator("minPrice_asc", collate)(a, b) == a.minPrice - b.minPrice
    ensures forall a, b :: RowComparator("minPrice_desc", collate)(a, b) == b.minPrice - a.minPrice
  {
    assert "minPrice_asc" == "minPrice" + "_" + "asc";
    assert "minPrice_desc" == "minPrice" + "_" + "desc";
    SortValueComparator("minPrice", "asc", collate);
    SortValueComparator("minPrice", "desc", collate);
  }

  /** "minPrice_asc" and "minPrice_desc" order the rows by minimum price. */
  lemma SortByMinPrice(rows: seq<Row>, collate: (string, string) -> int)
    ensures var up, down := SortRows(rows, "minPrice_asc", collate), SortRows(rows, "minPrice_desc", collate);
      && multiset(up) == multiset(rows) && multiset(down) == multiset(rows)
      && (forall i, j :: 0 <= i < j < |up| ==> up[i].minPrice <= up[j].minPrice)
      && (forall i, j :: 0 <= i < j < |down| ==> down[i].minPrice >= down[j].minPrice)
  {
    MinPriceComparators(collate);
    var up, down := RowComparator("minPrice_asc", collate), RowComparator("minPrice_desc", collate);
    assert IsComparator(up);
    assert IsComparator(down);
    SortBySound(rows, up);
    SortBySound(rows, down);
  }

  /** The comparators of the two usage-type options. */
  lemma SkuComparators(collate: (string, string) -> int)
    ensures forall a, b :: RowComparator("sku_asc", collate)(a, b) == collate(a.sku, b.sku) as real
    ensures forall a, b :: RowComparator("sku_desc", collate)(a, b) == -(collate(a.sku, b.sku) as real)
  {
    assert "sku_asc" == "sku" + "_" + "asc";
    assert "sku_desc" == "sku" + "_" + "desc";
    SortValueComparator("sku", "asc", collate);
    SortValueComparator("sku", "desc", collate);
  }

  /** "sku_asc" and "sku_desc" order the rows by usage type. */
  lemma SortBySku(rows: seq<Row>, collate: (string, string) -> int)
    requires IsCollation(collate)
    ensures var up, down := SortRows(rows, "sku_asc", collate), SortRows(rows, "sku_desc", collate);
      && multiset(up) == multiset(rows) && multiset(down) == multiset(rows)
      && (forall i, j :: 0 <= i < j < |up| ==> collate(up[i].sku, up[j].sku) <= 0)
      && (forall i, j :: 0 <= i < j < |down| ==> collate(down[i].sku, down[j].sku) >= 0)
  {
    SkuComparators(collate);
    SortRowsSound(rows, "sku_asc", collate);
    SortRowsSound(rows, "sku_desc", collate);
  }

  /** The comparators of the two region-list options. */
  lemma RegionCodesComparators(collate: (string, string) -> int)
    ensures forall a, b :: RowComparator("regionCodes_asc", collate)(a, b) == collate(a.regionCodes, b.regionCodes) as real
    ensures forall a, b :: RowComparator("regionCodes_desc", collate)(a, b) == -(collate(a.regionCodes, b.regionCodes) as real)
  {
    assert "regionCodes_asc" == "regionCodes" + "_" + "asc";
    assert "regionCodes_desc" == "regionCodes" + "_" + "desc";
    SortValueComparator("regionCodes", "asc", collate);
    SortValueComparator("regionCodes", "desc", collate);
  }

  /** "regionCodes_asc" and "regionCodes_desc" order the rows by region list. */
  lemma SortByRegionCodes(rows: seq<Row>, collate: (string, string) -> int)
    requires IsCollation(collate)
    ensures var up, down := SortRows(rows, "regionCodes_asc", collate), SortRows(rows, "regionCodes_desc", collate);
      && multiset(up) == multiset(rows) && multiset(down) == multiset(rows)
      && (forall i, j :: 0 <= i < j < |up| ==> collate(up[i].regionCodes, up[j].regionCodes) <= 0)
      && (forall i, j :: 0 <= i < j < |down| ==> collate(down[i].regionCodes, down[j].regionCodes) >= 0)
  {
    RegionCodesComparators(collate);
    SortRowsSound(rows, "regionCodes_asc", collate);
    SortRowsSound(rows, "regionCodes_desc", collate);
  }

  /** When the chosen field separates every pair of distinct rows, the
      descending order is the ascending order reversed. */
  lemma DescIsReversedAsc(rows: seq<Row>, field: string, collate: (string, string) -> int)
    requires '_' !in field
    requires IsCollation(collate)
    requires TieFree(rows, RowComparator(field + "_asc", collate))
    ensures SortRows(rows, field + "_desc", collate) == Reverse(SortRows(rows, field + "_asc", collate))
  {
    DescNegatesAsc(field, collate);
    RowComparatorIsComparator(field + "_asc", collate);
    NegatedSortIsReverse(rows, RowComparator(field + "_asc", collate), RowComparator(field + "_desc", collate));
  }

  /** Two rows with the same minimum price keep their order under both
      directions, so with ties the descending order is not the ascending one
      reversed. */
  lemma TiesAreNotReversed(collate: (string, string) -> int)
    ensures var a, b := Row("a", "", "", None, Single(1.0), 1.0, 1.0, None), Row("b", "", "", None, Single(1.0), 1.0, 1.0, None);
      && SortRows([a, b], "minPrice_asc", collate) == [a, b]
      && SortRows([a, b], "minPrice_desc", collate) == [a, b]
      && SortRows([a, b], "minPrice_desc", collate) != Reverse(SortRows([a, b], "minPrice_asc", collate))
  {
    var a, b := Row("a", "", "", None, Single(1.0), 1.0, 1.0, None), Row("b", "", "", None, Single(1.0), 1.0, 1.0, None);
    MinPriceComparators(collate);
    var up, down := RowComparator("minPrice_asc", collate), RowComparator("minPrice_desc", collate);
    SortTiedPair(a, b, up);
    SortTiedPair(a, b, down);
    assert Reverse([a, b])[0] == b;
  }

  // ---------------------------------------------------------------------
  // What the component shows

  datatype TableView = Message(text: string) | Table(rows: seq<Row>)

  /** The empty-state message: loading first, then the error, then no data. */
  function EmptyStateMessage(fetch: Fetch<PricingDoc>): string
  {
    if fetch.loading then "Loading pricing data..."
    else if fetch.error then "Failed to load pricing data."
    else "No pricing data for this selection."
  }

  /** The component's output for the current selections, document, search
      text and sort option. */
  function View(regions: seq<Choice>, products: seq<Choice>, duration: Option<Choice>, fetch: Fetch<PricingDoc>,
                searchText: string, sortValue: string, collate: (string, string) -> int): (v: TableView)
    ensures v.Message? <==> ShowErrorOrEmpty(regions, products, duration, fetch)
    ensures v.Message? && fetch.loading ==> v.text == "Loading pricing data..."
    ensures v.Message? && !fetch.loading && fetch.error ==> v.text == "Failed to load pricing data."
    ensures v.Message? && !fetch.loading && !fetch.error ==> v.text == "No pricing data for this selection."
  {
    if ShowErrorOrEmpty(regions, products, duration, fetch) then Message(EmptyStateMessage(fetch))
    else Table(SortRows(FilterRows(RowsOf(Extract(regions, products, duration, fetch)), searchText), sortValue, collate))
  }

  /** The component's pipeline, running the extraction and grouping loops. */
  method RenderTable(regions: seq<Choice>, products: seq<Choice>, duration: Option<Choice>, fetch: Fetch<PricingDoc>,
                     searchText: string, sortValue: string, collate: (string, string) -> int)
    returns (v: TableView)
    ensures v == View(regions, products, duration, fetch, searchText, sortValue, collate)
  {
    if ShowErrorOrEmpty(regions, products, duration, fetch) {
      return Message(EmptyStateMessage(fetch));
    }
    var pricing := ExtractPricing(regions, products, duration, fetch);
    var groups := GroupByUsageType(pricing);
    GroupsPartition(pricing);
    var rows := BuildRows(groups);
    v := Table(SortRows(FilterRows(rows, searchText), sortValue, collate));
  }

  /** Every row on screen is for a selected usage type, and its price
      bounds are in order. */
  lemma ShownRowsMatchSelection(regions: seq<Choice>, products: seq<Choice>, duration: Option<Choice>, fetch: Fetch<PricingDoc>,
                                searchText: string, sortValue: string, collate: (string, string) -> int)
    ensures var v := View(regions, products, duration, fetch, searchText, sortValue, collate);
      v.Table? ==> forall row :: row in v.rows ==>
        && SomeValue(products, Some(row.sku))
        && row.minPrice <= row.maxPrice
  {
    var v := View(regions, products, duration, fetch, searchText, sortValue, collate);
    if v.Table? {
      var items := Extract(regions, products, duration, fetch);
      var rows := RowsOf(items);
      var kept := FilterRows(rows, searchText);
      SortBySound(kept, RowComparator(sortValue, collate));
      forall row | row in v.rows
        ensures SomeValue(products, Some(row.sku)) && row.minPrice <= row.maxPrice
      {
        assert row in multiset(v.rows);
        assert row in kept;
        var n :| 0 <= n < |rows| && rows[n] == row;
        GroupsPartition(items);
        var g := Groups(items)[n];
        GroupShape(items, n);
        RowPrices(g.0, g.1);
        var it := g.1[0];
        assert it in g.1;
        ExtractMatchesSelection(regions, products, duration, fetch);
      }
    }
  }

  /** The "Version Begin" and "Version End" cells: the date part of the
      timestamp, or "N/A" when there is none. */
  function VersionCell(timestamp: Option<string>): (cell: string)
    ensures timestamp.None? || timestamp.value == "" ==> cell == "N/A"
    ensures timestamp.Some? && timestamp.value != "" ==>
      && cell <= timestamp.value && 'T' !in cell
      && (|cell| < |timestamp.value| ==> timestamp.value[|cell|] == 'T')
  {
    if timestamp.Some? && timestamp.value != "" then
      FirstPiece(timestamp.value, 'T');
      Split(timestamp.value, 'T')[0]
    else "N/A"
  }

  // ---------------------------------------------------------------------
  // A worked example

  /** One product `A1` of usage type "Requests" in us-east-1 with one
      on-demand price dimension at 0.000004 USD per request. */
  function ExampleDoc(usagetype: Option<string>): PricingDoc
  {
    var dim := PriceDimension(Some(Money(Some(0.000004))), Some("Requests"), Some("requests"));
    var product := Product(Some("A1"), Some(Attributes(Some("us-east-1"), usagetype, None)));
    PricingDoc(Some([("A1", product)]), Some([("OnDemand", [("A1", [("term1", Term(Some([("dim1", dim)])))])])]))
  }

  const ExampleRegions: seq<Choice> := [Choice(Some("us-east-1"), Some("us-east-1"))]
  const ExampleProducts: seq<Choice> := [Choice(Some("Requests"), Some("Requests"))]
  const ExampleDuration: Option<Choice> := Some(Choice(Some("On-Demand"), Some("OnDemand")))
  const ExampleItem: PricingItem := PricingItem(Some("us-east-1"), None, 0.000004, Some("Requests"), Some("requests"), "Requests")
  const ExampleRow: Row := Row("Requests", "us-east-1", "", Some("requests"), Single(0.000004), 0.000004, 0.000004, Some("Requests"))

  lemma ExampleExtract()
    ensures Extract(ExampleRegions, ExampleProducts, ExampleDuration, Fetch(Some(ExampleDoc(Some("Requests"))), false, false)) == [ExampleItem]
  {
    assert SomeValue(ExampleRegions, Some("us-east-1")) by { assert ExampleRegions[0].value == Some("us-east-1"); }
    assert SomeValue(ExampleProducts, Some("Requests")) by { assert ExampleProducts[0].value == Some("Requests"); }
  }

  lemma ExampleGroups()
    ensures Groups([ExampleItem]) == [("Requests", [ExampleItem])]
  {
    assert UsageTypes([ExampleItem]) == ["Requests"] && ["Requests"][..0] == [];
    assert GroupKeys([ExampleItem]) == ["Requests"];
    assert [ExampleItem][..0] == [];
    assert ItemsOf([ExampleItem], "Requests") == [ExampleItem];
  }

  lemma ExampleBuildRow()
    ensures BuildRow("Requests", [ExampleItem]) == ExampleRow
  {
    assert RegionCodesOf([ExampleItem]) == [Some("us-east-1")] && [Some("us-east-1")][..0] == [];
    assert Dedup(RegionCodesOf([ExampleItem])) == [Some("us-east-1")];
    var noLocation: seq<Option<string>> := [None];
    assert LocationsOf([ExampleItem]) == noLocation && noLocation[..0] == [];
    assert Dedup(LocationsOf([ExampleItem])) == noLocation;
    assert Prices([ExampleItem]) == [0.000004];
  }

  /** Selecting us-east-1, "Requests" and on-demand shows exactly one row
      for the example product, with a single price. */
  lemma ExampleSingleRow(collate: (string, string) -> int)
    ensures View(ExampleRegions, ExampleProducts, ExampleDuration, Fetch(Some(ExampleDoc(Some("Requests"))), false, false),
                 "", "minPrice_asc", collate)
      == Table([ExampleRow])
  {
    var fetch := Fetch(Some(ExampleDoc(Some("Requests"))), false, false);
    ExampleExtract();
    assert !ShowErrorOrEmpty(ExampleRegions, ExampleProducts, ExampleDuration, fetch) by {
      assert Extract(ExampleRegions, ExampleProducts, ExampleDuration, fetch) != [];
    }
    ExampleRows();
    assert FilterRows([ExampleRow], "") == [ExampleRow];
    SortSingleton(ExampleRow, RowComparator("minPrice_asc", collate));
  }

  lemma ExampleRows()
    ensures RowsOf([ExampleItem]) == [ExampleRow]
  {
    ExampleGroups();
    ExampleBuildRow();
  }

  /** When the usage type is absent from the product's attributes, the
      product's key `A1` stands in for it and a "Requests" selection shows
      no row. */
  lemma ExampleWithoutUsageType(collate: (string, string) -> int)
    ensures View(ExampleRegions, ExampleProducts, ExampleDuration, Fetch(Some(ExampleDoc(None)), false, false),
                 "", "minPrice_asc", collate)
      == Table([])
  {
    var doc := ExampleDoc(None);
    assert UsageTypeOf(doc.products.value[0].1, "A1") == "A1";
    assert !SomeValue(ExampleProducts, Some("A1")) by {
      assert forall i :: 0 <= i < |ExampleProducts| ==> ExampleProducts[i].value == Some("Requests");
    }
    assert Extract(ExampleRegions, ExampleProducts, ExampleDuration, Fetch(Some(doc), false, false)) == [];
    assert Groups([]) == [];
    assert RowsOf([]) == [];
  }
}
