/** The service picker: one option per offer of the services catalog,
    ordered by offer code. */
module ServiceSelector {
  import opened Common
  import opened Catalog
  import opened Sorting
  import opened Pickers

  /** The catalog has loaded without error and has an `offers` map. */
  predicate Ready(fetch: Fetch<ServiceIndex>)
  {
    !fetch.loading && !fetch.error && fetch.data.Some? && fetch.data.value.offers.Some?
  }

  /** An offer's label: its `offerCode`. */
  function OfferLabel(offer: Offer): Option<string>
  {
    offer.offerCode
  }

  /** `options`: empty unless the catalog is ready. */
  function ServiceOptions(fetch: Fetch<ServiceIndex>, collate: (string, string) -> int): (options: seq<Choice>)
    ensures !Ready(fetch) ==> options == []
  {
    if Ready(fetch) then SortBy(KeyedChoices(fetch.data.value.offers.value, OfferLabel), ByLabel(collate)) else []
  }

  /** The options are one per offer, labelled with its offer code and valued
      with its key, and nothing else, in ascending label order. */
  lemma ServiceOptionsSound(fetch: Fetch<ServiceIndex>, collate: (string, string) -> int)
    requires IsCollation(collate)
    requires Ready(fetch)
    ensures var offers, options := fetch.data.value.offers.value, ServiceOptions(fetch, collate);
      && |options| == |offers|
      && (forall k :: 0 <= k < |offers| ==> Choice(offers[k].1.offerCode, Some(offers[k].0)) in options)
      && (forall c :: c in options ==> exists k :: 0 <= k < |offers| && c == Choice(offers[k].1.offerCode, Some(offers[k].0)))
      && (forall i, j :: 0 <= i < j < |options| ==> collate(LabelKey(options[i]), LabelKey(options[j])) <= 0)
  {
    KeyedChoicesByLabel(fetch.data.value.offers.value, OfferLabel, collate);
  }
}
