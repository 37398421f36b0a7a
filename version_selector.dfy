/** The version picker: one option per entry of the version index,
    labelled with the version and the date its prices take effect, newest
    version first. */
module VersionSelector {
  import opened Common
  import opened Catalog
  import opened Strings
  import opened Sorting

  /** The index has loaded without error and has a `versions` map. */
  predicate Ready(fetch: Fetch<VersionIndex>)
  {
    !fetch.loading && !fetch.error && fetch.data.Some? && fetch.data.value.versions.Some?
  }

  /** `${version} (${beginDate.split("T")[0]})`. */
  function VersionLabel(version: string, beginDate: string): string
  {
    version + " (" + Split(beginDate, 'T')[0] + ")"
  }

  /** The label is the version, a space, and in parentheses the part of the
      begin date before its first "T". */
  lemma VersionLabelFormat(version: string, beginDate: string)
    ensures exists day :: (
      && VersionLabel(version, beginDate) == version + " (" + day + ")"
      && day <= beginDate
      && 'T' !in day
      && (|day| < |beginDate| ==> beginDate[|day|] == 'T'))
  {
    FirstPiece(beginDate, 'T');
    var day := Split(beginDate, 'T')[0];
    assert forall j :: 0 <= j < |day| ==> day[j] != 'T';
  }

  /** Every entry has a begin date; when one has none, building its label
      throws. */
  predicate AllDated(versions: Entries<VersionInfo>)
  {
    forall k :: 0 <= k < |versions| ==> versions[k].1.versionEffectiveBeginDate.Some?
  }

  function VersionChoice(version: string, info: VersionInfo): Choice
    requires info.versionEffectiveBeginDate.Some?
  {
    Choice(Some(VersionLabel(version, info.versionEffectiveBeginDate.value)), Some(version))
  }

  function VersionChoices(versions: Entries<VersionInfo>): (cs: seq<Choice>)
    requires AllDated(versions)
    ensures |cs| == |versions|
    ensures forall k :: 0 <= k < |versions| ==> cs[k] == VersionChoice(versions[k].0, versions[k].1)
  {
    seq(|versions|, k requires 0 <= k < |versions| && AllDated(versions) => VersionChoice(versions[k].0, versions[k].1))
  }

  /** `(a, b) => (b.value || "").localeCompare(a.value || "")`. */
  function ByValueDescending(collate: (string, string) -> int): (Choice, Choice) -> real
  {
    (a: Choice, b: Choice) => collate(OrEmpty(b.value), OrEmpty(a.value)) as real
  }

  lemma ByValueDescendingIsComparator(collate: (string, string) -> int)
    requires IsCollation(collate)
    ensures IsComparator(ByValueDescending(collate))
  {
    var cmp := ByValueDescending(collate);
    forall a, b, c | cmp(a, b) <= 0.0 && cmp(b, c) <= 0.0
      ensures cmp(a, c) <= 0.0
    {
      assert collate(OrEmpty(b.value), OrEmpty(a.value)) <= 0 && collate(OrEmpty(c.value), OrEmpty(b.value)) <= 0;
    }
    forall a, b ensures cmp(a, b) < 0.0 <==> cmp(b, a) > 0.0 {
      assert collate(OrEmpty(b.value), OrEmpty(a.value)) < 0 <==> collate(OrEmpty(a.value), OrEmpty(b.value)) > 0;
    }
  }

  /** `options`: empty unless the index is ready; absent when an entry has
      no begin date (the picker throws while rendering). */
  function VersionOptions(fetch: Fetch<VersionIndex>, collate: (string, string) -> int): (r: Option<seq<Choice>>)
    ensures !Ready(fetch) ==> r == Some([])
    ensures Ready(fetch) ==> (r.None? <==> !AllDated(fetch.data.value.versions.value))
  {
    if !Ready(fetch) then Some([])
    else if !AllDated(fetch.data.value.versions.value) then None
    else Some(SortBy(VersionChoices(fetch.data.value.versions.value), ByValueDescending(collate)))
  }

  /** The options are one per version entry, valued with its key and
      labelled with the key and its begin date, and nothing else, in
      descending order of value. */
  lemma VersionOptionsSound(fetch: Fetch<VersionIndex>, collate: (string, string) -> int)
    requires IsCollation(collate)
    requires Ready(fetch) && AllDated(fetch.data.value.versions.value)
    ensures var versions, options := fetch.data.value.versions.value, VersionOptions(fetch, collate).value;
      && |options| == |versions|
      && (forall k :: 0 <= k < |versions| ==>
            Choice(Some(VersionLabel(versions[k].0, versions[k].1.versionEffectiveBeginDate.value)), Some(versions[k].0)) in options)
      && (forall c :: c in options ==> exists k :: (0 <= k < |versions| &&
            c == Choice(Some(VersionLabel(versions[k].0, versions[k].1.versionEffectiveBeginDate.value)), Some(versions[k].0))))
      && (forall i, j :: 0 <= i < j < |options| ==> collate(OrEmpty(options[j].value), OrEmpty(options[i].value)) <= 0)
  {
    var versions := fetch.data.value.versions.value;
    var cs := VersionChoices(versions);
    var options := SortBy(cs, ByValueDescending(collate));
    ByValueDescendingIsComparator(collate);
    SortBySound(cs, ByValueDescending(collate));
    assert |options| == |multiset(options)| == |multiset(cs)| == |cs|;
    forall c | c in options
      ensures exists k :: (0 <= k < |versions| &&
        c == Choice(Some(VersionLabel(versions[k].0, versions[k].1.versionEffectiveBeginDate.value)), Some(versions[k].0)))
    {
      assert c in multiset(cs);
      var k :| 0 <= k < |cs| && cs[k] == c;
    }
    forall k | 0 <= k < |versions|
      ensures Choice(Some(VersionLabel(versions[k].0, versions[k].1.versionEffectiveBeginDate.value)), Some(versions[k].0)) in options
    {
      assert cs[k] in multiset(options);
    }
  }
}
