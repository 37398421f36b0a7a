/** What the region, usage-type, version and service pickers share: options
    made from the entries of a catalog map, ordered by label, and the
    "Select All" sentinel of the two multi-selects. */
module Pickers {
  import opened Common
  import opened Sequences
  import opened Sorting

  /** The sentinel value of the "Select All" option. */
  const AllValue: string := "__ALL__"

  /** The "Select All" option. */
  const SelectAll: Choice := Choice(Some("Select All"), Some(AllValue))

  /** `[selectAllOption, ...allOptions]`: the sentinel first, then exactly the
      real options. */
  function WithSelectAll(all: seq<Choice>): (options: seq<Choice>)
    ensures |options| == |all| + 1
    ensures options[0] == SelectAll && options[1..] == all
  {
    [SelectAll] + all
  }

  /** Some chosen option carries the sentinel value. */
  predicate ChoosesAll(selected: seq<Choice>)
  {
    exists i :: 0 <= i < |selected| && selected[i].value == Some(AllValue)
  }

  /** `handleChange`: choosing the sentinel selects every real option;
      any other choice is taken as it is. */
  function ExpandSelectAll(selected: seq<Choice>, all: seq<Choice>): (r: seq<Choice>)
    ensures ChoosesAll(selected) ==> r == all
    ensures !ChoosesAll(selected) ==> r == selected
    ensures SelectAll !in all ==> SelectAll !in r || SelectAll in selected
  {
    if ChoosesAll(selected) then all else selected
  }

  /** Choosing the sentinel from the options gives back exactly the real
      options, without the sentinel when no real option equals it. */
  lemma ChoosingSentinelSelectsAll(selected: seq<Choice>, all: seq<Choice>)
    requires SelectAll in selected
    ensures ExpandSelectAll(selected, all) == all
  {
    var i :| 0 <= i < |selected| && selected[i] == SelectAll;
    assert selected[i].value == Some(AllValue);
  }

  /** `(a.label || "")`: the label used for ordering. */
  function LabelKey(c: Choice): string
  {
    OrEmpty(c.text)
  }

  /** `(a, b) => (a.label || "").localeCompare(b.label || "")`. */
  function ByLabel(collate: (string, string) -> int): (Choice, Choice) -> real
  {
    (a: Choice, b: Choice) => collate(LabelKey(a), LabelKey(b)) as real
  }

  /** Ordering by label is a comparator. */
  lemma ByLabelIsComparator(collate: (string, string) -> int)
    requires IsCollation(collate)
    ensures IsComparator(ByLabel(collate))
  {
    var cmp := ByLabel(collate);
    forall a, b, c | cmp(a, b) <= 0.0 && cmp(b, c) <= 0.0
      ensures cmp(a, c) <= 0.0
    {
      assert collate(LabelKey(a), LabelKey(b)) <= 0 && collate(LabelKey(b), LabelKey(c)) <= 0;
    }
    forall a, b ensures cmp(a, b) < 0.0 <==> cmp(b, a) > 0.0 {
      assert collate(LabelKey(a), LabelKey(b)) < 0 <==> collate(LabelKey(b), LabelKey(a)) > 0;
    }
  }

  /** One option per map entry: the label computed from the entry's value,
      the value its key. */
  function KeyedChoices<V>(e: Entries<V>, labelOf: V -> Option<string>): (cs: seq<Choice>)
    ensures |cs| == |e|
    ensures forall k :: 0 <= k < |e| ==> cs[k] == Choice(labelOf(e[k].1), Some(e[k].0))
  {
    seq(|e|, k requires 0 <= k < |e| => Choice(labelOf(e[k].1), Some(e[k].0)))
  }

  /** The options of a map, ordered by label: one per entry (carrying the
      entry's key as value and its computed label) and nothing else, in
      ascending label order. */
  lemma {:induction false} KeyedChoicesByLabel<V>(e: Entries<V>, labelOf: V -> Option<string>, collate: (string, string) -> int)
    requires IsCollation(collate)
    ensures var opts := SortBy(KeyedChoices(e, labelOf), ByLabel(collate));
      && |opts| == |e|
      && multiset(opts) == multiset(KeyedChoices(e, labelOf))
      && (forall i, j :: 0 <= i < j < |opts| ==> collate(LabelKey(opts[i]), LabelKey(opts[j])) <= 0)
      && (forall c :: c in opts ==> exists k :: 0 <= k < |e| && c == Choice(labelOf(e[k].1), Some(e[k].0)))
      && (forall k :: 0 <= k < |e| ==> Choice(labelOf(e[k].1), Some(e[k].0)) in opts)
  {
    var cs := KeyedChoices(e, labelOf);
    var opts := SortBy(cs, ByLabel(collate));
    ByLabelIsComparator(collate);
    SortBySound(cs, ByLabel(collate));
    assert |opts| == |multiset(opts)| == |multiset(cs)| == |cs|;
    forall c | c in opts ensures exists k :: 0 <= k < |e| && c == Choice(labelOf(e[k].1), Some(e[k].0)) {
      assert c in multiset(cs);
      var k :| 0 <= k < |cs| && cs[k] == c;
    }
    forall k | 0 <= k < |e| ensures Choice(labelOf(e[k].1), Some(e[k].0)) in opts {
      assert cs[k] in multiset(opts);
    }
  }
}
