/** `QuickList`: a dashboard card listing the first few items of a list, each linking to its
    detail page. */
module QuickList {
  import opened Wrappers
  import Seqs
  import Strings
  import Dashboard

  /** How many items the card shows at most. */
  const Shown: nat := 5

  datatype Entry = Entry(to: string, item: Dashboard.QuickListItem)

  datatype Body = Skeletons(count: nat) | NoData | Entries(entries: seq<Entry>)

  /** The link of one item: `${linkTo}/${item.id}`. */
  function LinkOf(linkTo: string, item: Dashboard.QuickListItem): string
  {
    linkTo + "/" + Strings.IntToString(item.id)
  }

  /** The card body: skeletons while loading whatever the items; "no data" for a missing or
      empty list; otherwise the first five items in order, each with its link. */
  function Render(items: Option<seq<Dashboard.QuickListItem>>, linkTo: string, isLoading: bool): (b: Body)
    ensures b.Skeletons? <==> isLoading
    ensures b.Skeletons? ==> b.count == 3
    ensures b.NoData? <==> !isLoading && (items.None? || |items.value| == 0)
    ensures b.Entries? ==> items.Some? && 1 <= |b.entries| <= Shown
    ensures b.Entries? ==> |b.entries| == (if |items.value| < Shown then |items.value| else Shown)
    ensures b.Entries? ==> forall i :: 0 <= i < |b.entries| ==>
              b.entries[i].item == items.value[i] && b.entries[i].to == LinkOf(linkTo, items.value[i])
  {
    if isLoading then Skeletons(3)
    else if items.None? || |items.value| == 0 then NoData
    else
      var shown := Seqs.Take(items.value, Shown);
      Entries(seq(|shown|, i requires 0 <= i < |shown| => Entry(LinkOf(linkTo, shown[i]), shown[i])))
  }

  /** Items with different ids get different links. */
  lemma LinksDistinguishItems(linkTo: string, a: Dashboard.QuickListItem, b: Dashboard.QuickListItem)
    requires LinkOf(linkTo, a) == LinkOf(linkTo, b)
    ensures a.id == b.id
  {
    var n := |linkTo| + 1;
    assert LinkOf(linkTo, a)[n..] == Strings.IntToString(a.id);
    assert LinkOf(linkTo, b)[n..] == Strings.IntToString(b.id);
    Strings.IntToStringInjective(a.id, b.id);
  }
}
