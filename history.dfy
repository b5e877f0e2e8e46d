/**
 * The campaign history page: the filter over the history items (search term,
 * status filter, type filter and the globally selected instance) and the hint
 * shown when nothing is left.
 */
module History {
  import opened Wrappers
  import Seqs
  import Text
  import Instances

  datatype HistoryItem = HistoryItem(
    id: string,
    instanceName: string,
    listName: string,
    message: string,
    messageType: string,
    status: string,
    sentAt: string,
    totalSent: int,
    totalDelivered: int,
    totalFailed: int)

  /** The three filter controls; a select at "all" does not filter. */
  datatype Filters = Filters(searchTerm: string, statusFilter: string, typeFilter: string)

  const AllValues: string := "all"
  const DefaultFilters: Filters := Filters("", AllValues, AllValues)

  const AdjustFiltersHint: string := "Tente ajustar os filtros para ver mais resultados."
  const NoCampaignsHint: string := "Quando você enviar campanhas, elas aparecerão aqui."

  /** The search term, lowercased, occurs in the lowercased list name or message. */
  predicate MatchesSearch(item: HistoryItem, searchTerm: string) {
    || Text.Includes(Text.Lower(item.listName), Text.Lower(searchTerm))
    || Text.Includes(Text.Lower(item.message), Text.Lower(searchTerm))
  }

  /** The conjunction `filteredHistory` keeps an item by. */
  predicate Kept(f: Filters, selected: Option<Instances.Instance>, item: HistoryItem) {
    && MatchesSearch(item, f.searchTerm)
    && (f.statusFilter == AllValues || item.status == f.statusFilter)
    && (f.typeFilter == AllValues || item.messageType == f.typeFilter)
    && (selected.None? || Text.Includes(item.instanceName, selected.value.name))
  }

  function Keep(f: Filters, selected: Option<Instances.Instance>): HistoryItem -> bool {
    (item: HistoryItem) => Kept(f, selected, item)
  }

  /** `filteredHistory` */
  function FilteredHistory(items: seq<HistoryItem>, f: Filters, selected: Option<Instances.Instance>)
    : seq<HistoryItem>
  {
    Seqs.Filter(Keep(f, selected), items)
  }

  /** The result keeps the items' order, and an item is in it exactly when it passes all
      four tests. */
  lemma FilteredHistoryKeepsExactlyMatches(items: seq<HistoryItem>, f: Filters,
                                           selected: Option<Instances.Instance>)
    ensures Seqs.IsSubsequence(FilteredHistory(items, f, selected), items)
    ensures forall item :: item in FilteredHistory(items, f, selected) <==>
              && item in items
              && MatchesSearch(item, f.searchTerm)
              && (f.statusFilter == AllValues || item.status == f.statusFilter)
              && (f.typeFilter == AllValues || item.messageType == f.typeFilter)
              && (selected.None? || Text.Includes(item.instanceName, selected.value.name))
    ensures |FilteredHistory(items, f, selected)| == |Seqs.IndicesWhere(Keep(f, selected), items)|
  {
    Seqs.FilterIsSubsequence(Keep(f, selected), items);
    Seqs.FilterLengthCountsIndices(Keep(f, selected), items);
  }

  /** With an empty search, both selects at "all" and no instance, every item is shown. */
  lemma DefaultFiltersKeepEverything(items: seq<HistoryItem>)
    ensures FilteredHistory(items, DefaultFilters, None) == items
  {
    forall i | 0 <= i < |items| ensures Kept(DefaultFilters, None, items[i]) {
      Text.IncludesEmpty(Text.Lower(items[i].listName));
    }
    Seqs.FilterKeepsAll(Keep(DefaultFilters, None), items);
  }

  /** Instance matching is containment: selecting "Instância 1" also keeps the items of
      "Instância 10". */
  lemma InstanceMatchIsContainment()
    ensures var item := HistoryItem("4", "Instância 10", "Leads", "Oi", "text", "sent", "", 1, 1, 0);
            var chosen := Instances.Instance("inst_001", "Instância 1", "", "connected");
            Kept(DefaultFilters, Some(chosen), item) && item.instanceName != chosen.name
  {
    var name := "Instância 10";
    assert Text.StartsWith(name, "Instância 1");
    Text.IncludesEmpty(Text.Lower("Leads"));
  }

  /** Switching a select from "all" to a specific value never adds items. */
  lemma NarrowingFiltersNeverAdds(items: seq<HistoryItem>, f: Filters,
                                  selected: Option<Instances.Instance>, value: string)
    ensures Seqs.IsSubsequence(FilteredHistory(items, f.(statusFilter := value), selected),
                               FilteredHistory(items, f.(statusFilter := AllValues), selected))
    ensures Seqs.IsSubsequence(FilteredHistory(items, f.(typeFilter := value), selected),
                               FilteredHistory(items, f.(typeFilter := AllValues), selected))
    ensures |FilteredHistory(items, f.(statusFilter := value), selected)|
              <= |FilteredHistory(items, f.(statusFilter := AllValues), selected)|
    ensures |FilteredHistory(items, f.(typeFilter := value), selected)|
              <= |FilteredHistory(items, f.(typeFilter := AllValues), selected)|
  {
    Seqs.FilterMonotone(Keep(f.(statusFilter := value), selected), Keep(f.(statusFilter := AllValues), selected), items);
    Seqs.FilterMonotone(Keep(f.(typeFilter := value), selected), Keep(f.(typeFilter := AllValues), selected), items);
    Seqs.SubsequenceLength(FilteredHistory(items, f.(statusFilter := value), selected),
                           FilteredHistory(items, f.(statusFilter := AllValues), selected));
    Seqs.SubsequenceLength(FilteredHistory(items, f.(typeFilter := value), selected),
                           FilteredHistory(items, f.(typeFilter := AllValues), selected));
  }

  /** The empty-state hint: "adjust the filters" exactly when a search is typed or a select
      is off "all"; the selected instance is not considered. */
  function EmptyStateHint(f: Filters): (r: string)
    ensures r == AdjustFiltersHint <==>
              f.searchTerm != "" || f.statusFilter != AllValues || f.typeFilter != AllValues
    ensures r != AdjustFiltersHint ==> r == NoCampaignsHint
  {
    if f.searchTerm != "" || f.statusFilter != AllValues || f.typeFilter != AllValues
    then AdjustFiltersHint else NoCampaignsHint
  }

  /** Without a selected instance, the "no campaigns yet" hint over an empty result means
      there is no history at all. */
  lemma NoCampaignsHintMeansNoHistory(items: seq<HistoryItem>, f: Filters)
    requires FilteredHistory(items, f, None) == []
    requires EmptyStateHint(f) == NoCampaignsHint
    ensures items == []
  {
    assert f == DefaultFilters;
    DefaultFiltersKeepEverything(items);
  }
}
