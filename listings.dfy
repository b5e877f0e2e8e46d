/**
 * The "my listings" page: the search over the contact lists, the status badge,
 * the last-used line and the empty-state text.
 */
module Listings {
  import opened Wrappers
  import Seqs
  import Text

  datatype Listing = Listing(
    id: string,
    name: string,
    totalContacts: int,
    uploadedAt: string,
    status: string,
    lastUsed: Option<string>)

  const ActiveLabel: string := "Ativa"
  const ArchivedLabel: string := "Arquivada"
  const AdjustSearchText: string := "Tente ajustar sua busca ou criar uma nova listagem."
  const FirstUploadText: string := "Comece fazendo upload da sua primeira lista de contatos."

  /** The lowercased search occurs in the lowercased name. */
  predicate NameMatches(listing: Listing, searchTerm: string) {
    Text.Includes(Text.Lower(listing.name), Text.Lower(searchTerm))
  }

  function Matching(searchTerm: string): Listing -> bool {
    (l: Listing) => NameMatches(l, searchTerm)
  }

  /** `filteredListings` */
  function FilteredListings(listings: seq<Listing>, searchTerm: string): seq<Listing> {
    Seqs.Filter(Matching(searchTerm), listings)
  }

  /** The result keeps the listings' order, and a listing is in it exactly when its
      lowercased name includes the lowercased search. */
  lemma FilteredListingsKeepsNameMatches(listings: seq<Listing>, searchTerm: string)
    ensures Seqs.IsSubsequence(FilteredListings(listings, searchTerm), listings)
    ensures forall l :: l in FilteredListings(listings, searchTerm) <==>
              l in listings && Text.Includes(Text.Lower(l.name), Text.Lower(searchTerm))
    ensures |FilteredListings(listings, searchTerm)| == |Seqs.IndicesWhere(Matching(searchTerm), listings)|
  {
    Seqs.FilterIsSubsequence(Matching(searchTerm), listings);
    Seqs.FilterLengthCountsIndices(Matching(searchTerm), listings);
  }

  /** An empty search shows every listing. */
  lemma EmptySearchKeepsAll(listings: seq<Listing>)
    ensures FilteredListings(listings, "") == listings
  {
    forall i | 0 <= i < |listings| ensures NameMatches(listings[i], "") {
      Text.IncludesEmpty(Text.Lower(listings[i].name));
    }
    Seqs.FilterKeepsAll(Matching(""), listings);
  }

  /** The contact count is never searched, although the placeholder offers it: the list
      with 150 contacts is not found by "150". */
  lemma ContactCountIsNotSearched()
    ensures var l := Listing("1", "Leads", 150, "2024-01-15", "active", None);
            FilteredListings([l], "150") == []
  {
    var l := Listing("1", "Leads", 150, "2024-01-15", "active", None);
    assert !NameMatches(l, "150") by {
      var lower := Text.Lower("Leads");
      assert Text.Lower("150") == "150";
      assert '1' !in lower by {
        assert lower == [Text.LowerChar('L'), 'e', 'a', 'd', 's'];
      }
      Text.NotIncludedWithoutFirstChar(lower, "150");
    }
    assert [l][1..] == [];
  }

  /** What a listing card shows besides its name and counts. */
  datatype CardView = CardView(statusLabel: string, showsLastUsed: bool)

  /** The badge reads "Ativa" only for status "active" and "Arquivada" for every other
      status; the last-used line appears only for a non-empty `lastUsed`. */
  function Card(l: Listing): (r: CardView)
    ensures r.statusLabel == ActiveLabel <==> l.status == "active"
    ensures r.statusLabel != ActiveLabel ==> r.statusLabel == ArchivedLabel
    ensures r.showsLastUsed <==> l.lastUsed.Some? && l.lastUsed.value != ""
  {
    CardView(if l.status == "active" then ActiveLabel else ArchivedLabel,
             l.lastUsed.Some? && l.lastUsed.value != "")
  }

  /** The text shown when no listing is left. */
  function EmptyStateText(searchTerm: string): (r: string)
    ensures r == AdjustSearchText <==> searchTerm != ""
    ensures r != AdjustSearchText ==> r == FirstUploadText
  {
    if searchTerm != "" then AdjustSearchText else FirstUploadText
  }

  /** The empty-state text depends only on whether a search is typed. */
  lemma EmptyStateTextDependsOnlyOnSearchPresence(a: string, b: string)
    requires (a == "") == (b == "")
    ensures EmptyStateText(a) == EmptyStateText(b)
  {
  }

  /** The "upload your first list" text over an empty result means there are no lists. */
  lemma FirstUploadTextMeansNoListings(listings: seq<Listing>, searchTerm: string)
    requires FilteredListings(listings, searchTerm) == []
    requires EmptyStateText(searchTerm) == FirstUploadText
    ensures listings == []
  {
    EmptySearchKeepsAll(listings);
  }
}
