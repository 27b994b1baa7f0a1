/** The catalog page's filter (src/pages/Bikes.tsx): a case-insensitive
    search over name and description, combined with a category choice. */
module BikeSearch {
  import opened Types
  import opened Text
  import Seqs
  import Catalog

  /** The term occurs, ignoring case, in the bike's name or description. */
  predicate MatchesSearch(b: Bike, term: string) {
    Contains(Lower(b.name), Lower(term)) || Contains(Lower(b.description), Lower(term))
  }

  /** "all" imposes nothing; any other category must match exactly. */
  predicate MatchesCategory(b: Bike, category: string) {
    category == "all" || b.category == category
  }

  function Keeps(term: string, category: string): Bike -> bool {
    (b: Bike) => MatchesSearch(b, term) && MatchesCategory(b, category)
  }

  /** The `useEffect` filter over a list of bikes. */
  function FilterBikes(bikes: seq<Bike>, term: string, category: string): (r: seq<Bike>)
    ensures forall b :: b in r <==> b in bikes && MatchesSearch(b, term) && MatchesCategory(b, category)
  {
    Seqs.Filter(bikes, Keeps(term, category))
  }

  /** The page's state: the search box and the selected category. */
  datatype FilterState = FilterState(term: string, category: string)

  /** The initial state, and the state "Reset Filters" returns to. */
  const Reset := FilterState("", "all")

  /** `filteredBikes` for a state. */
  function Visible(s: FilterState): seq<Bike> {
    FilterBikes(Catalog.Bikes, s.term, s.category)
  }

  /** The result keeps the catalog's order. */
  lemma FilterBikesIsSubsequence(bikes: seq<Bike>, term: string, category: string)
    ensures Seqs.SubsequenceOf(FilterBikes(bikes, term, category), bikes)
  {
    Seqs.FilterIsSubsequence(bikes, Keeps(term, category));
  }

  /** Search is case-insensitive: terms that lower-case alike select alike. */
  lemma {:induction false} CaseInsensitive(bikes: seq<Bike>, t1: string, t2: string, category: string)
    requires Lower(t1) == Lower(t2)
    ensures FilterBikes(bikes, t1, category) == FilterBikes(bikes, t2, category)
  {
    Seqs.FilterExtensional(bikes, Keeps(t1, category), Keeps(t2, category));
  }

  /** An empty search term matches every bike. */
  lemma EmptyTermMatchesAll(b: Bike)
    ensures MatchesSearch(b, "")
  {
    ContainsEmpty(Lower(b.name));
  }

  /** With category "all", only the search term restricts the result. */
  lemma {:induction false} AllCategoryOnlySearches(bikes: seq<Bike>, term: string)
    ensures FilterBikes(bikes, term, "all") == Seqs.Filter(bikes, (b: Bike) => MatchesSearch(b, term))
  {
    Seqs.FilterExtensional(bikes, Keeps(term, "all"), (b: Bike) => MatchesSearch(b, term));
  }

  /** After a reset the whole catalog is shown, in order. */
  lemma {:induction false} ResetShowsEverything()
    ensures Visible(Reset) == Catalog.Bikes
  {
    forall i | 0 <= i < |Catalog.Bikes|
      ensures Keeps("", "all")(Catalog.Bikes[i])
    {
      EmptyTermMatchesAll(Catalog.Bikes[i]);
    }
  }
}
