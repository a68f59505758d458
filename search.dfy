/** The buyer's breeder search: a filter over the fixed list of breeders by
    breed and by minimum trust score.  The location and price-range fields
    of the filter record are kept but never consulted. */
module Search {
  import opened Common

  /** A breeder as the search page reads it. */
  datatype Breeder = Breeder(name: string, breeds: seq<string>, trustScore: int, location: string)

  datatype SearchFilters = SearchFilters(breed: string, location: string, minTrustScore: int, priceRange: (int, int))

  /** The initial filters, which Reset Filters restores. */
  const DefaultFilters: SearchFilters := SearchFilters("all", "", 0, (0, 10000))

  /** The `filteredBreeders` predicate: a breeder is dropped when a breed is
      chosen that it does not list, or when a positive minimum is set and its
      score is below it. */
  predicate Keep(f: SearchFilters, b: Breeder)
  {
    && (f.breed == "all" || f.breed in b.breeds)
    && (f.minTrustScore <= 0 || b.trustScore >= f.minTrustScore)
  }

  function KeepFor(f: SearchFilters): Breeder -> bool
  {
    (b: Breeder) => Keep(f, b)
  }

  /** The breeders shown: the kept ones, in list order. */
  function FilteredBreeders(breeders: seq<Breeder>, f: SearchFilters): (r: seq<Breeder>)
    ensures forall b :: b in r <==> b in breeders && Keep(f, b)
  {
    Filter(breeders, KeepFor(f))
  }

  /** The result keeps the list order and filtering it again changes nothing. */
  lemma ResultIsStableSubsequence(breeders: seq<Breeder>, f: SearchFilters)
    ensures IsSubsequence(FilteredBreeders(breeders, f), breeders)
    ensures FilteredBreeders(FilteredBreeders(breeders, f), f) == FilteredBreeders(breeders, f)
  {
    FilterIsSubsequence(breeders, KeepFor(f));
    FilterIdempotent(breeders, KeepFor(f));
  }

  /** Breed "all" keeps every breeder as far as breed goes; any other breed
      keeps exactly those that list it. */
  lemma BreedCondition(f: SearchFilters, b: Breeder)
    requires f.minTrustScore <= 0
    ensures Keep(f, b) <==> f.breed == "all" || f.breed in b.breeds
  {
  }

  /** Raising the minimum trust score never adds a breeder. */
  lemma RaisingMinimumNeverAdds(breeders: seq<Breeder>, f: SearchFilters, m: int)
    requires f.minTrustScore <= m
    ensures IsSubsequence(FilteredBreeders(breeders, f.(minTrustScore := m)), FilteredBreeders(breeders, f))
  {
    FilterWeaker(breeders, KeepFor(f.(minTrustScore := m)), KeepFor(f));
  }

  /** Location and price range never change the result. */
  lemma LocationAndPriceIgnored(breeders: seq<Breeder>, f: SearchFilters, loc: string, range: (int, int))
    ensures FilteredBreeders(breeders, f.(location := loc, priceRange := range)) == FilteredBreeders(breeders, f)
  {
    FilterCongruent(breeders, KeepFor(f.(location := loc, priceRange := range)), KeepFor(f));
  }

  /** After Reset Filters every breeder is shown. */
  lemma ResetShowsAll(breeders: seq<Breeder>)
    ensures FilteredBreeders(breeders, DefaultFilters) == breeders
  {
    FilterKeepsAll(breeders, KeepFor(DefaultFilters));
  }
}
