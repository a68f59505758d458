/** The litter listing: the filter bar, the query it builds against the
    litters table, the Clear Filters control, the results count and the
    litter cards.  The table is given as the sequence the store returns for
    the unfiltered query, ordered by creation time, newest first; each
    filter the page adds narrows that sequence. */
module BrowseLitters {
  import opened Common
  import LitterDetail

  /** One row of the `litters` table as far as the listing uses it. */
  datatype Litter = Litter(
    id: string,
    breed: string,
    status: string,
    price_min: Option<int>,
    price_max: Option<int>,
    created_at: int,
    puppy_count: Option<int>,
    available_count: Option<int>,
    papers_verified: bool,
    health_checked: bool)

  /** The filter bar.  A price bound is None while its field is empty. */
  datatype Filters = Filters(breed: string, status: string, priceMin: Option<int>, priceMax: Option<int>)

  const DefaultFilters: Filters := Filters("All Breeds", "all", None, None)

  /** The order the store returns: `created_at` descending. */
  predicate NewerOrSame(a: Litter, b: Litter)
  {
    a.created_at >= b.created_at
  }

  predicate NewestFirst(rows: seq<Litter>)
  {
    SortedBy(rows, NewerOrSame)
  }

  // Each constraint the query can carry.
  function BreedIs(b: string): Litter -> bool { (l: Litter) => l.breed == b }
  function StatusIs(s: string): Litter -> bool { (l: Litter) => l.status == s }
  function MinPriceAtLeast(p: int): Litter -> bool
  {
    (l: Litter) => l.price_min.Some? && l.price_min.value >= p
  }
  function MaxPriceAtMost(p: int): Litter -> bool
  {
    (l: Litter) => l.price_max.Some? && l.price_max.value <= p
  }

  // The four query reassignments of `fetchLitters`, in the page's order.
  function WithBreed(q: seq<Litter>, f: Filters): seq<Litter>
  {
    if Truthy(f.breed) && f.breed != "All Breeds" then Filter(q, BreedIs(f.breed)) else q
  }

  function WithStatus(q: seq<Litter>, f: Filters): seq<Litter>
  {
    if Truthy(f.status) && f.status != "all" then Filter(q, StatusIs(f.status)) else q
  }

  function WithMinPrice(q: seq<Litter>, f: Filters): seq<Litter>
  {
    if f.priceMin.Some? then Filter(q, MinPriceAtLeast(f.priceMin.value)) else q
  }

  function WithMaxPrice(q: seq<Litter>, f: Filters): seq<Litter>
  {
    if f.priceMax.Some? then Filter(q, MaxPriceAtMost(f.priceMax.value)) else q
  }

  /** `fetchLitters`: the query starts as the whole ordered table and each
      active filter narrows it in turn. */
  function FetchLitters(rows: seq<Litter>, f: Filters): seq<Litter>
  {
    WithMaxPrice(WithMinPrice(WithStatus(WithBreed(rows, f), f), f), f)
  }

  predicate BreedOk(l: Litter, f: Filters)
  {
    !Truthy(f.breed) || f.breed == "All Breeds" || l.breed == f.breed
  }

  predicate StatusOk(l: Litter, f: Filters)
  {
    !Truthy(f.status) || f.status == "all" || l.status == f.status
  }

  predicate MinOk(l: Litter, f: Filters)
  {
    f.priceMin.None? || (l.price_min.Some? && l.price_min.value >= f.priceMin.value)
  }

  predicate MaxOk(l: Litter, f: Filters)
  {
    f.priceMax.None? || (l.price_max.Some? && l.price_max.value <= f.priceMax.value)
  }

  /** The reference meaning of the filters: the conjunction of the four
      conditions.  "All Breeds", "all" and empty fields impose nothing, and a
      litter without a stored price fails a bound on that price. */
  predicate Matches(l: Litter, f: Filters)
  {
    BreedOk(l, f) && StatusOk(l, f) && MinOk(l, f) && MaxOk(l, f)
  }

  // The conjunction of the first k conditions.
  function Upto0(f: Filters): Litter -> bool { (l: Litter) => true }
  function Upto1(f: Filters): Litter -> bool { (l: Litter) => BreedOk(l, f) }
  function Upto2(f: Filters): Litter -> bool { (l: Litter) => BreedOk(l, f) && StatusOk(l, f) }
  function Upto3(f: Filters): Litter -> bool { (l: Litter) => BreedOk(l, f) && StatusOk(l, f) && MinOk(l, f) }

  function MatchesFilters(f: Filters): Litter -> bool
  {
    (l: Litter) => Matches(l, f)
  }

  /** One filter step narrows by a predicate; folding it into the conjunction
      built so far gives the conjunction with that predicate. */
  lemma NarrowStep(s: seq<Litter>, acc: Litter -> bool, on: bool, p: Litter -> bool, q: Litter -> bool)
    requires forall l :: q(l) == (acc(l) && (!on || p(l)))
    ensures (if on then Filter(Filter(s, acc), p) else Filter(s, acc)) == Filter(s, q)
  {
    if on {
      FilterConjunction(s, acc, p);
      FilterCongruent(s, (x: Litter) => acc(x) && p(x), q);
    } else {
      FilterCongruent(s, acc, q);
    }
  }

  lemma BreedStage(rows: seq<Litter>, f: Filters)
    ensures WithBreed(rows, f) == Filter(rows, Upto1(f))
  {
    FilterKeepsAll(rows, Upto0(f));
    NarrowStep(rows, Upto0(f), Truthy(f.breed) && f.breed != "All Breeds", BreedIs(f.breed), Upto1(f));
  }

  lemma StatusStage(rows: seq<Litter>, f: Filters)
    ensures WithStatus(Filter(rows, Upto1(f)), f) == Filter(rows, Upto2(f))
  {
    NarrowStep(rows, Upto1(f), Truthy(f.status) && f.status != "all", StatusIs(f.status), Upto2(f));
  }

  lemma MinPriceStage(rows: seq<Litter>, f: Filters)
    ensures WithMinPrice(Filter(rows, Upto2(f)), f) == Filter(rows, Upto3(f))
  {
    var p := if f.priceMin.Some? then MinPriceAtLeast(f.priceMin.value) else Upto0(f);
    NarrowStep(rows, Upto2(f), f.priceMin.Some?, p, Upto3(f));
  }

  lemma MaxPriceStage(rows: seq<Litter>, f: Filters)
    ensures WithMaxPrice(Filter(rows, Upto3(f)), f) == Filter(rows, MatchesFilters(f))
  {
    var p := if f.priceMax.Some? then MaxPriceAtMost(f.priceMax.value) else Upto0(f);
    NarrowStep(rows, Upto3(f), f.priceMax.Some?, p, MatchesFilters(f));
  }

  /** The chain of narrowing steps is one filter by the conjunction. */
  lemma FetchIsConjunction(rows: seq<Litter>, f: Filters)
    ensures FetchLitters(rows, f) == Filter(rows, MatchesFilters(f))
  {
    BreedStage(rows, f);
    StatusStage(rows, f);
    MinPriceStage(rows, f);
    MaxPriceStage(rows, f);
  }

  /** What the listing shows: exactly the matching litters, in the store's
      order, as a subsequence of the table and still newest first. */
  lemma FetchMeaning(rows: seq<Litter>, f: Filters)
    requires NewestFirst(rows)
    ensures forall l :: l in FetchLitters(rows, f) <==> l in rows && Matches(l, f)
    ensures IsSubsequence(FetchLitters(rows, f), rows)
    ensures NewestFirst(FetchLitters(rows, f))
  {
    FetchIsConjunction(rows, f);
    FilterIsSubsequence(rows, MatchesFilters(f));
    FilterSorted(rows, MatchesFilters(f), NewerOrSame);
  }

  /** Setting or raising the minimum price never brings a litter back. */
  lemma MorePriceBoundNeverAdds(rows: seq<Litter>, f: Filters, lo: int)
    requires f.priceMin.None? || f.priceMin.value <= lo
    ensures IsSubsequence(FetchLitters(rows, f.(priceMin := Some(lo))), FetchLitters(rows, f))
  {
    var g := f.(priceMin := Some(lo));
    FetchIsConjunction(rows, f);
    FetchIsConjunction(rows, g);
    FilterWeaker(rows, MatchesFilters(g), MatchesFilters(f));
  }

  // ---------------------------------------------------------------------
  // Clear Filters

  /** The condition on the filters under which the empty-state panel shows
      the "adjust your filters" hint and the Clear Filters button: the breed
      or the status differs from its default. */
  predicate ShowClear(f: Filters)
  {
    f.breed != "All Breeds" || f.status != "all"
  }

  /** The button itself lives in the empty-state panel, which replaces the
      grid only when the listing is empty. */
  predicate ClearOffered(f: Filters, shown: seq<Litter>)
  {
    shown == [] && ShowClear(f)
  }

  /** Clearing gives the defaults, which show every litter and never offer
      the button again. */
  lemma ClearShowsEverything(rows: seq<Litter>)
    ensures !ShowClear(DefaultFilters)
    ensures FetchLitters(rows, DefaultFilters) == rows
    ensures !ClearOffered(DefaultFilters, FetchLitters(rows, DefaultFilters))
  {
  }

  /** The button is offered exactly when the breed or status filter is set
      and nothing matches. */
  lemma ClearOfferedMeaning(rows: seq<Litter>, f: Filters)
    ensures ClearOffered(f, FetchLitters(rows, f)) <==>
      ShowClear(f) && forall l :: l in rows ==> !Matches(l, f)
  {
    var shown := FetchLitters(rows, f);
    FetchIsConjunction(rows, f);
    if shown != [] {
      assert shown[0] in shown;
    }
  }

  /** Price bounds never decide whether Clear Filters is offered, so a
      listing narrowed only by price offers no Clear Filters button. */
  lemma ClearIgnoresPrices(f: Filters, lo: Option<int>, hi: Option<int>)
    ensures ShowClear(f.(priceMin := lo, priceMax := hi)) == ShowClear(f)
    ensures !ShowClear(DefaultFilters.(priceMin := lo, priceMax := hi))
  {
  }

  // ---------------------------------------------------------------------
  // Results line and cards

  /** "Showing N litter(s)", shown only when there is at least one result;
      the number after "Showing " reads back as the count. */
  function ResultsLine(n: nat): (r: Option<string>)
    ensures r.Some? <==> n > 0
    ensures r.Some? ==> |r.value| > 8 && r.value[..8] == "Showing " && ParseInt(r.value[8..]) == Some(n)
    ensures r.Some? ==> (r.value[|r.value| - 1] == 's' <==> n != 1)
  {
    if n == 0 then None
    else
      var rest := " litter" + (if n != 1 then "s" else "");
      ParseIntReadsPrefix(n, rest);
      var line := "Showing " + IntToString(n) + rest;
      assert line[8..] == IntToString(n) + rest;
      Some(line)
  }

  /** The card's status pill classes (`getStatusBadge` of this page). */
  const StatusClasses: map<string, string> := map[
    "upcoming" := "bg-yellow-500/20 text-yellow-400 border-yellow-500/30",
    "available" := "bg-[#2ECC71]/20 text-[#2ECC71] border-[#2ECC71]/30",
    "sold" := "bg-slate-500/20 text-slate-400 border-slate-500/30"
  ]

  function StatusClass(status: string): (c: string)
    ensures status in StatusClasses ==> c == StatusClasses[status]
    ensures status !in StatusClasses ==> c == StatusClasses["sold"]
  {
    if status in StatusClasses then StatusClasses[status] else StatusClasses["sold"]
  }

  datatype Card = Card(
    link: string,
    breed: string,
    puppies: string,
    available: string,
    statusClass: string,
    price: string,
    badges: seq<string>)

  /** One litter card: the breed, `puppy_count || '?'`, `available_count || 0`
      (the same text as the detail page's tile), the
      status pill, the shared price label and the flag badges. */
  function RenderCard(l: Litter, fmt: int -> string): (c: Card)
    ensures c.link == "/litter/" + l.id
    ensures c.breed == l.breed
    ensures c.puppies == "?" <==> l.puppy_count.None? || l.puppy_count.value == 0
    ensures c.puppies != "?" ==> l.puppy_count.Some? && ParseInt(c.puppies) == Some(l.puppy_count.value)
    ensures ParseInt(c.available) == Some(match l.available_count case None => 0 case Some(n) => n)
    ensures c.price == LitterDetail.FormatPrice(l.price_min, l.price_max, fmt)
    ensures c.statusClass == StatusClass(l.status)
    ensures "Papers Verified" in c.badges <==> l.papers_verified
    ensures "Health Checked" in c.badges <==> l.health_checked
  {
    Card(
      "/litter/" + l.id,
      l.breed,
      match l.puppy_count
      case None => "?"
      case Some(n) => if n == 0 then "?" else ParseIntRoundTrip(n); IntToString(n),
      LitterDetail.AvailableText(l.available_count),
      StatusClass(l.status),
      LitterDetail.FormatPrice(l.price_min, l.price_max, fmt),
      LitterDetail.Badges(l.papers_verified, l.health_checked))
  }
}
