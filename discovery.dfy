/** The discovery screen's query pipeline: a rating filter, a
    case-insensitive text search and one of four sort orders over the dish
    list, plus the view state that holds the query and its result. */
module Discovery {
  import opened Wrappers
  import opened Dishes
  import opened Seqs
  import opened Sorting
  import opened Text
  import opened DishQueries
  import opened ViewModel

  // ------------------------------------------------------------ sort options

  datatype SortOption = Newest | Oldest | HighestRated | Trending

  /** The enum's `rawValue`, which is also its `id` and its label. */
  function OptionRaw(o: SortOption): string
  {
    match o
    case Newest => "Newest"
    case Oldest => "Oldest"
    case HighestRated => "Highest Rated"
    case Trending => "Trending"
  }

  /** The labels tell the options apart. */
  lemma OptionRawInjective(a: SortOption, b: SortOption)
    ensures OptionRaw(a) == OptionRaw(b) <==> a == b
  {
  }

  // ---------------------------------------------------------- trending score

  const RecencyWeight: real := 0.7
  const RatingWeight: real := 0.3

  /** Whole days from the dish's date (or `Date.distantPast`) to today. */
  function DaysSince(d: Dish, today: int): int
  {
    today - SortDay(d)
  }

  function AtLeastOne(days: int): int
  {
    if days >= 1 then days else 1
  }

  /** `0.7 * (1 / max(days, 1)) + 0.3 * averageRating`. */
  function TrendingScore(days: int, avg: real): real
  {
    RecencyWeight * (1.0 / AtLeastOne(days) as real) + RatingWeight * avg
  }

  /** At a fixed rating, an older dish never scores higher, and from one day
      on it scores strictly lower. */
  lemma TrendingFallsWithAge(days1: int, days2: int, avg: real)
    requires days1 <= days2
    ensures TrendingScore(days1, avg) >= TrendingScore(days2, avg)
    ensures 1 <= days1 < days2 ==> TrendingScore(days1, avg) > TrendingScore(days2, avg)
  {
    ReciprocalFalls(AtLeastOne(days1) as real, AtLeastOne(days2) as real);
  }

  lemma ReciprocalFalls(a: real, b: real)
    requires 0.0 < a <= b
    ensures 1.0 / a >= 1.0 / b
    ensures a < b ==> 1.0 / a > 1.0 / b
  {
    var x, y := 1.0 / a, 1.0 / b;
    assert x * a == 1.0 && y * b == 1.0;
    assert y > 0.0;
    assert y * a <= y * b;
    if a < b {
      assert y * a < y * b;
    }
  }

  /** At a fixed age, a better-rated dish scores strictly higher. */
  lemma TrendingRisesWithRating(days: int, avg1: real, avg2: real)
    requires avg1 < avg2
    ensures TrendingScore(days, avg1) < TrendingScore(days, avg2)
  {
  }

  /** A dish one day old or less (a future date included) scores the full
      recency weight; any dish scores more than its rating term and at most
      the full recency weight above it. */
  lemma TrendingBounds(days: int, avg: real)
    ensures days <= 1 ==> TrendingScore(days, avg) == RecencyWeight + RatingWeight * avg
    ensures RatingWeight * avg < TrendingScore(days, avg) <= RecencyWeight + RatingWeight * avg
  {
    var a := AtLeastOne(days) as real;
    assert 0.0 < 1.0 / a <= 1.0 by {
      assert (1.0 / a) * a == 1.0;
    }
  }

  // ------------------------------------------------------------------ sorting

  /** The key each option sorts by, largest first: Oldest sorts by the
      negated day, so the earliest date comes first. */
  function SortKey(option: SortOption, today: int): Dish -> real
  {
    match option
    case Newest => (d: Dish) => SortDay(d) as real
    case Oldest => (d: Dish) => -(SortDay(d) as real)
    case HighestRated => (d: Dish) => d.averageRating
    case Trending => (d: Dish) => TrendingScore(DaysSince(d, today), d.averageRating)
  }

  /** `sortDishes(_:by:)`: a reordering of the dishes, ordered as the option
      says: newest or oldest date first (a missing date counting as
      `Date.distantPast`), best average first, or highest trending score
      first. Ties come in no promised order. */
  function SortDishes(dishes: seq<Dish>, option: SortOption, today: int): (r: seq<Dish>)
    ensures multiset(r) == multiset(dishes)
    ensures option == Newest ==> forall i, j :: 0 <= i < j < |r| ==> SortDay(r[i]) >= SortDay(r[j])
    ensures option == Oldest ==> forall i, j :: 0 <= i < j < |r| ==> SortDay(r[i]) <= SortDay(r[j])
    ensures option == HighestRated ==>
              forall i, j :: 0 <= i < j < |r| ==> r[i].averageRating >= r[j].averageRating
    ensures option == Trending ==>
              forall i, j :: 0 <= i < j < |r| ==>
                TrendingScore(DaysSince(r[i], today), r[i].averageRating) >=
                TrendingScore(DaysSince(r[j], today), r[j].averageRating)
  {
    var r := SortDesc(dishes, SortKey(option, today));
    assert forall i, j :: 0 <= i < j < |r| ==> SortKey(option, today)(r[i]) >= SortKey(option, today)(r[j]);
    r
  }

  function Reverse<T>(s: seq<T>): seq<T>
  {
    seq(|s|, i requires 0 <= i < |s| => s[|s| - 1 - i])
  }

  /** Reversing keeps every element, as often as it occurs. */
  lemma {:induction false} ReverseMultiset<T>(s: seq<T>)
    ensures multiset(Reverse(s)) == multiset(s)
  {
    if s != [] {
      ReverseMultiset(s[1..]);
      assert Reverse(s) == Reverse(s[1..]) + [s[0]];
      assert s == [s[0]] + s[1..];
    }
  }

  /** No two elements of `s` share a key. */
  ghost predicate KeysDistinct<T>(s: seq<T>, key: T -> int)
  {
    forall i, j :: 0 <= i < j < |s| ==> key(s[i]) != key(s[j])
  }

  /** Keys strictly fall from left to right. */
  ghost predicate StrictlyFalling<T>(s: seq<T>, key: T -> int)
  {
    forall i, j :: 0 <= i < j < |s| ==> key(s[i]) > key(s[j])
  }

  /** On dishes with distinct dates, the newest-first order is exactly the
      oldest-first order reversed. */
  lemma NewestReversesOldest(dishes: seq<Dish>, today: int)
    requires KeysDistinct(dishes, SortDay)
    ensures SortDishes(dishes, Newest, today) == Reverse(SortDishes(dishes, Oldest, today))
  {
    var newest := SortDishes(dishes, Newest, today);
    var oldest := SortDishes(dishes, Oldest, today);
    PermutationKeysDistinct(dishes, newest, SortDay);
    PermutationKeysDistinct(dishes, oldest, SortDay);
    assert StrictlyFalling(newest, SortDay);
    ReversedRisingFalls(oldest, SortDay);
    ReverseMultiset(oldest);
    StrictOrderUnique(newest, Reverse(oldest), SortDay);
  }

  /** A sequence whose keys rise, with no key repeated, falls strictly once
      reversed. */
  lemma ReversedRisingFalls<T>(s: seq<T>, key: T -> int)
    requires KeysDistinct(s, key)
    requires forall i, j :: 0 <= i < j < |s| ==> key(s[i]) <= key(s[j])
    ensures StrictlyFalling(Reverse(s), key)
  {
    var r := Reverse(s);
    var n := |s|;
    forall i, j | 0 <= i < j < |r| ensures key(r[i]) > key(r[j]) {
      assert r[i] == s[n - 1 - i] && r[j] == s[n - 1 - j];
      assert key(s[n - 1 - j]) <= key(s[n - 1 - i]);
      assert key(s[n - 1 - j]) != key(s[n - 1 - i]);
    }
  }

  /** Reordering keeps keys distinct. */
  lemma PermutationKeysDistinct<T>(a: seq<T>, b: seq<T>, key: T -> int)
    requires KeysDistinct(a, key) && multiset(a) == multiset(b)
    ensures KeysDistinct(b, key)
  {
    DistinctPermutation(a, b);
    forall i, j | 0 <= i < j < |b| ensures key(b[i]) != key(b[j]) {
      assert b[i] in multiset(a) && b[j] in multiset(a);
      var p :| 0 <= p < |a| && a[p] == b[i];
      var q :| 0 <= q < |a| && a[q] == b[j];
      if p < q {
        assert key(a[p]) != key(a[q]);
      } else {
        assert key(a[q]) != key(a[p]);
      }
    }
  }

  /** In a strictly falling sequence the head has the largest key. */
  lemma HeadIsMax<T>(s: seq<T>, key: T -> int)
    requires s != [] && StrictlyFalling(s, key)
    ensures forall y :: y in s[1..] ==> key(y) < key(s[0])
  {
    forall y | y in s[1..] ensures key(y) < key(s[0]) {
      var k :| 0 <= k < |s[1..]| && s[1..][k] == y;
      assert s[k + 1] == y;
    }
  }

  /** Two orderings of the same elements whose keys both fall strictly are
      the same. */
  lemma {:induction false} StrictOrderUnique<T>(a: seq<T>, b: seq<T>, key: T -> int)
    requires multiset(a) == multiset(b)
    requires StrictlyFalling(a, key) && StrictlyFalling(b, key)
    ensures a == b
  {
    assert |multiset(a)| == |a| && |multiset(b)| == |b|;
    if a != [] {
      SameHead(a, b, key);
      SameTail(a, b);
      StrictOrderUnique(a[1..], b[1..], key);
    }
  }

  /** Both orderings start with the element of largest key. */
  lemma SameHead<T>(a: seq<T>, b: seq<T>, key: T -> int)
    requires a != [] && b != [] && multiset(a) == multiset(b)
    requires StrictlyFalling(a, key) && StrictlyFalling(b, key)
    ensures a[0] == b[0]
  {
    HeadIsMax(a, key);
    HeadIsMax(b, key);
    assert a[0] in multiset(b) && b[0] in multiset(a);
    assert a == [a[0]] + a[1..] && b == [b[0]] + b[1..];
    assert key(b[0]) <= key(a[0]);
  }

  lemma SameTail<T>(a: seq<T>, b: seq<T>)
    requires a != [] && b != [] && a[0] == b[0] && multiset(a) == multiset(b)
    ensures multiset(a[1..]) == multiset(b[1..])
  {
    assert a == [a[0]] + a[1..] && b == [b[0]] + b[1..];
    assert multiset(a) == multiset{a[0]} + multiset(a[1..]);
    assert multiset(b) == multiset{b[0]} + multiset(b[1..]);
    assert multiset(a[1..]) == multiset(a) - multiset{a[0]};
    assert multiset(b[1..]) == multiset(b) - multiset{b[0]};
  }

  // ---------------------------------------------------------------- filtering

  /** The rating stage: dishes rated at least `filterRating`, only when the
      threshold is positive. */
  function RatingFiltered(dishes: seq<Dish>, filterRating: real): (r: seq<Dish>)
    ensures filterRating <= 0.0 ==> r == dishes
    ensures filterRating > 0.0 ==>
              forall d :: d in r <==> d in dishes && d.averageRating >= filterRating
    ensures IsSubseq(r, dishes)
  {
    if filterRating > 0.0 then
      FilterIsSubseq(dishes, RatedAtLeast(filterRating));
      Filter(dishes, RatedAtLeast(filterRating))
    else
      SubseqRefl(dishes);
      dishes
  }

  /** The dish's name or its restaurant's name, lower-cased, contains the
      lower-cased search text; a missing name is the empty string. */
  predicate MatchesSearch(d: Dish, text: string)
  {
    Contains(Lower(OrEmpty(d.name)), Lower(text)) ||
    Contains(Lower(OrEmpty(d.restaurant)), Lower(text))
  }

  function SearchFilter(text: string): Dish -> bool
  {
    (d: Dish) => MatchesSearch(d, text)
  }

  /** The search stage: empty text keeps everything. */
  function SearchFiltered(dishes: seq<Dish>, text: string): (r: seq<Dish>)
    ensures text == [] ==> r == dishes
    ensures text != [] ==> forall d :: d in r <==> d in dishes && MatchesSearch(d, text)
    ensures IsSubseq(r, dishes)
  {
    if text != [] then
      FilterIsSubseq(dishes, SearchFilter(text));
      Filter(dishes, SearchFilter(text))
    else
      SubseqRefl(dishes);
      dishes
  }

  /** Searching ignores the case of the search text. */
  lemma SearchIgnoresCase(d: Dish, text: string)
    ensures MatchesSearch(d, Lower(text)) == MatchesSearch(d, text)
  {
    LowerIdempotent(text);
  }

  /** A dish without a name and without a restaurant matches no non-empty
      search: the missing names are not wildcards. */
  lemma NamelessNeverMatches(d: Dish, text: string)
    requires d.name.None? && d.restaurant.None? && text != []
    ensures !MatchesSearch(d, text)
  {
    assert |Lower(text)| > 0;
    ContainsOccurs(Lower(""), Lower(text));
  }

  /** A dish whose name is the search text, in any case, matches. */
  lemma NameMatches(d: Dish, text: string)
    requires d.name == Some(text)
    ensures MatchesSearch(d, text)
  {
    assert OccursAt(Lower(text), Lower(text), 0);
    ContainsOccurs(Lower(text), Lower(text));
  }

  /** The list `updateFilters()` shows: rating filter, then search, then
      sort. */
  function FilteredView(dishes: seq<Dish>, text: string, option: SortOption,
                        filterRating: real, today: int): seq<Dish>
  {
    SortDishes(SearchFiltered(RatingFiltered(dishes, filterRating), text), option, today)
  }

  /** A dish is shown exactly when it passes both enabled filters; sorting
      neither adds nor drops dishes, so the view is a reordering of the
      filtered list and no longer than the full one. */
  lemma FilteredViewContents(dishes: seq<Dish>, text: string, option: SortOption,
                             filterRating: real, today: int)
    ensures var v := FilteredView(dishes, text, option, filterRating, today);
            && multiset(v) == multiset(SearchFiltered(RatingFiltered(dishes, filterRating), text))
            && |v| <= |dishes|
            && forall d :: d in v <==>
                 d in dishes && (filterRating > 0.0 ==> d.averageRating >= filterRating) &&
                 (text != [] ==> MatchesSearch(d, text))
  {
    var rated := RatingFiltered(dishes, filterRating);
    var found := SearchFiltered(rated, text);
    var v := FilteredView(dishes, text, option, filterRating, today);
    PermutationSameElements(found, v);
    SubseqLength(found, rated);
    SubseqLength(rated, dishes);
  }

  /** The store of two dishes, one rated 4.2 from today and one rated 2.0
      from 400 days ago: a 3.0 threshold keeps only the first, and the
      highest-rated order puts it first. */
  lemma TwoDishScenario(a: Dish, b: Dish, today: int)
    requires a.averageRating == 4.2 && a.dateAdded == Some(today)
    requires b.averageRating == 2.0 && b.dateAdded == Some(today - 400)
    ensures FilteredView([a, b], "", Newest, 3.0, today) == [a]
    ensures FilteredView([a, b], "", HighestRated, 0.0, today) == [a, b]
  {
    assert [a, b][1..] == [b];
    assert RatingFiltered([a, b], 3.0) == [a] by {
      assert Filter([b], RatedAtLeast(3.0)) == [];
    }
    assert SortDesc([a], SortKey(Newest, today)) == [a];
    assert SortDesc([b], SortKey(HighestRated, today)) == [b];
  }

  // ---------------------------------------------------------------- the state

  /** `DiscoveryViewState`: the query, the attached dish view model (a weak
      reference, so possibly absent) and the two lists it shows. */
  class DiscoveryViewState {
    var searchText: string
    var sortOption: SortOption
    var filterRating: real
    var dishViewModel: DishViewModel?
    var throwbacks: seq<Dish>
    var filteredDishes: seq<Dish>
    /** Whether `setupBindings()` has subscribed `updateFilters()` to changes
      of the query; only `setDishViewModel(_:)` does so. */
    var bindingsInstalled: bool

    constructor ()
      ensures searchText == "" && sortOption == Newest && filterRating == 0.0
      ensures dishViewModel == null && throwbacks == [] && filteredDishes == []
      ensures !bindingsInstalled
    {
      searchText := "";
      sortOption := Newest;
      filterRating := 0.0;
      dishViewModel := null;
      throwbacks := [];
      filteredDishes := [];
      bindingsInstalled := false;
    }

    /** `setDishViewModel(_:)`: attach the model and show its whole list,
      unfiltered and unsorted, with its throwbacks, then install the query
      bindings. */
    method SetDishViewModel(vm: DishViewModel, today: int)
      modifies this`dishViewModel, this`throwbacks, this`filteredDishes, this`bindingsInstalled
      ensures dishViewModel == vm
      ensures throwbacks == Throwbacks(vm.dishes, ThrowbackWindow, today)
      ensures filteredDishes == vm.dishes
      ensures bindingsInstalled
    {
      dishViewModel := vm;
      throwbacks := Throwbacks(vm.dishes, ThrowbackWindow, today);
      filteredDishes := vm.dishes;
      bindingsInstalled := true;
    }

    /** The screen's `onAppear`, after the model's own re-fetch: the model is
      assigned directly and the filters run once; no binding is installed. */
    method Appear(vm: DishViewModel, today: int)
      modifies this`dishViewModel, this`throwbacks, this`filteredDishes
      ensures dishViewModel == vm
      ensures filteredDishes == FilteredView(vm.dishes, searchText, sortOption, filterRating, today)
      ensures throwbacks == Throwbacks(vm.dishes, ThrowbackWindow, today)
    {
      dishViewModel := vm;
      UpdateFilters(today);
    }

    /** `updateFilters()`: nothing happens without a model; otherwise the
      shown list is recomputed from the query, and the throwbacks from the
      model's whole list, not the filtered one. */
    method UpdateFilters(today: int)
      modifies this`filteredDishes, this`throwbacks
      ensures dishViewModel == null ==> filteredDishes == old(filteredDishes) && throwbacks == old(throwbacks)
      ensures dishViewModel != null ==>
                && filteredDishes == FilteredView(dishViewModel.dishes, searchText, sortOption, filterRating, today)
                && throwbacks == Throwbacks(dishViewModel.dishes, ThrowbackWindow, today)
    {
      if dishViewModel != null {
        Recompute(dishViewModel.dishes, today);
      }
    }

    /** The body of `updateFilters()` once the model's list is at hand. */
    method Recompute(dishes: seq<Dish>, today: int)
      modifies this`filteredDishes, this`throwbacks
      ensures filteredDishes == FilteredView(dishes, searchText, sortOption, filterRating, today)
      ensures throwbacks == Throwbacks(dishes, ThrowbackWindow, today)
    {
      filteredDishes := FilteredView(dishes, searchText, sortOption, filterRating, today);
      throwbacks := Throwbacks(dishes, ThrowbackWindow, today);
    }

    /** A change of query through the search field, the sort menu or the
      rating buttons: the three parameters are stored, and the filters run
      only when the bindings are installed (the debounce fires once they
      settle). Without the bindings the shown list stays as it was. */
    method SetQuery(text: string, option: SortOption, rating: real, today: int)
      modifies this`searchText, this`sortOption, this`filterRating, this`filteredDishes, this`throwbacks
      ensures searchText == text && sortOption == option && filterRating == rating
      ensures (!bindingsInstalled || dishViewModel == null) ==>
                filteredDishes == old(filteredDishes) && throwbacks == old(throwbacks)
      ensures bindingsInstalled && dishViewModel != null ==>
                && filteredDishes == FilteredView(dishViewModel.dishes, text, option, rating, today)
                && throwbacks == Throwbacks(dishViewModel.dishes, ThrowbackWindow, today)
    {
      searchText := text;
      sortOption := option;
      filterRating := rating;
      if bindingsInstalled {
        UpdateFilters(today);
      }
    }
  }

  /** The screen as it is wired: a fresh state appears with the model and
    the user then types `text`. The shown list is the one filtered on
    appearance, newest first, and holds every dish of the model whatever
    was typed. */
  method TypeAfterAppear(vm: DishViewModel, text: string, today: int) returns (shown: seq<Dish>)
    ensures shown == FilteredView(vm.dishes, "", Newest, 0.0, today)
    ensures multiset(shown) == multiset(vm.dishes)
  {
    ghost var dishes := vm.dishes;
    var state := new DiscoveryViewState();
    state.Appear(vm, today);
    assert !state.bindingsInstalled;
    ghost var before := state.filteredDishes;
    state.SetQuery(text, Newest, 0.0, today);
    assert state.filteredDishes == before;
    shown := state.filteredDishes;
    DefaultViewKeepsAll(dishes, today);
  }

  /** With the default query the shown list is a reordering of the whole
    list. */
  lemma DefaultViewKeepsAll(dishes: seq<Dish>, today: int)
    ensures multiset(FilteredView(dishes, "", Newest, 0.0, today)) == multiset(dishes)
  {
    FilteredViewContents(dishes, "", Newest, 0.0, today);
  }
}
