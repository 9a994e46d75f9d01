/** The read-only queries of the dish view model: throwback selection,
    the highly-rated list, and the month grouping of the memory lane with
    its descending key order. */
module DishQueries {
  import opened Wrappers
  import opened Dishes
  import opened Seqs
  import opened Sorting

  /** Swift's `%` on `Int`: the remainder takes the sign of the dividend and
      is smaller in magnitude than the divisor (Swift traps when `b == 0`). */
  function TruncRem(a: int, b: int): (r: int)
    requires b != 0
    ensures Abs(r) == Abs(a) % Abs(b)
    ensures a >= 0 ==> r >= 0
    ensures a < 0 ==> r <= 0
  {
    if a >= 0 then a % Abs(b) else -((-a) % Abs(b))
  }

  function Abs(x: int): nat { if x < 0 then -x else x }

  // ---------------------------------------------------------------- throwbacks

  /** The anniversary window on a whole-day age. */
  predicate IsThrowbackAge(days: int, daysAgo: int)
    requires daysAgo != 0
  {
    TruncRem(days, daysAgo) < 7 && days >= daysAgo - 7
  }

  /** A dish is a throwback when it has a date and its age in whole days
      falls in the anniversary window. */
  predicate IsThrowback(d: Dish, daysAgo: int, today: int)
    requires daysAgo != 0
  {
    match d.dateAdded
    case None => false
    case Some(day) => IsThrowbackAge(today - day, daysAgo)
  }

  function ThrowbackFilter(daysAgo: int, today: int): Dish -> bool
    requires daysAgo != 0
  {
    (d: Dish) => IsThrowback(d, daysAgo, today)
  }

  /** `getThrowbackDishes(daysAgo:)`. */
  function Throwbacks(dishes: seq<Dish>, daysAgo: int, today: int): (r: seq<Dish>)
    requires daysAgo != 0
    ensures forall d :: d in r <==>
              (d in dishes && d.dateAdded.Some? &&
               TruncRem(today - d.dateAdded.value, daysAgo) < 7 && today - d.dateAdded.value >= daysAgo - 7)
    ensures forall d :: d in r ==> d.dateAdded != None
    ensures IsSubseq(r, dishes)
  {
    FilterIsSubseq(dishes, ThrowbackFilter(daysAgo, today));
    Filter(dishes, ThrowbackFilter(daysAgo, today))
  }

  /** With the default one-year window, a dish is a throwback exactly when it
      is at least a year old and at most six days past a whole number of
      years. */
  lemma YearlyThrowback(days: int)
    ensures IsThrowbackAge(days, 365) <==> days >= 365 && days % 365 <= 6
  {
  }

  /** The boundary cases of the one-year window: the first week after one
      and two years is selected; the first week, 200 days, and the last week
      before the anniversary (358, 364) are not. */
  lemma YearlyThrowbackExamples()
    ensures forall days :: 365 <= days <= 371 ==> IsThrowbackAge(days, 365)
    ensures forall days :: 730 <= days <= 736 ==> IsThrowbackAge(days, 365)
    ensures forall days :: 0 <= days <= 6 ==> !IsThrowbackAge(days, 365)
    ensures !IsThrowbackAge(200, 365) && !IsThrowbackAge(350, 365)
    ensures !IsThrowbackAge(358, 365) && !IsThrowbackAge(364, 365)
  {
    forall days | 730 <= days <= 736 ensures IsThrowbackAge(days, 365) {
      assert days == 365 * 2 + (days - 730);
    }
  }

  // --------------------------------------------------------------- top rated

  function RatedAtLeast(minRating: real): Dish -> bool
  {
    (d: Dish) => d.averageRating >= minRating
  }

  /** `getHighlyRatedDishes(minRating:limit:)`: the first `limit` dishes, in
      list order, whose average is at least `minRating` (Swift's `prefix`
      traps on a negative `limit`). The source's defaults are `minRating`
      4.0 and `limit` 5. */
  function HighlyRated(dishes: seq<Dish>, minRating: real, limit: int): (r: seq<Dish>)
    requires limit >= 0
    ensures |r| == Min(limit, |Filter(dishes, RatedAtLeast(minRating))|)
    ensures |r| <= limit
    ensures forall d :: d in r ==> d in dishes && d.averageRating >= minRating
    ensures IsSubseq(r, dishes)
    ensures |r| < limit ==> forall d :: d in dishes && d.averageRating >= minRating ==> d in r
    ensures exists k :: 0 <= k <= |dishes| && r == Filter(dishes[..k], RatedAtLeast(minRating))
  {
    var rated := Filter(dishes, RatedAtLeast(minRating));
    var n := Min(limit, |rated|);
    FilterPrefix(dishes, RatedAtLeast(minRating), n);
    PrefixIsSubseq(rated, n);
    FilterIsSubseq(dishes, RatedAtLeast(minRating));
    SubseqTrans(rated[..n], rated, dishes);
    assert n == |rated| ==> rated[..n] == rated;
    rated[..n]
  }

  // ------------------------------------------------------------ memory lane

  type Month = m: int | 1 <= m <= 12 witness 1

  /** The bucket key `"MMMM yyyy"`, kept as the month it names. */
  datatype MonthKey = MonthKey(year: int, month: Month)

  /** Months counted from year 0; later months have larger indices. */
  function MonthIndex(k: MonthKey): int
  {
    k.year * 12 + k.month - 1
  }

  lemma MonthIndexInjective(a: MonthKey, b: MonthKey)
    ensures MonthIndex(a) == MonthIndex(b) <==> a == b
  {
    if a.year < b.year {
      assert MonthIndex(a) < MonthIndex(b);
    } else if a.year > b.year {
      assert MonthIndex(a) > MonthIndex(b);
    }
  }

  /** The month a dish is filed under: that of its date, or of today when it
      has none. `monthOf` is the calendar. */
  function BucketKey(d: Dish, today: int, monthOf: int -> MonthKey): MonthKey
  {
    match d.dateAdded
    case Some(day) => monthOf(day)
    case None => monthOf(today)
  }

  function InBucket(k: MonthKey, today: int, monthOf: int -> MonthKey): Dish -> bool
  {
    (d: Dish) => BucketKey(d, today, monthOf) == k
  }

  /** The months the dishes fall in. */
  function BucketKeys(dishes: seq<Dish>, today: int, monthOf: int -> MonthKey): set<MonthKey>
  {
    set d | d in dishes :: BucketKey(d, today, monthOf)
  }

  /** `g` buckets `dishes` by month: one key per month that some dish falls
      in, and each bucket holds that month's dishes in list order. */
  ghost predicate IsGrouping(dishes: seq<Dish>, g: map<MonthKey, seq<Dish>>, today: int, monthOf: int -> MonthKey)
  {
    && g.Keys == BucketKeys(dishes, today, monthOf)
    && (forall k :: k in g ==> g[k] == Filter(dishes, InBucket(k, today, monthOf)))
  }

  /** `Dictionary(grouping: dishes)` keyed by month: the dishes are filed
      one by one, each appended to its month's bucket. */
  function GroupByMonth(dishes: seq<Dish>, today: int, monthOf: int -> MonthKey): map<MonthKey, seq<Dish>>
  {
    if dishes == [] then map[]
    else
      var g0 := GroupByMonth(dishes[..|dishes| - 1], today, monthOf);
      var last := dishes[|dishes| - 1];
      var key := BucketKey(last, today, monthOf);
      g0[key := (if key in g0 then g0[key] else []) + [last]]
  }

  /** The grouping has one bucket per month some dish falls in, and each
      bucket holds exactly that month's dishes, in list order. */
  lemma {:induction false} GroupByMonthGroups(dishes: seq<Dish>, today: int, monthOf: int -> MonthKey)
    ensures IsGrouping(dishes, GroupByMonth(dishes, today, monthOf), today, monthOf)
  {
    if dishes != [] {
      var init := dishes[..|dishes| - 1];
      var last := dishes[|dishes| - 1];
      GroupByMonthGroups(init, today, monthOf);
      assert dishes == init + [last];
      GroupStep(init, last, GroupByMonth(init, today, monthOf), today, monthOf);
    }
  }

  /** Filing one more dish at the end appends it to its month's bucket. */
  lemma GroupStep(init: seq<Dish>, last: Dish, g0: map<MonthKey, seq<Dish>>, today: int, monthOf: int -> MonthKey)
    requires IsGrouping(init, g0, today, monthOf)
    ensures var key := BucketKey(last, today, monthOf);
            IsGrouping(init + [last], g0[key := (if key in g0 then g0[key] else []) + [last]], today, monthOf)
  {
    var key := BucketKey(last, today, monthOf);
    var g := g0[key := (if key in g0 then g0[key] else []) + [last]];
    var dishes := init + [last];
    forall k | k in g ensures g[k] == Filter(dishes, InBucket(k, today, monthOf)) {
      FilterAppend(init, last, InBucket(k, today, monthOf));
      if k == key && key !in g0 {
        FilterNone(init, InBucket(k, today, monthOf));
      }
    }
    BucketKeysAppend(init, last, today, monthOf);
  }

  /** Filing one more dish adds its month to the months in use. */
  lemma BucketKeysAppend(init: seq<Dish>, last: Dish, today: int, monthOf: int -> MonthKey)
    ensures BucketKeys(init + [last], today, monthOf) ==
            BucketKeys(init, today, monthOf) + {BucketKey(last, today, monthOf)}
  {
    assert forall d :: d in init + [last] <==> d in init || d == last;
  }

  /** Every dish lies in exactly one bucket: the one of its own month. */
  lemma GroupingPartitions(dishes: seq<Dish>, today: int, monthOf: int -> MonthKey, d: Dish)
    requires d in dishes
    ensures BucketKey(d, today, monthOf) in GroupByMonth(dishes, today, monthOf)
    ensures d in GroupByMonth(dishes, today, monthOf)[BucketKey(d, today, monthOf)]
    ensures forall k :: k in GroupByMonth(dishes, today, monthOf) && d in GroupByMonth(dishes, today, monthOf)[k] ==>
              k == BucketKey(d, today, monthOf)
  {
    GroupByMonthGroups(dishes, today, monthOf);
  }

  /** The keys of the grouping in order of first appearance. */
  function GroupKeys(dishes: seq<Dish>, today: int, monthOf: int -> MonthKey): seq<MonthKey>
  {
    if dishes == [] then []
    else
      var keys0 := GroupKeys(dishes[..|dishes| - 1], today, monthOf);
      var key := BucketKey(dishes[|dishes| - 1], today, monthOf);
      if key in keys0 then keys0 else keys0 + [key]
  }

  /** The grouping keys are exactly the months the dishes fall in, each
      once. */
  lemma {:induction false} GroupKeysDistinct(dishes: seq<Dish>, today: int, monthOf: int -> MonthKey)
    ensures var keys := GroupKeys(dishes, today, monthOf);
            (forall k :: k in keys <==> k in BucketKeys(dishes, today, monthOf)) &&
            (forall i, j :: 0 <= i < j < |keys| ==> keys[i] != keys[j])
  {
    if dishes != [] {
      var init := dishes[..|dishes| - 1];
      var last := dishes[|dishes| - 1];
      GroupKeysDistinct(init, today, monthOf);
      assert dishes == init + [last];
      BucketKeysAppend(init, last, today, monthOf);
    }
  }

  function MonthRank(k: MonthKey): real
  {
    MonthIndex(k) as real
  }

  /** `sortedGroupKeys`: the keys, most recent month first; strictly so
      when the keys are distinct. */
  function SortKeysDescending(keys: seq<MonthKey>): (r: seq<MonthKey>)
    ensures multiset(r) == multiset(keys)
    ensures forall i, j :: 0 <= i < j < |r| ==> MonthIndex(r[i]) >= MonthIndex(r[j])
    ensures (forall i, j :: 0 <= i < j < |keys| ==> keys[i] != keys[j]) ==>
              forall i, j :: 0 <= i < j < |r| ==> MonthIndex(r[i]) > MonthIndex(r[j])
  {
    var r := SortDesc(keys, MonthRank);
    assert (forall i, j :: 0 <= i < j < |keys| ==> keys[i] != keys[j]) ==>
             forall i, j :: 0 <= i < j < |r| ==> MonthIndex(r[i]) > MonthIndex(r[j]) by {
      if forall i, j :: 0 <= i < j < |keys| ==> keys[i] != keys[j] {
        DistinctPermutation(keys, r);
        forall i, j | 0 <= i < j < |r| ensures MonthIndex(r[i]) > MonthIndex(r[j]) {
          MonthIndexInjective(r[i], r[j]);
        }
      }
    }
    r
  }

  /** A permutation of a sequence without repeats has no repeats. */
  lemma DistinctPermutation<T>(a: seq<T>, b: seq<T>)
    requires forall i, j :: 0 <= i < j < |a| ==> a[i] != a[j]
    requires multiset(a) == multiset(b)
    ensures forall i, j :: 0 <= i < j < |b| ==> b[i] != b[j]
  {
    forall x ensures multiset(a)[x] <= 1 {
      DistinctCount(a, x);
    }
    forall i, j | 0 <= i < j < |b| ensures b[i] != b[j] {
      var x := b[i];
      assert b == b[..i] + [x] + b[i + 1..j] + [b[j]] + b[j + 1..];
      assert multiset(b)[x] >= 1 + multiset([b[j]])[x];
    }
  }

  lemma {:induction false} DistinctCount<T>(a: seq<T>, x: T)
    requires forall i, j :: 0 <= i < j < |a| ==> a[i] != a[j]
    ensures multiset(a)[x] <= 1
  {
    if a != [] {
      assert a == [a[0]] + a[1..];
      DistinctCount(a[1..], x);
      if a[0] == x {
        assert x !in a[1..];
      }
    }
  }

  /** The memory lane's grouping keys come out as a permutation of the
      buckets, strictly from the most recent month back. */
  lemma SortedGroupKeysMatchBuckets(dishes: seq<Dish>, today: int, monthOf: int -> MonthKey)
    ensures var ks := SortKeysDescending(GroupKeys(dishes, today, monthOf));
            (forall k :: k in ks <==> k in GroupByMonth(dishes, today, monthOf)) &&
            (forall i, j :: 0 <= i < j < |ks| ==> MonthIndex(ks[i]) > MonthIndex(ks[j]))
  {
    var keys := GroupKeys(dishes, today, monthOf);
    GroupKeysDistinct(dishes, today, monthOf);
    GroupByMonthGroups(dishes, today, monthOf);
    PermutationSameElements(keys, SortKeysDescending(keys));
  }
}
