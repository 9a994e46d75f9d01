/** The shared dish view model: the dish list and the restaurant table as
    fetched from the store, the memory-lane views derived from the list, and
    the card-theme preference. */
module ViewModel {
  import opened Wrappers
  import opened Dishes
  import opened Seqs
  import opened DishQueries
  import opened CardPreferences

  /** The default window of `getThrowbackDishes()`, in days. */
  const ThrowbackWindow: int := 365

  /** `fetchRecentDishes()` fetches this many of the newest dishes. */
  const RecentLimit: nat := 5

  /** The first `n` elements, or all of them when there are fewer. */
  function Take<T>(s: seq<T>, n: nat): (r: seq<T>)
    ensures |r| == Min(n, |s|)
    ensures forall i :: 0 <= i < |r| ==> r[i] == s[i]
  {
    if |s| <= n then s else s[..n]
  }

  /** An id larger than every id in `dishes`: the model of `UUID()`. */
  function FreshId(dishes: seq<Dish>): (id: nat)
    ensures forall d :: d in dishes ==> d.id < id
  {
    if dishes == [] then 0
    else
      var rest := FreshId(dishes[1..]);
      assert forall d :: d in dishes ==> d == dishes[0] || d in dishes[1..];
      if dishes[0].id < rest then rest else dishes[0].id + 1
  }

  /** The record `addDish` creates. */
  function NewDish(id: nat, name: string, restaurant: string, notes: string, hasImage: bool,
                   taste: real, presentation: real, value: real, today: int): (d: Dish)
    ensures AverageConsistent(d)
    ensures d.dateAdded == Some(today) && d.id == id
  {
    Dish(id, Some(name), Some(restaurant), Some(notes), hasImage, taste, presentation, value,
         Mean(taste, presentation, value), Some(today))
  }

  /** A restaurant after one more logged visit. */
  function Visited(r: Restaurant): Restaurant
  {
    r.(visitCount := r.visitCount + 1)
  }

  /** Putting a dish with id `bound` in front of dishes whose ids are below
      `bound` keeps every id below `bound + 1`, and keeps the averages
      consistent when the new one is. */
  lemma PrependKeeps(dish: Dish, before: seq<Dish>, bound: nat)
    requires forall d :: d in before ==> d.id < bound
    requires dish.id == bound
    ensures forall d :: d in [dish] + before ==> d.id < bound + 1
    ensures AverageConsistent(dish) && (forall d :: d in before ==> AverageConsistent(d)) ==>
              forall d :: d in [dish] + before ==> AverageConsistent(d)
  {
    assert forall d :: d in [dish] + before ==> d == dish || d in before;
  }

  class DishViewModel {
    var dishes: seq<Dish>
    var recentDishes: seq<Dish>
    var restaurants: seq<Restaurant>
    var selectedTheme: PlateCardTheme
    /** The `preferredCardTheme` user default. */
    var preferredCardTheme: string
    var textCustomization: TextCustomization
    var throwbackDishes: seq<Dish>
    var groupedDishes: map<MonthKey, seq<Dish>>
    var sortedGroupKeys: seq<MonthKey>
    /** Ids handed out so far are below this one. */
    var nextId: nat

    ghost predicate Valid()
      reads this
    {
      forall d :: d in dishes ==> d.id < nextId
    }

    /** Every stored dish's average is the mean of its sub-ratings. */
    ghost predicate AveragesConsistent()
      reads this
    {
      forall d :: d in dishes ==> AverageConsistent(d)
    }

    /** `init()`: fetch the dishes and the restaurants, then load the theme
        preference (`storedTheme` is the user default as persisted). */
    constructor (storedDishes: seq<Dish>, storedRestaurants: seq<Restaurant>, storedTheme: string)
      ensures Valid()
      ensures dishes == storedDishes && restaurants == storedRestaurants
      ensures recentDishes == Take(storedDishes, RecentLimit)
      ensures preferredCardTheme == storedTheme
      ensures selectedTheme == match ThemeNamed(storedTheme)
        case Some(t) => t
        case None => Classic
      ensures textCustomization == DefaultCustomization
      ensures throwbackDishes == [] && groupedDishes == map[] && sortedGroupKeys == []
    {
      dishes := storedDishes;
      recentDishes := Take(storedDishes, RecentLimit);
      restaurants := storedRestaurants;
      selectedTheme := Classic;
      preferredCardTheme := storedTheme;
      textCustomization := DefaultCustomization;
      throwbackDishes := [];
      groupedDishes := map[];
      sortedGroupKeys := [];
      nextId := FreshId(storedDishes);
      new;
      LoadPreferredTheme();
    }

    /** `loadPreferredTheme()`: adopt the stored theme when it names one;
        an unrecognised string leaves the selection as it was. */
    method LoadPreferredTheme()
      modifies this`selectedTheme
      ensures ThemeNamed(preferredCardTheme).Some? ==> selectedTheme == ThemeNamed(preferredCardTheme).value
      ensures ThemeNamed(preferredCardTheme).None? ==> selectedTheme == old(selectedTheme)
    {
      var theme := ThemeNamed(preferredCardTheme);
      if theme.Some? {
        selectedTheme := theme.value;
      }
    }

    /** `savePreferredTheme(_:)`: persist the raw value and select it; a
        later load selects the same theme again. */
    method SavePreferredTheme(theme: PlateCardTheme)
      modifies this`preferredCardTheme, this`selectedTheme
      ensures preferredCardTheme == RawValue(theme) && selectedTheme == theme
      ensures ThemeNamed(preferredCardTheme) == Some(theme)
    {
      preferredCardTheme := RawValue(theme);
      selectedTheme := theme;
      ThemeRoundTrip(theme);
    }

    /** `loadMemoryLaneData()`: the throwbacks, the month buckets and their
        keys from the most recent month back. */
    method LoadMemoryLaneData(today: int, monthOf: int -> MonthKey)
      modifies this`throwbackDishes, this`groupedDishes, this`sortedGroupKeys
      ensures throwbackDishes == Throwbacks(dishes, ThrowbackWindow, today)
      ensures groupedDishes == GroupByMonth(dishes, today, monthOf)
      ensures sortedGroupKeys == SortKeysDescending(GroupKeys(dishes, today, monthOf))
    {
      throwbackDishes := Throwbacks(dishes, ThrowbackWindow, today);
      groupedDishes := GroupByMonth(dishes, today, monthOf);
      sortedGroupKeys := SortKeysDescending(GroupKeys(dishes, today, monthOf));
    }

    /** `addDish(...)`: create the dish dated today, bump the restaurant's
        visit count by one, then refresh. The memory lane is reloaded before
        the dish list is fetched again, so it still reflects the old list;
        the fetch (newest first) puts the new dish at the front. */
    method AddDish(name: string, restaurant: nat, notes: string, hasImage: bool,
                   taste: real, presentation: real, value: real,
                   today: int, monthOf: int -> MonthKey)
      requires Valid() && restaurant < |restaurants|
      modifies this`restaurants, this`dishes, this`recentDishes, this`nextId
      modifies this`throwbackDishes, this`groupedDishes, this`sortedGroupKeys
      ensures Valid()
      ensures restaurants == old(restaurants)[restaurant := Visited(old(restaurants)[restaurant])]
      ensures dishes == [NewDish(old(nextId), name, old(restaurants)[restaurant].name, notes, hasImage,
                                 taste, presentation, value, today)] + old(dishes)
      ensures forall d :: d in old(dishes) ==> d.id != dishes[0].id
      ensures old(AveragesConsistent()) ==> AveragesConsistent()
      ensures recentDishes == Take(dishes, RecentLimit)
      ensures throwbackDishes == Throwbacks(old(dishes), ThrowbackWindow, today)
      ensures groupedDishes == GroupByMonth(old(dishes), today, monthOf)
      ensures sortedGroupKeys == SortKeysDescending(GroupKeys(old(dishes), today, monthOf))
    {
      var dish := NewDish(nextId, name, restaurants[restaurant].name, notes, hasImage,
                          taste, presentation, value, today);
      restaurants := restaurants[restaurant := Visited(restaurants[restaurant])];
      LoadMemoryLaneData(today, monthOf);
      FetchWith(dish);
    }

    /** Store `dish`, which carries the next id, and fetch the list again:
        newest first, so it lands in front. */
    method FetchWith(dish: Dish)
      requires Valid() && dish.id == nextId
      modifies this`dishes, this`recentDishes, this`nextId
      ensures Valid()
      ensures dishes == [dish] + old(dishes) && nextId == old(nextId) + 1
      ensures (old(AveragesConsistent()) && AverageConsistent(dish)) ==> AveragesConsistent()
      ensures recentDishes == Take(dishes, RecentLimit)
    {
      PrependKeeps(dish, dishes, nextId);
      dishes := [dish] + dishes;
      nextId := nextId + 1;
      recentDishes := Take(dishes, RecentLimit);
    }

    /** `updateDish(...)`: rewrite the name, notes and ratings of the dish
        at `index` and recompute its average; its date, and so its place in
        the list, stays. */
    method UpdateDish(index: nat, name: string, notes: string,
                      taste: real, presentation: real, value: real)
      requires Valid() && index < |dishes|
      modifies this`dishes, this`recentDishes
      ensures Valid()
      ensures |dishes| == |old(dishes)|
      ensures dishes == old(dishes)[index := old(dishes)[index].(
                name := Some(name), notes := Some(notes),
                tasteRating := taste, presentationRating := presentation, valueRating := value,
                averageRating := Mean(taste, presentation, value))]
      ensures AverageConsistent(dishes[index])
      ensures dishes[index].id == old(dishes)[index].id
      ensures dishes[index].dateAdded == old(dishes)[index].dateAdded
      ensures old(AveragesConsistent()) ==> AveragesConsistent()
      ensures recentDishes == Take(dishes, RecentLimit)
    {
      var d := dishes[index];
      var updated := d.(name := Some(name), notes := Some(notes),
                        tasteRating := taste, presentationRating := presentation, valueRating := value,
                        averageRating := Mean(taste, presentation, value));
      dishes := dishes[index := updated];
      recentDishes := Take(dishes, RecentLimit);
    }
  }
}
