/** The records of the dish store (the `Dish` and `Restaurant` entities) and
    the conventions for dates used by every query.

    Dates are whole day numbers counted from Swift's reference date,
    1 January 2001; `Date()` ("now") is the `today` parameter of each
    operation that reads the clock. */
module Dishes {
  import opened Wrappers

  /** `Date.distantPast` (1 January 0001 of the Julian calendar,
      63114076800 seconds before the reference date) as a day number. */
  const DistantPastDay: int := -730487

  /** One logged dish. `restaurant` is the name of the restaurant the dish
      refers to (`dish.restaurant?.name`), `None` when there is none. */
  datatype Dish = Dish(
    id: nat,
    name: Option<string>,
    restaurant: Option<string>,
    notes: Option<string>,
    hasImage: bool,
    tasteRating: real,
    presentationRating: real,
    valueRating: real,
    averageRating: real,
    dateAdded: Option<int>)

  /** A place of dining; `visitCount` is bumped each time a dish is logged. */
  datatype Restaurant = Restaurant(name: string, location: string, visitCount: int)

  /** The average the writers store in `averageRating`. */
  function Mean(taste: real, presentation: real, value: real): real
  {
    (taste + presentation + value) / 3.0
  }

  /** Ratings on the 0-5 scale average to a rating on the same scale, and
      never outside the range of the three sub-ratings. */
  lemma MeanBounds(taste: real, presentation: real, value: real)
    ensures Mean(taste, presentation, value) >= Min3(taste, presentation, value)
    ensures Mean(taste, presentation, value) <= Max3(taste, presentation, value)
    ensures 0.0 <= taste <= 5.0 && 0.0 <= presentation <= 5.0 && 0.0 <= value <= 5.0 ==>
              0.0 <= Mean(taste, presentation, value) <= 5.0
  {
  }

  function Min3(a: real, b: real, c: real): real
  {
    if a <= b && a <= c then a else if b <= c then b else c
  }

  function Max3(a: real, b: real, c: real): real
  {
    if a >= b && a >= c then a else if b >= c then b else c
  }

  /** A dish's average is the mean of its three sub-ratings. */
  predicate AverageConsistent(d: Dish)
  {
    d.averageRating == Mean(d.tasteRating, d.presentationRating, d.valueRating)
  }

  /** `dish.dateAdded ?? Date.distantPast`, the date the sort orders use. */
  function SortDay(d: Dish): int
  {
    match d.dateAdded
    case Some(day) => day
    case None => DistantPastDay
  }

  /** `name ?? ""`. */
  function OrEmpty(s: Option<string>): string
  {
    match s
    case Some(v) => v
    case None => ""
  }
}
