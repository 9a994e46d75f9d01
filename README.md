# PlateMate core, modelled in Dafny

PlateMate is an iOS app for logging restaurant dishes. Each dish has three
sub-ratings (taste, presentation, value), a stored average, a photo and a
date. Each restaurant has a visit count. This project models the app's logic
beneath its SwiftUI screens:

- **The dish view model** (`view_model.dfy`, `dish_queries.dfy`,
  `card_preferences.dfy`). It holds the dish list and the restaurant table,
  and covers:
  - adding and updating a dish (the stored average, the visit count);
  - the "throwback" anniversary selector and the highly-rated top-N query;
  - the memory lane: dishes grouped into month buckets, with keys ordered
    from the most recent month back;
  - the card-theme preference and the font-weight codec of the text
    customisation.
- **The discovery screen** (`discovery.dfy`). A rating filter, then a
  case-insensitive search over the dish name and the restaurant name, then
  one of four sort orders (newest, oldest, highest rated, trending). The
  view state holds the query and the list it shows. As the screen is wired,
  `onAppear` assigns the model and filters once, and only
  `setDishViewModel(_:)`, which nothing calls, installs the bindings that
  re-filter on a query change. So a query typed after the screen appears
  leaves the shown list as it was, and the model keeps that behaviour.
- **The dish-logging form** (`dish_log.dfy`). It covers:
  - the completion progress (three fields in quick mode, five in full
    mode) and form validity;
  - the full and quick mode buttons;
  - restaurant autocomplete;
  - saving: find or create the restaurant, bump its visit count, hand the
    dish to the dish view model, reset the form.
- **Rating display** (`rating_display.dfy`). The three-band colour rule in
  three of its copies, and the full, half or empty glyph of each of the five
  stars.

Shared pieces:
- `dishes.dfy` holds the records.
- `seqs.dfy` holds order-preserving filtering (Swift's `filter` and
  `prefix`).
- `sorting.dfy` holds a single descending insertion sort on one key. The
  discovery screen's four `sorted(by:)` orders, the month keys of the
  memory lane and the visit-count order of the autocomplete request are
  instances of it, each with its own key. The date-descending re-fetch of
  the dish list is modelled by putting the new dish in front (see
  `FetchWith` under "## Left out").
- `text.dfy` holds lower-casing and substring search.

Dates are whole day numbers counted from 1 January 2001, Swift's reference
date. "Now" is a `today` parameter. The calendar's month of a day is a
`monthOf` parameter. The persistent store is modelled by in-memory values:
- a sequence of dish records, newest first, as `fetchDishes()` returns
  them;
- a sequence of restaurant records.

A store request that can throw takes a boolean parameter that stands for
the failure.

Where the app's evident intent and its code differ, the model follows the
code:
- **Visit counts go up by two per save.** `saveDish` bumps the restaurant's
  visit count (or creates the restaurant with 1), and `addDish` bumps it
  again. A new restaurant therefore has 2 visits after its first dish and 4
  after its second (`DishLog.TwoSavesAtNewRestaurant`). The intended count
  is one per logged dish.
- **The throwback test uses Swift's truncating `%`.** With the one-year
  window a dish is selected exactly when its age is 365k to 365k+6 days,
  for k ≥ 1. A dish 358 days old is *not* selected, because 358 % 365 is
  358 (`DishQueries.YearlyThrowbackExamples`).
- **`addDish` reloads the memory lane before it fetches the dishes again.**
  So the throwbacks and month buckets it leaves behind are computed from
  the list *without* the new dish (`ViewModel.DishViewModel.AddDish`).

## Model

| member | source | states |
|---|---|---|
| CardPreferences.ThemeNamed | platemate_lol/DishViewModel.swift:151 | the looked-up theme has exactly the stored raw value; `None` only when no theme has it |
| CardPreferences.ThemeRoundTrip | platemate_lol/DishViewModel.swift:150-159 | looking up the raw value a save stores gives back the saved theme |
| CardPreferences.RawValueInjective | platemate_lol/PlateCard/PlateCardTheme.swift:3-10 | the five themes have five distinct raw values |
| CardPreferences.WeightCodec | platemate_lol/DishViewModel.swift:239-270 | codes of the nine weights lie in 1..9; decode(encode(w)) = w; encode(decode(n)) = n for n in 1..9 and 4 otherwise; an unknown code decodes to regular |
| CardPreferences.Encode | platemate_lol/DishViewModel.swift:253-272 | both keys are written, the size as is and the weight as a code in 1..9 |
| CardPreferences.WeightCode | platemate_lol/DishViewModel.swift:258-270 | the encoding switch, weight to code (properties in `WeightCodec`) |
| CardPreferences.WeightOfCode | platemate_lol/DishViewModel.swift:238-250 | the decoding switch, code to weight, unknown codes to regular (properties in `WeightCodec`) |
| CardPreferences.Decode | platemate_lol/DishViewModel.swift:233-251 | decoding fails exactly when a key is missing, reporting `fontSize` when it is missing and `fontWeight` otherwise; a success keeps the stored size and decodes the weight by `WeightOfCode` |
| CardPreferences.CustomizationRoundTrip | platemate_lol/DishViewModel.swift:233-272 | decoding what was encoded gives back the same customisation |
| RatingDisplay.RatingColor | platemate_lol/DishDetailView.swift:20-29 | red exactly on [0, 2.5), amber exactly on [2.5, 3.8), green exactly on the rest, negative ratings included |
| RatingDisplay.DetailRatingColor | platemate_lol/DishDetailView.swift:117-126 | the detail view's private colour switch (equal to the global rule by `RatingColorsAgree`) |
| RatingDisplay.DishRatingColor | platemate_lol/DishViewModel.swift:281-290 | the dish's own red/orange/green switch (matched to the global rule by `RatingColorsAgree`) |
| RatingDisplay.RatingColorsAgree | platemate_lol/DishDetailView.swift:117-126 | the detail view's private copy and the dish's own `ratingColor` (DishViewModel.swift:281-290) pick the same band as the global rule on every rating |
| RatingDisplay.Truncate | platemate_lol/DishDetailView.swift:100 | `Int(value)` rounds toward zero: the integer within one below a non-negative value, within one above a negative one |
| RatingDisplay.StarGlyph | platemate_lol/DishDetailView.swift:100-101 | the glyph of one star: full up to `Int(value)`, half when the value lies strictly between the star and the one before, else empty (characterised by `StarGlyphCases`) |
| RatingDisplay.StarGlyphCases | platemate_lol/DishDetailView.swift:100-101 | for a non-negative value, star i is full iff i ≤ ⌊value⌋, and half iff it is star ⌊value⌋+1 and the value is not whole |
| RatingDisplay.StarCounts | platemate_lol/DishDetailView.swift:99-104 | of stars 1..n, min(n, ⌊value⌋) are full and at most one is half, none on a whole value |
| RatingDisplay.FiveStars | platemate_lol/DishDetailView.swift:424-429 | for a value in [0, 5] the row shows ⌊value⌋ full stars, at most one half star (none on a whole value), and five glyphs in all |
| RatingDisplay.GlyphsCover | platemate_lol/DishDetailView.swift:99-104 | each star shows exactly one of the three glyphs |
| Dishes.MeanBounds | platemate_lol/DishViewModel.swift:85 | the stored average lies between the smallest and largest sub-rating, so in [0, 5] when they are |
| Text.Lower | platemate_lol/DiscoveryView.swift:302-304 | lower-casing keeps the length, maps each character alone, and leaves no upper-case letter |
| Text.LowerIdempotent | platemate_lol/DiscoveryView.swift:304 | lower-casing twice is lower-casing once |
| Text.ContainsOccurs | platemate_lol/DiscoveryView.swift:304-305 | `contains` holds exactly when the text occurs at some position |
| DishQueries.TruncRem | platemate_lol/DishViewModel.swift:180 | Swift's `%`: the remainder has the magnitude of the Euclidean one and the sign of the dividend |
| DishQueries.Throwbacks | platemate_lol/DishViewModel.swift:172-184 | a dish is kept iff it has a date and its age d has d % daysAgo < 7 and d ≥ daysAgo − 7; undated dishes never are; the result keeps list order |
| DishQueries.YearlyThrowback | platemate_lol/DishViewModel.swift:180 | with the 365-day window an age is selected iff it is at least 365 and at most 6 days past a whole number of years |
| DishQueries.YearlyThrowbackExamples | platemate_lol/DishViewModel.swift:180 | ages 365..371 and 730..736 are selected; 0..6, 200, 350, 358 and 364 are not |
| DishQueries.HighlyRated | platemate_lol/DishViewModel.swift:187-190 | exactly min(`limit`, number of qualifying dishes) dishes, all rated at least `minRating`, in list order, being the rated dishes of some prefix of the list; all of them when fewer than `limit` qualify |
| DishQueries.MonthIndexInjective | platemate_lol/DishViewModel.swift:210-214 | two month keys fall on the same month index iff they are the same key |
| DishQueries.GroupByMonth | platemate_lol/DishViewModel.swift:204-206 | `Dictionary(grouping:)` by month, filing the dishes one by one (its meaning is `GroupByMonthGroups`) |
| DishQueries.GroupByMonthGroups | platemate_lol/DishViewModel.swift:204-206 | the grouping has one bucket per month some dish falls in, and each bucket holds exactly that month's dishes in list order |
| DishQueries.GroupingPartitions | platemate_lol/DishViewModel.swift:202-206 | every dish is in the bucket of its own month (of today when undated) and in no other |
| DishQueries.GroupKeysDistinct | platemate_lol/DishViewModel.swift:204-207 | the dictionary's keys are exactly the months in use, each once |
| DishQueries.SortKeysDescending | platemate_lol/DishViewModel.swift:207-214 | a permutation of the keys, most recent month first, strictly so when the keys are distinct |
| DishQueries.SortedGroupKeysMatchBuckets | platemate_lol/DishViewModel.swift:202-214 | `sortedGroupKeys` holds exactly the bucket keys, strictly from the most recent month back |
| ViewModel.Take | platemate_lol/DishViewModel.swift:46-56 | the recent list is the first min(5, n) dishes |
| ViewModel.FreshId | platemate_lol/DishViewModel.swift:77 | the new id differs from (exceeds) every stored id |
| ViewModel.NewDish | platemate_lol/DishViewModel.swift:75-86 | the new record's average is the mean of its sub-ratings and it is dated today |
| ViewModel.DishViewModel.constructor | platemate_lol/DishViewModel.swift:27-32 | starts from the stored lists and adopts the stored theme when it names one, classic otherwise |
| ViewModel.DishViewModel.LoadPreferredTheme | platemate_lol/DishViewModel.swift:150-154 | a recognised stored string selects its theme; an unrecognised one leaves the selection unchanged |
| ViewModel.DishViewModel.SavePreferredTheme | platemate_lol/DishViewModel.swift:156-159 | stores the raw value and selects the theme, so a later load yields the same theme |
| ViewModel.DishViewModel.LoadMemoryLaneData | platemate_lol/DishViewModel.swift:202-208 | the throwbacks, the month grouping and the sorted keys of the current list |
| ViewModel.DishViewModel.AddDish | platemate_lol/DishViewModel.swift:74-98 | exactly one dish, with a fresh id, its mean as average and today's date, lands in front; that restaurant alone gains one visit; averages stay consistent; the memory lane reflects the list before the add |
| ViewModel.DishViewModel.FetchWith | platemate_lol/DishViewModel.swift:95-96 | the list fetched newest first has the new dish in front of the old list, and the recent list is its first five |
| ViewModel.DishViewModel.UpdateDish | platemate_lol/DishViewModel.swift:110-123 | only that dish changes: new name, notes and ratings, the average recomputed as their mean, id and date kept |
| Discovery.OptionRawInjective | platemate_lol/DiscoveryView.swift:350-357 | the four sort options have distinct labels |
| Discovery.TrendingScore | platemate_lol/DiscoveryView.swift:331-342 | 0.7 / max(days, 1) + 0.3 · average (its behaviour is in the three `Trending…` lemmas) |
| Discovery.TrendingFallsWithAge | platemate_lol/DiscoveryView.swift:336-342 | at a fixed rating an older dish never scores higher, and from one day old it scores strictly lower |
| Discovery.TrendingRisesWithRating | platemate_lol/DiscoveryView.swift:339-342 | at a fixed age a better-rated dish scores strictly higher |
| Discovery.TrendingBounds | platemate_lol/DiscoveryView.swift:331-342 | a dish at most one day old gets the full 0.7 recency term; every score lies in (0.3·avg, 0.7 + 0.3·avg] |
| Discovery.SortDishes | platemate_lol/DiscoveryView.swift:322-347 | a permutation of its input, ordered by non-increasing date (undated = distant past), non-decreasing date, non-increasing average, or non-increasing trending score |
| Discovery.NewestReversesOldest | platemate_lol/DiscoveryView.swift:324-327 | on dishes with distinct dates, newest-first is exactly oldest-first reversed |
| Discovery.RatingFiltered | platemate_lol/DiscoveryView.swift:295-297 | a threshold ≤ 0 passes the list unchanged; a positive one keeps exactly the dishes rated at least it, in list order |
| Discovery.SearchFiltered | platemate_lol/DiscoveryView.swift:300-307 | empty text passes the list unchanged; otherwise exactly the dishes whose lower-cased name or restaurant name contains the lower-cased text, in list order |
| Discovery.MatchesSearch | platemate_lol/DiscoveryView.swift:301-306 | the search predicate on the lower-cased name or restaurant name, a missing one being "" |
| Discovery.SearchIgnoresCase | platemate_lol/DiscoveryView.swift:304-305 | searching for the lower-cased text matches the same dishes |
| Discovery.NamelessNeverMatches | platemate_lol/DiscoveryView.swift:302-303 | a dish with neither name matches no non-empty search |
| Discovery.NameMatches | platemate_lol/DiscoveryView.swift:302-305 | a dish whose name is the search text matches |
| Discovery.FilteredView | platemate_lol/DiscoveryView.swift:294-310 | rating filter, then search, then sort (its contents are `FilteredViewContents`) |
| Discovery.FilteredViewContents | platemate_lol/DiscoveryView.swift:294-310 | the shown list is a reordering of the filtered list, no longer than the store, and holds a dish iff it passes both enabled filters |
| Discovery.TwoDishScenario | platemate_lol/DiscoveryView.swift:294-310 | with dishes rated 4.2 (today) and 2.0 (400 days ago), threshold 3.0 shows only the first, and highest-rated order shows both, first one first |
| Discovery.DiscoveryViewState.constructor | platemate_lol/DiscoveryView.swift:253-270 | empty query, newest order, threshold 0, no model, both lists empty |
| Discovery.DiscoveryViewState.SetDishViewModel | platemate_lol/DiscoveryView.swift:283-288 | attaches the model, shows its whole list unfiltered with its throwbacks, and installs the bindings |
| Discovery.DiscoveryViewState.Appear | platemate_lol/DiscoveryView.swift:53-57 | attaches the model and runs the filters once, without installing the bindings |
| Discovery.DiscoveryViewState.UpdateFilters | platemate_lol/DiscoveryView.swift:291-314 | no model: nothing changes; otherwise the shown list is the filtered, sorted view and the throwbacks come from the whole list |
| Discovery.DiscoveryViewState.Recompute | platemate_lol/DiscoveryView.swift:294-313 | the shown list and the throwbacks of the given list under the current query |
| Discovery.DiscoveryViewState.SetQuery | platemate_lol/DiscoveryView.swift:272-280 | stores the new query; re-filters as `updateFilters` only when the bindings are installed, and otherwise leaves both lists as they were |
| Discovery.DefaultViewKeepsAll | platemate_lol/DiscoveryView.swift:294-310 | with no threshold and no text, the shown list is a reordering of the whole list |
| Discovery.TypeAfterAppear | platemate_lol/DiscoveryView.swift:53-57 | after `onAppear`, a typed query leaves the unfiltered newest-first list on screen, holding every dish of the model |
| DishLog.CompletedFields | platemate_lol/DishLogView.swift:171-183 | no more fields are counted than the mode tracks |
| DishLog.Progress | platemate_lol/DishLogView.swift:171-186 | completed fields over the mode's total (bounds and extremes in `ProgressBounds`) |
| DishLog.ProgressBounds | platemate_lol/DishLogView.swift:170-188 | progress lies in [0, 1]; it is 1 iff every tracked field is filled and 0 iff none is |
| DishLog.IsFormValid | platemate_lol/DishLogView.swift:1360-1362 | the save button's condition: dish name, restaurant name and photo present (related to progress by `ProgressAndValidity`) |
| DishLog.ProgressAndValidity | platemate_lol/DishLogView.swift:1360-1362 | full progress implies a valid form; in quick mode the two coincide; full mode without notes never reaches 1 |
| DishLog.DefaultFormEmpty | platemate_lol/DishLogView.swift:145-157 | a fresh form shows no progress and cannot be saved |
| DishLog.FindRestaurant | platemate_lol/DishLogView.swift:216-223 | finds the first restaurant with exactly that name, or reports that none has it |
| DishLog.RecordVisit | platemate_lol/DishLogView.swift:216-232 | the returned position holds a restaurant of that name |
| DishLog.RecordThenVisit | platemate_lol/DishLogView.swift:223-249 | the form's bump (or creation with 1) followed by `addDish`'s bump is the table after a save |
| DishLog.AfterSave | platemate_lol/DishLogView.swift:219-249 | the restaurant table after one save, found entry +2 or new entry with 2 (characterised by `AfterSaveVisits`, derived from the two steps by `RecordThenVisit`) |
| DishLog.AfterSaveVisits | platemate_lol/DishLogView.swift:216-249 | a save leaves every other entry alone and gives the named one two more visits, or appends it with 2 visits and no location |
| DishLog.TwoSavesAtNewRestaurant | platemate_lol/DishLogView.swift:223-231 | two saves under a new name leave it with 4 visits |
| DishLog.SuggestedRestaurants | platemate_lol/DishLogView.swift:199-205 | min(5, number of matching restaurants) suggestions, each restaurant appearing no more often than among the matching ones (a sub-multiset of them) |
| DishLog.SuggestionsMatch | platemate_lol/DishLogView.swift:199-205 | every suggestion is a stored restaurant whose name contains the typed text ignoring case, most visited first |
| DishLog.SuggestionsOrdered | platemate_lol/DishLogView.swift:200 | the suggestions come in non-increasing visit count |
| DishLog.SuggestionsAreTop | platemate_lol/DishLogView.swift:200-201 | a matching restaurant left out has no more visits than any suggestion |
| DishLog.Names | platemate_lol/DishLogView.swift:205 | one name per restaurant, in order |
| DishLog.QuickModeAverage | platemate_lol/DishLogView.swift:235-238 | copying the taste rating into the other two makes the average the taste rating |
| DishLog.SavedDish | platemate_lol/DishLogView.swift:235-249 | the saved dish carries the form's names, today's date and a consistent average, equal to the taste rating in quick mode |
| DishLog.DishLogViewModel.constructor | platemate_lol/DishLogView.swift:145-158 | the default form, no progress, no suggestions |
| DishLog.DishLogViewModel.UpdateCompletionProgress | platemate_lol/DishLogView.swift:170-188 | the field counter stores completed / total for the current form |
| DishLog.DishLogViewModel.FetchRestaurantSuggestions | platemate_lol/DishLogView.swift:190-210 | empty when the name is empty or the request fails; otherwise the names of the suggestions, at most 5 |
| DishLog.DishLogViewModel.ResetForm | platemate_lol/DishLogView.swift:259-272 | every field back to its default, progress 0, quick mode off |
| DishLog.DishLogViewModel.SelectFullMode | platemate_lol/DishLogView.swift:302-315 | ends in full mode; progress is refreshed only when the mode flipped |
| DishLog.DishLogViewModel.SelectQuickMode | platemate_lol/DishLogView.swift:318-331 | ends in quick mode; progress is refreshed only when the mode flipped |
| DishLog.DishLogViewModel.VisitRestaurant | platemate_lol/DishLogView.swift:216-232 | the table and position after finding and bumping, or creating with 1 visit |
| DishLog.DishLogViewModel.HandOver | platemate_lol/DishLogView.swift:241-249 | `addDish` with the form's values: one dish in front, one more visit, the recent list refreshed and the memory lane from the list before; only those fields of the dish view model change |
| DishLog.DishLogViewModel.SaveDish | platemate_lol/DishLogView.swift:212-257 | a failed lookup changes nothing; otherwise the restaurant gains two visits (or is created with 2), the form's dish (quick-mode ratings copied) is stored in front, the recent list and the memory lane are refreshed as `addDish` does, and the form is reset; the theme and text settings never change |
| DishLog.DishLogViewModel.SaveWithRestaurant | platemate_lol/DishLogView.swift:219-252 | the successful branch of the save, with the same outcome and the same frame |

## Left out

- SwiftUI layout, animation, haptics, the photo picker and image
  filtering: no behaviour to state beyond `hasImage`. A photo whose JPEG
  encoding fails is still counted as present.
- Persistence plumbing. `saveContext` errors are printed and ignored, so
  the model treats every save as successful. A failing `fetchDishes` (which
  keeps the old list) is not modelled. Core Data's object graph is replaced
  by values: a dish refers to its restaurant by name, and a dish is copied
  into each list that shows it rather than shared (see `UpdateDish` below).
- The Combine debounce of the query bindings and all delayed dispatches.
  `DiscoveryViewState.SetQuery` models a query change once the debounce has
  settled, re-filtering only when `setDishViewModel(_:)` installed the
  bindings.
- Calendar and `DateFormatter` arithmetic. Ages are differences of day
  numbers, and the month of a day is the `monthOf` parameter. Month keys are
  (year, month) pairs rather than `"MMMM yyyy"` strings, so the unparsable-key
  branch of `sortKeysDescending` does not arise.
- Unicode. Lower-casing is ASCII-only, and `CONTAINS[cd]` diacritic
  folding is not modelled.
- Floating point. Ratings, averages, scores and progress are exact reals;
  IEEE rounding and the `Float` progress value are not modelled.
- Identity. `UUID()` is the counter `nextId`, which only guarantees that
  new ids differ from existing ones.
- Operations outside the modelled core: `deleteDish`, `getAllRestaurants`,
  `fetchFavoriteRestaurants` (its list is not kept), `trackSharedDish` and
  `shareConversionRate`.
- Discovery.DiscoveryViewState.Appear: the model's `fetchDishes()` call that
  opens `onAppear` (DiscoveryView.swift:54) is not repeated; the model's list
  is taken as it stands.
- RatingDisplay.RatingColorsAgree: the same 0..<2.5 / 2.5..<3.8 switch is
  repeated in `EnhancedRatingRow` and `EnhancedSwipeRatingView`
  (DishLogView.swift:1226, :1337), `DishRow` (DiscoveryView.swift:531), the
  memory lane (MemoryLaneView.swift:445), `RatingPill` (RatingPill.swift:33)
  and the share card (PlateCardView.swift:346, :409). Those copies are
  identical to the modelled ones but are not modelled separately.
  `SwipeRatingView` (SwipeRatingView.swift:94-103) uses different bands
  (0..<2 red, 2..<3.5 orange) and is not modelled.
- ViewModel.DishViewModel.UpdateDish: the source edits the shared `Dish`
  object, so every list holding it (the dish view model's throwbacks and
  month buckets, the discovery screen's filtered list and throwbacks) shows
  the new values at once. The model rewrites only `dishes` and
  `recentDishes`; those other lists keep the old record until they are
  recomputed.
- ViewModel.DishViewModel.FetchWith: the re-fetch sorted by date is modelled
  as putting the new dish in front. That is the sort's outcome only when no
  stored dish is dated after today.
- Discovery.SortDishes: Swift's `sorted(by:)` gives no order for ties, and
  the contract does not state one. The trending score uses one `today` for
  every comparison, while the source reads the clock in each comparison.
- DishLog.FindRestaurant: the store's `restaurants.first` has no sort
  descriptor, so its order is unspecified; the model takes the first in
  table order.
- DishLog.SuggestionsMatch: the store's order among restaurants with equal
  visit counts is unspecified and is not stated.
- CardPreferences.Encode: the `default` branch of the weight switch (a
  `Font.Weight` outside the nine named ones) cannot arise with the nine-case
  weight type.
- CardPreferences.Decode: a key holding a value of the wrong type is
  treated as a missing key.
