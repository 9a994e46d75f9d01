/** The dish-logging form: its completion progress, its validity, the
    restaurant autocomplete, and saving a dish (which finds or creates the
    restaurant, bumps its visit count, hands the dish to the dish view model
    and resets the form). */
module DishLog {
  import opened Wrappers
  import opened Dishes
  import opened Seqs
  import opened Sorting
  import opened Text
  import opened DishQueries
  import opened ViewModel

  /** The rating every slider starts at. */
  const DefaultRating: real := 3.0

  /** `fetchLimit` of the autocomplete request. */
  const SuggestionLimit: nat := 5

  // ------------------------------------------------------------ form values

  /** The user-editable fields of the form; `hasImage` is `selectedImage !=
      nil`. */
  datatype Form = Form(
    dishName: string,
    restaurantName: string,
    notes: string,
    taste: real,
    presentation: real,
    value: real,
    hasImage: bool,
    isQuickMode: bool)

  /** The values `resetForm()` (and the initialiser) put in place. */
  const DefaultForm: Form := Form("", "", "", DefaultRating, DefaultRating, DefaultRating, false, false)

  /** Photo, name and restaurant in quick mode; notes and the ratings too in
      full mode. */
  function TotalFields(quick: bool): nat
  {
    if quick then 3 else 5
  }

  function Count(b: bool): nat
  {
    if b then 1 else 0
  }

  /** The three ratings count as one field once any has left its default. */
  predicate RatingsTouched(f: Form)
  {
    f.taste != DefaultRating || f.presentation != DefaultRating || f.value != DefaultRating
  }

  /** How many tracked fields are filled in. */
  function CompletedFields(f: Form): (n: nat)
    ensures n <= TotalFields(f.isQuickMode)
  {
    Count(f.hasImage) + Count(f.dishName != "") + Count(f.restaurantName != "")
    + (if f.isQuickMode then 0 else Count(f.notes != "") + Count(RatingsTouched(f)))
  }

  /** The share of tracked fields filled in. */
  function Progress(f: Form): real
  {
    CompletedFields(f) as real / TotalFields(f.isQuickMode) as real
  }

  /** Every field the current mode tracks is filled in. */
  predicate AllFilled(f: Form)
  {
    && f.hasImage && f.dishName != "" && f.restaurantName != ""
    && (!f.isQuickMode ==> f.notes != "" && RatingsTouched(f))
  }

  /** No field the current mode tracks is filled in. */
  predicate NoneFilled(f: Form)
  {
    && !f.hasImage && f.dishName == "" && f.restaurantName == ""
    && (!f.isQuickMode ==> f.notes == "" && !RatingsTouched(f))
  }

  /** Progress runs from 0 to 1, reaching 1 exactly when every tracked field
      is filled and 0 exactly when none is. */
  lemma ProgressBounds(f: Form)
    ensures 0.0 <= Progress(f) <= 1.0
    ensures Progress(f) == 1.0 <==> AllFilled(f)
    ensures Progress(f) == 0.0 <==> NoneFilled(f)
  {
    var n, t := CompletedFields(f), TotalFields(f.isQuickMode);
    assert n == t <==> AllFilled(f);
    assert n == 0 <==> NoneFilled(f);
    assert Progress(f) * t as real == n as real;
  }

  /** `SaveButton.isFormValid`: the button is enabled only with a dish name,
      a restaurant name and a photo. */
  predicate IsFormValid(dishName: string, restaurantName: string, hasImage: bool)
  {
    dishName != "" && restaurantName != "" && hasImage
  }

  /** A full progress bar means the form can be saved; in quick mode the
      converse holds too, while full mode also asks for notes and ratings. */
  lemma ProgressAndValidity(f: Form)
    ensures Progress(f) == 1.0 ==> IsFormValid(f.dishName, f.restaurantName, f.hasImage)
    ensures f.isQuickMode ==> (Progress(f) == 1.0 <==> IsFormValid(f.dishName, f.restaurantName, f.hasImage))
    ensures !f.isQuickMode && f.notes == "" ==> Progress(f) < 1.0
  {
    ProgressBounds(f);
  }

  /** A fresh form shows no progress and cannot be saved. */
  lemma DefaultFormEmpty()
    ensures Progress(DefaultForm) == 0.0
    ensures !IsFormValid(DefaultForm.dishName, DefaultForm.restaurantName, DefaultForm.hasImage)
  {
    ProgressBounds(DefaultForm);
  }

  // ----------------------------------------------------------- restaurants

  /** The `name == %@` lookup: the first restaurant with exactly this name. */
  function FindRestaurant(table: seq<Restaurant>, name: string): (r: Option<nat>)
    ensures r.Some? ==> r.value < |table| && table[r.value].name == name
    ensures r.Some? ==> forall j :: 0 <= j < r.value ==> table[j].name != name
    ensures r.None? ==> forall x :: x in table ==> x.name != name
  {
    if table == [] then None
    else if table[0].name == name then Some(0)
    else
      match FindRestaurant(table[1..], name)
      case None => None
      case Some(i) => Some(i + 1)
  }

  /** The table after the form's own lookup-or-create step: the existing
      entry gains a visit, or a new entry with one visit and no location is
      appended. The second result is where the restaurant is. */
  function RecordVisit(table: seq<Restaurant>, name: string): (r: (seq<Restaurant>, nat))
    ensures r.1 < |r.0| && r.0[r.1].name == name
  {
    match FindRestaurant(table, name)
    case Some(i) => (table[i := table[i].(visitCount := table[i].visitCount + 1)], i)
    case None => (table + [Restaurant(name, "", 1)], |table|)
  }

  /** The form's visit and the one `addDish` adds make up a save. */
  lemma RecordThenVisit(table: seq<Restaurant>, name: string)
    ensures var (t, i) := RecordVisit(table, name);
            t[i := Visited(t[i])] == AfterSave(table, name)
  {
  }

  /** The restaurant table after a save under `name`: the existing entry
      gains two visits (one in the form, one in `addDish`), or a new entry
      created with one visit ends with two. */
  function AfterSave(table: seq<Restaurant>, name: string): seq<Restaurant>
  {
    match FindRestaurant(table, name)
    case Some(i) => table[i := table[i].(visitCount := table[i].visitCount + 2)]
    case None => table + [Restaurant(name, "", 2)]
  }

  /** Saving touches only the restaurant of that name: it is found at the
      same place with two more visits, or appended with two visits and an
      empty location; every other entry stays. */
  lemma AfterSaveVisits(table: seq<Restaurant>, name: string)
    ensures var t := AfterSave(table, name);
            match FindRestaurant(table, name)
            case Some(i) =>
              && |t| == |table| && t[i].name == name
              && t[i].visitCount == table[i].visitCount + 2
              && t[i].location == table[i].location
              && forall j :: 0 <= j < |t| && j != i ==> t[j] == table[j]
            case None =>
              && |t| == |table| + 1 && t[..|table|] == table
              && t[|table|] == Restaurant(name, "", 2)
  {
  }

  /** Saving twice under a new name leaves the restaurant at four visits
      (two per save), found where the first save put it. */
  lemma TwoSavesAtNewRestaurant(table: seq<Restaurant>, name: string)
    requires forall x :: x in table ==> x.name != name
    ensures var t := AfterSave(AfterSave(table, name), name);
            |t| == |table| + 1 && t[|table|] == Restaurant(name, "", 4)
  {
    var t1 := AfterSave(table, name);
    assert FindRestaurant(t1, name) == Some(|table|) by {
      FindAppended(table, Restaurant(name, "", 2));
    }
  }

  /** Looking up a name that only the appended entry has finds that entry. */
  lemma {:induction false} FindAppended(table: seq<Restaurant>, x: Restaurant)
    requires forall y :: y in table ==> y.name != x.name
    ensures FindRestaurant(table + [x], x.name) == Some(|table|)
  {
    if table != [] {
      assert (table + [x])[1..] == table[1..] + [x];
      FindAppended(table[1..], x);
    }
  }

  function MatchesQuery(query: string): Restaurant -> bool
  {
    (r: Restaurant) => Contains(Lower(r.name), Lower(query))
  }

  function VisitKey(r: Restaurant): real
  {
    r.visitCount as real
  }

  /** The `name CONTAINS[cd] %@` request sorted by visit count, largest
      first, limited to five: the most visited matching restaurants. */
  function SuggestedRestaurants(table: seq<Restaurant>, query: string): (r: seq<Restaurant>)
    ensures |r| == Min(SuggestionLimit, |Filter(table, MatchesQuery(query))|)
    ensures multiset(r) <= multiset(Filter(table, MatchesQuery(query)))
  {
    var matches := Filter(table, MatchesQuery(query));
    var sorted := SortDesc(matches, VisitKey);
    assert |multiset(sorted)| == |sorted| && |multiset(matches)| == |matches|;
    PrefixMultiset(sorted, Min(SuggestionLimit, |sorted|));
    Take(sorted, SuggestionLimit)
  }

  /** A prefix holds each element at most as often as the whole sequence. */
  lemma PrefixMultiset<T>(s: seq<T>, n: nat)
    requires n <= |s|
    ensures multiset(s[..n]) <= multiset(s)
  {
    assert s == s[..n] + s[n..];
  }

  /** Every suggestion is a stored restaurant whose name contains the typed
      text, ignoring case, and the most visited come first. */
  lemma SuggestionsMatch(table: seq<Restaurant>, query: string)
    ensures forall x :: x in SuggestedRestaurants(table, query) ==>
              x in table && Contains(Lower(x.name), Lower(query))
    ensures forall i, j :: 0 <= i < j < |SuggestedRestaurants(table, query)| ==>
              SuggestedRestaurants(table, query)[i].visitCount >= SuggestedRestaurants(table, query)[j].visitCount
  {
    var matches := Filter(table, MatchesQuery(query));
    var r := SuggestedRestaurants(table, query);
    forall x | x in r ensures x in table && Contains(Lower(x.name), Lower(query)) {
      assert x in multiset(r);
      assert x in matches;
    }
    SuggestionsOrdered(table, query);
  }

  lemma SuggestionsOrdered(table: seq<Restaurant>, query: string)
    ensures forall i, j :: 0 <= i < j < |SuggestedRestaurants(table, query)| ==>
              SuggestedRestaurants(table, query)[i].visitCount >= SuggestedRestaurants(table, query)[j].visitCount
  {
    var sorted := SortDesc(Filter(table, MatchesQuery(query)), VisitKey);
    var r := SuggestedRestaurants(table, query);
    assert r == Take(sorted, SuggestionLimit);
    forall i, j | 0 <= i < j < |r| ensures r[i].visitCount >= r[j].visitCount {
      assert VisitKey(sorted[i]) >= VisitKey(sorted[j]);
    }
  }

  /** The suggestions are the most visited matches: a matching restaurant
      left out has no more visits than any suggestion. */
  lemma SuggestionsAreTop(table: seq<Restaurant>, query: string, x: Restaurant)
    requires x in table && Contains(Lower(x.name), Lower(query))
    requires x !in SuggestedRestaurants(table, query)
    ensures forall i :: 0 <= i < |SuggestedRestaurants(table, query)| ==>
              SuggestedRestaurants(table, query)[i].visitCount >= x.visitCount
  {
    var matches := Filter(table, MatchesQuery(query));
    var sorted := SortDesc(matches, VisitKey);
    var r := SuggestedRestaurants(table, query);
    assert r == Take(sorted, SuggestionLimit);
    PermutationSameElements(matches, sorted);
    assert x in sorted;
    var p :| 0 <= p < |sorted| && sorted[p] == x;
    assert p >= |r|;
    forall i | 0 <= i < |r| ensures r[i].visitCount >= x.visitCount {
      assert VisitKey(sorted[i]) >= VisitKey(sorted[p]);
    }
  }

  /** `restaurants.map { $0.name ?? "" }`. */
  function Names(rs: seq<Restaurant>): (names: seq<string>)
    ensures |names| == |rs|
    ensures forall i :: 0 <= i < |rs| ==> names[i] == rs[i].name
  {
    seq(|rs|, i requires 0 <= i < |rs| => rs[i].name)
  }

  /** A quick-mode save stores the taste rating in all three ratings, so the
      stored average is the taste rating. */
  lemma QuickModeAverage(taste: real)
    ensures Mean(taste, taste, taste) == taste
  {
  }

  /** The dish a save of form `f` creates: in quick mode the presentation
      and value ratings are overwritten with the taste rating first. */
  function SavedDish(f: Form, id: nat, today: int): (d: Dish)
    ensures AverageConsistent(d) && d.id == id && d.dateAdded == Some(today)
    ensures d.name == Some(f.dishName) && d.restaurant == Some(f.restaurantName)
    ensures f.isQuickMode ==> d.averageRating == f.taste
  {
    if f.isQuickMode then
      NewDish(id, f.dishName, f.restaurantName, f.notes, f.hasImage, f.taste, f.taste, f.taste, today)
    else
      NewDish(id, f.dishName, f.restaurantName, f.notes, f.hasImage, f.taste, f.presentation, f.value, today)
  }

  // ------------------------------------------------------------ view model

  /** `DishLogViewModel`: the form fields, the progress bar and the
      autocomplete list. */
  class DishLogViewModel {
    var dishName: string
    var restaurantName: string
    var notes: string
    var tasteRating: real
    var presentationRating: real
    var valueRating: real
    var hasImage: bool
    var isQuickMode: bool
    var completionProgress: real
    var restaurantSuggestions: seq<string>

    /** The form as a value. */
    function Snapshot(): Form
      reads this
    {
      Form(dishName, restaurantName, notes, tasteRating, presentationRating, valueRating,
                   hasImage, isQuickMode)
    }

    constructor ()
      ensures Snapshot() == DefaultForm && completionProgress == 0.0 && restaurantSuggestions == []
    {
      dishName := "";
      restaurantName := "";
      notes := "";
      tasteRating := DefaultRating;
      presentationRating := DefaultRating;
      valueRating := DefaultRating;
      hasImage := false;
      isQuickMode := false;
      completionProgress := 0.0;
      restaurantSuggestions := [];
    }

    /** `updateCompletionProgress()`: count the filled fields one by one. */
    method UpdateCompletionProgress()
      modifies this`completionProgress
      ensures completionProgress == Progress(Snapshot())
    {
      var totalFields: nat := if isQuickMode then 3 else 5;
      var completedFields: nat := 0;
      if hasImage { completedFields := completedFields + 1; }
      if dishName != "" { completedFields := completedFields + 1; }
      if restaurantName != "" { completedFields := completedFields + 1; }
      if !isQuickMode {
        if notes != "" { completedFields := completedFields + 1; }
        if tasteRating != DefaultRating || presentationRating != DefaultRating || valueRating != DefaultRating {
          completedFields := completedFields + 1;
        }
      }
      completionProgress := completedFields as real / totalFields as real;
    }

    /** `fetchRestaurantSuggestions()` against the restaurant table `table`;
        `fetchFails` stands for the store request throwing. */
    method FetchRestaurantSuggestions(table: seq<Restaurant>, fetchFails: bool)
      modifies this`restaurantSuggestions
      ensures restaurantName == "" || fetchFails ==> restaurantSuggestions == []
      ensures restaurantName != "" && !fetchFails ==>
                restaurantSuggestions == Names(SuggestedRestaurants(table, restaurantName))
      ensures |restaurantSuggestions| <= SuggestionLimit
    {
      if restaurantName == "" {
        restaurantSuggestions := [];
        return;
      }
      if fetchFails {
        restaurantSuggestions := [];
      } else {
        restaurantSuggestions := Names(SuggestedRestaurants(table, restaurantName));
      }
    }

    /** `resetForm()`: every field back to its default, quick mode off. */
    method ResetForm()
      modifies this`dishName, this`restaurantName, this`notes, this`tasteRating,
               this`presentationRating, this`valueRating, this`hasImage,
               this`isQuickMode, this`completionProgress
      ensures Snapshot() == DefaultForm && completionProgress == 0.0
    {
      dishName := "";
      restaurantName := "";
      notes := "";
      tasteRating := DefaultRating;
      presentationRating := DefaultRating;
      valueRating := DefaultRating;
      hasImage := false;
      completionProgress := 0.0;
      isQuickMode := false;
    }

    /** The "Full Log" button: only when quick mode is on does it switch and
        refresh the progress. */
    method SelectFullMode()
      modifies this`isQuickMode, this`completionProgress
      ensures !isQuickMode
      ensures !old(isQuickMode) ==> completionProgress == old(completionProgress)
      ensures old(isQuickMode) ==> completionProgress == Progress(Snapshot())
    {
      if isQuickMode {
        isQuickMode := false;
        UpdateCompletionProgress();
      }
    }

    /** The "Quick Log" button: only when quick mode is off does it switch
        and refresh the progress. */
    method SelectQuickMode()
      modifies this`isQuickMode, this`completionProgress
      ensures isQuickMode
      ensures old(isQuickMode) ==> completionProgress == old(completionProgress)
      ensures !old(isQuickMode) ==> completionProgress == Progress(Snapshot())
    {
      if !isQuickMode {
        isQuickMode := true;
        UpdateCompletionProgress();
      }
    }

    /** The first step of `saveDish`: find the restaurant by exact name and
        bump its visit count, or create it with one visit. */
    method VisitRestaurant(vm: DishViewModel) returns (index: nat)
      modifies vm`restaurants
      ensures (vm.restaurants, index) == RecordVisit(old(vm.restaurants), restaurantName)
    {
      var found := FindRestaurant(vm.restaurants, restaurantName);
      if found.Some? {
        index := found.value;
        vm.restaurants := vm.restaurants[index := vm.restaurants[index].(visitCount := vm.restaurants[index].visitCount + 1)];
      } else {
        vm.restaurants := vm.restaurants + [Restaurant(restaurantName, "", 1)];
        index := |vm.restaurants| - 1;
      }
    }

    /** The `addDish` call of `saveDish`, with the form's current values. */
    method HandOver(vm: DishViewModel, index: nat, today: int, monthOf: int -> MonthKey)
      requires vm.Valid() && index < |vm.restaurants|
      modifies vm`restaurants, vm`dishes, vm`recentDishes, vm`nextId
      modifies vm`throwbackDishes, vm`groupedDishes, vm`sortedGroupKeys
      ensures vm.Valid()
      ensures vm.restaurants == old(vm.restaurants)[index := Visited(old(vm.restaurants)[index])]
      ensures vm.dishes == [NewDish(old(vm.nextId), dishName, old(vm.restaurants)[index].name, notes, hasImage,
                                    tasteRating, presentationRating, valueRating, today)] + old(vm.dishes)
      ensures old(vm.AveragesConsistent()) ==> vm.AveragesConsistent()
      ensures vm.recentDishes == Take(vm.dishes, RecentLimit)
      ensures vm.throwbackDishes == Throwbacks(old(vm.dishes), ThrowbackWindow, today)
      ensures vm.groupedDishes == GroupByMonth(old(vm.dishes), today, monthOf)
      ensures vm.sortedGroupKeys == SortKeysDescending(GroupKeys(old(vm.dishes), today, monthOf))
    {
      vm.AddDish(dishName, index, notes, hasImage, tasteRating, presentationRating, valueRating, today, monthOf);
    }

    /** `saveDish(dishViewModel:)`. `lookupFails` stands for the restaurant
        request throwing: then nothing at all changes. */
    method SaveDish(vm: DishViewModel, lookupFails: bool, today: int, monthOf: int -> MonthKey)
      requires vm.Valid()
      modifies this
      modifies vm`restaurants, vm`dishes, vm`recentDishes, vm`nextId
      modifies vm`throwbackDishes, vm`groupedDishes, vm`sortedGroupKeys
      ensures lookupFails ==> unchanged(this) && unchanged(vm)
      ensures !lookupFails ==> Snapshot() == DefaultForm && completionProgress == 0.0
      ensures !lookupFails ==> vm.restaurants == AfterSave(old(vm.restaurants), old(restaurantName))
      ensures !lookupFails ==> vm.dishes == [SavedDish(old(Snapshot()), old(vm.nextId), today)] + old(vm.dishes)
      ensures !lookupFails ==> vm.recentDishes == Take(vm.dishes, RecentLimit)
      ensures !lookupFails ==> vm.throwbackDishes == Throwbacks(old(vm.dishes), ThrowbackWindow, today)
      ensures !lookupFails ==> vm.groupedDishes == GroupByMonth(old(vm.dishes), today, monthOf)
      ensures !lookupFails ==> vm.sortedGroupKeys == SortKeysDescending(GroupKeys(old(vm.dishes), today, monthOf))
      ensures vm.Valid()
      ensures old(vm.AveragesConsistent()) ==> vm.AveragesConsistent()
      ensures restaurantSuggestions == old(restaurantSuggestions)
    {
      if !lookupFails {
        SaveWithRestaurant(vm, today, monthOf);
      }
    }

    /** `saveDish` once the lookup succeeded: the restaurant is found by
        exact name and bumped, or created with one visit; in quick mode the
        taste rating is copied into the other two; `addDish` bumps the
        restaurant once more and stores the dish; the form is reset. */
    method SaveWithRestaurant(vm: DishViewModel, today: int, monthOf: int -> MonthKey)
      requires vm.Valid()
      modifies this
      modifies vm`restaurants, vm`dishes, vm`recentDishes, vm`nextId
      modifies vm`throwbackDishes, vm`groupedDishes, vm`sortedGroupKeys
      ensures Snapshot() == DefaultForm && completionProgress == 0.0
      ensures vm.restaurants == AfterSave(old(vm.restaurants), old(restaurantName))
      ensures vm.dishes == [SavedDish(old(Snapshot()), old(vm.nextId), today)] + old(vm.dishes)
      ensures vm.recentDishes == Take(vm.dishes, RecentLimit)
      ensures vm.throwbackDishes == Throwbacks(old(vm.dishes), ThrowbackWindow, today)
      ensures vm.groupedDishes == GroupByMonth(old(vm.dishes), today, monthOf)
      ensures vm.sortedGroupKeys == SortKeysDescending(GroupKeys(old(vm.dishes), today, monthOf))
      ensures vm.Valid()
      ensures old(vm.AveragesConsistent()) ==> vm.AveragesConsistent()
      ensures restaurantSuggestions == old(restaurantSuggestions)
    {
      ghost var form, dishes, id := Snapshot(), vm.dishes, vm.nextId;
      var index := VisitRestaurant(vm);
      if isQuickMode {
        presentationRating := tasteRating;
        valueRating := tasteRating;
      }
      RecordThenVisit(old(vm.restaurants), restaurantName);
      assert vm.dishes == dishes && vm.nextId == id;
      assert SavedDish(form, id, today) ==
             NewDish(id, dishName, vm.restaurants[index].name, notes, hasImage,
                     tasteRating, presentationRating, valueRating, today);
      HandOver(vm, index, today, monthOf);
      ResetForm();
    }
  }
}
