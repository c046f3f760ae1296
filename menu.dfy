/**
 * The menu page's list derivation (`filterFoods` in app/foods/page.tsx):
 * an optional case-insensitive search on name or description, an optional
 * category filter with an "All Categories" sentinel, then a stable sort by
 * price, by calories, or by name for any other sort key.
 */
module Menu {
  import opened Common
  import opened Catalog
  import opened StableSort

  /** The category value that applies no category filter. */
  const AllCategories := "All Categories"

  /** The sort key the page starts with. */
  const InitialSortBy := "name"

  /** The category the page starts with: the `category` query parameter,
      unless it is absent or empty (`categoryParam || 'All Categories'`). */
  function InitialCategory(categoryParam: Option<string>): (r: string)
    ensures categoryParam.Some? && categoryParam.value != "" ==> r == categoryParam.value
    ensures categoryParam.None? || categoryParam.value == "" ==> r == AllCategories
    ensures r != ""
  {
    match categoryParam
    case Some(c) => if c != "" then c else AllCategories
    case None => AllCategories
  }

  /** The sentinel is not the name of any seed category, so choosing it
      never stands for one real category. */
  lemma SentinelIsNoSeedCategory()
    ensures AllCategories !in CategoryNames(SeedCategories)
  {
    assert CategoryNames(SeedCategories) == ["Pre-Workout", "Post-Workout", "Heart Healthy", "Weight Management"];
  }

  /** A non-empty search term filters; an empty one does not. */
  predicate SearchApplies(searchTerm: string)
  {
    searchTerm != ""
  }

  /** A category filters unless it is empty or the sentinel. */
  predicate CategoryApplies(selectedCategory: string)
  {
    selectedCategory != "" && selectedCategory != AllCategories
  }

  predicate MatchesSearch(food: FoodItem, searchTerm: string)
  {
    var term := ToLower(searchTerm);
    Contains(ToLower(food.fields.name), term) || Contains(ToLower(food.fields.description), term)
  }

  function SearchPredicate(searchTerm: string): FoodItem -> bool
  {
    (food: FoodItem) => MatchesSearch(food, searchTerm)
  }

  function CategoryPredicate(selectedCategory: string): FoodItem -> bool
  {
    (food: FoodItem) => food.fields.category == selectedCategory
  }

  /** `food` survives both filters of the page. */
  predicate Passes(food: FoodItem, searchTerm: string, selectedCategory: string)
  {
    && (SearchApplies(searchTerm) ==> MatchesSearch(food, searchTerm))
    && (CategoryApplies(selectedCategory) ==> food.fields.category == selectedCategory)
  }

  function PassesPredicate(searchTerm: string, selectedCategory: string): FoodItem -> bool
  {
    (food: FoodItem) => Passes(food, searchTerm, selectedCategory)
  }

  /** The key the comparator of lines 77-86 compares: `'price'` and
      `'calories'` compare numbers, every other value compares names. */
  function SortKey(sortBy: string): FoodItem -> Key
  {
    (food: FoodItem) =>
      if sortBy == "price" then Number(food.fields.price)
      else if sortBy == "calories" then Number(food.fields.calories as real)
      else Text(food.fields.name)
  }

  /** The list `filterFoods` passes to `setFilteredFoods`, step by step as
      the page computes it. */
  function FilteredFoods(foods: seq<FoodItem>, searchTerm: string, selectedCategory: string, sortBy: string): (r: seq<FoodItem>)
    // filtering never adds items; with neither filter active nothing is dropped
    ensures |r| <= |foods|
    ensures !SearchApplies(searchTerm) && !CategoryApplies(selectedCategory) ==> |r| == |foods|
  {
    var afterSearch := if SearchApplies(searchTerm) then Filter(foods, SearchPredicate(searchTerm)) else foods;
    var afterCategory :=
      if CategoryApplies(selectedCategory) then Filter(afterSearch, CategoryPredicate(selectedCategory)) else afterSearch;
    Sort(afterCategory, SortKey(sortBy))
  }

  /** The two filters in sequence keep exactly the items passing both, in
      input order, and the page shows them sorted. */
  lemma FilteredIsSortOfPassing(foods: seq<FoodItem>, searchTerm: string, selectedCategory: string, sortBy: string)
    ensures FilteredFoods(foods, searchTerm, selectedCategory, sortBy)
         == Sort(Filter(foods, PassesPredicate(searchTerm, selectedCategory)), SortKey(sortBy))
  {
    var passes := PassesPredicate(searchTerm, selectedCategory);
    var search, category := SearchPredicate(searchTerm), CategoryPredicate(selectedCategory);
    if SearchApplies(searchTerm) && CategoryApplies(selectedCategory) {
      FilterFilter(foods, search, category, passes);
    } else if SearchApplies(searchTerm) {
      FilterFilter(foods, search, x => true, passes);
      FilterKeepsAll(Filter(foods, search), x => true);
    } else if CategoryApplies(selectedCategory) {
      FilterFilter(foods, x => true, category, passes);
      FilterKeepsAll(foods, x => true);
    } else {
      FilterKeepsAll(foods, passes);
    }
  }

  /** The result is a permutation of exactly the input items that pass both
      predicates: each value occurs as often as in the input if it passes,
      and not at all otherwise. */
  lemma FilteredCount(foods: seq<FoodItem>, searchTerm: string, selectedCategory: string, sortBy: string, x: FoodItem)
    ensures multiset(FilteredFoods(foods, searchTerm, selectedCategory, sortBy))[x]
         == if Passes(x, searchTerm, selectedCategory) then multiset(foods)[x] else 0
  {
    var passing := Filter(foods, PassesPredicate(searchTerm, selectedCategory));
    FilteredIsSortOfPassing(foods, searchTerm, selectedCategory, sortBy);
    SortPermutes(passing, SortKey(sortBy));
    FilterCount(foods, PassesPredicate(searchTerm, selectedCategory), x);
  }

  /** With a non-empty search term every shown item's lower-cased name or
      description contains the lower-cased term; with a category filter every
      shown item has that category. */
  lemma FilteredSound(foods: seq<FoodItem>, searchTerm: string, selectedCategory: string, sortBy: string)
    ensures forall food :: food in FilteredFoods(foods, searchTerm, selectedCategory, sortBy) ==>
      && food in foods
      && (SearchApplies(searchTerm) ==> MatchesSearch(food, searchTerm))
      && (CategoryApplies(selectedCategory) ==> food.fields.category == selectedCategory)
  {
    forall food | food in FilteredFoods(foods, searchTerm, selectedCategory, sortBy)
      ensures food in foods && Passes(food, searchTerm, selectedCategory)
    {
      FilteredCount(foods, searchTerm, selectedCategory, sortBy, food);
    }
  }

  /** Every loaded item that passes both filters is shown. */
  lemma FilteredComplete(foods: seq<FoodItem>, searchTerm: string, selectedCategory: string, sortBy: string, food: FoodItem)
    requires food in foods && Passes(food, searchTerm, selectedCategory)
    ensures food in FilteredFoods(foods, searchTerm, selectedCategory, sortBy)
  {
    FilteredCount(foods, searchTerm, selectedCategory, sortBy, food);
  }

  /** With an empty term and no category filter the page shows every loaded
      item, each as often as it was loaded. */
  lemma NoFilterShowsAll(foods: seq<FoodItem>, selectedCategory: string, sortBy: string)
    requires !CategoryApplies(selectedCategory)
    ensures multiset(FilteredFoods(foods, "", selectedCategory, sortBy)) == multiset(foods)
  {
    forall x | true
      ensures multiset(FilteredFoods(foods, "", selectedCategory, sortBy))[x] == multiset(foods)[x]
    {
      FilteredCount(foods, "", selectedCategory, sortBy, x);
    }
  }

  /** Ordering by price and by calories is non-decreasing, and by name for
      any other sort key. */
  lemma FilteredOrdered(foods: seq<FoodItem>, searchTerm: string, selectedCategory: string, sortBy: string)
    ensures var r := FilteredFoods(foods, searchTerm, selectedCategory, sortBy);
      forall i, j :: 0 <= i < j < |r| ==>
        if sortBy == "price" then r[i].fields.price <= r[j].fields.price
        else if sortBy == "calories" then r[i].fields.calories <= r[j].fields.calories
        else TextCompare(r[i].fields.name, r[j].fields.name) <= 0
  {
    var afterSearch := if SearchApplies(searchTerm) then Filter(foods, SearchPredicate(searchTerm)) else foods;
    var afterCategory :=
      if CategoryApplies(selectedCategory) then Filter(afterSearch, CategoryPredicate(selectedCategory)) else afterSearch;
    SortSorted(afterCategory, SortKey(sortBy));
  }

  /** The page opens sorted by name: before any sort choice, the list is in
      name order whatever the search and category. */
  lemma InitialOrderIsByName(foods: seq<FoodItem>, searchTerm: string, selectedCategory: string)
    ensures var r := FilteredFoods(foods, searchTerm, selectedCategory, InitialSortBy);
      forall i, j :: 0 <= i < j < |r| ==> TextCompare(r[i].fields.name, r[j].fields.name) <= 0
  {
    FilteredOrdered(foods, searchTerm, selectedCategory, InitialSortBy);
  }

  /** Items with equal sort keys keep their input relative order. */
  lemma FilteredStable(foods: seq<FoodItem>, searchTerm: string, selectedCategory: string, sortBy: string, k: Key)
    ensures WithKey(FilteredFoods(foods, searchTerm, selectedCategory, sortBy), SortKey(sortBy), k)
         == WithKey(Filter(foods, PassesPredicate(searchTerm, selectedCategory)), SortKey(sortBy), k)
  {
    FilteredIsSortOfPassing(foods, searchTerm, selectedCategory, sortBy);
    SortStable(Filter(foods, PassesPredicate(searchTerm, selectedCategory)), SortKey(sortBy), k);
  }

  /** `filterFoods()`. When neither filter applies, `filtered` is the `foods`
      array itself and the sort reorders it in place; otherwise `filter` made
      a new array and `foods` is untouched. */
  method FilterFoods(foods: array<FoodItem>, searchTerm: string, selectedCategory: string, sortBy: string)
    returns (filtered: array<FoodItem>)
    modifies foods
    ensures filtered[..] == FilteredFoods(old(foods[..]), searchTerm, selectedCategory, sortBy)
    ensures !SearchApplies(searchTerm) && !CategoryApplies(selectedCategory) ==> filtered == foods
    ensures SearchApplies(searchTerm) || CategoryApplies(selectedCategory) ==>
      fresh(filtered) && foods[..] == old(foods[..])
    ensures multiset(foods[..]) == multiset(old(foods[..]))
  {
    filtered := foods;
    if SearchApplies(searchTerm) {
      filtered := FilterArray(filtered, SearchPredicate(searchTerm));
    }
    if CategoryApplies(selectedCategory) {
      filtered := FilterArray(filtered, CategoryPredicate(selectedCategory));
    }
    ghost var unsorted := filtered[..];
    SortInPlace(filtered, SortKey(sortBy));
    SortPermutes(unsorted, SortKey(sortBy));
  }
}
