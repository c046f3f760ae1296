/**
 * `initializeDatabase` (lib/seed-data.ts): two independent "seed if empty"
 * steps, first over the `categories` collection and then over `foodItems`.
 * Each step reads the collection; if the read returned no documents it
 * appends the seed documents one at a time, in list order. Any failing call
 * throws; the error is logged and re-thrown, and appends already made stay.
 *
 * The store is reduced to the two collections as sequences. Whether each
 * remote call succeeds is a parameter of type `Fault`.
 */
module Seeding {
  import opened Catalog

  /** How the remote calls of one step behave. */
  datatype Fault =
    | NoFault               // every call succeeds
    | ReadFails             // the `getDocs` read throws
    | WriteFailsAfter(n: nat) // the first n `addDoc` calls succeed, the next one throws

  /** `initializeDatabase` resolves (`Done`) or rejects with the re-thrown error. */
  datatype Outcome = Done | Failed

  /** The new contents of one collection after a step, and whether the step
      finished without an error. */
  datatype StepResult<T> = StepResult(contents: seq<T>, ok: bool)

  /** One check-then-append step over a collection holding `current`. */
  function SeedStep<T>(current: seq<T>, seed: seq<T>, fault: Fault): (r: StepResult<T>)
    // a failed read changes nothing
    ensures fault.ReadFails? ==> r == StepResult(current, false)
    // a non-empty collection is left unchanged
    ensures !fault.ReadFails? && current != [] ==> r == StepResult(current, true)
    // an empty collection receives a prefix of the seed list, in order, and
    // all of it exactly when the step succeeds
    ensures !fault.ReadFails? && current == [] ==>
      |r.contents| <= |seed| && r.contents == seed[..|r.contents|] && (r.ok <==> r.contents == seed)
    ensures current == [] && fault.NoFault? ==> r == StepResult(seed, true)
    // an interrupted seed keeps exactly the appends that succeeded
    ensures current == [] && fault.WriteFailsAfter? && fault.n < |seed| ==> r == StepResult(seed[..fault.n], false)
  {
    match fault
    case ReadFails => StepResult(current, false)
    case NoFault => StepResult(if current == [] then seed else current, true)
    case WriteFailsAfter(n) =>
      if current != [] then StepResult(current, true)
      else if n < |seed| then StepResult(seed[..n], false)
      else StepResult(seed, true)
  }

  datatype StoreState = StoreState(categories: seq<CategoryFields>, foodItems: seq<FoodItemFields>)

  /** The store after `initializeDatabase`, and how the call ends. The food
      step runs only when the categories step did not throw. */
  function Initialize(s: StoreState, catFault: Fault, foodFault: Fault): (r: (StoreState, Outcome))
    // a failed first read rejects with the store untouched
    ensures catFault.ReadFails? ==> r == (s, Failed)
    // after a call that resolves, neither collection is empty
    ensures r.1 == Done ==> r.0.categories != [] && r.0.foodItems != []
  {
    SeedSizes();
    var cats := SeedStep(s.categories, SeedCategories, catFault);
    if !cats.ok then (StoreState(cats.contents, s.foodItems), Failed)
    else
      var foods := SeedStep(s.foodItems, SeedFoodItems, foodFault);
      (StoreState(cats.contents, foods.contents), if foods.ok then Done else Failed)
  }

  /** On a store whose calls all succeed, an empty collection afterwards holds
      exactly its seed list and a non-empty one is unchanged, for each of the
      two collections independently. */
  lemma InitializeFaultFree(s: StoreState)
    ensures Initialize(s, NoFault, NoFault).1 == Done
    ensures Initialize(s, NoFault, NoFault).0.categories == if s.categories == [] then SeedCategories else s.categories
    ensures Initialize(s, NoFault, NoFault).0.foodItems == if s.foodItems == [] then SeedFoodItems else s.foodItems
  {
  }

  /** The food step's result does not depend on the categories collection:
      whenever the categories step does not throw, the food items end up as
      the food step alone makes them. */
  lemma FoodStepIndependent(s: StoreState, t: StoreState, catFault: Fault, foodFault: Fault)
    requires s.foodItems == t.foodItems
    requires SeedStep(s.categories, SeedCategories, catFault).ok
    requires SeedStep(t.categories, SeedCategories, catFault).ok
    ensures Initialize(s, catFault, foodFault).0.foodItems == Initialize(t, catFault, foodFault).0.foodItems
    ensures Initialize(s, catFault, foodFault).1 == Initialize(t, catFault, foodFault).1
  {
  }

  /** A failure is reported and nothing is rolled back: after a failing call
      each collection holds its old contents or, if it was empty, a prefix of
      its seed list; an interrupted seed keeps exactly the appends that
      succeeded, and a failed categories step leaves the food items alone. */
  lemma {:induction false} FailureKeepsPartialSeed(s: StoreState, catFault: Fault, foodFault: Fault)
    ensures var (r, _) := Initialize(s, catFault, foodFault);
      && (r.categories == s.categories || (s.categories == [] && r.categories == SeedCategories[..|r.categories|]))
      && (r.foodItems == s.foodItems || (s.foodItems == [] && r.foodItems == SeedFoodItems[..|r.foodItems|]))
    ensures var (r, outcome) := Initialize(s, catFault, foodFault);
      s.categories == [] && catFault.WriteFailsAfter? && catFault.n < |SeedCategories| ==>
        r.categories == SeedCategories[..catFault.n] && r.foodItems == s.foodItems && outcome == Failed
    ensures var (r, outcome) := Initialize(s, catFault, foodFault);
      SeedStep(s.categories, SeedCategories, catFault).ok &&
      s.foodItems == [] && foodFault.WriteFailsAfter? && foodFault.n < |SeedFoodItems| ==>
        r.foodItems == SeedFoodItems[..foodFault.n] && outcome == Failed
  {
    var cats := SeedStep(s.categories, SeedCategories, catFault);
    var foods := SeedStep(s.foodItems, SeedFoodItems, foodFault);
    assert cats.contents == s.categories || (s.categories == [] && cats.contents == SeedCategories[..|cats.contents|]);
    assert foods.contents == s.foodItems || (s.foodItems == [] && foods.contents == SeedFoodItems[..|foods.contents|]);
  }

  /** Running `initializeDatabase` twice on a store whose calls succeed leaves
      the same store as running it once. */
  lemma {:induction false} InitializeIdempotent(s: StoreState)
    ensures Initialize(Initialize(s, NoFault, NoFault).0, NoFault, NoFault) == Initialize(s, NoFault, NoFault)
  {
    SeedSizes();
    InitializeFaultFree(s);
    InitializeFaultFree(Initialize(s, NoFault, NoFault).0);
  }

  /** A seed interrupted after some but not all of its appends is never
      completed: the collection is no longer empty, so every later run skips
      it. */
  lemma {:induction false} PartialSeedIsPermanent(s: StoreState, n: nat, foodFault: Fault)
    requires s.categories == [] && 0 < n < |SeedCategories|
    ensures var after := Initialize(s, WriteFailsAfter(n), foodFault);
      && after.1 == Failed
      && after.0.categories == SeedCategories[..n]
      && Initialize(after.0, NoFault, NoFault).0.categories == SeedCategories[..n]
  {
    var after := Initialize(s, WriteFailsAfter(n), foodFault);
    assert after.0.categories == SeedCategories[..n];
    assert |after.0.categories| == n;
    InitializeFaultFree(after.0);
  }

  /** The remote store's two collections, as `initializeDatabase` sees them. */
  class CatalogStore {
    var categories: seq<CategoryFields>
    var foodItems: seq<FoodItemFields>

    constructor (categories: seq<CategoryFields>, foodItems: seq<FoodItemFields>)
      ensures this.categories == categories && this.foodItems == foodItems
    {
      this.categories := categories;
      this.foodItems := foodItems;
    }

    function State(): StoreState
      reads this
    {
      StoreState(categories, foodItems)
    }

    /** `initializeDatabase()`. */
    method InitializeDatabase(catFault: Fault, foodFault: Fault) returns (outcome: Outcome)
      modifies this
      ensures (State(), outcome) == Initialize(old(State()), catFault, foodFault)
    {
      var ok := SeedCategoriesStep(catFault);
      if !ok {
        return Failed;
      }
      ok := SeedFoodItemsStep(foodFault);
      outcome := if ok then Done else Failed;
    }

    /** Lines 239-251: read `categories`; append the seed categories if the
        snapshot was empty. `ok` is false when a call threw. */
    method SeedCategoriesStep(fault: Fault) returns (ok: bool)
      modifies this`categories
      ensures StepResult(categories, ok) == SeedStep(old(categories), SeedCategories, fault)
    {
      if fault.ReadFails? {
        return false;
      }
      if categories == [] {
        for i := 0 to |SeedCategories|
          invariant categories == SeedCategories[..i]
          invariant fault.WriteFailsAfter? ==> i <= fault.n
        {
          if fault.WriteFailsAfter? && fault.n == i {
            return false;
          }
          categories := categories + [SeedCategories[i]];
        }
        assert categories == SeedCategories;
      }
      return true;
    }

    /** Lines 254-266: the same step over `foodItems`. */
    method SeedFoodItemsStep(fault: Fault) returns (ok: bool)
      modifies this`foodItems
      ensures StepResult(foodItems, ok) == SeedStep(old(foodItems), SeedFoodItems, fault)
    {
      if fault.ReadFails? {
        return false;
      }
      if foodItems == [] {
        for i := 0 to |SeedFoodItems|
          invariant foodItems == SeedFoodItems[..i]
          invariant fault.WriteFailsAfter? ==> i <= fault.n
        {
          if fault.WriteFailsAfter? && fault.n == i {
            return false;
          }
          foodItems := foodItems + [SeedFoodItems[i]];
        }
        assert foodItems == SeedFoodItems;
      }
      return true;
    }
  }
}
