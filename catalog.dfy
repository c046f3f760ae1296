/**
 * The catalog's document shapes and the fixed reference data written into an
 * empty store (`categories` and `foodItems` in lib/seed-data.ts). The id of
 * a document is assigned by the store, so the seed entries carry every field
 * except `id`. Prices are exact decimal amounts; no claim is made about
 * their binary floating-point rounding.
 */
module Catalog {

  /** A category document without its store-assigned id. */
  datatype CategoryFields = CategoryFields(name: string, description: string, icon: string, itemCount: int)

  /** A food item document without its store-assigned id. */
  datatype FoodItemFields = FoodItemFields(
    name: string,
    description: string,
    price: real,
    calories: int,
    protein: string,
    image: string,
    category: string)

  /** A food item as the pages hold it: `{ id: doc.id, ...doc.data() }`. */
  datatype FoodItem = FoodItem(id: string, fields: FoodItemFields)

  const SeedCategories: seq<CategoryFields> := [
    CategoryFields("Pre-Workout", "Energy boosting meals to fuel your training", "zap", 15),
    CategoryFields("Post-Workout", "Recovery meals rich in protein and nutrients", "activity", 22),
    CategoryFields("Heart Healthy", "Cardiovascular wellness focused nutrition", "heart", 18),
    CategoryFields("Weight Management", "Balanced meals for your fitness goals", "target", 25)
  ]

  const SeedFoodItems: seq<FoodItemFields> := [
    FoodItemFields(
      "Grilled Chicken Quinoa Bowl",
      "Lean protein with complete amino acids, quinoa, and steamed broccoli. Perfect post-workout meal.",
      12.99, 450, "35g",
      "https://images.pexels.com/photos/1640777/pexels-photo-1640777.jpeg?auto=compress&cs=tinysrgb&w=400",
      "Post-Workout"),
    FoodItemFields(
      "Salmon Sweet Potato Power",
      "Omega-3 rich salmon with roasted sweet potato and mixed greens. Great for muscle recovery.",
      15.99, 520, "32g",
      "https://images.pexels.com/photos/725991/pexels-photo-725991.jpeg?auto=compress&cs=tinysrgb&w=400",
      "Post-Workout"),
    FoodItemFields(
      "Protein Power Smoothie Bowl",
      "Plant-based protein blend with berries, nuts, and seeds. Ideal pre or post-workout fuel.",
      9.99, 380, "25g",
      "https://images.pexels.com/photos/1640774/pexels-photo-1640774.jpeg?auto=compress&cs=tinysrgb&w=400",
      "Pre-Workout"),
    FoodItemFields(
      "Turkey Avocado Wrap",
      "Whole grain wrap with lean turkey, avocado, and fresh vegetables.",
      8.99, 420, "30g",
      "https://images.pexels.com/photos/1640777/pexels-photo-1640777.jpeg?auto=compress&cs=tinysrgb&w=400",
      "Weight Management"),
    FoodItemFields(
      "Greek Yogurt Parfait",
      "High-protein Greek yogurt with fresh berries and granola.",
      6.99, 280, "20g",
      "https://images.pexels.com/photos/1640774/pexels-photo-1640774.jpeg?auto=compress&cs=tinysrgb&w=400",
      "Heart Healthy"),
    FoodItemFields(
      "Tuna Poke Bowl",
      "Fresh tuna with brown rice, edamame, and vegetables.",
      13.99, 420, "30g",
      "https://images.pexels.com/photos/725991/pexels-photo-725991.jpeg?auto=compress&cs=tinysrgb&w=400",
      "Heart Healthy"),
    FoodItemFields(
      "Chicken Salad",
      "Fresh chicken with lettuce, tomatoes, and cucumbers.",
      10.99, 320, "30g",
      "https://images.pexels.com/photos/725991/pexels-photo-725991.jpeg?auto=compress&cs=tinysrgb&w=400",
      "Heart Healthy"),
    FoodItemFields(
      "Oatmeal Banana Energy Bowl",
      "Steel-cut oats with banana, chia seeds, and almond butter. Slow-release carbs for pre-workout energy.",
      7.99, 350, "12g",
      "https://images.pexels.com/photos/461382/pexels-photo-461382.jpeg?auto=compress&cs=tinysrgb&w=400",
      "Pre-Workout"),
    FoodItemFields(
      "Egg White Veggie Scramble",
      "Egg whites scrambled with spinach, tomatoes, and peppers. Low-calorie, high-protein breakfast.",
      8.49, 210, "22g",
      "https://images.pexels.com/photos/5938/food-healthy-breakfast-egg.jpg?auto=compress&cs=tinysrgb&w=400",
      "Weight Management"),
    FoodItemFields(
      "Quinoa Black Bean Salad",
      "Quinoa, black beans, corn, and avocado tossed in a lime vinaigrette. Plant-based and filling.",
      9.49, 390, "16g",
      "https://images.pexels.com/photos/1640775/pexels-photo-1640775.jpeg?auto=compress&cs=tinysrgb&w=400",
      "Heart Healthy"),
    FoodItemFields(
      "Beef & Broccoli Stir Fry",
      "Lean beef strips with broccoli and bell peppers in a light soy-ginger sauce. Served with brown rice.",
      13.49, 480, "36g",
      "https://images.pexels.com/photos/461382/pexels-photo-461382.jpeg?auto=compress&cs=tinysrgb&w=400",
      "Post-Workout"),
    FoodItemFields(
      "Avocado Toast with Poached Egg",
      "Whole grain toast topped with smashed avocado and a poached egg. Simple, healthy, and delicious.",
      7.49, 320, "14g",
      "https://images.pexels.com/photos/1640776/pexels-photo-1640776.jpeg?auto=compress&cs=tinysrgb&w=400",
      "Pre-Workout"),
    FoodItemFields(
      "Lentil & Spinach Soup",
      "Hearty lentil soup with spinach, carrots, and celery. High in fiber and protein.",
      8.99, 260, "18g",
      "https://images.pexels.com/photos/461382/pexels-photo-461382.jpeg?auto=compress&cs=tinysrgb&w=400",
      "Heart Healthy"),
    FoodItemFields(
      "Shrimp Brown Rice Bowl",
      "Grilled shrimp with brown rice, edamame, and sesame seeds. Light and protein-rich.",
      14.49, 410, "28g",
      "https://images.pexels.com/photos/461382/pexels-photo-461382.jpeg?auto=compress&cs=tinysrgb&w=400",
      "Weight Management"),
    FoodItemFields(
      "Berry Beet Pre-Workout Juice",
      "Fresh beet, berry, and orange juice blend. Boosts nitric oxide for better workouts.",
      5.99, 120, "2g",
      "https://images.pexels.com/photos/1640774/pexels-photo-1640774.jpeg?auto=compress&cs=tinysrgb&w=400",
      "Pre-Workout"),
    FoodItemFields(
      "Chickpea & Kale Power Bowl",
      "Roasted chickpeas, kale, sweet potato, and tahini dressing. Vegan and nutrient-dense.",
      10.49, 410, "17g",
      "https://images.pexels.com/photos/1640775/pexels-photo-1640775.jpeg?auto=compress&cs=tinysrgb&w=400",
      "Weight Management"),
    FoodItemFields(
      "Cottage Cheese Fruit Plate",
      "Low-fat cottage cheese with pineapple, berries, and melon. Light and refreshing.",
      6.49, 220, "19g",
      "https://images.pexels.com/photos/1640776/pexels-photo-1640776.jpeg?auto=compress&cs=tinysrgb&w=400",
      "Heart Healthy"),
    FoodItemFields(
      "Tofu Stir Fry",
      "Tofu cubes stir-fried with broccoli, carrots, and snap peas in a ginger garlic sauce.",
      9.99, 340, "21g",
      "https://images.pexels.com/photos/1640775/pexels-photo-1640775.jpeg?auto=compress&cs=tinysrgb&w=400",
      "Weight Management"),
    FoodItemFields(
      "Almond Butter Banana Wrap",
      "Whole wheat wrap with almond butter, banana, and a sprinkle of chia seeds.",
      7.49, 310, "10g",
      "https://images.pexels.com/photos/1640776/pexels-photo-1640776.jpeg?auto=compress&cs=tinysrgb&w=400",
      "Pre-Workout"),
    FoodItemFields(
      "Baked Cod with Asparagus",
      "Oven-baked cod fillet with lemon, served with steamed asparagus and brown rice.",
      13.99, 370, "34g",
      "https://images.pexels.com/photos/725991/pexels-photo-725991.jpeg?auto=compress&cs=tinysrgb&w=400",
      "Heart Healthy")
  ]

  /** The names of a list of categories, in order. */
  function CategoryNames(cs: seq<CategoryFields>): (r: seq<string>)
    ensures |r| == |cs|
    ensures forall i :: 0 <= i < |cs| ==> r[i] == cs[i].name
  {
    if cs == [] then [] else CategoryNames(cs[..|cs| - 1]) + [cs[|cs| - 1].name]
  }

  /** The reference data holds four categories and twenty food items. */
  lemma SeedSizes()
    ensures |SeedCategories| == 4 && |SeedFoodItems| == 20
  {
  }

  /** Every seed food item belongs to one of the seed categories, so each
      item can be reached from the category list. */
  lemma SeedItemCategoriesKnown()
    ensures forall i :: 0 <= i < |SeedFoodItems| ==> SeedFoodItems[i].category in CategoryNames(SeedCategories)
  {
    var names := CategoryNames(SeedCategories);
    assert names == ["Pre-Workout", "Post-Workout", "Heart Healthy", "Weight Management"];
  }
}
