/**
 * The app's data model: recipes, ingredients and the unit enumeration with its
 * string raw values, the partially generated shapes the language model streams,
 * and the fixed sample recipe given to the model as an example.
 */
module RecipeModel {
  import opened Wrappers

  /** An ingredient's unit. Each case is encoded by a raw string; `NoUnit` is Swift's case `none`. */
  datatype IngredientUnit =
    | Grams | Kilograms | Milliliters | Liters | Pieces | Cups
    | Tablespoons | Teaspoons | Slices | Units | NoUnit

  /** The raw value of each case: an abbreviation of at most six characters, empty only for `none`. */
  function RawValue(u: IngredientUnit): (r: string)
    ensures 0 < |r| <= 6 || u == NoUnit
    ensures r == "" <==> u == NoUnit
  {
    match u
    case Grams => "g"
    case Kilograms => "kg"
    case Milliliters => "ml"
    case Liters => "L"
    case Pieces => "pcs"
    case Cups => "cups"
    case Tablespoons => "tbsp"
    case Teaspoons => "tsp"
    case Slices => "slices"
    case Units => "unit"
    case NoUnit => ""
  }

  /** The failable initialiser `IngredientUnit(rawValue:)`: the case with that raw value, if any. */
  function FromRawValue(s: string): (r: Option<IngredientUnit>)
    ensures r.Some? ==> RawValue(r.value) == s
    ensures r.None? ==> forall u: IngredientUnit :: RawValue(u) != s
  {
    if s == "g" then Some(Grams)
    else if s == "kg" then Some(Kilograms)
    else if s == "ml" then Some(Milliliters)
    else if s == "L" then Some(Liters)
    else if s == "pcs" then Some(Pieces)
    else if s == "cups" then Some(Cups)
    else if s == "tbsp" then Some(Tablespoons)
    else if s == "tsp" then Some(Teaspoons)
    else if s == "slices" then Some(Slices)
    else if s == "unit" then Some(Units)
    else if s == "" then Some(NoUnit)
    else None
  }

  /** `IngredientUnit.allCases`: every case, in declaration order. */
  const AllCases: seq<IngredientUnit> :=
    [Grams, Kilograms, Milliliters, Liters, Pieces, Cups, Tablespoons, Teaspoons, Slices, Units, NoUnit]

  /** Distinct cases have distinct raw values. */
  lemma RawValueInjective(u: IngredientUnit, v: IngredientUnit)
    ensures RawValue(u) == RawValue(v) ==> u == v
  {
  }

  /** Decoding the raw value of a case gives back that case. */
  lemma RawValueRoundTrip(u: IngredientUnit)
    ensures FromRawValue(RawValue(u)) == Some(u)
  {
  }

  /** `none` is the only case encoded as the empty string. */
  lemma EmptyRawValueIsNoUnit(u: IngredientUnit)
    ensures RawValue(u) == "" <==> u == NoUnit
  {
  }

  /** `allCases` has the eleven cases once each, grams first and none last. */
  lemma AllCasesInOrder()
    ensures |AllCases| == 11
    ensures AllCases[0] == Grams && AllCases[10] == NoUnit
    ensures forall u: IngredientUnit :: u in AllCases
    ensures forall i, j :: 0 <= i < j < |AllCases| ==> AllCases[i] != AllCases[j]
  {
    forall u: IngredientUnit ensures u in AllCases {
      match u
      case Grams => assert AllCases[0] == u;
      case Kilograms => assert AllCases[1] == u;
      case Milliliters => assert AllCases[2] == u;
      case Liters => assert AllCases[3] == u;
      case Pieces => assert AllCases[4] == u;
      case Cups => assert AllCases[5] == u;
      case Tablespoons => assert AllCases[6] == u;
      case Teaspoons => assert AllCases[7] == u;
      case Slices => assert AllCases[8] == u;
      case Units => assert AllCases[9] == u;
      case NoUnit => assert AllCases[10] == u;
    }
  }

  /** An ingredient; `bought` is false unless given. Quantities are Swift's `Double`, as reals. */
  datatype Ingredient = Ingredient(name: string, quantity: real, unit: IngredientUnit, bought: bool := false)

  /** A recipe as the model finally produces it. */
  datatype Recipe = Recipe(
    name: string,
    estimatedTime: string,
    description: string,
    storesNearby: string,
    restaurantsNearby: string,
    ingredients: seq<Ingredient>)

  /** The identifier the generation framework gives every partially generated value. */
  datatype GenerationId = GenerationId(value: nat)

  /** `Ingredient.PartiallyGenerated`: each field absent until the model fills it in. */
  datatype PartialIngredient = PartialIngredient(
    id: GenerationId,
    name: Option<string>,
    quantity: Option<real>,
    unit: Option<IngredientUnit>,
    bought: Option<bool>)

  /** `Recipe.PartiallyGenerated`: each field absent until the model fills it in. */
  datatype PartialRecipe = PartialRecipe(
    name: Option<string>,
    estimatedTime: Option<string>,
    description: Option<string>,
    storesNearby: Option<string>,
    restaurantsNearby: Option<string>,
    ingredients: Option<seq<PartialIngredient>>)

  /** A freshly built ingredient is not bought unless `bought` is passed explicitly. */
  lemma NewIngredientNotBought(name: string, quantity: real, unit: IngredientUnit)
    ensures !Ingredient(name, quantity, unit).bought
    ensures Ingredient(name, quantity, unit) == Ingredient(name, quantity, unit, false)
  {
  }

  /** `Recipe.sample`, the worked example handed to the language model. */
  const Sample: Recipe := Recipe(
    "Classic Pancakes",
    "25 min",
    "Fluffy, golden pancakes perfect for a weekend breakfast. Serve with honey, butter, or your favorite toppings.",
    "You can find the ingredients for this recipe at nearby grocery stores such as Walmart, Kroger, or Safeway.",
    "Enjoy delicious pancakes at local cafes like IHOP, Denny's, and other nearby eateries.",
    [
      Ingredient("All-purpose flour", 200.0, Grams),
      Ingredient("Milk", 300.0, Milliliters),
      Ingredient("Eggs", 2.0, Pieces),
      Ingredient("Baking powder", 2.0, Teaspoons),
      Ingredient("Salt", 0.5, Teaspoons),
      Ingredient("Sugar", 2.0, Tablespoons),
      Ingredient("Butter (melted)", 30.0, Grams)
    ])

  /** The sample has seven ingredients, flour first and melted butter last (both in grams),
      none of them bought, every one with a real unit and a positive quantity, no name twice. */
  lemma SampleIngredients()
    ensures |Sample.ingredients| == 7
    ensures Sample.ingredients[0].name == "All-purpose flour" && Sample.ingredients[0].unit == Grams
    ensures Sample.ingredients[6].name == "Butter (melted)" && Sample.ingredients[6].unit == Grams
    ensures forall i :: 0 <= i < |Sample.ingredients| ==>
      !Sample.ingredients[i].bought && Sample.ingredients[i].unit != NoUnit && Sample.ingredients[i].quantity > 0.0
    ensures forall i, j :: 0 <= i < j < |Sample.ingredients| ==>
      Sample.ingredients[i].name != Sample.ingredients[j].name
  {
  }
}
