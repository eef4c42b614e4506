/**
 * The enumerations and records of the recipe service: the request preferences,
 * the recipe shape every response carries, and the stored user profile.
 */
module Models {
  import opened Wrappers

  datatype CuisineType =
    | Indian | Italian | Asian | Mexican | Mediterranean
    | American | Thai | Chinese | Japanese | Korean
  {
    function Value(): string {
      match this
      case Indian => "Indian"
      case Italian => "Italian"
      case Asian => "Asian"
      case Mexican => "Mexican"
      case Mediterranean => "Mediterranean"
      case American => "American"
      case Thai => "Thai"
      case Chinese => "Chinese"
      case Japanese => "Japanese"
      case Korean => "Korean"
    }
  }

  datatype SpiceLevel = Mild | Medium | Spicy | ExtraSpicy {
    function Value(): string {
      match this
      case Mild => "Mild"
      case Medium => "Medium"
      case Spicy => "Spicy"
      case ExtraSpicy => "Extra Spicy"
    }
  }

  datatype MealType = Breakfast | Lunch | Dinner | Snack {
    function Value(): string {
      match this
      case Breakfast => "Breakfast"
      case Lunch => "Lunch"
      case Dinner => "Dinner"
      case Snack => "Snack"
    }
  }

  datatype CookingTime = Quick15 | Quick30 | Medium45 | Long60Plus {
    function Value(): string {
      match this
      case Quick15 => "15 mins"
      case Quick30 => "30 mins"
      case Medium45 => "45 mins"
      case Long60Plus => "60+ mins"
    }
  }

  datatype DietaryRestriction =
    | Vegetarian | Vegan | GlutenFree | DairyFree | NutFree | Halal | Kosher
  {
    function Value(): string {
      match this
      case Vegetarian => "Vegetarian"
      case Vegan => "Vegan"
      case GlutenFree => "Gluten-Free"
      case DairyFree => "Dairy-Free"
      case NutFree => "Nut-Free"
      case Halal => "Halal"
      case Kosher => "Kosher"
    }
  }

  /** The enumerations' members in declaration order. */
  const SpiceLevels: seq<SpiceLevel> := [Mild, Medium, Spicy, ExtraSpicy]
  const CookingTimes: seq<CookingTime> := [Quick15, Quick30, Medium45, Long60Plus]
  const DietaryRestrictions: seq<DietaryRestriction> :=
    [Vegetarian, Vegan, GlutenFree, DairyFree, NutFree, Halal, Kosher]

  /** What a request asks for. */
  datatype UserPreferences = UserPreferences(
    cuisine: CuisineType,
    spiceLevel: SpiceLevel,
    mealType: seq<MealType>,
    maxCookingTime: CookingTime,
    dietaryRestrictions: seq<DietaryRestriction>,
    availableIngredients: seq<string>)

  /**
   * Preferences built from the four required fields; the restriction and
   * ingredient lists take their declared defaults.
   */
  function NewUserPreferences(cuisine: CuisineType, spiceLevel: SpiceLevel,
                              mealType: seq<MealType>, maxCookingTime: CookingTime): (p: UserPreferences)
    ensures p.cuisine == cuisine && p.spiceLevel == spiceLevel
    ensures p.mealType == mealType && p.maxCookingTime == maxCookingTime
    ensures p.dietaryRestrictions == [] && p.availableIngredients == []
  {
    UserPreferences(cuisine, spiceLevel, mealType, maxCookingTime, [], [])
  }

  datatype RecipeIngredient = RecipeIngredient(name: string, quantity: string, notes: Option<string>)

  datatype RecipeInstruction = RecipeInstruction(stepNumber: int, instruction: string, timeMinutes: Option<int>)

  /** The recipe shape of a response, both for the generated recipe and for recommendations. */
  datatype GeneratedRecipe = GeneratedRecipe(
    id: string,
    title: string,
    description: Option<string>,
    ingredients: seq<RecipeIngredient>,
    instructions: seq<RecipeInstruction>,
    cookingTime: int,
    difficulty: string,
    cuisine: string,
    spiceLevel: string,
    imageUrl: Option<string>,
    tags: seq<string>,
    createdAt: string,
    userId: Option<string>)

  /**
   * The preferences entry of a stored profile: the empty dict the service
   * writes for a new user, or a full preferences record.
   */
  datatype PreferencesDoc = EmptyPreferences | StoredPreferences(prefs: UserPreferences)

  /** A user profile document as the profile store holds it. */
  datatype UserProfile = UserProfile(
    userId: string,
    preferences: PreferencesDoc,
    savedRecipes: seq<string>,
    dislikedIngredients: seq<string>,
    cookingHistory: seq<string>,
    createdAt: string,
    updatedAt: string)

  /** `DietaryRestriction` has exactly seven distinct members, each listed once. */
  lemma DietaryRestrictionsEnumerated(d: DietaryRestriction)
    ensures |DietaryRestrictions| == 7 && d in DietaryRestrictions
    ensures forall i, j :: 0 <= i < j < 7 ==> DietaryRestrictions[i] != DietaryRestrictions[j]
    ensures forall i, j :: 0 <= i < j < 7 ==> DietaryRestrictions[i].Value() != DietaryRestrictions[j].Value()
  {
  }
}
