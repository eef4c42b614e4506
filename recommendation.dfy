/**
 * The recipe scorer and the recommendation ranker.
 *
 * `Score` is the reference definition of a candidate's score: a weighted sum
 * of eight factors, forced to 0 by a dietary violation or a disliked
 * ingredient. `CalculateRecipeScore` computes it the way the service does,
 * step by step with loops and early returns, and is proved equal to it.
 * `GetRecommendedRecipes` scores every candidate, keeps the positive ones,
 * sorts them by score (stable, highest first), keeps five and converts them.
 */
module Recommendation {
  import opened Wrappers
  import opened Text
  import opened Models

  /** A base recipe document from the recipe store. */
  datatype BaseRecipe = BaseRecipe(
    id: string,
    title: string,
    cuisine: string,
    difficulty: string,
    cookingTime: int,
    tags: seq<string>,
    ingredients: seq<string>)

  /** An entry of the ranker's working list: a candidate and its score. */
  datatype ScoredRecipe = ScoredRecipe(recipe: BaseRecipe, score: real)

  // ---------------------------------------------------------------------------
  // Cooking time

  /** Minutes for a cooking-time label: the first of "15", "30", "45", "60" it contains, else 30. */
  function ParseCookingTime(timeStr: string): (minutes: int)
    ensures minutes == 15 || minutes == 30 || minutes == 45 || minutes == 60
    ensures Contains(timeStr, "15") ==> minutes == 15
    ensures !Contains(timeStr, "15") && Contains(timeStr, "30") ==> minutes == 30
    ensures !Contains(timeStr, "15") && !Contains(timeStr, "30") && Contains(timeStr, "45") ==> minutes == 45
    ensures !Contains(timeStr, "15") && !Contains(timeStr, "30") && !Contains(timeStr, "45") ==>
              minutes == (if Contains(timeStr, "60") then 60 else 30)
  {
    if Contains(timeStr, "15") then 15
    else if Contains(timeStr, "30") then 30
    else if Contains(timeStr, "45") then 45
    else if Contains(timeStr, "60") then 60
    else 30
  }

  const TimeMarkers: seq<string> := ["15", "30", "45", "60"]

  /**
   * Each `CookingTime` label contains exactly one of the four markers, the one
   * at its own position, so the labels map to 15, 30, 45 and 60 minutes.
   */
  lemma CookingTimeLabels()
    ensures forall i, k :: 0 <= i < 4 && 0 <= k < 4 ==>
              (Contains(CookingTimes[i].Value(), TimeMarkers[k]) <==> i == k)
    ensures forall i :: 0 <= i < 4 ==> ParseCookingTime(CookingTimes[i].Value()) == [15, 30, 45, 60][i]
  {
    forall i, k | 0 <= i < 4 && 0 <= k < 4
      ensures Contains(CookingTimes[i].Value(), TimeMarkers[k]) <==> i == k
    {
      var timeLabel, marker := CookingTimes[i].Value(), TimeMarkers[k];
      if i == k {
        assert OccursAt(timeLabel, marker, 0);
      } else {
        AbsentHead(timeLabel, marker);
      }
    }
    assert TimeMarkers[0] == "15" && TimeMarkers[1] == "30" && TimeMarkers[2] == "45" && TimeMarkers[3] == "60";
  }

  /** 0.15 within the requested maximum, 0.075 within 15 minutes more, else 0. */
  function TimeFactor(recipe: BaseRecipe, prefs: UserPreferences): (f: real)
    ensures var limit := ParseCookingTime(prefs.maxCookingTime.Value());
            && (f == 0.15 <==> recipe.cookingTime <= limit)
            && (f == 0.075 <==> limit < recipe.cookingTime <= limit + 15)
            && (f == 0.0 <==> limit + 15 < recipe.cookingTime)
  {
    var limit := ParseCookingTime(prefs.maxCookingTime.Value());
    if recipe.cookingTime <= limit then 0.15
    else if recipe.cookingTime <= limit + 15 then 0.075
    else 0.0
  }

  // ---------------------------------------------------------------------------
  // Dietary restrictions

  /** The ingredient names a lower-cased restriction forbids; none for any other restriction. */
  function ForbiddenIngredients(restriction: string): seq<string> {
    if restriction == "vegetarian" then ["chicken", "beef", "pork", "lamb", "fish", "meat", "egg"]
    else if restriction == "vegan" then ["milk", "cheese", "butter", "cream", "yogurt", "egg", "honey"]
    else if restriction == "gluten-free" then ["wheat", "flour", "bread", "pasta"]
    else if restriction == "dairy-free" then ["milk", "cheese", "butter", "cream", "yogurt"]
    else if restriction == "nut-free" then ["peanut", "almond", "cashew", "walnut", "pistachio"]
    else []
  }

  /**
   * Some restriction, lower-cased, forbids a word that equals one of the
   * recipe's lower-cased ingredient names (whole-name equality, not containment).
   */
  predicate ViolatesDietaryRestrictions(recipe: BaseRecipe, dietaryRestrictions: seq<string>) {
    // the early `if not dietary_restrictions` guard; the exists alone is already false then
    dietaryRestrictions != [] &&
    exists k, word :: 0 <= k < |dietaryRestrictions|
                      && word in ForbiddenIngredients(Lower(dietaryRestrictions[k]))
                      && word in LowerAll(recipe.ingredients)
  }

  /** Only the five listed restrictions carry forbidden words: Halal and Kosher have none. */
  lemma RestrictionWordLists(d: DietaryRestriction)
    ensures ForbiddenIngredients(Lower(d.Value())) == [] <==> d == Halal || d == Kosher
  {
    if d == Halal || d == Kosher {
      UnlistedRestrictions(d);
    } else {
      ListedRestrictions(d);
    }
  }

  /** The five restrictions with a word list. */
  lemma ListedRestrictions(d: DietaryRestriction)
    requires d != Halal && d != Kosher
    ensures ForbiddenIngredients(Lower(d.Value())) != []
  {
    match d
    case Vegetarian => assert Lower("Vegetarian") == "vegetarian";
    case Vegan => assert Lower("Vegan") == "vegan";
    case GlutenFree => assert Lower("Gluten-Free") == "gluten-free";
    case DairyFree => assert Lower("Dairy-Free") == "dairy-free";
    case NutFree => assert Lower("Nut-Free") == "nut-free";
  }

  /** Halal and Kosher lower-case to names no list is kept under. */
  lemma UnlistedRestrictions(d: DietaryRestriction)
    requires d == Halal || d == Kosher
    ensures ForbiddenIngredients(Lower(d.Value())) == []
  {
    match d
    case Halal => assert Lower("Halal") == "halal";
    case Kosher => assert Lower("Kosher") == "kosher";
  }

  /** A recipe breaks no restriction when none of the restrictions carries a word list. */
  lemma UnlistedRestrictionsNeverViolate(recipe: BaseRecipe, dietaryRestrictions: seq<string>)
    requires forall k :: 0 <= k < |dietaryRestrictions| ==> ForbiddenIngredients(Lower(dietaryRestrictions[k])) == []
    ensures !ViolatesDietaryRestrictions(recipe, dietaryRestrictions)
  {
  }

  /** A vegetarian restriction rejects a recipe listing "Chicken". */
  lemma VegetarianRejectsChicken()
    ensures ViolatesDietaryRestrictions(BaseRecipe("r", "t", "c", "Easy", 10, [], ["Chicken"]), ["Vegetarian"])
  {
    var recipe, restrictions := BaseRecipe("r", "t", "c", "Easy", 10, [], ["Chicken"]), ["Vegetarian"];
    assert Lower(restrictions[0]) == "vegetarian";
    assert "chicken" in ForbiddenIngredients(Lower(restrictions[0]));
    assert Lower(recipe.ingredients[0]) == "chicken";
    assert LowerAll(recipe.ingredients)[0] == "chicken";
    assert "chicken" in LowerAll(recipe.ingredients);
  }

  /** Matching is by whole name: a vegetarian restriction accepts a recipe listing "Chicken breast". */
  lemma VegetarianAcceptsChickenBreast()
    ensures !ViolatesDietaryRestrictions(BaseRecipe("r", "t", "c", "Easy", 10, [], ["Chicken breast"]), ["Vegetarian"])
  {
    assert Lower("Vegetarian") == "vegetarian";
    assert Lower("Chicken breast") == "chicken breast";
    assert LowerAll(["Chicken breast"]) == ["chicken breast"];
  }

  // ---------------------------------------------------------------------------
  // Cuisine and meal type

  /** 0.3 for equal cuisines ignoring case, 0.15 when one contains the other, else 0. */
  function CuisineFactor(recipe: BaseRecipe, prefs: UserPreferences): (f: real)
    ensures var rc, uc := Lower(recipe.cuisine), Lower(prefs.cuisine.Value());
            && (f == 0.3 <==> rc == uc)
            && (f == 0.15 <==> rc != uc && (Contains(uc, rc) || Contains(rc, uc)))
            && (f == 0.0 <==> rc != uc && !Contains(uc, rc) && !Contains(rc, uc))
  {
    var recipeCuisine, userCuisine := Lower(recipe.cuisine), Lower(prefs.cuisine.Value());
    if recipeCuisine == userCuisine then 0.3
    else if Contains(userCuisine, recipeCuisine) || Contains(recipeCuisine, userCuisine) then 0.15
    else 0.0
  }

  /** The requested meal types, lower-cased. */
  function MealTypeNames(prefs: UserPreferences): (names: seq<string>)
    ensures |names| == |prefs.mealType|
    ensures forall k :: 0 <= k < |names| ==> names[k] == Lower(prefs.mealType[k].Value())
  {
    seq(|prefs.mealType|, k requires 0 <= k < |prefs.mealType| => Lower(prefs.mealType[k].Value()))
  }

  /** A meal type is one of the tags, or occurs inside one of them. */
  predicate MealTypeMatches(mealType: string, recipeTags: seq<string>) {
    mealType in recipeTags || exists tag :: tag in recipeTags && Contains(tag, mealType)
  }

  /** 0.1 when some requested meal type matches the recipe's tags, counted once. */
  function MealTypeFactor(recipe: BaseRecipe, prefs: UserPreferences): (f: real)
    ensures f == 0.0 || f == 0.1
    ensures f == 0.1 <==> exists k :: 0 <= k < |prefs.mealType|
                                      && MealTypeMatches(MealTypeNames(prefs)[k], LowerAll(recipe.tags))
  {
    var names, tags := MealTypeNames(prefs), LowerAll(recipe.tags);
    if exists k :: 0 <= k < |names| && MealTypeMatches(names[k], tags) then 0.1 else 0.0
  }

  // ---------------------------------------------------------------------------
  // Ingredient availability and dislikes

  /** One of `a`, `b` occurs inside the other. */
  predicate SubstringEitherWay(a: string, b: string) {
    Contains(b, a) || Contains(a, b)
  }

  /** The ingredient matches one of the available ingredients. */
  predicate IsAvailable(ingredient: string, available: seq<string>) {
    exists m :: 0 <= m < |available| && SubstringEitherWay(ingredient, available[m])
  }

  /** How many of the ingredients are available. */
  function MatchCount(ingredients: seq<string>, available: seq<string>): (n: nat)
    ensures n <= |ingredients|
    decreases |ingredients|
  {
    if ingredients == [] then 0
    else
      var last := |ingredients| - 1;
      MatchCount(ingredients[..last], available) + (if IsAvailable(ingredients[last], available) then 1 else 0)
  }

  /** The count is the full length exactly when every ingredient is available. */
  lemma {:induction false} MatchCountAll(ingredients: seq<string>, available: seq<string>)
    ensures MatchCount(ingredients, available) == |ingredients| <==>
              forall i :: 0 <= i < |ingredients| ==> IsAvailable(ingredients[i], available)
    decreases |ingredients|
  {
    if ingredients != [] {
      var last := |ingredients| - 1;
      var init := ingredients[..last];
      MatchCountAll(init, available);
      assert forall i :: 0 <= i < last ==> init[i] == ingredients[i];
    }
  }

  /** The count is 0 exactly when no ingredient is available. */
  lemma {:induction false} MatchCountNone(ingredients: seq<string>, available: seq<string>)
    ensures MatchCount(ingredients, available) == 0 <==>
              forall i :: 0 <= i < |ingredients| ==> !IsAvailable(ingredients[i], available)
    decreases |ingredients|
  {
    if ingredients != [] {
      var last := |ingredients| - 1;
      var init := ingredients[..last];
      MatchCountNone(init, available);
      assert forall i :: 0 <= i < last ==> init[i] == ingredients[i];
    }
  }

  /** A share of a non-empty list lies in [0, 1]; it is 1 exactly for all and 0 exactly for none. */
  lemma ShareBounds(matched: nat, total: nat)
    requires 0 < total && matched <= total
    ensures var share := (matched as real) / (total as real);
            && 0.0 <= share <= 1.0
            && (share == 1.0 <==> matched == total)
            && (share == 0.0 <==> matched == 0)
  {
    var share := (matched as real) / (total as real);
    assert share * (total as real) == matched as real;
  }

  /**
   * 0.25 times the share of the recipe's ingredients that are available: the
   * full 0.25 exactly when every ingredient is available, 0 exactly when none
   * is (or the recipe lists none).
   */
  function AvailabilityFactor(recipe: BaseRecipe, availableIngredients: seq<string>): (f: real)
    ensures 0.0 <= f <= 0.25
    ensures var ingredients, available := LowerAll(recipe.ingredients), LowerAll(availableIngredients);
            && (f == 0.25 <==> ingredients != [] && forall i :: 0 <= i < |ingredients| ==> IsAvailable(ingredients[i], available))
            && (f == 0.0 <==> forall i :: 0 <= i < |ingredients| ==> !IsAvailable(ingredients[i], available))
            && (ingredients == [] ==> f == 0.0)
            && (ingredients != [] ==> f == 0.25 * (MatchCount(ingredients, available) as real / |ingredients| as real))
  {
    var ingredients, available := LowerAll(recipe.ingredients), LowerAll(availableIngredients);
    MatchCountAll(ingredients, available);
    MatchCountNone(ingredients, available);
    if ingredients == [] then 0.0
    else
      var matched := MatchCount(ingredients, available);
      ShareBounds(matched, |ingredients|);
      0.25 * ((matched as real) / (|ingredients| as real))
  }

  /** More available ingredients never lower the count of matched ones. */
  lemma {:induction false} MatchCountMonotone(ingredients: seq<string>, available: seq<string>, more: seq<string>)
    requires forall a :: a in available ==> a in more
    ensures MatchCount(ingredients, available) <= MatchCount(ingredients, more)
    decreases |ingredients|
  {
    if ingredients != [] {
      var last := |ingredients| - 1;
      MatchCountMonotone(ingredients[..last], available, more);
      if IsAvailable(ingredients[last], available) {
        var m :| 0 <= m < |available| && SubstringEitherWay(ingredients[last], available[m]);
        assert available[m] in more;
        var m' :| 0 <= m' < |more| && more[m'] == available[m];
        assert IsAvailable(ingredients[last], more);
      }
    }
  }

  /** Lower-casing keeps list inclusion. */
  lemma LowerAllIncluded(xs: seq<string>, ys: seq<string>)
    requires forall a :: a in xs ==> a in ys
    ensures forall a :: a in LowerAll(xs) ==> a in LowerAll(ys)
  {
    forall a | a in LowerAll(xs) ensures a in LowerAll(ys) {
      var j :| 0 <= j < |xs| && LowerAll(xs)[j] == a;
      assert xs[j] in ys;
      var j' :| 0 <= j' < |ys| && ys[j'] == xs[j];
      assert LowerAll(ys)[j'] == a;
    }
  }

  /** A larger share of the same total is no smaller. */
  lemma ShareMonotone(a: nat, b: nat, total: nat)
    requires a <= b && 0 < total
    ensures 0.25 * (a as real / total as real) <= 0.25 * (b as real / total as real)
  {
    var n := total as real;
    assert (b as real / n - a as real / n) * n == b as real - a as real;
  }

  /** Offering more ingredients never lowers the availability factor. */
  lemma AvailabilityMonotone(recipe: BaseRecipe, availableIngredients: seq<string>, more: seq<string>)
    requires forall a :: a in availableIngredients ==> a in more
    ensures AvailabilityFactor(recipe, availableIngredients) <= AvailabilityFactor(recipe, more)
  {
    var ingredients := LowerAll(recipe.ingredients);
    LowerAllIncluded(availableIngredients, more);
    MatchCountMonotone(ingredients, LowerAll(availableIngredients), LowerAll(more));
    if ingredients != [] {
      ShareMonotone(MatchCount(ingredients, LowerAll(availableIngredients)), MatchCount(ingredients, LowerAll(more)), |ingredients|);
    }
  }

  /** Some ingredient and some disliked ingredient, both lower-cased, contain one another. */
  predicate HasDislikedIngredient(recipe: BaseRecipe, profile: UserProfile) {
    var ingredients, disliked := LowerAll(recipe.ingredients), LowerAll(profile.dislikedIngredients);
    exists i, j :: 0 <= i < |ingredients| && 0 <= j < |disliked| && SubstringEitherWay(ingredients[i], disliked[j])
  }

  /** 0.1 when the recipe is one of the user's saved recipes. */
  function ProfileBonus(recipe: BaseRecipe, userProfile: Option<UserProfile>): real
  {
    if userProfile.Some? && recipe.id in userProfile.value.savedRecipes then 0.1 else 0.0
  }

  // ---------------------------------------------------------------------------
  // Spice level and difficulty

  /** The word occurs in the lower-cased title, or is one of the lower-cased tags. */
  predicate MentionsSpice(recipe: BaseRecipe, word: string) {
    Contains(Lower(recipe.title), word) || word in LowerAll(recipe.tags)
  }

  /** "spicy", else "mild", else "medium", by the first word the recipe mentions; "medium" by default. */
  function ExtractSpiceLevel(recipe: BaseRecipe): (level: string)
    ensures level == "spicy" || level == "mild" || level == "medium"
    ensures level == "spicy" <==> MentionsSpice(recipe, "spicy")
    ensures level == "mild" <==> !MentionsSpice(recipe, "spicy") && MentionsSpice(recipe, "mild")
  {
    if MentionsSpice(recipe, "spicy") then "spicy"
    else if MentionsSpice(recipe, "mild") then "mild"
    else if MentionsSpice(recipe, "medium") then "medium"
    else "medium"
  }

  const SpiceHierarchy: seq<string> := ["mild", "medium", "spicy", "extra spicy"]

  /** `xs.index(x)`, with `None` where Python raises ValueError. */
  function IndexOf(xs: seq<string>, x: string): (r: Option<nat>)
    ensures r.Some? ==> r.value < |xs| && xs[r.value] == x
    ensures r.Some? ==> forall j :: 0 <= j < r.value ==> xs[j] != x
    ensures r.None? <==> x !in xs
    decreases |xs|
  {
    if xs == [] then None
    else if xs[0] == x then Some(0)
    else match IndexOf(xs[1..], x)
      case None => None
      case Some(i) => Some(i + 1)
  }

  /** Levels at most one step apart in the hierarchy, or a level the hierarchy does not know. */
  function SpiceLevelsCompatible(recipeSpice: string, userSpice: string): (compatible: bool)
    ensures recipeSpice !in SpiceHierarchy || userSpice !in SpiceHierarchy ==> compatible
  {
    match (IndexOf(SpiceHierarchy, recipeSpice), IndexOf(SpiceHierarchy, userSpice))
    case (Some(i), Some(j)) => -1 <= (i as int) - (j as int) <= 1
    case _ => true
  }

  /** In a list without repeats, an element's index is its position. */
  lemma IndexOfDistinct(xs: seq<string>, i: nat)
    requires i < |xs|
    requires forall a, b :: 0 <= a < b < |xs| ==> xs[a] != xs[b]
    ensures IndexOf(xs, xs[i]) == Some(i)
  {
    var r := IndexOf(xs, xs[i]);
    assert r.Some?;
    assert xs[r.value] == xs[i];
  }

  /** The four levels are distinct. */
  lemma SpiceHierarchyDistinct()
    ensures forall x, y :: 0 <= x < y < |SpiceHierarchy| ==> SpiceHierarchy[x] != SpiceHierarchy[y]
  {
    var h := SpiceHierarchy;
    assert h[0][1] != h[1][1] && h[0][1] != h[2][1] && h[0][1] != h[3][1];
    assert |h[1]| != |h[2]| && |h[1]| != |h[3]| && |h[2]| != |h[3]|;
  }

  /** Compatibility is symmetric. */
  lemma SpiceCompatibilitySymmetric(a: string, b: string)
    ensures SpiceLevelsCompatible(a, b) == SpiceLevelsCompatible(b, a)
  {
  }

  /** Within the hierarchy, compatibility holds exactly for levels at most one position apart. */
  lemma SpiceCompatibility()
    ensures forall i, j :: 0 <= i < 4 && 0 <= j < 4 ==>
              (SpiceLevelsCompatible(SpiceHierarchy[i], SpiceHierarchy[j]) <==> -1 <= i - j <= 1)
  {
    var h := SpiceHierarchy;
    SpiceHierarchyDistinct();
    forall i | 0 <= i < 4 ensures IndexOf(h, h[i]) == Some(i) {
      IndexOfDistinct(h, i);
    }
  }

  /** The lower-cased `SpiceLevel` values are the hierarchy, in order. */
  lemma SpiceLevelNamesMatchHierarchy()
    ensures |SpiceLevels| == |SpiceHierarchy|
    ensures forall k :: 0 <= k < |SpiceLevels| ==> Lower(SpiceLevels[k].Value()) == SpiceHierarchy[k]
  {
    assert Lower("Mild") == "mild";
    assert Lower("Medium") == "medium";
    assert Lower("Spicy") == "spicy";
    assert Lower("Extra Spicy") == "extra spicy";
  }

  /** 0.1 for the requested level, 0.05 for a compatible one, else 0. */
  function SpiceFactor(recipe: BaseRecipe, prefs: UserPreferences): (f: real)
    ensures var rs, us := ExtractSpiceLevel(recipe), Lower(prefs.spiceLevel.Value());
            && (f == 0.1 <==> rs == us)
            && (f == 0.05 <==> rs != us && SpiceLevelsCompatible(rs, us))
            && (f == 0.0 <==> rs != us && !SpiceLevelsCompatible(rs, us))
  {
    var recipeSpice, userSpice := ExtractSpiceLevel(recipe), Lower(prefs.spiceLevel.Value());
    if recipeSpice == userSpice then 0.1
    else if SpiceLevelsCompatible(recipeSpice, userSpice) then 0.05
    else 0.0
  }

  /** 0.05 for a recipe whose difficulty is "easy" in any case. */
  function DifficultyFactor(recipe: BaseRecipe): real
  {
    if Lower(recipe.difficulty) == "easy" then 0.05 else 0.0
  }

  // ---------------------------------------------------------------------------
  // The score

  const DietaryWeight: real := 0.2
  /** The sum of every factor's largest contribution. */
  const MaxScore: real := 0.3 + 0.1 + 0.15 + 0.25 + 0.2 + 0.1 + 0.1 + 0.05

  /** A dietary violation, or (with a profile) a disliked ingredient. */
  predicate Disqualified(recipe: BaseRecipe, dietaryRestrictions: seq<string>, userProfile: Option<UserProfile>) {
    ViolatesDietaryRestrictions(recipe, dietaryRestrictions)
    || (userProfile.Some? && HasDislikedIngredient(recipe, userProfile.value))
  }

  /** The score of one candidate. */
  function Score(recipe: BaseRecipe, prefs: UserPreferences, dietaryRestrictions: seq<string>,
                 availableIngredients: seq<string>, userProfile: Option<UserProfile>): real
  {
    if Disqualified(recipe, dietaryRestrictions, userProfile) then 0.0
    else
      CuisineFactor(recipe, prefs) + MealTypeFactor(recipe, prefs) + TimeFactor(recipe, prefs)
      + AvailabilityFactor(recipe, availableIngredients) + DietaryWeight
      + ProfileBonus(recipe, userProfile) + SpiceFactor(recipe, prefs) + DifficultyFactor(recipe)
  }

  /**
   * A disqualified candidate scores 0 whatever its other factors; any other
   * candidate scores between the dietary weight 0.2 and 1.25, so a score is
   * positive exactly when the candidate is not disqualified.
   */
  lemma ScoreRange(recipe: BaseRecipe, prefs: UserPreferences, dietaryRestrictions: seq<string>,
                   availableIngredients: seq<string>, userProfile: Option<UserProfile>)
    ensures var s := Score(recipe, prefs, dietaryRestrictions, availableIngredients, userProfile);
            && (Disqualified(recipe, dietaryRestrictions, userProfile) ==> s == 0.0)
            && (!Disqualified(recipe, dietaryRestrictions, userProfile) ==> DietaryWeight <= s <= MaxScore)
            && (s > 0.0 <==> !Disqualified(recipe, dietaryRestrictions, userProfile))
  {
  }

  /** The meal-type loop: stops at the first requested meal type that matches a tag. */
  method MatchMealType(userMealTypes: seq<string>, recipeTags: seq<string>) returns (matched: bool)
    ensures matched <==> exists k :: 0 <= k < |userMealTypes| && MealTypeMatches(userMealTypes[k], recipeTags)
  {
    matched := false;
    var i := 0;
    while i < |userMealTypes|
      invariant 0 <= i <= |userMealTypes|
      invariant forall k :: 0 <= k < i ==> !MealTypeMatches(userMealTypes[k], recipeTags)
    {
      var mealType := userMealTypes[i];
      if mealType in recipeTags || exists tag :: tag in recipeTags && Contains(tag, mealType) {
        return true;
      }
      i := i + 1;
    }
  }

  /** The availability loop: each ingredient counts once, at its first matching available ingredient. */
  method CountMatchingIngredients(recipeIngredients: seq<string>, availableIngredients: seq<string>)
    returns (matchingIngredients: nat)
    ensures matchingIngredients == MatchCount(recipeIngredients, availableIngredients)
  {
    matchingIngredients := 0;
    for j := 0 to |recipeIngredients|
      invariant matchingIngredients == MatchCount(recipeIngredients[..j], availableIngredients)
    {
      assert recipeIngredients[..j + 1][..j] == recipeIngredients[..j];
      var recipeIng := recipeIngredients[j];
      var k := 0;
      while k < |availableIngredients|
        invariant 0 <= k <= |availableIngredients|
        invariant forall m :: 0 <= m < k ==> !SubstringEitherWay(recipeIng, availableIngredients[m])
      {
        var availIng := availableIngredients[k];
        if Contains(availIng, recipeIng) || Contains(recipeIng, availIng) {
          break;
        }
        k := k + 1;
      }
      if k < |availableIngredients| {
        matchingIngredients := matchingIngredients + 1;
      }
    }
    assert recipeIngredients[..|recipeIngredients|] == recipeIngredients;
  }

  /** The dislike loops: is some ingredient inside a disliked one, or the other way round? */
  method FindDislikedIngredient(recipeIngredients: seq<string>, dislikedIngredients: seq<string>) returns (found: bool)
    ensures found <==> exists i, j :: 0 <= i < |recipeIngredients| && 0 <= j < |dislikedIngredients|
                                       && SubstringEitherWay(recipeIngredients[i], dislikedIngredients[j])
  {
    for a := 0 to |recipeIngredients|
      invariant forall x, y :: 0 <= x < a && 0 <= y < |dislikedIngredients| ==>
                  !SubstringEitherWay(recipeIngredients[x], dislikedIngredients[y])
    {
      for b := 0 to |dislikedIngredients|
        invariant forall y :: 0 <= y < b ==> !SubstringEitherWay(recipeIngredients[a], dislikedIngredients[y])
      {
        if Contains(dislikedIngredients[b], recipeIngredients[a]) || Contains(recipeIngredients[a], dislikedIngredients[b]) {
          assert SubstringEitherWay(recipeIngredients[a], dislikedIngredients[b]);
          return true;
        }
      }
    }
    return false;
  }

  /**
   * The first four steps of `calculate_recipe_score`: cuisine, meal type,
   * cooking time and ingredient availability, added one by one.
   */
  method PreferenceScore(recipe: BaseRecipe, userPreferences: UserPreferences, availableIngredients: seq<string>)
    returns (score: real)
    ensures score == CuisineFactor(recipe, userPreferences) + MealTypeFactor(recipe, userPreferences)
                     + TimeFactor(recipe, userPreferences) + AvailabilityFactor(recipe, availableIngredients)
  {
    score := 0.0;

    // 1. Cuisine
    var recipeCuisine := Lower(recipe.cuisine);
    var userCuisine := Lower(userPreferences.cuisine.Value());
    if recipeCuisine == userCuisine {
      score := score + 0.3;
    } else if Contains(userCuisine, recipeCuisine) || Contains(recipeCuisine, userCuisine) {
      score := score + 0.15;
    }
    ghost var partial := CuisineFactor(recipe, userPreferences);
    assert score == partial;

    // 2. Meal type, counted once
    var recipeTags := LowerAll(recipe.tags);
    var userMealTypes := MealTypeNames(userPreferences);
    var mealMatched := MatchMealType(userMealTypes, recipeTags);
    if mealMatched {
      score := score + 0.1;
    }
    partial := partial + MealTypeFactor(recipe, userPreferences);
    assert score == partial;

    // 3. Cooking time, with a 15-minute allowance
    var recipeCookingTime := recipe.cookingTime;
    var userMaxTime := ParseCookingTime(userPreferences.maxCookingTime.Value());
    if recipeCookingTime <= userMaxTime {
      score := score + 0.15;
    } else if recipeCookingTime <= userMaxTime + 15 {
      score := score + 0.075;
    }
    partial := partial + TimeFactor(recipe, userPreferences);
    assert score == partial;

    // 4. Ingredient availability
    var recipeIngredients := LowerAll(recipe.ingredients);
    var matchingIngredients := CountMatchingIngredients(recipeIngredients, LowerAll(availableIngredients));
    if |recipeIngredients| > 0 {
      var ingredientMatchRatio := (matchingIngredients as real) / (|recipeIngredients| as real);
      score := score + 0.25 * ingredientMatchRatio;
    }
  }

  /**
   * `calculate_recipe_score`: the factors added one by one, returning 0 as
   * soon as a dietary restriction is violated or a disliked ingredient is found.
   */
  method CalculateRecipeScore(recipe: BaseRecipe, userPreferences: UserPreferences,
                              dietaryRestrictions: seq<string>, availableIngredients: seq<string>,
                              userProfile: Option<UserProfile>) returns (score: real)
    ensures score == Score(recipe, userPreferences, dietaryRestrictions, availableIngredients, userProfile)
  {
    // 1-4. Cuisine, meal type, cooking time and availability
    score := PreferenceScore(recipe, userPreferences, availableIngredients);
    ghost var partial := score;
    var recipeIngredients := LowerAll(recipe.ingredients);

    // 5. Dietary restrictions: a violation disqualifies
    if !ViolatesDietaryRestrictions(recipe, dietaryRestrictions) {
      score := score + 0.2;
    } else {
      return 0.0;
    }
    assert !ViolatesDietaryRestrictions(recipe, dietaryRestrictions);

    // 6. User profile: a disliked ingredient disqualifies, a saved recipe earns a bonus
    if userProfile.Some? {
      var savedRecipes := userProfile.value.savedRecipes;
      var dislikedIngredients := LowerAll(userProfile.value.dislikedIngredients);
      var disliked := FindDislikedIngredient(recipeIngredients, dislikedIngredients);
      if disliked {
        assert HasDislikedIngredient(recipe, userProfile.value);
        return 0.0;
      }
      assert !HasDislikedIngredient(recipe, userProfile.value);
      if recipe.id in savedRecipes {
        score := score + 0.1;
      }
    }
    partial := partial + DietaryWeight + ProfileBonus(recipe, userProfile);
    assert score == partial;

    // 7. Spice level
    var recipeSpiceLevel := ExtractSpiceLevel(recipe);
    var userSpiceLevel := Lower(userPreferences.spiceLevel.Value());
    if recipeSpiceLevel == userSpiceLevel {
      score := score + 0.1;
    } else if SpiceLevelsCompatible(recipeSpiceLevel, userSpiceLevel) {
      score := score + 0.05;
    }

    // 8. Difficulty
    var difficulty := Lower(recipe.difficulty);
    if difficulty == "easy" {
      score := score + 0.05;
    }
    partial := partial + SpiceFactor(recipe, userPreferences) + DifficultyFactor(recipe);
    assert score == partial;
    assert !Disqualified(recipe, dietaryRestrictions, userProfile);
  }

  // ---------------------------------------------------------------------------
  // Ranking

  /** The candidates with a positive score, paired with it, in input order. */
  function Scored(prefs: UserPreferences, dietaryRestrictions: seq<string>, availableIngredients: seq<string>,
                  userProfile: Option<UserProfile>, recipes: seq<BaseRecipe>): (r: seq<ScoredRecipe>)
    ensures |r| <= |recipes|
    ensures forall k :: 0 <= k < |r| ==>
              && r[k].recipe in recipes
              && r[k].score == Score(r[k].recipe, prefs, dietaryRestrictions, availableIngredients, userProfile)
              && r[k].score > 0.0
    decreases |recipes|
  {
    if recipes == [] then []
    else
      var last := recipes[|recipes| - 1];
      var init := Scored(prefs, dietaryRestrictions, availableIngredients, userProfile, recipes[..|recipes| - 1]);
      assert forall x :: x in recipes[..|recipes| - 1] ==> x in recipes;
      var s := Score(last, prefs, dietaryRestrictions, availableIngredients, userProfile);
      if s > 0.0 then init + [ScoredRecipe(last, s)] else init
  }

  /** One more candidate extends the scored list when its score is positive. */
  lemma ScoredSnoc(prefs: UserPreferences, dietaryRestrictions: seq<string>, availableIngredients: seq<string>,
                   userProfile: Option<UserProfile>, recipes: seq<BaseRecipe>, i: nat, score: real)
    requires i < |recipes|
    requires score == Score(recipes[i], prefs, dietaryRestrictions, availableIngredients, userProfile)
    ensures Scored(prefs, dietaryRestrictions, availableIngredients, userProfile, recipes[..i + 1])
            == Scored(prefs, dietaryRestrictions, availableIngredients, userProfile, recipes[..i])
               + (if score > 0.0 then [ScoredRecipe(recipes[i], score)] else [])
  {
    assert recipes[..i + 1][..i] == recipes[..i];
  }

  /** The candidates of a prefix are scored first: their entries lead the whole list. */
  lemma {:induction false} ScoredPrefix(prefs: UserPreferences, dietaryRestrictions: seq<string>, availableIngredients: seq<string>,
                                        userProfile: Option<UserProfile>, recipes: seq<BaseRecipe>, j: nat)
    requires j <= |recipes|
    ensures Scored(prefs, dietaryRestrictions, availableIngredients, userProfile, recipes[..j])
            <= Scored(prefs, dietaryRestrictions, availableIngredients, userProfile, recipes)
    decreases |recipes|
  {
    if j < |recipes| {
      var init := recipes[..|recipes| - 1];
      assert init[..j] == recipes[..j];
      ScoredPrefix(prefs, dietaryRestrictions, availableIngredients, userProfile, init, j);
    } else {
      assert recipes[..j] == recipes;
    }
  }

  /**
   * The scored list keeps input order: a positively scored candidate's entry
   * sits right after the entries of the candidates before it.
   */
  lemma ScoredInOrder(prefs: UserPreferences, dietaryRestrictions: seq<string>, availableIngredients: seq<string>,
                      userProfile: Option<UserProfile>, recipes: seq<BaseRecipe>, i: nat)
    requires i < |recipes|
    ensures var before := Scored(prefs, dietaryRestrictions, availableIngredients, userProfile, recipes[..i]);
            var all := Scored(prefs, dietaryRestrictions, availableIngredients, userProfile, recipes);
            var s := Score(recipes[i], prefs, dietaryRestrictions, availableIngredients, userProfile);
            && before <= all
            && (s > 0.0 <==> |before| < |all| && all[|before|] == ScoredRecipe(recipes[i], s))
  {
    var s := Score(recipes[i], prefs, dietaryRestrictions, availableIngredients, userProfile);
    var before := Scored(prefs, dietaryRestrictions, availableIngredients, userProfile, recipes[..i]);
    var through := Scored(prefs, dietaryRestrictions, availableIngredients, userProfile, recipes[..i + 1]);
    var all := Scored(prefs, dietaryRestrictions, availableIngredients, userProfile, recipes);
    ScoredSnoc(prefs, dietaryRestrictions, availableIngredients, userProfile, recipes, i, s);
    assert through == before + (if s > 0.0 then [ScoredRecipe(recipes[i], s)] else []);
    ScoredPrefix(prefs, dietaryRestrictions, availableIngredients, userProfile, recipes, i + 1);
    assert through <= all;
    if s > 0.0 {
      assert all[|before|] == through[|before|];
    } else {
      assert through == before;
    }
  }

  /** Non-increasing scores. */
  predicate SortedByScore(xs: seq<ScoredRecipe>) {
    forall i, j :: 0 <= i < j < |xs| ==> xs[i].score >= xs[j].score
  }

  /** The entries whose score is `v`, in order. */
  function WithScore(xs: seq<ScoredRecipe>, v: real): seq<ScoredRecipe>
    decreases |xs|
  {
    if xs == [] then [] else (if xs[0].score == v then [xs[0]] else []) + WithScore(xs[1..], v)
  }

  lemma {:induction false} WithScoreAppend(a: seq<ScoredRecipe>, b: seq<ScoredRecipe>, v: real)
    ensures WithScore(a + b, v) == WithScore(a, v) + WithScore(b, v)
    decreases |a|
  {
    if a != [] {
      var head := if a[0].score == v then [a[0]] else [];
      assert (a + b)[0] == a[0];
      assert (a + b)[1..] == a[1..] + b;
      WithScoreAppend(a[1..], b, v);
      calc {
        WithScore(a + b, v);
        head + WithScore(a[1..] + b, v);
        head + (WithScore(a[1..], v) + WithScore(b, v));
        (head + WithScore(a[1..], v)) + WithScore(b, v);
      }
    } else {
      assert a + b == b;
    }
  }

  lemma WithScoreSingle(y: ScoredRecipe, v: real)
    ensures WithScore([y], v) == if y.score == v then [y] else []
  {
    assert [y][1..] == [];
  }

  /** `x` placed after every leading entry scoring more than it. */
  function InsertByScore(x: ScoredRecipe, sorted: seq<ScoredRecipe>): seq<ScoredRecipe>
    decreases |sorted|
  {
    if sorted == [] || x.score >= sorted[0].score then [x] + sorted
    else [sorted[0]] + InsertByScore(x, sorted[1..])
  }

  /** Inserting adds exactly `x`. */
  lemma {:induction false} InsertByScorePermutes(x: ScoredRecipe, sorted: seq<ScoredRecipe>)
    ensures multiset(InsertByScore(x, sorted)) == multiset(sorted) + multiset{x}
    decreases |sorted|
  {
    if sorted != [] && x.score < sorted[0].score {
      InsertByScorePermutes(x, sorted[1..]);
      assert sorted == [sorted[0]] + sorted[1..];
    }
  }

  /** Inserting into a sorted list keeps it sorted. */
  lemma {:induction false} InsertByScoreSorted(x: ScoredRecipe, sorted: seq<ScoredRecipe>)
    requires SortedByScore(sorted)
    ensures SortedByScore(InsertByScore(x, sorted))
    decreases |sorted|
  {
    if sorted != [] && x.score < sorted[0].score {
      var first, tail := sorted[0], sorted[1..];
      var rest := InsertByScore(x, tail);
      InsertByScoreSorted(x, tail);
      InsertByScorePermutes(x, tail);
      forall k | 0 <= k < |rest| ensures rest[k].score <= first.score {
        assert rest[k] in multiset(tail) + multiset{x};
      }
    }
  }

  /** Inserting keeps `x` ahead of the entries with its own score and the others in order. */
  lemma {:induction false} InsertByScoreStable(x: ScoredRecipe, sorted: seq<ScoredRecipe>, v: real)
    ensures WithScore(InsertByScore(x, sorted), v) == WithScore([x] + sorted, v)
    decreases |sorted|
  {
    if sorted != [] && x.score < sorted[0].score {
      var first, tail := sorted[0], sorted[1..];
      assert sorted == [first] + tail;
      var rest := InsertByScore(x, tail);
      var wx, wf, wt := WithScore([x], v), WithScore([first], v), WithScore(tail, v);
      assert wx == [] || wf == [] by {
        WithScoreSingle(x, v);
        WithScoreSingle(first, v);
      }
      calc {
        WithScore(InsertByScore(x, sorted), v);
        WithScore([first] + rest, v);
        { WithScoreAppend([first], rest, v); }
        wf + WithScore(rest, v);
        { InsertByScoreStable(x, tail, v); WithScoreAppend([x], tail, v); }
        wf + (wx + wt);
        { assert wf + (wx + wt) == wx + (wf + wt); }
        wx + (wf + wt);
        { WithScoreAppend([first], tail, v); }
        wx + WithScore(sorted, v);
        { WithScoreAppend([x], sorted, v); }
        WithScore([x] + sorted, v);
      }
    }
  }

  /** `list.sort(key=score, reverse=True)`, as an insertion sort. */
  function SortByScoreDesc(xs: seq<ScoredRecipe>): seq<ScoredRecipe>
    decreases |xs|
  {
    if xs == [] then [] else InsertByScore(xs[0], SortByScoreDesc(xs[1..]))
  }

  /** The sort is a permutation. */
  lemma {:induction false} SortByScoreDescPermutes(xs: seq<ScoredRecipe>)
    ensures multiset(SortByScoreDesc(xs)) == multiset(xs)
    decreases |xs|
  {
    if xs != [] {
      SortByScoreDescPermutes(xs[1..]);
      InsertByScorePermutes(xs[0], SortByScoreDesc(xs[1..]));
      assert xs == [xs[0]] + xs[1..];
    }
  }

  /** The sort leaves the scores non-increasing. */
  lemma {:induction false} SortByScoreDescSorted(xs: seq<ScoredRecipe>)
    ensures SortedByScore(SortByScoreDesc(xs))
    decreases |xs|
  {
    if xs != [] {
      SortByScoreDescSorted(xs[1..]);
      InsertByScoreSorted(xs[0], SortByScoreDesc(xs[1..]));
    }
  }

  /** The sort is stable: the entries of any one score keep their original order. */
  lemma {:induction false} SortByScoreDescStable(xs: seq<ScoredRecipe>, v: real)
    ensures WithScore(SortByScoreDesc(xs), v) == WithScore(xs, v)
    decreases |xs|
  {
    if xs != [] {
      var rest := SortByScoreDesc(xs[1..]);
      SortByScoreDescStable(xs[1..], v);
      InsertByScoreStable(xs[0], rest, v);
      assert xs == [xs[0]] + xs[1..];
      WithScoreAppend([xs[0]], rest, v);
      WithScoreAppend([xs[0]], xs[1..], v);
    }
  }

  /** How many recommendations the ranker keeps. */
  const TopCount := 5

  /** The best five positively scored candidates, highest score first. */
  function Ranking(prefs: UserPreferences, dietaryRestrictions: seq<string>, availableIngredients: seq<string>,
                   userProfile: Option<UserProfile>, recipes: seq<BaseRecipe>): seq<ScoredRecipe>
  {
    var sorted := SortByScoreDesc(Scored(prefs, dietaryRestrictions, availableIngredients, userProfile, recipes));
    sorted[..Min(TopCount, |sorted|)]
  }

  /** In a sorted list, no entry past position `n` scores more than one before it. */
  lemma DroppedScoreLower(sorted: seq<ScoredRecipe>, n: nat)
    requires SortedByScore(sorted) && n <= |sorted|
    ensures forall x, k :: x in multiset(sorted[n..]) && 0 <= k < n ==> x.score <= sorted[k].score
  {
    forall x, k | x in multiset(sorted[n..]) && 0 <= k < n ensures x.score <= sorted[k].score {
      var m :| 0 <= m < |sorted[n..]| && sorted[n..][m] == x;
      assert sorted[n + m] == x;
    }
  }

  /**
   * The first `n` entries of the sorted list are sorted and drawn from the
   * list, and no entry left out scores more than one kept.
   */
  lemma TopOfSorted(pool: seq<ScoredRecipe>, n: nat)
    requires n <= |pool|
    ensures |SortByScoreDesc(pool)| == |pool|
    ensures var top := SortByScoreDesc(pool)[..n];
            && SortedByScore(top)
            && multiset(top) <= multiset(pool)
            && (forall x, k :: x in multiset(pool) - multiset(top) && 0 <= k < |top| ==> x.score <= top[k].score)
  {
    var sorted := SortByScoreDesc(pool);
    assert multiset(sorted) == multiset(pool) by {
      SortByScoreDescPermutes(pool);
    }
    assert |sorted| == |pool| by {
      assert |sorted| == |multiset(sorted)| == |multiset(pool)| == |pool|;
    }
    assert SortedByScore(sorted) by {
      SortByScoreDescSorted(pool);
    }
    TopAndDropped(sorted, n);
  }

  /** Cutting a sorted list after `n` entries keeps a sorted part that outscores the rest. */
  lemma TopAndDropped(sorted: seq<ScoredRecipe>, n: nat)
    requires SortedByScore(sorted) && n <= |sorted|
    ensures var top := sorted[..n];
            && SortedByScore(top)
            && multiset(top) <= multiset(sorted)
            && (forall x, k :: x in multiset(sorted) - multiset(top) && 0 <= k < |top| ==> x.score <= top[k].score)
  {
    var top, dropped := sorted[..n], sorted[n..];
    assert multiset(top) + multiset(dropped) == multiset(sorted) by {
      assert sorted == top + dropped;
    }
    assert forall x: ScoredRecipe, k :: x in multiset(dropped) && 0 <= k < n ==> x.score <= top[k].score by {
      DroppedScoreLower(sorted, n);
    }
  }

  /** For each score, the first `n` entries of the sorted list hold the first entries of the list with that score. */
  lemma TopOfSortedStable(pool: seq<ScoredRecipe>, n: nat, v: real)
    requires n <= |SortByScoreDesc(pool)|
    ensures WithScore(SortByScoreDesc(pool)[..n], v) <= WithScore(pool, v)
  {
    var sorted := SortByScoreDesc(pool);
    SortByScoreDescStable(pool, v);
    assert sorted == sorted[..n] + sorted[n..];
    WithScoreAppend(sorted[..n], sorted[n..], v);
  }

  /**
   * The ranking holds min(5, number of positively scored candidates) entries,
   * all positively scored candidates from the input with their scores, in
   * non-increasing score order; no candidate left out scores more than one
   * kept; and for each score, the kept entries with that score are the first
   * candidates of the input with that score, in input order.
   */
  lemma RankingProperties(prefs: UserPreferences, dietaryRestrictions: seq<string>, availableIngredients: seq<string>,
                          userProfile: Option<UserProfile>, recipes: seq<BaseRecipe>)
    ensures var pool := Scored(prefs, dietaryRestrictions, availableIngredients, userProfile, recipes);
            var r := Ranking(prefs, dietaryRestrictions, availableIngredients, userProfile, recipes);
            && |r| == Min(TopCount, |pool|)
            && (recipes == [] ==> r == [])
            && (forall k :: 0 <= k < |r| ==>
                  && r[k].recipe in recipes && r[k].score > 0.0
                  && r[k].score == Score(r[k].recipe, prefs, dietaryRestrictions, availableIngredients, userProfile))
            && SortedByScore(r)
            && multiset(r) <= multiset(pool)
            && (forall x, k :: x in multiset(pool) - multiset(r) && 0 <= k < |r| ==> x.score <= r[k].score)
            && (forall v :: WithScore(r, v) <= WithScore(pool, v))
  {
    var pool := Scored(prefs, dietaryRestrictions, availableIngredients, userProfile, recipes);
    var n := Min(TopCount, |pool|);
    TopOfSorted(pool, n);
    var r := SortByScoreDesc(pool)[..n];
    forall v ensures WithScore(r, v) <= WithScore(pool, v) {
      TopOfSortedStable(pool, n, v);
    }
    forall k | 0 <= k < |r|
      ensures r[k].recipe in recipes && r[k].score > 0.0
      ensures r[k].score == Score(r[k].recipe, prefs, dietaryRestrictions, availableIngredients, userProfile)
    {
      assert r[k] in multiset(r);
      assert r[k] in pool;
    }
  }

  // ---------------------------------------------------------------------------
  // Conversion to the response shape

  /**
   * A candidate in the response shape: one ingredient per base ingredient with
   * quantity "as needed" and no notes, and one instruction, step 1, carrying
   * the candidate's cooking time.
   */
  function ConvertedRecipe(recipe: BaseRecipe): (g: GeneratedRecipe)
    ensures |g.ingredients| == |recipe.ingredients|
    ensures forall k :: 0 <= k < |recipe.ingredients| ==>
              g.ingredients[k] == RecipeIngredient(recipe.ingredients[k], "as needed", None)
    ensures |g.instructions| == 1 && g.instructions[0].stepNumber == 1
    ensures g.instructions[0].timeMinutes == Some(recipe.cookingTime)
    ensures g.id == recipe.id && g.title == recipe.title && g.cookingTime == recipe.cookingTime
  {
    GeneratedRecipe(
      id := recipe.id,
      title := recipe.title,
      description := Some("A delicious " + recipe.cuisine + " recipe"),
      ingredients := seq(|recipe.ingredients|, k requires 0 <= k < |recipe.ingredients| =>
                           RecipeIngredient(recipe.ingredients[k], "as needed", None)),
      instructions := [RecipeInstruction(1, "Prepare " + recipe.title + " according to your preference",
                                         Some(recipe.cookingTime))],
      cookingTime := recipe.cookingTime,
      difficulty := recipe.difficulty,
      cuisine := recipe.cuisine,
      spiceLevel := "Medium",
      imageUrl := None,
      tags := recipe.tags,
      createdAt := "",
      userId := None)
  }

  /** `convert_to_generated_recipe`: the ingredient list is built by appending. */
  method ConvertToGeneratedRecipe(recipe: BaseRecipe) returns (g: GeneratedRecipe)
    ensures g == ConvertedRecipe(recipe)
  {
    var ingredients: seq<RecipeIngredient> := [];
    for k := 0 to |recipe.ingredients|
      invariant |ingredients| == k
      invariant forall m :: 0 <= m < k ==> ingredients[m] == RecipeIngredient(recipe.ingredients[m], "as needed", None)
    {
      ingredients := ingredients + [RecipeIngredient(recipe.ingredients[k], "as needed", None)];
    }
    var instructions := [RecipeInstruction(1, "Prepare " + recipe.title + " according to your preference",
                                           Some(recipe.cookingTime))];
    g := GeneratedRecipe(
      id := recipe.id,
      title := recipe.title,
      description := Some("A delicious " + recipe.cuisine + " recipe"),
      ingredients := ingredients,
      instructions := instructions,
      cookingTime := recipe.cookingTime,
      difficulty := recipe.difficulty,
      cuisine := recipe.cuisine,
      spiceLevel := "Medium",
      imageUrl := None,
      tags := recipe.tags,
      createdAt := "",
      userId := None);
  }

  /** The conversion loop of `get_recommended_recipes`: each kept candidate, converted, in order. */
  method ConvertAll(topRecipes: seq<ScoredRecipe>) returns (recommendations: seq<GeneratedRecipe>)
    ensures |recommendations| == |topRecipes|
    ensures forall k :: 0 <= k < |topRecipes| ==> recommendations[k] == ConvertedRecipe(topRecipes[k].recipe)
  {
    recommendations := [];
    for i := 0 to |topRecipes|
      invariant |recommendations| == i
      invariant forall k :: 0 <= k < i ==> recommendations[k] == ConvertedRecipe(topRecipes[k].recipe)
    {
      var generated := ConvertToGeneratedRecipe(topRecipes[i].recipe);
      recommendations := recommendations + [generated];
    }
  }

  /**
   * `get_recommended_recipes`: score every candidate, keep the positive ones,
   * sort them, keep the first five and convert each one.
   */
  method GetRecommendedRecipes(userPreferences: UserPreferences, dietaryRestrictions: seq<string>,
                               availableIngredients: seq<string>, userProfile: Option<UserProfile>,
                               allBaseRecipes: seq<BaseRecipe>) returns (recommendations: seq<GeneratedRecipe>)
    ensures var ranking := Ranking(userPreferences, dietaryRestrictions, availableIngredients, userProfile, allBaseRecipes);
            && |recommendations| == |ranking| <= TopCount
            && forall k :: 0 <= k < |ranking| ==> recommendations[k] == ConvertedRecipe(ranking[k].recipe)
  {
    var scoredRecipes: seq<ScoredRecipe> := [];
    for i := 0 to |allBaseRecipes|
      invariant scoredRecipes == Scored(userPreferences, dietaryRestrictions, availableIngredients,
                                        userProfile, allBaseRecipes[..i])
    {
      var recipe := allBaseRecipes[i];
      var score := CalculateRecipeScore(recipe, userPreferences, dietaryRestrictions,
                                        availableIngredients, userProfile);
      ScoredSnoc(userPreferences, dietaryRestrictions, availableIngredients, userProfile, allBaseRecipes, i, score);
      if score > 0.0 {
        scoredRecipes := scoredRecipes + [ScoredRecipe(recipe, score)];
      }
    }
    assert allBaseRecipes[..|allBaseRecipes|] == allBaseRecipes;

    scoredRecipes := SortByScoreDesc(scoredRecipes);
    var topRecipes := scoredRecipes[..Min(TopCount, |scoredRecipes|)];

    recommendations := ConvertAll(topRecipes);
  }
}
