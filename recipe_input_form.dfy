/**
 * The available-ingredients list of the recipe request form: the text field
 * being typed into and the list built from it, with the add and remove
 * handlers.
 */
module RecipeInputForm {
  import opened Text

  /** The list after adding `input`: its trimmed form appended unless blank or already listed. */
  function WithIngredient(ingredients: seq<string>, input: string): seq<string> {
    var value := Trim(input);
    if value != [] && value !in ingredients then ingredients + [value] else ingredients
  }

  /** `ingredients.filter((_, i) => i !== index)`. */
  function WithoutIndex(ingredients: seq<string>, index: int): seq<string> {
    if 0 <= index < |ingredients| then ingredients[..index] + ingredients[index + 1..] else ingredients
  }

  predicate NoDuplicates(xs: seq<string>) {
    forall i, j :: 0 <= i < j < |xs| ==> xs[i] != xs[j]
  }

  /**
   * Blank input and input already listed (after trimming, case-sensitively)
   * are rejected with the list unchanged; otherwise the trimmed value is
   * appended and the list grows by one.
   */
  lemma AddProperties(ingredients: seq<string>, input: string)
    ensures Trim(input) == [] ==> WithIngredient(ingredients, input) == ingredients
    ensures Trim(input) in ingredients ==> WithIngredient(ingredients, input) == ingredients
    ensures Trim(input) != [] && Trim(input) !in ingredients ==>
              var r := WithIngredient(ingredients, input);
              |r| == |ingredients| + 1 && r[..|ingredients|] == ingredients && r[|ingredients|] == Trim(input)
  {
    var r := WithIngredient(ingredients, input);
    if Trim(input) != [] && Trim(input) !in ingredients {
      assert r[..|ingredients|] == ingredients;
    }
  }

  /** A list without duplicates keeps none after an add. */
  lemma AddKeepsDistinct(ingredients: seq<string>, input: string)
    requires NoDuplicates(ingredients)
    ensures NoDuplicates(WithIngredient(ingredients, input))
  {
  }

  /**
   * Removing index `i` drops exactly that entry: the entries before it stay
   * where they were, those after it move up by one; any other index changes
   * nothing.
   */
  lemma RemoveProperties(ingredients: seq<string>, index: int)
    ensures var r := WithoutIndex(ingredients, index);
            && (0 <= index < |ingredients| ==>
                  && |r| == |ingredients| - 1
                  && (forall k :: 0 <= k < index ==> r[k] == ingredients[k])
                  && (forall k :: index <= k < |r| ==> r[k] == ingredients[k + 1]))
            && (!(0 <= index < |ingredients|) ==> r == ingredients)
  {
  }

  /** A removal undoes the add that appended the entry. */
  lemma RemoveUndoesAdd(ingredients: seq<string>, input: string)
    requires Trim(input) != [] && Trim(input) !in ingredients
    ensures WithoutIndex(WithIngredient(ingredients, input), |ingredients|) == ingredients
  {
    var r := WithIngredient(ingredients, input);
    assert r[..|ingredients|] == ingredients;
    assert r[|ingredients| + 1..] == [];
  }

  /** The form's state: the text field and the list. */
  class IngredientForm {
    var ingredientInput: string
    var ingredients: seq<string>

    /** The form as first shown: both empty. */
    constructor ()
      ensures ingredientInput == [] && ingredients == []
    {
      ingredientInput := [];
      ingredients := [];
    }

    /** The text field's change handler. */
    method Type(text: string)
      modifies this
      ensures ingredientInput == text && ingredients == old(ingredients)
    {
      ingredientInput := text;
    }

    /** `addIngredient`: on acceptance the trimmed value is appended and the field is cleared. */
    method AddIngredient()
      modifies this
      ensures ingredients == WithIngredient(old(ingredients), old(ingredientInput))
      ensures ingredientInput == (if ingredients == old(ingredients) then old(ingredientInput) else [])
    {
      var value := Trim(ingredientInput);
      if value != [] && value !in ingredients {
        ingredients := ingredients + [value];
        ingredientInput := [];
      }
    }

    /** `removeIngredient(index)`. */
    method RemoveIngredient(index: int)
      modifies this
      ensures ingredients == WithoutIndex(old(ingredients), index)
      ensures ingredientInput == old(ingredientInput)
    {
      var kept: seq<string> := [];
      for i := 0 to |ingredients|
        invariant kept == WithoutIndex(ingredients[..i], index)
      {
        if i != index {
          kept := kept + [ingredients[i]];
        }
      }
      ingredients := kept;
    }
  }
}
