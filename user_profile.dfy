/**
 * The record edits of the user-profile service: cooking history, saved
 * recipes, disliked ingredients and the merge that writes a profile back.
 *
 * The profile store (a cache in front of a document database) is not
 * modelled: the profile a read returns is an `Option<UserProfile>` parameter,
 * the profile a write stores is the result, and the current time is the
 * parameter `now`. `ProfileDoc` is the profile dictionary the service edits in
 * place; the functions beside it state each edit on values.
 */
module UserProfileService {
  import opened Wrappers
  import opened Text
  import opened Models

  /** The cooking history keeps at most this many recipe ids. */
  const HistoryLimit: nat := 50

  /** The profile written for a user who has none yet. */
  function Fresh(userId: string, now: string): (p: UserProfile)
    ensures p.userId == userId && p.preferences == EmptyPreferences
    ensures p.savedRecipes == [] && p.dislikedIngredients == [] && p.cookingHistory == []
    ensures p.createdAt == now && p.updatedAt == now
  {
    UserProfile(userId, EmptyPreferences, [], [], [], now, now)
  }

  // ---------------------------------------------------------------------------
  // The three list edits

  /** The history after cooking `recipeId`: put in front unless present, then cut to 50. */
  function WithHistory(history: seq<string>, recipeId: string): seq<string> {
    if recipeId in history then history
    else ([recipeId] + history)[..Min(HistoryLimit, |history| + 1)]
  }

  /** The saved recipes after saving `recipeId`: appended unless present. */
  function WithSaved(saved: seq<string>, recipeId: string): seq<string> {
    if recipeId in saved then saved else saved + [recipeId]
  }

  /** The disliked ingredients after disliking `ingredient`: appended unless present in any casing. */
  function WithDisliked(disliked: seq<string>, ingredient: string): seq<string> {
    if Lower(ingredient) in LowerAll(disliked) then disliked else disliked + [ingredient]
  }

  predicate NoDuplicates(xs: seq<string>) {
    forall i, j :: 0 <= i < j < |xs| ==> xs[i] != xs[j]
  }

  /** No two entries are equal once lower-cased. */
  predicate NoDuplicatesIgnoringCase(xs: seq<string>) {
    forall i, j :: 0 <= i < j < |xs| ==> Lower(xs[i]) != Lower(xs[j])
  }

  /**
   * A new id goes in front and the list stays within 50; the entries kept
   * are the newest ones in their order, so a full list loses its last
   * (oldest) entry; an id already present changes nothing.
   */
  lemma HistoryProperties(history: seq<string>, recipeId: string)
    ensures var h := WithHistory(history, recipeId);
            && (recipeId in history ==> h == history)
            && (recipeId !in history ==>
                  && h[0] == recipeId
                  && |h| == Min(HistoryLimit, |history| + 1)
                  && h[1..] == history[..|h| - 1])
    ensures recipeId !in history && |history| >= HistoryLimit ==>
              WithHistory(history, recipeId) == [recipeId] + history[..HistoryLimit - 1]
  {
  }

  /** A history of at most 50 ids stays within 50 after an edit, and holds the id afterwards. */
  lemma HistoryBounded(history: seq<string>, recipeId: string)
    requires |history| <= HistoryLimit
    ensures |WithHistory(history, recipeId)| <= HistoryLimit
    ensures recipeId in WithHistory(history, recipeId)
  {
    if recipeId !in history {
      assert WithHistory(history, recipeId)[0] == recipeId;
    }
  }

  /** A history without duplicates keeps none. */
  lemma HistoryKeepsDistinct(history: seq<string>, recipeId: string)
    requires NoDuplicates(history)
    ensures NoDuplicates(WithHistory(history, recipeId))
  {
    if recipeId !in history {
      var h := WithHistory(history, recipeId);
      forall i, j | 0 <= i < j < |h| ensures h[i] != h[j] {
        assert h[j] == history[j - 1];
        if i > 0 {
          assert h[i] == history[i - 1];
        }
      }
    }
  }

  /** Saving appends only an absent id, so saving twice is saving once. */
  lemma SavedProperties(saved: seq<string>, recipeId: string)
    ensures recipeId in saved ==> WithSaved(saved, recipeId) == saved
    ensures recipeId !in saved ==> WithSaved(saved, recipeId) == saved + [recipeId]
    ensures recipeId in WithSaved(saved, recipeId)
    ensures WithSaved(WithSaved(saved, recipeId), recipeId) == WithSaved(saved, recipeId)
    ensures NoDuplicates(saved) ==> NoDuplicates(WithSaved(saved, recipeId))
  {
    assert recipeId in saved + [recipeId] by {
      assert (saved + [recipeId])[|saved|] == recipeId;
    }
  }

  /**
   * An ingredient present under any casing is skipped; otherwise it is
   * appended in its own casing, and the list stays free of case-insensitive
   * duplicates.
   */
  lemma DislikedProperties(disliked: seq<string>, ingredient: string)
    ensures (exists k :: 0 <= k < |disliked| && Lower(disliked[k]) == Lower(ingredient)) ==>
              WithDisliked(disliked, ingredient) == disliked
    ensures (forall k :: 0 <= k < |disliked| ==> Lower(disliked[k]) != Lower(ingredient)) ==>
              WithDisliked(disliked, ingredient) == disliked + [ingredient]
    ensures NoDuplicatesIgnoringCase(disliked) ==> NoDuplicatesIgnoringCase(WithDisliked(disliked, ingredient))
  {
    var lowered := LowerAll(disliked);
    if exists k :: 0 <= k < |disliked| && Lower(disliked[k]) == Lower(ingredient) {
      var k :| 0 <= k < |disliked| && Lower(disliked[k]) == Lower(ingredient);
      assert lowered[k] == Lower(ingredient);
    }
    if Lower(ingredient) in lowered {
      var k :| 0 <= k < |lowered| && lowered[k] == Lower(ingredient);
      assert Lower(disliked[k]) == Lower(ingredient);
    }
  }

  // ---------------------------------------------------------------------------
  // The merge

  /**
   * The keys a write passes: each present key overwrites the stored one
   * (`dict.update`), each absent key leaves it alone.
   */
  datatype ProfileUpdate = ProfileUpdate(
    userId: Option<string>,
    preferences: Option<PreferencesDoc>,
    savedRecipes: Option<seq<string>>,
    dislikedIngredients: Option<seq<string>>,
    cookingHistory: Option<seq<string>>,
    createdAt: Option<string>,
    updatedAt: Option<string>)

  /** A whole profile passed as the data of a write: every key present. */
  function AllKeys(p: UserProfile): ProfileUpdate {
    ProfileUpdate(Some(p.userId), Some(p.preferences), Some(p.savedRecipes),
                  Some(p.dislikedIngredients), Some(p.cookingHistory), Some(p.createdAt), Some(p.updatedAt))
  }

  /** The write after generating a recipe: the history set to that recipe, and the request's preferences. */
  function GeneratedUpdate(recipeId: string, prefs: UserPreferences): ProfileUpdate {
    ProfileUpdate(None, Some(StoredPreferences(prefs)), None, None, Some([recipeId]), None, None)
  }

  /** `existing.update(newData)` followed by a fresh `updated_at`. */
  function Merged(existing: UserProfile, newData: ProfileUpdate, now: string): UserProfile {
    UserProfile(
      newData.userId.GetOr(existing.userId),
      newData.preferences.GetOr(existing.preferences),
      newData.savedRecipes.GetOr(existing.savedRecipes),
      newData.dislikedIngredients.GetOr(existing.dislikedIngredients),
      newData.cookingHistory.GetOr(existing.cookingHistory),
      newData.createdAt.GetOr(existing.createdAt),
      now)
  }

  /**
   * The record a write creates for a user without a profile: the lists and
   * preferences from `newData` or empty, the id and both timestamps its own.
   */
  function Created(userId: string, newData: ProfileUpdate, now: string): UserProfile {
    UserProfile(
      userId,
      newData.preferences.GetOr(EmptyPreferences),
      newData.savedRecipes.GetOr([]),
      newData.dislikedIngredients.GetOr([]),
      newData.cookingHistory.GetOr([]),
      now,
      now)
  }

  /** The profile `update_user_profile` writes, given the profile the store returns. */
  function Updated(stored: Option<UserProfile>, userId: string, newData: ProfileUpdate, now: string): UserProfile {
    match stored
    case Some(existing) => Merged(existing, newData, now)
    case None => Created(userId, newData, now)
  }

  /** Passed keys win, the others are kept, and `updated_at` is always the write's time. */
  lemma MergeProperties(existing: UserProfile, newData: ProfileUpdate, now: string)
    ensures var m := Merged(existing, newData, now);
            && (newData.cookingHistory.Some? ==> m.cookingHistory == newData.cookingHistory.value)
            && (newData.cookingHistory.None? ==> m.cookingHistory == existing.cookingHistory)
            && (newData.savedRecipes.Some? ==> m.savedRecipes == newData.savedRecipes.value)
            && (newData.savedRecipes.None? ==> m.savedRecipes == existing.savedRecipes)
            && (newData.dislikedIngredients.Some? ==> m.dislikedIngredients == newData.dislikedIngredients.value)
            && (newData.dislikedIngredients.None? ==> m.dislikedIngredients == existing.dislikedIngredients)
            && (newData.preferences.Some? ==> m.preferences == newData.preferences.value)
            && (newData.preferences.None? ==> m.preferences == existing.preferences)
            && (newData.userId.Some? ==> m.userId == newData.userId.value)
            && (newData.userId.None? ==> m.userId == existing.userId)
            && (newData.createdAt.Some? ==> m.createdAt == newData.createdAt.value)
            && (newData.createdAt.None? ==> m.createdAt == existing.createdAt)
            && m.updatedAt == now
            && (newData == ProfileUpdate(None, None, None, None, None, None, None) ==> m == existing.(updatedAt := now))
  {
  }

  /** Writing a whole profile over the stored one leaves that profile, with the write's time. */
  lemma MergeAllKeys(existing: UserProfile, p: UserProfile, now: string)
    ensures Merged(existing, AllKeys(p), now) == p.(updatedAt := now)
  {
  }

  /**
   * After a recipe is generated the stored history is exactly that one
   * recipe, whatever it held before, and the saved and disliked lists are kept.
   */
  lemma GeneratedReplacesHistory(stored: Option<UserProfile>, userId: string, recipeId: string,
                                 prefs: UserPreferences, now: string)
    ensures var p := Updated(stored, userId, GeneratedUpdate(recipeId, prefs), now);
            && p.cookingHistory == [recipeId]
            && p.preferences == StoredPreferences(prefs)
            && (stored.Some? ==> p.savedRecipes == stored.value.savedRecipes
                                 && p.dislikedIngredients == stored.value.dislikedIngredients
                                 && p.userId == stored.value.userId && p.createdAt == stored.value.createdAt)
            && (stored.None? ==> p.userId == userId && p.savedRecipes == [] && p.dislikedIngredients == [])
  {
  }

  /**
   * A missing profile becomes a fresh record whose preferences and lists are
   * the ones passed, or empty; an id or timestamps in `newData` are ignored.
   */
  lemma CreatedProperties(userId: string, newData: ProfileUpdate, now: string)
    ensures var p := Updated(None, userId, newData, now);
            && p.userId == userId && p.createdAt == now && p.updatedAt == now
            && p.preferences == newData.preferences.GetOr(EmptyPreferences)
            && p.cookingHistory == newData.cookingHistory.GetOr([])
            && p.savedRecipes == newData.savedRecipes.GetOr([])
            && p.dislikedIngredients == newData.dislikedIngredients.GetOr([])
            && (newData == ProfileUpdate(None, None, None, None, None, None, None) ==> p == Fresh(userId, now))
  {
  }

  // ---------------------------------------------------------------------------
  // The profile dictionary, edited in place

  /** A profile dictionary held in memory by one service call. */
  class ProfileDoc {
    var userId: string
    var preferences: PreferencesDoc
    var savedRecipes: seq<string>
    var dislikedIngredients: seq<string>
    var cookingHistory: seq<string>
    var createdAt: string
    var updatedAt: string

    /** The dictionary's current contents. */
    function Value(): UserProfile
      reads this
    {
      UserProfile(userId, preferences, savedRecipes, dislikedIngredients, cookingHistory, createdAt, updatedAt)
    }

    /** A copy of a profile read from the store. */
    constructor (p: UserProfile)
      ensures Value() == p
    {
      userId := p.userId;
      preferences := p.preferences;
      savedRecipes := p.savedRecipes;
      dislikedIngredients := p.dislikedIngredients;
      cookingHistory := p.cookingHistory;
      createdAt := p.createdAt;
      updatedAt := p.updatedAt;
    }

    /** `insert(0, recipeId)` and the slice to 50, with a fresh `updated_at`, when the id is absent. */
    method AddToHistory(recipeId: string, now: string) returns (changed: bool)
      modifies this
      ensures changed <==> recipeId !in old(cookingHistory)
      ensures changed ==> Value() == old(Value()).(cookingHistory := WithHistory(old(cookingHistory), recipeId),
                                                   updatedAt := now)
      ensures !changed ==> Value() == old(Value())
    {
      changed := recipeId !in cookingHistory;
      if changed {
        cookingHistory := [recipeId] + cookingHistory;
        cookingHistory := cookingHistory[..Min(HistoryLimit, |cookingHistory|)];
        updatedAt := now;
      }
    }

    /** `append(recipeId)` to the saved recipes, with a fresh `updated_at`, when the id is absent. */
    method Save(recipeId: string, now: string) returns (changed: bool)
      modifies this
      ensures changed <==> recipeId !in old(savedRecipes)
      ensures changed ==> Value() == old(Value()).(savedRecipes := WithSaved(old(savedRecipes), recipeId),
                                                   updatedAt := now)
      ensures !changed ==> Value() == old(Value())
    {
      changed := recipeId !in savedRecipes;
      if changed {
        savedRecipes := savedRecipes + [recipeId];
        updatedAt := now;
      }
    }

    /** `append(ingredient)` to the disliked list, with a fresh `updated_at`, unless present in any casing. */
    method Dislike(ingredient: string, now: string) returns (changed: bool)
      modifies this
      ensures changed <==> Lower(ingredient) !in LowerAll(old(dislikedIngredients))
      ensures changed ==> Value() == old(Value()).(dislikedIngredients := WithDisliked(old(dislikedIngredients), ingredient),
                                                   updatedAt := now)
      ensures !changed ==> Value() == old(Value())
    {
      var lowered := LowerAll(dislikedIngredients);
      changed := Lower(ingredient) !in lowered;
      if changed {
        dislikedIngredients := dislikedIngredients + [ingredient];
        updatedAt := now;
      }
    }

    /** `update(newData)`, then a fresh `updated_at`. */
    method Update(newData: ProfileUpdate, now: string)
      modifies this
      ensures Value() == Merged(old(Value()), newData, now)
    {
      if newData.userId.Some? { userId := newData.userId.value; }
      if newData.preferences.Some? { preferences := newData.preferences.value; }
      if newData.savedRecipes.Some? { savedRecipes := newData.savedRecipes.value; }
      if newData.dislikedIngredients.Some? { dislikedIngredients := newData.dislikedIngredients.value; }
      if newData.cookingHistory.Some? { cookingHistory := newData.cookingHistory.value; }
      if newData.createdAt.Some? { createdAt := newData.createdAt.value; }
      updatedAt := now;
    }
  }

  // ---------------------------------------------------------------------------
  // The service calls

  /** `update_user_profile`: merge into the stored profile, or create one. */
  method UpdateUserProfile(stored: Option<UserProfile>, userId: string, newData: ProfileUpdate, now: string)
    returns (written: UserProfile)
    ensures written == Updated(stored, userId, newData, now)
  {
    if stored.Some? {
      var doc := new ProfileDoc(stored.value);
      doc.Update(newData, now);
      written := doc.Value();
    } else {
      written := Created(userId, newData, now);
    }
  }

  /**
   * The profile a list edit writes: the edit is applied to the stored
   * profile (or a fresh one), and the edited profile is passed whole to
   * `update_user_profile`, which reads the stored profile again.
   */
  function EditWrite(stored: Option<UserProfile>, userId: string, edited: UserProfile, now: string): UserProfile {
    Updated(stored, userId, AllKeys(edited), now)
  }

  /** `add_recipe_to_history`'s write, `None` when the id is already in the history. */
  function HistoryWrite(stored: Option<UserProfile>, userId: string, recipeId: string, now: string): Option<UserProfile> {
    var p := stored.GetOr(Fresh(userId, now));
    if recipeId in p.cookingHistory then None
    else Some(EditWrite(stored, userId, p.(cookingHistory := WithHistory(p.cookingHistory, recipeId), updatedAt := now), now))
  }

  /** `save_recipe`'s write, `None` when the id is already saved. */
  function SaveWrite(stored: Option<UserProfile>, userId: string, recipeId: string, now: string): Option<UserProfile> {
    var p := stored.GetOr(Fresh(userId, now));
    if recipeId in p.savedRecipes then None
    else Some(EditWrite(stored, userId, p.(savedRecipes := WithSaved(p.savedRecipes, recipeId), updatedAt := now), now))
  }

  /** `add_disliked_ingredient`'s write, `None` when the ingredient is already disliked in any casing. */
  function DislikeWrite(stored: Option<UserProfile>, userId: string, ingredient: string, now: string): Option<UserProfile> {
    var p := stored.GetOr(Fresh(userId, now));
    if Lower(ingredient) in LowerAll(p.dislikedIngredients) then None
    else Some(EditWrite(stored, userId,
                        p.(dislikedIngredients := WithDisliked(p.dislikedIngredients, ingredient), updatedAt := now), now))
  }

  /** `add_recipe_to_history`: the profile written, or `None` when nothing is written. */
  method AddRecipeToHistory(stored: Option<UserProfile>, userId: string, recipeId: string, now: string)
    returns (written: Option<UserProfile>)
    ensures written == HistoryWrite(stored, userId, recipeId, now)
  {
    var doc := new ProfileDoc(stored.GetOr(Fresh(userId, now)));
    var changed := doc.AddToHistory(recipeId, now);
    written := None;
    if changed {
      var p := UpdateUserProfile(stored, userId, AllKeys(doc.Value()), now);
      written := Some(p);
    }
  }

  /** `save_recipe`: the profile written, or `None` when nothing is written. */
  method SaveRecipe(stored: Option<UserProfile>, userId: string, recipeId: string, now: string)
    returns (written: Option<UserProfile>)
    ensures written == SaveWrite(stored, userId, recipeId, now)
  {
    var doc := new ProfileDoc(stored.GetOr(Fresh(userId, now)));
    var changed := doc.Save(recipeId, now);
    written := None;
    if changed {
      var p := UpdateUserProfile(stored, userId, AllKeys(doc.Value()), now);
      written := Some(p);
    }
  }

  /** `add_disliked_ingredient`: the profile written, or `None` when nothing is written. */
  method AddDislikedIngredient(stored: Option<UserProfile>, userId: string, ingredient: string, now: string)
    returns (written: Option<UserProfile>)
    ensures written == DislikeWrite(stored, userId, ingredient, now)
  {
    var doc := new ProfileDoc(stored.GetOr(Fresh(userId, now)));
    var changed := doc.Dislike(ingredient, now);
    written := None;
    if changed {
      var p := UpdateUserProfile(stored, userId, AllKeys(doc.Value()), now);
      written := Some(p);
    }
  }

  /**
   * What `add_recipe_to_history` stores: nothing when the id is present;
   * otherwise the stored profile with only the history and `updated_at`
   * changed, or, for a new user, a fresh profile whose history is that id.
   */
  lemma HistoryWriteEffect(stored: Option<UserProfile>, userId: string, recipeId: string, now: string)
    ensures stored.Some? && recipeId in stored.value.cookingHistory ==> HistoryWrite(stored, userId, recipeId, now).None?
    ensures stored.Some? && recipeId !in stored.value.cookingHistory ==>
              HistoryWrite(stored, userId, recipeId, now) ==
              Some(stored.value.(cookingHistory := WithHistory(stored.value.cookingHistory, recipeId), updatedAt := now))
    ensures stored.None? ==> HistoryWrite(stored, userId, recipeId, now) == Some(Fresh(userId, now).(cookingHistory := [recipeId]))
  {
    if stored.None? {
      assert WithHistory([], recipeId) == [recipeId];
    }
  }

  /** Saving the same recipe twice writes once: after the first write, the second finds it saved. */
  lemma SaveTwiceIsSaveOnce(stored: Option<UserProfile>, userId: string, recipeId: string, now: string, later: string)
    ensures var first := SaveWrite(stored, userId, recipeId, now);
            first.Some? ==> SaveWrite(first, userId, recipeId, later).None?
  {
    var first := SaveWrite(stored, userId, recipeId, now);
    if first.Some? {
      var p := stored.GetOr(Fresh(userId, now));
      SavedProperties(p.savedRecipes, recipeId);
    }
  }
}
