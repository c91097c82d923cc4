/**
 * The food-details section (components/FoodDetailsSection.tsx): an inline
 * rename session (`editId`/`editValue`), deletion that cleans the session
 * up, and AI-suggestion chips that are consumed by a deferred completion.
 * The list itself belongs to the form; the section changes it only through
 * the form's `AddItem`, `UpdateItem` and `DeleteItem` callbacks.
 */
module FoodDetailsSection {
  import opened Types
  import opened Text
  import App

  /** The suggestion pool the section starts with. */
  const InitialSuggestions: seq<string> := ["Lemon Dressing", "Feta Cheese", "Avocado"]

  /** `suggestions.filter(s => s !== suggestion)`. */
  function RemoveSuggestion(suggestions: seq<string>, suggestion: string): (r: seq<string>)
    ensures forall s :: s in r <==> s in suggestions && s != suggestion
    ensures IsSubsequence(r, suggestions)
    ensures |r| == |suggestions| - Occurrences(suggestions, suggestion)
  {
    if suggestions == [] then []
    else
      var rest := RemoveSuggestion(suggestions[1..], suggestion);
      assert suggestions == [suggestions[0]] + suggestions[1..];
      if suggestions[0] == suggestion then
        SubsequenceDrop(suggestions[0], rest, suggestions[1..]);
        rest
      else
        SubsequenceKeep(suggestions[0], rest, suggestions[1..]);
        [suggestions[0]] + rest
  }

  /** A commit is accepted when the edited text is not blank after `trim`. */
  predicate AcceptsEdit(editValue: string) {
    !IsBlank(editValue)
  }

  lemma AcceptsEditIffNotBlank(editValue: string)
    ensures AcceptsEdit(editValue) <==> exists i :: 0 <= i < |editValue| && !IsWhiteSpace(editValue[i])
  {
  }

  /** The pool holds only initial suggestions, never more of them than at the start. */
  predicate PoolValid(pool: seq<string>) {
    && (forall s :: s in pool ==> s in InitialSuggestions)
    && |pool| <= |InitialSuggestions|
  }

  /**
   * A scheduled chip completion. Its closure was created at the tap and
   * holds the suggestion, the item list `addItem` appends to and the pool
   * it filters, as they were at that moment.
   */
  datatype PendingChip = PendingChip(suggestion: string, items: seq<FoodItem>, pool: seq<string>)

  class FoodDetails {
    const form: App.CheckInForm
    var suggestions: seq<string>
    var editId: Option<string>
    var editValue: string
    var removedChip: Option<string>
    /** The chip completions scheduled and not yet run, in firing order (all use the same delay). */
    var pendingChips: seq<PendingChip>

    /** The pool, and every pool a pending completion captured, is valid. */
    predicate Valid()
      reads this
    {
      && PoolValid(suggestions)
      && forall k :: 0 <= k < |pendingChips| ==> PoolValid(pendingChips[k].pool)
    }

    constructor (form: App.CheckInForm)
      ensures this.form == form && Valid()
      ensures suggestions == InitialSuggestions && editId == None && editValue == ""
      ensures removedChip == None && pendingChips == []
    {
      this.form := form;
      suggestions := InitialSuggestions;
      editId, editValue, removedChip := None, "", None;
      pendingChips := [];
    }

    /** `handleStartEdit`: opens the session on this item with its current name. */
    method StartEdit(item: FoodItem)
      modifies this`editId, this`editValue
      ensures editId == Some(item.id) && editValue == item.name
    {
      editId := Some(item.id);
      editValue := item.name;
    }

    /** The input's `onChange`. */
    method SetEditValue(v: string)
      modifies this`editValue
      ensures editValue == v
    {
      editValue := v;
    }

    /**
     * `handleSaveEdit(id)`: renames the item `id` to the untrimmed edit
     * value unless it is blank, and always ends the session.
     */
    method SaveEdit(id: string)
      modifies this`editId, form`foodItems
      ensures editId == None
      ensures form.foodItems == if AcceptsEdit(editValue) then App.UpdateFoodItem(old(form.foodItems), id, editValue)
                                else old(form.foodItems)
    {
      if AcceptsEdit(editValue) {
        form.UpdateItem(id, editValue);
      }
      editId := None;
    }

    /**
     * `handleDeleteItem`: deletes through the form; ends the session only
     * when it was on the deleted item.
     */
    method DeleteItem(id: string)
      modifies this`editId, this`editValue, form`foodItems
      ensures form.foodItems == App.DeleteFoodItem(old(form.foodItems), id)
      ensures old(editId) == Some(id) ==> editId == None && editValue == ""
      ensures old(editId) != Some(id) ==> editId == old(editId) && editValue == old(editValue)
    {
      form.DeleteItem(id);
      if editId == Some(id) {
        editId := None;
        editValue := "";
      }
    }

    /** The row's action button: saves the row being edited, otherwise starts editing it. */
    method PressAction(item: FoodItem)
      modifies this`editId, this`editValue, form`foodItems
      ensures old(editId) == Some(item.id) ==>
        && editId == None && editValue == old(editValue)
        && form.foodItems == if AcceptsEdit(old(editValue)) then App.UpdateFoodItem(old(form.foodItems), item.id, old(editValue))
                             else old(form.foodItems)
      ensures old(editId) != Some(item.id) ==>
        editId == Some(item.id) && editValue == item.name && form.foodItems == old(form.foodItems)
    {
      if editId == Some(item.id) {
        SaveEdit(item.id);
      } else {
        StartEdit(item);
      }
    }

    /**
     * `handleAddSuggestion`, first half: marks the chip and schedules the
     * completion with what its closure captures. A chip that is already
     * fading out can be tapped again, which schedules a second completion.
     */
    method TapSuggestion(s: string)
      requires Valid() && s in suggestions
      modifies this`removedChip, this`pendingChips
      ensures Valid()
      ensures removedChip == Some(s)
      ensures pendingChips == old(pendingChips) + [PendingChip(s, form.foodItems, suggestions)]
    {
      removedChip := Some(s);
      pendingChips := pendingChips + [PendingChip(s, form.foodItems, suggestions)];
    }

    /**
     * The 400 ms completion of the oldest scheduled tap. The captured
     * `addItem` sets the items to the list it captured plus the suggestion
     * (with the fresh id and time it generates); the pool becomes the
     * captured pool without the suggestion; the mark is cleared. Whatever
     * happened to either list since the tap is overwritten.
     */
    method CompleteSuggestion(id: string, time: string)
      requires Valid() && pendingChips != []
      modifies this`suggestions, this`removedChip, this`pendingChips, form`foodItems
      ensures Valid()
      ensures var c := old(pendingChips)[0];
        && form.foodItems == App.AddFoodItem(c.items, id, c.suggestion, time)
        && suggestions == RemoveSuggestion(c.pool, c.suggestion)
        && c.suggestion !in suggestions
      ensures removedChip == None && pendingChips == old(pendingChips)[1..]
    {
      var c := pendingChips[0];
      form.SetFoodItems(App.AddFoodItem(c.items, id, c.suggestion, time));
      suggestions := RemoveSuggestion(c.pool, c.suggestion);
      removedChip := None;
      pendingChips := pendingChips[1..];
    }
  }

  /**
   * A single tap with nothing else happening before its completion adds
   * the suggestion once and takes it out of the pool.
   */
  method TapAddsSuggestion(d: FoodDetails, s: string, id: string, time: string)
    requires d.Valid() && s in d.suggestions && d.pendingChips == []
    modifies d, d.form`foodItems
    ensures d.form.foodItems == App.AddFoodItem(old(d.form.foodItems), id, s, time)
    ensures d.suggestions == RemoveSuggestion(old(d.suggestions), s) && s !in d.suggestions
    ensures d.removedChip == None && d.pendingChips == []
  {
    d.TapSuggestion(s);
    d.CompleteSuggestion(id, time);
  }

  /**
   * Two taps on the same chip before its completion runs schedule two
   * completions, but both append to the list captured before the first:
   * the second overwrites the first, and one item, with the second id, is
   * added.
   */
  method DoubleTapAddsOnce(d: FoodDetails, s: string, id1: string, id2: string, time: string)
    requires d.Valid() && s in d.suggestions && d.pendingChips == []
    modifies d, d.form`foodItems
    ensures d.form.foodItems == App.AddFoodItem(old(d.form.foodItems), id2, s, time)
    ensures |d.form.foodItems| == |old(d.form.foodItems)| + 1
    ensures s !in d.suggestions && d.removedChip == None
  {
    d.TapSuggestion(s);
    d.TapSuggestion(s);
    d.CompleteSuggestion(id1, time);
    d.CompleteSuggestion(id2, time);
  }

  /**
   * Tapping chip `a` and then chip `b` before either completes: `b`'s
   * completion writes back the pool captured at its tap, which still holds
   * `a`, so `a` is offered again; and it appends to the list captured at
   * its tap, so only `b` is added.
   */
  method TwoChipsRestoreFirst(d: FoodDetails, a: string, b: string, id1: string, id2: string, time: string)
    requires d.Valid() && a in d.suggestions && b in d.suggestions && a != b && d.pendingChips == []
    modifies d, d.form`foodItems
    ensures a in d.suggestions && b !in d.suggestions
    ensures d.form.foodItems == App.AddFoodItem(old(d.form.foodItems), id2, b, time)
  {
    d.TapSuggestion(a);
    d.TapSuggestion(b);
    d.CompleteSuggestion(id1, time);
    d.CompleteSuggestion(id2, time);
  }

  /**
   * Deleting an item while a chip fades out does not last: the completion
   * writes back the list captured at the tap, deleted item included.
   */
  method DeleteDuringFadeIsUndone(d: FoodDetails, s: string, x: string, id: string, time: string)
    requires d.Valid() && s in d.suggestions && d.pendingChips == []
    modifies d, d.form`foodItems
    ensures d.form.foodItems == App.AddFoodItem(old(d.form.foodItems), id, s, time)
  {
    d.TapSuggestion(s);
    d.DeleteItem(x);
    d.CompleteSuggestion(id, time);
  }

  /** Committing a blank rename ends the session but keeps the item's name. */
  method BlankRenameIsRejected(d: FoodDetails, item: FoodItem)
    modifies d, d.form`foodItems
    ensures d.editId == None && d.form.foodItems == old(d.form.foodItems)
  {
    d.StartEdit(item);
    d.SetEditValue("   ");
    assert IsBlank("   ") by {
      assert AllWhite("   ");
    }
    d.SaveEdit(item.id);
  }
}
