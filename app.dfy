/**
 * The root form controller (App.tsx): the food-item list operations it
 * passes down, the validity gate of the submit button and the submitting
 * flag around the deferred review transition.
 */
module App {
  import opened Types
  import SupplementsSection

  const NewItemAmount: string := "1 serving"
  const NewItemMeal: string := "Snack"

  /**
   * `addFoodItem`: appends one item built from the name, the fresh id and
   * the formatted clock time (both supplied by the caller here).
   */
  function AddFoodItem(items: seq<FoodItem>, id: string, name: string, time: string): (r: seq<FoodItem>)
    ensures |r| == |items| + 1 && r[..|items|] == items
    ensures r[|items|] == FoodItem(id, name, NewItemAmount, NewItemMeal, time)
  {
    items + [FoodItem(id, name, NewItemAmount, NewItemMeal, time)]
  }

  /** `updateFoodItem`: renames every item with `id`; nothing else changes. */
  function UpdateFoodItem(items: seq<FoodItem>, id: string, name: string): (r: seq<FoodItem>)
    ensures |r| == |items|
    ensures forall i :: 0 <= i < |r| && items[i].id != id ==> r[i] == items[i]
    ensures forall i :: 0 <= i < |r| && items[i].id == id ==> r[i] == items[i].(name := name)
  {
    if items == [] then []
    else [if items[0].id == id then items[0].(name := name) else items[0]]
         + UpdateFoodItem(items[1..], id, name)
  }

  /** Renaming never changes the ids, so the keyed rows stay in place. */
  lemma UpdateFoodItemKeepsIds(items: seq<FoodItem>, id: string, name: string)
    ensures forall i :: 0 <= i < |items| ==>
      UpdateFoodItem(items, id, name)[i].id == items[i].id
      && UpdateFoodItem(items, id, name)[i].amount == items[i].amount
      && UpdateFoodItem(items, id, name)[i].meal == items[i].meal
      && UpdateFoodItem(items, id, name)[i].time == items[i].time
  {
  }

  /** Renaming items to the name they already carry changes nothing. */
  lemma UpdateFoodItemToSameName(items: seq<FoodItem>, id: string, name: string)
    requires forall x :: x in items && x.id == id ==> x.name == name
    ensures UpdateFoodItem(items, id, name) == items
  {
    var r := UpdateFoodItem(items, id, name);
    forall j | 0 <= j < |items| ensures r[j] == items[j] {
      assert items[j] in items;
    }
  }

  /** `deleteFoodItem`: drops every item with `id`, keeping the others in order. */
  function DeleteFoodItem(items: seq<FoodItem>, id: string): (r: seq<FoodItem>)
    ensures forall x :: x in r <==> x in items && x.id != id
    ensures IsSubsequence(r, items)
    ensures |r| == |items| - Occurrences(FoodItemIds(items), id)
  {
    if items == [] then []
    else
      var rest := DeleteFoodItem(items[1..], id);
      assert items == [items[0]] + items[1..];
      OccurrencesCons(items[0].id, FoodItemIds(items[1..]), id);
      if items[0].id == id then
        SubsequenceDrop(items[0], rest, items[1..]);
        rest
      else
        SubsequenceKeep(items[0], rest, items[1..]);
        [items[0]] + rest
  }

  /** Deleting distributes over concatenation, so the survivors keep their relative order. */
  lemma {:induction false} DeleteFoodItemConcat(a: seq<FoodItem>, b: seq<FoodItem>, id: string)
    ensures DeleteFoodItem(a + b, id) == DeleteFoodItem(a, id) + DeleteFoodItem(b, id)
    decreases |a|
  {
    if a != [] {
      assert (a + b)[0] == a[0] && (a + b)[1..] == a[1..] + b;
      DeleteFoodItemConcat(a[1..], b, id);
      if a[0].id == id {
        assert DeleteFoodItem(a + b, id) == DeleteFoodItem(a[1..] + b, id);
        assert DeleteFoodItem(a, id) == DeleteFoodItem(a[1..], id);
      } else {
        assert DeleteFoodItem(a + b, id) == [a[0]] + DeleteFoodItem(a[1..] + b, id);
        assert DeleteFoodItem(a, id) == [a[0]] + DeleteFoodItem(a[1..], id);
      }
    } else {
      assert a + b == b;
    }
  }

  /** Deleting an item just added removes it again (when its id was fresh). */
  lemma DeleteUndoesAdd(items: seq<FoodItem>, id: string, name: string, time: string)
    requires forall x :: x in items ==> x.id != id
    ensures DeleteFoodItem(AddFoodItem(items, id, name, time), id) == items
  {
    var added := FoodItem(id, name, NewItemAmount, NewItemMeal, time);
    DeleteFoodItemConcat(items, [added], id);
    DeleteNothingMatches(items, id);
    assert [added][1..] == [];
  }

  /** Deleting an id no item carries changes nothing. */
  lemma {:induction false} DeleteNothingMatches(items: seq<FoodItem>, id: string)
    requires forall x :: x in items ==> x.id != id
    ensures DeleteFoodItem(items, id) == items
    decreases |items|
  {
    if items != [] {
      assert forall x :: x in items[1..] ==> x in items;
      DeleteNothingMatches(items[1..], id);
      assert [items[0]] + items[1..] == items;
    }
  }

  /** The submit gate: `sleepQuality > 0 && supplements.length > 0`. */
  function IsFormValid(sleepQuality: int, supplements: seq<Supplement>): (valid: bool)
    ensures valid <==> sleepQuality > 0 && exists s :: s in supplements
  {
    assert supplements != [] ==> supplements[0] in supplements;
    sleepQuality > 0 && |supplements| > 0
  }

  /**
   * Removing the last supplement closes the gate; adding one to an empty
   * list opens it whenever a quality is set.
   */
  lemma ValidityFollowsSupplements(sleepQuality: int, s: Supplement, id: string, name: string)
    ensures !IsFormValid(sleepQuality, SupplementsSection.RemoveSupplement([s], s.id))
    ensures IsFormValid(sleepQuality, SupplementsSection.AddSupplement([], id, name)) <==> sleepQuality > 0
  {
    var r := SupplementsSection.RemoveSupplement([s], s.id);
    assert |r| == 1 - Occurrences(SupplementIds([s]), s.id);
    assert [s][1..] == [];
  }

  /** The seeded supplements. */
  function SeedSupplements(): seq<Supplement> {
    [ Supplement("1", "Omega-3 Fish Oil", "2 caps"),
      Supplement("2", "Vitamin D3", "1000iu"),
      Supplement("3", "Multivitamin", "1 pill") ]
  }

  /** The seeded food photos; App never replaces this list. */
  function SeedPhotos(): seq<FoodPhoto> {
    [ FoodPhoto("1", "https://images.unsplash.com/photo-1512621776951-a57141f2eefd?q=80&w=300&auto=format&fit=crop", true, "Salad"),
      FoodPhoto("2", "https://images.unsplash.com/photo-1533089862017-ec32e3b32cfa?q=80&w=300&auto=format&fit=crop", true, "Breakfast"),
      FoodPhoto("3", "https://images.unsplash.com/photo-1546069901-ba9599a7e63c?q=80&w=300&auto=format&fit=crop", false, "Dinner") ]
  }

  /** The seeded food items. */
  function SeedFoodItems(): seq<FoodItem> {
    [ FoodItem("1", "Grilled Chicken Breast", "150g", "Lunch", "12:45 PM"),
      FoodItem("2", "Quinoa Salad", "1 cup", "Lunch", "12:45 PM") ]
  }

  /** The seeded form (quality 3, three supplements) can be submitted. */
  lemma SeededFormIsValid()
    ensures IsFormValid(3, SeedSupplements())
  {
  }

  /**
   * The form state App owns. The review transition is a deferred callback;
   * `pendingTransitions` counts the scheduled ones (submit has no
   * re-entrancy guard, so a second submit schedules a second one) and
   * `reviewsShown` counts the completion alerts.
   */
  class CheckInForm {
    var sleepQuality: int
    var bedTime: string
    var wakeTime: string
    var sleepNotes: string
    var exerciseType: string
    var exerciseDuration: int
    var exerciseStartTime: string
    var pressureLevel: PressureLevel
    var dailyNotes: string
    var supplements: seq<Supplement>
    const foodPhotos: seq<FoodPhoto>
    var foodItems: seq<FoodItem>
    var isSubmitting: bool
    var pendingTransitions: nat
    var reviewsShown: nat

    /** While the submitting flag is up, a completion is still scheduled. */
    predicate Valid()
      reads this
    {
      isSubmitting ==> pendingTransitions > 0
    }

    predicate FormValid()
      reads this
    {
      IsFormValid(sleepQuality, supplements)
    }

    /** The seeded initial state. */
    constructor ()
      ensures Valid() && FormValid()
      ensures sleepQuality == 3 && bedTime == "22:30" && wakeTime == "06:45" && sleepNotes == ""
      ensures exerciseType == ExerciseLabel(Cardio) && exerciseDuration == 45 && exerciseStartTime == "07:00"
      ensures pressureLevel == 1 && dailyNotes == ""
      ensures supplements == SeedSupplements() && foodPhotos == SeedPhotos() && foodItems == SeedFoodItems()
      ensures !isSubmitting && pendingTransitions == 0 && reviewsShown == 0
    {
      sleepQuality := 3;
      bedTime, wakeTime, sleepNotes := "22:30", "06:45", "";
      exerciseType, exerciseDuration, exerciseStartTime := ExerciseLabel(Cardio), 45, "07:00";
      pressureLevel := 1;
      dailyNotes := "";
      supplements := SeedSupplements();
      foodPhotos := SeedPhotos();
      foodItems := SeedFoodItems();
      isSubmitting, pendingTransitions, reviewsShown := false, 0, 0;
      SeededFormIsValid();
    }

    method SetSleepQuality(q: int)
      modifies this`sleepQuality
      ensures sleepQuality == q
    {
      sleepQuality := q;
    }

    method SetSupplements(s: seq<Supplement>)
      modifies this`supplements
      ensures supplements == s
    {
      supplements := s;
    }

    /** `setFoodItems` with a whole new list. */
    method SetFoodItems(v: seq<FoodItem>)
      modifies this`foodItems
      ensures foodItems == v
    {
      foodItems := v;
    }

    /** The `addItem` callback of the current render, called at once. */
    method AddItem(name: string, id: string, time: string)
      modifies this`foodItems
      ensures foodItems == AddFoodItem(old(foodItems), id, name, time)
    {
      foodItems := AddFoodItem(foodItems, id, name, time);
    }

    method UpdateItem(id: string, name: string)
      modifies this`foodItems
      ensures foodItems == UpdateFoodItem(old(foodItems), id, name)
    {
      foodItems := UpdateFoodItem(foodItems, id, name);
    }

    method DeleteItem(id: string)
      modifies this`foodItems
      ensures foodItems == DeleteFoodItem(old(foodItems), id)
    {
      foodItems := DeleteFoodItem(foodItems, id);
    }

    /**
     * `handleSubmit`: inert on an invalid form; otherwise raises the
     * submitting flag and schedules the transition, even when one is
     * already pending.
     */
    method HandleSubmit()
      requires Valid()
      modifies this`isSubmitting, this`pendingTransitions
      ensures Valid()
      ensures !old(FormValid()) ==> isSubmitting == old(isSubmitting) && pendingTransitions == old(pendingTransitions)
      ensures old(FormValid()) ==> isSubmitting && pendingTransitions == old(pendingTransitions) + 1
    {
      if !IsFormValid(sleepQuality, supplements) {
        return;
      }
      isSubmitting := true;
      pendingTransitions := pendingTransitions + 1;
    }

    /** The 500 ms callback: shows the review alert and lowers the flag. */
    method CompleteTransition()
      requires Valid() && pendingTransitions > 0
      modifies this`isSubmitting, this`pendingTransitions, this`reviewsShown
      ensures Valid()
      ensures !isSubmitting && pendingTransitions == old(pendingTransitions) - 1
      ensures reviewsShown == old(reviewsShown) + 1
    {
      isSubmitting := false;
      pendingTransitions := pendingTransitions - 1;
      reviewsShown := reviewsShown + 1;
    }
  }

  /**
   * Submitting twice before the transition completes schedules two
   * transitions, and both run: two review alerts.
   */
  method DoubleSubmitRunsTwice(f: CheckInForm)
    requires f.Valid() && f.FormValid() && !f.isSubmitting && f.pendingTransitions == 0
    modifies f
    ensures f.reviewsShown == old(f.reviewsShown) + 2 && !f.isSubmitting
  {
    f.HandleSubmit();
    f.HandleSubmit();
    assert f.pendingTransitions == 2;
    f.CompleteTransition();
    f.CompleteTransition();
  }
}
