/**
 * The supplements list (components/SupplementsSection.tsx): add, remove and
 * update build a new list that the section hands to its parent's setter,
 * and a few rendering rules decide which controls are offered.
 */
module SupplementsSection {
  import opened Types
  import ToggleStateHook

  const DefaultQty: string := "1 serving"

  /** `addSupplement`: appends one entry with the given fresh id and the default quantity. */
  function AddSupplement(supplements: seq<Supplement>, id: string, name: string): (r: seq<Supplement>)
    ensures |r| == |supplements| + 1 && r[..|supplements|] == supplements
    ensures r[|supplements|] == Supplement(id, name, DefaultQty)
  {
    supplements + [Supplement(id, name, DefaultQty)]
  }

  /** `removeSupplement`: `supplements.filter(s => s.id !== id)`. */
  function RemoveSupplement(supplements: seq<Supplement>, id: string): (r: seq<Supplement>)
    // exactly the entries with another id survive, in their original order
    ensures forall s :: s in r <==> s in supplements && s.id != id
    ensures IsSubsequence(r, supplements)
    ensures |r| == |supplements| - Occurrences(SupplementIds(supplements), id)
  {
    if supplements == [] then []
    else
      var rest := RemoveSupplement(supplements[1..], id);
      assert supplements == [supplements[0]] + supplements[1..];
      OccurrencesCons(supplements[0].id, SupplementIds(supplements[1..]), id);
      if supplements[0].id == id then
        SubsequenceDrop(supplements[0], rest, supplements[1..]);
        rest
      else
        SubsequenceKeep(supplements[0], rest, supplements[1..]);
        [supplements[0]] + rest
  }

  /** Removing distributes over concatenation: no entry changes its place relative to another. */
  lemma {:induction false} RemoveSupplementConcat(a: seq<Supplement>, b: seq<Supplement>, id: string)
    ensures RemoveSupplement(a + b, id) == RemoveSupplement(a, id) + RemoveSupplement(b, id)
    decreases |a|
  {
    if a != [] {
      assert (a + b)[0] == a[0] && (a + b)[1..] == a[1..] + b;
      RemoveSupplementConcat(a[1..], b, id);
      if a[0].id == id {
        assert RemoveSupplement(a + b, id) == RemoveSupplement(a[1..] + b, id);
        assert RemoveSupplement(a, id) == RemoveSupplement(a[1..], id);
      } else {
        assert RemoveSupplement(a + b, id) == [a[0]] + RemoveSupplement(a[1..] + b, id);
        assert RemoveSupplement(a, id) == [a[0]] + RemoveSupplement(a[1..], id);
      }
    } else {
      assert a + b == b;
    }
  }

  /** The two editable fields, as the `field` argument of `updateSupplement`. */
  datatype Field = Name | Qty

  /** `{ ...s, [field]: value }`. */
  function SetField(s: Supplement, field: Field, value: string): Supplement {
    match field
    case Name => s.(name := value)
    case Qty => s.(qty := value)
  }

  /** `updateSupplement`: sets `field` on every entry with `id`, leaving everything else as it was. */
  function UpdateSupplement(supplements: seq<Supplement>, id: string, field: Field, value: string): (r: seq<Supplement>)
    ensures |r| == |supplements|
    ensures forall i :: 0 <= i < |r| ==> r[i].id == supplements[i].id
    ensures forall i :: 0 <= i < |r| && supplements[i].id != id ==> r[i] == supplements[i]
    ensures forall i :: 0 <= i < |r| && supplements[i].id == id ==>
      match field
      case Name => r[i].name == value && r[i].qty == supplements[i].qty
      case Qty => r[i].qty == value && r[i].name == supplements[i].name
  {
    if supplements == [] then []
    else [if supplements[0].id == id then SetField(supplements[0], field, value) else supplements[0]]
         + UpdateSupplement(supplements[1..], id, field, value)
  }

  /** Writing the same value twice is the same as writing it once. */
  lemma UpdateSupplementIdempotent(supplements: seq<Supplement>, id: string, field: Field, value: string)
    ensures UpdateSupplement(UpdateSupplement(supplements, id, field, value), id, field, value)
            == UpdateSupplement(supplements, id, field, value)
  {
    var once := UpdateSupplement(supplements, id, field, value);
    var twice := UpdateSupplement(once, id, field, value);
    assert forall i :: 0 <= i < |twice| ==> twice[i] == once[i];
  }

  /**
   * The `disabled` test of a row's name input. The section's `editId`
   * starts null and its setter is never called.
   */
  function NameInputDisabled(editId: Option<string>, supplementId: string): (disabled: bool)
    ensures editId == None ==> disabled
    ensures !disabled <==> editId == Some(supplementId) || editId == Some("ALL")
  {
    editId != Some(supplementId) && editId != Some("ALL")
  }

  /** With the section's only reachable `editId` (null), every name input is disabled. */
  lemma EveryNameInputDisabled(supplements: seq<Supplement>)
    ensures forall s :: s in supplements ==> NameInputDisabled(None, s.id)
  {
  }

  /** The "No supplements added." message. */
  function EmptyStateShown(supplements: seq<Supplement>): (shown: bool)
    ensures shown <==> forall s :: s !in supplements
  {
    assert supplements != [] ==> supplements[0] in supplements;
    |supplements| == 0
  }

  /** The add button in the header exists only while the section is expanded. */
  predicate AddButtonShown(isExpanded: bool) {
    isExpanded
  }

  /**
   * The section's flag is `useToggleState("supplements")`. On first use
   * (no stored entry) it starts expanded, so the add button is offered;
   * collapsing the section takes it away and persists the collapse so
   * that the next mount starts without it.
   */
  method CollapsingHidesAddButton(store: ToggleStateHook.LocalStore, healWriteFails: bool)
    returns (shownAtMount: bool, shownAfterCollapse: bool, shownAfterRemount: bool)
    requires ToggleStateHook.StorageKey("supplements") !in store.entries
    modifies store
    ensures shownAtMount && !shownAfterCollapse && !shownAfterRemount
  {
    var t := new ToggleStateHook.ToggleState(store, "supplements", true, false, healWriteFails);
    shownAtMount := AddButtonShown(t.isExpanded);
    t.Toggle();
    t.Persist(false);
    shownAfterCollapse := AddButtonShown(t.isExpanded);
    var u := ToggleStateHook.Remount(t, "supplements", healWriteFails);
    shownAfterRemount := AddButtonShown(u.isExpanded);
  }

  /** Adding to an empty list hides the empty-state message; removing its only entry shows it again. */
  lemma AddThenRemoveRestoresEmptyState(id: string, name: string)
    ensures !EmptyStateShown(AddSupplement([], id, name))
    ensures EmptyStateShown(RemoveSupplement(AddSupplement([], id, name), id))
  {
  }
}
