/**
 * The food-photos section (components/FoodPhotosSection.tsx): a local copy
 * of the photo list, seeded from the parent once, whose `selected` flags
 * toggle per photo; uploads are prepended; re-enhancing uses one shared
 * `enhancingId` slot and a deferred completion per tap.
 */
module FoodPhotosSection {
  import opened Types

  /** Flips one photo's `selected` flag. */
  function Flip(p: FoodPhoto): FoodPhoto {
    p.(selected := !p.selected)
  }

  /** `handleToggleSelect`'s map: flips `selected` on every photo with `id`, nothing else changes. */
  function ToggleSelect(photos: seq<FoodPhoto>, id: string): (r: seq<FoodPhoto>)
    ensures |r| == |photos|
    ensures forall i :: 0 <= i < |r| && photos[i].id != id ==> r[i] == photos[i]
    ensures forall i :: 0 <= i < |r| && photos[i].id == id ==>
      r[i].selected == !photos[i].selected && r[i] == photos[i].(selected := r[i].selected)
  {
    if photos == [] then []
    else [if photos[0].id == id then Flip(photos[0]) else photos[0]] + ToggleSelect(photos[1..], id)
  }

  /** Toggling the same id twice gives the list back. */
  lemma ToggleSelectTwice(photos: seq<FoodPhoto>, id: string)
    ensures ToggleSelect(ToggleSelect(photos, id), id) == photos
  {
    var twice := ToggleSelect(ToggleSelect(photos, id), id);
    assert forall i :: 0 <= i < |photos| ==> twice[i] == photos[i];
  }

  /** `localPhotos.filter(p => p.selected).length`. */
  function SelectedCount(photos: seq<FoodPhoto>): (n: nat)
    ensures n <= |photos|
    ensures n == 0 <==> forall i :: 0 <= i < |photos| ==> !photos[i].selected
    ensures n == |photos| <==> forall i :: 0 <= i < |photos| ==> photos[i].selected
  {
    if photos == [] then 0
    else
      var rest := SelectedCount(photos[1..]);
      assert forall i :: 1 <= i < |photos| ==> photos[i] == photos[1..][i - 1];
      (if photos[0].selected then 1 else 0) + rest
  }

  /** Counting distributes over concatenation. */
  lemma {:induction false} SelectedCountConcat(a: seq<FoodPhoto>, b: seq<FoodPhoto>)
    ensures SelectedCount(a + b) == SelectedCount(a) + SelectedCount(b)
    decreases |a|
  {
    if a == [] {
      assert a + b == b;
    } else {
      assert (a + b)[1..] == a[1..] + b;
      SelectedCountConcat(a[1..], b);
    }
  }

  /**
   * Toggling a photo whose id is unique moves the count by one: down when
   * it was selected, up when it was not.
   */
  lemma {:induction false} ToggleSelectCount(photos: seq<FoodPhoto>, k: nat)
    requires k < |photos|
    requires forall i :: 0 <= i < |photos| && i != k ==> photos[i].id != photos[k].id
    ensures SelectedCount(ToggleSelect(photos, photos[k].id))
            == if photos[k].selected then SelectedCount(photos) - 1 else SelectedCount(photos) + 1
  {
    var id := photos[k].id;
    var r := ToggleSelect(photos, id);
    assert r == r[..k] + [r[k]] + r[k + 1..];
    assert photos == photos[..k] + [photos[k]] + photos[k + 1..];
    assert r[..k] == photos[..k];
    assert r[k + 1..] == photos[k + 1..];
    SelectedCountConcat(r[..k] + [r[k]], r[k + 1..]);
    SelectedCountConcat(r[..k], [r[k]]);
    SelectedCountConcat(photos[..k] + [photos[k]], photos[k + 1..]);
    SelectedCountConcat(photos[..k], [photos[k]]);
  }

  /** The photo `handleFileChange` builds for an upload. */
  function UploadedPhoto(id: string, url: string): FoodPhoto {
    FoodPhoto(id, url, true, "New upload")
  }

  /** `[newPhoto, ...localPhotos]`: one more photo, first, selected. */
  function PrependUpload(photos: seq<FoodPhoto>, id: string, url: string): (r: seq<FoodPhoto>)
    ensures |r| == |photos| + 1 && r[1..] == photos
    ensures r[0] == UploadedPhoto(id, url) && r[0].selected
    ensures SelectedCount(r) == SelectedCount(photos) + 1
  {
    var r := [UploadedPhoto(id, url)] + photos;
    assert r[1..] == photos;
    r
  }

  class FoodPhotos {
    var localPhotos: seq<FoodPhoto>
    var enhancingId: Option<string>
    /** The re-enhance completions scheduled and not yet run. */
    var pendingEnhancements: nat
    /** How many times `onEnhanceComplete` has been called. */
    var completionsSignalled: nat

    /**
     * Mount: the local list is the `photos` prop at that moment. No method
     * takes the prop again, so later changes to it are never seen.
     */
    constructor (photos: seq<FoodPhoto>)
      ensures localPhotos == photos && enhancingId == None
      ensures pendingEnhancements == 0 && completionsSignalled == 0
    {
      localPhotos := photos;
      enhancingId := None;
      pendingEnhancements, completionsSignalled := 0, 0;
    }

    /** The header's "N Selected". */
    function Selected(): (n: nat)
      reads this
      ensures n <= |localPhotos|
    {
      SelectedCount(localPhotos)
    }

    method HandleToggleSelect(id: string)
      modifies this`localPhotos
      ensures localPhotos == ToggleSelect(old(localPhotos), id)
    {
      localPhotos := ToggleSelect(localPhotos, id);
    }

    /**
     * `handleFileChange`: `file` is the picked file's object URL, or None
     * when the picker returned no file (then nothing happens).
     */
    method HandleFileChange(file: Option<string>, id: string)
      modifies this`localPhotos
      ensures file.None? ==> localPhotos == old(localPhotos)
      ensures file.Some? ==> localPhotos == PrependUpload(old(localPhotos), id, file.value)
      ensures file.Some? ==> Selected() == old(Selected()) + 1
    {
      if file.Some? {
        localPhotos := PrependUpload(localPhotos, id, file.value);
      }
    }

    /** `handleReEnhance`: takes the single slot and schedules a completion. */
    method HandleReEnhance(id: string)
      modifies this`enhancingId, this`pendingEnhancements
      ensures enhancingId == Some(id) && pendingEnhancements == old(pendingEnhancements) + 1
    {
      enhancingId := Some(id);
      pendingEnhancements := pendingEnhancements + 1;
    }

    /** The 2000 ms completion: clears the slot, whoever holds it, and signals once. */
    method EnhanceCompleted()
      requires pendingEnhancements > 0
      modifies this`enhancingId, this`pendingEnhancements, this`completionsSignalled
      ensures enhancingId == None && pendingEnhancements == old(pendingEnhancements) - 1
      ensures completionsSignalled == old(completionsSignalled) + 1
    {
      enhancingId := None;
      pendingEnhancements := pendingEnhancements - 1;
      completionsSignalled := completionsSignalled + 1;
    }
  }

  /**
   * The slot is shared: re-enhancing a second photo while the first is
   * in flight moves the shimmer to the second, and the first completion
   * then clears it although the second is still pending.
   */
  method SharedSlot(f: FoodPhotos, a: string, b: string)
    requires f.pendingEnhancements == 0
    modifies f
    ensures f.enhancingId == None && f.pendingEnhancements == 1
  {
    f.HandleReEnhance(a);
    f.HandleReEnhance(b);
    assert f.enhancingId == Some(b);
    f.EnhanceCompleted();
  }
}
