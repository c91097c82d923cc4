/**
 * The exercise section (components/ExerciseSection.tsx): three preset
 * chips, an inline entry for a custom activity, and a chip that shows a
 * custom activity once it is chosen. The exercise type is a plain string
 * (`ExerciseType | string`) owned by the parent and set through `setType`.
 */
module ExerciseSection {
  import opened Types
  import opened Text
  import App

  /** `[CARDIO, WORKOUT, YOGA]`; `Other` is not offered as a chip. */
  const Presets: seq<ExerciseType> := [Cardio, Workout, Yoga]

  /** `types.includes(type)`. */
  predicate IsPreset(exerciseType: string) {
    exists k :: 0 <= k < |Presets| && ExerciseLabel(Presets[k]) == exerciseType
  }

  lemma IsPresetExactly(exerciseType: string)
    ensures IsPreset(exerciseType) <==> exerciseType in ["Cardio", "Workout", "Yoga"]
  {
    if exerciseType == "Cardio" { assert ExerciseLabel(Presets[0]) == exerciseType; }
    if exerciseType == "Workout" { assert ExerciseLabel(Presets[1]) == exerciseType; }
    if exerciseType == "Yoga" { assert ExerciseLabel(Presets[2]) == exerciseType; }
  }

  /** The custom chip: a non-preset, non-empty type while no entry is open. */
  function CustomChipShown(exerciseType: string, isAddingCustom: bool): (shown: bool)
    ensures shown <==> exerciseType != "" && !isAddingCustom && exerciseType !in ["Cardio", "Workout", "Yoga"]
  {
    IsPresetExactly(exerciseType);
    !IsPreset(exerciseType) && exerciseType != "" && !isAddingCustom
  }

  /** "Other" is not among the chips, so it shows as a custom chip. */
  lemma OtherShowsAsCustom()
    ensures CustomChipShown(ExerciseLabel(Other), false)
  {
    IsPresetExactly(ExerciseLabel(Other));
  }

  /** A preset type never shows the custom chip. */
  lemma PresetHidesCustomChip(k: nat, isAddingCustom: bool)
    requires k < |Presets|
    ensures !CustomChipShown(ExerciseLabel(Presets[k]), isAddingCustom)
  {
  }

  /** The type, duration and start-time controls render only when `enabled` is true. */
  predicate DetailsShown(enabled: Option<bool>) {
    enabled.Some? && enabled.value
  }

  /**
   * The section as the form renders it. The type and duration are the
   * form's own fields, read through `type`/`duration` and written through
   * `setType`/`setDuration`. Every control sits inside the `enabled &&`
   * block, so each handler requires the details to be shown.
   */
  class Exercise {
    const form: App.CheckInForm
    /** The `enabled` prop; None when the parent leaves it out. */
    const enabled: Option<bool>
    var isAddingCustom: bool
    var customType: string

    constructor (form: App.CheckInForm, enabled: Option<bool>)
      ensures this.form == form && this.enabled == enabled
      ensures !isAddingCustom && customType == ""
    {
      this.form := form;
      this.enabled := enabled;
      isAddingCustom, customType := false, "";
    }

    predicate Details()
      reads this
    {
      DetailsShown(enabled)
    }

    predicate ChipShown()
      reads this, form
    {
      CustomChipShown(form.exerciseType, isAddingCustom)
    }

    /** A preset chip's `onClick`. */
    method SelectPreset(k: nat)
      requires Details() && k < |Presets|
      modifies form`exerciseType
      ensures form.exerciseType == ExerciseLabel(Presets[k]) && IsPreset(form.exerciseType)
    {
      form.exerciseType := ExerciseLabel(Presets[k]);
    }

    /** The add button or the custom chip: opens the entry, keeping the last text typed. */
    method OpenCustomEntry()
      requires Details()
      modifies this`isAddingCustom
      ensures isAddingCustom
    {
      isAddingCustom := true;
    }

    /** The entry's `onChange`. */
    method SetCustomType(v: string)
      requires Details()
      modifies this`customType
      ensures customType == v
    {
      customType := v;
    }

    /**
     * `handleCustomSubmit`: a non-blank entry becomes the type as typed
     * (untrimmed) and closes the entry; a blank one changes nothing.
     */
    method SubmitCustom()
      requires Details()
      modifies form`exerciseType, this`isAddingCustom
      ensures !IsBlank(customType) ==> form.exerciseType == customType && !isAddingCustom
      ensures IsBlank(customType) ==> form.exerciseType == old(form.exerciseType) && isAddingCustom == old(isAddingCustom)
    {
      if !IsBlank(customType) {
        form.exerciseType := customType;
        isAddingCustom := false;
      }
    }

    /** The entry's `onBlur`: closes it only when the text is exactly empty. */
    method BlurCustom()
      requires Details()
      modifies this`isAddingCustom
      ensures isAddingCustom == (old(isAddingCustom) && customType != "")
    {
      if customType == "" {
        isAddingCustom := false;
      }
    }

    /** The range input's `onChange` (0 to 120 minutes). */
    method SetDuration(v: int)
      requires Details() && 0 <= v <= 120
      modifies form`exerciseDuration
      ensures form.exerciseDuration == v
    {
      form.exerciseDuration := v;
    }
  }

  /**
   * The form renders the section without `enabled`, so none of its
   * controls is ever on screen: no handler can run, and the form's type
   * and duration stay as they are.
   */
  method MountInForm(form: App.CheckInForm) returns (e: Exercise)
    ensures e.form == form && e.enabled == None && !e.Details()
  {
    e := new Exercise(form, None);
  }

  /**
   * With the details shown, submitting a non-blank activity that is not a
   * preset makes it the form's type and leaves the custom chip on show.
   */
  method SubmittedCustomShowsChip(e: Exercise, v: string)
    requires e.Details() && !IsBlank(v) && !IsPreset(v)
    modifies e, e.form`exerciseType
    ensures e.form.exerciseType == v && e.ChipShown()
  {
    e.OpenCustomEntry();
    e.SetCustomType(v);
    e.SubmitCustom();
  }
}
