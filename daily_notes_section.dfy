/**
 * The daily-notes section (components/DailyNotesSection.tsx): a simulated
 * voice recorder that is Idle or Recording. Stopping by hand and the
 * 3-second auto-stop both append the same placeholder transcript line.
 * The auto-stop timer is armed while recording and cleared whenever the
 * recording flag changes, so it is modelled as a `Tick` event that only
 * acts while that timer is armed.
 */
module DailyNotesSection {
  import opened Types
  import opened Text
  import ToggleStateHook
  import App

  /**
   * The placeholder transcript line. It is written in pieces only so that the
   * verifier can see, piece by piece, that it holds no line break.
   */
  const Transcript: string :=
    "Had a really" + " productive" + " day today." + " Felt energized" + " after the" + " workout."

  /** The notes split into lines; an empty note has no lines. */
  function Lines(notes: string): seq<string> {
    if notes == "" then [] else Split(notes, '\n')
  }

  /**
   * The functional setter `(prev ? prev + "\n" : "") + Transcript`: the old
   * notes stay a prefix and exactly one line, the transcript, is added.
   */
  function AppendTranscript(prev: string): (r: string)
    ensures |r| > |prev| && r[..|prev|] == prev
    ensures Lines(r) == Lines(prev) + [Transcript]
  {
    var r := (if prev != "" then prev + "\n" else "") + Transcript;
    assert '\n' !in Transcript;
    if prev == "" then
      SplitWord(Transcript, '\n');
      r
    else
      assert r == Join(Split(prev, '\n'), '\n') + ['\n'] + Transcript;
      JoinSnoc(Split(prev, '\n'), '\n', Transcript);
      SplitJoin(Split(prev, '\n') + [Transcript], '\n');
      r
  }

  /**
   * The section. The notes are the form's `dailyNotes`, read through
   * `notes` and written through `setNotes`; the collapse flag is the
   * section's own hook on the key of "daily-notes".
   */
  class DailyNotes {
    const form: App.CheckInForm
    /** `useToggleState("daily-notes")`. */
    const toggle: ToggleStateHook.ToggleState
    /** The optional `enabled` prop. */
    const enabled: Option<bool>
    /** Whether a `setEnabled` prop was passed. */
    const hasSetEnabled: bool
    /** The values handed to `setEnabled`, in order. */
    var setEnabledCalls: seq<bool>
    var isRecording: bool
    /** The auto-stop timeout is scheduled and not cleared. */
    var timerArmed: bool

    /** The effect keeps exactly one armed timer per recording session. */
    predicate Valid()
      reads this
    {
      timerArmed == isRecording
    }

    /** `enabled ?? isExpanded`. */
    function Expanded(): bool
      reads this, toggle
    {
      if enabled.Some? then enabled.value else toggle.isExpanded
    }

    /**
     * Mount: the hook is initialised from the store with the default
     * `true` (`readFails` and `healWriteFails` as in the hook), which
     * writes at most the heal value under its own key; recording is idle
     * and no timer is armed.
     */
    constructor (form: App.CheckInForm, store: ToggleStateHook.LocalStore, enabled: Option<bool>,
                 hasSetEnabled: bool, readFails: bool, healWriteFails: bool)
      modifies store
      ensures this.form == form && this.enabled == enabled && this.hasSetEnabled == hasSetEnabled
      ensures fresh(toggle) && toggle.store == store
      ensures toggle.storageKey == ToggleStateHook.StorageKey("daily-notes") && toggle.defaultExpanded
      ensures readFails ==> toggle.isExpanded && store.entries == old(store.entries)
      ensures !readFails ==>
        var dec := ToggleStateHook.DecodeStored(ToggleStateHook.Lookup(old(store.entries), toggle.storageKey), true);
        && toggle.isExpanded == dec.value
        && store.entries == if dec.heal.Some? && !healWriteFails
                            then old(store.entries)[toggle.storageKey := dec.heal.value]
                            else old(store.entries)
      ensures store.entries - {toggle.storageKey} == old(store.entries) - {toggle.storageKey}
      ensures !isRecording && Valid() && setEnabledCalls == []
    {
      this.form := form;
      this.enabled := enabled;
      this.hasSetEnabled := hasSetEnabled;
      toggle := new ToggleStateHook.ToggleState(store, "daily-notes", true, readFails, healWriteFails);
      setEnabledCalls := [];
      isRecording, timerArmed := false, false;
    }

    /**
     * `toggleRecording`: nothing while collapsed; otherwise Recording → Idle
     * with the transcript appended (and the timer cleared by the effect's
     * cleanup), or Idle → Recording with the timer armed.
     */
    method ToggleRecording()
      requires Valid()
      modifies this`isRecording, this`timerArmed, form`dailyNotes
      ensures Valid()
      ensures !Expanded() ==> isRecording == old(isRecording) && form.dailyNotes == old(form.dailyNotes)
      ensures Expanded() && old(isRecording) ==> !isRecording && form.dailyNotes == AppendTranscript(old(form.dailyNotes))
      ensures Expanded() && !old(isRecording) ==> isRecording && form.dailyNotes == old(form.dailyNotes)
    {
      if !Expanded() {
        return;
      }
      if isRecording {
        isRecording := false;
        form.dailyNotes := AppendTranscript(form.dailyNotes);
      } else {
        isRecording := true;
      }
      timerArmed := isRecording;
    }

    /**
     * The auto-stop timeout firing. It fires only when armed, and then does
     * what a manual stop does, whether or not the section is expanded.
     */
    method Tick()
      requires Valid()
      modifies this`isRecording, this`timerArmed, form`dailyNotes
      ensures Valid()
      ensures old(timerArmed) ==> !isRecording && form.dailyNotes == AppendTranscript(old(form.dailyNotes))
      ensures !old(timerArmed) ==> isRecording == old(isRecording) && form.dailyNotes == old(form.dailyNotes)
    {
      if timerArmed {
        isRecording := false;
        timerArmed := false;
        form.dailyNotes := AppendTranscript(form.dailyNotes);
      }
    }

    /** The textarea's `onChange`. */
    method SetNotes(v: string)
      modifies form`dailyNotes
      ensures form.dailyNotes == v
    {
      form.dailyNotes := v;
    }

    /**
     * `handleToggle`: `setEnabled(!expanded)` when the prop is given, else
     * the hook's `toggle`. The expanded value flips only when neither prop
     * is given; otherwise it is the parent's to change.
     */
    method HandleToggle()
      modifies this`setEnabledCalls, toggle`isExpanded
      ensures enabled.None? && !hasSetEnabled ==> Expanded() == !old(Expanded())
      ensures enabled.Some? || hasSetEnabled ==> Expanded() == old(Expanded())
      ensures hasSetEnabled ==> setEnabledCalls == old(setEnabledCalls) + [!old(Expanded())]
                                && toggle.isExpanded == old(toggle.isExpanded)
      ensures !hasSetEnabled ==> setEnabledCalls == old(setEnabledCalls)
                                 && toggle.isExpanded == !old(toggle.isExpanded)
    {
      if hasSetEnabled {
        setEnabledCalls := setEnabledCalls + [!Expanded()];
      } else {
        toggle.Toggle();
      }
    }
  }

  /**
   * Mounting the section on a store the sections share leaves every other
   * section's entry as it was.
   */
  method MountKeepsOtherSections(form: App.CheckInForm, store: ToggleStateHook.LocalStore, other: string,
                                 readFails: bool, healWriteFails: bool) returns (d: DailyNotes)
    requires other != "daily-notes"
    modifies store
    ensures ToggleStateHook.Lookup(store.entries, ToggleStateHook.StorageKey(other))
         == ToggleStateHook.Lookup(old(store.entries), ToggleStateHook.StorageKey(other))
  {
    d := new DailyNotes(form, store, None, false, readFails, healWriteFails);
    var k := ToggleStateHook.StorageKey(other);
    assert k[|ToggleStateHook.KeyPrefix|..] != d.toggle.storageKey[|ToggleStateHook.KeyPrefix|..];
    assert k in store.entries <==> k in old(store.entries);
    assert k in store.entries ==> store.entries[k] == old(store.entries)[k];
  }

  /**
   * A recording session appends exactly one line, however it ends: stopped
   * by hand (the later timeout finds no armed timer) or stopped by the
   * timeout.
   */
  method SessionAppendsOnce(d: DailyNotes, stopByHand: bool)
    requires d.Valid() && !d.isRecording && d.Expanded()
    modifies d, d.form`dailyNotes
    ensures d.Valid() && !d.isRecording && d.form.dailyNotes == AppendTranscript(old(d.form.dailyNotes))
    ensures Lines(d.form.dailyNotes) == Lines(old(d.form.dailyNotes)) + [Transcript]
  {
    d.ToggleRecording();
    if stopByHand {
      d.ToggleRecording();
    }
    d.Tick();
  }
}
