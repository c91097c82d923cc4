# Diet-logger check-in form: a Dafny model

This project models the logic inside the diet-logger check-in form. The form is a React single-page app. Most of it is markup. The logic it does hold consists of:

- **The persisted collapse flag** (`useToggleState`). Each section's expanded/collapsed flag is stored in a string key-value store under `wellness-section-<name>`. Mounting decodes and self-heals the stored value, `toggle` flips it, and every change writes it back.
- **The list operations** on food items, supplements and food photos. Each one appends with a fresh id, deletes by id, renames by id, or flips the selection by id.
- **The form-validity gate** and the submitting flag around the deferred review transition.
- **The food-details section.** It covers the inline rename session and the AI-suggestion chips, which are consumed by a deferred completion.
- **The voice-note recorder.** Its states are Idle and Recording. A manual stop and the 3-second auto-stop both append the same line.
- **The custom exercise entry and the custom-chip rule.**
- **The supplement search sheet.** It filters a fixed list by case-insensitive substring and falls back to "Add <term>".
- **The time picker sheet.** It offers two-digit hour and minute wheels, splits `"HH:MM"` when it opens and joins the parts again on save.

## Structure

Files and modules:

- `types.dfy` (`Types`): the records and enumerations (`Supplement`, `FoodItem`, `FoodPhoto`, `ExerciseType`, `PressureLevel`), `Option`, and the order-preserving subsequence relation.
- `text.dfy` (`Text`): the JavaScript string operations the components use.
  - `trim`, over the ECMAScript white-space set.
  - ASCII `toLowerCase`.
  - `includes`.
  - `split` on one character, with `join` as its proved inverse.
  - `String(n)` and `padStart`.
- One module per component:
  - `ToggleStateHook`
  - `App`
  - `SupplementsSection`
  - `FoodDetailsSection`
  - `FoodPhotosSection`
  - `DailyNotesSection`
  - `ExerciseSection`
  - `SupplementModal`
  - `TimePickerModal`

The source mixes pure list transforms with handlers that update component state step by step. The model follows that split:

- **Pure list transforms.** `map`, `filter` and spread become recursive functions whose contracts say exactly which elements change.
- **Component state.** State that handlers update becomes a class with those fields. Its methods have `modifies` frames and postconditions that state the whole new state in terms of those functions.
- **Shared state.** The form's state that a section reads through props and writes through setters is reached through a reference to the form object, not copied. `FoodDetails` writes the form's `foodItems`, `Exercise` its `exerciseType` and `exerciseDuration`, and `DailyNotes` its `dailyNotes`. `DailyNotes` also owns its own `ToggleState`, the hook on the "daily-notes" key. `FoodPhotos` copies the `photos` prop once at mount, as the source does. The supplements functions take and return the form's list.
- **Timers.** Every timer is an explicit event method: chip completion, enhance completion, review transition, auto-stop `Tick` and sheet hide. The events are:
  - A completion that is scheduled and not cancelled is counted, or queued in `pendingChips`, so that it can fire later. This is how the model shows that the code does not de-duplicate.
  - A chip completion holds what its closure captured at the tap: the suggestion, the item list and the suggestion pool. When it runs it writes back the captured lists.
  - A timer that an effect cleanup cancels is a boolean "armed" field.
- **Environment as parameters.** `Date.now()` ids, `toLocaleTimeString` times, object URLs and storage failures are parameters.

## Model

| member | source | states |
|---|---|---|
| Types.ExerciseLabel | types.ts:22-27 | Every enumeration member's string value is one of "Cardio", "Workout", "Yoga", "Other" |
| Types.ExerciseLabelInjective | types.ts:22-27 | Distinct members carry distinct strings, so the stored string identifies the member |
| Text.Trim | components/FoodDetailsSection.tsx:44 | `trim()` is a slice of the input, and everything cut off on either side is white space. It is empty exactly when every character is white space; otherwise it starts and ends with a non-white character |
| Text.Split | components/TimePickerModal.tsx:19 | `split(c)` gives one more piece than there are occurrences of `c`; no piece contains `c`; joining the pieces with `c` gives the input back |
| Text.SplitJoin | components/TimePickerModal.tsx:19 | Splitting a join of separator-free pieces gives the pieces back |
| Text.PadStart | components/TimePickerModal.tsx:28 | `padStart(len, fill)` keeps the string as a suffix, fills only the front, and the result has length `max(len, |s|)` |
| ToggleStateHook.StorageKey | src/hooks/useToggleState.ts:14 | The key is exactly `"wellness-section-"` followed by the section name |
| ToggleStateHook.StorageKeyInjective | src/hooks/useToggleState.ts:14 | Distinct section names give distinct keys, so sections never share an entry |
| ToggleStateHook.DecodeStored | src/hooks/useToggleState.ts:17-34 | An absent value gives the default with no write. The stored value is rewritten exactly when it is present and is neither "true" nor "false"; the rewrite is `String(default)` and the flag is then the default. A recognised value decodes so that encoding the flag gives the stored string back |
| ToggleStateHook.DecodeEncodeRoundTrip | src/hooks/useToggleState.ts:26-29 | Decoding `String(b)` gives `b`, whatever the default, and writes nothing |
| ToggleStateHook.HealIsStable | src/hooks/useToggleState.ts:30-33 | After a heal write, decoding the healed entry needs no further heal and gives the same flag |
| ToggleStateHook.ToggleState.constructor | src/hooks/useToggleState.ts:17-40 | A failed read gives the default and writes nothing. Otherwise the flag is the decoded value, and the store changes only by the heal write, which is skipped when it fails. No other key is touched |
| ToggleStateHook.ToggleState.Toggle | src/hooks/useToggleState.ts:53-55 | Negates the in-memory flag and changes nothing else |
| ToggleStateHook.ToggleState.Persist | src/hooks/useToggleState.ts:43-50 | A successful write maps the key to `String(isExpanded)`, leaving the store in step with the flag. A failed write leaves the store as it was. The flag never changes and other keys are untouched |
| ToggleStateHook.Remount | src/hooks/useToggleState.ts:17-45 | After a successful persist, mounting the same section on the same store starts from the persisted flag and writes nothing |
| ToggleStateHook.FirstUseToggleTwice | src/hooks/useToggleState.ts:17-55 | First use with default true, then two toggles each followed by a persist: the entry ends as "true" and every other key is as it was |
| App.AddFoodItem | App.tsx:120-132 | Appends exactly one item, with the given id, name and time, amount "1 serving" and meal "Snack"; earlier items are unchanged and in order |
| App.UpdateFoodItem | App.tsx:134-138 | Same length; items with the id get the new name and keep every other field; all other items are unchanged |
| App.UpdateFoodItemKeepsIds | App.tsx:134-138 | A rename never changes an item's id, amount, meal or time |
| App.UpdateFoodItemToSameName | App.tsx:134-138 | Renaming to the name every matching item already has leaves the list unchanged |
| App.DeleteFoodItem | App.tsx:140-144 | Exactly the items with a different id survive, as an order-preserving subsequence; the length drops by the number of items with that id |
| App.DeleteFoodItemConcat | App.tsx:140-144 | Deleting distributes over concatenation, so survivors keep their relative order |
| App.DeleteNothingMatches | App.tsx:140-144 | Deleting an id no item carries changes nothing |
| App.DeleteUndoesAdd | App.tsx:120-144 | Deleting the item just added under a fresh id gives the list back |
| App.IsFormValid | App.tsx:158-159 | The form is valid iff the sleep quality is positive and there is at least one supplement |
| App.ValidityFollowsSupplements | App.tsx:159 | Removing the only supplement makes the form invalid; adding one to an empty list makes it valid iff the quality is positive |
| App.SeededFormIsValid | App.tsx:35-60 | The seeded state (quality 3, three supplements) is valid |
| App.CheckInForm.constructor | App.tsx:23-99 | The seeded initial state (times, exercise, pressure LOW, seeded lists), not submitting, and valid |
| App.CheckInForm.SetSleepQuality | App.tsx:35 | Sets the sleep quality |
| App.CheckInForm.SetSupplements | App.tsx:56-60 | Replaces the supplement list |
| App.CheckInForm.SetFoodItems | App.tsx:84-99 | `setFoodItems` replaces the item list with the given one |
| App.CheckInForm.AddItem | App.tsx:120-132 | The item list becomes `AddFoodItem` of the old list |
| App.CheckInForm.UpdateItem | App.tsx:134-138 | The item list becomes `UpdateFoodItem` of the old list |
| App.CheckInForm.DeleteItem | App.tsx:140-144 | The item list becomes `DeleteFoodItem` of the old list |
| App.CheckInForm.HandleSubmit | App.tsx:161-164 | On an invalid form nothing changes. On a valid one the submitting flag is raised and one more transition is scheduled, even when one is already pending. The flag is up only while a transition is pending |
| App.CheckInForm.CompleteTransition | App.tsx:165-168 | Shows the review once and lowers the submitting flag |
| App.DoubleSubmitRunsTwice | App.tsx:161-169 | Two submits before the transition completes give two reviews: there is no re-entrancy guard |
| SupplementsSection.AddSupplement | components/SupplementsSection.tsx:20-27 | Appends one entry with the fresh id, the name and qty "1 serving"; the old list is a prefix |
| SupplementsSection.RemoveSupplement | components/SupplementsSection.tsx:29-31 | Exactly the entries with another id survive, as an order-preserving subsequence; the length drops by the number removed |
| SupplementsSection.RemoveSupplementConcat | components/SupplementsSection.tsx:29-31 | Removal distributes over concatenation |
| SupplementsSection.UpdateSupplement | components/SupplementsSection.tsx:33-41 | Same length and ids. Matching entries get the chosen field set and keep the other field; all other entries are unchanged |
| SupplementsSection.UpdateSupplementIdempotent | components/SupplementsSection.tsx:33-41 | Writing the same value twice equals writing it once |
| SupplementsSection.NameInputDisabled | components/SupplementsSection.tsx:110 | With `editId` null the name input is disabled; it is enabled exactly when `editId` is the row's id or "ALL" |
| SupplementsSection.EveryNameInputDisabled | components/SupplementsSection.tsx:18 | With the only reachable `editId` (null, its setter unused) every name input is disabled |
| SupplementsSection.EmptyStateShown | components/SupplementsSection.tsx:140-144 | The empty-state message is shown iff the list has no entries |
| SupplementsSection.CollapsingHidesAddButton | components/SupplementsSection.tsx:16-67 | On first use the section starts expanded and offers the add button. Collapsing it removes the button, and after the collapse is persisted a remount starts without the button |
| SupplementsSection.AddThenRemoveRestoresEmptyState | components/SupplementsSection.tsx:20-31 | Adding to an empty list hides the empty state; removing that entry shows it again |
| FoodDetailsSection.RemoveSuggestion | components/FoodDetailsSection.tsx:33 | Every copy of the suggestion is removed and all other entries survive, duplicates included, as an order-preserving subsequence; the length drops by the number of copies |
| FoodDetailsSection.AcceptsEditIffNotBlank | components/FoodDetailsSection.tsx:44 | A commit is accepted iff the edit text has a non-white-space character |
| FoodDetailsSection.FoodDetails.constructor | components/FoodDetailsSection.tsx:20-27 | Starts with the three suggestions, no edit session and no marked chip |
| FoodDetailsSection.FoodDetails.StartEdit | components/FoodDetailsSection.tsx:38-41 | The session opens on the item's id with its current name |
| FoodDetailsSection.FoodDetails.SetEditValue | components/FoodDetailsSection.tsx:86 | Sets the edit text |
| FoodDetailsSection.FoodDetails.SaveEdit | components/FoodDetailsSection.tsx:43-48 | Renames the item to the untrimmed text only when the text is not blank; always ends the session |
| FoodDetailsSection.FoodDetails.DeleteItem | components/FoodDetailsSection.tsx:50-56 | Deletes through the form. Deleting the row being edited clears the id and the text; deleting another row leaves the session alone |
| FoodDetailsSection.FoodDetails.PressAction | components/FoodDetailsSection.tsx:106-111 | On the row being edited the button saves; on any other row it starts editing that row |
| FoodDetailsSection.FoodDetails.TapSuggestion | components/FoodDetailsSection.tsx:29-31 | Marks the chip and schedules one more completion, even when one is already pending. The completion captures the current item list and pool |
| FoodDetailsSection.FoodDetails.CompleteSuggestion | components/FoodDetailsSection.tsx:31-35 | Runs the oldest scheduled completion. The items become the captured list plus the suggestion (App.tsx:131 appends to its own captured list), and the pool becomes the captured pool without any copy of it. The mark is cleared. The pool never holds anything but initial suggestions, though a completion can put back one an earlier completion removed |
| FoodDetailsSection.TapAddsSuggestion | components/FoodDetailsSection.tsx:29-36 | One tap, completed with nothing in between, appends the suggestion once and removes it from the pool |
| FoodDetailsSection.DoubleTapAddsOnce | components/FoodDetailsSection.tsx:29-36 | Two taps on one chip before it completes schedule two completions. Both append to the list captured before the first, so exactly one item is added, with the second id |
| FoodDetailsSection.TwoChipsRestoreFirst | components/FoodDetailsSection.tsx:29-36 | Tapping chip a, then chip b, before either completes: the pool written last still holds a, so a is offered again, and only b is added |
| FoodDetailsSection.DeleteDuringFadeIsUndone | components/FoodDetailsSection.tsx:29-56 | Deleting an item while a chip fades out is undone: the completion writes back the list captured at the tap |
| FoodDetailsSection.BlankRenameIsRejected | components/FoodDetailsSection.tsx:43-48 | Committing an all-blank rename ends the session and keeps the list |
| FoodPhotosSection.ToggleSelect | components/FoodPhotosSection.tsx:19-25 | Same length. Photos with the id have `selected` flipped and every other field kept; other photos are unchanged |
| FoodPhotosSection.ToggleSelectTwice | components/FoodPhotosSection.tsx:19-25 | Toggling the same id twice gives the list back |
| FoodPhotosSection.SelectedCount | components/FoodPhotosSection.tsx:16 | The count is at most the number of photos. It is 0 iff none is selected and equals the length iff all are |
| FoodPhotosSection.SelectedCountConcat | components/FoodPhotosSection.tsx:16 | Counting distributes over concatenation |
| FoodPhotosSection.ToggleSelectCount | components/FoodPhotosSection.tsx:16-25 | Toggling a photo with a unique id moves the count down by one when it was selected and up by one when it was not |
| FoodPhotosSection.PrependUpload | components/FoodPhotosSection.tsx:42-54 | One selected "New upload" photo is put first, the old list follows, and the selected count rises by exactly one |
| FoodPhotosSection.FoodPhotos.constructor | components/FoodPhotosSection.tsx:14-17 | The local list is the prop at mount, and no enhancement is running |
| FoodPhotosSection.FoodPhotos.Selected | components/FoodPhotosSection.tsx:16 | The header count never exceeds the number of photos |
| FoodPhotosSection.FoodPhotos.HandleToggleSelect | components/FoodPhotosSection.tsx:19-25 | The local list becomes `ToggleSelect` of the old one |
| FoodPhotosSection.FoodPhotos.HandleFileChange | components/FoodPhotosSection.tsx:42-54 | With no file nothing changes; with one the upload is prepended and the count rises by one |
| FoodPhotosSection.FoodPhotos.HandleReEnhance | components/FoodPhotosSection.tsx:27-30 | The single slot holds the tapped id and one more completion is scheduled |
| FoodPhotosSection.FoodPhotos.EnhanceCompleted | components/FoodPhotosSection.tsx:30-33 | Clears the slot, whoever holds it, and signals completion once |
| FoodPhotosSection.SharedSlot | components/FoodPhotosSection.tsx:17-34 | Re-enhancing a second photo moves the slot to it; the first completion then empties the slot while the second is still pending |
| DailyNotesSection.AppendTranscript | components/DailyNotesSection.tsx:31-35 | The old notes are a prefix, and the notes gain exactly one line, the transcript. That means the transcript alone when the notes were empty, and otherwise after a newline |
| DailyNotesSection.DailyNotes.constructor | components/DailyNotesSection.tsx:13-24 | Mounts its own hook on the "daily-notes" key with default true. The flag is the decoded stored value, or true when the read fails. The store changes only by the heal write under that key, skipped when it fails, and every other key is kept. Recording starts Idle with no timer armed |
| DailyNotesSection.MountKeepsOtherSections | components/DailyNotesSection.tsx:13-24 | Mounting the section on the shared store leaves every other section's entry as it was |
| DailyNotesSection.DailyNotes.ToggleRecording | components/DailyNotesSection.tsx:26-42 | Does nothing while collapsed. Recording goes to Idle with the transcript appended; Idle goes to Recording. A timer is armed exactly while Recording |
| DailyNotesSection.DailyNotes.Tick | components/DailyNotesSection.tsx:44-58 | An armed timeout stops recording and appends the same transcript line; an unarmed one does nothing |
| DailyNotesSection.DailyNotes.SetNotes | components/DailyNotesSection.tsx:111 | Sets the form's notes |
| DailyNotesSection.DailyNotes.HandleToggle | components/DailyNotesSection.tsx:60-68 | With `setEnabled` given it is called with the negated expanded value and the hook is untouched; otherwise the hook's flag is flipped. The expanded value (`enabled ?? isExpanded`) flips exactly when neither prop is given; otherwise it stays for the parent to change |
| DailyNotesSection.SessionAppendsOnce | components/DailyNotesSection.tsx:26-58 | A recording session appends exactly one line, whether it is stopped by hand or by the timeout |
| ExerciseSection.IsPresetExactly | components/ExerciseSection.tsx:27 | A type is a preset iff it is "Cardio", "Workout" or "Yoga" |
| ExerciseSection.CustomChipShown | components/ExerciseSection.tsx:82 | The custom chip shows iff the type is non-empty, is none of the three presets, and no entry is open |
| ExerciseSection.OtherShowsAsCustom | components/ExerciseSection.tsx:27 | "Other" is not offered as a preset, so it shows as a custom chip |
| ExerciseSection.PresetHidesCustomChip | components/ExerciseSection.tsx:82 | A preset type never shows the custom chip |
| ExerciseSection.Exercise.constructor | components/ExerciseSection.tsx:17-29 | Starts on the form with the given `enabled` prop, no entry open and empty entry text |
| ExerciseSection.Exercise.SelectPreset | components/ExerciseSection.tsx:68-71 | Only with the details shown: the form's type becomes the tapped preset |
| ExerciseSection.Exercise.OpenCustomEntry | components/ExerciseSection.tsx:104-106 | Only with the details shown: opens the entry and keeps the last text typed |
| ExerciseSection.Exercise.SetCustomType | components/ExerciseSection.tsx:97 | Only with the details shown: sets the entry text |
| ExerciseSection.Exercise.SubmitCustom | components/ExerciseSection.tsx:32-38 | Only with the details shown. Non-blank text becomes the form's type, untrimmed, and closes the entry; blank or white-space text changes nothing |
| ExerciseSection.Exercise.BlurCustom | components/ExerciseSection.tsx:98 | Only with the details shown: closes the entry only when the text is exactly empty; white space keeps it open |
| ExerciseSection.Exercise.SetDuration | components/ExerciseSection.tsx:125-129 | Only with the details shown: sets the form's duration, 0 to 120 minutes |
| ExerciseSection.MountInForm | App.tsx:222-229 | The form renders the section without `enabled`, so the detail block (components/ExerciseSection.tsx:61) is hidden. None of the handlers above can run |
| ExerciseSection.SubmittedCustomShowsChip | components/ExerciseSection.tsx:32-89 | With the details shown, submitting a non-blank, non-preset activity makes it the form's type and shows its chip |
| SupplementModal.FilterMatching | components/SupplementModal.tsx:29 | An entry is kept iff its lower-cased text includes the lower-cased term. The result is an order-preserving subsequence of the list, and every copy of a matching entry survives |
| SupplementModal.EmptyTermMatches | components/SupplementModal.tsx:29 | Every entry includes the empty term |
| SupplementModal.EmptyTermKeepsList | components/SupplementModal.tsx:29 | An empty term keeps the whole list |
| SupplementModal.EmptySearchListsAll | components/SupplementModal.tsx:10-29 | With the search reset, all 11 entries are listed in order |
| SupplementModal.MatchIgnoresTermCase | components/SupplementModal.tsx:29 | Terms that lower-case alike match the same entries |
| SupplementModal.AddTermShown | components/SupplementModal.tsx:68-76 | The "Add <term>" fallback shows iff the term is non-empty and no entry matches it |
| SupplementModal.SupplementPicker.constructor | components/SupplementModal.tsx:16-27 | Mounts closed with an empty search |
| SupplementModal.SupplementPicker.SetIsOpen | components/SupplementModal.tsx:19-27 | Opening shows the sheet, resets the search to "" and cancels a pending hide. Closing arms the hide timer. Without a change nothing happens |
| SupplementModal.SupplementPicker.HideTimerFired | components/SupplementModal.tsx:24 | An armed hide timer hides the sheet |
| SupplementModal.SupplementPicker.SetSearchTerm | components/SupplementModal.tsx:53 | Sets the search term |
| SupplementModal.SupplementPicker.ChooseEntry | components/SupplementModal.tsx:58-61 | Choosing a listed entry calls `onAdd(entry)` then `onClose()` |
| SupplementModal.SupplementPicker.ChooseSearchTerm | components/SupplementModal.tsx:68-70 | Choosing the fallback calls `onAdd(term)` then `onClose()` |
| SupplementModal.SupplementPicker.TapBackdrop | components/SupplementModal.tsx:35-38 | The backdrop calls only `onClose()` |
| TimePickerModal.WheelLabelIsTwoDigits | components/TimePickerModal.tsx:28 | `String(i).padStart(2, '0')` is the two decimal digits of `i` for every `i` below 100 |
| TimePickerModal.Wheel | components/TimePickerModal.tsx:28-29 | The wheel of n labels has n entries, and entry i is the two digits of i |
| TimePickerModal.TwoDigitsOrdered | components/TimePickerModal.tsx:28-29 | Two-digit labels compare as strings in the order of the numbers they spell |
| TimePickerModal.TwoDigitsValue | components/TimePickerModal.tsx:28 | A label has two characters and reads back as its number |
| TimePickerModal.WheelsAreOrderedLabels | components/TimePickerModal.tsx:28-29 | Each wheel entry is two characters naming its own index, and the entries are strictly increasing as strings |
| TimePickerModal.HourAndMinuteWheels | components/TimePickerModal.tsx:28-29 | The hour wheel is "00".."23" (24 entries) and the minute wheel "00".."59" (60 entries) |
| TimePickerModal.SplitTime | components/TimePickerModal.tsx:19 | The hour part has no ':', and the minute part is defined iff the time contains ':' |
| TimePickerModal.OpenSaveRoundTrip | components/TimePickerModal.tsx:19-32 | Opening on a time with exactly one ':' and saving untouched emits that time |
| TimePickerModal.WellFormedRoundTrip | components/TimePickerModal.tsx:19-32 | Opening on a well-formed "HH:MM" and saving untouched emits the same string |
| TimePickerModal.NoColonSavesUndefined | components/TimePickerModal.tsx:19-32 | Opening on a time without ':' and saving emits the time followed by ":undefined" |
| TimePickerModal.TimePicker.constructor | components/TimePickerModal.tsx:11-14 | Mounts closed with both selections "00" |
| TimePickerModal.TimePicker.SetProps | components/TimePickerModal.tsx:16-26 | When the props change: opening shows the sheet and selects the split initial time; closing arms the hide timer. Without a change nothing happens |
| TimePickerModal.TimePicker.HideTimerFired | components/TimePickerModal.tsx:23 | An armed hide timer hides the sheet |
| TimePickerModal.TimePicker.ChooseHour | components/TimePickerModal.tsx:62 | Choosing an hour changes only the hour |
| TimePickerModal.TimePicker.ChooseMinute | components/TimePickerModal.tsx:77 | Choosing a minute changes only the minute |
| TimePickerModal.TimePicker.Save | components/TimePickerModal.tsx:31-34 | Emits `hour:minute`, then closes |
| TimePickerModal.TimePicker.TapBackdrop | components/TimePickerModal.tsx:40-42 | The backdrop calls only `onClose`, never `onSelectTime` |
| TimePickerModal.OpenAndSave | components/TimePickerModal.tsx:16-34 | Opening on "22:30" and saving at once emits "22:30" and then closes |

## Where the code does less than a user of the form would expect

The model follows the code in each case.

- **A suggestion chip can be tapped again while it fades out.** A user might expect each tap to add the item. Instead each tap schedules a completion, and every completion writes back the item list captured at its tap. Two taps therefore add one item, with the second id (`FoodDetailsSection.DoubleTapAddsOnce`). A deletion made during the fade is undone (`FoodDetailsSection.DeleteDuringFadeIsUndone`). A user might also expect two different chips tapped in quick succession to both be added and both leave the pool. Instead the second completion writes back the pool captured at its tap, so the first chip is offered again, and only the second item is added (`FoodDetailsSection.TwoChipsRestoreFirst`).
- **The submit button has no re-entrancy guard.** It is not disabled while submitting, so two submits give two reviews (`App.DoubleSubmitRunsTwice`).
- **All photos share one `enhancingId` slot.** A user might expect each photo to shimmer until its own enhancement ends. Instead the first completion clears the shimmer of a photo still in flight (`FoodPhotosSection.SharedSlot`).
- **The exercise details never appear in the form as written.** The form renders the exercise section without its `enabled` prop, so the type, duration and start-time controls stay hidden (`ExerciseSection.MountInForm`).
- **A time without ':' is not rejected.** The time picker's minute is then `undefined`, and saving emits `"<time>:undefined"` (`TimePickerModal.NoColonSavesUndefined`).

## Left out

- JSX markup, styling, icons, animations and the glow pointer listener: rendering only.
- The sleep, pressure, date-picker, toast, image-viewer and waveform components: they are not part of this model. `PressureLevel` is kept only as the 1 to 5 range type.
- Real timers: `setTimeout`/`clearTimeout` and their delays of 300, 400, 500, 2000 and 3000 ms. Each timer is an explicit event method, as described above.
- `Date.now()` ids, `toLocaleTimeString` times, `URL.createObjectURL` and the file input: they are taken as parameters or as an optional object URL.
- `alert`, `console.warn`, `navigator.vibrate`: I/O with no effect on state. The review alert is modelled only as a count, and `onEnhanceComplete` likewise.
- Captured state of other closures: only the chip completion holds captured lists, because it is the only deferred callback that writes a captured list. The review transition, the enhance completion and the auto-stop write constants or use functional updates. Every synchronous handler is taken to see the current state.
- `Text.ToLower`: it folds ASCII letters only, where JavaScript's `toLowerCase` also folds non-ASCII letters.
- The supplements section's `isModalOpen` flag and its wiring to the search sheet: the sheet's `onAdd`/`onClose` callbacks are recorded as a list of calls, and `AddSupplement` is the function `onAdd` runs.
- The exercise section's toggle checkbox: `setEnabled` is the parent's, and App does not pass it, so ticking the checkbox calls `undefined` and throws a TypeError (components/ExerciseSection.tsx:55). The throw is not modelled; the model has no handler for the checkbox.
- The exercise section's start-time picker wiring: the picker itself is modelled in `TimePickerModal`.
- The parent's response to `DailyNotes.HandleToggle`'s `setEnabled` call: the calls are recorded only.
- `ExerciseSection.Exercise.SetDuration`: it requires 0 to 120, which the range input guarantees. `parseInt` of the slider value is not modelled.
- `ToggleStateHook.ToggleState.Persist`: the effect runs after mount and after every change, and callers invoke it explicitly.
