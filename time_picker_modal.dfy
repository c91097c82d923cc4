/**
 * The time picker sheet (components/TimePickerModal.tsx): on open it splits
 * the initial "HH:MM" at ':' into the selected hour and minute, offers an
 * hour wheel "00".."23" and a minute wheel "00".."59", and on save emits
 * the two joined by ':' and closes. The callbacks it makes are recorded.
 */
module TimePickerModal {
  import opened Types
  import opened Text

  /** `String(i).padStart(2, '0')`. */
  function WheelLabel(i: nat): string {
    PadStart(NatToString(i), 2, '0')
  }

  /** The two decimal digits of a number below 100: an independent reference for the labels. */
  function TwoDigits(i: nat): string
    requires i < 100
  {
    [Digit(i / 10), Digit(i % 10)]
  }

  lemma WheelLabelIsTwoDigits(i: nat)
    requires i < 100
    ensures WheelLabel(i) == TwoDigits(i)
  {
    if i < 10 {
      assert NatToString(i) == [Digit(i)];
      assert WheelLabel(i) == ['0'] + [Digit(i)];
    } else {
      assert NatToString(i / 10) == [Digit(i / 10)];
    }
  }

  /** `Array.from({ length: n }, (_, i) => String(i).padStart(2, '0'))`. */
  function Wheel(n: nat): (w: seq<string>)
    requires n <= 100
    ensures |w| == n
    ensures forall i :: 0 <= i < n ==> w[i] == TwoDigits(i)
  {
    var w := seq(n, i requires 0 <= i < n => WheelLabel(i));
    forall i | 0 <= i < n ensures w[i] == TwoDigits(i) {
      WheelLabelIsTwoDigits(i);
    }
    w
  }

  function Hours(): seq<string> { Wheel(24) }
  function Minutes(): seq<string> { Wheel(60) }

  /** Lexicographic order on strings by character code, as JavaScript compares them. */
  predicate LexLess(a: string, b: string) {
    if a == [] then b != []
    else b != [] && (a[0] < b[0] || (a[0] == b[0] && LexLess(a[1..], b[1..])))
  }

  /** Two-digit labels are ordered as the numbers they spell. */
  lemma TwoDigitsOrdered(i: nat, j: nat)
    requires i < j < 100
    ensures LexLess(TwoDigits(i), TwoDigits(j))
  {
    if i / 10 == j / 10 {
      assert i % 10 < j % 10;
      assert TwoDigits(i)[1..] == [Digit(i % 10)];
      assert TwoDigits(j)[1..] == [Digit(j % 10)];
    }
  }

  /** Reading the label back as a number gives the index. */
  function TwoDigitValue(s: string): int
    requires |s| == 2
  {
    (s[0] as int - '0' as int) * 10 + (s[1] as int - '0' as int)
  }

  lemma TwoDigitsValue(i: nat)
    requires i < 100
    ensures |TwoDigits(i)| == 2 && TwoDigitValue(TwoDigits(i)) == i
  {
    assert i == (i / 10) * 10 + i % 10;
  }

  /**
   * A wheel of n labels (24 hours, 60 minutes): each two characters,
   * naming its own position, and strictly increasing.
   */
  lemma WheelsAreOrderedLabels(n: nat)
    requires n <= 100
    ensures |Wheel(n)| == n
    ensures forall i :: 0 <= i < n ==> |Wheel(n)[i]| == 2 && TwoDigitValue(Wheel(n)[i]) == i
    ensures forall i, j :: 0 <= i < j < n ==> LexLess(Wheel(n)[i], Wheel(n)[j])
  {
    var w := Wheel(n);
    forall i | 0 <= i < n ensures |w[i]| == 2 && TwoDigitValue(w[i]) == i {
      TwoDigitsValue(i);
    }
    forall i, j | 0 <= i < j < n ensures LexLess(w[i], w[j]) {
      TwoDigitsOrdered(i, j);
    }
  }

  lemma HourAndMinuteWheels()
    ensures |Hours()| == 24 && Hours()[0] == "00" && Hours()[23] == "23"
    ensures |Minutes()| == 60 && Minutes()[0] == "00" && Minutes()[59] == "59"
  {
  }

  /**
   * `const [h, m] = initialTime.split(':')`: the text before the first ':',
   * and the text between the first and the second ':' — undefined when
   * there is no ':' at all.
   */
  function SplitTime(initialTime: string): (hm: (string, Option<string>))
    ensures ':' !in hm.0
    ensures hm.1.Some? <==> ':' in initialTime
  {
    var parts := Split(initialTime, ':');
    OccurrencesPositive(initialTime, ':');
    (parts[0], if |parts| > 1 then Some(parts[1]) else None)
  }

  /** A template literal shows an undefined value as the text "undefined". */
  function TemplateText(v: Option<string>): string {
    if v.Some? then v.value else "undefined"
  }

  /** `${selectedHour}:${selectedMinute}`. */
  function FormatTime(hour: string, minute: Option<string>): string {
    hour + ":" + TemplateText(minute)
  }

  /** Opening on a time with exactly one ':' and saving untouched emits that time. */
  lemma OpenSaveRoundTrip(t: string)
    requires Occurrences(t, ':') == 1
    ensures FormatTime(SplitTime(t).0, SplitTime(t).1) == t
  {
    var parts := Split(t, ':');
    assert |parts| == 2;
    assert Join(parts[1..], ':') == parts[1];
  }

  /** "HH:MM" with digits: the shape every initial time in the form has. */
  predicate IsWellFormedTime(t: string) {
    |t| == 5 && t[2] == ':' && forall k :: 0 <= k < 5 && k != 2 ==> '0' <= t[k] <= '9'
  }

  lemma WellFormedRoundTrip(t: string)
    requires IsWellFormedTime(t)
    ensures FormatTime(SplitTime(t).0, SplitTime(t).1) == t
  {
    assert t == t[..2] + [':'] + t[3..];
    assert ':' !in t[..2] && ':' !in t[3..];
    SplitAfterWord(t[..2], ':', t[3..]);
    SplitWord(t[3..], ':');
  }

  /** Without a ':' the saved text is the whole input followed by ":undefined". */
  lemma NoColonSavesUndefined(t: string)
    requires ':' !in t
    ensures FormatTime(SplitTime(t).0, SplitTime(t).1) == t + ":undefined"
  {
    SplitWord(t, ':');
  }

  /** Callbacks the sheet has made, in order. */
  datatype Call = SelectTime(time: string) | Close

  class TimePicker {
    var isOpen: bool
    var initialTime: string
    var visible: bool
    var hideTimerArmed: bool
    var selectedHour: string
    var selectedMinute: Option<string>
    var calls: seq<Call>

    /** Mount closed: both selections start at "00". */
    constructor (initialTime: string)
      ensures !isOpen && this.initialTime == initialTime && !visible && hideTimerArmed
      ensures selectedHour == "00" && selectedMinute == Some("00") && calls == []
    {
      isOpen, visible, hideTimerArmed := false, false, true;
      this.initialTime := initialTime;
      selectedHour, selectedMinute := "00", Some("00");
      calls := [];
    }

    /**
     * The parent changes `isOpen` or `initialTime`; the effect runs only on
     * a change. Open: show, split the initial time, cancel a pending hide.
     * Closed: arm the 300 ms hide timer.
     */
    method SetProps(open: bool, time: string)
      modifies this`isOpen, this`initialTime, this`visible, this`hideTimerArmed,
               this`selectedHour, this`selectedMinute
      ensures isOpen == open && initialTime == time && calls == old(calls)
      ensures (open, time) == (old(isOpen), old(initialTime)) ==>
        visible == old(visible) && hideTimerArmed == old(hideTimerArmed)
        && selectedHour == old(selectedHour) && selectedMinute == old(selectedMinute)
      ensures (open, time) != (old(isOpen), old(initialTime)) && open ==>
        visible && !hideTimerArmed && (selectedHour, selectedMinute) == SplitTime(time)
      ensures (open, time) != (old(isOpen), old(initialTime)) && !open ==>
        visible == old(visible) && hideTimerArmed
        && selectedHour == old(selectedHour) && selectedMinute == old(selectedMinute)
    {
      if open == isOpen && time == initialTime {
        return;
      }
      isOpen, initialTime := open, time;
      if open {
        visible := true;
        hideTimerArmed := false;
        var hm := SplitTime(time);
        selectedHour, selectedMinute := hm.0, hm.1;
      } else {
        hideTimerArmed := true;
      }
    }

    method HideTimerFired()
      modifies this`visible, this`hideTimerArmed
      ensures old(hideTimerArmed) ==> !visible && !hideTimerArmed
      ensures !old(hideTimerArmed) ==> visible == old(visible) && hideTimerArmed == old(hideTimerArmed)
    {
      if hideTimerArmed {
        visible := false;
        hideTimerArmed := false;
      }
    }

    /** Tapping an hour on the wheel changes only the hour. */
    method ChooseHour(h: string)
      requires isOpen && h in Hours()
      modifies this`selectedHour
      ensures selectedHour == h
    {
      selectedHour := h;
    }

    /** Tapping a minute on the wheel changes only the minute. */
    method ChooseMinute(m: string)
      requires isOpen && m in Minutes()
      modifies this`selectedMinute
      ensures selectedMinute == Some(m)
    {
      selectedMinute := Some(m);
    }

    /** `handleSave`: `onSelectTime("<hour>:<minute>")` then `onClose()`. */
    method Save()
      requires isOpen
      modifies this`calls
      ensures calls == old(calls) + [SelectTime(FormatTime(selectedHour, selectedMinute)), Close]
    {
      calls := calls + [SelectTime(FormatTime(selectedHour, selectedMinute)), Close];
    }

    /** The backdrop: `onClose()` only; no time is emitted. */
    method TapBackdrop()
      requires isOpen
      modifies this`calls
      ensures calls == old(calls) + [Close]
    {
      calls := calls + [Close];
    }
  }

  /** Opening on the bed time "22:30" and saving at once emits "22:30". */
  method OpenAndSave(p: TimePicker)
    requires !p.isOpen
    modifies p
    ensures p.calls == old(p.calls) + [SelectTime("22:30"), Close]
  {
    p.SetProps(true, "22:30");
    WellFormedRoundTrip("22:30");
    p.Save();
  }
}
