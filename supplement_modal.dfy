/**
 * The supplement search sheet (components/SupplementModal.tsx): a
 * case-insensitive substring filter over a fixed list, an "Add <term>"
 * fallback when nothing matches, and a search term that is reset each time
 * the sheet opens. The callbacks it is given are recorded in order.
 */
module SupplementModal {
  import opened Types
  import opened Text

  const CommonSupplements: seq<string> := [
    "Magnesium Glycinate", "Vitamin C", "Zinc", "Probiotics", "Creatine Monohydrate",
    "Ashwagandha", "Melatonin", "Iron", "Vitamin B12", "Collagen Peptides", "L-Theanine"
  ]

  /** The filter's test: the entry, lower-cased, includes the lower-cased term. */
  predicate Matches(entry: string, term: string) {
    Contains(ToLower(entry), ToLower(term))
  }

  /** `list.filter(s => s.toLowerCase().includes(term.toLowerCase()))`. */
  function FilterMatching(list: seq<string>, term: string): (r: seq<string>)
    ensures forall s :: s in r <==> s in list && Matches(s, term)
    ensures IsSubsequence(r, list)
    ensures forall x :: Occurrences(r, x) == if Matches(x, term) then Occurrences(list, x) else 0
  {
    if list == [] then []
    else
      var rest := FilterMatching(list[1..], term);
      assert list == [list[0]] + list[1..];
      forall x ensures Occurrences(list, x) == (if list[0] == x then 1 else 0) + Occurrences(list[1..], x) {
        OccurrencesCons(list[0], list[1..], x);
      }
      forall x ensures Occurrences([list[0]] + rest, x) == (if list[0] == x then 1 else 0) + Occurrences(rest, x) {
        OccurrencesCons(list[0], rest, x);
      }
      if Matches(list[0], term) then
        SubsequenceKeep(list[0], rest, list[1..]);
        [list[0]] + rest
      else
        SubsequenceDrop(list[0], rest, list[1..]);
        rest
  }

  /** `filtered`. */
  function Filtered(term: string): seq<string> {
    FilterMatching(CommonSupplements, term)
  }

  /** Every string includes the empty string. */
  lemma EmptyTermMatches(entry: string)
    ensures Matches(entry, "")
  {
    assert OccursAt(ToLower(entry), ToLower(""), 0);
  }

  /** An empty search keeps the whole list. */
  lemma {:induction false} EmptyTermKeepsList(list: seq<string>)
    ensures FilterMatching(list, "") == list
    decreases |list|
  {
    if list != [] {
      EmptyTermMatches(list[0]);
      EmptyTermKeepsList(list[1..]);
      assert [list[0]] + list[1..] == list;
    }
  }

  /** With the term reset on open, all 11 entries are listed. */
  lemma EmptySearchListsAll()
    ensures Filtered("") == CommonSupplements && |Filtered("")| == 11
  {
    EmptyTermKeepsList(CommonSupplements);
  }

  /** Matching ignores the case of ASCII letters in the term. */
  lemma MatchIgnoresTermCase(entry: string, a: string, b: string)
    requires ToLower(a) == ToLower(b)
    ensures Matches(entry, a) <==> Matches(entry, b)
  {
  }

  /** The "Add <term>" fallback button. */
  function AddTermShown(term: string): (shown: bool)
    ensures shown <==> term != "" && forall s :: s in CommonSupplements ==> !Matches(s, term)
  {
    assert Filtered(term) != [] ==> Filtered(term)[0] in Filtered(term);
    |Filtered(term)| == 0 && term != ""
  }

  /** Callbacks the sheet has made, in order. */
  datatype Call = Add(name: string) | Close

  class SupplementPicker {
    var isOpen: bool
    var visible: bool
    var hideTimerArmed: bool
    var searchTerm: string
    var calls: seq<Call>

    /** Mount with `isOpen` false: the effect arms the (harmless) hide timer. */
    constructor ()
      ensures !isOpen && !visible && hideTimerArmed && searchTerm == "" && calls == []
    {
      isOpen, visible, hideTimerArmed := false, false, true;
      searchTerm := "";
      calls := [];
    }

    /** The sheet is in the tree. */
    predicate Rendered()
      reads this
    {
      visible || isOpen
    }

    /**
     * The parent changes `isOpen`. The effect runs only on a change: opening
     * shows the sheet, resets the search and cancels a pending hide; closing
     * arms the 300 ms hide timer.
     */
    method SetIsOpen(open: bool)
      modifies this`isOpen, this`visible, this`hideTimerArmed, this`searchTerm
      ensures isOpen == open && calls == old(calls)
      ensures open == old(isOpen) ==> visible == old(visible) && hideTimerArmed == old(hideTimerArmed)
                                      && searchTerm == old(searchTerm)
      ensures open && !old(isOpen) ==> visible && !hideTimerArmed && searchTerm == ""
      ensures !open && old(isOpen) ==> visible == old(visible) && hideTimerArmed && searchTerm == old(searchTerm)
    {
      if open == isOpen {
        return;
      }
      isOpen := open;
      if open {
        visible := true;
        searchTerm := "";
        hideTimerArmed := false;
      } else {
        hideTimerArmed := true;
      }
    }

    /** The hide timer firing. */
    method HideTimerFired()
      modifies this`visible, this`hideTimerArmed
      ensures old(hideTimerArmed) ==> !visible && !hideTimerArmed
      ensures !old(hideTimerArmed) ==> visible == old(visible) && hideTimerArmed == old(hideTimerArmed)
    {
      if hideTimerArmed {
        visible := false;
        hideTimerArmed := false;
      }
    }

    /** The search input's `onChange`. */
    method SetSearchTerm(v: string)
      modifies this`searchTerm
      ensures searchTerm == v
    {
      searchTerm := v;
    }

    /** Choosing a listed entry: `onAdd(entry)` then `onClose()`. */
    method ChooseEntry(entry: string)
      requires isOpen && entry in Filtered(searchTerm)
      modifies this`calls
      ensures calls == old(calls) + [Add(entry), Close]
    {
      calls := calls + [Add(entry), Close];
    }

    /** Choosing the fallback: `onAdd(searchTerm)` then `onClose()`. */
    method ChooseSearchTerm()
      requires isOpen && AddTermShown(searchTerm)
      modifies this`calls
      ensures calls == old(calls) + [Add(searchTerm), Close]
    {
      calls := calls + [Add(searchTerm), Close];
    }

    /** The backdrop: `onClose()` only. */
    method TapBackdrop()
      requires isOpen
      modifies this`calls
      ensures calls == old(calls) + [Close]
    {
      calls := calls + [Close];
    }
  }
}
