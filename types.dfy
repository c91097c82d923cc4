/**
 * The records and enumerations of the check-in form (types.ts), plus the
 * small generic vocabulary the section models share: an optional value and
 * "is an order-preserving subsequence of".
 */
module Types {

  /** `T | null` in the source. */
  datatype Option<T> = None | Some(value: T)

  /** A supplement row: a stable id, a display name and a free-text quantity. */
  datatype Supplement = Supplement(id: string, name: string, qty: string)

  /** A logged food item. */
  datatype FoodItem = FoodItem(id: string, name: string, amount: string, meal: string, time: string)

  /** A food photo; `selected` toggles independently per photo. */
  datatype FoodPhoto = FoodPhoto(id: string, url: string, selected: bool, alt: string)

  /** The exercise enumeration; the source stores its string value. */
  datatype ExerciseType = Cardio | Workout | Yoga | Other

  /** The string value each enumeration member carries in the source. */
  function ExerciseLabel(t: ExerciseType): (name: string)
    ensures name == "Cardio" || name == "Workout" || name == "Yoga" || name == "Other"
  {
    match t
    case Cardio => "Cardio"
    case Workout => "Workout"
    case Yoga => "Yoga"
    case Other => "Other"
  }

  /** Distinct members carry distinct strings, so the stored string identifies the member. */
  lemma ExerciseLabelInjective(a: ExerciseType, b: ExerciseType)
    requires ExerciseLabel(a) == ExerciseLabel(b)
    ensures a == b
  {
    assert ExerciseLabel(a)[0] == ExerciseLabel(b)[0];
  }

  /** PressureLevel: LOW = 1 … HIGH = 5. */
  type PressureLevel = x: int | 1 <= x <= 5 witness 1

  /**
   * `a` is `b` with some elements dropped and the rest kept in their order.
   */
  predicate IsSubsequence<T(==)>(a: seq<T>, b: seq<T>)
    decreases |b|
  {
    a == [] || (b != [] && ((a[0] == b[0] && IsSubsequence(a[1..], b[1..])) || IsSubsequence(a, b[1..])))
  }

  /** Keeping the head of both sequences keeps the subsequence relation. */
  lemma SubsequenceKeep<T>(x: T, a: seq<T>, b: seq<T>)
    requires IsSubsequence(a, b)
    ensures IsSubsequence([x] + a, [x] + b)
  {
    assert ([x] + a)[1..] == a;
    assert ([x] + b)[1..] == b;
  }

  /** Dropping the head of the longer sequence keeps the subsequence relation. */
  lemma SubsequenceDrop<T>(x: T, a: seq<T>, b: seq<T>)
    requires IsSubsequence(a, b)
    ensures IsSubsequence(a, [x] + b)
  {
    assert ([x] + b)[1..] == b;
  }

  /** The number of times `x` occurs in `s`. */
  function Occurrences<T(==)>(s: seq<T>, x: T): (n: nat)
    ensures n <= |s|
  {
    if s == [] then 0 else (if s[0] == x then 1 else 0) + Occurrences(s[1..], x)
  }

  /** Counting over a sequence that starts with `x`. */
  lemma OccurrencesCons<T>(x: T, s: seq<T>, y: T)
    ensures Occurrences([x] + s, y) == (if x == y then 1 else 0) + Occurrences(s, y)
  {
    assert ([x] + s)[1..] == s;
  }

  /** `items.map(i => i.id)`. */
  function FoodItemIds(items: seq<FoodItem>): (ids: seq<string>)
    ensures |ids| == |items| && forall i :: 0 <= i < |items| ==> ids[i] == items[i].id
  {
    if items == [] then [] else [items[0].id] + FoodItemIds(items[1..])
  }

  /** `supplements.map(s => s.id)`. */
  function SupplementIds(supplements: seq<Supplement>): (ids: seq<string>)
    ensures |ids| == |supplements| && forall i :: 0 <= i < |supplements| ==> ids[i] == supplements[i].id
  {
    if supplements == [] then [] else [supplements[0].id] + SupplementIds(supplements[1..])
  }

  lemma {:induction false} OccurrencesPositive<T>(s: seq<T>, x: T)
    ensures x in s <==> Occurrences(s, x) > 0
    decreases |s|
  {
    if s != [] {
      OccurrencesPositive(s[1..], x);
      assert s == [s[0]] + s[1..];
    }
  }
}
