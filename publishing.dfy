/**
 * The observable surface of the view models. Every assignment to a `@Published`
 * property emits once on that property's publisher, whether or not the value changed;
 * the model records the emissions, in order, as a sequence of field names.
 */
module Publishing {

  /** The `@Published` properties of both view models. */
  datatype Field =
    | Text | TextFont | TextColor | BackgroundColor | BorderColor | BorderWidth
    | CornerRadius | IsMinValue | IsMaxValue | Dim | Value

  /** How many times `f` emitted in `log`. */
  function Count(log: seq<Field>, f: Field): (n: nat)
    ensures n <= |log|
  {
    if log == [] then 0 else (if log[0] == f then 1 else 0) + Count(log[1..], f)
  }

  lemma {:induction false} CountConcat(a: seq<Field>, b: seq<Field>, f: Field)
    ensures Count(a + b, f) == Count(a, f) + Count(b, f)
  {
    if a != [] {
      assert (a + b)[1..] == a[1..] + b;
      CountConcat(a[1..], b, f);
    } else {
      assert a + b == b;
    }
  }

  /** A field that is absent from a log never emitted in it, and conversely. */
  lemma {:induction false} CountZeroIff(log: seq<Field>, f: Field)
    ensures Count(log, f) == 0 <==> f !in log
  {
    if log != [] {
      CountZeroIff(log[1..], f);
      assert log == [log[0]] + log[1..];
    }
  }

  /**
   * The "assign only if different" rule: the emissions of a guarded assignment to `f`,
   * one when the computed value differs from the stored one and none otherwise.
   */
  function EmitIf(f: Field, differs: bool): (r: seq<Field>)
    ensures Count(r, f) == (if differs then 1 else 0)
    ensures |r| == Count(r, f)
  {
    if differs then [f] else []
  }
}
