/**
 * Reference definition of the press-and-hold loop of `StepperControl`. While tracking,
 * each tick applies one increment or one decrement (the direction is fixed for the
 * press), writes the result to the bound value and then sleeps for the current
 * interval; a completed sleep shrinks the interval. A tick that leaves the bound value
 * unchanged stops tracking, and the sleep after it is cancelled at once.
 *
 * Sleeping is abstracted into `wakes`: `wakes[k]` tells whether the k-th sleep ran to
 * its end (true) or the press was released during it (false); once `wakes` is used up
 * the press has been released.
 */
module AutoRepeat {
  import opened Stepping
  import opened ControlViewModel
  import opened Options

  /** What the loop did: the values written to the binding and the durations of the completed sleeps. */
  datatype Run = Run(values: seq<real>, sleeps: seq<real>)

  /** The value one tick produces. */
  function Tick(isIncrement: bool, current: real, step: real, bounds: ClosedRange): real
  {
    if isIncrement then Incremented(current, step, bounds) else Decremented(current, step, bounds)
  }

  /**
   * The run of a loop that is tracking and resumes before its sleep `k`, with `binding`
   * the bound value, `current` the view model's value and `interval` the view model's
   * interval at that point.
   */
  function Repeat(isIncrement: bool, step: real, bounds: ClosedRange,
                  binding: real, current: real, interval: real, wakes: seq<bool>, k: nat): (r: Run)
    requires k <= |wakes|
    ensures 1 <= |r.values| == |r.sleeps| + 1 <= |wakes| - k + 1
    decreases |wakes| - k
  {
    var next := Tick(isIncrement, current, step, bounds);
    if binding == next || k == |wakes| || !wakes[k] then
      Run([next], [])
    else
      var rest := Repeat(isIncrement, step, bounds, next, next, Decayed(interval), wakes, k + 1);
      Run([next] + rest.values, [interval] + rest.sleeps)
  }

  /** A run ends at a tick that leaves the binding's value unchanged, or when the sleep after it does not complete. */
  lemma RepeatLast(isIncrement: bool, step: real, bounds: ClosedRange,
                   binding: real, current: real, interval: real, wakes: seq<bool>, k: nat)
    requires k <= |wakes|
    requires var next := Tick(isIncrement, current, step, bounds);
      binding == next || k == |wakes| || !wakes[k]
    ensures Repeat(isIncrement, step, bounds, binding, current, interval, wakes, k)
         == Run([Tick(isIncrement, current, step, bounds)], [])
  {
  }

  /** Otherwise the run sleeps for the current interval and resumes from the new value with the interval decayed. */
  lemma RepeatNext(isIncrement: bool, step: real, bounds: ClosedRange,
                   binding: real, current: real, interval: real, wakes: seq<bool>, k: nat)
    requires k < |wakes|
    requires var next := Tick(isIncrement, current, step, bounds);
      binding != next && wakes[k]
    ensures var next := Tick(isIncrement, current, step, bounds);
      var rest := Repeat(isIncrement, step, bounds, next, next, Decayed(interval), wakes, k + 1);
      Repeat(isIncrement, step, bounds, binding, current, interval, wakes, k)
        == Run([next] + rest.values, [interval] + rest.sleeps)
  {
  }

  /**
   * One pass of a loop that has produced `written` and `sleeps` so far and still has the
   * run resuming before sleep `k` to go, out of the whole run `whole`: the pass writes
   * `value`, and `slept` is the sleep it completed, if any. Without a completed sleep the
   * loop has written all of `whole`; with one, the run resuming before sleep `k + 1` from
   * `value` with the interval decayed is what remains.
   */
  lemma RepeatPass(isIncrement: bool, step: real, bounds: ClosedRange,
                   binding: real, current: real, interval: real, wakes: seq<bool>, k: nat,
                   value: real, slept: Option<real>, written: seq<real>, sleeps: seq<real>, whole: Run)
    requires k <= |wakes|
    requires value == Tick(isIncrement, current, step, bounds)
    requires slept.None? <==> binding == value || k == |wakes| || !wakes[k]
    requires slept.Some? ==> slept.value == interval
    requires var rest := Repeat(isIncrement, step, bounds, binding, current, interval, wakes, k);
      written + rest.values == whole.values && sleeps + rest.sleeps == whole.sleeps
    ensures slept.None? ==>
      && written + [value] == whole.values && sleeps == whole.sleeps
      && whole.values[|whole.values| - 1] == value
    ensures slept.Some? ==>
      && k < |wakes|
      && var rest := Repeat(isIncrement, step, bounds, value, value, Decayed(interval), wakes, k + 1);
         (written + [value]) + rest.values == whole.values && (sleeps + [slept.value]) + rest.sleeps == whole.sleeps
  {
    if slept.None? {
      RepeatLast(isIncrement, step, bounds, binding, current, interval, wakes, k);
    } else {
      RepeatNext(isIncrement, step, bounds, binding, current, interval, wakes, k);
      var rest := Repeat(isIncrement, step, bounds, value, value, Decayed(interval), wakes, k + 1);
      assert (written + [value]) + rest.values == written + ([value] + rest.values);
      assert (sleeps + [slept.value]) + rest.sleeps == sleeps + ([slept.value] + rest.sleeps);
    }
  }

  /** The value the binding held before tick `i` of a run. */
  function Before(binding: real, values: seq<real>, i: nat): real
    requires i < |values|
  {
    if i == 0 then binding else values[i - 1]
  }

  /** Every tick applies exactly one step, in the fixed direction, to the value the previous tick left. */
  lemma {:induction false} RepeatTicks(isIncrement: bool, step: real, bounds: ClosedRange,
                                       binding: real, current: real, interval: real,
                                       wakes: seq<bool>, k: nat, i: nat)
    requires k <= |wakes|
    requires i < |Repeat(isIncrement, step, bounds, binding, current, interval, wakes, k).values|
    ensures var r := Repeat(isIncrement, step, bounds, binding, current, interval, wakes, k);
      r.values[i] == Tick(isIncrement, if i == 0 then current else r.values[i - 1], step, bounds)
    decreases |wakes| - k
  {
    var next := Tick(isIncrement, current, step, bounds);
    if i > 0 {
      var rest := Repeat(isIncrement, step, bounds, next, next, Decayed(interval), wakes, k + 1);
      RepeatTicks(isIncrement, step, bounds, next, next, Decayed(interval), wakes, k + 1, i - 1);
      if i > 1 {
        assert rest.values[i - 2] == Repeat(isIncrement, step, bounds, binding, current, interval, wakes, k).values[i - 1];
      }
    }
  }

  /** Only the last tick can leave the bound value unchanged: a no-op tick ends the loop. */
  lemma {:induction false} RepeatStopsAfterNoOp(isIncrement: bool, step: real, bounds: ClosedRange,
                                                binding: real, current: real, interval: real,
                                                wakes: seq<bool>, k: nat, i: nat)
    requires k <= |wakes|
    requires i + 1 < |Repeat(isIncrement, step, bounds, binding, current, interval, wakes, k).values|
    ensures var r := Repeat(isIncrement, step, bounds, binding, current, interval, wakes, k);
      r.values[i] != Before(binding, r.values, i)
    decreases |wakes| - k
  {
    var next := Tick(isIncrement, current, step, bounds);
    if i > 0 {
      RepeatStopsAfterNoOp(isIncrement, step, bounds, next, next, Decayed(interval), wakes, k + 1, i - 1);
    }
  }

  /** The j-th completed sleep lasts the resuming interval decayed j times. */
  lemma {:induction false} RepeatSleepsDecay(isIncrement: bool, step: real, bounds: ClosedRange,
                                             binding: real, current: real, interval: real,
                                             wakes: seq<bool>, k: nat, j: nat)
    requires k <= |wakes|
    requires j < |Repeat(isIncrement, step, bounds, binding, current, interval, wakes, k).sleeps|
    ensures Repeat(isIncrement, step, bounds, binding, current, interval, wakes, k).sleeps[j]
         == DecayedTimes(interval, j)
    decreases |wakes| - k
  {
    var next := Tick(isIncrement, current, step, bounds);
    if j > 0 {
      RepeatSleepsDecay(isIncrement, step, bounds, next, next, Decayed(interval), wakes, k + 1, j - 1);
    }
  }

  /** Incrementing never writes a value above the upper bound, decrementing none below the lower one. */
  lemma {:induction false} RepeatStaysBounded(isIncrement: bool, step: real, bounds: ClosedRange,
                                              binding: real, current: real, interval: real,
                                              wakes: seq<bool>, k: nat, i: nat)
    requires k <= |wakes|
    requires i < |Repeat(isIncrement, step, bounds, binding, current, interval, wakes, k).values|
    ensures var v := Repeat(isIncrement, step, bounds, binding, current, interval, wakes, k).values[i];
      if isIncrement then v <= bounds.upperBound else v >= bounds.lowerBound
    decreases |wakes| - k
  {
    var next := Tick(isIncrement, current, step, bounds);
    if i > 0 {
      RepeatStaysBounded(isIncrement, step, bounds, next, next, Decayed(interval), wakes, k + 1, i - 1);
    }
  }

  /**
   * A run that starts within the bounds, with a non-negative step, writes only values
   * within the bounds, in either direction.
   */
  lemma {:induction false} RepeatStaysWithinBounds(isIncrement: bool, step: real, bounds: ClosedRange,
                                                   binding: real, current: real, interval: real,
                                                   wakes: seq<bool>, k: nat, i: nat)
    requires 0.0 <= step && bounds.lowerBound <= current <= bounds.upperBound
    requires k <= |wakes|
    requires i < |Repeat(isIncrement, step, bounds, binding, current, interval, wakes, k).values|
    ensures var v := Repeat(isIncrement, step, bounds, binding, current, interval, wakes, k).values[i];
      bounds.lowerBound <= v <= bounds.upperBound
    decreases |wakes| - k
  {
    var next := Tick(isIncrement, current, step, bounds);
    SteppingStaysInBounds(current, step, bounds);
    if i > 0 {
      RepeatStaysWithinBounds(isIncrement, step, bounds, next, next, Decayed(interval), wakes, k + 1, i - 1);
    }
  }

  /**
   * Held long enough, an incrementing press reaches the upper bound and then stops on
   * its own: with `n` steps enough to cover the distance and the next `n` sleeps
   * completing, the last tick writes the upper bound and changes nothing.
   */
  lemma {:induction false} RepeatReachesUpperBound(step: real, bounds: ClosedRange, value: real,
                                                   interval: real, wakes: seq<bool>, k: nat, n: nat)
    requires 0.0 < step && value <= bounds.upperBound
    requires bounds.upperBound - value <= n as real * step
    requires k + n <= |wakes| && forall j :: k <= j < k + n ==> wakes[j]
    ensures var r := Repeat(true, step, bounds, value, value, interval, wakes, k);
      && r.values[|r.values| - 1] == bounds.upperBound
      && Before(value, r.values, |r.values| - 1) == bounds.upperBound
    decreases n
  {
    var next := Incremented(value, step, bounds);
    if value == bounds.upperBound {
      assert next == value;
    } else {
      assert next != value;
      assert n > 0;
      assert wakes[k];
      var rest := Repeat(true, step, bounds, next, next, Decayed(interval), wakes, k + 1);
      assert bounds.upperBound - next <= (n - 1) as real * step;
      RepeatReachesUpperBound(step, bounds, next, Decayed(interval), wakes, k + 1, n - 1);
      var r := Repeat(true, step, bounds, value, value, interval, wakes, k);
      assert r.values == [next] + rest.values;
      if |rest.values| > 1 {
        assert Before(value, r.values, |r.values| - 1) == Before(next, rest.values, |rest.values| - 1);
      }
    }
  }

  /**
   * From 8 with step 1 in [0, 10], incrementing: 9 after a 0.5 s sleep, 10 after a
   * 0.425 s sleep, then a tick that changes nothing ends the loop, although the next
   * sleep would have completed.
   */
  lemma RepeatFromEight()
    ensures Repeat(true, 1.0, Range(0.0, 10.0), 8.0, 8.0, InitialInterval, [true, true, true], 0)
         == Run([9.0, 10.0, 10.0], [0.5, 0.425])
  {
    assert Decayed(InitialInterval) == 0.425;
  }
}
