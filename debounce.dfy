/**
 * The double-press detectors of the Python applications, on timestamps in
 * integer milliseconds.
 *
 * - translator_fixed.py `on_cmd_c` and translator_streaming.py `on_key_press`
 *   keep the presses of the last 3 s (inclusive) and fire when at least two
 *   of them lie within the last 1 s (inclusive); firing clears the list.
 * - translator.py `on_cmd_c_global` keeps only presses strictly less than
 *   1 s old and fires when two remain; firing resets the list.
 *
 * The Swift detector (HotkeyManager.handleKeyEvent) keeps a single timestamp
 * and lives in module Hotkey.
 */
module Debounce {

  const RetainWindowMs: int := 3000
  const PairWindowMs: int := 1000

  /** `now - t <= window`, or `now - t < window` when `strict`. */
  predicate InWindow(t: int, now: int, window: int, strict: bool) {
    if strict then now - t < window else now - t <= window
  }

  /** `[t for t in ts if now - t <= window]` (with `<` when `strict`). */
  function Within(ts: seq<int>, now: int, window: int, strict: bool): (r: seq<int>)
    ensures |r| <= |ts|
    ensures forall i :: 0 <= i < |r| ==> InWindow(r[i], now, window, strict)
  {
    if ts == [] then []
    else
      var last := ts[|ts| - 1];
      Within(ts[..|ts| - 1], now, window, strict) + (if InWindow(last, now, window, strict) then [last] else [])
  }

  /** A press is kept exactly when it was in the list and lies in the window. */
  lemma {:induction false} WithinMember(ts: seq<int>, t: int, now: int, window: int, strict: bool)
    ensures t in Within(ts, now, window, strict) <==> t in ts && InWindow(t, now, window, strict)
    decreases |ts|
  {
    if ts != [] {
      WithinMember(ts[..|ts| - 1], t, now, window, strict);
      assert ts == ts[..|ts| - 1] + [ts[|ts| - 1]];
    }
  }

  lemma WithinSingleton(t: int, now: int, window: int, strict: bool)
    ensures Within([t], now, window, strict) == if InWindow(t, now, window, strict) then [t] else []
  {
    assert [t][..0] == [];
  }

  lemma WithinSnoc(ts: seq<int>, t: int, now: int, window: int, strict: bool)
    ensures Within(ts + [t], now, window, strict)
         == Within(ts, now, window, strict) + (if InWindow(t, now, window, strict) then [t] else [])
  {
    assert (ts + [t])[..|ts|] == ts;
  }

  /** Filtering by the 3 s window and then by the 1 s window is filtering by the 1 s window. */
  lemma {:induction false} WithinNested(ts: seq<int>, now: int, inner: int, outer: int)
    requires inner <= outer
    ensures Within(Within(ts, now, outer, false), now, inner, false) == Within(ts, now, inner, false)
    decreases |ts|
  {
    if ts != [] {
      var init, last := ts[..|ts| - 1], ts[|ts| - 1];
      WithinNested(init, now, inner, outer);
      var outerInit := Within(init, now, outer, false);
      if InWindow(last, now, outer, false) {
        WithinSnoc(outerInit, last, now, inner, false);
      } else {
        assert Within(ts, now, outer, false) == outerInit + [];
        assert outerInit + [] == outerInit;
      }
    }
  }

  /** The list comprehension, element by element. */
  method KeepWithin(ts: seq<int>, now: int, window: int, strict: bool) returns (kept: seq<int>)
    ensures kept == Within(ts, now, window, strict)
  {
    kept := [];
    var i := 0;
    while i < |ts|
      invariant 0 <= i <= |ts|
      invariant kept == Within(ts[..i], now, window, strict)
    {
      WithinSnoc(ts[..i], ts[i], now, window, strict);
      assert ts[..i + 1] == ts[..i] + [ts[i]];
      if InWindow(ts[i], now, window, strict) {
        kept := kept + [ts[i]];
      }
      i := i + 1;
    }
    assert ts[..i] == ts;
  }

  /** The outcome of one detector call: whether it fired, and the new list of press times. */
  datatype Step = Step(fired: bool, times: seq<int>)

  /** One call of translator_fixed.py `on_cmd_c` (and of the Command branch of
      translator_streaming.py `on_key_press`) at time `now`. */
  function InclusiveStep(times: seq<int>, now: int): Step
  {
    var kept := Within(times + [now], now, RetainWindowMs, false);
    var recent := Within(kept, now, PairWindowMs, false);
    if |recent| >= 2 then Step(true, []) else Step(false, kept)
  }

  /** After every call, each retained press is at most 3 s old. */
  lemma InclusiveStepRetains(times: seq<int>, now: int)
    ensures forall i :: 0 <= i < |InclusiveStep(times, now).times| ==> now - InclusiveStep(times, now).times[i] <= RetainWindowMs
  {
  }

  /** The detector fires exactly when some earlier press in the list is at most 1 s old
      (so that, with the current press, two presses lie in the inclusive 1 s window). */
  lemma InclusiveStepFires(times: seq<int>, now: int)
    ensures InclusiveStep(times, now).fired <==> |Within(times + [now], now, PairWindowMs, false)| >= 2
    ensures InclusiveStep(times, now).fired <==> exists t :: t in times && now - t <= PairWindowMs
  {
    var w := Within(times, now, PairWindowMs, false);
    assert |Within(Within(times + [now], now, RetainWindowMs, false), now, PairWindowMs, false)| == |w| + 1 by {
      WithinNested(times + [now], now, PairWindowMs, RetainWindowMs);
      WithinSnoc(times, now, now, PairWindowMs, false);
    }
    SomeWithinIff(times, now, PairWindowMs, false);
  }

  /** The filtered list is non-empty exactly when some element lies in the window. */
  lemma SomeWithinIff(ts: seq<int>, now: int, window: int, strict: bool)
    ensures Within(ts, now, window, strict) != [] <==> exists t :: t in ts && InWindow(t, now, window, strict)
  {
    var w := Within(ts, now, window, strict);
    if w != [] {
      WithinMember(ts, w[0], now, window, strict);
    }
    forall t | t in ts && InWindow(t, now, window, strict)
      ensures w != []
    {
      WithinMember(ts, t, now, window, strict);
    }
  }

  /** Firing clears the list, so the very next single press cannot fire. */
  lemma InclusiveFireClears(times: seq<int>, now: int, next: int)
    requires InclusiveStep(times, now).fired
    ensures InclusiveStep(times, now).times == []
    ensures !InclusiveStep(InclusiveStep(times, now).times, next).fired
  {
    FirstPressAfterClear(next);
  }

  /** From an empty list, a press is kept and does not fire. */
  lemma FirstPressAfterClear(now: int)
    ensures InclusiveStep([], now) == Step(false, [now])
  {
    assert [] + [now] == [now];
    WithinSingleton(now, now, RetainWindowMs, false);
    WithinSingleton(now, now, PairWindowMs, false);
  }

  /** Number of activations over a run of presses, starting from list `times`. */
  function InclusiveActivations(times: seq<int>, presses: seq<int>): nat
    decreases |presses|
  {
    if presses == [] then 0
    else
      var s := InclusiveStep(times, presses[0]);
      (if s.fired then 1 else 0) + InclusiveActivations(s.times, presses[1..])
  }

  /** No two consecutive presses both fire: from an empty list, n presses give at most n / 2
      activations (a triple press activates once). */
  lemma {:induction false} InclusiveActivationsBound(times: seq<int>, presses: seq<int>)
    ensures 2 * InclusiveActivations(times, presses) <= |presses| + (if times == [] then 0 else 1)
    decreases |presses|
  {
    if presses != [] {
      var s := InclusiveStep(times, presses[0]);
      InclusiveActivationsBound(s.times, presses[1..]);
      if times == [] {
        assert [] + [presses[0]] == [presses[0]];
        WithinSingleton(presses[0], presses[0], RetainWindowMs, false);
        WithinSingleton(presses[0], presses[0], PairWindowMs, false);
      }
    }
  }

  /** One call of translator.py `on_cmd_c_global` at time `now`. */
  function StrictStep(times: seq<int>, now: int): Step
  {
    var kept := Within(times + [now], now, PairWindowMs, true);
    if |kept| >= 2 then Step(true, []) else Step(false, kept)
  }

  /** After every call, each retained press is strictly less than 1 s old. */
  lemma StrictStepRetains(times: seq<int>, now: int)
    ensures forall i :: 0 <= i < |StrictStep(times, now).times| ==> now - StrictStep(times, now).times[i] < PairWindowMs
  {
  }

  /** It fires exactly when an earlier press in the list is strictly less than 1 s old,
      and firing resets the list. */
  lemma StrictStepFires(times: seq<int>, now: int)
    ensures StrictStep(times, now).fired <==> exists t :: t in times && now - t < PairWindowMs
    ensures StrictStep(times, now).fired ==> StrictStep(times, now).times == []
  {
    assert |Within(times + [now], now, PairWindowMs, true)| == |Within(times, now, PairWindowMs, true)| + 1 by {
      WithinSnoc(times, now, now, PairWindowMs, true);
    }
    SomeWithinIff(times, now, PairWindowMs, true);
  }

  /** A second press exactly 1 s after the first does not pair with it. */
  lemma StrictBoundaryExclusive(t: int)
    ensures StrictStep([], t).times == [t]
    ensures !StrictStep(StrictStep([], t).times, t + PairWindowMs).fired
  {
    assert [] + [t] == [t];
    WithinSingleton(t, t, PairWindowMs, true);
    StrictStepFires([t], t + PairWindowMs);
  }

  /** In the inclusive detector, the same two presses do pair. */
  lemma InclusiveBoundaryInclusive(t: int)
    ensures InclusiveStep(InclusiveStep([], t).times, t + PairWindowMs).fired
  {
    assert [] + [t] == [t];
    WithinSingleton(t, t, RetainWindowMs, false);
    InclusiveStepFires([t], t + PairWindowMs);
    assert t in [t];
  }

  function StrictActivations(times: seq<int>, presses: seq<int>): nat
    decreases |presses|
  {
    if presses == [] then 0
    else
      var s := StrictStep(times, presses[0]);
      (if s.fired then 1 else 0) + StrictActivations(s.times, presses[1..])
  }

  lemma {:induction false} StrictActivationsBound(times: seq<int>, presses: seq<int>)
    ensures 2 * StrictActivations(times, presses) <= |presses| + (if times == [] then 0 else 1)
    decreases |presses|
  {
    if presses != [] {
      var s := StrictStep(times, presses[0]);
      StrictActivationsBound(s.times, presses[1..]);
      if times == [] {
        assert [] + [presses[0]] == [presses[0]];
        WithinSingleton(presses[0], presses[0], PairWindowMs, true);
      }
    }
  }
}
