/** Small shared vocabulary: optional values, results, JavaScript-style
    number helpers, and the transcendental functions the generators use,
    which are kept abstract. */
module Prelude {

  datatype Option<+T> = None | Some(value: T) {
    function GetOr(default: T): T {
      match this
      case Some(v) => v
      case None => default
    }
  }

  datatype Result<+T, +E> = Success(value: T) | Failure(error: E)

  function Max(a: int, b: int): int { if a < b then b else a }
  function Min(a: int, b: int): int { if a < b then a else b }
  function MaxR(a: real, b: real): real { if a < b then b else a }
  function MinR(a: real, b: real): real { if a < b then a else b }

  /** `Math.round`: the nearest integer, halves rounded up. */
  function Round(x: real): (r: int)
    ensures x - 0.5 < r as real <= x + 0.5
  {
    (x + 0.5).Floor
  }

  /** `Math.round(x * scale) / scale`, the generators' fixed-decimal rounding. */
  function RoundTo(x: real, scale: nat): real
    requires scale > 0
  {
    (Round(x * scale as real) as real) / (scale as real)
  }

  /** `Math.floor(u * n)` for a draw `u` in [0,1): an index below `n`. */
  function ScaledFloor(u: real, n: int): (k: int)
    requires 0.0 <= u < 1.0 && n > 0
    ensures 0 <= k < n
  {
    ScaleBelow(u, n);
    (u * n as real).Floor
  }

  lemma ScaleBelow(u: real, n: int)
    requires 0.0 <= u < 1.0 && n > 0
    ensures 0.0 <= u * n as real < n as real
  {
    assert (1.0 - u) * n as real > 0.0;
  }

  // Products of reals, stated once: the solver does not always see
  // these facts about a product of two variables by itself.

  lemma MulMonotone(a: real, x: real, y: real)
    requires 0.0 <= a && x <= y
    ensures a * x <= a * y
  {
  }

  lemma MulCongruence(a: real, x: real, y: real)
    requires x == y
    ensures a * x == a * y && x * a == y * a
  {
  }

  lemma MulStrict(a: real, x: real, y: real)
    requires 0.0 < a && x < y
    ensures a * x < a * y
  {
  }

  /** The quotient of two positive reals is positive. */
  lemma PositiveQuotient(a: real, b: real)
    requires a > 0.0 && b > 0.0
    ensures a / b > 0.0
  {
    assert (a / b) * b == a;
    if a / b <= 0.0 {
      MulStrict(b, a / b, 0.0);
    }
  }

  /** The transcendental functions of JavaScript's `Math` (and numpy's
      equivalents). They stay abstract: the only fact used about them is
      that `exp` is positive, as the real exponential is. */
  datatype Transcendentals = Transcendentals(
    ln: real -> real,
    exp: real -> real,
    sqrt: real -> real,
    sin: real -> real,
    cos: real -> real,
    pow: (real, real) -> real)

  type MathLib = m: Transcendentals | forall x :: m.exp(x) > 0.0
    witness Transcendentals(x => 0.0, x => 1.0, x => 0.0, x => 0.0, x => 1.0, (x, y) => 1.0)

  /** The list `[f(0), ..., f(n - 1)]`: what a loop that pushes `f(i)`
      for `i` from 0 to `n - 1` builds. */
  function Tabulate<T>(f: nat -> T, n: nat): (s: seq<T>)
    ensures |s| == n
  {
    if n == 0 then [] else Tabulate(f, n - 1) + [f(n - 1)]
  }

  /** One more pass appends `f(n)`. */
  lemma TabulateNext<T>(f: nat -> T, n: nat)
    ensures Tabulate(f, n + 1) == Tabulate(f, n) + [f(n)]
  {
  }

  lemma {:induction false} TabulateIndex<T>(f: nat -> T, n: nat, i: nat)
    requires i < n
    ensures Tabulate(f, n)[i] == f(i)
  {
    if i < n - 1 {
      TabulateIndex(f, n - 1, i);
    }
  }

  /** A loop whose pass `i` starts reading draws at some position and
      says where the next pass starts: `step(i, pos)` is the item pass
      `i` pushes and the position after it. `ThreadPos(step, n)` is the
      position after `n` passes that started at 0. */
  function ThreadPos<T>(step: (nat, nat) -> (T, nat), n: nat): nat {
    if n == 0 then 0 else step(n - 1, ThreadPos(step, n - 1)).1
  }

  /** The items pushed by the first `n` passes. */
  function ThreadItems<T>(step: (nat, nat) -> (T, nat), n: nat): (s: seq<T>)
    ensures |s| == n
  {
    if n == 0 then [] else ThreadItems(step, n - 1) + [step(n - 1, ThreadPos(step, n - 1)).0]
  }

  lemma {:induction false} ThreadItemsIndex<T>(step: (nat, nat) -> (T, nat), n: nat, i: nat)
    requires i < n
    ensures ThreadItems(step, n)[i] == step(i, ThreadPos(step, i)).0
  {
    if i < n - 1 {
      ThreadItemsIndex(step, n - 1, i);
    }
  }

  /** One more pass appends its item and moves the position on. */
  lemma ThreadNext<T>(step: (nat, nat) -> (T, nat), n: nat)
    ensures ThreadItems(step, n + 1) == ThreadItems(step, n) + [step(n, ThreadPos(step, n)).0]
    ensures ThreadPos(step, n + 1) == step(n, ThreadPos(step, n)).1
  {
  }

  /** When every pass reads the same number `k` of draws, pass `n`
      starts at `n * k`. */
  lemma {:induction false} ThreadPosUniform<T>(step: (nat, nat) -> (T, nat), k: nat, n: nat)
    requires forall i: nat, pos: nat :: step(i, pos).1 == pos + k
    ensures ThreadPos(step, n) == n * k
  {
    if n > 0 {
      ThreadPosUniform(step, k, n - 1);
      assert ThreadPos(step, n) == (n - 1) * k + k;
    }
  }

  /** The items of the passes that pushed one, in order: what a loop
      that skips some passes with `continue` builds. */
  function Present<T>(s: seq<Option<T>>): (r: seq<T>)
    ensures |r| <= |s|
  {
    if |s| == 0 then []
    else Present(s[..|s| - 1]) + (if s[|s| - 1].Some? then [s[|s| - 1].value] else [])
  }

  /** A pass appends its item exactly when it pushed one. */
  lemma PresentNext<T>(s: seq<Option<T>>, x: Option<T>)
    ensures Present(s + [x]) == Present(s) + (if x.Some? then [x.value] else [])
  {
    assert (s + [x])[..|s|] == s;
  }

  /** An item is kept exactly when some pass pushed it. */
  lemma {:induction false} PresentMembership<T>(s: seq<Option<T>>, y: T)
    ensures y in Present(s) <==> Some(y) in s
  {
    if |s| > 0 {
      PresentMembership(s[..|s| - 1], y);
      assert s == s[..|s| - 1] + [s[|s| - 1]];
    }
  }

  /** When no pass is skipped, every pass contributes. */
  lemma {:induction false} PresentAll<T>(s: seq<Option<T>>)
    requires forall i | 0 <= i < |s| :: s[i].Some?
    ensures |Present(s)| == |s|
  {
    if |s| > 0 {
      PresentAll(s[..|s| - 1]);
    }
  }

  /** `s.filter(keep)`. */
  function Filter<T>(s: seq<T>, keep: T -> bool): (r: seq<T>)
    ensures |r| <= |s|
  {
    if |s| == 0 then [] else (if keep(s[0]) then [s[0]] else []) + Filter(s[1..], keep)
  }

  /** The filter keeps exactly the elements that pass the test ... */
  lemma {:induction false} FilterMembership<T>(s: seq<T>, keep: T -> bool, x: T)
    ensures x in Filter(s, keep) <==> x in s && keep(x)
  {
    if |s| > 0 {
      FilterMembership(s[1..], keep, x);
      assert s == [s[0]] + s[1..];
    }
  }

  /** ... and keeps their order: filtering a concatenation filters each
      part. */
  lemma {:induction false} FilterAppend<T>(s: seq<T>, t: seq<T>, keep: T -> bool)
    ensures Filter(s + t, keep) == Filter(s, keep) + Filter(t, keep)
  {
    if |s| == 0 {
      assert s + t == t;
    } else {
      var h: seq<T> := if keep(s[0]) then [s[0]] else [];
      assert (s + t)[0] == s[0];
      assert (s + t)[1..] == s[1..] + t;
      assert Filter(s + t, keep) == h + Filter(s[1..] + t, keep);
      FilterAppend(s[1..], t, keep);
      assert h + (Filter(s[1..], keep) + Filter(t, keep)) == (h + Filter(s[1..], keep)) + Filter(t, keep);
    }
  }

  /** `s.find(test)`: the first element that passes, if any. */
  function Find<T>(s: seq<T>, test: T -> bool): (r: Option<T>)
    ensures r.Some? ==> r.value in s && test(r.value)
  {
    if |s| == 0 then None else if test(s[0]) then Some(s[0]) else Find(s[1..], test)
  }

  /** `find` returns the element at the first passing index, and nothing
      when no element passes. */
  lemma {:induction false} FindFirst<T>(s: seq<T>, test: T -> bool)
    ensures Find(s, test).None? <==> forall i | 0 <= i < |s| :: !test(s[i])
    ensures Find(s, test).Some? ==>
      exists k | 0 <= k < |s| :: Find(s, test).value == s[k] && test(s[k])
        && forall i | 0 <= i < k :: !test(s[i])
  {
    if |s| > 0 {
      FindFirst(s[1..], test);
      if !test(s[0]) && Find(s, test).Some? {
        var k :| 0 <= k < |s| - 1 && Find(s[1..], test).value == s[1..][k] && test(s[1..][k])
          && forall i | 0 <= i < k :: !test(s[1..][i]);
        assert forall i | 0 <= i < k + 1 :: !test(s[i]) by {
          forall i | 0 <= i < k + 1 ensures !test(s[i]) {
            if i > 0 { assert s[i] == s[1..][i - 1]; }
          }
        }
      }
      if Find(s, test).None? {
        assert forall i | 0 <= i < |s| :: !test(s[i]) by {
          forall i | 0 <= i < |s| ensures !test(s[i]) {
            if i > 0 { assert s[i] == s[1..][i - 1]; }
          }
        }
      }
    }
  }

  /** `Math.PI` as a double. */
  const PI: real := 3.141592653589793
}
