/**
 * The integer interpolation the dynamic switch filter uses to move the
 * navigation point from the centre of the canvas towards a target over a
 * fixed time window.  Division is C++ integer division, which truncates
 * towards zero.
 */
module Interpolation {

  /** The centre coordinate the interpolation starts from. */
  const Centre: int := 2048

  /** Length of the interpolation window, in time units. */
  const Window: int := 1000

  /** C++ `/` on integers: the quotient is truncated towards zero. */
  function TruncDiv(n: int, d: int): (q: int)
    requires d > 0
    ensures 0 <= n ==> q * d <= n < q * d + d
    ensures n < 0 ==> q * d - d < n <= q * d
  {
    if n >= 0 then n / d else -((-n) / d)
  }

  /** A product of two non-negative factors is non-negative. */
  lemma NonNegativeProduct(a: int, b: int)
    requires 0 <= a && 0 <= b
    ensures 0 <= a * b
  {
  }

  /** Dividing by the window is monotonic. */
  lemma TruncDivMonotonic(m: int, n: int)
    requires m <= n
    ensures TruncDiv(m, Window) <= TruncDiv(n, Window)
  {
  }

  /** Dividing a multiple of the window gives the factor back. */
  lemma TruncDivExact(k: int)
    ensures TruncDiv(k * Window, Window) == k
  {
  }

  /** A numerator between two multiples of the window gives a quotient
      between the two factors. */
  lemma TruncDivBetween(n: int, lo: int, hi: int)
    requires lo * Window <= n <= hi * Window
    ensures lo <= TruncDiv(n, Window) <= hi
  {
    TruncDivMonotonic(lo * Window, n);
    TruncDivMonotonic(n, hi * Window);
    TruncDivExact(lo);
    TruncDivExact(hi);
  }

  /** Scaling a difference by a factor in [0, Window] keeps it between zero
      and its full-window scaling. */
  lemma ScaledBetween(e: int, diff: int)
    requires 0 <= e <= Window
    ensures diff <= 0 ==> Window * diff <= e * diff <= 0
    ensures 0 <= diff ==> 0 <= e * diff <= Window * diff
  {
    assert (Window - e) * diff == Window * diff - e * diff;
  }

  /** The coordinate `elapsed` time units after a key press, moving from the
      centre towards `target`: (e * target + (1000 - e) * 2048) / 1000. */
  function Interpolate(elapsed: int, target: int): (r: int)
    ensures elapsed == 0 ==> r == Centre
    ensures elapsed == Window ==> r == target
  {
    TruncDivExact(Centre);
    TruncDivExact(target);
    assert elapsed == Window ==>
      elapsed * target + (Window - elapsed) * Centre == target * Window;
    TruncDiv(elapsed * target + (Window - elapsed) * Centre, Window)
  }

  /** The numerator is the centre, scaled, moved by `elapsed` steps of the
      distance to the target. */
  lemma NumeratorShape(elapsed: int, target: int)
    ensures elapsed * target + (Window - elapsed) * Centre
         == Window * Centre + elapsed * (target - Centre)
  {
  }

  /** Within the window the point lies between the centre and the target,
      both included. */
  lemma InterpolateBetween(elapsed: int, target: int)
    ensures 0 <= elapsed <= Window && target <= Centre ==>
      target <= Interpolate(elapsed, target) <= Centre
    ensures 0 <= elapsed <= Window && Centre <= target ==>
      Centre <= Interpolate(elapsed, target) <= target
  {
    if 0 <= elapsed <= Window {
      var n := elapsed * target + (Window - elapsed) * Centre;
      NumeratorShape(elapsed, target);
      ScaledBetween(elapsed, target - Centre);
      if target <= Centre {
        TruncDivBetween(n, target, Centre);
      } else {
        TruncDivBetween(n, Centre, target);
      }
    }
  }

  /** As time passes within the window the point only moves towards the
      target. */
  lemma InterpolateMovesTowardsTarget(e1: int, e2: int, target: int)
    requires 0 <= e1 <= e2 <= Window
    ensures Centre <= target ==> Interpolate(e1, target) <= Interpolate(e2, target)
    ensures target <= Centre ==> Interpolate(e2, target) <= Interpolate(e1, target)
  {
    NumeratorShape(e1, target);
    NumeratorShape(e2, target);
    var d := target - Centre;
    var n1 := e1 * target + (Window - e1) * Centre;
    var n2 := e2 * target + (Window - e2) * Centre;
    assert n2 - n1 == (e2 - e1) * d;
    if d >= 0 {
      NonNegativeProduct(e2 - e1, d);
      TruncDivMonotonic(n1, n2);
    } else {
      NonNegativeProduct(e2 - e1, -d);
      assert (e2 - e1) * -d == -((e2 - e1) * d);
      TruncDivMonotonic(n2, n1);
    }
  }

  /** Half way through the window, a target at least two units from the
      centre gives a point strictly between the two. */
  lemma InterpolateMidpointStrict(target: int)
    requires target <= Centre - 2 || Centre + 2 <= target
    ensures target < Centre ==> target < Interpolate(Window / 2, target) < Centre
    ensures Centre < target ==> Centre < Interpolate(Window / 2, target) < target
  {
    var n := (Window / 2) * target + (Window - Window / 2) * Centre;
    assert n == 500 * target + 1024000;
    if target < Centre {
      TruncDivMonotonic(n, (Centre - 1) * Window);
      TruncDivMonotonic((target + 1) * Window, n);
    } else {
      TruncDivMonotonic((Centre + 1) * Window, n);
      TruncDivMonotonic(n, (target - 1) * Window);
    }
    TruncDivExact(Centre - 1);
    TruncDivExact(target + 1);
    TruncDivExact(Centre + 1);
    TruncDivExact(target - 1);
  }

  /** Half way through the window the coordinate is the average of centre
      and target, rounded as C++ rounds: towards zero. */
  lemma InterpolateMidpointIsAverage(target: int)
    ensures Interpolate(Window / 2, target) == TruncDiv(target + Centre, 2)
  {
    var n := (Window / 2) * target + (Window - Window / 2) * Centre;
    assert n == 500 * (target + Centre);
  }

  /** With time running backwards the formula extrapolates: a key time 1000
      units in the future sends the point to the far side of the centre. */
  lemma NegativeElapsedLeavesRange()
    ensures Interpolate(-Window, 100) == 3996
  {
  }
}
