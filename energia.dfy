/** Energia's `map`, the Arduino-style linear remap the controller uses to turn
    a speed command into a servo register value. It is evaluated in `long`
    arithmetic, so its division truncates toward zero. */
module Energia {
  import opened CInt

  /** `map(x, inMin, inMax, outMin, outMax)`: the point x of the input interval
      carried onto the output interval. Nothing confines x to the input
      interval; outside it the formula extrapolates along the same line.
      The result is the point of that line, rounded toward outMin by less
      than one unit of output: the rounding error has the sign of the
      offset from outMin, as C's truncating division leaves it. */
  function Map(x: int, inMin: int, inMax: int, outMin: int, outMax: int): (r: int)
    requires inMax != inMin
    ensures Abs((x - inMin) * (outMax - outMin) - (r - outMin) * (inMax - inMin)) < Abs(inMax - inMin)
    ensures var e := (x - inMin) * (outMax - outMin) - (r - outMin) * (inMax - inMin);
            e == 0 || (e < 0 <==> (x - inMin) * (outMax - outMin) < 0)
  {
    CDiv((x - inMin) * (outMax - outMin), inMax - inMin) + outMin
  }

  function Min(a: int, b: int): int { if a <= b then a else b }
  function Max(a: int, b: int): int { if a <= b then b else a }

  /** The ends of the input interval go to the corresponding ends of the
      output interval, whichever way round the output interval is written. */
  lemma MapEndpoints(inMin: int, inMax: int, outMin: int, outMax: int)
    requires inMin < inMax
    ensures Map(inMin, inMin, inMax, outMin, outMax) == outMin
    ensures Map(inMax, inMin, inMax, outMin, outMax) == outMax
  {
    CDivMultiple(outMax - outMin, inMax - inMin);
    assert (inMax - inMin) * (outMax - outMin) == (outMax - outMin) * (inMax - inMin);
  }

  /** The remap is nondecreasing when the output interval is written low to
      high and nonincreasing when it is written high to low (reversed endpoints). */
  lemma MapMonotone(x: int, y: int, inMin: int, inMax: int, outMin: int, outMax: int)
    requires inMin < inMax && x <= y
    ensures outMin <= outMax ==> Map(x, inMin, inMax, outMin, outMax) <= Map(y, inMin, inMax, outMin, outMax)
    ensures outMax <= outMin ==> Map(y, inMin, inMax, outMin, outMax) <= Map(x, inMin, inMax, outMin, outMax)
  {
    var k := outMax - outMin;
    if k >= 0 {
      MulMonotone(x - inMin, y - inMin, k);
      CDivMonotone((x - inMin) * k, (y - inMin) * k, inMax - inMin);
    } else {
      MulMonotone(x - inMin, y - inMin, -k);
      assert (x - inMin) * (-k) == -((x - inMin) * k);
      assert (y - inMin) * (-k) == -((y - inMin) * k);
      CDivMonotone((y - inMin) * k, (x - inMin) * k, inMax - inMin);
    }
  }

  /** Inside the input interval the result stays within the output interval. */
  lemma MapWithinRange(x: int, inMin: int, inMax: int, outMin: int, outMax: int)
    requires inMin <= x <= inMax && inMin < inMax
    ensures Min(outMin, outMax) <= Map(x, inMin, inMax, outMin, outMax) <= Max(outMin, outMax)
  {
    MapEndpoints(inMin, inMax, outMin, outMax);
    MapMonotone(inMin, x, inMin, inMax, outMin, outMax);
    MapMonotone(x, inMax, inMin, inMax, outMin, outMax);
  }

  /** With the input interval starting at 0, a negative input lands at the
      mirror image, across outMin, of the result for its magnitude: the formula
      run on -x overshoots outMin by exactly as much as x falls short of it. */
  lemma MapReflect(x: int, inMax: int, outMin: int, outMax: int)
    requires inMax != 0
    ensures Map(-x, 0, inMax, outMin, outMax) == 2 * outMin - Map(x, 0, inMax, outMin, outMax)
  {
    assert (-x - 0) * (outMax - outMin) == -((x - 0) * (outMax - outMin));
    CDivNegate((x - 0) * (outMax - outMin), inMax - 0);
  }

  lemma MulMonotone(a: int, b: int, k: int)
    requires a <= b && k >= 0
    ensures a * k <= b * k
  {
    assert b * k - a * k == (b - a) * k;
  }
}
