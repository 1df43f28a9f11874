/**
 * The life-event record and the cursor arithmetic that both front ends of the
 * portfolio use to step through their catalog of life events.
 */
module Catalog {

  /** One biographical waypoint: a place, its coordinate in degrees, an age label and a description. */
  datatype LifeEvent = LifeEvent(name: string, lat: real, lon: real, age: string, description: string)

  /**
   * JavaScript's `%` on integers: the remainder takes the sign of the dividend
   * (division truncates toward zero), unlike Dafny's Euclidean `%`.
   */
  function JsRem(a: int, n: int): (r: int)
    requires n > 0
    ensures a >= 0 ==> 0 <= r < n
    ensures a < 0 ==> -n < r <= 0
    ensures a >= 0 ==> r == a % n
  {
    if a >= 0 then a % n else -((-a) % n)
  }

  /**
   * The cursor update `(index + direction + length) % length`, evaluated with
   * JavaScript's `%`. The result lies in `[0, length)` whenever the dividend is
   * not negative.
   */
  function Wrap(index: int, direction: int, length: int): (r: int)
    requires length > 0
    ensures 0 <= index + direction + length ==> 0 <= r < length
  {
    JsRem(index + direction + length, length)
  }

  lemma MulAtLeast(k: int, n: int)
    requires k >= 1 && n > 0
    ensures k * n >= n
  {
    assert k * n == (k - 1) * n + n;
    if k > 1 { MulAtLeast(k - 1, n); }
  }

  /** Euclidean quotient and remainder are unique: `x == q * n + r` with `0 <= r < n` fixes both. */
  lemma ModUnique(x: int, q: int, r: int, n: int)
    requires n > 0 && x == q * n + r && 0 <= r < n
    ensures x % n == r && x / n == q
  {
    var k := x / n - q;
    assert x == (x / n) * n + x % n;
    assert k * n == r - x % n;
    if k > 0 {
      MulAtLeast(k, n);
    } else if k < 0 {
      MulAtLeast(-k, n);
    }
  }

  /** Stepping forward from a valid cursor moves to the next event, and from the last one back to the first. */
  lemma WrapForward(index: int, length: int)
    requires 0 <= index < length
    ensures Wrap(index, 1, length) == if index == length - 1 then 0 else index + 1
  {
    if index == length - 1 {
      ModUnique(index + 1 + length, 2, 0, length);
    } else {
      ModUnique(index + 1 + length, 1, index + 1, length);
    }
  }

  /** Stepping backward from a valid cursor moves to the previous event, and from the first one to the last. */
  lemma WrapBackward(index: int, length: int)
    requires 0 <= index < length
    ensures Wrap(index, -1, length) == if index == 0 then length - 1 else index - 1
  {
    if index == 0 {
      ModUnique(index - 1 + length, 0, length - 1, length);
    } else {
      ModUnique(index - 1 + length, 1, index - 1, length);
    }
  }

  /** A step forward and a step backward, in either order, return the cursor to where it was. */
  lemma WrapRoundTrip(index: int, length: int)
    requires 0 <= index < length
    ensures Wrap(Wrap(index, 1, length), -1, length) == index
    ensures Wrap(Wrap(index, -1, length), 1, length) == index
  {
    WrapForward(index, length);
    WrapBackward(index, length);
    WrapBackward(Wrap(index, 1, length), length);
    WrapForward(Wrap(index, -1, length), length);
  }

  /** A single step of the cursor agrees with Euclidean remainder of the displacement. */
  lemma WrapIsEuclidean(index: int, direction: int, length: int)
    requires 0 <= index < length && (direction == 1 || direction == -1)
    ensures Wrap(index, direction, length) == (index + direction) % length
  {
    if direction == 1 {
      WrapForward(index, length);
      if index == length - 1 {
        ModUnique(index + 1, 1, 0, length);
      } else {
        ModUnique(index + 1, 0, index + 1, length);
      }
    } else {
      WrapBackward(index, length);
      if index == 0 {
        ModUnique(-1, -1, length - 1, length);
      } else {
        ModUnique(index - 1, 0, index - 1, length);
      }
    }
  }

  /** Every element of `steps` is a single step forward or backward. */
  predicate UnitSteps(steps: seq<int>)
  {
    forall k :: 0 <= k < |steps| ==> steps[k] == 1 || steps[k] == -1
  }

  function Sum(steps: seq<int>): int
  {
    if steps == [] then 0 else steps[0] + Sum(steps[1..])
  }

  /** The cursor after applying a whole sequence of single steps, first to last; it never leaves the catalog. */
  function Walk(index: int, steps: seq<int>, length: int): (r: int)
    requires 0 <= index < length && UnitSteps(steps)
    ensures 0 <= r < length
    decreases |steps|
  {
    if steps == [] then index else Walk(Wrap(index, steps[0], length), steps[1..], length)
  }

  /** `(a % n + b) % n == (a + b) % n` for Euclidean remainder. */
  lemma ModAddLeft(a: int, b: int, n: int)
    requires n > 0
    ensures (a % n + b) % n == (a + b) % n
  {
    var c := a % n + b;
    assert a == (a / n) * n + a % n;
    assert c == (c / n) * n + c % n;
    assert a + b == (a / n + c / n) * n + c % n;
    ModUnique(a + b, a / n + c / n, c % n, n);
  }

  /**
   * Any walk of single steps ends where the net displacement, taken modulo the
   * catalog length, says: the cursor arithmetic loses nothing.
   */
  lemma {:induction false} WalkIsNetDisplacement(index: int, steps: seq<int>, length: int)
    requires 0 <= index < length && UnitSteps(steps)
    ensures Walk(index, steps, length) == (index + Sum(steps)) % length
    decreases |steps|
  {
    if steps == [] {
      ModUnique(index, 0, index, length);
    } else {
      var next := Wrap(index, steps[0], length);
      WrapIsEuclidean(index, steps[0], length);
      assert UnitSteps(steps[1..]);
      WalkIsNetDisplacement(next, steps[1..], length);
      ModAddLeft(index + steps[0], Sum(steps[1..]), length);
    }
  }
}
