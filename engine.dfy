/** Value-level models of the engine types and math helpers the game scripts use:
    `Mathf.Abs`, `Mathf.Clamp01`, `Mathf.Lerp`, `Mathf.MoveTowards`, `Color.Lerp`
    and `Vector3`. Floats are modelled as exact reals, so IEEE rounding is not part
    of the model; every helper follows the engine's documented semantics. */
module Engine {

  /** A component reference that may be missing (`null` in the scripts). */
  datatype Option<T> = None | Some(value: T)

  /** `v` lies on the segment between `a` and `b`. */
  predicate Between(v: real, a: real, b: real) {
    (a <= v <= b) || (b <= v <= a)
  }

  /** `Mathf.Abs`. */
  function Abs(x: real): (r: real)
    ensures r >= 0.0
    ensures r == x || r == -x
  {
    if x < 0.0 then -x else x
  }

  /** `Mathf.Sign`: the engine returns 1 for zero. */
  function Sign(x: real): (r: real)
    ensures x >= 0.0 ==> r == 1.0
    ensures x < 0.0 ==> r == -1.0
  {
    if x >= 0.0 then 1.0 else -1.0
  }

  /** `Mathf.Clamp01`: the nearest point of [0, 1]. */
  function Clamp01(t: real): (r: real)
    ensures 0.0 <= r <= 1.0
    ensures 0.0 <= t <= 1.0 ==> r == t
    ensures t <= 0.0 ==> r == 0.0
    ensures t >= 1.0 ==> r == 1.0
  {
    if t < 0.0 then 0.0 else if t > 1.0 then 1.0 else t
  }

  /** If 0 <= c <= 1 then d * c lies between 0 and d. */
  lemma ScaleBetween(d: real, c: real)
    requires 0.0 <= c <= 1.0
    ensures d >= 0.0 ==> 0.0 <= d * c <= d
    ensures d <= 0.0 ==> d <= d * c <= 0.0
  {
    if d >= 0.0 {
      assert d * c <= d * 1.0;
    } else {
      assert d * 1.0 <= d * c;
    }
  }

  /** `Mathf.Lerp(a, b, t)`: `a + (b - a) * Clamp01(t)`. The result never leaves
      the segment between `a` and `b`, and the ends are hit exactly. */
  function Lerp(a: real, b: real, t: real): (r: real)
    ensures t <= 0.0 ==> r == a
    ensures t >= 1.0 ==> r == b
    ensures a <= b ==> a <= r <= b
    ensures b <= a ==> b <= r <= a
    ensures a == b ==> r == a
  {
    var c := Clamp01(t);
    var d := b - a;
    ScaleBetween(d, c);
    a + d * c
  }

  /** `Mathf.MoveTowards(current, target, maxDelta)`: the target itself when it is
      within `maxDelta`, otherwise one step of `maxDelta` in its direction. */
  function MoveTowards(current: real, target: real, maxDelta: real): (r: real)
    ensures Abs(target - current) <= maxDelta ==> r == target
    ensures maxDelta >= 0.0 ==> Abs(r - current) <= maxDelta
    ensures maxDelta >= 0.0 && current <= target ==> current <= r <= target
    ensures maxDelta >= 0.0 && target <= current ==> target <= r <= current
    ensures Abs(target - current) > maxDelta >= 0.0 ==> Abs(r - current) == maxDelta
  {
    if Abs(target - current) <= maxDelta then target
    else current + Sign(target - current) * maxDelta
  }

  /** `UnityEngine.Color`: four float channels. */
  datatype Color = Color(r: real, g: real, b: real, a: real)

  /** `Color.Lerp`: channel-wise `Mathf.Lerp`, which also clamps `t`. */
  function ColorLerp(x: Color, y: Color, t: real): (c: Color)
    ensures t <= 0.0 ==> c == x
    ensures t >= 1.0 ==> c == y
    ensures x == y ==> c == x
  {
    Color(Lerp(x.r, y.r, t), Lerp(x.g, y.g, t), Lerp(x.b, y.b, t), Lerp(x.a, y.a, t))
  }

  /** `UnityEngine.Vector3`. */
  datatype Vector3 = Vector3(x: real, y: real, z: real) {
    /** `v * k`. */
    function Scale(k: real): Vector3 {
      Vector3(x * k, y * k, z * k)
    }

    /** `v + w`. */
    function Add(w: Vector3): Vector3 {
      Vector3(x + w.x, y + w.y, z + w.z)
    }
  }

  /** `Vector3.up`. */
  const Up := Vector3(0.0, 1.0, 0.0)

  /** `Vector3.zero`. */
  const Zero := Vector3(0.0, 0.0, 0.0)
}
