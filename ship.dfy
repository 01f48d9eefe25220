/** The `ShipController` component: keyboard throttle and rudder, wake emission,
    movement along the ship's forward vector and per-point buoyancy.

    The keyboard state, the frame times, the transform's forward vector and the
    world positions of the buoyancy points are parameters; the rigidbody's
    `MovePosition` and `AddForceAtPosition` become the `position` field and the
    log of applied forces. */
module Ship {
  import opened Engine

  /** Which of the W, S, A and D keys are held this frame. */
  datatype Keys = Keys(w: bool, s: bool, a: bool, d: bool)

  /** The speed after one frame of throttle input: W approaches `maxSpeed`, else
      S approaches `-maxSpeed / 2`, both at `acceleration`; with neither key the
      ship coasts towards 0 at half that rate. No step overshoots its target. */
  function NextSpeed(speed: real, keys: Keys, maxSpeed: real, acceleration: real, dt: real): (r: real)
    ensures acceleration * dt >= 0.0 && keys.w ==>
      && Abs(r - speed) <= acceleration * dt
      && Between(r, speed, maxSpeed)
      && (Abs(maxSpeed - speed) <= acceleration * dt ==> r == maxSpeed)
    ensures acceleration * dt >= 0.0 && !keys.w && keys.s ==>
      && Abs(r - speed) <= acceleration * dt
      && Between(r, speed, -maxSpeed / 2.0)
      && (Abs(-maxSpeed / 2.0 - speed) <= acceleration * dt ==> r == -maxSpeed / 2.0)
    ensures acceleration * dt >= 0.0 && !keys.w && !keys.s ==>
      && Abs(r - speed) <= acceleration * 0.5 * dt
      && Between(r, speed, 0.0)
      && (Abs(speed) <= acceleration * 0.5 * dt ==> r == 0.0)
  {
    if keys.w then MoveTowards(speed, maxSpeed, acceleration * dt)
    else if keys.s then MoveTowards(speed, -maxSpeed / 2.0, acceleration * dt)
    else MoveTowards(speed, 0.0, acceleration * 0.5 * dt)
  }

  /** The speed envelope [-maxSpeed / 2, maxSpeed]. */
  predicate InEnvelope(speed: real, maxSpeed: real) {
    -maxSpeed / 2.0 <= speed <= maxSpeed
  }

  /** A frame of input never takes the speed out of its envelope. */
  lemma SpeedStaysInEnvelope(speed: real, keys: Keys, maxSpeed: real, acceleration: real, dt: real)
    requires maxSpeed >= 0.0 && acceleration >= 0.0 && dt >= 0.0
    requires InEnvelope(speed, maxSpeed)
    ensures InEnvelope(NextSpeed(speed, keys, maxSpeed, acceleration, dt), maxSpeed)
  {
    assert acceleration * dt >= 0.0;
  }

  /** One frame: the keys held and the frame time. */
  datatype Frame = Frame(keys: Keys, dt: real)

  /** The speed after a run of frames. */
  function SpeedAfter(speed: real, frames: seq<Frame>, maxSpeed: real, acceleration: real): real
    decreases |frames|
  {
    if frames == [] then speed
    else SpeedAfter(NextSpeed(speed, frames[0].keys, maxSpeed, acceleration, frames[0].dt),
                    frames[1..], maxSpeed, acceleration)
  }

  /** Over any run of frames with non-negative times the speed stays in its
      envelope. */
  lemma {:induction false} EnvelopeHoldsOverFrames(speed: real, frames: seq<Frame>, maxSpeed: real, acceleration: real)
    requires maxSpeed >= 0.0 && acceleration >= 0.0
    requires forall i :: 0 <= i < |frames| ==> frames[i].dt >= 0.0
    requires InEnvelope(speed, maxSpeed)
    ensures InEnvelope(SpeedAfter(speed, frames, maxSpeed, acceleration), maxSpeed)
    decreases |frames|
  {
    if frames != [] {
      SpeedStaysInEnvelope(speed, frames[0].keys, maxSpeed, acceleration, frames[0].dt);
      EnvelopeHoldsOverFrames(NextSpeed(speed, frames[0].keys, maxSpeed, acceleration, frames[0].dt),
                              frames[1..], maxSpeed, acceleration);
    }
  }

  /** The yaw change of one frame: A turns left, else D turns right, each at
      `rotationSpeed` degrees per second; otherwise the heading is kept. */
  function YawDelta(keys: Keys, rotationSpeed: real, dt: real): (r: real)
    ensures keys.a ==> r == -rotationSpeed * dt
    ensures !keys.a && keys.d ==> r == rotationSpeed * dt
    ensures !keys.a && !keys.d ==> r == 0.0
    ensures Abs(r) <= Abs(rotationSpeed * dt)
  {
    if keys.a then -rotationSpeed * dt
    else if keys.d then rotationSpeed * dt
    else 0.0
  }

  /** The wake particle emission rate for a speed. */
  function WakeRate(speed: real): (r: real)
    ensures r >= 0.0
    ensures r == 0.0 <==> speed == 0.0
    ensures r == 2.0 * Abs(speed)
  {
    Abs(speed) * 2.0
  }

  /** The displacement of one physics step: forward times speed times step. */
  function Displacement(forward: Vector3, speed: real, fixedDt: real): (v: Vector3)
    ensures v == forward.Scale(speed * fixedDt)
    ensures speed == 0.0 || fixedDt == 0.0 ==> v == Zero
  {
    forward.Scale(speed).Scale(fixedDt)
  }

  /** Two steps at the same speed move the ship as far as one step of their
      combined length: the displacement is linear in the step time. */
  lemma DisplacementAddsUp(forward: Vector3, speed: real, dt1: real, dt2: real)
    ensures Displacement(forward, speed, dt1).Add(Displacement(forward, speed, dt2))
         == Displacement(forward, speed, dt1 + dt2)
  {
    var s1, s2 := speed * dt1, speed * dt2;
    assert speed * (dt1 + dt2) == s1 + s2;
    assert forward.x * s1 + forward.x * s2 == forward.x * (s1 + s2);
    assert forward.y * s1 + forward.y * s2 == forward.y * (s1 + s2);
    assert forward.z * s1 + forward.z * s2 == forward.z * (s1 + s2);
  }

  /** A force applied to the rigidbody at a world position. */
  datatype AppliedForce = AppliedForce(force: Vector3, position: Vector3)

  /** The lift a point `waterHeight - point.y` below the water receives: purely
      vertical, submersion times `buoyancyForce`, applied at the point. */
  function Lift(point: Vector3, waterHeight: real, buoyancyForce: real): (f: AppliedForce)
    ensures f.position == point
    ensures f.force == Vector3(0.0, (waterHeight - point.y) * buoyancyForce, 0.0)
  {
    var submersion := waterHeight - point.y;
    AppliedForce(Up.Scale(submersion).Scale(buoyancyForce), point)
  }

  /** The buoyancy rule for one point: nothing unless the point is strictly
      below the water height, otherwise its lift. */
  function Buoyancy(point: Vector3, waterHeight: real, buoyancyForce: real): (r: Option<AppliedForce>)
    ensures r.Some? <==> point.y < waterHeight
    ensures r.Some? ==> r.value == Lift(point, waterHeight, buoyancyForce)
  {
    if point.y < waterHeight then Some(Lift(point, waterHeight, buoyancyForce)) else None
  }

  /** For a positive `buoyancyForce` the lift of a submerged point is strictly
      upward, and a deeper point gets strictly more. */
  lemma LiftIsUpwardAndGrowsWithDepth(shallow: Vector3, deep: Vector3, waterHeight: real, buoyancyForce: real)
    requires buoyancyForce > 0.0
    requires deep.y <= shallow.y < waterHeight
    ensures Lift(shallow, waterHeight, buoyancyForce).force.y > 0.0
    ensures deep.y < shallow.y ==>
      Lift(deep, waterHeight, buoyancyForce).force.y > Lift(shallow, waterHeight, buoyancyForce).force.y
  {
    var d1, d2 := waterHeight - shallow.y, waterHeight - deep.y;
    assert d1 * buoyancyForce > 0.0;
    assert d2 * buoyancyForce == d1 * buoyancyForce + (d2 - d1) * buoyancyForce;
    assert deep.y < shallow.y ==> (d2 - d1) * buoyancyForce > 0.0;
  }

  /** The zero- or one-element sequence of an optional force. */
  function Emitted(f: Option<AppliedForce>): seq<AppliedForce> {
    if f.Some? then [f.value] else []
  }

  /** The forces the buoyancy loop applies for a list of points, in order: at
      most one per point, each applied at a position strictly below the water
      height. `ForcesAreLiftsOfSubmerged` states which force each one is. */
  function BuoyancyForces(points: seq<Vector3>, waterHeight: real, buoyancyForce: real): (r: seq<AppliedForce>)
    ensures |r| <= |points|
    ensures forall i :: 0 <= i < |r| ==> r[i].position.y < waterHeight
    decreases |points|
  {
    if points == [] then []
    else BuoyancyForces(points[..|points| - 1], waterHeight, buoyancyForce)
         + Emitted(Buoyancy(points[|points| - 1], waterHeight, buoyancyForce))
  }

  /** The points strictly below the water height. `SubmergedCounts` states
      that each occurs as often as in `points` and `SubmergedAppend` that their
      order is kept. */
  function Submerged(points: seq<Vector3>, waterHeight: real): (s: seq<Vector3>)
    ensures |s| <= |points|
    ensures forall i :: 0 <= i < |s| ==> s[i].y < waterHeight && s[i] in points
    ensures forall p :: p in points && p.y < waterHeight ==> p in s
    decreases |points|
  {
    if points == [] then []
    else
      var init, last := points[..|points| - 1], points[|points| - 1];
      assert points == init + [last];
      Submerged(init, waterHeight) + (if last.y < waterHeight then [last] else [])
  }

  /** Every point below the water height occurs in the filtered list as often
      as in `points`; no other point occurs in it. */
  lemma {:induction false} SubmergedCounts(points: seq<Vector3>, waterHeight: real)
    ensures forall p :: multiset(Submerged(points, waterHeight))[p]
                     == if p.y < waterHeight then multiset(points)[p] else 0
    decreases |points|
  {
    if points != [] {
      var init, last := points[..|points| - 1], points[|points| - 1];
      assert points == init + [last];
      SubmergedCounts(init, waterHeight);
    }
  }

  /** Filtering a concatenation filters each part and keeps them in order, so
      the submerged points appear in the order of `points`. */
  lemma {:induction false} SubmergedAppend(xs: seq<Vector3>, ys: seq<Vector3>, waterHeight: real)
    ensures Submerged(xs + ys, waterHeight) == Submerged(xs, waterHeight) + Submerged(ys, waterHeight)
    decreases |ys|
  {
    if ys == [] {
      assert xs + ys == xs;
    } else {
      var init, last := ys[..|ys| - 1], ys[|ys| - 1];
      var kept := if last.y < waterHeight then [last] else [];
      assert (xs + ys)[..|xs + ys| - 1] == xs + init;
      assert (xs + ys)[|xs + ys| - 1] == last;
      assert Submerged(xs + ys, waterHeight) == Submerged(xs + init, waterHeight) + kept;
      assert Submerged(ys, waterHeight) == Submerged(init, waterHeight) + kept;
      SubmergedAppend(xs, init, waterHeight);
      assert Submerged(xs, waterHeight) + Submerged(init, waterHeight) + kept
          == Submerged(xs, waterHeight) + (Submerged(init, waterHeight) + kept);
    }
  }

  /** The lift of each point of a list, in order. */
  function Lifts(points: seq<Vector3>, waterHeight: real, buoyancyForce: real): (r: seq<AppliedForce>)
    ensures |r| == |points|
    ensures forall i :: 0 <= i < |points| ==> r[i] == Lift(points[i], waterHeight, buoyancyForce)
    decreases |points|
  {
    if points == [] then []
    else Lifts(points[..|points| - 1], waterHeight, buoyancyForce)
         + [Lift(points[|points| - 1], waterHeight, buoyancyForce)]
  }

  /** The buoyancy loop applies exactly the lifts of the submerged points, one
      per point and in their order; the water height is the same for all. */
  lemma {:induction false} ForcesAreLiftsOfSubmerged(points: seq<Vector3>, waterHeight: real, buoyancyForce: real)
    ensures BuoyancyForces(points, waterHeight, buoyancyForce)
         == Lifts(Submerged(points, waterHeight), waterHeight, buoyancyForce)
    decreases |points|
  {
    if points != [] {
      var init, last := points[..|points| - 1], points[|points| - 1];
      ForcesAreLiftsOfSubmerged(init, waterHeight, buoyancyForce);
      var sub := Submerged(init, waterHeight);
      if last.y < waterHeight {
        assert (sub + [last])[..|sub + [last]| - 1] == sub;
      } else {
        assert sub + [] == sub;
      }
    }
  }

  /** How far a point is below the water height (0 at or above it). */
  function Depth(point: Vector3, waterHeight: real): real {
    if point.y < waterHeight then waterHeight - point.y else 0.0
  }

  /** Total submersion of a list of points. */
  function TotalSubmersion(points: seq<Vector3>, waterHeight: real): real
    decreases |points|
  {
    if points == [] then 0.0
    else TotalSubmersion(points[..|points| - 1], waterHeight) + Depth(points[|points| - 1], waterHeight)
  }

  /** Sum of the vertical components of a list of forces. */
  function TotalLift(forces: seq<AppliedForce>): real
    decreases |forces|
  {
    if forces == [] then 0.0 else TotalLift(forces[..|forces| - 1]) + forces[|forces| - 1].force.y
  }

  /** The lift of appended forces is the sum of the parts' lifts. */
  lemma {:induction false} TotalLiftAppend(xs: seq<AppliedForce>, ys: seq<AppliedForce>)
    ensures TotalLift(xs + ys) == TotalLift(xs) + TotalLift(ys)
    decreases |ys|
  {
    if ys == [] {
      assert xs + ys == xs;
    } else {
      assert (xs + ys)[..|xs + ys| - 1] == xs + ys[..|ys| - 1];
      assert (xs + ys)[|xs + ys| - 1] == ys[|ys| - 1];
      TotalLiftAppend(xs, ys[..|ys| - 1]);
    }
  }

  /** The lift one point contributes is its depth times `buoyancyForce`. */
  lemma PointLift(point: Vector3, waterHeight: real, buoyancyForce: real)
    ensures TotalLift(Emitted(Buoyancy(point, waterHeight, buoyancyForce)))
         == buoyancyForce * Depth(point, waterHeight)
  {
    var e := Emitted(Buoyancy(point, waterHeight, buoyancyForce));
    if point.y < waterHeight {
      assert e[..0] == [];
      assert TotalLift(e) == TotalLift([]) + e[0].force.y;
    }
  }

  /** One more point adds its own lift, `buoyancyForce` times its depth. */
  lemma TotalLiftStep(points: seq<Vector3>, waterHeight: real, buoyancyForce: real)
    requires points != []
    ensures TotalLift(BuoyancyForces(points, waterHeight, buoyancyForce))
         == TotalLift(BuoyancyForces(points[..|points| - 1], waterHeight, buoyancyForce))
            + buoyancyForce * Depth(points[|points| - 1], waterHeight)
  {
    var init, last := points[..|points| - 1], points[|points| - 1];
    PointLift(last, waterHeight, buoyancyForce);
    TotalLiftAppend(BuoyancyForces(init, waterHeight, buoyancyForce),
                    Emitted(Buoyancy(last, waterHeight, buoyancyForce)));
  }

  /** The arithmetic of one induction step: if a sum so far is `k` times the
      submersion so far, adding `k * d` to the sum and `d` to the submersion
      keeps that. */
  lemma LinearStep(k: real, total: real, totalBefore: real, sub: real, subBefore: real, d: real)
    requires totalBefore == k * subBefore
    requires total == totalBefore + k * d
    requires sub == subBefore + d
    ensures total == k * sub
  {
    assert k * (subBefore + d) == k * subBefore + k * d;
  }

  /** The sum of `k` times each point's depth. */
  function ScaledSubmersion(points: seq<Vector3>, waterHeight: real, k: real): real
    decreases |points|
  {
    if points == [] then 0.0
    else ScaledSubmersion(points[..|points| - 1], waterHeight, k) + k * Depth(points[|points| - 1], waterHeight)
  }

  /** The loop's total lift is the sum of `buoyancyForce` times each depth. */
  lemma {:induction false} LiftIsScaledSubmersion(points: seq<Vector3>, waterHeight: real, buoyancyForce: real)
    ensures TotalLift(BuoyancyForces(points, waterHeight, buoyancyForce))
         == ScaledSubmersion(points, waterHeight, buoyancyForce)
    decreases |points|
  {
    if points != [] {
      LiftIsScaledSubmersion(points[..|points| - 1], waterHeight, buoyancyForce);
      TotalLiftStep(points, waterHeight, buoyancyForce);
    }
  }

  /** Scaling each depth by `k` scales the total by `k`. */
  lemma {:induction false} ScaledSubmersionIsProduct(points: seq<Vector3>, waterHeight: real, k: real)
    ensures ScaledSubmersion(points, waterHeight, k) == k * TotalSubmersion(points, waterHeight)
    decreases |points|
  {
    if points != [] {
      var init, last := points[..|points| - 1], points[|points| - 1];
      ScaledSubmersionIsProduct(init, waterHeight, k);
      LinearStep(k, ScaledSubmersion(points, waterHeight, k), ScaledSubmersion(init, waterHeight, k),
                 TotalSubmersion(points, waterHeight), TotalSubmersion(init, waterHeight),
                 Depth(last, waterHeight));
    }
  }

  /** The ship's total lift is `buoyancyForce` times the total submersion of its
      points: the spring model is linear in depth. */
  lemma LiftIsLinearInSubmersion(points: seq<Vector3>, waterHeight: real, buoyancyForce: real)
    ensures TotalLift(BuoyancyForces(points, waterHeight, buoyancyForce))
         == buoyancyForce * TotalSubmersion(points, waterHeight)
  {
    LiftIsScaledSubmersion(points, waterHeight, buoyancyForce);
    ScaledSubmersionIsProduct(points, waterHeight, buoyancyForce);
  }

  /** The `ShipController` component. Tuning values and the water object's
      height are configuration; speed, yaw, wake rate, position and the forces
      applied to the rigidbody change as it runs. */
  class ShipController {
    const maxSpeed: real
    const acceleration: real
    const rotationSpeed: real
    const buoyancyForce: real
    const hasWake: bool
    const waterLevel: real
    var currentSpeed: real
    var yaw: real
    var wakeRate: real
    var position: Vector3
    var forces: seq<AppliedForce>

    /** A ship at rest; `waterLevel` is the water object's height. */
    constructor (maxSpeed: real, acceleration: real, rotationSpeed: real, buoyancyForce: real,
                 hasWake: bool, waterLevel: real, position: Vector3, yaw: real)
      ensures this.maxSpeed == maxSpeed && this.acceleration == acceleration
      ensures this.rotationSpeed == rotationSpeed && this.buoyancyForce == buoyancyForce
      ensures this.hasWake == hasWake && this.waterLevel == waterLevel
      ensures this.position == position && this.yaw == yaw
      ensures currentSpeed == 0.0 && wakeRate == 0.0 && forces == []
    {
      this.maxSpeed := maxSpeed;
      this.acceleration := acceleration;
      this.rotationSpeed := rotationSpeed;
      this.buoyancyForce := buoyancyForce;
      this.hasWake := hasWake;
      this.waterLevel := waterLevel;
      this.position := position;
      this.yaw := yaw;
      currentSpeed := 0.0;
      wakeRate := 0.0;
      forces := [];
    }

    /** One frame of keyboard input: throttle, rudder, then wake. */
    method HandleInput(keys: Keys, dt: real)
      modifies this
      ensures currentSpeed == NextSpeed(old(currentSpeed), keys, maxSpeed, acceleration, dt)
      ensures yaw == old(yaw) + YawDelta(keys, rotationSpeed, dt)
      ensures wakeRate == if hasWake then WakeRate(currentSpeed) else old(wakeRate)
      ensures maxSpeed >= 0.0 && acceleration >= 0.0 && dt >= 0.0 && InEnvelope(old(currentSpeed), maxSpeed)
              ==> InEnvelope(currentSpeed, maxSpeed)
      ensures position == old(position) && forces == old(forces)
    {
      if keys.w {
        currentSpeed := MoveTowards(currentSpeed, maxSpeed, acceleration * dt);
      } else if keys.s {
        currentSpeed := MoveTowards(currentSpeed, -maxSpeed / 2.0, acceleration * dt);
      } else {
        currentSpeed := MoveTowards(currentSpeed, 0.0, acceleration * 0.5 * dt);
      }

      if keys.a {
        yaw := yaw + -rotationSpeed * dt;
      } else if keys.d {
        yaw := yaw + rotationSpeed * dt;
      }

      if hasWake {
        wakeRate := Abs(currentSpeed) * 2.0;
      }

      if maxSpeed >= 0.0 && acceleration >= 0.0 && dt >= 0.0 && InEnvelope(old(currentSpeed), maxSpeed) {
        SpeedStaysInEnvelope(old(currentSpeed), keys, maxSpeed, acceleration, dt);
      }
    }

    /** One physics step of movement along `forward`. */
    method MoveShip(forward: Vector3, fixedDt: real)
      modifies this
      ensures position == old(position).Add(Displacement(forward, currentSpeed, fixedDt))
      ensures currentSpeed == old(currentSpeed) && yaw == old(yaw)
      ensures wakeRate == old(wakeRate) && forces == old(forces)
    {
      var movement := forward.Scale(currentSpeed).Scale(fixedDt);
      position := position.Add(movement);
    }

    /** The buoyancy loop: one force per point below the water height. */
    method ApplyBuoyancy(points: seq<Vector3>)
      modifies this
      ensures forces == old(forces) + BuoyancyForces(points, waterLevel, buoyancyForce)
      ensures currentSpeed == old(currentSpeed) && yaw == old(yaw)
      ensures wakeRate == old(wakeRate) && position == old(position)
    {
      var i := 0;
      while i < |points|
        invariant 0 <= i <= |points|
        invariant forces == old(forces) + BuoyancyForces(points[..i], waterLevel, buoyancyForce)
        invariant currentSpeed == old(currentSpeed) && yaw == old(yaw)
        invariant wakeRate == old(wakeRate) && position == old(position)
      {
        var point := points[i];
        var waterHeight := waterLevel;
        if point.y < waterHeight {
          var submersion := waterHeight - point.y;
          var force := Up.Scale(submersion).Scale(buoyancyForce);
          forces := forces + [AppliedForce(force, point)];
        }
        assert points[..i + 1][..i] == points[..i];
        i := i + 1;
      }
      assert points[..i] == points;
    }

    /** One physics step: buoyancy, then movement. */
    method FixedUpdate(points: seq<Vector3>, forward: Vector3, fixedDt: real)
      modifies this
      ensures forces == old(forces) + BuoyancyForces(points, waterLevel, buoyancyForce)
      ensures position == old(position).Add(Displacement(forward, currentSpeed, fixedDt))
      ensures currentSpeed == old(currentSpeed) && yaw == old(yaw) && wakeRate == old(wakeRate)
    {
      ApplyBuoyancy(points);
      MoveShip(forward, fixedDt);
    }
  }
}
