/**
 * The boid of the older revision, app/boid.py. Its kinematics are those of the
 * newer one with the older constants; in addition it answers distance queries,
 * with +infinity for an absent partner, and its `display` is what clears the
 * steering accumulator. `LeaderBoid` is this class built with the image
 * "leader-boid.png".
 */
module LegacyBoids {
  import opened Options
  import opened Vectors
  import LegacyParams
  import Boids

  /** A distance, or Python's `float("inf")`. */
  datatype Distance = Finite(value: real) | Infinite

  const NormalImage: string := "normal-boid.png"
  const LeaderImage: string := "leader-boid.png"

  class Boid {
    const imageName: string
    var pos: Vec2
    var vel: Vec2
    var steering: Vec2
    var mass: real
    var wanderingAngle: real

    ghost predicate Valid()
      reads this
    {
      mass > 0.0
    }

    /** `Boid(pos=None, vel=None, name="normal-boid.png")`: every argument has a default; `draw` is numpy's random draw. */
    constructor(pos: Option<Vec2>, vel: Option<Vec2>, name: Option<string>, draw: real)
      ensures Valid()
      ensures this.pos == pos.GetOr(Zero) && this.vel == vel.GetOr(Zero)
      ensures steering == Zero && mass == 20.0 && imageName == name.GetOr(NormalImage)
      ensures wanderingAngle == Boids.WanderingAngle(draw)
    {
      imageName := if name.Some? then name.value else NormalImage;
      this.pos := if pos.Some? then pos.value else Zero;
      this.vel := if vel.Some? then vel.value else Zero;
      steering := Zero;
      mass := 20.0;
      wanderingAngle := Boids.WanderingAngle(draw);
    }

    /** Adds `force / mass`, truncated to `altMax` or else to the older maximum force, to the steering. */
    method Steer(force: Vec2, altMax: Option<real>, sqrt: real -> real)
      requires Valid()
      modifies this`steering
      ensures steering == Add(old(steering), Truncate(Div(force, mass), altMax.GetOr(LegacyParams.BoidMaxForce), sqrt))
      ensures IsSqrt(sqrt) && 0.0 <= altMax.GetOr(LegacyParams.BoidMaxForce) ==>
        Vectors.Dist(steering, old(steering), sqrt) <= altMax.GetOr(LegacyParams.BoidMaxForce)
    {
      var cap := if altMax.Some? then altMax.value else LegacyParams.BoidMaxForce;
      var added := Truncate(Div(force, mass), cap, sqrt);
      steering := Add(steering, added);
      assert Sub(steering, old(steering)) == added;
      if IsSqrt(sqrt) && 0.0 <= cap {
        TruncateBound(Div(force, mass), cap, sqrt);
      }
    }

    /** Distance to another boid; +infinity exactly when there is none. */
    function Dist(other: Boid?, sqrt: real -> real): (d: Distance)
      reads this, other
      ensures d.Infinite? <==> other == null
      ensures other != null && IsSqrt(sqrt) ==> 0.0 <= d.value && d.value * d.value == Vectors.Dist2(pos, other.pos)
    {
      if other == null then Infinite else Finite(Vectors.Dist(pos, other.pos, sqrt))
    }

    /** Squared distance to another boid; +infinity exactly when there is none. */
    function Dist2(other: Boid?): (d: Distance)
      reads this, other
      ensures d.Infinite? <==> other == null
      ensures other != null ==> 0.0 <= d.value && (d.value == 0.0 <==> pos == other.pos)
    {
      if other == null then Infinite else Finite(Vectors.Dist2(pos, other.pos))
    }

    /** Distance to a point. */
    function DistPos(p: Vec2, sqrt: real -> real): (d: real)
      reads this
      ensures IsSqrt(sqrt) ==> 0.0 <= d && d * d == DistPos2(p)
    {
      Vectors.Dist(pos, p, sqrt)
    }

    /** Squared distance to a point. */
    function DistPos2(p: Vec2): (d: real)
      reads this
      ensures 0.0 <= d && (d == 0.0 <==> pos == p)
    {
      Vectors.Dist2(pos, p)
    }

    /** Caps the velocity plus the steering at the maximum speed and advances the position; steering is kept. */
    method Update(sqrt: real -> real)
      modifies this`vel, this`pos
      ensures vel == Truncate(Add(old(vel), steering), LegacyParams.BoidMaxSpeed, sqrt)
      ensures pos == Add(old(pos), vel)
      ensures IsSqrt(sqrt) ==> Norm(vel, sqrt) <= LegacyParams.BoidMaxSpeed
    {
      vel := Truncate(Add(vel, steering), LegacyParams.BoidMaxSpeed, sqrt);
      pos := Add(pos, vel);
      if IsSqrt(sqrt) {
        TruncateBound(Add(old(vel), steering), LegacyParams.BoidMaxSpeed, sqrt);
      }
    }

    /** After drawing (not modelled), clears the steering accumulator; in this revision nothing else clears it. */
    method Display()
      modifies this`steering
      ensures steering == Zero
    {
      steering := Zero;
    }
  }

  /** `LeaderBoid(pos, vel)`: a boid with the leader image. */
  method NewLeader(pos: Option<Vec2>, vel: Option<Vec2>, draw: real) returns (b: Boid)
    ensures fresh(b) && b.Valid() && b.imageName == LeaderImage
    ensures b.pos == pos.GetOr(Zero) && b.vel == vel.GetOr(Zero) && b.steering == Zero && b.mass == 20.0
    ensures b.wanderingAngle == Boids.WanderingAngle(draw)
  {
    b := new Boid(pos, vel, Some(LeaderImage), draw);
  }

  /** Between two boids both distances are symmetric. */
  lemma DistSymmetric(a: Boid, b: Boid, sqrt: real -> real)
    ensures a.Dist(b, sqrt) == b.Dist(a, sqrt) && a.Dist2(b) == b.Dist2(a)
  {
    Vectors.DistSymmetric(a.pos, b.pos, sqrt);
  }

  /** For a present partner the squared distance is the square of the distance. */
  lemma DistSquared(a: Boid, b: Boid, sqrt: real -> real)
    requires IsSqrt(sqrt)
    ensures a.Dist2(b).value == a.Dist(b, sqrt).value * a.Dist(b, sqrt).value
    ensures a.DistPos2(b.pos) == a.Dist2(b).value && a.DistPos(b.pos, sqrt) == a.Dist(b, sqrt).value
  {
  }
}
