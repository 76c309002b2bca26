/**
 * The boid of pyboids/app/boid.py: position, velocity, the steering accumulator
 * and the mass, updated in place by `steer`, `update` and `reset_frame`.
 * `LeaderBoid` differs from `Boid` only by its image file, so both are one class
 * here, told apart by `kind`.
 */
module Boids {
  import opened Options
  import opened Vectors
  import Params

  datatype Kind = Normal | Leader

  /** The sprite image of each kind; it is the only thing that tells a leader from a normal boid. */
  function ImageFile(kind: Kind): (file: string)
    ensures file == "leader-boid.png" <==> kind == Leader
  {
    match kind
    case Normal => "normal-boid.png"
    case Leader => "leader-boid.png"
  }

  /** `np.pi * (2 * np.random.rand() - 1)`, with the draw from [0, 1) passed in. */
  function WanderingAngle(draw: real): (angle: real)
    ensures 0.0 <= draw < 1.0 ==> -Params.Pi <= angle < Params.Pi
  {
    Params.Pi * (2.0 * draw - 1.0)
  }

  class Boid {
    const kind: Kind
    var pos: Vec2
    var vel: Vec2
    var steering: Vec2
    var mass: real
    var wanderingAngle: real

    /** Steering divides by the mass, so it must not be zero. */
    ghost predicate Valid()
      reads this
    {
      mass > 0.0
    }

    /** `Boid(pos=None, vel=None)`: missing vectors default to zero; `draw` is numpy's random draw. */
    constructor(pos: Option<Vec2>, vel: Option<Vec2>, kind: Kind, draw: real)
      ensures Valid()
      ensures this.pos == pos.GetOr(Zero) && this.vel == vel.GetOr(Zero)
      ensures steering == Zero && mass == 20.0 && this.kind == kind
      ensures wanderingAngle == WanderingAngle(draw)
    {
      this.kind := kind;
      this.pos := if pos.Some? then pos.value else Zero;
      this.vel := if vel.Some? then vel.value else Zero;
      steering := Zero;
      mass := 20.0;
      wanderingAngle := WanderingAngle(draw);
    }

    /**
     * Adds `force / mass`, truncated to `altMax` when given and to the global
     * maximum force otherwise, to the steering accumulator; nothing else changes.
     */
    method Steer(force: Vec2, altMax: Option<real>, sqrt: real -> real)
      requires Valid()
      modifies this`steering
      ensures steering == Add(old(steering), Truncate(Div(force, mass), altMax.GetOr(Params.BoidMaxForce), sqrt))
      ensures IsSqrt(sqrt) && 0.0 <= altMax.GetOr(Params.BoidMaxForce) ==>
        Dist(steering, old(steering), sqrt) <= altMax.GetOr(Params.BoidMaxForce)
    {
      var cap := if altMax.Some? then altMax.value else Params.BoidMaxForce;
      var added := Truncate(Div(force, mass), cap, sqrt);
      steering := Add(steering, added);
      assert Sub(steering, old(steering)) == added;
      if IsSqrt(sqrt) && 0.0 <= cap {
        TruncateBound(Div(force, mass), cap, sqrt);
      }
    }

    /**
     * Caps the velocity plus the steering at the maximum speed and advances the
     * position by the new velocity. The steering accumulator is left as it is.
     */
    method Update(sqrt: real -> real)
      modifies this`vel, this`pos
      ensures vel == Truncate(Add(old(vel), steering), Params.BoidMaxSpeed, sqrt)
      ensures pos == Add(old(pos), vel)
      ensures IsSqrt(sqrt) ==> Norm(vel, sqrt) <= Params.BoidMaxSpeed
      ensures steering == Zero && Norm(old(vel), sqrt) <= Params.BoidMaxSpeed ==> vel == old(vel)
    {
      vel := Truncate(Add(vel, steering), Params.BoidMaxSpeed, sqrt);
      pos := Add(pos, vel);
      if IsSqrt(sqrt) {
        TruncateBound(Add(old(vel), steering), Params.BoidMaxSpeed, sqrt);
      }
      if steering == Zero {
        assert Add(old(vel), steering) == old(vel);
      }
    }

    /** Clears the steering accumulator for the next frame. */
    method ResetFrame()
      modifies this`steering
      ensures steering == Zero
    {
      steering := Zero;
    }
  }
}
