/** The numeric constants of pyboids/app/params.py (the newer revision). */
module Params {

  const ScreenWidth: int := 960
  const ScreenHeight: int := 720

  /** Width of one grid column in pixels (SCREEN_WIDTH // 12). */
  const Col: real := (ScreenWidth / 12) as real

  /** Height of one grid row in pixels (SCREEN_HEIGHT // 9). */
  const Row: real := (ScreenHeight / 9) as real

  const BoidMaxForce: real := 10.0
  const BoidMaxSpeed: real := 7.0

  /** The double nearest to pi, the value numpy's `np.pi` holds. */
  const Pi: real := 3.141592653589793
}

/** The numeric constants of app/params.py (the older revision). */
module LegacyParams {

  const ScreenWidth: int := 960
  const ScreenHeight: int := 720
  const Col: real := (ScreenWidth / 12) as real
  const Row: real := (ScreenHeight / 9) as real

  const BoidMaxForce: real := 0.8
  const BoidMaxSpeed: real := 7.0
}
