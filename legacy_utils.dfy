/**
 * The older revision's utilities, app/utils.py: the pixel/grid conversions with
 * that revision's constants, the mutable `Vector2` whose operators change its
 * storage in place, and the older `Button`.
 */
module LegacyUtils {
  import opened Options
  import opened Hovering
  import LegacyParams

  function PxToGrid(px: real, py: real): (g: (real, real))
    ensures g.0 * LegacyParams.Col == px && g.1 * LegacyParams.Row == py
  {
    (px / LegacyParams.Col, py / LegacyParams.Row)
  }

  function GridToPx(gx: real, gy: real): (p: (real, real))
    ensures p.0 / LegacyParams.Col == gx && p.1 / LegacyParams.Row == gy
  {
    (gx * LegacyParams.Col, gy * LegacyParams.Row)
  }

  /** The two conversions are inverse to each other. */
  lemma GridRoundTrip(x: real, y: real)
    ensures GridToPx(PxToGrid(x, y).0, PxToGrid(x, y).1) == (x, y)
    ensures PxToGrid(GridToPx(x, y).0, GridToPx(x, y).1) == (x, y)
  {
    var g := PxToGrid(x, y);
    var p := GridToPx(g.0, g.1);
    assert g.0 * LegacyParams.Col == x;
    assert p.0 == x && p.1 == y;
  }

  /**
   * A two-component vector over a numpy array that its operators update in
   * place: `v + w`, `v - w`, `v * s` and `v / s` change `v` and evaluate to None.
   */
  class Vector2 {
    var data: array<real>

    ghost predicate Valid()
      reads this
    {
      data.Length == 2
    }

    constructor(x: real, y: real)
      ensures Valid() && fresh(data) && Data() == (x, y)
    {
      data := new real[2] [x, y];
    }

    /** The `data` property, `tuple(self._data)`: the abstract value the other members are specified in. */
    function Data(): (real, real)
      reads this, data
      requires Valid()
    {
      (data[0], data[1])
    }

    /** The `x` property reads the first component of the data. */
    function GetX(): (x: real)
      reads this, data
      requires Valid()
      ensures x == Data().0
    {
      data[0]
    }

    /** The `y` property reads the second component of the data. */
    function GetY(): (y: real)
      reads this, data
      requires Valid()
      ensures y == Data().1
    {
      data[1]
    }

    method SetX(x: real)
      requires Valid()
      modifies data
      ensures Valid() && Data() == (x, old(Data()).1)
      ensures GetX() == x && GetY() == old(GetY())
    {
      data[0] := x;
    }

    /**
     * `set_y` as written: its body reads a name `y` that is defined nowhere, so
     * every call raises NameError before anything is stored.
     */
    method SetYAsWritten(x: real) returns (nameError: bool)
      requires Valid()
      ensures nameError && Data() == old(Data())
    {
      nameError := true;
    }

    /** `set_y` as intended: the second component becomes `y`, the first is kept. */
    method SetY(y: real)
      requires Valid()
      modifies data
      ensures Valid() && Data() == (old(Data()).0, y)
      ensures GetX() == old(GetX()) && GetY() == y
    {
      data[1] := y;
    }

    /** A new vector with the same components and storage of its own. */
    method Copy() returns (c: Vector2)
      requires Valid()
      ensures fresh(c) && fresh(c.data) && c.Valid() && c.Data() == Data()
    {
      c := new Vector2(data[0], data[1]);
    }

    /** `self._data += other._data`; `other` keeps its components unless it shares this storage. */
    method Add(other: Vector2)
      requires Valid() && other.Valid()
      modifies data
      ensures Valid() && Data() == (old(Data()).0 + old(other.Data()).0, old(Data()).1 + old(other.Data()).1)
      ensures other.data != data ==> other.Data() == old(other.Data())
    {
      var x, y := data[0] + other.data[0], data[1] + other.data[1];
      data[0], data[1] := x, y;
    }

    /** `self._data -= other._data`. */
    method Sub(other: Vector2)
      requires Valid() && other.Valid()
      modifies data
      ensures Valid() && Data() == (old(Data()).0 - old(other.Data()).0, old(Data()).1 - old(other.Data()).1)
      ensures other.data != data ==> other.Data() == old(other.Data())
    {
      var x, y := data[0] - other.data[0], data[1] - other.data[1];
      data[0], data[1] := x, y;
    }

    /** `self._data *= s`. */
    method Mul(s: real)
      requires Valid()
      modifies data
      ensures Valid()
      ensures Data().0 == old(Data()).0 * s
      ensures Data().1 == old(Data()).1 * s
    {
      var x, y := data[0] * s, data[1] * s;
      data[0], data[1] := x, y;
    }

    /** `self._data /= s`. */
    method TrueDiv(s: real)
      requires Valid() && s != 0.0
      modifies data
      ensures Valid() && Data() == (old(Data()).0 / s, old(Data()).1 / s)
    {
      var x, y := data[0] / s, data[1] / s;
      data[0], data[1] := x, y;
    }
  }

  /** Setting y to 1 on the vector (0, 0): the setter as written leaves 0 there, the intended one stores 1. */
  method SetYDiscrepancy() returns (asWritten: real, intended: real)
    ensures asWritten == 0.0 && intended == 1.0
  {
    var v := new Vector2(0.0, 0.0);
    var nameError := v.SetYAsWritten(1.0);
    asWritten := v.GetY();
    var w := new Vector2(0.0, 0.0);
    w.SetY(1.0);
    intended := w.GetY();
  }

  /**
   * The older button. Without an action of its own it runs the class's default
   * action, which does nothing: `userAction` tells whether a supplied one ran.
   */
  class Button {
    const hasAction: bool
    var hover: bool

    constructor(hasAction: bool)
      ensures this.hasAction == hasAction && !hover
    {
      this.hasAction := hasAction;
      hover := false;
    }

    method Update(motion: Option<bool>, click: bool) returns (invoked: bool, userAction: bool)
      modifies this`hover
      ensures hover == NextHover(old(hover), motion)
      ensures motion.Some? ==> hover == motion.value
      ensures motion.None? ==> hover == old(hover)
      ensures invoked <==> click && hover
      ensures userAction <==> invoked && hasAction
    {
      if motion.Some? {
        var inside := motion.value;
        if hover && !inside {
          hover := false;
        } else if !hover && inside {
          hover := true;
        }
      }
      invoked := click && hover;
      userAction := invoked && hasAction;
    }
  }
}
