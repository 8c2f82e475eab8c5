/**
 * Block coordinates, the four horizontal facings and quarter-turn rotations.
 *
 * The rotation helpers that the modelled code calls (`rotateCoordinates`,
 * `getRotFromNorth`, `Direction.rotate`) lie outside the files modelled here;
 * they are modelled as exact integer quarter turns about a vertical axis, clockwise
 * seen from above (x grows to the east, z to the south): one clockwise quarter
 * turn sends an offset (dx, dz) from the pivot to (-dz, dx).
 */
module Geometry {

  /** A position (or an offset) on the block grid. */
  datatype BlockPos = BlockPos(x: int, y: int, z: int) {

    function Offset(dx: int, dy: int, dz: int): (r: BlockPos)
      ensures r.Subtract(this) == BlockPos(dx, dy, dz)
    {
      BlockPos(x + dx, y + dy, z + dz)
    }

    function Add(v: BlockPos): (r: BlockPos)
      ensures r.Subtract(v) == this
    {
      BlockPos(x + v.x, y + v.y, z + v.z)
    }

    function Subtract(v: BlockPos): BlockPos {
      BlockPos(x - v.x, y - v.y, z - v.z)
    }

    function Negate(): (r: BlockPos)
      ensures this.Add(r) == BlockPos(0, 0, 0)
    {
      BlockPos(-x, -y, -z)
    }
  }

  /** Minecraft's `Rotation`: a whole number of clockwise quarter turns. */
  datatype Rotation = NoRotation | Clockwise90 | Clockwise180 | CounterClockwise90 {

    function QuarterTurns(): (n: nat)
      ensures n < 4
    {
      match this
      case NoRotation => 0
      case Clockwise90 => 1
      case Clockwise180 => 2
      case CounterClockwise90 => 3
    }

    /** This rotation followed by `other`. */
    function Then(other: Rotation): (r: Rotation)
      ensures r.QuarterTurns() == Wrap(QuarterTurns() + other.QuarterTurns())
    {
      RotationOf(QuarterTurns() + other.QuarterTurns())
    }

    /** The rotation that undoes this one. */
    function Inverse(): (r: Rotation)
      ensures Then(r) == NoRotation && r.Then(this) == NoRotation
    {
      RotationOf(4 - QuarterTurns())
    }
  }

  /** A count of quarter turns below eight, reduced to below four. */
  function Wrap(n: nat): (m: nat)
    requires n < 8
    ensures m < 4 && (m == n || m == n - 4)
  {
    if n >= 4 then n - 4 else n
  }

  /** The rotation by `n` clockwise quarter turns. */
  function RotationOf(n: nat): (r: Rotation)
    requires n < 8
    ensures r.QuarterTurns() == Wrap(n)
  {
    match Wrap(n)
    case 0 => NoRotation
    case 1 => Clockwise90
    case 2 => Clockwise180
    case 3 => CounterClockwise90
  }

  /** The four horizontal values of Minecraft's `Direction`. */
  datatype Direction = North | East | South | West {

    /** Clockwise quarter turns from NORTH. */
    function QuarterTurns(): (n: nat)
      ensures n < 4
    {
      match this
      case North => 0
      case East => 1
      case South => 2
      case West => 3
    }

    /** `getRotFromNorth`: the rotation that turns NORTH into this direction. */
    function GetRotFromNorth(): (r: Rotation)
      ensures r.QuarterTurns() == QuarterTurns()
    {
      RotationOf(QuarterTurns())
    }

    /** `Direction.rotate`: this direction turned by `rotation`. */
    function Rotate(rotation: Rotation): (d: Direction)
      ensures d.QuarterTurns() == Wrap(QuarterTurns() + rotation.QuarterTurns())
      ensures rotation == NoRotation ==> d == this
    {
      DirectionOf(QuarterTurns() + rotation.QuarterTurns())
    }
  }

  /** The direction `n` clockwise quarter turns from NORTH. */
  function DirectionOf(n: nat): (d: Direction)
    requires n < 8
    ensures d.QuarterTurns() == Wrap(n)
  {
    match Wrap(n)
    case 0 => North
    case 1 => East
    case 2 => South
    case 3 => West
  }

  /** Turning NORTH by a direction's rotation from NORTH gives that direction. */
  lemma RotFromNorthTurnsNorth(d: Direction)
    ensures North.Rotate(d.GetRotFromNorth()) == d
  {
  }

  /**
   * `rotateCoordinates`: `p` turned about the vertical axis through `pivot`.
   * The height never changes.
   */
  function RotateCoordinates(p: BlockPos, pivot: BlockPos, rotation: Rotation): (r: BlockPos)
    ensures r.y == p.y
    ensures rotation == NoRotation ==> r == p
  {
    var dx, dz := p.x - pivot.x, p.z - pivot.z;
    match rotation
    case NoRotation => p
    case Clockwise90 => BlockPos(pivot.x - dz, p.y, pivot.z + dx)
    case Clockwise180 => BlockPos(pivot.x - dx, p.y, pivot.z - dz)
    case CounterClockwise90 => BlockPos(pivot.x + dz, p.y, pivot.z - dx)
  }

  /** Turning by `a` and then by `b` about one pivot is turning by `a.Then(b)`. */
  lemma RotateCompose(p: BlockPos, pivot: BlockPos, a: Rotation, b: Rotation)
    ensures RotateCoordinates(RotateCoordinates(p, pivot, a), pivot, b)
            == RotateCoordinates(p, pivot, a.Then(b))
  {
    match b {
      case NoRotation =>
      case Clockwise90 =>
      case Clockwise180 =>
      case CounterClockwise90 =>
    }
  }

  /** The pivot is the fixed point of every rotation. */
  lemma RotatePivot(pivot: BlockPos, rotation: Rotation)
    ensures RotateCoordinates(pivot, pivot, rotation) == pivot
  {
  }

  /** Rotation commutes with translating the point and the pivot together. */
  lemma RotateTranslate(p: BlockPos, pivot: BlockPos, v: BlockPos, rotation: Rotation)
    ensures RotateCoordinates(p.Add(v), pivot.Add(v), rotation)
            == RotateCoordinates(p, pivot, rotation).Add(v)
  {
  }

  /** A rotation never sends two points to one. */
  lemma RotateInjective(p: BlockPos, q: BlockPos, pivot: BlockPos, rotation: Rotation)
    requires RotateCoordinates(p, pivot, rotation) == RotateCoordinates(q, pivot, rotation)
    ensures p == q
  {
  }

  /** Turning a facing by `a` and then by `b` is turning it by `a.Then(b)`. */
  lemma DirectionRotateCompose(d: Direction, a: Rotation, b: Rotation)
    ensures d.Rotate(a).Rotate(b) == d.Rotate(a.Then(b))
  {
    SameTurnsSameDirection(d.Rotate(a).Rotate(b), d.Rotate(a.Then(b)));
  }

  /** A direction is determined by its quarter turns from NORTH. */
  lemma SameTurnsSameDirection(d: Direction, e: Direction)
    requires d.QuarterTurns() == e.QuarterTurns()
    ensures d == e
  {
  }

  /** Four equal quarter-turn steps make a whole turn. */
  lemma FourStepsAreWhole(r: Rotation)
    ensures r.Then(r).Then(r).Then(r) == NoRotation
  {
  }

  /**
   * Four clockwise quarter turns about one pivot bring every point and every
   * facing back: with exact quarter turns, rotating a craft four times
   * restores its cells' positions and its direction.
   */
  lemma FourQuarterTurns(p: BlockPos, pivot: BlockPos, d: Direction)
    ensures RotateCoordinates(RotateCoordinates(RotateCoordinates(RotateCoordinates(p, pivot, Clockwise90),
              pivot, Clockwise90), pivot, Clockwise90), pivot, Clockwise90) == p
    ensures d.Rotate(Clockwise90).Rotate(Clockwise90).Rotate(Clockwise90).Rotate(Clockwise90) == d
  {
    var q := Clockwise90;
    FourStepsAreWhole(q);
    RotateCompose(p, pivot, q, q);
    RotateCompose(p, pivot, q.Then(q), q);
    RotateCompose(p, pivot, q.Then(q).Then(q), q);
    DirectionRotateCompose(d, q, q);
    DirectionRotateCompose(d, q.Then(q), q);
    DirectionRotateCompose(d, q.Then(q).Then(q), q);
    assert d.Rotate(NoRotation) == d;
  }
}
