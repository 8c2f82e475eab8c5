/**
 * Coordinates relative to an origin facing a horizontal direction
 * (net.stellarica.common.utils.OriginRelative).
 *
 * Both conversions turn by the direction's rotation from NORTH in the SAME
 * sense: `GetOriginRelative` turns the absolute point about the origin and
 * then subtracts the origin; `GetBlockPos` adds the origin and then turns the
 * result about the origin. The lemmas below show what follows: the two agree
 * with plain subtraction and addition for NORTH, the origin and the zero
 * offset correspond in every direction, heights are never rotated, and the
 * round trip turns a point by twice the direction's angle, which is the
 * identity only for NORTH and SOUTH.
 */
module Relative {
  import opened Geometry

  /** An offset from an origin, in the origin's own frame. */
  datatype OriginRelative = OriginRelative(x: int, y: int, z: int) {

    /** The instance form of `GetBlockPos`: this offset as an absolute position. */
    function ToBlockPos(origin: BlockPos, direction: Direction): (r: BlockPos)
      ensures r.y == origin.y + y
      ensures direction == North ==> r == BlockPos(origin.x + x, origin.y + y, origin.z + z)
      ensures GetOriginRelative(r, origin, direction)
              == Turned(this, direction.GetRotFromNorth().Then(direction.GetRotFromNorth()))
    {
      RoundTripFromRelative(this, origin, direction);
      GetBlockPos(this, origin, direction)
    }
  }

  const Zero := OriginRelative(0, 0, 0)

  /** `getOriginRelative`: the absolute block `loc` seen from `origin` facing `direction`. */
  function GetOriginRelative(loc: BlockPos, origin: BlockPos, direction: Direction): OriginRelative {
    var p := RotateCoordinates(loc, origin, direction.GetRotFromNorth()).Subtract(origin);
    OriginRelative(p.x, p.y, p.z)
  }

  /** `getBlockPos` of the companion object: the absolute block at offset `loc` from `origin`. */
  function GetBlockPos(loc: OriginRelative, origin: BlockPos, direction: Direction): BlockPos {
    RotateCoordinates(BlockPos(loc.x, loc.y, loc.z).Add(origin), origin, direction.GetRotFromNorth())
  }

  /** An offset turned about the zero offset. */
  function Turned(rel: OriginRelative, rotation: Rotation): (r: OriginRelative)
    ensures r.y == rel.y
  {
    var p := RotateCoordinates(BlockPos(rel.x, rel.y, rel.z), BlockPos(0, 0, 0), rotation);
    OriginRelative(p.x, p.y, p.z)
  }

  /** The instance form of `getBlockPos` is the companion form. */
  lemma InstanceIsCompanion(rel: OriginRelative, origin: BlockPos, direction: Direction)
    ensures rel.ToBlockPos(origin, direction) == GetBlockPos(rel, origin, direction)
  {
  }

  /** The origin itself is the zero offset, whatever the direction. */
  lemma OriginIsZero(origin: BlockPos, direction: Direction)
    ensures GetOriginRelative(origin, origin, direction) == Zero
  {
    RotatePivot(origin, direction.GetRotFromNorth());
  }

  /** The zero offset is the origin itself, whatever the direction. */
  lemma ZeroIsOrigin(origin: BlockPos, direction: Direction)
    ensures GetBlockPos(Zero, origin, direction) == origin
    ensures Zero.ToBlockPos(origin, direction) == origin
  {
    RotatePivot(origin, direction.GetRotFromNorth());
  }

  /** Rotation acts on x and z only: relative height is absolute height minus the origin's. */
  lemma HeightIsNotRotated(loc: BlockPos, rel: OriginRelative, origin: BlockPos, direction: Direction)
    ensures GetOriginRelative(loc, origin, direction).y == loc.y - origin.y
    ensures GetBlockPos(rel, origin, direction).y == rel.y + origin.y
  {
  }

  /** Facing NORTH, the conversions are subtraction and addition of the origin, and inverse to each other. */
  lemma NorthIsTranslation(loc: BlockPos, rel: OriginRelative, origin: BlockPos)
    ensures GetOriginRelative(loc, origin, North)
            == OriginRelative(loc.x - origin.x, loc.y - origin.y, loc.z - origin.z)
    ensures GetBlockPos(rel, origin, North) == BlockPos(rel.x + origin.x, rel.y + origin.y, rel.z + origin.z)
    ensures GetBlockPos(GetOriginRelative(loc, origin, North), origin, North) == loc
    ensures GetOriginRelative(GetBlockPos(rel, origin, North), origin, North) == rel
  {
  }

  /** Moving the point and the origin together does not change the relative offset
      and moves the absolute position by the same amount. */
  lemma TranslationInvariance(loc: BlockPos, rel: OriginRelative, origin: BlockPos, v: BlockPos, direction: Direction)
    ensures GetOriginRelative(loc.Add(v), origin.Add(v), direction) == GetOriginRelative(loc, origin, direction)
    ensures GetBlockPos(rel, origin.Add(v), direction) == GetBlockPos(rel, origin, direction).Add(v)
  {
    var r := direction.GetRotFromNorth();
    RotateTranslate(loc, origin, v, r);
    RotateTranslate(BlockPos(rel.x, rel.y, rel.z).Add(origin), origin, v, r);
    assert BlockPos(rel.x, rel.y, rel.z).Add(origin.Add(v)) == BlockPos(rel.x, rel.y, rel.z).Add(origin).Add(v);
  }

  /** Absolute, to relative, to absolute: the point turned about the origin by twice the direction's angle. */
  lemma RoundTripFromAbsolute(p: BlockPos, origin: BlockPos, direction: Direction)
    ensures GetBlockPos(GetOriginRelative(p, origin, direction), origin, direction)
            == RotateCoordinates(p, origin, direction.GetRotFromNorth().Then(direction.GetRotFromNorth()))
  {
    var r := direction.GetRotFromNorth();
    var q := RotateCoordinates(p, origin, r);
    var rel := GetOriginRelative(p, origin, direction);
    assert BlockPos(rel.x, rel.y, rel.z).Add(origin) == q;
    RotateCompose(p, origin, r, r);
  }

  /** Relative, to absolute, to relative: the offset turned by twice the direction's angle. */
  lemma RoundTripFromRelative(rel: OriginRelative, origin: BlockPos, direction: Direction)
    ensures GetOriginRelative(GetBlockPos(rel, origin, direction), origin, direction)
            == Turned(rel, direction.GetRotFromNorth().Then(direction.GetRotFromNorth()))
  {
    var r := direction.GetRotFromNorth();
    var p := BlockPos(rel.x, rel.y, rel.z).Add(origin);
    RotateCompose(p, origin, r, r);
    var zero := BlockPos(0, 0, 0);
    RotateTranslate(BlockPos(rel.x, rel.y, rel.z), zero, origin, r.Then(r));
    assert zero.Add(origin) == origin;
  }

  /**
   * The round trip from absolute coordinates is the identity for every point
   * exactly when the direction is NORTH or SOUTH; for EAST and WEST it
   * reflects points through the origin's column.
   */
  lemma RoundTripIsIdentityIff(origin: BlockPos, direction: Direction)
    ensures (forall p :: GetBlockPos(GetOriginRelative(p, origin, direction), origin, direction) == p)
            <==> (direction == North || direction == South)
  {
    if direction == North || direction == South {
      forall p ensures GetBlockPos(GetOriginRelative(p, origin, direction), origin, direction) == p {
        RoundTripFromAbsolute(p, origin, direction);
      }
    } else {
      var p := origin.Offset(1, 0, 0);
      RoundTripFromAbsolute(p, origin, direction);
      assert GetBlockPos(GetOriginRelative(p, origin, direction), origin, direction) == origin.Offset(-1, 0, 0);
    }
  }

  /** For EAST and WEST the round trip is the point reflection through the origin's column. */
  lemma RoundTripReflectsSideways(p: BlockPos, origin: BlockPos, direction: Direction)
    requires direction == East || direction == West
    ensures GetBlockPos(GetOriginRelative(p, origin, direction), origin, direction)
            == BlockPos(2 * origin.x - p.x, p.y, 2 * origin.z - p.z)
  {
    RoundTripFromAbsolute(p, origin, direction);
  }
}
