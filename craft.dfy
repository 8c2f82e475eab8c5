/**
 * A craft (`net.stellarica.server.crafts.Craft`): a set of blocks found by a
 * flood fill from its origin, then moved or turned as one.
 *
 * Moving goes through one pipeline for any position map (`Change`): compute
 * every block's target; in the same world, give up without touching anything
 * if some target is solid and not part of the craft, otherwise note the
 * targets' states first; place every block, turned, at its target, reading
 * its state from that note when it has one; set the cells left behind to air;
 * drop the multiblocks that can no longer be found and re-register the others
 * at their new place; finally update the world, origin and facing.
 */
module Crafts {
  import opened Options
  import opened Geometry
  import opened Relative
  import opened World
  import opened Flood

  /** `Craft.sizeLimit`. */
  const SizeLimit: nat := 500000

  /** `RelativeColumn`: an (x, z) column of origin-relative positions. */
  datatype RelativeColumn = RelativeColumn(x: int, z: int)

  /** The secondary constructor `RelativeColumn(pos)`. */
  function ColumnOf(pos: OriginRelative): RelativeColumn {
    RelativeColumn(pos.x, pos.z)
  }

  /** Where the blocks `s` go under `f`. */
  function Image(s: set<BlockPos>, f: BlockPos -> BlockPos): set<BlockPos> {
    set p | p in s :: f(p)
  }

  predicate Injective(s: set<BlockPos>, f: BlockPos -> BlockPos) {
    forall p, q :: p in s && q in s && f(p) == f(q) ==> p == q
  }

  /** Some block of `s` would land on a solid cell that is not one of `s`. */
  ghost predicate Collides(cells: map<BlockPos, BlockState>, s: set<BlockPos>, f: BlockPos -> BlockPos) {
    exists p :: p in s && Solid(cells, f(p)) && f(p) !in s
  }

  /**
   * `after` is `before` once the blocks `s`, as `source` holds them, have been
   * placed through `f`, turned by `rotation`, and the cells of `vacated` that
   * no block landed on have been set to air. A cell two blocks land on holds
   * one of them.
   */
  ghost predicate Placed(before: map<BlockPos, BlockState>, after: map<BlockPos, BlockState>,
                         source: map<BlockPos, BlockState>, s: set<BlockPos>, f: BlockPos -> BlockPos,
                         rotation: Rotation, vacated: set<BlockPos>) {
    && (forall t :: t in Image(s, f) ==>
          exists p :: p in s && f(p) == t && StateAt(after, t) == StateAt(source, p).Rotate(rotation))
    && (forall p :: p in vacated && p !in Image(s, f) ==> StateAt(after, p) == AirState)
    && (forall p :: p !in vacated && p !in Image(s, f) ==> StateAt(after, p) == StateAt(before, p))
  }

  /**
   * `after` is `before` once the blocks `s` have each moved from `p` to `f(p)`,
   * turned by `rotation`, and the cells they left that no block landed on
   * have become air: the form `Placed` takes when `f` is injective on `s`.
   */
  ghost predicate Shifted(before: map<BlockPos, BlockState>, after: map<BlockPos, BlockState>,
                          s: set<BlockPos>, f: BlockPos -> BlockPos, rotation: Rotation) {
    && (forall p :: p in s ==> StateAt(after, f(p)) == StateAt(before, p).Rotate(rotation))
    && (forall p :: p in s && p !in Image(s, f) ==> StateAt(after, p) == AirState)
    && (forall p :: p !in s && p !in Image(s, f) ==> StateAt(after, p) == StateAt(before, p))
  }

  /** `g` sends every image under `f` of a block of `s` back to that block. */
  predicate UndoneBy(s: set<BlockPos>, f: BlockPos -> BlockPos, g: BlockPos -> BlockPos) {
    forall p :: p in s ==> g(f(p)) == p
  }

  /** The instance a multiblock becomes when its craft moves (`MultiblockInstance(...)` in `change`). */
  function Relocated(mb: MultiblockInstance, f: BlockPos -> BlockPos, targetWorld: Level, rotation: Rotation)
    : (r: MultiblockInstance)
    ensures r.Chunk() == ChunkAt(targetWorld, f(mb.origin))
  {
    MultiblockInstance(mb.id, f(mb.origin), targetWorld, mb.direction.Rotate(rotation), mb.kind)
  }

  /**
   * Relocating an instance and then relocating the copy back, through a map
   * that undoes the first at its anchor and with rotations that cancel, into
   * its own world, gives the instance itself: only anchor, world and facing move.
   */
  lemma RelocatedBack(mb: MultiblockInstance, f: BlockPos -> BlockPos, g: BlockPos -> BlockPos, targetWorld: Level,
                      r1: Rotation, r2: Rotation)
    requires g(f(mb.origin)) == mb.origin && r1.Then(r2) == NoRotation
    ensures Relocated(Relocated(mb, f, targetWorld, r1), g, mb.world, r2) == mb
    ensures Relocated(mb, f, targetWorld, r1).id == mb.id && Relocated(mb, f, targetWorld, r1).kind == mb.kind
  {
    DirectionRotateCompose(mb.direction, r1, r2);
  }

  /** No relocated instance coincides with one of the instances being moved. */
  predicate NoClash(mbs: set<MultiblockInstance>, f: BlockPos -> BlockPos, targetWorld: Level, rotation: Rotation) {
    forall m {:trigger Relocated(m, f, targetWorld, rotation)} :: m in mbs ==> Relocated(m, f, targetWorld, rotation) !in mbs
  }

  /** `setBlockFast`: set one cell, skipping the write when it already holds `data`. */
  method SetBlockFast(level: Level, position: BlockPos, data: BlockState)
    modifies level
    ensures forall p :: StateAt(level.blocks, p) == if p == position then data else StateAt(old(level.blocks), p)
    ensures forall p :: StateAt(level.blocks, p) == StateAt(old(level.blocks)[position := data], p)
  {
    forall p {
      StateAtUpdate(level.blocks, position, data, p);
    }
    if level.GetBlockState(position) == data {
      return;
    }
    level.blocks := level.blocks[position := data];
  }

  /**
   * The collision check of `change` for a move within one world: blocked
   * exactly when some target is solid and not a block of the craft; when not
   * blocked, `original` holds every target's state before the move.
   */
  method SnapshotTargets(level: Level, s: set<BlockPos>, f: BlockPos -> BlockPos)
    returns (blocked: bool, original: map<BlockPos, BlockState>)
    ensures blocked <==> Collides(level.blocks, s, f)
    ensures !blocked ==> original == map t | t in Image(s, f) :: StateAt(level.blocks, t)
  {
    original := map[];
    var todo := Image(s, f);
    while todo != {}
      invariant todo <= Image(s, f)
      invariant original == map t | t in Image(s, f) - todo :: StateAt(level.blocks, t)
      invariant forall t :: t in Image(s, f) - todo ==> !Solid(level.blocks, t) || t in s
      decreases |todo|
    {
      var target :| target in todo;
      var state := level.GetBlockState(target);
      if !state.IsAir() && target !in s {
        var p :| p in s && f(p) == target;
        return true, original;
      }
      original := original[target := state];
      todo := todo - {target};
    }
    assert Image(s, f) - todo == Image(s, f);
    forall p | p in s
      ensures !Solid(level.blocks, f(p)) || f(p) in s
    {
      assert f(p) in Image(s, f);
    }
    blocked := false;
  }

  /**
   * The placing loop of `change`: every block of `s` is copied, turned, to
   * its target in `target`, its state read from `original` when noted there
   * and from `source` otherwise.
   */
  method PlaceTargets(source: Level, target: Level, original: map<BlockPos, BlockState>, s: set<BlockPos>,
                      f: BlockPos -> BlockPos, rotation: Rotation)
    returns (newDetected: set<BlockPos>)
    requires source == target ==> original == map t | t in Image(s, f) :: StateAt(source.blocks, t)
    requires source != target ==> original == map[]
    modifies target
    ensures newDetected == Image(s, f)
    ensures forall t :: t in Image(s, f) ==>
              exists p :: p in s && f(p) == t && StateAt(target.blocks, t) == StateAt(old(source.blocks), p).Rotate(rotation)
    ensures forall p :: p !in Image(s, f) ==> StateAt(target.blocks, p) == StateAt(old(target.blocks), p)
  {
    newDetected := {};
    var todo := s;
    ghost var src: map<BlockPos, BlockPos> := map[];
    while todo != {}
      invariant todo <= s
      invariant newDetected == src.Keys
      invariant forall p :: p in s && p !in todo ==> f(p) in src
      invariant PlacedSoFar(old(target.blocks), target.blocks, old(source.blocks), s, f, rotation, src)
      invariant source != target ==> source.blocks == old(source.blocks)
      decreases |todo|
    {
      var current :| current in todo;
      var currentBlock := if current in original then original[current] else source.GetBlockState(current);
      forall t | t in src
        ensures t in Image(s, f)
      {
        assert f(src[t]) in Image(s, f);
      }
      assert currentBlock == StateAt(old(source.blocks), current);
      ghost var before := target.blocks;
      SetBlockFast(target, f(current), currentBlock.Rotate(rotation));
      PlaceStep(old(target.blocks), before, target.blocks, old(source.blocks), s, f, rotation, src, current);
      newDetected := newDetected + {f(current)};
      src := src[f(current) := current];
      todo := todo - {current};
    }
    forall t | t in Image(s, f)
      ensures t in src
    {
      var p :| p in s && f(p) == t;
    }
  }

  /**
   * The cells of `src` hold the turned state of the block placed there;
   * every other cell of `after` is as in `before`.
   */
  ghost predicate PlacedSoFar(before: map<BlockPos, BlockState>, after: map<BlockPos, BlockState>,
                              source: map<BlockPos, BlockState>, s: set<BlockPos>, f: BlockPos -> BlockPos,
                              rotation: Rotation, src: map<BlockPos, BlockPos>) {
    && (forall t :: t in src ==> src[t] in s && f(src[t]) == t)
    && (forall t :: t in src ==> StateAt(after, t) == StateAt(source, src[t]).Rotate(rotation))
    && (forall p :: p !in src ==> StateAt(after, p) == StateAt(before, p))
  }

  /** Placing one more block keeps `PlacedSoFar`. */
  lemma PlaceStep(before: map<BlockPos, BlockState>, mid: map<BlockPos, BlockState>, after: map<BlockPos, BlockState>,
                  source: map<BlockPos, BlockState>, s: set<BlockPos>, f: BlockPos -> BlockPos, rotation: Rotation,
                  src: map<BlockPos, BlockPos>, current: BlockPos)
    requires current in s
    requires PlacedSoFar(before, mid, source, s, f, rotation, src)
    requires forall p :: StateAt(after, p)
                         == if p == f(current) then StateAt(source, current).Rotate(rotation) else StateAt(mid, p)
    ensures PlacedSoFar(before, after, source, s, f, rotation, src[f(current) := current])
  {
  }

  /** `forEach { setBlockFast(world, it, AIR) }` over the cells left behind. */
  method ClearVacated(level: Level, vacated: set<BlockPos>)
    modifies level
    ensures forall p :: StateAt(level.blocks, p) == if p in vacated then AirState else StateAt(old(level.blocks), p)
  {
    var todo := vacated;
    while todo != {}
      invariant todo <= vacated
      invariant forall p :: StateAt(level.blocks, p)
                            == if p in vacated - todo then AirState else StateAt(old(level.blocks), p)
      decreases |todo|
    {
      var p :| p in todo;
      SetBlockFast(level, p, AirState);
      todo := todo - {p};
    }
  }

  /**
   * Relative to the registry `orig`, the registry `now` has the instances of
   * `done` moved: an instance is listed under a chunk exactly when it was
   * listed there before and was not moved out of it, or it is the copy of a
   * moved instance anchored in that chunk.
   */
  ghost predicate Registered(orig: map<ChunkKey, seq<MultiblockInstance>>, now: map<ChunkKey, seq<MultiblockInstance>>,
                             done: set<MultiblockInstance>, f: BlockPos -> BlockPos, targetWorld: Level, rotation: Rotation) {
    && (forall k, i :: k in now && 0 <= i < |now[k]| ==>
          (now[k][i] in ChunkList(orig, k) && !(now[k][i] in done && now[k][i].Chunk() == k))
          || (exists m :: m in done && Relocated(m, f, targetWorld, rotation) == now[k][i] && now[k][i].Chunk() == k))
    && (forall k, i :: k in orig && 0 <= i < |orig[k]| && !(orig[k][i] in done && orig[k][i].Chunk() == k) ==>
          orig[k][i] in ChunkList(now, k))
    && (forall m :: m in done ==>
          Relocated(m, f, targetWorld, rotation) in ChunkList(now, Relocated(m, f, targetWorld, rotation).Chunk()))
  }

  /** Before anything moves, the registry is `Registered` with nothing moved. */
  lemma RegisteredStart(orig: map<ChunkKey, seq<MultiblockInstance>>, f: BlockPos -> BlockPos,
                        targetWorld: Level, rotation: Rotation)
    ensures Registered(orig, orig, {}, f, targetWorld, rotation)
  {
    forall k | k in orig
      ensures ChunkList(orig, k) == orig[k]
    {
    }
  }

  /** Removing one more instance and adding its copy keeps `Registered`. */
  lemma RelocateStep(orig: map<ChunkKey, seq<MultiblockInstance>>, mid: map<ChunkKey, seq<MultiblockInstance>>,
                     now: map<ChunkKey, seq<MultiblockInstance>>, mbs: set<MultiblockInstance>,
                     done: set<MultiblockInstance>, mb: MultiblockInstance,
                     f: BlockPos -> BlockPos, targetWorld: Level, rotation: Rotation)
    requires NoClash(mbs, f, targetWorld, rotation)
    requires done <= mbs && mb in mbs && mb !in done
    requires Registered(orig, mid, done, f, targetWorld, rotation)
    requires forall k, x :: x in ChunkList(now, k) <==>
               (x in ChunkList(mid, k) && !(k == mb.Chunk() && x == mb))
               || (k == Relocated(mb, f, targetWorld, rotation).Chunk() && x == Relocated(mb, f, targetWorld, rotation))
    ensures Registered(orig, now, done + {mb}, f, targetWorld, rotation)
  {
    var moved := Relocated(mb, f, targetWorld, rotation);
    var done' := done + {mb};
    forall k, i | k in now && 0 <= i < |now[k]|
      ensures (now[k][i] in ChunkList(orig, k) && !(now[k][i] in done' && now[k][i].Chunk() == k))
              || (exists m :: m in done' && Relocated(m, f, targetWorld, rotation) == now[k][i] && now[k][i].Chunk() == k)
    {
      var x := now[k][i];
      assert x in ChunkList(now, k);
      if x in ChunkList(mid, k) && !(k == mb.Chunk() && x == mb) {
        var j :| 0 <= j < |mid[k]| && mid[k][j] == x;
      } else {
        assert mb in done' && Relocated(mb, f, targetWorld, rotation) == x;
      }
    }
    forall k, i | k in orig && 0 <= i < |orig[k]| && !(orig[k][i] in done' && orig[k][i].Chunk() == k)
      ensures orig[k][i] in ChunkList(now, k)
    {
      assert orig[k][i] in ChunkList(mid, k);
    }
    forall m | m in done'
      ensures Relocated(m, f, targetWorld, rotation) in ChunkList(now, Relocated(m, f, targetWorld, rotation).Chunk())
    {
      if m != mb {
        assert Relocated(m, f, targetWorld, rotation) in ChunkList(mid, Relocated(m, f, targetWorld, rotation).Chunk());
        assert Relocated(m, f, targetWorld, rotation) != mb;
      }
    }
  }

  /**
   * The cells after `change` has moved the blocks `s` through `f`: within one
   * world, the blocks are placed and the cells left behind become air;
   * between two worlds, the blocks are placed in the target world and all of
   * their old cells become air.
   */
  ghost predicate BlocksMoved(world0: map<BlockPos, BlockState>, target0: map<BlockPos, BlockState>,
                              world1: map<BlockPos, BlockState>, target1: map<BlockPos, BlockState>, sameWorld: bool,
                              s: set<BlockPos>, f: BlockPos -> BlockPos, rotation: Rotation) {
    if sameWorld then Placed(world0, world1, world0, s, f, rotation, s)
    else Placed(target0, target1, world0, s, f, rotation, {}) && Placed(world0, world1, world0, {}, f, rotation, s)
  }

  /**
   * The block-moving part of `change`, up to the multiblocks: blocked
   * exactly when moving within one world onto a foreign solid cell, in which
   * case nothing changes; otherwise every block is placed through `f` and the
   * cells left behind become air.
   */
  method MoveBlocks(world: Level, targetWorld: Level, s: set<BlockPos>, f: BlockPos -> BlockPos, rotation: Rotation)
    returns (blocked: bool, newDetected: set<BlockPos>)
    modifies world, targetWorld
    ensures blocked <==> world == targetWorld && Collides(old(world.blocks), s, f)
    ensures blocked ==> world.blocks == old(world.blocks)
    ensures !blocked ==> newDetected == Image(s, f)
    ensures !blocked ==> BlocksMoved(old(world.blocks), old(targetWorld.blocks), world.blocks, targetWorld.blocks,
                                     world == targetWorld, s, f, rotation)
  {
    newDetected := {};
    var original: map<BlockPos, BlockState> := map[];
    if world == targetWorld {
      blocked, original := SnapshotTargets(world, s, f);
      if blocked {
        return;
      }
    }
    blocked := false;
    newDetected := PlaceTargets(world, targetWorld, original, s, f, rotation);
    var vacated := s;
    if world == targetWorld {
      vacated := vacated - newDetected;
    }
    ClearVacated(world, vacated);
  }

  /** One pass of the re-registration loop: `mb` leaves its chunk and `moved` joins its own. */
  method MoveInstance(handler: MultiblockHandler, mb: MultiblockInstance, moved: MultiblockInstance)
    modifies handler
    ensures forall k, x :: x in ChunkList(handler.chunks, k) <==>
              (x in ChunkList(old(handler.chunks), k) && !(k == mb.Chunk() && x == mb))
              || (k == moved.Chunk() && x == moved)
    ensures old(handler.Valid()) ==> handler.Valid()
  {
    handler.Remove(mb.Chunk(), mb);
    handler.Add(ChunkAt(moved.world, moved.origin), moved);
  }

  /**
   * The re-registration loop of `change`: each found instance is removed from
   * its chunk and its relocated copy added under the chunk of its new anchor.
   * When no relocated copy is itself one of the instances moved, the registry
   * ends up `Registered` for all of them.
   */
  method RelocateMultiblocks(handler: MultiblockHandler, mbs: set<MultiblockInstance>, f: BlockPos -> BlockPos,
                             targetWorld: Level, rotation: Rotation)
    modifies handler
    ensures RegistryMoved(old(handler.chunks), handler.chunks, mbs, f, targetWorld, rotation)
    ensures old(handler.Valid()) ==> handler.Valid()
  {
    var todo := mbs;
    ghost var done: set<MultiblockInstance> := {};
    RegisteredStart(handler.chunks, f, targetWorld, rotation);
    while todo != {}
      invariant todo <= mbs && done == mbs - todo
      invariant NoClash(mbs, f, targetWorld, rotation) ==>
                  Registered(old(handler.chunks), handler.chunks, done, f, targetWorld, rotation)
      invariant old(handler.Valid()) ==> handler.Valid()
      decreases |todo|
    {
      var mb :| mb in todo;
      var moved := Relocated(mb, f, targetWorld, rotation);
      ghost var mid := handler.chunks;
      MoveInstance(handler, mb, moved);
      if NoClash(mbs, f, targetWorld, rotation) {
        RelocateStep(old(handler.chunks), mid, handler.chunks, mbs, done, mb, f, targetWorld, rotation);
      }
      todo := todo - {mb};
      done := done + {mb};
    }
    assert done == mbs;
  }

  /** `Registered`, whenever no relocated copy is itself one of the instances moved. */
  ghost predicate RegistryMoved(orig: map<ChunkKey, seq<MultiblockInstance>>, now: map<ChunkKey, seq<MultiblockInstance>>,
                                mbs: set<MultiblockInstance>, f: BlockPos -> BlockPos, targetWorld: Level,
                                rotation: Rotation) {
    NoClash(mbs, f, targetWorld, rotation) ==> Registered(orig, now, mbs, f, targetWorld, rotation)
  }

  /** The position map of `move`: translation by `offset`. */
  function Translation(offset: BlockPos): BlockPos -> BlockPos {
    (p: BlockPos) => p.Add(offset)
  }

  /** The position map of `rotate`: a turn about the vertical axis through `pivot`. */
  function Turn(pivot: BlockPos, rotation: Rotation): BlockPos -> BlockPos {
    (p: BlockPos) => RotateCoordinates(p, pivot, rotation)
  }

  /** `getMultiblock` on a registry map, for a craft at `origin` facing `direction` in `world`. */
  function MultiblockAt(chunks: map<ChunkKey, seq<MultiblockInstance>>, world: Level, origin: BlockPos,
                        direction: Direction, pos: OriginRelative): Option<MultiblockInstance> {
    var mb := pos.ToBlockPos(origin, direction);
    FirstAt(ChunkList(chunks, ChunkAt(world, mb)), mb)
  }

  /** The anchors `change` keeps: those whose instance is still found. */
  function KeptAnchors(chunks: map<ChunkKey, seq<MultiblockInstance>>, world: Level, origin: BlockPos,
                       direction: Direction, anchors: set<OriginRelative>): set<OriginRelative> {
    set pos | pos in anchors && MultiblockAt(chunks, world, origin, direction, pos).Some?
  }

  /** The instances `change` finds for the anchors. */
  function FoundInstances(chunks: map<ChunkKey, seq<MultiblockInstance>>, world: Level, origin: BlockPos,
                          direction: Direction, anchors: set<OriginRelative>): set<MultiblockInstance> {
    set pos | pos in anchors && MultiblockAt(chunks, world, origin, direction, pos).Some?
            :: MultiblockAt(chunks, world, origin, direction, pos).value
  }

  /**
   * The anchors `change` keeps are among the craft's anchors, and every
   * instance it re-registers is the one `getMultiblock` finds for a kept
   * anchor: anchored at that anchor's absolute position and listed under the
   * chunk holding it. An anchor that is dropped has no instance of its chunk
   * anchored at its position.
   */
  lemma FoundAreKept(chunks: map<ChunkKey, seq<MultiblockInstance>>, world: Level, origin: BlockPos,
                     direction: Direction, anchors: set<OriginRelative>)
    ensures KeptAnchors(chunks, world, origin, direction, anchors) <= anchors
    ensures forall m :: m in FoundInstances(chunks, world, origin, direction, anchors) ==>
              exists pos :: pos in KeptAnchors(chunks, world, origin, direction, anchors)
                            && m.origin == pos.ToBlockPos(origin, direction)
                            && m in ChunkList(chunks, ChunkAt(world, m.origin))
    ensures forall pos, m :: pos in anchors && pos !in KeptAnchors(chunks, world, origin, direction, anchors)
              && m in ChunkList(chunks, ChunkAt(world, pos.ToBlockPos(origin, direction)))
              ==> m.origin != pos.ToBlockPos(origin, direction)
  {
    var kept := KeptAnchors(chunks, world, origin, direction, anchors);
    forall m | m in FoundInstances(chunks, world, origin, direction, anchors)
      ensures exists pos :: pos in kept && m.origin == pos.ToBlockPos(origin, direction)
                            && m in ChunkList(chunks, ChunkAt(world, m.origin))
    {
      var pos :| pos in anchors && MultiblockAt(chunks, world, origin, direction, pos).Some?
                 && m == MultiblockAt(chunks, world, origin, direction, pos).value;
      var at := pos.ToBlockPos(origin, direction);
      var list := ChunkList(chunks, ChunkAt(world, at));
      assert FirstAt(list, at).Some? && FirstAt(list, at).value == m;
      var i :| 0 <= i < |list| && list[i] == m && m.origin == at;
      assert pos in kept && m in list;
    }
    forall pos, m | pos in anchors && pos !in kept
                    && m in ChunkList(chunks, ChunkAt(world, pos.ToBlockPos(origin, direction)))
      ensures m.origin != pos.ToBlockPos(origin, direction)
    {
      var at := pos.ToBlockPos(origin, direction);
      var list := ChunkList(chunks, ChunkAt(world, at));
      assert FirstAt(list, at).None?;
      var i :| 0 <= i < |list| && list[i] == m;
    }
  }

  /**
   * The multiblock step of `detect`: the origin-relative anchors of the
   * instances registered under `chunks` whose anchor is one of `detected`.
   */
  function Anchored(handler: MultiblockHandler, chunks: set<ChunkKey>, detected: set<BlockPos>,
                    origin: BlockPos, direction: Direction): (r: set<OriginRelative>)
    reads handler
    ensures forall k, i :: k in chunks && 0 <= i < |handler.Get(k)| && handler.Get(k)[i].origin in detected ==>
              GetOriginRelative(handler.Get(k)[i].origin, origin, direction) in r
    ensures forall rel :: rel in r ==>
              exists k, i :: (k in chunks && 0 <= i < |handler.Get(k)| && handler.Get(k)[i].origin in detected
                              && rel == GetOriginRelative(handler.Get(k)[i].origin, origin, direction))
    ensures detected == {} ==> r == {}
  {
    set k, mb | k in chunks && mb in handler.Get(k) && mb.origin in detected
              :: GetOriginRelative(mb.origin, origin, direction)
  }

  /**
   * What `detect` records, `getMultiblock` finds again when the craft faces
   * NORTH or SOUTH: every recorded anchor leads to an instance anchored at a
   * detected block. (Facing EAST or WEST the lookup goes to the anchor
   * reflected through the origin's column; see `RoundTripReflectsSideways`.)
   */
  lemma AnchoredFound(handler: MultiblockHandler, world: Level, detected: set<BlockPos>, origin: BlockPos,
                      direction: Direction, rel: OriginRelative)
    requires handler.Valid() && (direction == North || direction == South)
    requires rel in Anchored(handler, ChunksOf(world, detected), detected, origin, direction)
    ensures MultiblockAt(handler.chunks, world, origin, direction, rel).Some?
    ensures MultiblockAt(handler.chunks, world, origin, direction, rel).value.origin in detected
  {
    var k, i :| k in ChunksOf(world, detected) && 0 <= i < |handler.Get(k)| && handler.Get(k)[i].origin in detected
                && rel == GetOriginRelative(handler.Get(k)[i].origin, origin, direction);
    var s := handler.Get(k);
    var mb := s[i];
    assert k.level == world by {
      var p :| p in detected && ChunkAt(world, p) == k;
    }
    assert ChunkAt(world, mb.origin) == k by {
      assert k in handler.chunks && s == handler.chunks[k];
      assert mb.Chunk() == k;
    }
    calc {
      rel.ToBlockPos(origin, direction);
      GetBlockPos(GetOriginRelative(mb.origin, origin, direction), origin, direction);
      { RoundTripFromAbsolute(mb.origin, origin, direction); }
      RotateCoordinates(mb.origin, origin, direction.GetRotFromNorth().Then(direction.GetRotFromNorth()));
      { assert direction.GetRotFromNorth().Then(direction.GetRotFromNorth()) == NoRotation; }
      mb.origin;
    }
    assert FirstAt(s, mb.origin).Some?;
  }

  /** A moving, detectable set of blocks (`Craft`). */
  class Craft {
    /** Where detection starts and what the craft turns about. */
    var origin: BlockPos
    var direction: Direction
    var world: Level
    var detectedBlocks: set<BlockPos>
    /** The origin-relative anchors of the multiblocks on board. */
    var multiblocks: set<OriginRelative>
    /** Lowest and highest relative height per column. */
    var contents: map<RelativeColumn, (int, int)>

    constructor (origin: BlockPos, direction: Direction, world: Level)
      ensures this.origin == origin && this.direction == direction && this.world == world
      ensures detectedBlocks == {} && multiblocks == {} && contents == map[]
      ensures Valid()
    {
      this.origin := origin;
      this.direction := direction;
      this.world := world;
      detectedBlocks := {};
      multiblocks := {};
      contents := map[];
    }

    /**
     * What every operation keeps: the column extremes stay empty (the way
     * `calculateContents` is written, it never stores one), and detection
     * stops one block past the size limit.
     */
    ghost predicate Valid()
      reads this`contents, this`detectedBlocks
    {
      contents == map[] && |detectedBlocks| <= SizeLimit + 1
    }

    /**
     * `contains`: the absent position (`None`) is not inside, a detected block
     * always is; with no column extremes stored, exactly the detected blocks are.
     */
    function Contains(block: Option<BlockPos>): (r: bool)
      reads this`detectedBlocks, this`origin, this`direction, this`contents
      ensures block.None? ==> !r
      ensures block.Some? && block.value in detectedBlocks ==> r
      ensures contents == map[] ==> (r <==> block.Some? && block.value in detectedBlocks)
    {
      match block
      case None => false
      case Some(p) =>
        if p in detectedBlocks then true
        else
          var rel := GetOriginRelative(p, origin, direction);
          match Lookup(contents, ColumnOf(rel))
          case None => false
          case Some(extremes) => extremes.0 <= rel.y && extremes.1 >= rel.y
    }

    /**
     * `calculateContents`: clears the extremes and walks the detected blocks.
     * A column seen for the first time leaves the walk for that block before
     * anything is stored, so the map stays empty.
     */
    method CalculateContents()
      modifies this`contents
      ensures contents == map[]
    {
      var extremesOf: map<RelativeColumn, (int, int)> := map[];
      var rels := set p | p in detectedBlocks :: GetOriginRelative(p, origin, direction);
      while rels != {}
        invariant extremesOf == map[]
        decreases |rels|
      {
        var block :| block in rels;
        match Lookup(extremesOf, ColumnOf(block)) {
          case None =>
          case Some(extremes) =>
            if block.y < extremes.0 {
              extremesOf := extremesOf[ColumnOf(block) := (block.y, extremes.1)];
            } else if block.y > extremes.1 {
              extremesOf := extremesOf[ColumnOf(block) := (extremes.0, block.y)];
            }
        }
        rels := rels - {block};
      }
      contents := extremesOf;
    }

    /**
     * `getMultiblock`: the first instance registered under the chunk of the
     * absolute position of `pos` and anchored there; none when no instance
     * of that chunk is anchored there.
     */
    function GetMultiblock(handler: MultiblockHandler, pos: OriginRelative): (r: Option<MultiblockInstance>)
      reads this`origin, this`direction, this`world, handler
      ensures r.Some? ==> r.value.origin == pos.ToBlockPos(origin, direction)
                          && r.value in handler.Get(ChunkAt(world, pos.ToBlockPos(origin, direction)))
      ensures r.None? <==> forall i :: 0 <= i < |handler.Get(ChunkAt(world, pos.ToBlockPos(origin, direction)))| ==>
                             handler.Get(ChunkAt(world, pos.ToBlockPos(origin, direction)))[i].origin
                             != pos.ToBlockPos(origin, direction)
    {
      MultiblockAt(handler.chunks, world, origin, direction, pos)
    }

    /**
     * `detect`: flood fill from the previously detected blocks and the
     * origin over face-adjacent non-air cells. The result is the whole
     * connected component, or nothing when the component is larger than the
     * size limit. Then the multiblocks anchored at a detected block of a
     * visited chunk are recorded relative to the origin.
     */
    method Detect(handler: MultiblockHandler)
      modifies this`detectedBlocks, this`contents, this`multiblocks
      ensures Valid()
      ensures detectedBlocks == Component(world.blocks, old(detectedBlocks) + {origin})
              || (detectedBlocks == {} && |Component(world.blocks, old(detectedBlocks) + {origin})| > SizeLimit)
      ensures multiblocks == Anchored(handler, ChunksOf(world, detectedBlocks), detectedBlocks, origin, direction)
    {
      var chunks, tripped;
      detectedBlocks, chunks, tripped := FloodFill(world.blocks, world, SizeLimit, detectedBlocks + {origin});
      CalculateContents();
      multiblocks := Anchored(handler, chunks, detectedBlocks, origin, direction);
    }

    /**
     * `change`: move every detected block through `modifier` into
     * `targetWorld`, turning its state by `rotation`. Within one world,
     * when a target is a solid cell that is not a block of the craft,
     * nothing changes at all. Otherwise the blocks are placed, the cells
     * left behind become air, the anchors whose instance is no longer found
     * are dropped, the instances found are re-registered at their new place,
     * and the craft's world, origin and facing follow.
     */
    method Change(handler: MultiblockHandler, modifier: BlockPos -> BlockPos, targetWorld: Level, rotation: Rotation)
      requires Valid()
      modifies this, world, targetWorld, handler
      ensures Valid()
      ensures old(world) == targetWorld && Collides(old(world.blocks), old(detectedBlocks), modifier) ==>
                && detectedBlocks == old(detectedBlocks) && multiblocks == old(multiblocks)
                && world == old(world) && origin == old(origin) && direction == old(direction)
                && world.blocks == old(world.blocks) && handler.chunks == old(handler.chunks)
      ensures !(old(world) == targetWorld && Collides(old(world.blocks), old(detectedBlocks), modifier)) ==>
                && detectedBlocks == Image(old(detectedBlocks), modifier)
                && BlocksMoved(old(world.blocks), old(targetWorld.blocks), old(world).blocks, targetWorld.blocks,
                               old(world) == targetWorld, old(detectedBlocks), modifier, rotation)
                && multiblocks == KeptAnchors(old(handler.chunks), old(world), old(origin), old(direction), old(multiblocks))
                && RegistryMoved(old(handler.chunks), handler.chunks,
                                 FoundInstances(old(handler.chunks), old(world), old(origin), old(direction), old(multiblocks)),
                                 modifier, targetWorld, rotation)
                && world == targetWorld && origin == modifier(old(origin)) && direction == old(direction).Rotate(rotation)
      ensures old(handler.Valid()) ==> handler.Valid()
      ensures contents == old(contents)
    {
      var blocked, newDetected := MoveBlocks(world, targetWorld, detectedBlocks, modifier, rotation);
      if blocked {
        return;
      }
      ImageSmaller(detectedBlocks, modifier);
      var mbs := FoundInstances(handler.chunks, world, origin, direction, multiblocks);
      var kept := KeptAnchors(handler.chunks, world, origin, direction, multiblocks);
      Relink(handler, mbs, kept, newDetected, modifier, targetWorld, rotation);
    }

    /**
     * The part of `change` after the blocks have moved: the instances `mbs`
     * found for the anchors are re-registered, the anchors `kept` and the
     * moved blocks become the craft's, and its world, origin and facing follow.
     */
    method Relink(handler: MultiblockHandler, mbs: set<MultiblockInstance>, kept: set<OriginRelative>,
                  newDetected: set<BlockPos>, modifier: BlockPos -> BlockPos, targetWorld: Level, rotation: Rotation)
      requires Valid() && |newDetected| <= |detectedBlocks|
      modifies this, handler
      ensures Valid()
      ensures detectedBlocks == newDetected
      ensures multiblocks == kept
      ensures RegistryMoved(old(handler.chunks), handler.chunks, mbs, modifier, targetWorld, rotation)
      ensures world == targetWorld && origin == modifier(old(origin)) && direction == old(direction).Rotate(rotation)
      ensures old(handler.Valid()) ==> handler.Valid()
      ensures contents == old(contents)
    {
      RelocateMultiblocks(handler, mbs, modifier, targetWorld, rotation);
      detectedBlocks, multiblocks := newDetected, kept;
      world, origin, direction := targetWorld, modifier(origin), direction.Rotate(rotation);
    }

    /**
     * `move`: translate the craft by `offset` within its world. A collision
     * changes nothing; otherwise every block lands `offset` away, the cells
     * it left become air, and the origin moves with it.
     */
    method Move(handler: MultiblockHandler, offset: BlockPos)
      requires Valid()
      modifies this, world, handler
      ensures Valid()
      ensures Collides(old(world.blocks), old(detectedBlocks), Translation(offset)) ==>
                && detectedBlocks == old(detectedBlocks) && multiblocks == old(multiblocks)
                && origin == old(origin) && direction == old(direction)
                && world.blocks == old(world.blocks) && handler.chunks == old(handler.chunks)
      ensures !Collides(old(world.blocks), old(detectedBlocks), Translation(offset)) ==>
                && detectedBlocks == Image(old(detectedBlocks), Translation(offset))
                && Shifted(old(world.blocks), world.blocks, old(detectedBlocks), Translation(offset), NoRotation)
                && multiblocks == KeptAnchors(old(handler.chunks), world, old(origin), old(direction), old(multiblocks))
                && RegistryMoved(old(handler.chunks), handler.chunks,
                                 FoundInstances(old(handler.chunks), world, old(origin), old(direction), old(multiblocks)),
                                 Translation(offset), world, NoRotation)
                && origin == old(origin).Add(offset) && direction == old(direction)
      ensures world == old(world)
      ensures old(handler.Valid()) ==> handler.Valid()
    {
      ghost var cells, blocks := world.blocks, detectedBlocks;
      TranslationUndone(blocks, offset);
      Change(handler, Translation(offset), world, NoRotation);
      if !Collides(cells, blocks, Translation(offset)) {
        PlacedInjective(cells, world.blocks, blocks, Translation(offset), Translation(offset.Negate()), NoRotation);
      }
    }

    /**
     * `rotate`: turn the craft by `rotation` about its origin. A collision
     * changes nothing; otherwise every block lands at its turned position,
     * its state turned too, the cells it left become air, the origin stays
     * and the facing turns.
     */
    method Rotate(handler: MultiblockHandler, rotation: Rotation)
      requires Valid()
      modifies this, world, handler
      ensures Valid()
      ensures Collides(old(world.blocks), old(detectedBlocks), Turn(old(origin), rotation)) ==>
                && detectedBlocks == old(detectedBlocks) && multiblocks == old(multiblocks)
                && origin == old(origin) && direction == old(direction)
                && world.blocks == old(world.blocks) && handler.chunks == old(handler.chunks)
      ensures !Collides(old(world.blocks), old(detectedBlocks), Turn(old(origin), rotation)) ==>
                && detectedBlocks == Image(old(detectedBlocks), Turn(old(origin), rotation))
                && Shifted(old(world.blocks), world.blocks, old(detectedBlocks), Turn(old(origin), rotation), rotation)
                && multiblocks == KeptAnchors(old(handler.chunks), world, old(origin), old(direction), old(multiblocks))
                && RegistryMoved(old(handler.chunks), handler.chunks,
                                 FoundInstances(old(handler.chunks), world, old(origin), old(direction), old(multiblocks)),
                                 Turn(old(origin), rotation), world, rotation)
                && origin == old(origin) && direction == old(direction).Rotate(rotation)
      ensures world == old(world)
      ensures old(handler.Valid()) ==> handler.Valid()
    {
      ghost var cells, blocks := world.blocks, detectedBlocks;
      var pivot := origin;
      TurnUndone(blocks, pivot, rotation);
      RotatePivot(pivot, rotation);
      Change(handler, Turn(pivot, rotation), world, rotation);
      if !Collides(cells, blocks, Turn(pivot, rotation)) {
        PlacedInjective(cells, world.blocks, blocks, Turn(pivot, rotation), Turn(pivot, rotation.Inverse()), rotation);
      }
    }
  }

  /** There are never more targets than blocks. */
  lemma ImageSmaller(s: set<BlockPos>, f: BlockPos -> BlockPos)
    ensures |Image(s, f)| <= |s|
  {
    ImageCard(s, f);
  }

  /** There are no more targets than blocks, and exactly as many when no two blocks share a target. */
  lemma {:induction false} ImageCard(s: set<BlockPos>, f: BlockPos -> BlockPos)
    ensures |Image(s, f)| <= |s|
    ensures |Image(s, f)| == |s| <==> Injective(s, f)
    decreases |s|
  {
    if s != {} {
      var x :| x in s;
      if !Injective(s, f) {
        var p, q :| p in s && q in s && f(p) == f(q) && p != q;
        x := p;
      }
      var rest := s - {x};
      ImageCard(rest, f);
      assert Image(s, f) == Image(rest, f) + {f(x)};
      if f(x) in Image(rest, f) {
        var y :| y in rest && f(y) == f(x);
        assert !Injective(s, f);
      } else {
        assert Injective(s, f) == Injective(rest, f);
      }
    }
  }

  /** Within one world and for a position map that can be undone, `Placed` is `Shifted`. */
  lemma PlacedInjective(before: map<BlockPos, BlockState>, after: map<BlockPos, BlockState>, s: set<BlockPos>,
                        f: BlockPos -> BlockPos, g: BlockPos -> BlockPos, rotation: Rotation)
    requires UndoneBy(s, f, g)
    requires Placed(before, after, before, s, f, rotation, s)
    ensures Shifted(before, after, s, f, rotation)
  {
    forall p | p in s
      ensures StateAt(after, f(p)) == StateAt(before, p).Rotate(rotation)
    {
      assert f(p) in Image(s, f);
      var q :| q in s && f(q) == f(p) && StateAt(after, f(p)) == StateAt(before, q).Rotate(rotation);
      assert q == g(f(q)) == g(f(p)) == p;
    }
  }

  /** Translating by `-offset` undoes translating by `offset`. */
  lemma TranslationUndone(s: set<BlockPos>, offset: BlockPos)
    ensures UndoneBy(s, Translation(offset), Translation(offset.Negate()))
  {
  }

  /** Turning by the inverse rotation about the same pivot undoes a turn. */
  lemma TurnUndone(s: set<BlockPos>, pivot: BlockPos, rotation: Rotation)
    ensures UndoneBy(s, Turn(pivot, rotation), Turn(pivot, rotation.Inverse()))
  {
    forall p | p in s
      ensures Turn(pivot, rotation.Inverse())(Turn(pivot, rotation)(p)) == p
    {
      RotateCompose(p, pivot, rotation, rotation.Inverse());
    }
  }

  /** Moving the image of `s` back through `g` gives `s` again. */
  lemma ImageUndone(s: set<BlockPos>, f: BlockPos -> BlockPos, g: BlockPos -> BlockPos)
    requires UndoneBy(s, f, g)
    ensures Image(Image(s, f), g) == s
  {
    forall p | p in s
      ensures p in Image(Image(s, f), g)
    {
      assert f(p) in Image(s, f);
    }
  }

  /**
   * Once a craft has moved through a map `f` that `g` undoes, moving it back
   * through `g` never collides: every cell it goes back to is either one of
   * its blocks or a cell it left, which is air.
   */
  lemma BackNeverCollides(before: map<BlockPos, BlockState>, after: map<BlockPos, BlockState>, s: set<BlockPos>,
                          f: BlockPos -> BlockPos, g: BlockPos -> BlockPos, rotation: Rotation)
    requires UndoneBy(s, f, g)
    requires Shifted(before, after, s, f, rotation)
    ensures !Collides(after, Image(s, f), g)
  {
    ImageUndone(s, f, g);
    forall q | q in Image(s, f) && g(q) !in Image(s, f)
      ensures !Solid(after, g(q))
    {
      var p :| p in s && f(p) == q;
      assert g(q) == p;
    }
  }

  /**
   * Moving a craft through `f` and back through `g`, with rotations that
   * cancel, restores every block and every cell outside both footprints;
   * the cells only the moved craft covered become air, and were air before.
   */
  lemma RoundTrip(w0: map<BlockPos, BlockState>, w1: map<BlockPos, BlockState>, w2: map<BlockPos, BlockState>,
                  s: set<BlockPos>, f: BlockPos -> BlockPos, g: BlockPos -> BlockPos, r1: Rotation, r2: Rotation)
    requires UndoneBy(s, f, g) && r1.Then(r2) == NoRotation
    requires !Collides(w0, s, f)
    requires Shifted(w0, w1, s, f, r1)
    requires Shifted(w1, w2, Image(s, f), g, r2)
    ensures forall p :: p in s ==> StateAt(w2, p) == StateAt(w0, p)
    ensures forall p :: p !in s && p !in Image(s, f) ==> StateAt(w2, p) == StateAt(w0, p)
    ensures forall p :: p in Image(s, f) && p !in s ==> StateAt(w2, p) == AirState && !Solid(w0, p)
  {
    ImageUndone(s, f, g);
    forall p | p in s
      ensures StateAt(w2, p) == StateAt(w0, p)
    {
      assert f(p) in Image(s, f);
      assert g(f(p)) == p;
      RotateStateCompose(StateAt(w0, p), r1, r2);
      RotateKeepsBlock(StateAt(w0, p), NoRotation);
    }
    forall q | q in Image(s, f) && q !in s
      ensures !Solid(w0, q)
    {
      var p :| p in s && f(p) == q;
    }
  }

  /** Moving by `offset` and then by `-offset` with no collision restores the world and the blocks. */
  lemma MoveRoundTrip(w0: map<BlockPos, BlockState>, w1: map<BlockPos, BlockState>, w2: map<BlockPos, BlockState>,
                      s: set<BlockPos>, offset: BlockPos)
    requires !Collides(w0, s, Translation(offset))
    requires Shifted(w0, w1, s, Translation(offset), NoRotation)
    requires Shifted(w1, w2, Image(s, Translation(offset)), Translation(offset.Negate()), NoRotation)
    ensures forall p :: p in s ==> StateAt(w2, p) == StateAt(w0, p)
    ensures forall p :: p !in s && p !in Image(s, Translation(offset)) ==> StateAt(w2, p) == StateAt(w0, p)
  {
    TranslationUndone(s, offset);
    assert NoRotation.Then(NoRotation) == NoRotation;
    RoundTrip(w0, w1, w2, s, Translation(offset), Translation(offset.Negate()), NoRotation, NoRotation);
  }

  /**
   * After a move by `offset`, moving by `-offset` never collides and takes
   * the blocks back to `s` and the origin back to `origin`.
   */
  lemma MoveBack(w0: map<BlockPos, BlockState>, w1: map<BlockPos, BlockState>, s: set<BlockPos>, offset: BlockPos,
                 origin: BlockPos)
    requires Shifted(w0, w1, s, Translation(offset), NoRotation)
    ensures !Collides(w1, Image(s, Translation(offset)), Translation(offset.Negate()))
    ensures Image(Image(s, Translation(offset)), Translation(offset.Negate())) == s
    ensures origin.Add(offset).Add(offset.Negate()) == origin
  {
    TranslationUndone(s, offset);
    BackNeverCollides(w0, w1, s, Translation(offset), Translation(offset.Negate()), NoRotation);
    ImageUndone(s, Translation(offset), Translation(offset.Negate()));
  }

  /** After a turn by `rotation`, turning by its inverse about the same pivot never collides and takes the blocks back to `s`. */
  lemma RotateBack(w0: map<BlockPos, BlockState>, w1: map<BlockPos, BlockState>, s: set<BlockPos>, pivot: BlockPos,
                   rotation: Rotation)
    requires Shifted(w0, w1, s, Turn(pivot, rotation), rotation)
    ensures !Collides(w1, Image(s, Turn(pivot, rotation)), Turn(pivot, rotation.Inverse()))
    ensures Image(Image(s, Turn(pivot, rotation)), Turn(pivot, rotation.Inverse())) == s
  {
    TurnUndone(s, pivot, rotation);
    BackNeverCollides(w0, w1, s, Turn(pivot, rotation), Turn(pivot, rotation.Inverse()), rotation);
    ImageUndone(s, Turn(pivot, rotation), Turn(pivot, rotation.Inverse()));
  }

  /** Rotating by `rotation` and then back by its inverse with no collision restores the world and the blocks. */
  lemma RotateRoundTrip(w0: map<BlockPos, BlockState>, w1: map<BlockPos, BlockState>, w2: map<BlockPos, BlockState>,
                        s: set<BlockPos>, pivot: BlockPos, rotation: Rotation)
    requires !Collides(w0, s, Turn(pivot, rotation))
    requires Shifted(w0, w1, s, Turn(pivot, rotation), rotation)
    requires Shifted(w1, w2, Image(s, Turn(pivot, rotation)), Turn(pivot, rotation.Inverse()), rotation.Inverse())
    ensures forall p :: p in s ==> StateAt(w2, p) == StateAt(w0, p)
    ensures forall p :: p !in s && p !in Image(s, Turn(pivot, rotation)) ==> StateAt(w2, p) == StateAt(w0, p)
  {
    TurnUndone(s, pivot, rotation);
    assert rotation.Then(rotation.Inverse()) == NoRotation;
    RoundTrip(w0, w1, w2, s, Turn(pivot, rotation), Turn(pivot, rotation.Inverse()), rotation, rotation.Inverse());
  }
}
