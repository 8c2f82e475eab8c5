/**
 * The parts of the game world that the craft and pipe code touch: block
 * states, a level (`ServerLevel`) as a mutable map of cells, chunk keys, and
 * the multiblock registry (`MultiblockHandler`). The registry's own code lies
 * outside the files modelled here; it is modelled as a list of instances per
 * chunk.
 */
module World {
  import opened Options
  import opened Geometry

  /** The block types the modelled code distinguishes; every other type is `OtherBlock`. */
  datatype Block = Air | WaxedCopperBlock | LightningRod | WaxedCutCopper | OtherBlock(id: nat)

  /** A block state: its type and, for directional blocks, the way it faces. */
  datatype BlockState = BlockState(block: Block, facing: Option<Direction>) {

    predicate IsAir() {
      block == Air
    }

    /** `BlockState.rotate`: directional blocks turn their facing, others are unchanged. */
    function Rotate(rotation: Rotation): (r: BlockState)
      ensures r.block == block && r.facing.Some? == facing.Some?
      ensures facing.Some? ==> r.facing.value == facing.value.Rotate(rotation)
    {
      match facing
      case None => this
      case Some(d) => BlockState(block, Some(d.Rotate(rotation)))
    }
  }

  const AirState := BlockState(Air, None)

  /** The state of cell `p`; a cell the map does not hold is air. */
  function StateAt(cells: map<BlockPos, BlockState>, p: BlockPos): (r: BlockState)
    ensures p !in cells ==> r == AirState
  {
    if p in cells then cells[p] else AirState
  }

  /** Writing one cell changes what that cell reads as and nothing else. */
  lemma StateAtUpdate(cells: map<BlockPos, BlockState>, p: BlockPos, s: BlockState, q: BlockPos)
    ensures StateAt(cells[p := s], q) == if q == p then s else StateAt(cells, q)
    ensures StateAt(cells[p := s], p) == s
  {
  }

  /** A cell that is not air. */
  predicate Solid(cells: map<BlockPos, BlockState>, p: BlockPos) {
    !StateAt(cells, p).IsAir()
  }

  /** Rotating never changes whether a state is air, and the zero rotation changes nothing. */
  lemma RotateKeepsBlock(s: BlockState, rotation: Rotation)
    ensures s.Rotate(rotation).IsAir() == s.IsAir()
    ensures s.Rotate(NoRotation) == s
  {
  }

  /** Rotating a state by `a` and then `b` is rotating it by `a.Then(b)`. */
  lemma RotateStateCompose(s: BlockState, a: Rotation, b: Rotation)
    ensures s.Rotate(a).Rotate(b) == s.Rotate(a.Then(b))
  {
    if s.facing.Some? {
      DirectionRotateCompose(s.facing.value, a, b);
    }
  }

  /** A dimension (`ServerLevel`): its cells change in place as blocks are set. */
  class Level {
    var blocks: map<BlockPos, BlockState>

    constructor (blocks: map<BlockPos, BlockState>)
      ensures this.blocks == blocks
    {
      this.blocks := blocks;
    }

    function GetBlockState(p: BlockPos): (r: BlockState)
      reads this
      ensures p !in blocks ==> r.IsAir()
    {
      StateAt(blocks, p)
    }
  }

  /** A chunk: a 16 by 16 column of a level. */
  datatype ChunkKey = ChunkKey(level: Level, x: int, z: int)

  /** `getChunkAt`: the chunk of `level` holding `p` (chunk coordinates are the block's shifted right by 4). */
  function ChunkAt(level: Level, p: BlockPos): (k: ChunkKey)
    ensures k.level == level
    ensures 16 * k.x <= p.x < 16 * k.x + 16 && 16 * k.z <= p.z < 16 * k.z + 16
  {
    ChunkKey(level, p.x / 16, p.z / 16)
  }

  /** A placed multiblock: its anchor block, level and facing. Its custom data is not modelled. */
  datatype MultiblockInstance = MultiblockInstance(id: nat, origin: BlockPos, world: Level, direction: Direction, kind: nat) {
    /** The chunk the instance is registered under. */
    function Chunk(): ChunkKey {
      ChunkAt(world, origin)
    }
  }

  /** `s` without any occurrence of `x`, order kept: what removing an instance from a chunk's list leaves. */
  function Without(s: seq<MultiblockInstance>, x: MultiblockInstance): (r: seq<MultiblockInstance>)
    ensures forall i :: 0 <= i < |r| ==> r[i] in s && r[i] != x
    ensures forall i :: 0 <= i < |s| && s[i] != x ==> s[i] in r
    ensures |r| <= |s|
  {
    if s == [] then []
    else if s[0] == x then Without(s[1..], x)
    else [s[0]] + Without(s[1..], x)
  }

  /**
   * `firstOrNull { it.origin == p }`: the first instance of `s` anchored at `p`.
   */
  function FirstAt(s: seq<MultiblockInstance>, p: BlockPos): (r: Option<MultiblockInstance>)
    ensures r.Some? ==> exists i :: 0 <= i < |s| && s[i] == r.value && r.value.origin == p
                                   && forall j :: 0 <= j < i ==> s[j].origin != p
    ensures r.None? <==> forall i :: 0 <= i < |s| ==> s[i].origin != p
  {
    if s == [] then None
    else if s[0].origin == p then Some(s[0])
    else
      var r := FirstAt(s[1..], p);
      if r.Some? then
        assert forall i :: 0 <= i < |s| - 1 ==> s[1..][i] == s[i + 1];
        r
      else r
  }

  /** The instances a registry map lists under `k`, none when `k` is unknown. */
  function ChunkList(chunks: map<ChunkKey, seq<MultiblockInstance>>, k: ChunkKey): (r: seq<MultiblockInstance>)
    ensures k !in chunks ==> r == []
  {
    if k in chunks then chunks[k] else []
  }

  /** The registry of placed multiblocks, keyed by chunk. */
  class MultiblockHandler {
    var chunks: map<ChunkKey, seq<MultiblockInstance>>

    constructor ()
      ensures chunks == map[]
    {
      chunks := map[];
    }

    /** `MultiblockHandler[chunk]`: the instances registered under `k`, none when `k` is unknown. */
    function Get(k: ChunkKey): seq<MultiblockInstance>
      reads this
    {
      ChunkList(chunks, k)
    }

    /** Every instance is listed under its own chunk. */
    ghost predicate Valid()
      reads this
    {
      forall k, i :: k in chunks && 0 <= i < |chunks[k]| ==> chunks[k][i].Chunk() == k
    }

    /** `MultiblockHandler[k].remove(mb)`. */
    method Remove(k: ChunkKey, mb: MultiblockInstance)
      modifies this
      ensures chunks == old(chunks)[k := Without(old(Get(k)), mb)]
      ensures forall x :: x in Get(k) <==> x in old(Get(k)) && x != mb
      ensures forall k', x :: x in ChunkList(chunks, k') <==> x in ChunkList(old(chunks), k') && !(k' == k && x == mb)
      ensures old(Valid()) ==> Valid()
    {
      chunks := chunks[k := Without(Get(k), mb)];
    }

    /** `MultiblockHandler[k].add(mb)`. */
    method Add(k: ChunkKey, mb: MultiblockInstance)
      modifies this
      ensures chunks == old(chunks)[k := old(Get(k)) + [mb]]
      ensures forall x :: x in Get(k) <==> x in old(Get(k)) || x == mb
      ensures forall k', x :: x in ChunkList(chunks, k') <==> x in ChunkList(old(chunks), k') || (k' == k && x == mb)
      ensures old(Valid()) && mb.Chunk() == k ==> Valid()
    {
      chunks := chunks[k := Get(k) + [mb]];
    }
  }
}
