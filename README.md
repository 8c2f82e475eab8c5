# Stellarica crafts, origin-relative coordinates and pipe networks in Dafny

This project models three parts of the Stellarica Minecraft server plugin and
proves properties of the model.

- **Crafts** (`craft.dfy`, `flood.dfy`). A `Craft` is a set of blocks found by
  a flood fill from its origin. It is moved (`move`) or turned about its origin
  (`rotate`) as one piece. Both go through `change`, which:
  - computes every block's target;
  - in the same world, gives up with nothing changed when a target is solid
    and not part of the craft;
  - otherwise:
    - notes the targets' states before writing anything;
    - places every block, with its state turned, at its target;
    - sets the cells left behind to air;
    - drops the multiblock anchors that are no longer found and re-registers
      the others at their new place;
    - moves the craft's world, origin and facing.

  The flood fill is `Flood.FloodFill`. It is proved complete and sound against
  the connected component of the seeds, with the size limit as written.
- **Origin-relative coordinates** (`relative.dfy`). These convert between
  absolute block positions and offsets from an origin facing a horizontal
  direction.
- **Pipe networks** (`pipes.dfy`). `PipeNetwork.detectDown` searches from the
  origin along the six axes, through lightning rods, for up to twenty cells:
  - it links every copper cell it meets to the cell it started from;
  - it descends into copper cells it has not detected yet;
  - it records waxed cut copper as inputs.

Supporting modules:

- `geometry.dfy`: block positions, the four horizontal facings and
  quarter-turn rotations.
- `world.dfy`: block states, a level as a mutable map of cells (`Level`), chunk
  keys, and the multiblock registry (`MultiblockHandler`).
- `options.dfy`: an `Option` type.

The world is a class (`Level`) whose cell map the craft methods change in
place; every craft method that writes a level names it in its `modifies`
frame. A craft and the registry are classes whose methods carry `modifies`
frames. A pipe network is a class too, but its search changes no field: it
takes the caller's sets and returns them grown. The searches are methods with
loop invariants, and the recursion of `detectDown` is a mutually recursive
group of methods whose termination is proved.

### Behaviour of the code as written

- **Column extremes.** The comment on `contents` (Craft.kt:73-78) says it holds
  the lowest and highest relative height of each column, so that `contains`
  can answer for blocks inside the hull that were not detected. As written the
  map is never filled. The default block that `getOrPut` runs for a new column
  ends in `return@forEach` (Craft.kt:104), which leaves the iteration before
  the pair is stored. So `contents` stays empty, and `contains` is exact
  membership in the detected blocks (`Crafts.Craft.Valid`,
  `Crafts.Craft.Contains`).
- **Size limit.** The limit message (Craft.kt:281) names `sizeLimit` blocks.
  The size test at Craft.kt:280 runs before the block is added at Craft.kt:287, so
  detection can keep `sizeLimit + 1` blocks. Tripping the test empties the
  result.
- **Seeds.** Detection starts from the previously detected blocks plus the
  origin (Craft.kt:262-263), not from the origin alone.
- **The conversion round trip.** The comment at Craft.kt:100 asks whether the
  conversion "might cause issues" when the direction is not NORTH. Both
  conversions turn by the direction's rotation from NORTH in the same sense
  (OriginRelative.kt:33 and :43). Converting to relative and back therefore
  turns a point by twice that angle, which is the identity only for NORTH and
  SOUTH (`Relative.RoundTripIsIdentityIff`). Facing EAST or WEST, a multiblock
  anchor recorded by `detect` is looked up by `getMultiblock` at its
  reflection through the origin's column.

## Model

| member | source | states |
|---|---|---|
| Geometry.Direction.Rotate | server/paper/src/main/kotlin/net/stellarica/server/crafts/Craft.kt:256 | a facing turned by a rotation has the sum of the quarter turns, wrapped; the zero rotation keeps it |
| Geometry.RotateCoordinates | server/paper/src/main/kotlin/net/stellarica/server/crafts/Craft.kt:139 | a turn about a vertical axis never changes the height, and the zero rotation is the identity |
| Geometry.RotateCompose | server/paper/src/main/kotlin/net/stellarica/server/crafts/Craft.kt:139 | turning by `a` then `b` about one pivot is turning by `a` followed by `b` |
| Geometry.RotateInjective | server/paper/src/main/kotlin/net/stellarica/server/crafts/Craft.kt:139 | a turn never sends two points to one |
| Geometry.FourQuarterTurns | server/paper/src/main/kotlin/net/stellarica/server/crafts/Craft.kt:137-141 | four quarter turns about one pivot bring every point, and every facing, back to where it started |
| Geometry.Direction.GetRotFromNorth | common/src/main/kotlin/net/stellarica/common/utils/OriginRelative.kt:33 | the rotation from NORTH has as many quarter turns as the facing; `Geometry.RotFromNorthTurnsNorth` shows it takes NORTH to the facing |
| Geometry.RotFromNorthTurnsNorth | common/src/main/kotlin/net/stellarica/common/utils/OriginRelative.kt:33 | turning NORTH by a direction's rotation from NORTH gives that direction |
| Relative.GetOriginRelative | common/src/main/kotlin/net/stellarica/common/utils/OriginRelative.kt:32-37 | no contract of its own: the origin is the zero offset (`Relative.OriginIsZero`), facing NORTH it subtracts the origin (`Relative.NorthIsTranslation`), height is never turned (`Relative.HeightIsNotRotated`), and followed by `getBlockPos` it turns a point by twice the facing's angle (`Relative.RoundTripFromAbsolute`) |
| Relative.GetBlockPos | common/src/main/kotlin/net/stellarica/common/utils/OriginRelative.kt:39-45 | no contract of its own: the zero offset is the origin (`Relative.ZeroIsOrigin`), facing NORTH it adds the origin (`Relative.NorthIsTranslation`), followed by `getOriginRelative` it turns an offset by twice the facing's angle (`Relative.RoundTripFromRelative`), and `Pipes.UnrelativeUndoes` gives its inverse |
| Relative.OriginRelative.ToBlockPos | common/src/main/kotlin/net/stellarica/common/utils/OriginRelative.kt:26-28 | the absolute position of an offset: its height is the origin's plus the offset's; facing NORTH it is origin plus offset; converting back gives the offset turned twice |
| Relative.InstanceIsCompanion | common/src/main/kotlin/net/stellarica/common/utils/OriginRelative.kt:26-28 | the instance `getBlockPos` equals the companion `getBlockPos` |
| Relative.OriginIsZero | common/src/main/kotlin/net/stellarica/common/utils/OriginRelative.kt:32-37 | the origin is the zero offset in every direction |
| Relative.ZeroIsOrigin | common/src/main/kotlin/net/stellarica/common/utils/OriginRelative.kt:39-45 | the zero offset is the origin in every direction, in both forms |
| Relative.HeightIsNotRotated | common/src/main/kotlin/net/stellarica/common/utils/OriginRelative.kt:32-45 | relative height is absolute height minus the origin's, and back |
| Relative.NorthIsTranslation | common/src/main/kotlin/net/stellarica/common/utils/OriginRelative.kt:32-45 | facing NORTH the conversions are subtraction and addition of the origin, and each undoes the other |
| Relative.TranslationInvariance | common/src/main/kotlin/net/stellarica/common/utils/OriginRelative.kt:32-45 | shifting point and origin together keeps the offset; shifting the origin shifts the absolute position equally |
| Relative.RoundTripFromAbsolute | common/src/main/kotlin/net/stellarica/common/utils/OriginRelative.kt:32-45 | absolute to relative to absolute turns the point about the origin by twice the direction's rotation |
| Relative.RoundTripFromRelative | common/src/main/kotlin/net/stellarica/common/utils/OriginRelative.kt:32-45 | relative to absolute to relative turns the offset by twice the direction's rotation |
| Relative.RoundTripIsIdentityIff | common/src/main/kotlin/net/stellarica/common/utils/OriginRelative.kt:32-45 | the round trip is the identity on every point if and only if the direction is NORTH or SOUTH |
| Relative.RoundTripReflectsSideways | common/src/main/kotlin/net/stellarica/common/utils/OriginRelative.kt:32-45 | facing EAST or WEST the round trip reflects a point through the origin's column |
| World.BlockState.Rotate | server/paper/src/main/kotlin/net/stellarica/server/crafts/Craft.kt:208 | turning a state keeps its block type and turns its facing, if it has one |
| World.StateAtUpdate | server/paper/src/main/kotlin/net/stellarica/server/crafts/Craft.kt:345-363 | writing one cell makes it read as the written state, and every other cell reads as before |
| World.ChunkAt | server/paper/src/main/kotlin/net/stellarica/server/crafts/Craft.kt:115 | the chunk of a block is in the block's level and is the 16 by 16 column holding it |
| World.FirstAt | server/paper/src/main/kotlin/net/stellarica/server/crafts/Craft.kt:115 | `firstOrNull`: the first instance anchored at the position, or none exactly when no instance of the list is anchored there |
| World.Without | server/paper/src/main/kotlin/net/stellarica/server/crafts/Craft.kt:247 | no kept element is the removed one, every other element is kept, and the list gets no longer |
| World.MultiblockHandler.Remove | server/paper/src/main/kotlin/net/stellarica/server/crafts/Craft.kt:247 | the instance leaves that chunk's list, every other listing stays, and the registry stays well formed |
| World.MultiblockHandler.Add | server/paper/src/main/kotlin/net/stellarica/server/crafts/Craft.kt:248 | the instance joins that chunk's list, every other listing stays, and an instance added under its own chunk keeps the registry well formed |
| Flood.Neighbours | server/paper/src/main/kotlin/net/stellarica/server/crafts/Craft.kt:291-309 | the six face neighbours are exactly the four queued unmarked and the two marked above and below, never the cell itself |
| Flood.Component | server/paper/src/main/kotlin/net/stellarica/server/crafts/Craft.kt:271-311 | the target of detection: a cell belongs exactly when it is solid and reached from a seed by a walk through solid face neighbours |
| Flood.ComponentClosed | server/paper/src/main/kotlin/net/stellarica/server/crafts/Craft.kt:291-309 | the component holds every solid seed and every solid neighbour of its cells |
| Flood.VisitCell | server/paper/src/main/kotlin/net/stellarica/server/crafts/Craft.kt:275-309 | one cell: air is skipped, past the limit the queue and detected set are emptied and the component is proved larger than the limit, otherwise the cell is detected and its neighbours queued, keeping the round invariant |
| Flood.DetectRound | server/paper/src/main/kotlin/net/stellarica/server/crafts/Craft.kt:272-310 | one pass over the queue keeps the search invariant and the chunk set, and either marks a new cell or lowers the rank of the queue |
| Flood.FloodFill | server/paper/src/main/kotlin/net/stellarica/server/crafts/Craft.kt:262-311 | the result is the whole component of the seeds with its chunks, or empty exactly when the limit was hit and the component is larger than the limit; at most limit + 1 blocks |
| Flood.NothingPendingMeansComplete | server/paper/src/main/kotlin/net/stellarica/server/crafts/Craft.kt:271 | when the queue runs empty, every cell of the component has been detected |
| Crafts.SetBlockFast | server/paper/src/main/kotlin/net/stellarica/server/crafts/Craft.kt:345-363 | afterwards the cell holds the state and no other cell changes; skipping an equal write has the same effect; the level reads as the old map updated at that cell (`World.StateAtUpdate`) |
| Crafts.SnapshotTargets | server/paper/src/main/kotlin/net/stellarica/server/crafts/Craft.kt:184-200 | blocked if and only if some target is solid and not a block of the craft; when not blocked, the note holds every target's state before the move |
| Crafts.PlaceTargets | server/paper/src/main/kotlin/net/stellarica/server/crafts/Craft.kt:203-210 | the new block set is the image of the old; every target holds the turned pre-move state of a block sent there, never a state written during this move; no other cell of the target world changes |
| Crafts.ClearVacated | server/paper/src/main/kotlin/net/stellarica/server/crafts/Craft.kt:230-231 | the vacated cells become air and no other cell changes |
| Crafts.MoveBlocks | server/paper/src/main/kotlin/net/stellarica/server/crafts/Craft.kt:179-231 | blocked if and only if moving within one world onto a foreign solid cell, and then the world is unchanged; otherwise the blocks are placed and the vacated cells (old minus new within one world, all old cells between two worlds) become air |
| Crafts.Relocated | server/paper/src/main/kotlin/net/stellarica/server/crafts/Craft.kt:239-246 | the copy of an instance sits in the chunk of its mapped anchor in the target world; `Crafts.RelocatedBack` shows it keeps id and type and is undone by the inverse move |
| Crafts.RelocatedBack | server/paper/src/main/kotlin/net/stellarica/server/crafts/Craft.kt:239-246 | the copy keeps the instance's id and type; relocating the copy back, with a map that undoes the first at the anchor and rotations that cancel, gives the original instance |
| Crafts.MoveInstance | server/paper/src/main/kotlin/net/stellarica/server/crafts/Craft.kt:247-248 | the instance leaves its chunk, its copy joins the chunk of its new anchor, everything else stays, and the registry stays well formed |
| Crafts.RelocateMultiblocks | server/paper/src/main/kotlin/net/stellarica/server/crafts/Craft.kt:238-249 | when no copy coincides with a moved instance: every listing is an unmoved old one or the copy of a moved instance in its own chunk, every unmoved listing stays, and every copy is listed; the registry stays well formed |
| Crafts.Anchored | server/paper/src/main/kotlin/net/stellarica/server/crafts/Craft.kt:327-334 | every detected instance of a visited chunk gives its relative anchor, every anchor comes from one, and an empty detected set gives none; `Crafts.AnchoredFound` shows `getMultiblock` finds each again facing NORTH or SOUTH |
| Crafts.KeptAnchors | server/paper/src/main/kotlin/net/stellarica/server/crafts/Craft.kt:237 | no contract of its own: `Crafts.FoundAreKept` shows the kept anchors are among the old ones and a dropped anchor has no instance of its chunk at its position |
| Crafts.FoundInstances | server/paper/src/main/kotlin/net/stellarica/server/crafts/Craft.kt:237 | no contract of its own: `Crafts.FoundAreKept` shows each found instance is anchored at a kept anchor's absolute position and listed under that position's chunk |
| Crafts.FoundAreKept | server/paper/src/main/kotlin/net/stellarica/server/crafts/Craft.kt:237 | `removeIf` keeps among the craft's anchors exactly those `getMultiblock` finds: every instance collected into `mbs` is anchored at a kept anchor and listed under its chunk, and a dropped anchor's chunk has no instance at its position |
| Crafts.AnchoredFound | server/paper/src/main/kotlin/net/stellarica/server/crafts/Craft.kt:113-116 | facing NORTH or SOUTH with a well-formed registry, every anchor `detect` records is found again by `getMultiblock`, at an instance anchored on a detected block |
| Crafts.Craft.constructor | server/paper/src/main/kotlin/net/stellarica/server/crafts/Craft.kt:42-78 | a craft starts with its origin, facing and world, and no blocks, anchors or column extremes |
| Crafts.Craft.Contains | server/paper/src/main/kotlin/net/stellarica/server/crafts/Craft.kt:84-94 | the absent position (`None`) is not inside, a detected block always is, and with no column extremes stored exactly the detected blocks are |
| Crafts.Craft.CalculateContents | server/paper/src/main/kotlin/net/stellarica/server/crafts/Craft.kt:96-111 | as written, the column extremes end up empty |
| Crafts.Craft.GetMultiblock | server/paper/src/main/kotlin/net/stellarica/server/crafts/Craft.kt:113-116 | a result is anchored at the absolute position and is listed under its chunk; none exactly when no instance of that chunk is anchored there |
| Crafts.Craft.Detect | server/paper/src/main/kotlin/net/stellarica/server/crafts/Craft.kt:261-337 | the blocks become the component of the old blocks plus the origin, or none when that component is over the size limit; the anchors become those of the detected instances in the chunks of the detected blocks |
| Crafts.Craft.Change | server/paper/src/main/kotlin/net/stellarica/server/crafts/Craft.kt:143-258 | on a same-world collision nothing changes (cells, blocks, anchors, registry, world, origin, facing); otherwise the blocks become their image, the cells are moved as `Crafts.MoveBlocks` says, exactly the anchors still found are kept, the found instances are re-registered, and world, origin and facing follow the map and rotation; between two worlds the target world's cells get the placed blocks and the source world's old cells become air (`BlocksMoved`, as for `Crafts.MoveBlocks`) |
| Crafts.Craft.Relink | server/paper/src/main/kotlin/net/stellarica/server/crafts/Craft.kt:233-256 | after the blocks have moved: the new blocks and kept anchors become the craft's, the instances are re-registered, and world, origin and facing follow |
| Crafts.Craft.Move | server/paper/src/main/kotlin/net/stellarica/server/crafts/Craft.kt:122-131 | a collision changes nothing; otherwise every block's state lands `offset` away, the cells left become air, other cells are kept, and the origin moves by `offset` with the facing unchanged |
| Crafts.Craft.Rotate | server/paper/src/main/kotlin/net/stellarica/server/crafts/Craft.kt:137-141 | a collision changes nothing; otherwise every block's turned state lands at its turned position, the cells left become air, the origin stays, and the facing turns |
| Crafts.ImageCard | server/paper/src/main/kotlin/net/stellarica/server/crafts/Craft.kt:226-227 | never more targets than blocks, and exactly as many if and only if no two blocks share a target (the lost-blocks check) |
| Crafts.ImageSmaller | server/paper/src/main/kotlin/net/stellarica/server/crafts/Craft.kt:226 | there are never more targets than blocks, so the size limit survives a move |
| Crafts.PlacedInjective | server/paper/src/main/kotlin/net/stellarica/server/crafts/Craft.kt:203-231 | for a map that can be undone, every block's own state lands at its target |
| Crafts.Translation | server/paper/src/main/kotlin/net/stellarica/server/crafts/Craft.kt:128-130 | no contract of its own: `Crafts.TranslationUndone` shows moving by `-offset` undoes it |
| Crafts.Turn | server/paper/src/main/kotlin/net/stellarica/server/crafts/Craft.kt:138-140 | no contract of its own: `Crafts.TurnUndone` shows the inverse rotation about the same pivot undoes it |
| Crafts.TranslationUndone | server/paper/src/main/kotlin/net/stellarica/server/crafts/Craft.kt:128-130 | moving by `-offset` undoes moving by `offset` |
| Crafts.TurnUndone | server/paper/src/main/kotlin/net/stellarica/server/crafts/Craft.kt:138-140 | turning by the inverse rotation about the same pivot undoes a turn |
| Crafts.ImageUndone | server/paper/src/main/kotlin/net/stellarica/server/crafts/Craft.kt:160 | mapping the image back gives the original block set |
| Crafts.BackNeverCollides | server/paper/src/main/kotlin/net/stellarica/server/crafts/Craft.kt:184-193 | after a move, moving back never collides |
| Crafts.RoundTrip | server/paper/src/main/kotlin/net/stellarica/server/crafts/Craft.kt:179-233 | a move followed by its undoing, with cancelling rotations, restores every block and every cell outside both footprints; cells only the moved craft covered were air and become air |
| Crafts.MoveRoundTrip | server/paper/src/main/kotlin/net/stellarica/server/crafts/Craft.kt:122-131 | `move(v)` then `move(-v)` with no collision restores the blocks' cells and every cell outside both footprints |
| Crafts.MoveBack | server/paper/src/main/kotlin/net/stellarica/server/crafts/Craft.kt:122-131 | after `move(v)`, `move(-v)` never collides and restores the block set and the origin |
| Crafts.RotateBack | server/paper/src/main/kotlin/net/stellarica/server/crafts/Craft.kt:137-141 | after `rotate(r)`, turning by the inverse never collides and restores the block set |
| Crafts.RotateRoundTrip | server/paper/src/main/kotlin/net/stellarica/server/crafts/Craft.kt:137-141 | `rotate(r)` then the inverse turn, with no collision, restores the blocks' cells and every cell outside both footprints |
| Pipes.Plus | server/paper/src/main/kotlin/net/stellarica/server/transfer/pipes/PipeNetwork.kt:70 | no contract of its own: `Pipes.PlusTimesLaws` shows it is vector addition with zero neutral, commuting |
| Pipes.Times | server/paper/src/main/kotlin/net/stellarica/server/transfer/pipes/PipeNetwork.kt:71 | no contract of its own: `Pipes.PlusTimesLaws` shows scaling by 0 gives zero, by 1 the vector, and it distributes over sums of factors and of vectors |
| Pipes.PlusTimesLaws | server/paper/src/main/kotlin/net/stellarica/server/transfer/pipes/PipeNetwork.kt:70-71 | `plus` and `times` are integer vector arithmetic: zero is neutral, addition commutes, scaling distributes over sums of factors and of vectors |
| Pipes.StepFurther | server/paper/src/main/kotlin/net/stellarica/server/transfer/pipes/PipeNetwork.kt:47 | one step further along a line is one more axis vector; the first step is `pos + rel` |
| Pipes.StepLeaves | server/paper/src/main/kotlin/net/stellarica/server/transfer/pipes/PipeNetwork.kt:47 | along a unit axis a positive distance never returns to the start |
| Pipes.LinkEndsDiffer | server/paper/src/main/kotlin/net/stellarica/server/transfer/pipes/PipeNetwork.kt:55 | an edge `{pos, next}` has two distinct elements |
| Pipes.PipeNetwork.constructor | server/paper/src/main/kotlin/net/stellarica/server/transfer/pipes/PipeNetwork.kt:11-15 | a network starts facing NORTH at its origin in its world |
| Pipes.PipeNetwork.IsRod | server/paper/src/main/kotlin/net/stellarica/server/transfer/pipes/PipeNetwork.kt:65 | no contract of its own: a lightning rod at the cell; by `Pipes.PipeNetwork.IsCopper` a rod is never copper |
| Pipes.PipeNetwork.IsInput | server/paper/src/main/kotlin/net/stellarica/server/transfer/pipes/PipeNetwork.kt:66 | no contract of its own: waxed cut copper at the cell; an input is copper, so by `Pipes.PipeNetwork.IsCopper` never a rod and always a held cell |
| Pipes.PipeNetwork.IsCopper | server/paper/src/main/kotlin/net/stellarica/server/transfer/pipes/PipeNetwork.kt:64-66 | a copper cell is never a rod and is always a cell the world holds |
| Pipes.PipeNetwork.DetectDown | server/paper/src/main/kotlin/net/stellarica/server/transfer/pipes/PipeNetwork.kt:31-62 | new cells are copper, new inputs are exactly the new cut-copper cells, new edges are links between detected cells, every new cell and `pos` have all their links recorded, every new cell is joined to `pos` by recorded edges; it terminates |
| Pipes.PipeNetwork.ScanLine | server/paper/src/main/kotlin/net/stellarica/server/transfer/pipes/PipeNetwork.kt:45-59 | after the scan along one axis every link along it is recorded: the scan passes rods and copper and stops at the first other cell or after twenty; every cell it detects is joined to `pos` |
| Pipes.PipeNetwork.Visit | server/paper/src/main/kotlin/net/stellarica/server/transfer/pipes/PipeNetwork.kt:49-56 | a reached copper cell is detected and linked to `pos`, keeping the search's promises |
| Pipes.PipeNetwork.Descend | server/paper/src/main/kotlin/net/stellarica/server/transfer/pipes/PipeNetwork.kt:50-54 | a cell not yet detected is detected (input recorded when cut copper) and expanded, and every cell detected meanwhile is joined to it; an already detected cell changes nothing |
| Pipes.ReachesThroughEdge | server/paper/src/main/kotlin/net/stellarica/server/transfer/pipes/PipeNetwork.kt:50-55 | cells joined to `next`, and cells already joined to `pos`, are joined to `pos` once the edge `{pos, next}` is recorded |
| Pipes.JoinedPrepend | server/paper/src/main/kotlin/net/stellarica/server/transfer/pipes/PipeNetwork.kt:55 | an edge followed by a walk is a walk |
| Pipes.PipeNetwork.Blocked | server/paper/src/main/kotlin/net/stellarica/server/transfer/pipes/PipeNetwork.kt:57 | a cell that is neither rod nor copper ends every link at or beyond it |
| Pipes.PipeNetwork.NoRodNoLink | server/paper/src/main/kotlin/net/stellarica/server/transfer/pipes/PipeNetwork.kt:45 | without a rod next to `pos` there is no link along that axis |
| Pipes.PipeNetwork.Shrinks | server/paper/src/main/kotlin/net/stellarica/server/transfer/pipes/PipeNetwork.kt:52-53 | detecting one more copper cell leaves fewer world cells undetected (the termination measure) |
| Pipes.PipeNetwork.LinkHasTwoEnds | server/paper/src/main/kotlin/net/stellarica/server/transfer/pipes/PipeNetwork.kt:55 | every link joins two distinct cells |
| Pipes.PipeNetwork.Detect | server/paper/src/main/kotlin/net/stellarica/server/transfer/pipes/PipeNetwork.kt:17-29 | from the origin: every other detected cell is copper, inputs are exactly the detected cut-copper cells other than the origin, every edge is a link of two distinct detected cells, every detected cell has all its links recorded, and every detected cell is joined to the origin by recorded edges |

## Left out

- Coroutines and the concurrent target map of `change`: targets are computed sequentially, as a set image.
- The chunk-section internals of `setBlockFast`: it is a write to the level's cell map, and the skip-if-equal branch is kept.
- Block entities (the entity map and the relocation calls in `change`): they are foreign mutations of the host game and are not modelled.
- `movePassengers`, the `passengers` set and `audiences`: double-precision positions, the half-block pivot, yaw and teleporting.
- Messages, `println`, timing, `owner` and `messagePilot`.
- `hullIntegrityPercent`, `detectedBlockCount`, `initialBlockCount`: a floating-point quotient and a counter that is never reassigned.
- `rotateCoordinates`, `getRotFromNorth` and `Direction.rotate` lie outside the Stellarica files modelled here. They are modelled as exact integer quarter turns about a vertical axis, and facings are the four horizontal directions only.
- `MultiblockHandler` lies outside the Stellarica files modelled here. It is modelled as a map from chunk to a list of instances: `remove` drops every occurrence, `add` appends, and a chunk that is not listed has no instances.
- A multiblock instance's `data` is dropped entirely, and its type is kept as an opaque number (`kind`).
- Block states keep only the block type and an optional horizontal facing: `BlockState.rotate` also turns axis and shape properties, which the model does not have. Minecraft's several air blocks are one `Air`.
- Positions and offsets are unbounded integers, where Kotlin's `Int` is 32 bits; the overflow of `rel * dist` (PipeNetwork.kt:47) or of a coordinate far from the world's centre is not modelled.
- Crafts.RelocateMultiblocks, Crafts.Craft.Change, Crafts.Craft.Relink, Crafts.Craft.Move, Crafts.Craft.Rotate: the registry part of each contract (`RegistryMoved`) is stated only when no relocated copy is itself one of the instances being moved (`NoClash`). When `NoClash` fails, the contract says nothing about the registry beyond its staying well formed. Such a clash can make the outcome depend on the order in which the set is iterated, though not always: in a move by a zero offset every copy equals its instance, `NoClash` fails, and the outcome is the same in every order.
- Crafts.MoveRoundTrip: the cells only the moved craft covered are stated by `Crafts.RoundTrip`, not repeated here.
- `PipeNetwork.detect` prints the edges; the model returns `nodes`, `detected` and `inputs` instead.
- `detectDown` changes sets owned by its caller in place; the model passes them in and returns them, so aliasing between the three sets is not modelled.
- `NodeNetwork`, the fuel type and the rest of the transfer code are not part of this model.
