/**
 * The flood fill behind `Craft.detect`: the set of cells it is meant to find,
 * and one round of its search.
 *
 * A round takes the cells queued by the previous round and processes them one
 * at a time. Air is skipped. If more than `limit` blocks are detected already,
 * detection is abandoned: the queue and the detected set are emptied. Otherwise
 * the cell is detected, its four horizontal neighbours that are not marked
 * checked are queued (without being marked), and the cells directly below, at
 * and above it that are not marked are marked checked and queued.
 */
module Flood {
  import opened Geometry
  import opened World

  /** The four horizontal neighbours, queued without being marked checked. */
  function Sideways(c: BlockPos): set<BlockPos> {
    {c.Offset(-1, 0, 0), c.Offset(1, 0, 0), c.Offset(0, 0, -1), c.Offset(0, 0, 1)}
  }

  /** The cell and the cells directly below and above it, marked checked when queued. */
  function Column3(c: BlockPos): set<BlockPos> {
    {c.Offset(0, -1, 0), c, c.Offset(0, 1, 0)}
  }

  /** The six cells sharing a face with `c`. */
  function Neighbours(c: BlockPos): (r: set<BlockPos>)
    ensures c !in r
    ensures r == Sideways(c) + (Column3(c) - {c})
  {
    {c.Offset(-1, 0, 0), c.Offset(1, 0, 0), c.Offset(0, 0, -1), c.Offset(0, 0, 1), c.Offset(0, -1, 0), c.Offset(0, 1, 0)}
  }

  /** The cells of `cells` that are not air; every other cell is air. */
  function SolidCells(cells: map<BlockPos, BlockState>): (r: set<BlockPos>)
    ensures forall p :: p in r <==> Solid(cells, p)
  {
    set p | p in cells && !cells[p].IsAir()
  }

  /** A non-empty walk through solid cells, each step to a face neighbour. */
  ghost predicate IsSolidPath(cells: map<BlockPos, BlockState>, path: seq<BlockPos>) {
    && |path| > 0
    && (forall i :: 0 <= i < |path| ==> Solid(cells, path[i]))
    && (forall i :: 0 <= i < |path| - 1 ==> path[i + 1] in Neighbours(path[i]))
  }

  /** `p` is reached from a seed by a walk through solid cells. */
  ghost predicate Reachable(cells: map<BlockPos, BlockState>, seeds: set<BlockPos>, p: BlockPos) {
    exists path :: IsSolidPath(cells, path) && path[0] in seeds && path[|path| - 1] == p
  }

  /** The solid cells face-connected through solid cells to a solid seed: what detection should find. */
  ghost function Component(cells: map<BlockPos, BlockState>, seeds: set<BlockPos>): (r: set<BlockPos>)
    ensures forall p :: p in r <==> Solid(cells, p) && Reachable(cells, seeds, p)
  {
    set p | p in SolidCells(cells) && Reachable(cells, seeds, p)
  }

  /** `q` shares a face with a cell of `comp`. */
  ghost predicate Touches(comp: set<BlockPos>, q: BlockPos) {
    exists d :: d in comp && q in Neighbours(d)
  }

  /** `comp` holds every solid seed and every solid face neighbour of its cells. */
  ghost predicate Closed(cells: map<BlockPos, BlockState>, seeds: set<BlockPos>, comp: set<BlockPos>) {
    && (forall s :: s in seeds && Solid(cells, s) ==> s in comp)
    && (forall d, q :: d in comp && q in Neighbours(d) && Solid(cells, q) ==> q in comp)
  }

  /** Every cell that can ever be marked checked: the seeds and the columns around solid cells. */
  ghost function Universe(cells: map<BlockPos, BlockState>, seeds: set<BlockPos>): set<BlockPos> {
    seeds + set c, q | c in SolidCells(cells) && q in Column3(c) :: q
  }

  /** The chunks of a set of cells of `world`. */
  function ChunksOf(world: Level, s: set<BlockPos>): set<ChunkKey> {
    set p | p in s :: ChunkAt(world, p)
  }

  /**
   * What holds between cells processing, for a set `comp` closed as `Closed`
   * says: every processed solid cell is detected, every detected cell is in
   * `comp` and has all its neighbours processed or pending, every checked cell
   * is processed or pending, and every pending cell is a seed, in `comp`, or
   * touches `comp`.
   */
  ghost predicate SearchInv(cells: map<BlockPos, BlockState>, seeds: set<BlockPos>, comp: set<BlockPos>,
                            checked: set<BlockPos>, pending: set<BlockPos>, detected: set<BlockPos>,
                            processed: set<BlockPos>) {
    && seeds <= checked
    && checked <= processed + pending
    && detected <= comp
    && (forall p :: p in processed && Solid(cells, p) ==> p in detected)
    && (forall d, q :: d in detected && q in Neighbours(d) ==> q in processed || q in pending)
    && (forall q :: q in pending ==> q in seeds || q in comp || Touches(comp, q))
  }

  /** 2 when `s` holds a checked solid cell, 1 when it is otherwise non-empty, 0 when empty. */
  ghost function Rank(cells: map<BlockPos, BlockState>, s: set<BlockPos>, checked: set<BlockPos>): nat {
    if exists q :: q in s && q in checked && Solid(cells, q) then 2
    else if s != {} then 1
    else 0
  }

  /** A solid neighbour of a component cell is in the component: extend the walk by one step. */
  lemma StepReached(cells: map<BlockPos, BlockState>, seeds: set<BlockPos>, d: BlockPos, q: BlockPos)
    requires d in Component(cells, seeds) && q in Neighbours(d) && Solid(cells, q)
    ensures q in Component(cells, seeds)
  {
    var path :| IsSolidPath(cells, path) && path[0] in seeds && path[|path| - 1] == d;
    var longer := path + [q];
    assert IsSolidPath(cells, longer);
  }

  /** The component is closed: solid seeds and solid neighbours of its cells belong to it. */
  lemma ComponentClosed(cells: map<BlockPos, BlockState>, seeds: set<BlockPos>)
    ensures Closed(cells, seeds, Component(cells, seeds))
  {
    forall s | s in seeds && Solid(cells, s)
      ensures s in Component(cells, seeds)
    {
      assert IsSolidPath(cells, [s]);
    }
    forall d, q | d in Component(cells, seeds) && q in Neighbours(d) && Solid(cells, q)
      ensures q in Component(cells, seeds)
    {
      StepReached(cells, seeds, d, q);
    }
  }

  lemma ColumnInUniverse(cells: map<BlockPos, BlockState>, seeds: set<BlockPos>, c: BlockPos)
    requires Solid(cells, c)
    ensures Column3(c) <= Universe(cells, seeds)
  {
    assert c in SolidCells(cells);
  }

  lemma SubsetCard<T>(a: set<T>, b: set<T>)
    requires a <= b
    ensures |a| <= |b|
  {
    assert b == a + (b - a);
  }

  /** Marking more cells checked shrinks what is left to mark. */
  lemma FewerUnchecked(u: set<BlockPos>, c0: set<BlockPos>, c1: set<BlockPos>)
    requires c0 <= c1 <= u
    ensures |u - c1| <= |u - c0|
    ensures c1 != c0 ==> |u - c1| < |u - c0|
  {
    assert u - c0 == (u - c1) + (c1 - c0);
    if c1 != c0 {
      var x :| x in c1 - c0;
      assert |c1 - c0| > 0;
    }
  }

  /** A solid cell touching a closed set belongs to it. */
  lemma TouchReached(cells: map<BlockPos, BlockState>, seeds: set<BlockPos>, comp: set<BlockPos>, q: BlockPos)
    requires Closed(cells, seeds, comp) && Touches(comp, q) && Solid(cells, q)
    ensures q in comp
  {
    var d :| d in comp && q in Neighbours(d);
  }

  /** Skipping an air cell keeps the search invariant. */
  lemma AirStep(cells: map<BlockPos, BlockState>, seeds: set<BlockPos>, comp: set<BlockPos>, checked: set<BlockPos>,
                todo: set<BlockPos>, next: set<BlockPos>, detected: set<BlockPos>, processed: set<BlockPos>, c: BlockPos)
    requires SearchInv(cells, seeds, comp, checked, todo + next, detected, processed)
    requires c in todo && !Solid(cells, c)
    ensures SearchInv(cells, seeds, comp, checked, (todo - {c}) + next, detected, processed + {c})
  {
    var pending' := (todo - {c}) + next;
    assert todo + next == pending' + {c};
    assert checked <= (processed + {c}) + pending';
    assert forall p :: p in processed + {c} && Solid(cells, p) ==> p in detected;
    assert forall d, q :: d in detected && q in Neighbours(d) ==> q in processed + {c} || q in pending';
  }

  /** Detecting a solid cell and queueing its neighbours keeps the search invariant. */
  lemma SolidStep(cells: map<BlockPos, BlockState>, seeds: set<BlockPos>, comp: set<BlockPos>, checked: set<BlockPos>,
                  todo: set<BlockPos>, next: set<BlockPos>, detected: set<BlockPos>, processed: set<BlockPos>,
                  c: BlockPos, side: set<BlockPos>, vert: set<BlockPos>)
    requires Closed(cells, seeds, comp)
    requires SearchInv(cells, seeds, comp, checked, todo + next, detected, processed)
    requires c in todo && Solid(cells, c)
    requires side == set q | q in Sideways(c) && q !in checked
    requires vert == set q | q in Column3(c) && q !in checked
    ensures c in comp
    ensures SearchInv(cells, seeds, comp, checked + vert, (todo - {c}) + (next + side + vert), detected + {c}, processed + {c})
  {
    if Touches(comp, c) {
      TouchReached(cells, seeds, comp, c);
    }
    var pending' := (todo - {c}) + (next + side + vert);
    var checked' := checked + vert;
    var processed' := processed + {c};
    var detected' := detected + {c};
    QueuedAround(c, checked, side, vert);
    assert todo + next <= pending' + {c};
    assert checked' <= processed' + pending';
    assert forall q :: q in Neighbours(c) ==> q in processed' || q in pending';
    forall q | q in side + vert
      ensures q in comp || Touches(comp, q)
    {
      if q != c {
        assert q in Neighbours(c);
      }
    }
    forall d, q | d in detected' && q in Neighbours(d)
      ensures q in processed' || q in pending'
    {
      if d != c {
        assert q in processed || q in todo + next;
      }
    }
  }

  /** After a solid cell is visited, each of its neighbours is checked or newly queued, and nothing else is queued. */
  lemma QueuedAround(c: BlockPos, checked: set<BlockPos>, side: set<BlockPos>, vert: set<BlockPos>)
    requires side == set q | q in Sideways(c) && q !in checked
    requires vert == set q | q in Column3(c) && q !in checked
    ensures forall q :: q in Neighbours(c) ==> q in checked || q in side || q in vert
    ensures forall q :: q in side + vert ==> q == c || q in Neighbours(c)
  {
  }

  /** With nothing pending, every cell of the component has been detected. */
  lemma NothingPendingMeansComplete(cells: map<BlockPos, BlockState>, seeds: set<BlockPos>,
      checked: set<BlockPos>, detected: set<BlockPos>, processed: set<BlockPos>)
    requires SearchInv(cells, seeds, Component(cells, seeds), checked, {}, detected, processed)
    ensures detected == Component(cells, seeds)
  {
    forall p | p in Component(cells, seeds)
      ensures p in detected
    {
      var path :| IsSolidPath(cells, path) && path[0] in seeds && path[|path| - 1] == p;
      PathDetected(cells, seeds, Component(cells, seeds), checked, detected, processed, path, |path| - 1);
    }
  }

  lemma {:induction false} PathDetected(cells: map<BlockPos, BlockState>, seeds: set<BlockPos>, comp: set<BlockPos>,
      checked: set<BlockPos>, detected: set<BlockPos>, processed: set<BlockPos>, path: seq<BlockPos>, i: nat)
    requires SearchInv(cells, seeds, comp, checked, {}, detected, processed)
    requires IsSolidPath(cells, path) && path[0] in seeds && i < |path|
    ensures path[i] in detected
  {
    if i > 0 {
      PathDetected(cells, seeds, comp, checked, detected, processed, path, i - 1);
      assert path[i] in Neighbours(path[i - 1]);
    }
  }

  /**
   * What holds between cells of one round that started from the queue `queued`
   * with `checked0` marked: the search invariant over the cells still to visit
   * (`todo`) and the new queue, the bounds on `checked` and `detected`, the
   * chunks seen, and what the termination argument needs (while nothing new
   * has been marked, the new queue holds no marked cell and every visited
   * solid cell was marked; if no solid cell was visited, the new queue is
   * empty; `sample` is a visited solid cell otherwise).
   */
  ghost predicate RoundInv(cells: map<BlockPos, BlockState>, world: Level, limit: nat, seeds: set<BlockPos>,
                           comp: set<BlockPos>, queued: set<BlockPos>, checked0: set<BlockPos>, todo: set<BlockPos>,
                           next: set<BlockPos>, checked: set<BlockPos>, detected: set<BlockPos>, chunks: set<ChunkKey>,
                           processed: set<BlockPos>, sawSolid: bool, sample: BlockPos) {
    && todo <= queued
    && checked0 <= checked <= Universe(cells, seeds)
    && |detected| <= limit + 1
    && SearchInv(cells, seeds, comp, checked, todo + next, detected, processed)
    && chunks == ChunksOf(world, detected)
    && (checked == checked0 ==> forall q :: q in next ==> q !in checked0)
    && (checked == checked0 ==> forall p :: p in queued - todo && Solid(cells, p) ==> p in checked0)
    && (!sawSolid ==> next == {})
    && (sawSolid ==> sample in queued - todo && Solid(cells, sample))
  }

  /** A round that visited every queued cell leaves the search invariant and what termination needs. */
  lemma RoundEnd(cells: map<BlockPos, BlockState>, world: Level, limit: nat, seeds: set<BlockPos>,
                 comp: set<BlockPos>, queued: set<BlockPos>, checked0: set<BlockPos>,
                 next: set<BlockPos>, checked: set<BlockPos>, detected: set<BlockPos>, chunks: set<ChunkKey>,
                 processed: set<BlockPos>, sawSolid: bool, sample: BlockPos)
    requires queued != {}
    requires RoundInv(cells, world, limit, seeds, comp, queued, checked0, {}, next, checked, detected, chunks,
                      processed, sawSolid, sample)
    ensures SearchInv(cells, seeds, comp, checked, next, detected, processed)
    ensures checked != checked0 || Rank(cells, next, checked) < Rank(cells, queued, checked0)
  {
    assert {} + next == next;
    if checked == checked0 {
      assert forall q :: q in next ==> q !in checked;
      if sawSolid {
        assert sample in queued && sample in checked0;
      }
    }
  }

  /**
   * The body of the `for` loop of `detect`: visit `c`, one of the cells still
   * to visit this round. Air is skipped; past the limit the search is
   * abandoned; otherwise `c` is detected and its neighbours queued.
   */
  method VisitCell(cells: map<BlockPos, BlockState>, world: Level, limit: nat, c: BlockPos,
                   checked: set<BlockPos>, next: set<BlockPos>, detected: set<BlockPos>, chunks: set<ChunkKey>,
                   ghost seeds: set<BlockPos>, ghost comp: set<BlockPos>, ghost queued: set<BlockPos>,
                   ghost checked0: set<BlockPos>, ghost todo: set<BlockPos>, ghost processed: set<BlockPos>,
                   ghost sawSolid: bool, ghost sample: BlockPos)
    returns (checked': set<BlockPos>, next': set<BlockPos>, detected': set<BlockPos>, chunks': set<ChunkKey>,
             tripped: bool, ghost processed': set<BlockPos>, ghost sawSolid': bool, ghost sample': BlockPos)
    requires Closed(cells, seeds, comp)
    requires c in todo
    requires RoundInv(cells, world, limit, seeds, comp, queued, checked0, todo, next, checked, detected, chunks,
                      processed, sawSolid, sample)
    ensures tripped ==> next' == {} && detected' == {} && |comp| > limit
                        && checked' == checked && checked0 <= checked' <= Universe(cells, seeds)
    ensures !tripped ==> RoundInv(cells, world, limit, seeds, comp, queued, checked0, todo - {c}, next', checked',
                                  detected', chunks', processed', sawSolid', sample')
  {
    checked', next', detected', chunks', tripped := checked, next, detected, chunks, false;
    processed', sawSolid', sample' := processed + {c}, sawSolid, sample;
    if StateAt(cells, c).IsAir() {
      AirStep(cells, seeds, comp, checked, todo, next, detected, processed, c);
      return;
    }
    if |detected| > limit {
      SubsetCard(detected, comp);
      next', detected', tripped := {}, {}, true;
      return;
    }
    var side := set q | q in Sideways(c) && q !in checked;
    var vert := set q | q in Column3(c) && q !in checked;
    SolidStep(cells, seeds, comp, checked, todo, next, detected, processed, c, side, vert);
    ColumnInUniverse(cells, seeds, c);
    assert c in checked || c in vert;
    detected', chunks' := detected + {c}, chunks + {ChunkAt(world, c)};
    next' := next + side;
    checked' := checked + vert;
    next' := next' + vert;
    sawSolid', sample' := true, c;
  }

  /**
   * One pass of the `while` loop of `detect` over the cells queued by the
   * previous pass (`blocksToCheck`). It returns the new queue, the checked,
   * detected and chunk sets, and whether the size limit was hit. The ghost
   * set `comp` is any set closed as `Closed` says; `Craft.Detect` passes the
   * component itself.
   */
  method DetectRound(cells: map<BlockPos, BlockState>, world: Level, limit: nat, blocksToCheck: set<BlockPos>,
                     checked0: set<BlockPos>, detected0: set<BlockPos>, chunks0: set<ChunkKey>,
                     ghost seeds: set<BlockPos>, ghost comp: set<BlockPos>, ghost processed0: set<BlockPos>)
    returns (next: set<BlockPos>, checked: set<BlockPos>, detected: set<BlockPos>, chunks: set<ChunkKey>,
             tripped: bool, ghost processed: set<BlockPos>)
    requires blocksToCheck != {}
    requires Closed(cells, seeds, comp)
    requires SearchInv(cells, seeds, comp, checked0, blocksToCheck, detected0, processed0)
    requires chunks0 == ChunksOf(world, detected0)
    requires |detected0| <= limit + 1
    requires checked0 <= Universe(cells, seeds)
    ensures checked0 <= checked <= Universe(cells, seeds)
    ensures |detected| <= limit + 1
    ensures tripped ==> next == {} && detected == {} && |comp| > limit
    ensures !tripped ==> SearchInv(cells, seeds, comp, checked, next, detected, processed)
                         && chunks == ChunksOf(world, detected)
    ensures checked != checked0 || Rank(cells, next, checked) < Rank(cells, blocksToCheck, checked0)
  {
    next, checked, detected, chunks, tripped, processed := {}, checked0, detected0, chunks0, false, processed0;
    var todo := blocksToCheck;
    ghost var sawSolid := false;
    ghost var sample := BlockPos(0, 0, 0);
    assert todo + next == blocksToCheck;
    while todo != {}
      invariant !tripped
      invariant RoundInv(cells, world, limit, seeds, comp, blocksToCheck, checked0, todo, next, checked, detected,
                         chunks, processed, sawSolid, sample)
      decreases |todo|
    {
      var c :| c in todo;
      checked, next, detected, chunks, tripped, processed, sawSolid, sample :=
        VisitCell(cells, world, limit, c, checked, next, detected, chunks,
                  seeds, comp, blocksToCheck, checked0, todo, processed, sawSolid, sample);
      if tripped {
        break;
      }
      todo := todo - {c};
    }
    if !tripped {
      RoundEnd(cells, world, limit, seeds, comp, blocksToCheck, checked0, next, checked, detected, chunks,
               processed, sawSolid, sample);
    }
  }

  /**
   * The `while` loop of `detect`, from the seeds: the detected cells are the
   * whole component of the seeds, or none when the component is larger than
   * `limit`; `chunks` holds their chunks unless the limit was hit.
   */
  method FloodFill(cells: map<BlockPos, BlockState>, world: Level, limit: nat, seeds: set<BlockPos>)
    returns (detected: set<BlockPos>, chunks: set<ChunkKey>, tripped: bool)
    ensures |detected| <= limit + 1
    ensures !tripped ==> detected == Component(cells, seeds) && chunks == ChunksOf(world, detected)
    ensures tripped ==> detected == {} && |Component(cells, seeds)| > limit
  {
    var next := seeds;
    ghost var comp := Component(cells, seeds);
    ComponentClosed(cells, seeds);
    detected := {};
    var checked := next;
    chunks := {};
    ghost var processed: set<BlockPos> := {};
    tripped := false;
    while next != {}
      invariant checked <= Universe(cells, seeds)
      invariant |detected| <= limit + 1
      invariant tripped ==> next == {} && detected == {} && |comp| > limit
      invariant !tripped ==> SearchInv(cells, seeds, comp, checked, next, detected, processed)
                             && chunks == ChunksOf(world, detected)
      decreases |Universe(cells, seeds) - checked|, Rank(cells, next, checked)
    {
      ghost var checked0 := checked;
      next, checked, detected, chunks, tripped, processed :=
        DetectRound(cells, world, limit, next, checked, detected, chunks, seeds, comp, processed);
      FewerUnchecked(Universe(cells, seeds), checked0, checked);
    }
    if !tripped {
      NothingPendingMeansComplete(cells, seeds, checked, detected, processed);
    }
  }
}
