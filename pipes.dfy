/**
 * Pipe-network detection (net.stellarica.server.transfer.pipes.PipeNetwork).
 *
 * Starting from the network's origin, `DetectDown` looks along each of the
 * six axes: when the first cell is a lightning rod, it walks up to twenty
 * cells along that axis, passing over rods, linking every copper cell it
 * meets to the cell it started from, descending into copper cells not seen
 * before, and stopping at the first cell that is neither rod nor copper.
 * Positions are origin-relative; the world is read through `Pos`.
 */
module Pipes {
  import opened Geometry
  import opened Relative
  import opened World

  /** `OriginRelative.plus`. */
  function Plus(a: OriginRelative, b: OriginRelative): OriginRelative {
    OriginRelative(a.x + b.x, a.y + b.y, a.z + b.z)
  }

  /** `OriginRelative.times`. */
  function Times(a: OriginRelative, dist: int): OriginRelative {
    OriginRelative(a.x * dist, a.y * dist, a.z * dist)
  }

  /** `plus` and `times` form integer vector arithmetic: zero is neutral, addition commutes, scaling distributes. */
  lemma PlusTimesLaws(a: OriginRelative, b: OriginRelative, m: int, n: int)
    ensures Plus(a, Zero) == a && Plus(a, b) == Plus(b, a)
    ensures Times(a, 0) == Zero && Times(a, 1) == a
    ensures Times(a, m + n) == Plus(Times(a, m), Times(a, n))
    ensures Times(Plus(a, b), n) == Plus(Times(a, n), Times(b, n))
  {
  }

  /** The six unit axes, in the order the search tries them. */
  const Axes: seq<OriginRelative> := [OriginRelative(0, 0, 1), OriginRelative(0, 0, -1), OriginRelative(0, 1, 0),
                                      OriginRelative(0, -1, 0), OriginRelative(1, 0, 0), OriginRelative(-1, 0, 0)]

  /** The longest line a scan follows. */
  const MaxDistance: int := 20

  /** The cell `dist` steps from `pos` along `rel` (`pos + rel * dist`). */
  function Step(pos: OriginRelative, rel: OriginRelative, dist: int): OriginRelative {
    Plus(pos, Times(rel, dist))
  }

  /** Scaling is repeated addition: one step further is one more `rel`, and the first step is `pos + rel`. */
  lemma StepFurther(pos: OriginRelative, rel: OriginRelative, dist: int)
    ensures Step(pos, rel, dist + 1) == Plus(Step(pos, rel, dist), rel)
    ensures Step(pos, rel, 1) == Plus(pos, rel) && Step(pos, rel, 0) == pos
  {
  }

  /** Along a unit axis, a positive number of steps never comes back to the start. */
  lemma StepLeaves(pos: OriginRelative, i: int, dist: int)
    requires 0 <= i < |Axes| && dist >= 1
    ensures Step(pos, Axes[i], dist) != pos
  {
  }

  /** The offset from `origin` facing `direction` of the absolute block `p`: the inverse of `GetBlockPos`. */
  function Unrelative(p: BlockPos, origin: BlockPos, direction: Direction): OriginRelative {
    var q := RotateCoordinates(p, origin, direction.GetRotFromNorth().Inverse()).Subtract(origin);
    OriginRelative(q.x, q.y, q.z)
  }

  /** `Unrelative` undoes `GetBlockPos`. */
  lemma UnrelativeUndoes(rel: OriginRelative, origin: BlockPos, direction: Direction)
    ensures Unrelative(GetBlockPos(rel, origin, direction), origin, direction) == rel
  {
    var r := direction.GetRotFromNorth();
    RotateCompose(BlockPos(rel.x, rel.y, rel.z).Add(origin), origin, r, r.Inverse());
  }

  /** Taking away one more member of `c` leaves strictly fewer members of `c`. */
  lemma FewerLeft<T>(c: set<T>, d0: set<T>, d: set<T>, n: T)
    requires d0 <= d && n in d && n !in d0 && n in c
    ensures |c - d| < |c - d0|
  {
    var a, b := c - d, c - d0;
    assert a <= b - {n};
    assert b - {n} == a + (b - {n} - a);
    assert |b - {n}| == |b| - 1;
  }

  /** `path` walks from its first cell to its last along edges of `nodes`. */
  ghost predicate Path(nodes: set<set<OriginRelative>>, path: seq<OriginRelative>) {
    |path| > 0 && forall j :: 0 <= j < |path| - 1 ==> {path[j], path[j + 1]} in nodes
  }

  /** Some walk along edges of `nodes` leads from `a` to `b`. */
  ghost predicate Joined(nodes: set<set<OriginRelative>>, a: OriginRelative, b: OriginRelative) {
    exists path :: Path(nodes, path) && path[0] == a && path[|path| - 1] == b
  }

  /** Every cell of `detected` beyond `detected0` is joined to `a` by edges of `nodes`. */
  ghost predicate Reaches(nodes: set<set<OriginRelative>>, a: OriginRelative, detected0: set<OriginRelative>,
                          detected: set<OriginRelative>) {
    forall q :: q in detected && q !in detected0 ==> Joined(nodes, a, q)
  }

  /** Every cell is joined to itself, by the walk that does not move. */
  lemma JoinedSelf(nodes: set<set<OriginRelative>>, a: OriginRelative)
    ensures Joined(nodes, a, a)
  {
    assert Path(nodes, [a]);
  }

  /** More edges never break a walk. */
  lemma JoinedGrows(nodes: set<set<OriginRelative>>, nodes': set<set<OriginRelative>>, a: OriginRelative,
                    b: OriginRelative)
    requires nodes <= nodes' && Joined(nodes, a, b)
    ensures Joined(nodes', a, b)
  {
    var path :| Path(nodes, path) && path[0] == a && path[|path| - 1] == b;
    assert Path(nodes', path);
  }

  /** An edge from `a` to `b` followed by a walk from `b` to `c` is a walk from `a` to `c`. */
  lemma JoinedPrepend(nodes: set<set<OriginRelative>>, a: OriginRelative, b: OriginRelative, c: OriginRelative)
    requires {a, b} in nodes && Joined(nodes, b, c)
    ensures Joined(nodes, a, c)
  {
    var path :| Path(nodes, path) && path[0] == b && path[|path| - 1] == c;
    var longer := [a] + path;
    assert forall j :: 1 <= j < |longer| - 1 ==> longer[j] == path[j - 1] && longer[j + 1] == path[j];
    assert Path(nodes, longer);
  }

  /** A cell joined to every newly detected cell but itself is joined to every one. */
  lemma ReachesFromSelf(nodes: set<set<OriginRelative>>, a: OriginRelative, detected0: set<OriginRelative>,
                        detected: set<OriginRelative>)
    requires Reaches(nodes, a, detected0 + {a}, detected)
    ensures Reaches(nodes, a, detected0, detected)
  {
    JoinedSelf(nodes, a);
  }

  /**
   * The cells detected before the search descended into `next`, joined to
   * `pos`, and the cells detected below `next`, joined to `next`, are all
   * joined to `pos` once the edge between the two is recorded.
   */
  lemma ReachesThroughEdge(nodes1: set<set<OriginRelative>>, nodes: set<set<OriginRelative>>, pos: OriginRelative,
                           next: OriginRelative, detected0: set<OriginRelative>, detected1: set<OriginRelative>,
                           detected: set<OriginRelative>)
    requires nodes1 <= nodes && Reaches(nodes1, pos, detected0, detected1) && Reaches(nodes, next, detected1, detected)
    ensures Reaches(nodes + {{pos, next}}, pos, detected0, detected)
  {
    var linked := nodes + {{pos, next}};
    forall q | q in detected && q !in detected0
      ensures Joined(linked, pos, q)
    {
      if q in detected1 {
        JoinedGrows(nodes1, linked, pos, q);
      } else {
        JoinedGrows(nodes, linked, next, q);
        JoinedPrepend(linked, pos, next, q);
      }
    }
  }

  /** A pipe network: an origin and world, and the direction it is read in. */
  class PipeNetwork {
    const origin: BlockPos
    const world: Level
    var direction: Direction

    constructor (origin: BlockPos, world: Level)
      ensures this.origin == origin && this.world == world && direction == North
    {
      this.origin := origin;
      this.world := world;
      direction := North;
    }

    /** `pos`: the absolute block at an origin-relative position (the companion form; see `InstanceIsCompanion`). */
    function Pos(rel: OriginRelative): BlockPos
      reads this
    {
      GetBlockPos(rel, origin, direction)
    }

    /** `isInput`: waxed cut copper. */
    predicate IsInput(rel: OriginRelative)
      reads this, world
    {
      world.GetBlockState(Pos(rel)).block == WaxedCutCopper
    }

    /** `isCopper`: a waxed copper block or an input. Never a rod, and never a cell the world leaves out. */
    predicate IsCopper(rel: OriginRelative)
      reads this, world
      ensures IsCopper(rel) ==> !IsRod(rel) && Pos(rel) in world.blocks
    {
      world.GetBlockState(Pos(rel)).block == WaxedCopperBlock || IsInput(rel)
    }

    /** `isRod`: a lightning rod. */
    predicate IsRod(rel: OriginRelative)
      reads this, world
    {
      world.GetBlockState(Pos(rel)).block == LightningRod
    }

    /** Every cell strictly between `pos` and `dist` steps along `rel` is a rod or copper. */
    ghost predicate Clear(pos: OriginRelative, rel: OriginRelative, dist: int)
      reads this, world
    {
      forall k :: 1 <= k < dist ==> IsRod(Step(pos, rel, k)) || IsCopper(Step(pos, rel, k))
    }

    /**
     * A scan from `pos` along `rel` reaches the copper cell `dist` steps away:
     * the first cell is a rod, the distance is at most twenty, and nothing
     * before it stops the scan.
     */
    ghost predicate Linked(pos: OriginRelative, rel: OriginRelative, dist: int)
      reads this, world
    {
      IsRod(Plus(pos, rel)) && 1 <= dist <= MaxDistance && Clear(pos, rel, dist) && IsCopper(Step(pos, rel, dist))
    }

    /** An edge the search may record: a scan links its two ends. */
    ghost predicate IsLink(e: set<OriginRelative>)
      reads this, world
    {
      exists a, i, dist :: 0 <= i < |Axes| && Linked(a, Axes[i], dist) && e == {a, Step(a, Axes[i], dist)}
    }

    /**
     * Every link from `q` along an axis before `Axes[i]`, or along `Axes[i]`
     * and shorter than `n`, is an edge of `nodes` whose far end is in `detected`.
     */
    ghost predicate Covered(q: OriginRelative, i: int, n: int, nodes: set<set<OriginRelative>>,
                            detected: set<OriginRelative>)
      reads this, world
    {
      forall j, dist :: 0 <= j < |Axes| && (j < i || (j == i && dist < n)) && Linked(q, Axes[j], dist) ==>
        {q, Step(q, Axes[j], dist)} in nodes && Step(q, Axes[j], dist) in detected
    }

    /** Every link from `q` is an edge of `nodes` and its far end is in `detected`. */
    ghost predicate Expanded(q: OriginRelative, nodes: set<set<OriginRelative>>, detected: set<OriginRelative>)
      reads this, world
    {
      Covered(q, |Axes|, 0, nodes, detected)
    }

    /** The offsets of every cell the world holds: a bound on what the search can detect. */
    ghost function Cells(): set<OriginRelative>
      reads this, world
    {
      set p | p in world.blocks :: Unrelative(p, origin, direction)
    }

    /** Every copper cell is one of `Cells()`. */
    lemma CopperInCells(rel: OriginRelative)
      requires IsCopper(rel)
      ensures rel in Cells()
    {
      UnrelativeUndoes(rel, origin, direction);
    }

    /**
     * What `DetectDown` promises for the cells it detects beyond `detected0`
     * and the edges it records beyond `nodes0`: new cells are copper, the new
     * inputs are exactly the new cut-copper cells, every new edge is a link
     * between detected cells, and every new cell has all its links recorded.
     */
    ghost predicate Searched(detected0: set<OriginRelative>, nodes0: set<set<OriginRelative>>,
                             inputs0: set<OriginRelative>, detected: set<OriginRelative>,
                             nodes: set<set<OriginRelative>>, inputs: set<OriginRelative>)
      reads this, world
    {
      && detected0 <= detected && nodes0 <= nodes && inputs0 <= inputs
      && (forall q :: q in detected && q !in detected0 ==> IsCopper(q))
      && (forall q :: q in inputs && q !in inputs0 ==> q in detected && q !in detected0 && IsInput(q))
      && (forall q :: q in detected && q !in detected0 && IsInput(q) ==> q in inputs)
      && (forall e :: e in nodes && e !in nodes0 ==> IsLink(e))
      && (forall e, x :: e in nodes && e !in nodes0 && x in e ==> x in detected)
      && (forall q :: q in detected && q !in detected0 ==> Expanded(q, nodes, detected))
    }

    /**
     * `detectDown`: expand `pos`, which is already detected. Beyond what the
     * caller passed in, the search keeps the promises of `Searched`, and
     * `pos` itself has all its links recorded.
     */
    method DetectDown(pos: OriginRelative, nodes0: set<set<OriginRelative>>, detected0: set<OriginRelative>,
                      inputs0: set<OriginRelative>)
      returns (nodes: set<set<OriginRelative>>, detected: set<OriginRelative>, inputs: set<OriginRelative>)
      requires pos in detected0
      ensures Searched(detected0, nodes0, inputs0, detected, nodes, inputs)
      ensures Expanded(pos, nodes, detected)
      ensures Reaches(nodes, pos, detected0, detected)
      decreases |Cells() - detected0|, 3
    {
      nodes, detected, inputs := nodes0, detected0, inputs0;
      for i := 0 to |Axes|
        invariant Searched(detected0, nodes0, inputs0, detected, nodes, inputs)
        invariant Covered(pos, i, 0, nodes, detected)
        invariant Reaches(nodes, pos, detected0, detected)
      {
        if IsRod(Plus(pos, Axes[i])) {
          nodes, detected, inputs := ScanLine(pos, i, detected0, nodes0, inputs0, nodes, detected, inputs);
        } else {
          NoRodNoLink(pos, i, nodes, detected);
        }
      }
    }

    /**
     * The scan of `detectDown` along `Axes[i]` from `pos`, whose first cell is a
     * rod: every copper cell the scan reaches is linked to `pos` and detected,
     * and new ones are expanded.
     */
    method ScanLine(pos: OriginRelative, i: int, detected0: set<OriginRelative>, nodes0: set<set<OriginRelative>>,
                    inputs0: set<OriginRelative>, nodes1: set<set<OriginRelative>>, detected1: set<OriginRelative>,
                    inputs1: set<OriginRelative>)
      returns (nodes: set<set<OriginRelative>>, detected: set<OriginRelative>, inputs: set<OriginRelative>)
      requires 0 <= i < |Axes| && pos in detected0 && IsRod(Plus(pos, Axes[i]))
      requires Searched(detected0, nodes0, inputs0, detected1, nodes1, inputs1)
      requires Covered(pos, i, 0, nodes1, detected1)
      requires Reaches(nodes1, pos, detected0, detected1)
      ensures Searched(detected0, nodes0, inputs0, detected, nodes, inputs)
      ensures Covered(pos, i + 1, 0, nodes, detected)
      ensures Reaches(nodes, pos, detected0, detected)
      decreases |Cells() - detected0|, 2
    {
      var rel := Axes[i];
      nodes, detected, inputs := nodes1, detected1, inputs1;
      ghost var stopped := false;
      CoveredGrows(pos, i, 0, nodes, detected, nodes, detected);
      for dist := 1 to MaxDistance + 1
        invariant Searched(detected0, nodes0, inputs0, detected, nodes, inputs)
        invariant Clear(pos, rel, dist)
        invariant Covered(pos, i, dist, nodes, detected)
        invariant Reaches(nodes, pos, detected0, detected)
        invariant !stopped
      {
        var next := Step(pos, rel, dist);
        if !IsRod(next) {
          if IsCopper(next) {
            nodes, detected, inputs := Visit(pos, i, dist, detected0, nodes0, inputs0, nodes, detected, inputs);
          } else {
            Blocked(pos, rel, dist);
            CoveredAxis(pos, i, dist, nodes, detected);
            stopped := true;
            break;
          }
        } else {
          CoveredStep(pos, i, dist, nodes, detected);
        }
        ClearStep(pos, rel, dist);
      }
      if !stopped {
        CoveredAxis(pos, i, MaxDistance + 1, nodes, detected);
      }
    }

    /**
     * The copper cell a scan from `pos` reaches `dist` steps along `Axes[i]`:
     * detected and expanded if it was not yet, then linked to `pos`.
     */
    method Visit(pos: OriginRelative, i: int, dist: int, detected0: set<OriginRelative>,
                 nodes0: set<set<OriginRelative>>, inputs0: set<OriginRelative>, nodes1: set<set<OriginRelative>>,
                 detected1: set<OriginRelative>, inputs1: set<OriginRelative>)
      returns (nodes: set<set<OriginRelative>>, detected: set<OriginRelative>, inputs: set<OriginRelative>)
      requires 0 <= i < |Axes| && pos in detected0 && Linked(pos, Axes[i], dist)
      requires Searched(detected0, nodes0, inputs0, detected1, nodes1, inputs1)
      requires Covered(pos, i, dist, nodes1, detected1)
      requires Reaches(nodes1, pos, detected0, detected1)
      ensures Searched(detected0, nodes0, inputs0, detected, nodes, inputs)
      ensures Covered(pos, i, dist + 1, nodes, detected)
      ensures Reaches(nodes, pos, detected0, detected)
      decreases |Cells() - detected0|, 1
    {
      var next := Step(pos, Axes[i], dist);
      nodes, detected, inputs := Descend(next, detected0, nodes0, inputs0, nodes1, detected1, inputs1);
      AddLink(pos, i, dist, detected0, nodes0, inputs0, detected, nodes, inputs);
      ReachesThroughEdge(nodes1, nodes, pos, next, detected0, detected1, detected);
      nodes := nodes + {{pos, next}};
      CoveredGrows(pos, i, dist, nodes1, detected1, nodes, detected);
      CoveredStep(pos, i, dist, nodes, detected);
    }

    /** A copper cell the search reaches: when not yet detected, detect it (and record an input) and expand it. */
    method Descend(next: OriginRelative, detected0: set<OriginRelative>, nodes0: set<set<OriginRelative>>,
                   inputs0: set<OriginRelative>, nodes1: set<set<OriginRelative>>, detected1: set<OriginRelative>,
                   inputs1: set<OriginRelative>)
      returns (nodes: set<set<OriginRelative>>, detected: set<OriginRelative>, inputs: set<OriginRelative>)
      requires IsCopper(next)
      requires Searched(detected0, nodes0, inputs0, detected1, nodes1, inputs1)
      ensures Searched(detected0, nodes0, inputs0, detected, nodes, inputs)
      ensures next in detected && nodes1 <= nodes && detected1 <= detected
      ensures next in detected1 ==> nodes == nodes1 && detected == detected1 && inputs == inputs1
      ensures Reaches(nodes, next, detected1, detected)
      decreases |Cells() - detected0|, 0
    {
      nodes, detected, inputs := nodes1, detected1, inputs1;
      if next !in detected {
        if IsInput(next) {
          inputs := inputs + {next};
        }
        detected := detected + {next};
        Shrinks(detected0, detected, next);
        ghost var inputs2 := inputs;
        nodes, detected, inputs := DetectDown(next, nodes, detected, inputs);
        SearchedAfterCall(next, detected0, nodes0, inputs0, detected1, nodes1, inputs1, inputs2, detected, nodes, inputs);
        ReachesFromSelf(nodes, next, detected1, detected);
      }
    }

    /** Detecting one more copper cell leaves fewer cells to detect. */
    lemma Shrinks(detected0: set<OriginRelative>, detected: set<OriginRelative>, next: OriginRelative)
      requires detected0 <= detected && next in detected && next !in detected0 && IsCopper(next)
      ensures |Cells() - detected| < |Cells() - detected0|
    {
      CopperInCells(next);
      FewerLeft(Cells(), detected0, detected, next);
    }

    /** A rod or copper cell `dist` steps out keeps the line clear one step further. */
    lemma ClearStep(pos: OriginRelative, rel: OriginRelative, dist: int)
      requires Clear(pos, rel, dist) && (IsRod(Step(pos, rel, dist)) || IsCopper(Step(pos, rel, dist)))
      ensures Clear(pos, rel, dist + 1)
    {
    }

    /** Without a rod next to `pos` along `Axes[i]` there is no link along that axis. */
    lemma NoRodNoLink(pos: OriginRelative, i: int, nodes: set<set<OriginRelative>>, detected: set<OriginRelative>)
      requires 0 <= i < |Axes| && !IsRod(Plus(pos, Axes[i])) && Covered(pos, i, 0, nodes, detected)
      ensures Covered(pos, i + 1, 0, nodes, detected)
    {
      CoveredAxis(pos, i, 0, nodes, detected);
    }

    /** Once no link along `Axes[i]` is `n` or more steps long, that axis is covered. */
    lemma CoveredAxis(q: OriginRelative, i: int, n: int, nodes: set<set<OriginRelative>>, detected: set<OriginRelative>)
      requires 0 <= i < |Axes| && Covered(q, i, n, nodes, detected)
      requires forall d :: n <= d ==> !Linked(q, Axes[i], d)
      ensures Covered(q, i + 1, 0, nodes, detected)
    {
    }

    /** Covering the link `n` steps along `Axes[i]` covers one step further. */
    lemma CoveredStep(q: OriginRelative, i: int, n: int, nodes: set<set<OriginRelative>>, detected: set<OriginRelative>)
      requires 0 <= i < |Axes| && Covered(q, i, n, nodes, detected)
      requires Linked(q, Axes[i], n) ==> {q, Step(q, Axes[i], n)} in nodes && Step(q, Axes[i], n) in detected
      ensures Covered(q, i, n + 1, nodes, detected)
    {
    }

    /** Recording more edges and cells never uncovers a link. */
    lemma CoveredGrows(q: OriginRelative, i: int, n: int, nodes: set<set<OriginRelative>>, detected: set<OriginRelative>,
                       nodes': set<set<OriginRelative>>, detected': set<OriginRelative>)
      requires Covered(q, i, n, nodes, detected) && nodes <= nodes' && detected <= detected'
      ensures Covered(q, i, n, nodes', detected')
    {
    }

    /** A cell that is neither rod nor copper ends every scan that would pass it. */
    lemma Blocked(pos: OriginRelative, rel: OriginRelative, dist: int)
      requires 1 <= dist && !IsRod(Step(pos, rel, dist)) && !IsCopper(Step(pos, rel, dist))
      ensures forall d :: dist <= d ==> !Linked(pos, rel, d)
    {
      forall d | dist <= d
        ensures !Linked(pos, rel, d)
      {
        if d > dist {
          assert !(IsRod(Step(pos, rel, dist)) || IsCopper(Step(pos, rel, dist)));
        }
      }
    }

    /** A link from a detected cell to a detected cell may be recorded as an edge. */
    lemma AddLink(pos: OriginRelative, i: int, dist: int, detected0: set<OriginRelative>,
                  nodes0: set<set<OriginRelative>>, inputs0: set<OriginRelative>, detected: set<OriginRelative>,
                  nodes: set<set<OriginRelative>>, inputs: set<OriginRelative>)
      requires 0 <= i < |Axes| && Linked(pos, Axes[i], dist)
      requires pos in detected && Step(pos, Axes[i], dist) in detected
      requires Searched(detected0, nodes0, inputs0, detected, nodes, inputs)
      ensures Searched(detected0, nodes0, inputs0, detected, nodes + {{pos, Step(pos, Axes[i], dist)}}, inputs)
    {
      var e := {pos, Step(pos, Axes[i], dist)};
      assert IsLink(e);
      forall q | q in detected && q !in detected0
        ensures Expanded(q, nodes + {e}, detected)
      {
        CoveredGrows(q, |Axes|, 0, nodes, detected, nodes + {e}, detected);
      }
    }

    /** The recursive call of `DetectDown` on `next` keeps the search's promises for the caller. */
    lemma SearchedAfterCall(next: OriginRelative, detected0: set<OriginRelative>, nodes0: set<set<OriginRelative>>,
                            inputs0: set<OriginRelative>, detected1: set<OriginRelative>,
                            nodes1: set<set<OriginRelative>>, inputs1: set<OriginRelative>,
                            inputs2: set<OriginRelative>, detected: set<OriginRelative>,
                            nodes: set<set<OriginRelative>>, inputs: set<OriginRelative>)
      requires Searched(detected0, nodes0, inputs0, detected1, nodes1, inputs1)
      requires next !in detected1 && IsCopper(next)
      requires inputs2 == if IsInput(next) then inputs1 + {next} else inputs1
      requires Searched(detected1 + {next}, nodes1, inputs2, detected, nodes, inputs)
      requires Expanded(next, nodes, detected)
      ensures Searched(detected0, nodes0, inputs0, detected, nodes, inputs)
    {
      forall q | q in detected && q !in detected0
        ensures Expanded(q, nodes, detected)
      {
        if q in detected1 {
          CoveredGrows(q, |Axes|, 0, nodes1, detected1, nodes, detected);
        }
      }
    }

    /**
     * `detect`: the search from the origin. Every cell it detects besides
     * the origin is copper, the inputs are exactly the detected cut-copper
     * cells besides the origin, every edge is a link between detected cells,
     * every detected cell has all its links recorded, and every detected cell
     * is joined to the origin by recorded edges.
     */
    method Detect() returns (nodes: set<set<OriginRelative>>, detected: set<OriginRelative>,
                             inputs: set<OriginRelative>)
      ensures Zero in detected
      ensures forall q :: q in detected && q != Zero ==> IsCopper(q)
      ensures forall q :: q in inputs <==> q in detected && q != Zero && IsInput(q)
      ensures forall e :: e in nodes ==> IsLink(e)
      ensures forall e, x :: e in nodes && x in e ==> x in detected
      ensures forall e :: e in nodes ==> |e| == 2
      ensures forall q :: q in detected ==> Expanded(q, nodes, detected)
      ensures forall q :: q in detected ==> Joined(nodes, Zero, q)
    {
      nodes, detected, inputs := DetectDown(Zero, {}, {Zero}, {});
      ReachesFromSelf(nodes, Zero, {}, detected);
      forall e | e in nodes
        ensures |e| == 2
      {
        LinkHasTwoEnds(e);
      }
    }

    /** A link joins two distinct cells. */
    lemma LinkHasTwoEnds(e: set<OriginRelative>)
      requires IsLink(e)
      ensures |e| == 2
    {
      var a, i, dist :| 0 <= i < |Axes| && Linked(a, Axes[i], dist) && e == {a, Step(a, Axes[i], dist)};
      LinkEndsDiffer(a, i, dist);
    }
  }

  /** The two ends of a link are distinct cells. */
  lemma LinkEndsDiffer(a: OriginRelative, i: int, dist: int)
    requires 0 <= i < |Axes| && dist >= 1
    ensures |{a, Step(a, Axes[i], dist)}| == 2
  {
    StepLeaves(a, i, dist);
  }
}
