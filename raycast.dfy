/**
 * The DDA (digital differential analyser) ray caster of script.js,
 * `castRayDDA`: from the player's position it walks the grid one grid line
 * at a time, always across the nearer of the next vertical and the next
 * horizontal line, until it enters a non-empty cell or leaves the grid.
 *
 * The direction is given as its cosine and sine, which the game computes
 * with `Math.cos` and `Math.sin`; here they are any two reals that are not
 * both zero. An axis whose component is zero has the side distance
 * JavaScript's `Infinity`, which the datatype `Ext` models exactly.
 *
 * `Walk` and `Cast` specify the loop; `CastRayDDA` is the loop itself and
 * is proved to return `Cast`; the lemmas state what the caster promises.
 */
module Raycast {
  import opened Wrappers
  import opened Grid

  /** The view distance `viewDist` (script.js:32). */
  const ViewDist: real := 20.0

  /**
   * A side or delta distance of the caster: a finite real, or the Infinity
   * that `Math.abs(1 / 0)` gives for an axis the ray runs parallel to.
   */
  datatype Ext = Fin(v: real) | Inf

  /** JavaScript's `a < b` on these numbers: Infinity is below nothing. */
  predicate Less(a: Ext, b: Ext) {
    match a
    case Inf => false
    case Fin(x) => b.Inf? || x < b.v
  }

  /** JavaScript's `a + b`: anything plus Infinity is Infinity. */
  function Plus(a: Ext, b: Ext): Ext {
    if a.Fin? && b.Fin? then Fin(a.v + b.v) else Inf
  }

  /** `k * d`, where `k` is positive whenever `d` is Infinity (so NaN never arises). */
  function Scale(k: real, d: Ext): Ext
    requires d.Inf? ==> k > 0.0
  {
    if d.Fin? then Fin(k * d.v) else Inf
  }

  function Abs(x: real): real {
    if x < 0.0 then -x else x
  }

  /**
   * `d` is the ray length from one grid line of an axis to the next when
   * the ray's component along that axis is `c`: Infinity for a zero
   * component, otherwise the finite `1 / |c|`.
   */
  predicate Crossing(d: Ext, c: real) {
    (d.Inf? <==> c == 0.0) && (d.Fin? ==> d.v > 0.0 && d.v * Abs(c) == 1.0)
  }

  /** `Math.abs(1 / c)` (script.js:333-334). */
  function DeltaDist(c: real): (d: Ext)
    ensures Crossing(d, c)
  {
    if c == 0.0 then Inf else Fin(1.0 / Abs(c))
  }

  /** What stays fixed while one ray is cast (script.js:327-353). */
  datatype Ray = Ray(originX: real, originY: real, cosA: real, sinA: real,
                     stepX: int, stepY: int, deltaX: Ext, deltaY: Ext)

  function RayOf(px: real, py: real, cosA: real, sinA: real): Ray {
    Ray(px, py, cosA, sinA,
        if cosA < 0.0 then -1 else 1,
        if sinA < 0.0 then -1 else 1,
        DeltaDist(cosA), DeltaDist(sinA))
  }

  /**
   * A ray as `RayOf` builds it, whose direction is not the zero vector:
   * each step has the sign of its component and each delta is the
   * crossing length of its component.
   */
  predicate Aimed(r: Ray) {
    (r.cosA != 0.0 || r.sinA != 0.0) &&
    r.stepX == (if r.cosA < 0.0 then -1 else 1) && r.stepY == (if r.sinA < 0.0 then -1 else 1) &&
    Crossing(r.deltaX, r.cosA) && Crossing(r.deltaY, r.sinA)
  }

  /**
   * The loop state: the cell under the cursor, the ray length to the next
   * vertical and the next horizontal grid line, and the axis advanced last
   * (0 for x, 1 for y).
   */
  datatype Cursor = Cursor(mapX: int, mapY: int, sideDistX: Ext, sideDistY: Ext, side: int)

  /**
   * The state before the loop: the player's cell and the first two side
   * distances, which are non-negative and infinite exactly on an axis the
   * ray runs parallel to.
   */
  function Start(r: Ray): (c: Cursor)
    requires Aimed(r)
    ensures Inv(r, c)
  {
    var mapX := r.originX.Floor;
    var mapY := r.originY.Floor;
    FloorBounds(r.originX);
    FloorBounds(r.originY);
    var kx := if r.cosA < 0.0 then r.originX - mapX as real else mapX as real + 1.0 - r.originX;
    var ky := if r.sinA < 0.0 then r.originY - mapY as real else mapY as real + 1.0 - r.originY;
    ScaleNonNegative(kx, r.deltaX);
    ScaleNonNegative(ky, r.deltaY);
    Cursor(mapX, mapY, Scale(kx, r.deltaX), Scale(ky, r.deltaY), 0)
  }

  /**
   * One iteration of the loop's first half: cross the nearer grid line.
   * Exactly one axis advances, x only when its side distance is strictly
   * the smaller (ties go to y); the other axis keeps its cell and its side
   * distance.
   */
  function Advance(r: Ray, c: Cursor): (n: Cursor)
    ensures n.side == 0 || n.side == 1
    ensures n.side == 0 <==> Less(c.sideDistX, c.sideDistY)
    ensures n.side == 0 ==> n.mapX == c.mapX + r.stepX && n.mapY == c.mapY && n.sideDistY == c.sideDistY
    ensures n.side == 1 ==> n.mapY == c.mapY + r.stepY && n.mapX == c.mapX && n.sideDistX == c.sideDistX
  {
    if Less(c.sideDistX, c.sideDistY) then
      c.(sideDistX := Plus(c.sideDistX, r.deltaX), mapX := c.mapX + r.stepX, side := 0)
    else
      c.(sideDistY := Plus(c.sideDistY, r.deltaY), mapY := c.mapY + r.stepY, side := 1)
  }

  predicate Outside(g: seq<seq<int>>, c: Cursor)
    requires Rectangular(g)
  {
    !CellInside(g, c.mapX, c.mapY)
  }

  /** The loop's second half sets `hit`: off the grid, or on a non-empty cell. */
  predicate Stops(g: seq<seq<int>>, c: Cursor)
    requires Rectangular(g)
  {
    Outside(g, c) || CellAt(g, c.mapX, c.mapY) != EmptyCode
  }

  /** The `cellValue` the loop records: 1, an imaginary wall, off the grid. */
  function CellValue(g: seq<seq<int>>, c: Cursor): int
    requires Rectangular(g)
  {
    if Outside(g, c) then WallCode else CellAt(g, c.mapX, c.mapY)
  }

  /** Side distances are non-negative, and infinite exactly on an axis with infinite delta. */
  predicate Inv(r: Ray, c: Cursor) {
    (c.sideDistX.Inf? <==> r.deltaX.Inf?) && (c.sideDistY.Inf? <==> r.deltaY.Inf?) &&
    (c.sideDistX.Fin? ==> c.sideDistX.v >= 0.0) && (c.sideDistY.Fin? ==> c.sideDistY.v >= 0.0)
  }

  /**
   * The axis advanced last has a finite delta, and its side distance minus
   * that delta (its value before the last step) is non-negative.
   */
  predicate Settled(r: Ray, c: Cursor) {
    (c.side == 0 && r.deltaX.Fin? && c.sideDistX.Fin? && c.sideDistX.v - r.deltaX.v >= 0.0) ||
    (c.side == 1 && r.deltaY.Fin? && c.sideDistY.Fin? && c.sideDistY.v - r.deltaY.v >= 0.0)
  }

  function Clamp(k: int): nat {
    if k < 0 then 0 else k
  }

  /** Steps each axis can still take in its direction before it leaves the grid. */
  function StepsLeft(g: seq<seq<int>>, r: Ray, c: Cursor): nat
    requires Rectangular(g)
  {
    Clamp(if r.stepX > 0 then Width(g) - c.mapX else c.mapX + 1) +
    Clamp(if r.stepY > 0 then Height(g) - c.mapY else c.mapY + 1)
  }

  /** A step keeps the side distances well behaved and settles on a finite axis. */
  lemma AdvanceKeepsInv(r: Ray, c: Cursor)
    requires Aimed(r) && Inv(r, c)
    ensures Inv(r, Advance(r, c)) && Settled(r, Advance(r, c))
  {
  }

  /**
   * The loop of `castRayDDA` from cursor `c` on: the cursor it stops at.
   * It stops on a cell off the grid or a non-empty one, so on a finite grid
   * the loop always ends with `hit` set.
   */
  function Walk(g: seq<seq<int>>, r: Ray, c: Cursor): (e: Cursor)
    requires Rectangular(g) && Aimed(r) && Inv(r, c)
    ensures Stops(g, e) && Inv(r, e) && Settled(r, e)
    decreases StepsLeft(g, r, c)
  {
    AdvanceKeepsInv(r, c);
    var next := Advance(r, c);
    if Stops(g, next) then next else Walk(g, r, next)
  }

  lemma ScaleNonNegative(k: real, d: Ext)
    requires k >= 0.0 && (d.Inf? ==> k > 0.0) && (d.Fin? ==> d.v > 0.0)
    ensures Scale(k, d).Fin? ==> Scale(k, d).v >= 0.0
  {
    if d.Fin? {
      assert k * d.v >= 0.0 * d.v;
    }
  }

  lemma FloorBounds(x: real)
    ensures x.Floor as real <= x < x.Floor as real + 1.0
  {
  }

  /** One unfolding of `Walk`; a step that does not stop brings the grid's edge one step nearer. */
  lemma WalkUnfold(g: seq<seq<int>>, r: Ray, c: Cursor)
    requires Rectangular(g) && Aimed(r) && Inv(r, c)
    ensures Inv(r, Advance(r, c))
    ensures Stops(g, Advance(r, c)) ==> Walk(g, r, c) == Advance(r, c)
    ensures !Stops(g, Advance(r, c)) ==>
              Walk(g, r, c) == Walk(g, r, Advance(r, c)) &&
              StepsLeft(g, r, Advance(r, c)) < StepsLeft(g, r, c)
    ensures StepsLeft(g, r, Advance(r, c)) <= StepsLeft(g, r, c)
  {
    AdvanceKeepsInv(r, c);
  }

  /** The record `castRayDDA` returns (script.js:406); `side` is the struck face. */
  datatype RayHit = RayHit(dist: real, cellValue: int, side: Face, cellX: int, cellY: int)

  /**
   * The struck face (script.js:391-404): W or E exactly for an x step, W
   * only travelling east, N only travelling south (y grows downwards).
   */
  function FaceOf(r: Ray, side: int): (f: Face)
    ensures (f == W || f == E) <==> side == 0
    ensures f == W ==> r.cosA > 0.0
    ensures f == E ==> r.cosA <= 0.0
    ensures f == N ==> r.sinA > 0.0
    ensures f == S ==> r.sinA <= 0.0
  {
    if side == 0 then (if r.cosA > 0.0 then W else E)
    else (if r.sinA > 0.0 then N else S)
  }

  /** The side distance of the last advanced axis minus that axis's delta (script.js:385-389). */
  function LastDistance(r: Ray, e: Cursor): (d: real)
    requires Settled(r, e)
    ensures d >= 0.0
  {
    if e.side == 0 then e.sideDistX.v - r.deltaX.v else e.sideDistY.v - r.deltaY.v
  }

  /** The record built from the cursor the loop stopped at. */
  function HitOf(g: seq<seq<int>>, r: Ray, e: Cursor): RayHit
    requires Rectangular(g) && Settled(r, e)
  {
    RayHit(LastDistance(r, e), CellValue(g, e), FaceOf(r, e.side), e.mapX, e.mapY)
  }

  /**
   * What `castRayDDA` returns for a ray from `(px, py)` in direction
   * `(cosA, sinA)`. It ends on a cell off the grid, reported as the
   * imaginary wall 1, or on an in-bounds cell whose value is not 0; the
   * distance is never negative.
   */
  function Cast(g: seq<seq<int>>, px: real, py: real, cosA: real, sinA: real): (h: RayHit)
    requires Rectangular(g) && (cosA != 0.0 || sinA != 0.0)
    ensures h.dist >= 0.0
    ensures !CellInside(g, h.cellX, h.cellY) ==> h.cellValue == WallCode
    ensures CellInside(g, h.cellX, h.cellY) ==>
              h.cellValue == CellAt(g, h.cellX, h.cellY) && h.cellValue != EmptyCode
  {
    var r := RayOf(px, py, cosA, sinA);
    HitOf(g, r, Walk(g, r, Start(r)))
  }

  lemma CastUnfold(g: seq<seq<int>>, px: real, py: real, cosA: real, sinA: real)
    requires Rectangular(g) && (cosA != 0.0 || sinA != 0.0)
    ensures var r := RayOf(px, py, cosA, sinA);
            Inv(r, Start(r)) &&
            var e := Walk(g, r, Start(r));
            Cast(g, px, py, cosA, sinA) == HitOf(g, r, e) ==
            RayHit(LastDistance(r, e), CellValue(g, e), FaceOf(r, e.side), e.mapX, e.mapY)
  {
  }

  /**
   * The set-up of one axis (script.js:330-353): the player's cell, the
   * step towards the ray's travel, the crossing length of the axis, and
   * the first side distance, which is the ray length from the player to
   * the first grid line of the axis in the direction of travel (Infinity
   * when the ray runs parallel to the axis).
   */
  method FirstCrossing(p: real, comp: real) returns (cell: int, step: int, delta: Ext, sideDist: Ext)
    ensures cell as real <= p < cell as real + 1.0
    ensures step == (if comp < 0.0 then -1 else 1)
    ensures Crossing(delta, comp)
    ensures sideDist.Inf? <==> comp == 0.0
    ensures sideDist.Fin? ==> 0.0 <= sideDist.v <= delta.v
    ensures sideDist.Fin? ==>
              sideDist.v * Abs(comp) == ((if step > 0 then cell + 1 else cell) as real - p) * step as real
  {
    cell := p.Floor;
    FloorBounds(p);
    delta := DeltaDist(comp);
    if comp < 0.0 {
      step := -1;
      sideDist := Scale(p - cell as real, delta);
    } else {
      step := 1;
      sideDist := Scale(cell as real + 1.0 - p, delta);
    }
    if comp != 0.0 {
      StartAxis(p, comp, delta.v);
    }
  }

  /**
   * The set-up `FirstCrossing` promises is the one `Start` computes: the
   * cell is the floor, the delta is `DeltaDist`, and the side distance is
   * the offset to the first grid line times the delta.
   */
  lemma FirstCrossingIsStart(p: real, comp: real, cell: int, step: int, delta: Ext, sideDist: Ext)
    requires cell as real <= p < cell as real + 1.0
    requires step == (if comp < 0.0 then -1 else 1)
    requires Crossing(delta, comp)
    requires sideDist.Inf? <==> comp == 0.0
    requires sideDist.Fin? ==>
               sideDist.v * Abs(comp) == ((if step > 0 then cell + 1 else cell) as real - p) * step as real
    ensures cell == p.Floor && delta == DeltaDist(comp)
    ensures sideDist == Scale(if comp < 0.0 then p - cell as real else cell as real + 1.0 - p, delta)
  {
    FloorBounds(p);
    var k := if comp < 0.0 then p - cell as real else cell as real + 1.0 - p;
    if comp != 0.0 {
      var a, d, s := Abs(comp), delta.v, sideDist.v;
      assert s * a == k;
      assert d * a == 1.0;
      calc {
        s;
        s * (d * a);
        (s * a) * d;
        k * d;
      }
    }
  }

  /**
   * `castRayDDA` (script.js:326-407). The loop only ends with `hit` set, so
   * the function's `return null` is never reached: the result is always a
   * hit, the one `Cast` describes.
   */
  method CastRayDDA(g: seq<seq<int>>, playerX: real, playerY: real, cosA: real, sinA: real)
    returns (result: Option<RayHit>)
    requires Rectangular(g)
    requires cosA != 0.0 || sinA != 0.0
    ensures result == Some(Cast(g, playerX, playerY, cosA, sinA))
  {
    var mapX, stepX, deltaDistX, sideDistX := FirstCrossing(playerX, cosA);
    var mapY, stepY, deltaDistY, sideDistY := FirstCrossing(playerY, sinA);

    var hit := false;
    var side := 0;
    var cellValue := 0;
    var distance := 0.0;

    ghost var ray := RayOf(playerX, playerY, cosA, sinA);
    FirstCrossingIsStart(playerX, cosA, mapX, stepX, deltaDistX, sideDistX);
    FirstCrossingIsStart(playerY, sinA, mapY, stepY, deltaDistY, sideDistY);
    ghost var final := Walk(g, ray, Start(ray));
    assert Cursor(mapX, mapY, sideDistX, sideDistY, side) == Start(ray);

    while !hit && distance < ViewDist
      invariant Inv(ray, Cursor(mapX, mapY, sideDistX, sideDistY, side))
      invariant !hit ==> Walk(g, ray, Cursor(mapX, mapY, sideDistX, sideDistY, side)) == final
      invariant !hit ==> distance == 0.0
      invariant hit ==> Cursor(mapX, mapY, sideDistX, sideDistY, side) == final
      invariant hit ==> cellValue == CellValue(g, final)
      decreases StepsLeft(g, ray, Cursor(mapX, mapY, sideDistX, sideDistY, side)) + (if hit then 0 else 1)
    {
      ghost var before := Cursor(mapX, mapY, sideDistX, sideDistY, side);
      WalkUnfold(g, ray, before);
      if Less(sideDistX, sideDistY) {
        sideDistX := Plus(sideDistX, deltaDistX);
        mapX := mapX + stepX;
        side := 0;
      } else {
        sideDistY := Plus(sideDistY, deltaDistY);
        mapY := mapY + stepY;
        side := 1;
      }
      assert Cursor(mapX, mapY, sideDistX, sideDistY, side) == Advance(ray, before);

      if mapX < 0 || mapX >= Width(g) || mapY < 0 || mapY >= Height(g) {
        hit := true;
        cellValue := WallCode;  // imaginary wall
        distance := ViewDist;
      } else {
        cellValue := g[mapY][mapX];
        if cellValue != EmptyCode {
          hit := true;
        }
      }
    }

    assert hit;
    assert Settled(ray, final);
    if side == 0 {
      distance := sideDistX.v - deltaDistX.v;
    } else {
      distance := sideDistY.v - deltaDistY.v;
    }

    var wallSide := N;
    if side == 0 {
      if cosA > 0.0 {
        wallSide := W;
      } else {
        wallSide := E;
      }
    } else {
      if sinA > 0.0 {
        wallSide := N;
      } else {
        wallSide := S;
      }
    }

    assert distance == LastDistance(ray, final);
    assert wallSide == FaceOf(ray, side);
    CastUnfold(g, playerX, playerY, cosA, sinA);
    result := Some(RayHit(distance, cellValue, wallSide, mapX, mapY));
  }

  /**
   * Each iteration moves the cursor exactly one cell along exactly one axis,
   * in the direction of that axis's component, and records the axis in
   * `side`; an axis whose component is zero (Infinity delta) never moves.
   */
  lemma StepMovesOneCell(r: Ray, c: Cursor)
    requires Aimed(r) && Inv(r, c)
    ensures var n := Advance(r, c);
            (n.mapX == c.mapX) != (n.mapY == c.mapY) &&
            (n.mapX != c.mapX ==>
               n.side == 0 && r.cosA != 0.0 && n.mapX == c.mapX + (if r.cosA < 0.0 then -1 else 1)) &&
            (n.mapY != c.mapY ==>
               n.side == 1 && r.sinA != 0.0 && n.mapY == c.mapY + (if r.sinA < 0.0 then -1 else 1))
  {
  }

  /**
   * The distance a step settles on is the smaller side distance before the
   * step: the ray length to the first grid line it crosses.
   */
  lemma StepDistance(r: Ray, c: Cursor)
    requires Aimed(r) && Inv(r, c)
    ensures Settled(r, Advance(r, c))
    ensures var d := LastDistance(r, Advance(r, c));
            d >= 0.0 &&
            (Advance(r, c).side == 0 ==> c.sideDistX == Fin(d) && (c.sideDistY.Inf? || d < c.sideDistY.v)) &&
            (Advance(r, c).side == 1 ==> c.sideDistY == Fin(d) && (c.sideDistX.Inf? || d <= c.sideDistX.v))
  {
    AdvanceKeepsInv(r, c);
  }

  /**
   * The cell across the struck face is the cell the ray came from: the
   * cell it started in, or an empty cell it passed through.
   */
  lemma {:induction false} WalkCameFrom(g: seq<seq<int>>, r: Ray, c: Cursor)
    requires Rectangular(g) && Aimed(r) && Inv(r, c)
    ensures var e := Walk(g, r, c);
            var back := Across(e.mapX, e.mapY, FaceOf(r, e.side));
            back == (c.mapX, c.mapY) || (CellInside(g, back.0, back.1) && CellAt(g, back.0, back.1) == EmptyCode)
    decreases StepsLeft(g, r, c)
  {
    WalkUnfold(g, r, c);
    StepMovesOneCell(r, c);
    var next := Advance(r, c);
    if !Stops(g, next) {
      WalkCameFrom(g, r, next);
    }
  }

  /**
   * Struck face: crossing a vertical line eastwards (cosA > 0) strikes the
   * west face, westwards the east face; crossing a horizontal line with
   * sinA > 0 (southwards, y grows downwards) strikes the north face,
   * otherwise the south face. Behind the struck face lies the player's cell
   * or an empty cell.
   */
  lemma CastFace(g: seq<seq<int>>, px: real, py: real, cosA: real, sinA: real)
    requires Rectangular(g) && (cosA != 0.0 || sinA != 0.0)
    ensures var h := Cast(g, px, py, cosA, sinA);
            (h.side == W ==> cosA > 0.0) && (h.side == E ==> cosA < 0.0) &&
            (h.side == N ==> sinA > 0.0) && (h.side == S ==> sinA < 0.0) &&
            var back := Across(h.cellX, h.cellY, h.side);
            back == (px.Floor, py.Floor) ||
            (CellInside(g, back.0, back.1) && CellAt(g, back.0, back.1) == EmptyCode)
  {
    var r := RayOf(px, py, cosA, sinA);
    CastUnfold(g, px, py, cosA, sinA);
    WalkCameFrom(g, r, Start(r));
  }

  /**
   * Inside a closed border, a walk from an interior cell never leaves the
   * grid: it stops on an in-bounds cell that is not empty.
   */
  lemma {:induction false} EnclosedWalk(g: seq<seq<int>>, r: Ray, c: Cursor)
    requires Rectangular(g) && Aimed(r) && Inv(r, c)
    requires BorderClosed(g) && Interior(g, c.mapX, c.mapY)
    ensures CellInside(g, Walk(g, r, c).mapX, Walk(g, r, c).mapY)
    decreases StepsLeft(g, r, c)
  {
    WalkUnfold(g, r, c);
    StepMovesOneCell(r, c);
    var next := Advance(r, c);
    if !Stops(g, next) {
      EnclosedEmptyCellsInterior(g, next);
      EnclosedWalk(g, r, next);
    }
  }

  lemma EnclosedEmptyCellsInterior(g: seq<seq<int>>, c: Cursor)
    requires Rectangular(g) && BorderClosed(g) && !Stops(g, c)
    ensures Interior(g, c.mapX, c.mapY)
  {
    EmptyCellsInterior(g, c.mapX, c.mapY);
  }

  /**
   * A ray cast from an interior cell of a grid with a closed border strikes
   * a real, non-empty cell of the grid, never the imaginary wall.
   */
  lemma EnclosedCastHitsCell(g: seq<seq<int>>, px: real, py: real, cosA: real, sinA: real)
    requires Rectangular(g) && (cosA != 0.0 || sinA != 0.0)
    requires BorderClosed(g) && Interior(g, px.Floor, py.Floor)
    ensures var h := Cast(g, px, py, cosA, sinA);
            CellInside(g, h.cellX, h.cellY) &&
            h.cellValue == CellAt(g, h.cellX, h.cellY) && h.cellValue != EmptyCode
  {
    var r := RayOf(px, py, cosA, sinA);
    CastUnfold(g, px, py, cosA, sinA);
    EnclosedWalk(g, r, Start(r));
  }

  /** The x of the next vertical grid line the ray will cross, and the y of the next horizontal one. */
  function NextLineX(r: Ray, c: Cursor): int {
    if r.stepX > 0 then c.mapX + 1 else c.mapX
  }

  function NextLineY(r: Ray, c: Cursor): int {
    if r.stepY > 0 then c.mapY + 1 else c.mapY
  }

  /**
   * The geometry the loop keeps: a finite side distance is the ray length
   * from the origin to the next grid line of its axis; an axis the ray runs
   * parallel to never leaves the origin's row or column; and the previous
   * crossing of each axis comes no later than the next crossing of the other.
   */
  predicate Geometric(r: Ray, c: Cursor) {
    TracksX(r, c) && TracksY(r, c) && Ordered(r, c) &&
    (r.deltaX.Inf? ==> c.mapX == r.originX.Floor) &&
    (r.deltaY.Inf? ==> c.mapY == r.originY.Floor)
  }

  predicate TracksX(r: Ray, c: Cursor) {
    c.sideDistX.Fin? ==>
      c.sideDistX.v * Abs(r.cosA) == (NextLineX(r, c) as real - r.originX) * r.stepX as real
  }

  predicate TracksY(r: Ray, c: Cursor) {
    c.sideDistY.Fin? ==>
      c.sideDistY.v * Abs(r.sinA) == (NextLineY(r, c) as real - r.originY) * r.stepY as real
  }

  predicate Ordered(r: Ray, c: Cursor) {
    c.sideDistX.Fin? && c.sideDistY.Fin? && r.deltaX.Fin? && r.deltaY.Fin? ==>
      c.sideDistX.v - r.deltaX.v <= c.sideDistY.v && c.sideDistY.v - r.deltaY.v <= c.sideDistX.v
  }

  /** Multiplying both sides of `a <= b` by a non-negative factor. */
  lemma MulMono(a: real, b: real, k: real)
    requires a <= b && k >= 0.0
    ensures a * k <= b * k
  {
  }

  /**
   * One axis, one grid line: if `s` is the ray length to the line `l` then
   * the point reached after `s` is on `l`; a ray length `t` between the
   * previous crossing `s - d` and `s` reaches a point between the previous
   * line and `l`.
   */
  lemma AxisCrossing(p: real, comp: real, step: int, d: real, s: real, l: int, t: real)
    requires comp != 0.0 && step == (if comp < 0.0 then -1 else 1)
    requires d * Abs(comp) == 1.0 && s * Abs(comp) == (l as real - p) * step as real
    requires s - d <= t <= s
    ensures p + s * comp == l as real
    ensures var low := if step > 0 then l - 1 else l;
            low as real <= p + t * comp <= low as real + 1.0
  {
    var a := Abs(comp);
    MulMono(t, s, a);
    MulMono(s - d, t, a);
    assert (s - d) * a == s * a - d * a;
  }

  /** The first side distance of one axis is the ray length to that axis's first grid line. */
  lemma StartAxis(p: real, comp: real, d: real)
    requires comp != 0.0 && d > 0.0 && d * Abs(comp) == 1.0
    ensures var m := p.Floor;
            var step := if comp < 0.0 then -1 else 1;
            var s := if comp < 0.0 then (p - m as real) * d else (m as real + 1.0 - p) * d;
            s * Abs(comp) == ((if step > 0 then m + 1 else m) as real - p) * step as real &&
            0.0 <= s && s - d <= 0.0
  {
    var m := p.Floor;
    FloorBounds(p);
    var a := Abs(comp);
    var k := if comp < 0.0 then p - m as real else m as real + 1.0 - p;
    calc {
      (k * d) * a;
      k * (d * a);
      { assert d * a == 1.0; }
      k * 1.0;
    }
    MulMono(0.0, k, d);
    MulMono(k, 1.0, d);
    if comp < 0.0 {
      assert k == (m as real - p) * (-1) as real;
    } else {
      assert k == ((m + 1) as real - p) * 1 as real;
    }
  }

  lemma StartGeometric(r: Ray)
    requires Aimed(r)
    ensures Geometric(r, Start(r))
  {
    StartGeometricX(r);
    StartGeometricY(r);
  }

  lemma StartGeometricX(r: Ray)
    requires Aimed(r)
    ensures TracksX(r, Start(r))
    ensures Start(r).sideDistX.Fin? ==> Start(r).sideDistX.v - r.deltaX.v <= 0.0
  {
    if r.cosA != 0.0 {
      StartAxis(r.originX, r.cosA, r.deltaX.v);
    }
  }

  lemma StartGeometricY(r: Ray)
    requires Aimed(r)
    ensures TracksY(r, Start(r))
    ensures Start(r).sideDistY.Fin? ==> Start(r).sideDistY.v - r.deltaY.v <= 0.0
  {
    if r.sinA != 0.0 {
      StartAxis(r.originY, r.sinA, r.deltaY.v);
    }
  }

  lemma StepGeometric(r: Ray, c: Cursor)
    requires Aimed(r) && Inv(r, c) && Geometric(r, c)
    ensures Geometric(r, Advance(r, c))
  {
    if Less(c.sideDistX, c.sideDistY) {
      StepGeometricX(r, c);
    } else {
      StepGeometricY(r, c);
    }
  }

  lemma StepGeometricX(r: Ray, c: Cursor)
    requires Aimed(r) && Inv(r, c) && Geometric(r, c) && Less(c.sideDistX, c.sideDistY)
    ensures Geometric(r, Advance(r, c))
  {
    var n := Advance(r, c);
    assert n == c.(sideDistX := Fin(c.sideDistX.v + r.deltaX.v), mapX := c.mapX + r.stepX, side := 0);
    CrossingStep(c.sideDistX.v, r.deltaX.v, Abs(r.cosA), NextLineX(r, c), r.originX, r.stepX);
    assert NextLineX(r, n) == NextLineX(r, c) + r.stepX;
  }

  lemma StepGeometricY(r: Ray, c: Cursor)
    requires Aimed(r) && Inv(r, c) && Geometric(r, c) && !Less(c.sideDistX, c.sideDistY)
    ensures Geometric(r, Advance(r, c))
  {
    var n := Advance(r, c);
    assert n == c.(sideDistY := Fin(c.sideDistY.v + r.deltaY.v), mapY := c.mapY + r.stepY, side := 1);
    CrossingStep(c.sideDistY.v, r.deltaY.v, Abs(r.sinA), NextLineY(r, c), r.originY, r.stepY);
    assert NextLineY(r, n) == NextLineY(r, c) + r.stepY;
  }

  /** Adding one delta to a side distance moves its grid line one step on. */
  lemma CrossingStep(s: real, d: real, a: real, l: int, o: real, step: int)
    requires d * a == 1.0 && s * a == (l as real - o) * step as real && (step == 1 || step == -1)
    ensures (s + d) * a == ((l + step) as real - o) * step as real
  {
    assert (s + d) * a == s * a + d * a;
    assert ((l + step) as real - o) * step as real == (l as real - o) * step as real + step as real * step as real;
  }

  /**
   * The point the ray from `(px, py)` in direction `(cosA, sinA)` reaches
   * after travelling `h.dist` lies on the face `h.side` of the cell
   * `(h.cellX, h.cellY)`.
   */
  predicate MeetsFace(px: real, py: real, cosA: real, sinA: real, h: RayHit) {
    OnFace(px + h.dist * cosA, py + h.dist * sinA, h.cellX, h.cellY, h.side)
  }

  /** The step that stops the walk crosses into its cell through the face it reports. */
  lemma StepHitPoint(g: seq<seq<int>>, r: Ray, c: Cursor)
    requires Rectangular(g) && Aimed(r) && Inv(r, c) && Geometric(r, c)
    ensures Settled(r, Advance(r, c))
    ensures MeetsFace(r.originX, r.originY, r.cosA, r.sinA, HitOf(g, r, Advance(r, c)))
  {
    AdvanceKeepsInv(r, c);
    if Less(c.sideDistX, c.sideDistY) {
      StepHitPointX(g, r, c);
    } else {
      StepHitPointY(g, r, c);
    }
  }

  lemma StepHitPointX(g: seq<seq<int>>, r: Ray, c: Cursor)
    requires Rectangular(g) && Aimed(r) && Inv(r, c) && Geometric(r, c) && Less(c.sideDistX, c.sideDistY)
    ensures Settled(r, Advance(r, c))
    ensures MeetsFace(r.originX, r.originY, r.cosA, r.sinA, HitOf(g, r, Advance(r, c)))
  {
    AdvanceKeepsInv(r, c);
    var t := c.sideDistX.v;
    LineX(r, c, t);
    WithinY(r, c, t);
    var e := Advance(r, c);
    assert e.side == 0 && e.mapX == c.mapX + r.stepX && e.mapY == c.mapY;
    assert HitOf(g, r, e).dist == t;
  }

  lemma StepHitPointY(g: seq<seq<int>>, r: Ray, c: Cursor)
    requires Rectangular(g) && Aimed(r) && Inv(r, c) && Geometric(r, c) && !Less(c.sideDistX, c.sideDistY)
    ensures Settled(r, Advance(r, c))
    ensures MeetsFace(r.originX, r.originY, r.cosA, r.sinA, HitOf(g, r, Advance(r, c)))
  {
    AdvanceKeepsInv(r, c);
    var t := c.sideDistY.v;
    LineY(r, c, t);
    WithinX(r, c, t);
    var e := Advance(r, c);
    assert e.side == 1 && e.mapY == c.mapY + r.stepY && e.mapX == c.mapX;
    assert HitOf(g, r, e).dist == t;
  }

  /** After its side distance, the ray is on the next vertical grid line. */
  lemma LineX(r: Ray, c: Cursor, t: real)
    requires Aimed(r) && Geometric(r, c) && c.sideDistX == Fin(t) && r.deltaX.Fin?
    ensures r.originX + t * r.cosA == NextLineX(r, c) as real
  {
    AxisCrossing(r.originX, r.cosA, r.stepX, r.deltaX.v, t, NextLineX(r, c), t);
  }

  lemma LineY(r: Ray, c: Cursor, t: real)
    requires Aimed(r) && Geometric(r, c) && c.sideDistY == Fin(t) && r.deltaY.Fin?
    ensures r.originY + t * r.sinA == NextLineY(r, c) as real
  {
    AxisCrossing(r.originY, r.sinA, r.stepY, r.deltaY.v, t, NextLineY(r, c), t);
  }

  /**
   * A ray length no later than the next horizontal crossing and no
   * earlier than the previous one keeps the ray in the cursor's row.
   */
  lemma WithinY(r: Ray, c: Cursor, t: real)
    requires Aimed(r) && Inv(r, c) && Geometric(r, c)
    requires c.sideDistY.Fin? ==> c.sideDistY.v - r.deltaY.v <= t <= c.sideDistY.v
    ensures c.mapY as real <= r.originY + t * r.sinA <= c.mapY as real + 1.0
  {
    if r.sinA != 0.0 {
      AxisCrossing(r.originY, r.sinA, r.stepY, r.deltaY.v, c.sideDistY.v, NextLineY(r, c), t);
    } else {
      FloorBounds(r.originY);
    }
  }

  lemma WithinX(r: Ray, c: Cursor, t: real)
    requires Aimed(r) && Inv(r, c) && Geometric(r, c)
    requires c.sideDistX.Fin? ==> c.sideDistX.v - r.deltaX.v <= t <= c.sideDistX.v
    ensures c.mapX as real <= r.originX + t * r.cosA <= c.mapX as real + 1.0
  {
    if r.cosA != 0.0 {
      AxisCrossing(r.originX, r.cosA, r.stepX, r.deltaX.v, c.sideDistX.v, NextLineX(r, c), t);
    } else {
      FloorBounds(r.originX);
    }
  }

  lemma {:induction false} WalkHitPoint(g: seq<seq<int>>, r: Ray, c: Cursor)
    requires Rectangular(g) && Aimed(r) && Inv(r, c) && Geometric(r, c)
    ensures MeetsFace(r.originX, r.originY, r.cosA, r.sinA, HitOf(g, r, Walk(g, r, c)))
    decreases StepsLeft(g, r, c)
  {
    WalkUnfold(g, r, c);
    var next := Advance(r, c);
    if Stops(g, next) {
      StepHitPoint(g, r, c);
    } else {
      StepGeometric(r, c);
      WalkHitPoint(g, r, next);
    }
  }

  /**
   * The returned distance is the ray length at which the ray meets the
   * struck face: the point `origin + dist * (cosA, sinA)` lies on the
   * reported face of the reported cell.
   */
  lemma CastHitPoint(g: seq<seq<int>>, px: real, py: real, cosA: real, sinA: real)
    requires Rectangular(g) && (cosA != 0.0 || sinA != 0.0)
    ensures MeetsFace(px, py, cosA, sinA, Cast(g, px, py, cosA, sinA))
  {
    var r := RayOf(px, py, cosA, sinA);
    CastUnfold(g, px, py, cosA, sinA);
    StartGeometric(r);
    WalkHitPoint(g, r, Start(r));
  }

  /**
   * A ray cast due east (cosine 1, sine 0) strikes the west face of its
   * cell, and its distance is the x distance from the origin to that face,
   * whatever the origin's offset across the corridor.
   */
  lemma EastwardCast(g: seq<seq<int>>, px: real, py: real)
    requires Rectangular(g)
    ensures var h := Cast(g, px, py, 1.0, 0.0);
            h.side == W && h.dist == h.cellX as real - px
  {
    CastFace(g, px, py, 1.0, 0.0);
    CastHitPoint(g, px, py, 1.0, 0.0);
  }

  /**
   * A 3 by 3 room of walls around one empty cell: from its centre, the
   * ray due east strikes the west face of the wall cell (2, 1) at
   * distance 0.5.
   */
  lemma SingleCellRoom()
    ensures var h := Cast([[1, 1, 1], [1, 0, 1], [1, 1, 1]], 1.5, 1.5, 1.0, 0.0);
            h == RayHit(0.5, WallCode, W, 2, 1)
  {
    var g := [[1, 1, 1], [1, 0, 1], [1, 1, 1]];
    var r := RayOf(1.5, 1.5, 1.0, 0.0);
    var c := Start(r);
    assert c == Cursor(1, 1, Fin(0.5), Inf, 0);
    WalkUnfold(g, r, c);
    assert Advance(r, c) == Cursor(2, 1, Fin(1.5), Inf, 0);
    CastUnfold(g, 1.5, 1.5, 1.0, 0.0);
  }
}
