/**
 * The per-column decisions of `render` (script.js:283-321): how tall the
 * wall slice of a ray is drawn, how bright it is, and when it is tinted
 * blue because the ray struck the glowing face of an exit. The canvas
 * itself is not modelled: a column is described by the rectangle and the
 * colour the renderer would fill.
 */
module Shading {
  import opened Wrappers
  import opened Grid
  import opened Raycast

  /** Numerator of the inverse-distance wall height (script.js:294). */
  const HeightScale: real := 300.0

  datatype Rgb = Rgb(r: int, g: int, b: int)

  /** One filled slice: column `x`, rows `top .. top + height`, colour `color`. */
  datatype Column = Column(x: int, top: real, height: real, color: Rgb)

  function Min(a: real, b: real): real {
    if a <= b then a else b
  }

  /**
   * Wall height at distance `dist`: `min(canvasHeight, 300 / dist)`, where a
   * distance of 0 makes `1 / dist` infinite, so the minimum is the canvas
   * height. A slice never overflows the canvas, and in front of the player
   * (positive distance) it has positive height.
   */
  function LineHeight(dist: real, canvasHeight: real): (height: real)
    ensures height <= canvasHeight
    ensures dist == 0.0 ==> height == canvasHeight
    ensures dist > 0.0 && canvasHeight > 0.0 ==> height > 0.0
  {
    if dist == 0.0 then canvasHeight else Min(canvasHeight, HeightScale / dist)
  }

  /**
   * Gray level at distance `dist`: 200 at the player, never above 200 in
   * front of the player; nothing keeps it from going negative.
   */
  function Brightness(dist: real): (shade: int)
    ensures dist == 0.0 ==> shade == 200
    ensures dist >= 0.0 ==> shade <= 200
  {
    (200.0 - (dist / ViewDist) * 150.0).Floor
  }

  /**
   * The exit tint applies exactly to the designated face of an exit cell:
   * the cell's code is the exit code of the struck face.
   */
  predicate Tinted(h: RayHit)
    ensures Tinted(h) <==> h.cellValue == ExitCode(h.side)
  {
    ExitFaceRoundTrip(h.cellValue, h.side);
    IsExitCode(h.cellValue) && h.side == ExitFace(h.cellValue)
  }

  /**
   * The colour a hit is drawn in. Untinted slices are gray at the
   * brightness level. Tinted slices have equal red and green and a blue
   * channel capped at 255; for brightness in -110 .. 200 (never above 200
   * in front of the player) the blue channel strictly exceeds the others.
   */
  function ColorOf(h: RayHit): (c: Rgb)
    ensures var shade := Brightness(h.dist);
            (!Tinted(h) ==> c == Rgb(shade, shade, shade)) &&
            (Tinted(h) ==> c.r == c.g && c.b <= 255 && c.b <= shade + 55 &&
                           (-110 < shade <= 200 ==> c.r < c.b))
  {
    var shade := Brightness(h.dist);
    if Tinted(h) then
      var half := (shade as real * 0.5).Floor;
      assert half as real <= shade as real * 0.5;
      Rgb(half, half, if 255 <= shade + 55 then 255 else shade + 55)
    else
      Rgb(shade, shade, shade)
  }

  /** The slice column `x` draws for the hit `h`, centred vertically. */
  function ColumnOf(h: RayHit, x: int, canvasHeight: real): Column {
    var lineHeight := LineHeight(h.dist, canvasHeight);
    Column(x, (canvasHeight - lineHeight) / 2.0, lineHeight, ColorOf(h))
  }

  /**
   * The ray angle of column `i`: the field of view swept left to right,
   * from `fov / 2` left of the player's angle at column 0 up to `fov / 2`
   * right of it at column `numRays`, in equal steps.
   */
  function RayAngle(playerAngle: real, fov: real, numRays: nat, i: int): (angle: real)
    requires numRays > 0
    ensures i == 0 ==> angle == playerAngle - fov / 2.0
    ensures i == numRays ==> angle == playerAngle + fov / 2.0
  {
    var step := fov / numRays as real;
    assert numRays as real * step == fov;
    (playerAngle - fov / 2.0) + i as real * step
  }

  /** Nearer walls are drawn at least as tall as farther ones. */
  lemma LineHeightMonotone(near: real, far: real, canvasHeight: real)
    requires 0.0 < near <= far
    ensures LineHeight(far, canvasHeight) <= LineHeight(near, canvasHeight)
  {
    assert HeightScale / far <= HeightScale / near by {
      DivideMono(HeightScale, near, far);
    }
  }

  lemma DivideMono(k: real, near: real, far: real)
    requires k >= 0.0 && 0.0 < near <= far
    ensures k / far <= k / near
  {
    var a, b := k / far, k / near;
    assert a * far == k && b * near == k;
  }

  /** Brightness never increases with distance. */
  lemma BrightnessFalloff(near: real, far: real)
    requires near <= far
    ensures Brightness(far) <= Brightness(near)
  {
  }

  /** There is no lower clamp: a wall 30 units away has brightness -25. */
  lemma BrightnessUnclamped()
    ensures Brightness(30.0) == -25
  {
  }

  /** Every slice lies within the canvas rows `0 .. canvasHeight`. */
  lemma ColumnInsideCanvas(h: RayHit, x: int, canvasHeight: real)
    requires h.dist >= 0.0 && canvasHeight > 0.0
    ensures var col := ColumnOf(h, x, canvasHeight);
            0.0 <= col.top && 0.0 < col.height && col.top + col.height <= canvasHeight
  {
  }

  /**
   * `render`: one ray per canvas column across the field of view. Every ray
   * returns a hit, so every column gets a slice, and slice `i` is the one
   * for the cast along `RayAngle(.., i)`. The trigonometric functions are
   * parameters; they never vanish together, as cosine and sine cannot.
   */
  method Render(g: seq<seq<int>>, playerX: real, playerY: real, playerAngle: real,
                fov: real, numRays: nat, canvasHeight: real,
                cos: real -> real, sin: real -> real)
    returns (columns: seq<Column>)
    requires Rectangular(g) && numRays > 0
    requires forall a :: cos(a) != 0.0 || sin(a) != 0.0
    ensures |columns| == numRays
    ensures forall i :: 0 <= i < numRays ==>
              var angle := RayAngle(playerAngle, fov, numRays, i);
              columns[i] == ColumnOf(Cast(g, playerX, playerY, cos(angle), sin(angle)), i, canvasHeight)
  {
    var halfFov := fov / 2.0;
    var startAngle := playerAngle - halfFov;
    var angleStep := fov / numRays as real;
    columns := [];
    var i := 0;
    while i < numRays
      invariant 0 <= i <= numRays && |columns| == i
      invariant forall j :: 0 <= j < i ==>
                  var angle := RayAngle(playerAngle, fov, numRays, j);
                  columns[j] == ColumnOf(Cast(g, playerX, playerY, cos(angle), sin(angle)), j, canvasHeight)
    {
      var rayAngle := startAngle + i as real * angleStep;
      assert rayAngle == RayAngle(playerAngle, fov, numRays, i);
      var hit := CastRayDDA(g, playerX, playerY, cos(rayAngle), sin(rayAngle));
      if hit.Some? {
        var h := hit.value;
        assert h == Cast(g, playerX, playerY, cos(rayAngle), sin(rayAngle));
        var lineHeight := if h.dist == 0.0 then canvasHeight
                          else Min(canvasHeight, (1.0 / h.dist) * HeightScale);
        assert lineHeight == LineHeight(h.dist, canvasHeight);
        var column := Column(i, (canvasHeight - lineHeight) / 2.0, lineHeight, ColorOf(h));
        assert column == ColumnOf(h, i, canvasHeight);
        columns := columns + [column];
      }
      i := i + 1;
    }
  }

  /**
   * Rendering from a level's interior start: every slice shows a non-empty
   * cell of the grid and fits the canvas; it is gray except on an exit's
   * glowing face, which (unless very far away) is drawn bluer.
   */
  lemma RenderedSlices(g: seq<seq<int>>, px: real, py: real, cosA: real, sinA: real,
                       x: int, canvasHeight: real)
    requires Rectangular(g) && BorderClosed(g) && (cosA != 0.0 || sinA != 0.0)
    requires PointInside(g, px, py) && CellAt(g, px.Floor, py.Floor) == EmptyCode
    requires canvasHeight > 0.0
    ensures var h := Cast(g, px, py, cosA, sinA);
            var col := ColumnOf(h, x, canvasHeight);
            CellInside(g, h.cellX, h.cellY) && CellAt(g, h.cellX, h.cellY) != EmptyCode &&
            0.0 <= col.top && col.top + col.height <= canvasHeight &&
            (!Tinted(h) ==> col.color.r == col.color.b) &&
            (Tinted(h) && -110 < Brightness(h.dist) <= 200 ==> col.color.r < col.color.b)
  {
    var h := Cast(g, px, py, cosA, sinA);
    FlooredInside(g, px, py);
    EmptyCellsInterior(g, px.Floor, py.Floor);
    EnclosedCastHitsCell(g, px, py, cosA, sinA);
    ColumnInsideCanvas(h, x, canvasHeight);
  }
}
