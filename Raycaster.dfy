// The ray caster of src/scripts/main.ts: a fixed-step march from the player's
// position that stops at the first sample whose cell is not air (outside the
// grid counts as a hit), the fisheye correction of the hit distance, the shade
// and height of the wall column, and the fan of ray angles across the view.

module Raycaster {
  import opened Optional
  import opened MathExt
  import opened Vectors
  import opened Maps
  import opened Colors
  import opened Player

  /** What castRay returns on a hit: where the march stopped and how far that is from the player. */
  datatype Hit = Hit(position: Vec, distance: real)

  /** The rectangle drawRayWall fills, and the shade its colour is darkened by. */
  datatype Slab = Slab(x: real, y: real, width: real, height: real, shade: real)
  {
    /** The fill style: the wall colour darkened by the shade. */
    function Fill(): string
    {
      Darken(WallColor, shade)
    }
  }

  const Precision: nat := 64
  /** The view spans 60 degrees. */
  const FieldOfView: real := ToRadians(60.0)
  const WallPadding: real := 1.0
  const WallColor: string := "#ff4757"

  /** The position after k steps of direction from origin, added one step at a time. */
  function Sample(origin: Vec, direction: Vec, k: nat): Vec
  {
    if k == 0 then origin else Vec.Add(Sample(origin, direction, k - 1), direction)
  }

  /** The k-th sample is origin + k * direction. */
  lemma {:induction false} SampleClosedForm(origin: Vec, direction: Vec, k: nat)
    ensures Sample(origin, direction, k)
      == Vec(origin.x + (k as real) * direction.x, origin.y + (k as real) * direction.y)
  {
    if k > 0 {
      SampleClosedForm(origin, direction, k - 1);
      assert (k as real) * direction.x == ((k - 1) as real) * direction.x + direction.x;
      assert (k as real) * direction.y == ((k - 1) as real) * direction.y + direction.y;
    }
  }

  /** A sample stops the ray unless its cell is air; outside the grid get gives null, which is not air. */
  predicate Stops(m: MapController, p: Vec)
    reads m
    requires m.Ready()
  {
    m.Get(p.x, p.y) != Some(Air)
  }

  /**
   * The first step in [k, last] whose sample stops the ray, or last + 1 when
   * every sample from k to last is air.
   */
  function FirstStop(m: MapController, origin: Vec, direction: Vec, k: nat, last: nat): (j: nat)
    reads m
    requires m.Ready() && k <= last + 1
    ensures k <= j <= last + 1
    ensures forall i :: k <= i < j ==> !Stops(m, Sample(origin, direction, i))
    ensures j <= last ==> Stops(m, Sample(origin, direction, j))
    decreases last + 1 - k
  {
    if k > last then k
    else if Stops(m, Sample(origin, direction, k)) then k
    else FirstStop(m, origin, direction, k + 1, last)
  }

  /** The step of a ray at angle, 1 / precision of a unit long. */
  function Direction(angle: real, precision: nat): Vec
    requires precision > 0
  {
    Vec(Cos(angle) / precision as real, Sin(angle) / precision as real)
  }

  /** What castRay computes: the first of the samples 1 .. 20 * precision that stops, with its distance. */
  function Cast(m: MapController, origin: Vec, angle: real, precision: nat): Option<Hit>
    reads m
    requires m.Ready() && precision > 0
  {
    var direction := Direction(angle, precision);
    var j := FirstStop(m, origin, direction, 1, precision * 20);
    if j <= precision * 20 then
      var p := Sample(origin, direction, j);
      Some(Hit(p, origin.Distance(p)))
    else
      None
  }

  /**
   * A hit is the first stopping sample: every earlier sample was air, and the
   * hit is no further than 20 * precision steps. No hit means every sample was air.
   */
  lemma CastIsFirstHit(m: MapController, origin: Vec, angle: real, precision: nat)
    requires m.Ready() && precision > 0
    ensures var d := Direction(angle, precision);
      match Cast(m, origin, angle, precision)
      case Some(h) =>
        exists k :: 1 <= k <= precision * 20 && h.position == Sample(origin, d, k)
          && Stops(m, h.position) && h.distance == origin.Distance(h.position)
          && forall i :: 1 <= i < k ==> !Stops(m, Sample(origin, d, i))
      case None =>
        forall i :: 1 <= i <= precision * 20 ==> !Stops(m, Sample(origin, d, i))
  {
    var d := Direction(angle, precision);
    var j := FirstStop(m, origin, d, 1, precision * 20);
    if j <= precision * 20 {
      assert Sample(origin, d, j) == Cast(m, origin, angle, precision).value.position;
    }
  }

  /** Leaving the grid stops the ray: a sample outside [0, width) x [0, height) is a hit. */
  lemma OutsideStops(m: MapController, p: Vec)
    requires m.Ready()
    requires p.x < 0.0 || p.x >= m.Width() as real || p.y < 0.0 || p.y >= m.Height() as real
    ensures Stops(m, p)
  {
  }

  /** One more step of the march: it is the first stop if it stops, and the first stop lies beyond it otherwise. */
  lemma MarchStep(m: MapController, origin: Vec, d: Vec, last: nat, iteration: nat)
    requires m.Ready() && iteration < last && FirstStop(m, origin, d, 1, last) > iteration
    ensures Sample(origin, d, iteration + 1) == Vec.Add(Sample(origin, d, iteration), d)
    ensures Stops(m, Sample(origin, d, iteration + 1)) ==> FirstStop(m, origin, d, 1, last) == iteration + 1
    ensures !Stops(m, Sample(origin, d, iteration + 1)) ==> FirstStop(m, origin, d, 1, last) > iteration + 1
  {
  }

  /**
   * Main.castRay: march a clone of the player's position by the ray step,
   * looking up each new position, and return the first that is not air.
   */
  method CastRay(m: MapController, player: PlayerController, angle: real, precision: nat) returns (hit: Option<Hit>)
    requires m.Ready() && precision > 0
    ensures hit == Cast(m, player.position.Value(), angle, precision)
    ensures player.position.Value() == old(player.position.Value())
  {
    ghost var origin := player.position.Value();
    ghost var d := Direction(angle, precision);
    var position := player.position.Clone();
    var direction := new Vector2(Cos(angle) / precision as real, Sin(angle) / precision as real);
    var iteration := 0;
    while iteration < precision * 20
      invariant 0 <= iteration <= precision * 20
      invariant fresh(position) && fresh(direction) && direction.Value() == d
      invariant position.Value() == Sample(origin, d, iteration)
      invariant FirstStop(m, origin, d, 1, precision * 20) > iteration
    {
      MarchStep(m, origin, d, precision * 20, iteration);
      position.Add(direction);
      var block := m.GetAt(position);
      if block != Some(Air) {
        hit := Some(Hit(position.Value(), player.position.Value().Distance(position.Value())));
        return;
      }
      iteration := iteration + 1;
    }
    hit := None;
  }

  /** Main.compensateFishEye: scale the distance by the cosine of the angle between the ray and the view. */
  function CompensateFishEye(playerAngle: real, rayAngle: real, hit: Hit): Hit
  {
    hit.(distance := hit.distance * Cos(ClampAngle(playerAngle - rayAngle)))
  }

  /** The correction keeps the hit position, and leaves the distance of the central ray unchanged. */
  lemma FishEyeCentralRay(playerAngle: real, rayAngle: real, hit: Hit)
    ensures CompensateFishEye(playerAngle, rayAngle, hit).position == hit.position
    ensures rayAngle == playerAngle ==> CompensateFishEye(playerAngle, rayAngle, hit) == hit
  {
    if rayAngle == playerAngle {
      assert ClampAngle(playerAngle - rayAngle) == 0.0;
    }
  }

  /** The distance at which a wall is shaded darkest. */
  function MaxDistance(): (r: real)
    ensures r > 0.0
  {
    Pi * 2.0
  }

  /**
   * The shade of drawRayWall: the distance clamped to [0, maxDistance] as a
   * fraction of it, clamped to [0.15, 1], times 90. It lies in [13.5, 90].
   */
  function Shade(distance: real): (r: real)
    ensures 13.5 <= r <= 90.0
  {
    Clamp(Clamp(distance, 0.0, MaxDistance()) / MaxDistance(), 0.15, 1.0) * 90.0
  }

  /** A more distant wall is never shaded lighter; beyond maxDistance the shade is 90. */
  lemma ShadeMonotone(d1: real, d2: real)
    requires d1 <= d2
    ensures Shade(d1) <= Shade(d2)
    ensures d1 >= MaxDistance() ==> Shade(d1) == 90.0
  {
    var m := MaxDistance();
    ClampMonotone(d1, d2, 0.0, m);
    var f1, f2 := Clamp(d1, 0.0, m) / m, Clamp(d2, 0.0, m) / m;
    DivideMonotone(Clamp(d1, 0.0, m), Clamp(d2, 0.0, m), m);
    ClampMonotone(f1, f2, 0.15, 1.0);
    if d1 >= m {
      assert Clamp(d1, 0.0, m) == m;
      DivideSelf(m);
    }
  }

  /** A positive number divided by itself is 1. */
  lemma DivideSelf(m: real)
    requires m > 0.0
    ensures m / m == 1.0
  {
  }

  /** Dividing by a positive number keeps order. */
  lemma DivideMonotone(a: real, b: real, c: real)
    requires a <= b && c > 0.0
    ensures a / c <= b / c
  {
    assert b / c - a / c == (b - a) / c;
  }

  /** The wall height of drawRayWall: half the canvas height over the distance. */
  function WallHeight(canvasHeight: real, distance: real): real
    requires distance != 0.0
  {
    (canvasHeight / 2.0) / distance
  }

  /** On a canvas of positive height, a nearer wall is strictly taller. */
  lemma WallHeightDecreasing(canvasHeight: real, d1: real, d2: real)
    requires canvasHeight > 0.0 && 0.0 < d1 < d2
    ensures WallHeight(canvasHeight, d2) < WallHeight(canvasHeight, d1)
    ensures WallHeight(canvasHeight, d1) > 0.0
  {
    var h := canvasHeight / 2.0;
    var w1, w2 := h / d1, h / d2;
    assert w1 * d1 == h && w2 * d2 == h;
    assert w2 > 0.0;
    assert w2 * d1 < w2 * d2;
  }

  /**
   * Main.drawRayWall: a column of the wall colour darkened by the shade, one
   * ray's width wide plus padding, centred on the middle of the canvas.
   */
  function DrawRayWall(hit: Hit, canvasWidth: real, canvasHeight: real, rayCount: real, index: nat): Slab
    requires hit.distance != 0.0 && rayCount != 0.0
  {
    var wallHeight := WallHeight(canvasHeight, hit.distance);
    var wallWidth := canvasWidth / rayCount;
    var x := (index as real) * wallWidth - WallPadding / 2.0;
    var shade := Shade(hit.distance);
    Slab(x, canvasHeight / 2.0 - wallHeight / 2.0 - 1.0, wallWidth + WallPadding, wallHeight + 2.0, shade)
  }

  /** The column is centred vertically and overhangs the wall by a pixel above and below. */
  lemma WallColumnVertical(hit: Hit, canvasWidth: real, canvasHeight: real, rayCount: real, index: nat)
    requires hit.distance != 0.0 && rayCount != 0.0
    ensures var s := DrawRayWall(hit, canvasWidth, canvasHeight, rayCount, index);
      && s.y + s.height / 2.0 == canvasHeight / 2.0
      && s.height == WallHeight(canvasHeight, hit.distance) + 2.0
  {
  }

  /** The column is one ray width wide plus padding, and follows its neighbour by one ray width. */
  lemma WallColumnHorizontal(hit: Hit, canvasWidth: real, canvasHeight: real, rayCount: real, index: nat)
    requires hit.distance != 0.0 && rayCount != 0.0
    ensures var s := DrawRayWall(hit, canvasWidth, canvasHeight, rayCount, index);
      && s.width == canvasWidth / rayCount + WallPadding
      && DrawRayWall(hit, canvasWidth, canvasHeight, rayCount, index + 1).x == s.x + canvasWidth / rayCount
  {
    var w := canvasWidth / rayCount;
    assert ((index + 1) as real) * w == (index as real) * w + w;
  }

  /** The column is filled with the wall colour darkened by its shade, a "#rrggbb" colour in lower case. */
  lemma WallColumnColor(hit: Hit, canvasWidth: real, canvasHeight: real, rayCount: real, index: nat)
    requires hit.distance != 0.0 && rayCount != 0.0
    ensures var s := DrawRayWall(hit, canvasWidth, canvasHeight, rayCount, index);
      && s.Fill() == Darken(WallColor, Shade(hit.distance))
      && IsLowerHexColor(s.Fill())
  {
    assert WellFormed(WallColor);
    DarkenFormat(WallColor, Shade(hit.distance));
  }

  /** The number of rays castRays casts: the naturals i with i < count. */
  function RayCount(count: real): (n: nat)
    ensures count <= 0.0 ==> n == 0
    ensures count > 0.0 ==> (n - 1) as real < count <= n as real
  {
    if count <= 0.0 then 0
    else
      var n := -((-count).Floor);
      assert n as real >= count && (n - 1) as real < count;
      n
  }

  /** A loop over the naturals below count stops after exactly RayCount(count) rounds. */
  lemma RayCountExit(count: real, i: nat)
    requires i <= RayCount(count) && !((i as real) < count)
    ensures i == RayCount(count)
  {
  }

  /** The ray angles: start, then each previous angle plus gap, wrapped once. */
  function RayAngles(start: real, gap: real, n: nat): (r: seq<real>)
    ensures |r| == n
    ensures n > 0 ==> r[0] == start
    decreases n
  {
    if n == 0 then [] else [start] + RayAngles(ClampAngle(start + gap), gap, n - 1)
  }

  /** Each angle after the first is its predecessor plus gap, wrapped once into [0, 2 pi]. */
  lemma {:induction false} RayAnglesNext(start: real, gap: real, n: nat, k: nat)
    requires k + 1 < n
    ensures RayAngles(start, gap, n)[k + 1] == ClampAngle(RayAngles(start, gap, n)[k] + gap)
    decreases n
  {
    var next := ClampAngle(start + gap);
    var tail := RayAngles(next, gap, n - 1);
    assert RayAngles(start, gap, n) == [start] + tail;
    if k > 0 {
      RayAnglesNext(next, gap, n - 1, k - 1);
    }
  }

  /** With a gap of at most a turn, every angle after the first lies in [0, 2 pi]. */
  lemma {:induction false} RayAnglesInRange(start: real, gap: real, n: nat)
    requires 0.0 <= gap <= 2.0 * Pi && -2.0 * Pi <= start + gap <= 4.0 * Pi
    ensures forall k :: 1 <= k < n ==> 0.0 <= RayAngles(start, gap, n)[k] <= 2.0 * Pi
    decreases n
  {
    if n > 1 {
      var next := ClampAngle(start + gap);
      RayAnglesInRange(next, gap, n - 1);
      assert RayAngles(start, gap, n)[1..] == RayAngles(next, gap, n - 1);
    }
  }

  /** The column drawn for one ray: nothing when the ray leaves no hit (or a hit at distance 0). */
  function Column(m: MapController, origin: Vec, playerAngle: real, rayAngle: real,
                  canvasWidth: real, canvasHeight: real, count: real, index: nat): Option<Slab>
    reads m
    requires m.Ready() && count != 0.0
  {
    match Cast(m, origin, rayAngle, Precision)
    case None => None
    case Some(h) =>
      var c := CompensateFishEye(playerAngle, rayAngle, h);
      if c.distance != 0.0 then Some(DrawRayWall(c, canvasWidth, canvasHeight, count, index)) else None
  }

  /** The columns drawn for a run of ray angles, the first of which is ray number from. */
  function Columns(m: MapController, origin: Vec, playerAngle: real, angles: seq<real>,
                   canvasWidth: real, canvasHeight: real, count: real, from: nat): (r: seq<Option<Slab>>)
    reads m
    requires m.Ready() && count != 0.0
    ensures |r| == |angles|
    decreases |angles|
  {
    if angles == [] then []
    else
      [Column(m, origin, playerAngle, angles[0], canvasWidth, canvasHeight, count, from)]
      + Columns(m, origin, playerAngle, angles[1..], canvasWidth, canvasHeight, count, from + 1)
  }

  /** Casting one more ray appends its column. */
  lemma {:induction false} ColumnsAppend(m: MapController, origin: Vec, playerAngle: real, angles: seq<real>, angle: real,
                                          canvasWidth: real, canvasHeight: real, count: real, from: nat)
    requires m.Ready() && count != 0.0
    ensures Columns(m, origin, playerAngle, angles + [angle], canvasWidth, canvasHeight, count, from)
      == Columns(m, origin, playerAngle, angles, canvasWidth, canvasHeight, count, from)
         + [Column(m, origin, playerAngle, angle, canvasWidth, canvasHeight, count, from + |angles|)]
    decreases |angles|
  {
    if angles != [] {
      assert (angles + [angle])[1..] == angles[1..] + [angle];
      ColumnsAppend(m, origin, playerAngle, angles[1..], angle, canvasWidth, canvasHeight, count, from + 1);
    }
  }

  /** Column k of a run is the column of its k-th angle, drawn as ray number from + k. */
  lemma {:induction false} ColumnsAt(m: MapController, origin: Vec, playerAngle: real, angles: seq<real>,
                                      canvasWidth: real, canvasHeight: real, count: real, from: nat, k: nat)
    requires m.Ready() && count != 0.0 && k < |angles|
    ensures Columns(m, origin, playerAngle, angles, canvasWidth, canvasHeight, count, from)[k]
      == Column(m, origin, playerAngle, angles[k], canvasWidth, canvasHeight, count, from + k)
    decreases k
  {
    if k > 0 {
      ColumnsAt(m, origin, playerAngle, angles[1..], canvasWidth, canvasHeight, count, from + 1, k - 1);
    }
  }

  /** The body of the loop of castRays: cast one ray, correct its distance and draw its column. */
  method CastColumn(m: MapController, player: PlayerController, rayAngle: real,
                    canvasWidth: real, canvasHeight: real, count: real, index: nat) returns (column: Option<Slab>)
    requires m.Ready() && count != 0.0
    ensures column == Column(m, player.position.Value(), player.angle, rayAngle, canvasWidth, canvasHeight, count, index)
  {
    var hit := CastRay(m, player, rayAngle, Precision);
    column := None;
    if hit.Some? {
      var compensated := CompensateFishEye(player.angle, rayAngle, hit.value);
      if compensated.distance != 0.0 {
        column := Some(DrawRayWall(compensated, canvasWidth, canvasHeight, count, index));
      }
    }
  }

  /** The angles from start are start followed by the angles from the next one. */
  lemma RayAnglesStep(start: real, gap: real, n: nat)
    requires n > 0
    ensures RayAngles(start, gap, n) == [start] + RayAngles(ClampAngle(start + gap), gap, n - 1)
  {
  }

  /**
   * Main.castRays: one ray per six pixels of canvas width, starting half the
   * field of view left of the player's angle and stepping by fov / count.
   * Returns the angles cast and the column drawn for each.
   */
  method CastRays(m: MapController, player: PlayerController, canvasWidth: real, canvasHeight: real)
    returns (angles: seq<real>, columns: seq<Option<Slab>>)
    requires m.Ready()
    ensures var count := canvasWidth / 6.0;
      && angles == RayAngles(player.angle - FieldOfView / 2.0, if count != 0.0 then FieldOfView / count else 0.0, RayCount(count))
      && |columns| == |angles|
      && (count != 0.0 ==> columns == Columns(m, player.position.Value(), player.angle, angles, canvasWidth, canvasHeight, count, 0))
  {
    ghost var origin, playerAngle := player.position.Value(), player.angle;
    var count := canvasWidth / 6.0;
    // With count = 0 no ray is cast and the gap is never used.
    var gap := if count != 0.0 then FieldOfView / count else 0.0;
    var rayAngle := player.angle - FieldOfView / 2.0;
    ghost var start, n := rayAngle, RayCount(count);
    angles, columns := [], [];
    var i: nat := 0;
    while (i as real) < count
      invariant i == |angles| <= n
      invariant FanSoFar(m, origin, playerAngle, start, gap, n, canvasWidth, canvasHeight, count, angles, columns, rayAngle)
      decreases n - i
    {
      var column := CastColumn(m, player, rayAngle, canvasWidth, canvasHeight, count, i);
      FanStep(m, origin, playerAngle, start, gap, n, canvasWidth, canvasHeight, count, angles, columns, rayAngle, column);
      angles := angles + [rayAngle];
      columns := columns + [column];
      rayAngle := ClampAngle(rayAngle + gap);
      i := i + 1;
    }
    RayCountExit(count, i);
    FanDone(m, origin, playerAngle, start, gap, n, canvasWidth, canvasHeight, count, angles, columns, rayAngle);
  }

  /**
   * The loop state of castRays after some rays: the angles cast so far followed
   * by those still to come make up the whole fan, and a column was drawn for each.
   */
  predicate FanSoFar(m: MapController, origin: Vec, playerAngle: real, start: real, gap: real, n: nat,
                     canvasWidth: real, canvasHeight: real, count: real,
                     angles: seq<real>, columns: seq<Option<Slab>>, rayAngle: real)
    reads m
    requires m.Ready()
  {
    && |angles| <= n
    && |columns| == |angles|
    && RayAngles(start, gap, n) == angles + RayAngles(rayAngle, gap, n - |angles|)
    && (count != 0.0 ==> columns == Columns(m, origin, playerAngle, angles, canvasWidth, canvasHeight, count, 0))
  }

  /** Casting the next ray and stepping the angle keeps the loop state. */
  lemma FanStep(m: MapController, origin: Vec, playerAngle: real, start: real, gap: real, n: nat,
                canvasWidth: real, canvasHeight: real, count: real,
                angles: seq<real>, columns: seq<Option<Slab>>, rayAngle: real, column: Option<Slab>)
    requires m.Ready() && count != 0.0 && |angles| < n
    requires FanSoFar(m, origin, playerAngle, start, gap, n, canvasWidth, canvasHeight, count, angles, columns, rayAngle)
    requires column == Column(m, origin, playerAngle, rayAngle, canvasWidth, canvasHeight, count, |angles|)
    ensures FanSoFar(m, origin, playerAngle, start, gap, n, canvasWidth, canvasHeight, count,
                     angles + [rayAngle], columns + [column], ClampAngle(rayAngle + gap))
  {
    ColumnsAppend(m, origin, playerAngle, angles, rayAngle, canvasWidth, canvasHeight, count, 0);
    RayAnglesStep(rayAngle, gap, n - |angles|);
  }

  /** Once all n rays are cast, the angles are the whole fan. */
  lemma FanDone(m: MapController, origin: Vec, playerAngle: real, start: real, gap: real, n: nat,
                canvasWidth: real, canvasHeight: real, count: real,
                angles: seq<real>, columns: seq<Option<Slab>>, rayAngle: real)
    requires m.Ready() && |angles| == n
    requires FanSoFar(m, origin, playerAngle, start, gap, n, canvasWidth, canvasHeight, count, angles, columns, rayAngle)
    ensures angles == RayAngles(start, gap, n) && |columns| == n
    ensures count != 0.0 ==> columns == Columns(m, origin, playerAngle, angles, canvasWidth, canvasHeight, count, 0)
  {
    assert angles + RayAngles(rayAngle, gap, 0) == angles;
  }
}
