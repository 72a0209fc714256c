/**
 * NetRayTracer's Renderer: the pinhole camera that turns each output pixel into a primary ray,
 * the nearest-hit scan of CastRay, and the per-pixel task slots whose colours are copied into the
 * output image. The tasks are run one after another.
 */
module Rendering {
  import opened Errors
  import opened SystemMath
  import V3 = Vector3
  import V4 = Vector4
  import opened Rays
  import T = Triangles
  import Col = Collision
  import SceneConverter

  /** The viewport fields Render reads: its position and size in world units, and the field of view in degrees. */
  datatype Viewport = Viewport(Position: V3.Vec3, Width: real, Height: real, FieldOfView: real)

  /** The configuration fields Render and CastRay read. */
  datatype Configuration = Configuration(MaxRayDepth: int, OutputWidth: int, OutputHeight: int, ViewportData: Viewport)

  /** Color.FromArgb(0, 0, 0): opaque black, in the X, Y, Z, W = R, G, B, A scale of Triangles.ChannelColor. */
  const Black: V4.Vec4 := V4.Vec4(0.0, 0.0, 0.0, 1.0)

  /** default(Color): transparent black, what a colour slot holds before its task writes it. */
  const Unset: V4.Vec4 := V4.Zero()

  // ---------------------------------------------------------------------------------------------
  // The nearest-hit scan
  // ---------------------------------------------------------------------------------------------

  /** The time CollidesWith reports for a triangle it hits. */
  function HitTime(r: Ray, t: T.Triangle): real
    requires Col.Collides(r, t)
  {
    Col.CandidateTime(r, t).value
  }

  /** A triangle the scan can pick: CollidesWith is true and the time is below float.MaxValue, where closestTime starts. */
  predicate Candidate(r: Ray, t: T.Triangle)
  {
    Col.Collides(r, t) && HitTime(r, t) < FloatMaxValue
  }

  /**
   * The index of the triangle CastRay's loop keeps, following the loop over the triangles one at
   * a time: the first triangle with the least hit time among the candidates, none when there is
   * no candidate.
   */
  function Nearest(r: Ray, ts: seq<T.Triangle>): (k: Option<nat>)
    ensures k.Some? ==> k.value < |ts| && Candidate(r, ts[k.value])
  {
    if |ts| == 0 then None
    else
      var k := Nearest(r, ts[..|ts| - 1]);
      var t := ts[|ts| - 1];
      var closestTime := if k.None? then FloatMaxValue else HitTime(r, ts[k.value]);
      if Col.Collides(r, t) && HitTime(r, t) < closestTime && HitTime(r, t) > Col.ProximityTolerance then Some(|ts| - 1)
      else k
  }

  /** The scan keeps a triangle exactly when some triangle is a candidate. */
  lemma {:induction false} NearestFindsCandidate(r: Ray, ts: seq<T.Triangle>)
    ensures Nearest(r, ts).None? <==> forall i :: 0 <= i < |ts| ==> !Candidate(r, ts[i])
  {
    if |ts| > 0 {
      var init := ts[..|ts| - 1];
      NearestFindsCandidate(r, init);
      assert forall i :: 0 <= i < |init| ==> init[i] == ts[i];
    }
  }

  /** The kept triangle's hit time is the least among the candidates. */
  lemma {:induction false} NearestIsMinimum(r: Ray, ts: seq<T.Triangle>)
    ensures Nearest(r, ts).Some? ==> forall i :: 0 <= i < |ts| && Candidate(r, ts[i]) ==>
              HitTime(r, ts[Nearest(r, ts).value]) <= HitTime(r, ts[i])
  {
    if |ts| > 0 {
      var init := ts[..|ts| - 1];
      NearestFindsCandidate(r, init);
      NearestIsMinimum(r, init);
      assert forall i :: 0 <= i < |init| ==> init[i] == ts[i];
    }
  }

  /** Ties go to the earliest triangle: every candidate before the kept one is strictly farther. */
  lemma {:induction false} NearestIsFirst(r: Ray, ts: seq<T.Triangle>)
    ensures Nearest(r, ts).Some? ==> forall i :: 0 <= i < Nearest(r, ts).value && Candidate(r, ts[i]) ==>
              HitTime(r, ts[Nearest(r, ts).value]) < HitTime(r, ts[i])
  {
    if |ts| > 0 {
      var init := ts[..|ts| - 1];
      NearestFindsCandidate(r, init);
      NearestIsMinimum(r, init);
      NearestIsFirst(r, init);
      assert forall i :: 0 <= i < |init| ==> init[i] == ts[i];
    }
  }

  /** What CastRay returns: black without a hit, otherwise the nearest triangle's colour at the hit point. */
  function CastColor(r: Ray, ts: seq<T.Triangle>): Result<V4.Vec4>
  {
    match Nearest(r, ts)
    case None => Ok(Black)
    case Some(k) => T.GetColor(ts[k], PointAtDistance(r, HitTime(r, ts[k])))
  }

  /** The scan's variables after the triangles ts: closestTime, closestTriangle and closestPosition. */
  predicate ClosestSoFar(r: Ray, ts: seq<T.Triangle>, time: real, tri: Option<T.Triangle>, pos: Option<V3.Vec3>)
  {
    match Nearest(r, ts)
    case None => time == FloatMaxValue && tri.None? && pos.None?
    case Some(k) => time == HitTime(r, ts[k]) && tri == Some(ts[k]) && pos == Some(PointAtDistance(r, time))
  }

  /** Without a candidate the ray is black. */
  lemma MissIsBlack(r: Ray, ts: seq<T.Triangle>)
    requires forall i :: 0 <= i < |ts| ==> !Candidate(r, ts[i])
    ensures CastColor(r, ts) == Ok(Black)
  {
    NearestFindsCandidate(r, ts);
  }

  /** A triangle the ray does not hit, added at the end of the scene, changes nothing. */
  lemma MissedTriangleIgnored(r: Ray, ts: seq<T.Triangle>, t: T.Triangle)
    requires !Candidate(r, t)
    ensures Nearest(r, ts + [t]) == Nearest(r, ts)
    ensures CastColor(r, ts + [t]) == CastColor(r, ts)
  {
    assert (ts + [t])[..|ts|] == ts;
    var k := Nearest(r, ts);
    if k.Some? {
      assert (ts + [t])[k.value] == ts[k.value];
    }
  }

  /** A single candidate is the one picked, and its colour at the hit point is the result. */
  lemma SingleHit(r: Ray, t: T.Triangle)
    requires Candidate(r, t)
    ensures Nearest(r, [t]) == Some(0)
    ensures CastColor(r, [t]) == T.GetColor(t, PointAtDistance(r, Col.CandidateTime(r, t).value))
  {
    assert [t][..0] == [];
  }

  /** Of two triangles hit at the same time, the first in scene order wins. */
  lemma TieGoesToFirst(r: Ray, a: T.Triangle, b: T.Triangle)
    requires Candidate(r, a) && Candidate(r, b) && HitTime(r, a) == HitTime(r, b)
    ensures Nearest(r, [a, b]) == Some(0)
  {
    NearestIsFirst(r, [a, b]);
    assert [a, b][0] == a && [a, b][1] == b;
  }

  // ---------------------------------------------------------------------------------------------
  // The camera and the viewport samples
  // ---------------------------------------------------------------------------------------------

  /** The tangent Render divides by: tan of half the field of view, in radians. */
  function HalfAngleTan(c: Configuration): real
  {
    Tan((c.ViewportData.FieldOfView / 2.0) * Pi / 180.0)
  }

  /** The eye's distance behind the viewport: OutputHeight / (2 tan(fov / 2)). */
  function CameraDistance(c: Configuration): real
    requires HalfAngleTan(c) != 0.0
  {
    c.OutputHeight as real / (2.0 * HalfAngleTan(c))
  }

  /** The eye: (0, 0, CameraDistance) moved by the viewport's position. */
  function CameraPosition(c: Configuration): V3.Vec3
    requires HalfAngleTan(c) != 0.0
  {
    V3.Add(V3.Vec3(0.0, 0.0, CameraDistance(c)), c.ViewportData.Position)
  }

  const Right: V3.Vec3 := V3.Vec3(1.0, 0.0, 0.0)
  const Up: V3.Vec3 := V3.Vec3(0.0, 1.0, 0.0)

  /** World units per pixel, across and down. */
  function HorizontalUnitsPerPixel(c: Configuration): real
    requires c.OutputWidth > 0
  {
    c.ViewportData.Width / c.OutputWidth as real
  }

  function VerticalUnitsPerPixel(c: Configuration): real
    requires c.OutputHeight > 0
  {
    c.ViewportData.Height / c.OutputHeight as real
  }

  /** The viewport point for pixel (x, y): right*x*hUPP + left - up*y*vUPP + top + position, operator by operator. */
  function ViewportSample(c: Configuration, x: int, y: int): V3.Vec3
    requires c.OutputWidth > 0 && c.OutputHeight > 0
  {
    var left := V3.ScaleLeft(-(c.ViewportData.Width / 2.0), Right);
    var top := V3.ScaleLeft(c.ViewportData.Height / 2.0, Up);
    V3.Add(V3.Add(V3.Sub(V3.Add(V3.Scale(V3.Scale(Right, x as real), HorizontalUnitsPerPixel(c)), left),
                         V3.Scale(V3.Scale(Up, y as real), VerticalUnitsPerPixel(c))),
                  top),
           c.ViewportData.Position)
  }

  /** The primary ray of pixel (x, y): from the eye towards its viewport sample. */
  function PixelRay(c: Configuration, x: int, y: int): Ray
    requires c.OutputWidth > 0 && c.OutputHeight > 0 && HalfAngleTan(c) != 0.0
  {
    MakeRay(CameraPosition(c), V3.Sub(ViewportSample(c, x, y), CameraPosition(c)))
  }

  /** The colour CastRay gives pixel (x, y). */
  function PixelColor(c: Configuration, ts: seq<T.Triangle>, x: int, y: int): Result<V4.Vec4>
    requires c.OutputWidth > 0 && c.OutputHeight > 0 && HalfAngleTan(c) != 0.0
  {
    CastColor(PixelRay(c, x, y), ts)
  }

  /** The sample steps right with x and down with y from the viewport's top-left corner. */
  lemma ViewportSampleComponents(c: Configuration, x: int, y: int)
    requires c.OutputWidth > 0 && c.OutputHeight > 0
    ensures var p := c.ViewportData.Position;
            ViewportSample(c, x, y) == V3.Vec3(
              x as real * HorizontalUnitsPerPixel(c) - c.ViewportData.Width / 2.0 + p.X,
              c.ViewportData.Height / 2.0 - y as real * VerticalUnitsPerPixel(c) + p.Y,
              p.Z)
  {
  }

  /** Pixel (0, 0) samples the top-left corner and (OutputWidth, OutputHeight) the bottom-right one. */
  lemma ViewportCorners(c: Configuration)
    requires c.OutputWidth > 0 && c.OutputHeight > 0
    ensures var p, vp := c.ViewportData.Position, c.ViewportData;
            ViewportSample(c, 0, 0) == V3.Vec3(p.X - vp.Width / 2.0, p.Y + vp.Height / 2.0, p.Z)
            && ViewportSample(c, c.OutputWidth, c.OutputHeight) == V3.Vec3(p.X + vp.Width / 2.0, p.Y - vp.Height / 2.0, p.Z)
  {
    ViewportSampleComponents(c, 0, 0);
    ViewportSampleComponents(c, c.OutputWidth, c.OutputHeight);
    assert c.OutputWidth as real * HorizontalUnitsPerPixel(c) == c.ViewportData.Width;
    assert c.OutputHeight as real * VerticalUnitsPerPixel(c) == c.ViewportData.Height;
  }

  /** The unnormalized direction of a primary ray: the viewport's position cancels out. */
  lemma PixelDirection(c: Configuration, x: int, y: int)
    requires c.OutputWidth > 0 && c.OutputHeight > 0 && HalfAngleTan(c) != 0.0
    ensures V3.Sub(ViewportSample(c, x, y), CameraPosition(c)) == V3.Vec3(
              x as real * HorizontalUnitsPerPixel(c) - c.ViewportData.Width / 2.0,
              c.ViewportData.Height / 2.0 - y as real * VerticalUnitsPerPixel(c),
              -CameraDistance(c))
  {
    ViewportSampleComponents(c, x, y);
  }

  // ---------------------------------------------------------------------------------------------
  // Task slots
  // ---------------------------------------------------------------------------------------------

  /** The slot of pixel (w, h) in the tasks array: h * OutputWidth + w. */
  function Slot(w: int, h: int, width: int): int
  {
    h * width + w
  }

  /** The pixel whose task sits in a slot. */
  function SlotPixel(s: int, width: int): (p: (int, int))
    requires width > 0
  {
    (s % width, s / width)
  }

  /** A larger multiple of w is at least w larger. */
  lemma MulStep(a: int, b: int, w: int)
    requires w > 0
    ensures a < b ==> a * w + w <= b * w
  {
    if a < b {
      var d := b - a;
      assert b * w == a * w + d * w;
      assert d * w >= w;
    }
  }

  /** q and m are the quotient and remainder of s by w when s == q * w + m and 0 <= m < w. */
  lemma DivModUnique(s: int, w: int, q: int, m: int)
    requires w > 0 && 0 <= m < w && s == q * w + m
    ensures s / w == q && s % w == m
  {
    var q', m' := s / w, s % w;
    MulStep(q', q, w);
    MulStep(q, q', w);
  }

  /** Every pixel of the grid has its own slot in [0, W*H), and the slot gives the pixel back. */
  lemma SlotBijection(w: int, h: int, width: int, height: int)
    requires 0 <= w < width && 0 <= h < height
    ensures 0 <= Slot(w, h, width) < width * height
    ensures SlotPixel(Slot(w, h, width), width) == (w, h)
  {
    MulStep(h, height, width);
    DivModUnique(Slot(w, h, width), width, h, w);
  }

  /** Every slot in [0, W*H) belongs to a pixel of the grid. */
  lemma SlotInGrid(s: int, width: int, height: int)
    requires width > 0 && 0 <= s < width * height
    ensures var (x, y) := SlotPixel(s, width); 0 <= x < width && 0 <= y < height
  {
    var q := s / width;
    MulStep(height - 1, q, width);
  }

  /** The state of a task: not started (the null slot), finished, or faulted with an exception. */
  datatype TaskState = NotStarted | RanToCompletion | Faulted(error: Error)

  /** TaskData: the pixel a task works on. */
  datatype TaskData = TaskData(x: int, y: int)

  /** How pixel (x, y)'s task ends. */
  function Outcome(res: Result<V4.Vec4>): TaskState
  {
    if res.Ok? then RanToCompletion else Faulted(res.error)
  }

  /** The colour a finished task leaves in its slot; a faulted one leaves the slot unset. */
  function Shown(res: Result<V4.Vec4>): V4.Vec4
  {
    if res.Ok? then res.value else Unset
  }

  /** The state the task in slot i ends in. */
  function SlotOutcome(c: Configuration, ts: seq<T.Triangle>, i: int): TaskState
    requires c.OutputWidth > 0 && c.OutputHeight > 0 && HalfAngleTan(c) != 0.0
  {
    var p := SlotPixel(i, c.OutputWidth);
    Outcome(PixelColor(c, ts, p.0, p.1))
  }

  /** Every pixel's ray shades without an exception. */
  predicate AllShaded(c: Configuration, ts: seq<T.Triangle>)
    requires c.OutputWidth > 0 && c.OutputHeight > 0 && HalfAngleTan(c) != 0.0
  {
    forall x, y :: 0 <= x < c.OutputWidth && 0 <= y < c.OutputHeight ==> PixelColor(c, ts, x, y).Ok?
  }

  // ---------------------------------------------------------------------------------------------
  // The renderer
  // ---------------------------------------------------------------------------------------------

  class Renderer {
    const config: Configuration
    const scene: SceneConverter.Scene
    var cameraPosition: V3.Vec3

    constructor (c: Configuration, s: SceneConverter.Scene)
      ensures config == c && scene == s && cameraPosition == V3.Zero()
    {
      config := c;
      scene := s;
      cameraPosition := V3.Zero();
    }

    /**
     * CastRay(r, depth): the nearest candidate's colour at its hit point, or black. Both depth
     * branches shade the same way, so the result does not depend on the depth.
     */
    method CastRay(r: Ray, depth: int := 0) returns (c: Result<V4.Vec4>)
      ensures c == CastColor(r, scene.Triangles)
    {
      var ts := scene.Triangles;
      var closestTime := FloatMaxValue;
      var closestTriangle: Option<T.Triangle> := None;
      var closestPosition: Option<V3.Vec3> := None;
      c := Ok(Black);
      var i := 0;
      while i < |ts|
        invariant 0 <= i <= |ts|
        invariant ClosestSoFar(r, ts[..i], closestTime, closestTriangle, closestPosition)
      {
        var t := ts[i];
        var hit, time := Col.CollidesWith(r, t);
        if hit {
          if time.value < closestTime && time.value > Col.ProximityTolerance {
            closestTime := time.value;
            closestTriangle := Some(t);
            closestPosition := Some(PointAtDistance(r, time.value));
          }
        }
        assert ts[..i + 1][..i] == ts[..i];
        i := i + 1;
      }
      assert ts[..|ts|] == ts;
      if depth < config.MaxRayDepth && closestTriangle.Some? {
        c := T.GetColor(closestTriangle.value, closestPosition.value);
      } else if closestTriangle.Some? {
        c := T.GetColor(closestTriangle.value, closestPosition.value);
      }
    }

    /** GetColor(t, pos): the triangle's own colour; the direction to the camera it computes is not used. */
    method GetColor(t: T.Triangle, pos: V3.Vec3) returns (c: Result<V4.Vec4>)
      ensures c == T.GetColor(t, pos)
    {
      c := T.GetColor(t, pos);
      var pointToCam := V3.Normalized(V3.Sub(cameraPosition, pos));
    }

    /**
     * The body of the task for pixel d: the viewport sample from the vectors the closure
     * captures, the ray from the eye towards it, and CastRay.
     */
    method Trace(d: TaskData) returns (c: Result<V4.Vec4>)
      requires config.OutputWidth > 0 && config.OutputHeight > 0 && HalfAngleTan(config) != 0.0
      requires cameraPosition == CameraPosition(config)
      ensures c == PixelColor(config, scene.Triangles, d.x, d.y)
    {
      var vp := config.ViewportData;
      var right := V3.Vec3(1.0, 0.0, 0.0);
      var up := V3.Vec3(0.0, 1.0, 0.0);
      var viewportLeft := V3.ScaleLeft(-(vp.Width / 2.0), right);
      var viewportTop := V3.ScaleLeft(vp.Height / 2.0, up);
      var horizontalUnitsPerPixel := vp.Width / config.OutputWidth as real;
      var verticalUnitsPerPixel := vp.Height / config.OutputHeight as real;

      var viewportPos := V3.Add(V3.Add(V3.Sub(V3.Add(V3.Scale(V3.Scale(right, d.x as real), horizontalUnitsPerPixel), viewportLeft),
                                              V3.Scale(V3.Scale(up, d.y as real), verticalUnitsPerPixel)),
                                       viewportTop),
                                vp.Position);
      var direction := V3.Sub(viewportPos, cameraPosition);
      var ray := MakeRay(cameraPosition, direction);
      c := CastRay(ray);
    }

    /** The state after the tasks of rows [0, h) have run: their slots and colours are written, the rest untouched. */
    predicate RowsDone(tasks: array<TaskState>, colors: array2<V4.Vec4>, h: int)
      requires config.OutputWidth > 0 && config.OutputHeight > 0 && HalfAngleTan(config) != 0.0
      reads tasks, colors
    {
      (forall x, y :: 0 <= x < colors.Length0 && 0 <= y < colors.Length1 && y < h ==>
         colors[x, y] == Shown(PixelColor(config, scene.Triangles, x, y)))
      && (forall x, y :: 0 <= x < colors.Length0 && 0 <= y < colors.Length1 && y >= h ==> colors[x, y] == Unset)
      && (forall i :: 0 <= i < h * config.OutputWidth && i < tasks.Length ==> tasks[i] == SlotOutcome(config, scene.Triangles, i))
      && (forall i :: 0 <= h * config.OutputWidth <= i < tasks.Length ==> tasks[i] == NotStarted)
    }

    /**
     * The two nested loops that start one task per pixel: the task of pixel (w, h) goes in slot
     * h * OutputWidth + w and writes only colors[w, h], and only when it finishes.
     */
    method Dispatch(tasks: array<TaskState>, colors: array2<V4.Vec4>)
      requires config.OutputWidth > 0 && config.OutputHeight > 0 && HalfAngleTan(config) != 0.0
      requires cameraPosition == CameraPosition(config)
      requires tasks.Length == config.OutputWidth * config.OutputHeight
      requires colors.Length0 == config.OutputWidth && colors.Length1 == config.OutputHeight
      requires forall i :: 0 <= i < tasks.Length ==> tasks[i] == NotStarted
      requires forall x, y :: 0 <= x < colors.Length0 && 0 <= y < colors.Length1 ==> colors[x, y] == Unset
      modifies tasks, colors
      ensures forall x, y :: 0 <= x < colors.Length0 && 0 <= y < colors.Length1 ==>
                colors[x, y] == Shown(PixelColor(config, scene.Triangles, x, y))
      ensures forall i :: 0 <= i < tasks.Length ==> tasks[i] == SlotOutcome(config, scene.Triangles, i)
    {
      var h := 0;
      assert h * config.OutputWidth == 0;
      while h < config.OutputHeight
        invariant 0 <= h <= config.OutputHeight
        invariant RowsDone(tasks, colors, h)
      {
        DispatchRow(tasks, colors, h);
        h := h + 1;
      }
      assert h * config.OutputWidth == tasks.Length;
    }

    /** The inner loop of Dispatch: the tasks of row h, in slots h * OutputWidth to h * OutputWidth + OutputWidth - 1. */
    method DispatchRow(tasks: array<TaskState>, colors: array2<V4.Vec4>, h: int)
      requires config.OutputWidth > 0 && config.OutputHeight > 0 && HalfAngleTan(config) != 0.0
      requires cameraPosition == CameraPosition(config)
      requires tasks.Length == config.OutputWidth * config.OutputHeight
      requires colors.Length0 == config.OutputWidth && colors.Length1 == config.OutputHeight
      requires 0 <= h < config.OutputHeight
      requires RowsDone(tasks, colors, h)
      modifies tasks, colors
      ensures RowsDone(tasks, colors, h + 1)
    {
      var width, height, ts := config.OutputWidth, config.OutputHeight, scene.Triangles;
      var rowStart := h * width;
      MulStep(h, height, width);
      assert 0 <= rowStart && rowStart + width <= tasks.Length;
      var w, s := 0, rowStart;
      while w < width
        invariant 0 <= w <= width && s == rowStart + w
        invariant forall x, y :: 0 <= x < width && 0 <= y < height && (y < h || (y == h && x < w)) ==>
                    colors[x, y] == Shown(PixelColor(config, ts, x, y))
        invariant forall x, y :: 0 <= x < width && 0 <= y < height && (y > h || (y == h && x >= w)) ==>
                    colors[x, y] == Unset
        invariant forall i :: 0 <= i < s ==> tasks[i] == SlotOutcome(config, ts, i)
        invariant forall i :: s <= i < tasks.Length ==> tasks[i] == NotStarted
      {
        var d := TaskData(w, h);
        SlotBijection(w, h, width, height);
        RunTask(tasks, colors, d);
        w, s := w + 1, s + 1;
      }
      assert rowStart + width == (h + 1) * width;
    }

    /**
     * One task: the colour of pixel d goes in colors[d.x, d.y] when it finishes, and its state in
     * slot d.y * OutputWidth + d.x; nothing else is written.
     */
    method RunTask(tasks: array<TaskState>, colors: array2<V4.Vec4>, d: TaskData)
      requires config.OutputWidth > 0 && config.OutputHeight > 0 && HalfAngleTan(config) != 0.0
      requires cameraPosition == CameraPosition(config)
      requires colors.Length0 == config.OutputWidth && colors.Length1 == config.OutputHeight
      requires 0 <= d.x < config.OutputWidth && 0 <= d.y < config.OutputHeight
      requires 0 <= Slot(d.x, d.y, config.OutputWidth) < tasks.Length
      requires colors[d.x, d.y] == Unset
      modifies tasks, colors
      ensures tasks[Slot(d.x, d.y, config.OutputWidth)] == Outcome(PixelColor(config, scene.Triangles, d.x, d.y))
      ensures forall i :: 0 <= i < tasks.Length && i != Slot(d.x, d.y, config.OutputWidth) ==> tasks[i] == old(tasks[i])
      ensures colors[d.x, d.y] == Shown(PixelColor(config, scene.Triangles, d.x, d.y))
      ensures forall x, y :: 0 <= x < colors.Length0 && 0 <= y < colors.Length1 && (x != d.x || y != d.y) ==>
                colors[x, y] == old(colors[x, y])
    {
      var color := Trace(d);
      if color.Ok? {
        colors[d.x, d.y] := color.value;
      }
      tasks[d.y * config.OutputWidth + d.x] := Outcome(color);
    }

    /** Task.WaitAll: whether some task faulted, which makes it throw AggregateException. */
    method WaitAll(tasks: array<TaskState>) returns (faulted: bool)
      ensures faulted <==> exists i :: 0 <= i < tasks.Length && tasks[i].Faulted?
    {
      var i := 0;
      while i < tasks.Length
        invariant 0 <= i <= tasks.Length
        invariant forall j :: 0 <= j < i ==> !tasks[j].Faulted?
      {
        if tasks[i].Faulted? {
          return true;
        }
        i := i + 1;
      }
      return false;
    }

    /** The closing nested loop: SetPixel(x, y, colors[x, y]) for every pixel, into a new image. */
    method CopyColors(colors: array2<V4.Vec4>) returns (output: array2<V4.Vec4>)
      ensures fresh(output)
      ensures output.Length0 == colors.Length0 && output.Length1 == colors.Length1
      ensures forall x, y :: 0 <= x < colors.Length0 && 0 <= y < colors.Length1 ==> output[x, y] == colors[x, y]
    {
      output := new V4.Vec4[colors.Length0, colors.Length1]((_, _) => Unset);
      for x := 0 to colors.Length0
        invariant forall x', y :: 0 <= x' < x && 0 <= y < colors.Length1 ==> output[x', y] == colors[x', y]
      {
        for y := 0 to colors.Length1
          invariant forall x', y' :: 0 <= x' < x && 0 <= y' < colors.Length1 ==> output[x', y'] == colors[x', y']
          invariant forall y' :: 0 <= y' < y ==> output[x, y'] == colors[x, y']
        {
          output[x, y] := colors[x, y];
        }
      }
    }

    /**
     * Render(): a non-positive output size throws ArgumentException from new Bitmap; otherwise
     * the eye is placed, every pixel's task shades its primary ray into its own slot, a faulted
     * task makes WaitAll throw AggregateException, and the colours are copied into the output.
     */
    method Render() returns (r: Result<array2<V4.Vec4>>)
      requires config.OutputWidth > 0 && config.OutputHeight > 0 ==> HalfAngleTan(config) != 0.0
      modifies this
      ensures config.OutputWidth <= 0 || config.OutputHeight <= 0 ==>
                r == Fail(Argument) && cameraPosition == old(cameraPosition)
      ensures config.OutputWidth > 0 && config.OutputHeight > 0 ==>
                cameraPosition == CameraPosition(config)
                && (r.Fail? <==> !AllShaded(config, scene.Triangles))
                && (r.Fail? ==> r.error == Aggregate)
      ensures r.Ok? ==>
                fresh(r.value)
                && r.value.Length0 == config.OutputWidth && r.value.Length1 == config.OutputHeight
                && (forall x, y :: 0 <= x < config.OutputWidth && 0 <= y < config.OutputHeight ==>
                      Ok(r.value[x, y]) == PixelColor(config, scene.Triangles, x, y))
    {
      var width, height := config.OutputWidth, config.OutputHeight;
      if width <= 0 || height <= 0 {
        return Fail(Argument);
      }
      var vp := config.ViewportData;
      var ts := scene.Triangles;

      cameraPosition := V3.Vec3(0.0, 0.0, 0.0);
      cameraPosition := cameraPosition.(Z := height as real / (2.0 * Tan((vp.FieldOfView / 2.0) * Pi / 180.0)));
      cameraPosition := V3.Add(cameraPosition, vp.Position);

      var tasks := new TaskState[width * height](_ => NotStarted);
      var colors := new V4.Vec4[width, height]((_, _) => Unset);
      Dispatch(tasks, colors);

      var faulted := WaitAll(tasks);
      if faulted {
        var i :| 0 <= i < tasks.Length && tasks[i].Faulted?;
        SlotInGrid(i, width, height);
        return Fail(Aggregate);
      }
      forall x, y | 0 <= x < width && 0 <= y < height
        ensures PixelColor(config, ts, x, y).Ok?
      {
        SlotBijection(x, y, width, height);
        assert !tasks[Slot(x, y, width)].Faulted?;
      }

      var output := CopyColors(colors);
      return Ok(output);
    }
  }
}
