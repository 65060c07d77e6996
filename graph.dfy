/**
 * The coordinate mapper and grid planner of graph.c over the reals.  The view is a center in
 * world coordinates and a scale in pixels per unit; the screen has its origin at the top-left
 * corner with y growing downwards.  The grid spacing is 1, 2 or 5 times a power of ten, chosen
 * so that neighbouring lines are roughly TargetPixels apart, and each line gets a tick label
 * whose format depends on its magnitude.
 */
module Graph {
  import opened Powers
  import opened Expressions

  datatype Vec2 = Vec2(x: real, y: real)

  /** The visible range of world coordinates. */
  datatype Bounds = Bounds(minX: real, maxX: real, minY: real, maxY: real)

  /** How a tick value is printed: not at all, "%.2e" or "%.6g". */
  datatype LabelKind = NoLabel | Scientific | General

  const DefaultScale: real := 40.0

  /** The desired distance between grid lines, in pixels. */
  const TargetPixels: real := 100.0

  // Thresholds of the label classification.
  const Tiny: real := 0.0000000001
  const Small: real := 0.001
  const Large: real := 1000000.0

  class GraphState {
    var centerX: real
    var centerY: real
    var scale: real

    /** Graph_Init: centered on the origin at 40 pixels per unit. */
    constructor ()
      ensures centerX == 0.0 && centerY == 0.0 && scale == DefaultScale
    {
      centerX := 0.0;
      centerY := 0.0;
      scale := DefaultScale;
    }

    /** Graph_ToScreen: world to pixel coordinates, flipping the y-axis. */
    function ToScreen(p: Vec2, width: int, height: int): (q: Vec2)
      reads this
      ensures p == Vec2(centerX, centerY) ==> q == Vec2(width as real / 2.0, height as real / 2.0)
    {
      Vec2((p.x - centerX) * scale + width as real / 2.0,
           height as real / 2.0 - (p.y - centerY) * scale)
    }

    /** Graph_ToCartesian: pixel to world coordinates. */
    function ToCartesian(p: Vec2, width: int, height: int): (q: Vec2)
      reads this
      requires scale != 0.0
      ensures p == Vec2(width as real / 2.0, height as real / 2.0) ==> q == Vec2(centerX, centerY)
    {
      Vec2((p.x - width as real / 2.0) / scale + centerX,
           (height as real / 2.0 - p.y) / scale + centerY)
    }

    /** The world coordinates of the two screen corners, as Graph_DrawGrid reads them. */
    function VisibleBounds(width: int, height: int): (b: Bounds)
      reads this
      requires scale != 0.0
      ensures ToScreen(Vec2(b.minX, b.maxY), width, height) == Vec2(0.0, 0.0)
      ensures ToScreen(Vec2(b.maxX, b.minY), width, height) == Vec2(width as real, height as real)
    {
      var topLeft := ToCartesian(Vec2(0.0, 0.0), width, height);
      var bottomRight := ToCartesian(Vec2(width as real, height as real), width, height);
      ScreenOfCartesian(Vec2(0.0, 0.0), width, height);
      ScreenOfCartesian(Vec2(width as real, height as real), width, height);
      Bounds(topLeft.x, bottomRight.x, bottomRight.y, topLeft.y)
    }

    /** Mapping to the screen and back recovers the world point. */
    lemma CartesianOfScreen(p: Vec2, width: int, height: int)
      requires scale != 0.0
      ensures ToCartesian(ToScreen(p, width, height), width, height) == p
    {
      var q := ToScreen(p, width, height);
      assert q.x - width as real / 2.0 == (p.x - centerX) * scale;
      assert height as real / 2.0 - q.y == (p.y - centerY) * scale;
      Cancel(p.x - centerX, scale);
      Cancel(p.y - centerY, scale);
    }

    /** Mapping to the world and back recovers the pixel. */
    lemma ScreenOfCartesian(q: Vec2, width: int, height: int)
      requires scale != 0.0
      ensures ToScreen(ToCartesian(q, width, height), width, height) == q
    {
      var p := ToCartesian(q, width, height);
      assert p.x - centerX == (q.x - width as real / 2.0) / scale;
      assert p.y - centerY == (height as real / 2.0 - q.y) / scale;
      Cancel(q.x - width as real / 2.0, scale);
      Cancel(height as real / 2.0 - q.y, scale);
    }

    /** The center of the view is drawn in the middle of the screen. */
    lemma CenterMapsToMiddle(width: int, height: int)
      ensures ToScreen(Vec2(centerX, centerY), width, height) == Vec2(width as real / 2.0, height as real / 2.0)
    {
      assert (centerX - centerX) * scale == 0.0;
      assert (centerY - centerY) * scale == 0.0;
    }

    /** With a positive scale, screen x grows with world x and screen y shrinks as world y grows. */
    lemma ScreenOrientation(p: Vec2, q: Vec2, width: int, height: int)
      requires scale > 0.0
      ensures ToScreen(p, width, height).x < ToScreen(q, width, height).x <==> p.x < q.x
      ensures ToScreen(p, width, height).y < ToScreen(q, width, height).y <==> q.y < p.y
    {
      var a, b := ToScreen(p, width, height), ToScreen(q, width, height);
      var w, h := width as real / 2.0, height as real / 2.0;
      assert a.x == (p.x - centerX) * scale + w && b.x == (q.x - centerX) * scale + w;
      assert a.y == h - (p.y - centerY) * scale && b.y == h - (q.y - centerY) * scale;
      MulStrict(p.x - centerX, q.x - centerX, scale);
      MulStrict(q.y - centerY, p.y - centerY, scale);
    }

    /**
     * A screen with non-negative size shows a non-empty range on both axes, exactly
     * width/scale by height/scale units and centered on the view's center.
     */
    lemma VisibleBoundsOrdered(width: int, height: int)
      requires scale > 0.0 && width >= 0 && height >= 0
      ensures var b := VisibleBounds(width, height);
        && b.minX <= b.maxX && b.minY <= b.maxY
        && b.maxX - b.minX == width as real / scale
        && b.maxY - b.minY == height as real / scale
        && (b.minX + b.maxX) / 2.0 == centerX
        && (b.minY + b.maxY) / 2.0 == centerY
    {
      var w, h := width as real, height as real;
      DivSpread(w, scale);
      DivSpread(h, scale);
      DivNonNegative(w, scale);
      DivNonNegative(h, scale);
    }

    /**
     * The planning part of Graph_DrawGrid: the grid step for the current scale, then the grid
     * lines from the first multiple of the step at or below the visible minimum up to the
     * visible maximum on each axis, each with its label.  k is the decimal exponent of the
     * target step (floor of its base-10 logarithm).
     */
    method DrawGrid(width: int, height: int, k: int)
      returns (step: real, xLines: seq<real>, xLabels: seq<LabelKind>, yLines: seq<real>, yLabels: seq<LabelKind>)
      requires scale > 0.0
      requires Bracketed(TargetPixels / scale, k)
      ensures step == NiceStep(TargetPixels / scale, k)
      ensures var b := VisibleBounds(width, height);
        && Enumerates(xLines, FirstLine(b.minX, step), b.maxX, step)
        && Enumerates(yLines, FirstLine(b.minY, step), b.maxY, step)
      ensures Labelled(xLabels, xLines) && Labelled(yLabels, yLines)
    {
      var topLeft := ToCartesian(Vec2(0.0, 0.0), width, height);
      var bottomRight := ToCartesian(Vec2(width as real, height as real), width, height);
      var minX, maxX, minY, maxY := topLeft.x, bottomRight.x, bottomRight.y, topLeft.y;

      var targetStep := TargetPixels / scale;
      step := Pow10(k);
      if targetStep / step > 5.0 {
        step := step * 5.0;
      } else if targetStep / step > 2.0 {
        step := step * 2.0;
      }
      StepBracket(targetStep, k);

      xLines, xLabels := GridLines(FirstLine(minX, step), maxX, step);
      yLines, yLabels := GridLines(FirstLine(minY, step), maxY, step);
    }
  }

  // ---------------------------------------------------------------------------------------
  // Grid step

  /** The grid step for a target step bracketed by 10^k: 5, 2 or 1 times 10^k. */
  function NiceStep(target: real, k: int): (step: real)
    ensures step == Pow10(k) || step == 2.0 * Pow10(k) || step == 5.0 * Pow10(k)
    ensures step > 0.0
  {
    var base := Pow10(k);
    if target / base > 5.0 then 5.0 * base
    else if target / base > 2.0 then 2.0 * base
    else base
  }

  /**
   * The step is a 1-2-5 multiple of 10^k, at most the target and at least 40% of it; on
   * screen, lines are TargetPixels * 0.4 to TargetPixels apart.
   */
  lemma StepBracket(target: real, k: int)
    requires Bracketed(target, k)
    ensures var step, base := NiceStep(target, k), Pow10(k);
      && (step == base || step == 2.0 * base || step == 5.0 * base)
      && 0.0 < step <= target <= 2.5 * step
      && (target / base > 5.0 ==> step == 5.0 * base)
      && (2.0 < target / base <= 5.0 ==> step == 2.0 * base)
      && (target / base <= 2.0 ==> step == base)
  {
    var base := Pow10(k);
    Pow10Step(k);
    RatioBounds(target, base, 5.0);
    RatioBounds(target, base, 2.0);
  }

  /** The on-screen spacing of grid lines lies between 40 and 100 pixels. */
  lemma PixelSpacing(scale: real, k: int)
    requires scale > 0.0 && Bracketed(TargetPixels / scale, k)
    ensures var pixels := NiceStep(TargetPixels / scale, k) * scale;
      0.4 * TargetPixels <= pixels <= TargetPixels
  {
    var target := TargetPixels / scale;
    var step := NiceStep(target, k);
    StepBracket(target, k);
    ScaledBracket(TargetPixels, scale, step);
  }

  /** A larger target never yields a smaller step. */
  lemma StepMonotone(t1: real, k1: int, t2: real, k2: int)
    requires Bracketed(t1, k1) && Bracketed(t2, k2) && t1 <= t2
    ensures NiceStep(t1, k1) <= NiceStep(t2, k2)
  {
    BracketMonotone(t1, k1, t2, k2);
    StepBracket(t1, k1);
    StepBracket(t2, k2);
    if k1 < k2 {
      Pow10Step(k1);
      Pow10Monotone(k1 + 1, k2);
    } else {
      DivMono(t1, t2, Pow10(k1));
    }
  }

  /** Zooming in (a larger scale) never makes the grid coarser. */
  lemma StepMonotoneInScale(s1: real, k1: int, s2: real, k2: int)
    requires 0.0 < s1 <= s2
    requires Bracketed(TargetPixels / s1, k1) && Bracketed(TargetPixels / s2, k2)
    ensures NiceStep(TargetPixels / s2, k2) <= NiceStep(TargetPixels / s1, k1)
  {
    DivAnti(TargetPixels, s1, s2);
    StepMonotone(TargetPixels / s2, k2, TargetPixels / s1, k1);
  }

  /** The step depends on the target alone: its bracketing exponent is unique. */
  lemma StepDeterminedByTarget(t: real, k1: int, k2: int)
    requires Bracketed(t, k1) && Bracketed(t, k2)
    ensures NiceStep(t, k1) == NiceStep(t, k2)
  {
    BracketUnique(t, k1, k2);
  }

  // ---------------------------------------------------------------------------------------
  // Grid lines

  /** The first grid line: the largest multiple of step at or below lo. */
  function FirstLine(lo: real, step: real): (first: real)
    requires step > 0.0
    ensures first <= lo && lo - first < step
  {
    FloorBounds(lo / step);
    MultipleBelow(lo, step, (lo / step).Floor as real);
    (lo / step).Floor as real * step
  }

  /** FirstLine(lo, step) is a multiple of step, at most lo and within one step of it. */
  lemma FirstLineBounds(lo: real, step: real)
    requires step > 0.0
    ensures FirstLine(lo, step) <= lo < FirstLine(lo, step) + step
  {
    FloorBounds(lo / step);
    MultipleBelow(lo, step, (lo / step).Floor as real);
  }

  /**
   * lines are the arithmetic progression start, start + step, ... as far as it stays at or
   * below hi: the values the loop `for (v = start; v <= hi; v += step)` visits.
   */
  ghost predicate Enumerates(lines: seq<real>, start: real, hi: real, step: real) {
    && (forall i | 0 <= i < |lines| :: lines[i] == start + i as real * step)
    && (forall i | 0 <= i < |lines| :: lines[i] <= hi)
    && start + |lines| as real * step > hi
  }

  /** labels holds the label of each line. */
  ghost predicate Labelled(labels: seq<LabelKind>, lines: seq<real>) {
    |labels| == |lines| && forall i | 0 <= i < |lines| :: labels[i] == LabelFormat(lines[i])
  }

  /** One axis of Graph_DrawGrid: visit start, start + step, ... up to hi and label each. */
  method GridLines(start: real, hi: real, step: real) returns (lines: seq<real>, labels: seq<LabelKind>)
    requires step > 0.0
    ensures Enumerates(lines, start, hi, step)
    ensures Labelled(labels, lines)
  {
    lines, labels := [], [];
    ghost var bound := if start <= hi then ((hi - start) / step).Floor + 1 else 0;
    var v := start;
    while v <= hi
      invariant v == start + |lines| as real * step
      invariant forall i | 0 <= i < |lines| :: lines[i] == start + i as real * step
      invariant forall i | 0 <= i < |lines| :: lines[i] <= hi
      invariant Labelled(labels, lines)
      invariant |lines| <= bound
      decreases bound - |lines|
    {
      CountBound(start, hi, step, |lines|);
      lines, labels := lines + [v], labels + [LabelFormat(v)];
      v := v + step;
    }
  }

  /** A line within range leaves room below the bound on the number of lines. */
  lemma CountBound(start: real, hi: real, step: real, n: nat)
    requires step > 0.0 && start + n as real * step <= hi
    ensures n < ((hi - start) / step).Floor + 1
  {
    DivMono(n as real * step, hi - start, step);
    Cancel(n as real, step);
    assert n as real <= (hi - start) / step;
  }

  /** The enumeration of a range is unique. */
  lemma EnumerationUnique(l1: seq<real>, l2: seq<real>, start: real, hi: real, step: real)
    requires Enumerates(l1, start, hi, step) && Enumerates(l2, start, hi, step)
    ensures l1 == l2
  {
    if |l1| < |l2| {
      LineInRange(l2, start, hi, step, |l1|);
    } else if |l2| < |l1| {
      LineInRange(l1, start, hi, step, |l2|);
    }
    assert forall i | 0 <= i < |l1| :: l1[i] == l2[i];
  }

  /** Every index below the length of an enumeration stays within range. */
  lemma LineInRange(lines: seq<real>, start: real, hi: real, step: real, n: nat)
    requires Enumerates(lines, start, hi, step) && n < |lines|
    ensures start + n as real * step <= hi
  {
    assert lines[n] <= hi;
  }

  /**
   * Starting from FirstLine(lo, step), the enumeration is exactly the multiples of step that lie
   * in [lo - step, hi] from FirstLine on: consecutive lines are one step apart, and every
   * multiple m * step in [lo, hi] is one of them.  The line on the origin is drawn whenever
   * 0 is visible.
   */
  lemma EnumerationCovers(lines: seq<real>, lo: real, hi: real, step: real, m: int)
    requires step > 0.0 && Enumerates(lines, FirstLine(lo, step), hi, step)
    requires lo <= m as real * step <= hi
    ensures m as real * step in lines
  {
    var f := (lo / step).Floor;
    var first := FirstLine(lo, step);
    assert first == f as real * step;
    FirstLineBounds(lo, step);
    MulStrict(m as real, f as real, step);
    assert f <= m;
    var i := m - f;
    assert i as real == m as real - f as real;
    assert first + i as real * step == m as real * step by {
      assert (m as real - f as real) * step == m as real * step - f as real * step;
    }
    if |lines| <= i {
      MulMono(|lines| as real, i as real, step);
      assert false;
    }
    assert lines[i] == m as real * step;
  }

  /** Consecutive lines are exactly one step apart, and each line is at most hi. */
  lemma EnumerationSpacing(lines: seq<real>, start: real, hi: real, step: real, i: nat)
    requires Enumerates(lines, start, hi, step) && i + 1 < |lines|
    ensures lines[i + 1] - lines[i] == step
    ensures lines[i + 1] <= hi
  {
    assert (i + 1) as real * step == i as real * step + step;
  }

  // ---------------------------------------------------------------------------------------
  // Tick labels

  /** The label format of a tick at v. */
  function LabelFormat(v: real): (kind: LabelKind)
    ensures kind == NoLabel <==> Fabs(v) <= Tiny
    ensures kind == General ==> Small <= Fabs(v) < Large
  {
    if Fabs(v) > Tiny then
      if Fabs(v) >= Large || (Fabs(v) < Small && Fabs(v) > Tiny) then Scientific else General
    else NoLabel
  }

  /**
   * Labels depend on the magnitude only: none within Tiny of 0, general notation for
   * magnitudes in [Small, Large), scientific notation for the rest.
   */
  lemma LabelClasses(v: real)
    ensures LabelFormat(v) == NoLabel <==> -Tiny <= v <= Tiny
    ensures LabelFormat(v) == General <==> Small <= Fabs(v) < Large
    ensures LabelFormat(v) == Scientific <==> (Tiny < Fabs(v) < Small || Large <= Fabs(v))
    ensures LabelFormat(-v) == LabelFormat(v)
  {
  }

  // ---------------------------------------------------------------------------------------
  // Real arithmetic with a positive or non-zero factor

  lemma Cancel(a: real, s: real)
    requires s != 0.0
    ensures (a * s) / s == a && (a / s) * s == a
  {
  }

  lemma MulMono(a: real, b: real, s: real)
    requires a <= b && s > 0.0
    ensures a * s <= b * s
  {
  }

  /** A step between 40% of pixels / scale and pixels / scale spans 40% to 100% of pixels. */
  lemma ScaledBracket(pixels: real, scale: real, step: real)
    requires scale > 0.0 && step <= pixels / scale <= 2.5 * step
    ensures 0.4 * pixels <= step * scale <= pixels
  {
    var target := pixels / scale;
    assert target * scale == pixels by { Cancel(pixels, scale); }
    assert step * scale <= target * scale by { MulMono(step, target, scale); }
    assert target * scale <= 2.5 * (step * scale) by {
      MulMono(target, 2.5 * step, scale);
      Assoc(2.5, step, scale);
    }
  }

  /** f * step is at most lo and within one step of it when f is the integer part of lo / step. */
  lemma MultipleBelow(lo: real, step: real, f: real)
    requires step > 0.0 && f <= lo / step < f + 1.0
    ensures f * step <= lo < f * step + step
  {
    var q := lo / step;
    ProductBelow(q, step, f);
    Cancel(lo, step);
    calc {
      f * step;
    <=
      q * step;
    ==
      lo;
    }
    calc {
      lo;
    ==
      q * step;
    <
      f * step + step;
    }
  }

  lemma ProductBelow(q: real, step: real, f: real)
    requires step > 0.0 && f <= q < f + 1.0
    ensures f * step <= q * step < f * step + step
  {
    MulMono(f, q, step);
    MulLess(q, f + 1.0, step);
    Distrib(f, step);
  }

  lemma FloorBounds(r: real)
    ensures r.Floor as real <= r < r.Floor as real + 1.0
  {
  }

  lemma MulLess(a: real, b: real, s: real)
    requires a < b && s > 0.0
    ensures a * s < b * s
  {
  }

  lemma Assoc(a: real, b: real, c: real)
    ensures (a * b) * c == a * (b * c)
  {
  }

  lemma Distrib(a: real, s: real)
    ensures (a + 1.0) * s == a * s + s
  {
  }

  lemma MulStrict(a: real, b: real, s: real)
    requires s > 0.0
    ensures a < b <==> a * s < b * s
  {
  }

  lemma DivMono(a: real, b: real, s: real)
    requires a <= b && s > 0.0
    ensures a / s <= b / s
  {
  }

  lemma DivAnti(a: real, s1: real, s2: real)
    requires a > 0.0 && 0.0 < s1 <= s2
    ensures a / s2 <= a / s1
  {
  }

  lemma DivSpread(a: real, s: real)
    requires s != 0.0
    ensures (a - a / 2.0) / s - (0.0 - a / 2.0) / s == a / s
  {
  }

  lemma DivNonNegative(a: real, s: real)
    requires a >= 0.0 && s > 0.0
    ensures a / s >= 0.0
  {
  }

  lemma RatioBounds(t: real, b: real, c: real)
    requires b > 0.0
    ensures t / b > c <==> t > c * b
  {
  }
}
