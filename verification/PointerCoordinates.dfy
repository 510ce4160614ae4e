/**
 From a position on a screen, given as fractions, to the 0..65535 coordinates of the virtual desktop.  The
 scaling loses nothing: the exact pixel can be recovered.
 */
module PointerCoordinates {
  import opened Options

  datatype Rect = Rect(left: int, top: int, right: int, bottom: int)

  datatype Point = Point(x: int, y: int)

  datatype Monitor = Monitor(screenId: int, rect: Rect)

  /** The virtual desktop's origin and size, as the system reports them. */
  datatype Desktop = Desktop(x: int, y: int, width: int, height: int)

  const FULL := 65535
  const INT_MAX := 0x7FFF_FFFF

  // ---- rounding --------------------------------------------------------------------------------

  /** Nearest integer, halves away from zero. */
  function Lround(r: real): int {
    if r >= 0.0 then (r + 0.5).Floor else -((0.5 - r).Floor)
  }

  function Max(a: int, b: int): int {
    if a > b then a else b
  }

  function Clamp01(x: real): real {
    if x < 0.0 then 0.0 else if x > 1.0 then 1.0 else x
  }

  /** a * b / c to the nearest integer; -1 on overflow or when c is 0. */
  function MulDiv(a: int, b: int, c: int): int {
    if c == 0 then -1
    else
      var p, d := Abs(a * b), Abs(c);
      var q := (p + d / 2) / d;
      var r := if (a * b < 0) != (c < 0) then -q else q;
      if Abs(r) > INT_MAX then -1 else r
  }

  function Abs(x: int): nat {
    if x < 0 then -x else x
  }

  // ---- a point on a monitor --------------------------------------------------------------------

  function Share(fraction: real, span: int): real {
    fraction * span as real
  }

  /** The pixel, counted from the edge, at a fraction of the way across `span` + 1 pixels. */
  function Across(span: int, x: real): int {
    Lround(Share(Clamp01(x), span))
  }

  function OnAxis(low: int, high: int, x: real): int {
    low + Across(high - low - 1, x)
  }

  /** `None` for a coordinate that is not finite. */
  function NormalizedPoint(r: Rect, x: Option<real>, y: Option<real>): Option<Point> {
    if x.None? || y.None? || r.right <= r.left || r.bottom <= r.top then None
    else Some(Point(OnAxis(r.left, r.right, x.value), OnAxis(r.top, r.bottom, y.value)))
  }

  /** The nearest integer; exactly between two, the one further from zero. */
  lemma LroundIsNearest(r: real)
    ensures r >= 0.0 ==> r - 0.5 < Lround(r) as real <= r + 0.5
    ensures r <= 0.0 ==> r - 0.5 <= Lround(r) as real < r + 0.5
  {
  }

  lemma LroundBetween(r: real, n: int)
    requires 0.0 <= r <= n as real
    ensures 0 <= Lround(r) <= n
  {
  }

  lemma LroundMonotone(r: real, s: real)
    requires 0.0 <= r <= s
    ensures Lround(r) <= Lround(s)
  {
  }

  lemma LroundExact(n: nat)
    ensures Lround(n as real) == n
  {
  }

  lemma ShareBounds(fraction: real, span: nat)
    requires 0.0 <= fraction <= 1.0
    ensures 0.0 <= Share(fraction, span) <= span as real
  {
    TimesReal(0.0, fraction, span as real);
    TimesReal(fraction, 1.0, span as real);
  }

  lemma ShareMonotone(a: real, b: real, span: nat)
    requires a <= b
    ensures Share(a, span) <= Share(b, span)
  {
    TimesReal(a, b, span as real);
  }

  lemma ShareEnds(span: nat)
    ensures Share(0.0, span) == 0.0 && Share(1.0, span) == span as real
  {
  }

  lemma AcrossInside(span: nat, x: real)
    ensures 0 <= Across(span, x) <= span
    ensures x <= 0.0 ==> Across(span, x) == 0
    ensures x >= 1.0 ==> Across(span, x) == span
  {
    ShareBounds(Clamp01(x), span);
    ShareEnds(span);
    LroundBetween(Share(Clamp01(x), span), span);
    LroundExact(span);
    LroundExact(0);
  }

  lemma AcrossMonotone(span: nat, x: real, y: real)
    requires x <= y
    ensures Across(span, x) <= Across(span, y)
  {
    ShareBounds(Clamp01(x), span);
    ShareMonotone(Clamp01(x), Clamp01(y), span);
    LroundMonotone(Share(Clamp01(x), span), Share(Clamp01(y), span));
  }

  lemma AcrossOnto(span: nat, k: nat)
    requires 0 < span && k <= span
    ensures Across(span, k as real / span as real) == k
  {
    FractionBounds(k as real, span as real);
    assert Share(k as real / span as real, span) == k as real;
    LroundExact(k);
  }

  lemma TimesReal(a: real, b: real, n: real)
    requires a <= b && n >= 0.0
    ensures a * n <= b * n
  {
    assert (b - a) * n >= 0.0;
    assert b * n == a * n + (b - a) * n;
  }

  /** Any finite input lands on a pixel of the monitor, and both edges are reached. */
  lemma AxisInside(low: int, high: int, x: real)
    requires low < high
    ensures low <= OnAxis(low, high, x) <= high - 1
    ensures x <= 0.0 ==> OnAxis(low, high, x) == low
    ensures x >= 1.0 ==> OnAxis(low, high, x) == high - 1
  {
    AcrossInside(high - low - 1, x);
  }

  lemma AxisMonotone(low: int, high: int, x: real, y: real)
    requires low < high && x <= y
    ensures OnAxis(low, high, x) <= OnAxis(low, high, y)
  {
    AcrossMonotone(high - low - 1, x, y);
  }

  /** Every pixel of the monitor is reached: by its own fraction of the way. */
  lemma AxisOnto(low: int, high: int, pixel: int)
    requires low < high - 1 && low <= pixel < high
    ensures OnAxis(low, high, (pixel - low) as real / (high - low - 1) as real) == pixel
  {
    AcrossOnto(high - low - 1, pixel - low);
  }

  lemma FractionBounds(k: real, n: real)
    requires 0.0 <= k <= n && n > 0.0
    ensures 0.0 <= k / n <= 1.0
  {
    assert k / n * n == k;
  }

  // ---- the scaling -----------------------------------------------------------------------------

  /** A pixel of a desktop of `size` pixels, in 0..65535. */
  function Scaled(pixel: int, size: int): int {
    MulDiv(pixel, FULL, Max(1, Max(1, size) - 1))
  }

  /** The nearest pixel for a scaled coordinate. */
  function Unscaled(v: int, size: int): int {
    MulDiv(v, Max(1, Max(1, size) - 1), FULL)
  }

  lemma Times(a: int, b: int, d: nat)
    ensures a <= b ==> a * d <= b * d
  {
    assert a <= b ==> (b - a) * d >= 0;
  }

  lemma QuotientIs(n: nat, d: nat, q: nat)
    requires d > 0 && q * d <= n < q * d + d
    ensures n / d == q
  {
    assert n == (n / d) * d + n % d;
    Times(q + 1, n / d, d);
    Times(n / d + 1, q, d);
  }

  lemma Divides(a: nat, b: nat, d: nat)
    requires a <= b && d > 0
    ensures a / d <= b / d
  {
    assert a == (a / d) * d + a % d && b == (b / d) * d + b % d;
    Times(b / d + 1, a / d, d);
  }

  lemma OneMore(a: nat, d: nat)
    requires d > 0
    ensures (a + d) / d == a / d + 1
  {
    assert a == (a / d) * d + a % d;
    QuotientIs(a + d, d, a / d + 1);
  }

  /** (p + d / 2) / d is p / d to the nearest, halves up. */
  lemma Nearest(p: nat, d: nat)
    requires d > 0
    ensures var q := (p + d / 2) / d; 2 * p - d <= 2 * (q * d) <= 2 * p + d && q >= 0
  {
    var n := p + d / 2;
    assert n == (n / d) * d + n % d;
  }

  lemma NearestIs(p: nat, d: nat, q: nat)
    requires d > 0 && 2 * p - d < 2 * (q * d) <= 2 * p + d
    ensures (p + d / 2) / d == q
  {
    QuotientIs(p + d / 2, d, q);
  }

  lemma MulDivIs(a: nat, b: nat, c: nat)
    requires c > 0 && (a * b + c / 2) / c <= INT_MAX
    ensures MulDiv(a, b, c) == (a * b + c / 2) / c
  {
  }

  /** The scaling on pixels of the desktop: nearest, so in range, with both ends hit. */
  lemma ScaledIs(pixel: nat, size: nat)
    requires pixel < size <= 65536
    ensures var d := Max(1, size - 1); var v := Scaled(pixel, size);
      && 0 <= v <= FULL
      && v == (pixel * FULL + d / 2) / d
      && 2 * (pixel * FULL) - d <= 2 * (v * d) <= 2 * (pixel * FULL) + d
      && (pixel == 0 ==> v == 0) && (pixel == size - 1 && size > 1 ==> v == FULL)
  {
    var d := Max(1, size - 1);
    Nearest(pixel * FULL, d);
    NearestIs(0, d, 0);
    NearestIs(d * FULL, d, FULL);
    Divides(pixel * FULL + d / 2, d * FULL + d / 2, d);
    MulDivIs(pixel, FULL, d);
  }

  /** Different pixels never share a coordinate. */
  lemma ScaledStrict(p: nat, q: nat, size: nat)
    requires p < q < size <= 65536
    ensures Scaled(p, size) < Scaled(q, size)
  {
    ScaledIs(p, size);
    ScaledIs(q, size);
    var d := size - 1;
    Divides(p * FULL + d / 2 + d, q * FULL + d / 2, d);
    OneMore(p * FULL + d / 2, d);
  }

  /** Rounding back recovers the exact pixel. */
  lemma ScaledInverts(pixel: nat, size: nat)
    requires pixel < size <= 65536
    ensures Unscaled(Scaled(pixel, size), size) == pixel
  {
    ScaledIs(pixel, size);
    var d, v := Max(1, size - 1), Scaled(pixel, size);
    if d == FULL { NearestIs(pixel * FULL, FULL, pixel); }
    RoundsBack(v * d, pixel, d);
    MulDivIs(v, d, FULL);
  }

  lemma RoundsBack(t: nat, pixel: nat, d: nat)
    requires d <= FULL && 2 * (pixel * FULL) - d <= 2 * t <= 2 * (pixel * FULL) + d
    requires d == FULL ==> t == pixel * FULL
    ensures (t + FULL / 2) / FULL == pixel
  {
    NearestIs(t, FULL, pixel);
  }

  predicate Recovered(pixel: nat, size: nat) {
    Unscaled(Scaled(pixel, size), size) == pixel
  }

  lemma ScaledFormula(pixel: nat, size: nat)
    requires pixel < size <= INT_MAX
    ensures var d := Max(1, size - 1); 0 <= Scaled(pixel, size) == (pixel * FULL + d / 2) / d <= FULL
  {
    CoordinateBounds(pixel, Max(1, size - 1));
    MulDivIs(pixel, FULL, Max(1, size - 1));
  }

  lemma CoordinateBounds(pixel: nat, d: nat)
    requires pixel <= d && d > 0
    ensures 0 <= (pixel * FULL + d / 2) / d <= FULL
  {
    Divides(pixel * FULL + d / 2, d * FULL + d / 2, d);
    QuotientIs(d * FULL + d / 2, d, FULL);
  }

  lemma ScaledClimbs(pixel: nat, size: nat)
    requires 0 < pixel < size <= INT_MAX
    ensures 0 <= Scaled(pixel - 1, size) <= Scaled(pixel, size) <= FULL
  {
    var d := Max(1, size - 1);
    ScaledFormula(pixel - 1, size);
    ScaledFormula(pixel, size);
    Divides((pixel - 1) * FULL + d / 2, pixel * FULL + d / 2, d);
  }

  /** Two neighbours that can both be told apart afterwards are apart. */
  lemma RecoveredApart(pixel: nat, size: nat)
    requires 0 < pixel && Recovered(pixel - 1, size) && Recovered(pixel, size)
    ensures Scaled(pixel - 1, size) != Scaled(pixel, size)
  {
  }

  lemma {:induction false} RecoveredClimbs(pixel: nat, size: nat)
    requires pixel < size <= INT_MAX && forall k :: 0 <= k <= pixel ==> Recovered(k, size)
    ensures pixel <= Scaled(pixel, size)
    decreases pixel
  {
    if pixel > 0 {
      RecoveredClimbs(pixel - 1, size);
      ScaledClimbs(pixel, size);
      RecoveredApart(pixel, size);
    } else {
      ScaledFormula(0, size);
    }
  }

  /** Every pixel of a desktop can be recovered exactly when it has at most 65536 of them. */
  lemma RecoveryLimit(size: nat)
    requires 0 < size <= INT_MAX
    ensures (forall pixel :: 0 <= pixel < size ==> Recovered(pixel, size)) <==> size <= 65536
  {
    if size <= 65536 {
      forall pixel | 0 <= pixel < size ensures Recovered(pixel, size) { ScaledInverts(pixel, size); }
    } else if forall pixel :: 0 <= pixel < size ==> Recovered(pixel, size) {
      ScaledClimbs(size - 1, size);
      RecoveredClimbs(size - 1, size);
    }
  }

  /** The nearest integer to `n` / `c`, whatever the signs; -1 when there is none or it is out of range. */
  predicate NearestOf(r: int, n: int, c: int) {
    if c == 0 || Abs(n) + Abs(c) / 2 >= (INT_MAX + 1) * Abs(c) then r == -1
    else 2 * Abs(r * c - n) <= Abs(c) && Abs(r) <= INT_MAX
  }

  function Signed(n: int, c: int, q: int): int {
    if (n < 0) != (c < 0) then -q else q
  }

  lemma MulDivRounds(a: int, b: int, c: int)
    ensures NearestOf(MulDiv(a, b, c), a * b, c)
  {
    if c != 0 { QuotientRounds(a * b, c); }
  }

  lemma QuotientRounds(n: int, c: int)
    requires c != 0
    ensures var r := Signed(n, c, (Abs(n) + Abs(c) / 2) / Abs(c));
      NearestOf(if Abs(r) > INT_MAX then -1 else r, n, c)
  {
    var p, d := Abs(n), Abs(c);
    var q := (p + d / 2) / d;
    NearestQuotient(p, d, q);
    SignedQuotient(n, c, q);
  }

  lemma NearestQuotient(p: nat, d: nat, q: nat)
    requires d > 0 && q == (p + d / 2) / d
    ensures q > INT_MAX <==> p + d / 2 >= (INT_MAX + 1) * d
    ensures 2 * Abs(q * d - p) <= d
  {
    assert p + d / 2 == q * d + (p + d / 2) % d;
    if q > INT_MAX { Times(INT_MAX + 1, q, d); } else { Times(q + 1, INT_MAX + 1, d); }
  }

  lemma SignedQuotient(n: int, c: int, q: int)
    requires c != 0 && q >= 0 && 2 * Abs(q * Abs(c) - Abs(n)) <= Abs(c)
    ensures 2 * Abs(Signed(n, c, q) * c - n) <= Abs(c) && Abs(Signed(n, c, q)) == q
  {
    assert (-q) * c == q * (-c) == -(q * c);
  }

  /** The first and the last pixel get the first and the last coordinate. */
  lemma ScaledEnds(size: nat)
    requires 1 < size <= INT_MAX
    ensures Scaled(0, size) == 0 && Scaled(size - 1, size) == FULL
  {
    var d := size - 1;
    ScaledFormula(0, size);
    ScaledFormula(d, size);
    assert 0 <= d / 2 < d;
    QuotientIs(d / 2, d, 0);
    QuotientIs(d * FULL + d / 2, d, FULL);
  }

  // ---- the whole conversion --------------------------------------------------------------------

  function MonitorRect(monitors: seq<Monitor>, screenId: int): Option<Rect>
    decreases |monitors|
  {
    if monitors == [] then None
    else if monitors[0].screenId == screenId then Some(monitors[0].rect) else MonitorRect(monitors[1..], screenId)
  }

  function ScreenPoint(monitors: seq<Monitor>, screenId: int, x: Option<real>, y: Option<real>): Option<Point> {
    var rect := MonitorRect(monitors, screenId);
    if rect.None? then None else NormalizedPoint(rect.value, x, y)
  }

  function DesktopPoint(p: Point, d: Desktop): Point {
    Point(Scaled(p.x - d.x, d.width), Scaled(p.y - d.y, d.height))
  }

  /** There is a point exactly for finite positions on a known monitor that is not empty. */
  lemma ScreenPointDecides(monitors: seq<Monitor>, screenId: int, x: Option<real>, y: Option<real>)
    ensures ScreenPoint(monitors, screenId, x, y).Some? <==>
      && x.Some? && y.Some? && MonitorRect(monitors, screenId).Some?
      && var r := MonitorRect(monitors, screenId).value; r.left < r.right && r.top < r.bottom
  {
  }

  /** The point is the pixel nearest to the position on either axis. */
  lemma ScreenPointIsNearest(monitors: seq<Monitor>, screenId: int, x: real, y: real)
    requires ScreenPoint(monitors, screenId, Some(x), Some(y)).Some? && 0.0 <= x <= 1.0 && 0.0 <= y <= 1.0
    ensures var r, p := MonitorRect(monitors, screenId).value, ScreenPoint(monitors, screenId, Some(x), Some(y)).value;
      && -0.5 <= p.x as real - (r.left as real + x * (r.right - r.left - 1) as real) <= 0.5
      && -0.5 <= p.y as real - (r.top as real + y * (r.bottom - r.top - 1) as real) <= 0.5
  {
    var r := MonitorRect(monitors, screenId).value;
    AxisIsNearest(r.left, r.right, x);
    AxisIsNearest(r.top, r.bottom, y);
  }

  lemma AxisIsNearest(low: int, high: int, x: real)
    requires low < high && 0.0 <= x <= 1.0
    ensures -0.5 <= OnAxis(low, high, x) as real - (low as real + x * (high - low - 1) as real) <= 0.5
  {
    var share := Share(x, high - low - 1);
    LroundIsNearest(share);
    assert Clamp01(x) == x;
    assert OnAxis(low, high, x) == low + Lround(share);
  }

  predicate Inside(r: Rect, d: Desktop) {
    && d.x <= r.left < r.right <= d.x + d.width && d.width <= 65536
    && d.y <= r.top < r.bottom <= d.y + d.height && d.height <= 65536
  }

  /**
   For a monitor inside the desktop every finite position becomes coordinates in 0..65535 from which exactly
   the pixel of the monitor that was meant is recovered.
   */
  lemma AbsoluteCoordinatesInvert(monitors: seq<Monitor>, screenId: int, x: real, y: real, d: Desktop)
    requires MonitorRect(monitors, screenId).Some? && Inside(MonitorRect(monitors, screenId).value, d)
    ensures var r := MonitorRect(monitors, screenId).value;
      var p := ScreenPoint(monitors, screenId, Some(x), Some(y));
      && p.Some? && r.left <= p.value.x < r.right && r.top <= p.value.y < r.bottom
      && var v := DesktopPoint(p.value, d);
      && 0 <= v.x <= FULL && 0 <= v.y <= FULL
      && d.x + Unscaled(v.x, d.width) == p.value.x && d.y + Unscaled(v.y, d.height) == p.value.y
  {
    var r := MonitorRect(monitors, screenId).value;
    AxisInside(r.left, r.right, x);
    AxisInside(r.top, r.bottom, y);
    var p := ScreenPoint(monitors, screenId, Some(x), Some(y)).value;
    ScaledIs(p.x - d.x, d.width);
    ScaledIs(p.y - d.y, d.height);
    ScaledInverts(p.x - d.x, d.width);
    ScaledInverts(p.y - d.y, d.height);
  }

  /** Moving right or down on the monitor never moves the coordinates back. */
  lemma AbsoluteCoordinatesMonotone(monitors: seq<Monitor>, screenId: int, x: real, x': real, y: real, d: Desktop)
    requires MonitorRect(monitors, screenId).Some? && Inside(MonitorRect(monitors, screenId).value, d) && x <= x'
    ensures var p := ScreenPoint(monitors, screenId, Some(x), Some(y));
      var q := ScreenPoint(monitors, screenId, Some(x'), Some(y));
      && p.Some? && q.Some? && p.value.x <= q.value.x && DesktopPoint(p.value, d).y == DesktopPoint(q.value, d).y
      && (if p.value.x < q.value.x then DesktopPoint(p.value, d).x < DesktopPoint(q.value, d).x
          else DesktopPoint(p.value, d).x == DesktopPoint(q.value, d).x)
  {
    var r := MonitorRect(monitors, screenId).value;
    AxisInside(r.left, r.right, x);
    AxisInside(r.left, r.right, x');
    AxisMonotone(r.left, r.right, x, x');
    var p := ScreenPoint(monitors, screenId, Some(x), Some(y)).value;
    var q := ScreenPoint(monitors, screenId, Some(x'), Some(y)).value;
    if p.x < q.x { ScaledStrict(p.x - d.x, q.x - d.x, d.width); }
  }

  // ---- the calls -------------------------------------------------------------------------------

  lemma {:induction false} MonitorRectIs(monitors: seq<Monitor>, screenId: int)
    ensures var r := MonitorRect(monitors, screenId);
      if r.Some? then
        exists k :: 0 <= k < |monitors| && monitors[k] == Monitor(screenId, r.value) &&
          forall j :: 0 <= j < k ==> monitors[j].screenId != screenId
      else forall j :: 0 <= j < |monitors| ==> monitors[j].screenId != screenId
    decreases |monitors|
  {
    if monitors != [] {
      MonitorRectIs(monitors[1..], screenId);
      var r := MonitorRect(monitors, screenId);
      if monitors[0].screenId == screenId {
        assert monitors[0] == Monitor(screenId, r.value);
      } else if r.Some? {
        var k :| 0 <= k < |monitors[1..]| && monitors[1..][k] == Monitor(screenId, r.value) &&
          forall j :: 0 <= j < k ==> monitors[1..][j].screenId != screenId;
        assert monitors[k + 1] == Monitor(screenId, r.value);
        forall j | 0 <= j < k + 1 ensures monitors[j].screenId != screenId {
          if j > 0 { assert monitors[j] == monitors[1..][j - 1]; }
        }
      }
    }
  }

  method FindMonitor(monitors: seq<Monitor>, screenId: int) returns (r: Option<Rect>)
    ensures r == MonitorRect(monitors, screenId)
  {
    var k := 0;
    while k < |monitors|
      invariant k <= |monitors|
      invariant MonitorRect(monitors[k..], screenId) == MonitorRect(monitors, screenId)
    {
      if monitors[k].screenId == screenId {
        return Some(monitors[k].rect);
      }
      assert monitors[k..][1..] == monitors[k + 1..];
      k := k + 1;
    }
    return None;
  }

  /** Fails with (0, 0) for an unknown screen, an empty rectangle or a position that is not finite. */
  method AdjustToScreen(monitors: seq<Monitor>, screenId: int, x: Option<real>, y: Option<real>)
    returns (ok: bool, outX: int, outY: int)
    ensures ok <==> ScreenPoint(monitors, screenId, x, y).Some?
    ensures Point(outX, outY) == if ok then ScreenPoint(monitors, screenId, x, y).value else Point(0, 0)
  {
    outX, outY := 0, 0;
    var rect := FindMonitor(monitors, screenId);
    if rect.None? {
      return false, 0, 0;
    }
    var point := NormalizedPoint(rect.value, x, y);
    if point.None? {
      return false, 0, 0;
    }
    return true, point.value.x, point.value.y;
  }

  method AdjustToVirtualDesktopPixels(monitors: seq<Monitor>, screenId: int, x: Option<real>, y: Option<real>,
      d: Desktop)
    returns (ok: bool, outX: int, outY: int)
    ensures ok <==> ScreenPoint(monitors, screenId, x, y).Some?
    ensures ok ==> Point(outX + d.x, outY + d.y) == ScreenPoint(monitors, screenId, x, y).value
    ensures !ok ==> outX == 0 && outY == 0
  {
    ok, outX, outY := AdjustToScreen(monitors, screenId, x, y);
    if ok {
      outX := outX - d.x;
      outY := outY - d.y;
    }
  }

  method AdjustToVirtualDesktop(monitors: seq<Monitor>, screenId: int, x: Option<real>, y: Option<real>, d: Desktop)
    returns (ok: bool, outX: int, outY: int)
    ensures ok <==> ScreenPoint(monitors, screenId, x, y).Some?
    ensures Point(outX, outY) ==
      if ok then DesktopPoint(ScreenPoint(monitors, screenId, x, y).value, d) else Point(0, 0)
  {
    ok, outX, outY := AdjustToVirtualDesktopPixels(monitors, screenId, x, y, d);
    if ok {
      var virtualWidth, virtualHeight := Max(1, d.width), Max(1, d.height);
      outX := MulDiv(outX, FULL, Max(1, virtualWidth - 1));
      outY := MulDiv(outY, FULL, Max(1, virtualHeight - 1));
    }
  }
}
