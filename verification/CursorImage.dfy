/**
 The pixel passes that turn a system cursor into an image: merging the mask, outlining pixels that would
 invert the screen, and premultiplying by alpha.  All of them work in place.
 */
module CursorImage {

  newtype Byte = x: int | 0 <= x < 256

  datatype Pixel = Pixel(blue: Byte, green: Byte, red: Byte, alpha: Byte)

  const BLACK := Pixel(0, 0, 0, 255)
  const WHITE := Pixel(255, 255, 255, 255)
  const TRANSPARENT := Pixel(0, 0, 0, 0)
  const MASK_WHITE := Pixel(255, 255, 255, 0)

  // ---- rows and columns ------------------------------------------------------------------------

  lemma Scales(a: nat, b: nat, width: nat)
    requires a <= b
    ensures a * width <= b * width
  {
  }

  lemma RowEnd(width: nat, height: nat, y: nat)
    requires y < height
    ensures y * width + width == (y + 1) * width <= height * width
  {
    Scales(y + 1, height, width);
  }

  lemma DivisionIsUnique(width: nat, x: nat, y: nat, q: nat, r: nat)
    requires x < width && r < width && y * width + x == q * width + r
    ensures q == y && r == x
  {
    if q > y { RowEnd(width, q, y); }
    if q < y { RowEnd(width, y, q); }
  }

  lemma RowColumn(width: nat, height: nat, x: nat, y: nat)
    requires x < width && y < height
    ensures 0 <= y * width + x < width * height
    ensures (y * width + x) / width == y && (y * width + x) % width == x
    ensures y > 0 ==> y * width + x >= width
    ensures y < height - 1 ==> y * width + x + width < width * height
  {
    var i := y * width + x;
    RowEnd(width, height, y);
    DivisionIsUnique(width, x, y, i / width, i % width);
    if y > 0 { Scales(1, y, width); }
    if y < height - 1 { RowEnd(width, height, y + 1); }
  }

  // ---- the outline -----------------------------------------------------------------------------

  /** A black pixel above, below, to the left or to the right. */
  predicate TouchesBlack(width: nat, height: nat, s: seq<Pixel>, x: nat, y: nat)
    requires |s| == width * height && x < width && y < height
  {
    RowColumn(width, height, x, y);
    var i := y * width + x;
    || (y > 0 && s[i - width] == BLACK)
    || (y < height - 1 && s[i + width] == BLACK)
    || (x > 0 && s[i - 1] == BLACK)
    || (x < width - 1 && s[i + 1] == BLACK)
  }

  lemma Cell(width: nat, height: nat, i: nat)
    requires i < width * height
    ensures width > 0 && i / width < height && i % width < width && (i / width) * width + i % width == i
  {
    if i / width >= height {
      Scales(height, i / width, width);
      assert false;
    }
  }

  /** Every pixel decided on the original image. */
  function Outlined(width: nat, height: nat, s: seq<Pixel>): seq<Pixel>
    requires |s| == width * height
  {
    seq(width * height, i requires 0 <= i < width * height =>
      Cell(width, height, i);
      if s[i] == TRANSPARENT && TouchesBlack(width, height, s, i % width, i / width) then WHITE else s[i])
  }

  lemma OutlinedAt(width: nat, height: nat, s: seq<Pixel>, x: nat, y: nat)
    requires |s| == width * height && x < width && y < height
    ensures y * width + x < |Outlined(width, height, s)|
    ensures Outlined(width, height, s)[y * width + x] ==
      if s[y * width + x] == TRANSPARENT && TouchesBlack(width, height, s, x, y) then WHITE else s[y * width + x]
  {
    RowColumn(width, height, x, y);
  }

  /** Up to `i` the result, after that the original; black pixels are the same in both. */
  ghost predicate Partly(now: seq<Pixel>, before: seq<Pixel>, after: seq<Pixel>, i: nat) {
    && |now| == |before| == |after| && i <= |now|
    && (forall k :: 0 <= k < i ==> now[k] == after[k])
    && (forall k :: i <= k < |now| ==> now[k] == before[k])
    && (forall k :: 0 <= k < |now| ==> (now[k] == BLACK <==> before[k] == BLACK))
  }

  lemma TouchesSame(width: nat, height: nat, s: seq<Pixel>, t: seq<Pixel>, x: nat, y: nat)
    requires |s| == |t| == width * height && x < width && y < height
    requires forall k :: 0 <= k < |s| ==> (s[k] == BLACK <==> t[k] == BLACK)
    ensures TouchesBlack(width, height, s, x, y) == TouchesBlack(width, height, t, x, y)
  {
    RowColumn(width, height, x, y);
  }

  method AnyNeighborBlack(width: nat, height: nat, data: array<Pixel>, x: nat, y: nat, i: nat) returns (any: bool)
    requires data.Length == width * height && x < width && y < height && i == y * width + x
    ensures any == TouchesBlack(width, height, data[..], x, y)
  {
    RowColumn(width, height, x, y);
    return (y > 0 && data[i - width] == BLACK) || (y < height - 1 && data[i + width] == BLACK)
        || (x > 0 && data[i - 1] == BLACK) || (x < width - 1 && data[i + 1] == BLACK);
  }

  lemma PartlyStep(width: nat, height: nat, now: seq<Pixel>, s: seq<Pixel>, x: nat, y: nat, i: nat, next: seq<Pixel>)
    requires |s| == width * height && x < width && y < height && i == y * width + x < |s|
    requires Partly(now, s, Outlined(width, height, s), i)
    requires next == now[i := if now[i] == TRANSPARENT && TouchesBlack(width, height, now, x, y) then WHITE else now[i]]
    ensures Partly(next, s, Outlined(width, height, s), i + 1)
  {
    OutlinedAt(width, height, s, x, y);
    TouchesSame(width, height, now, s, x, y);
  }

  /** The in-place pass sees neighbours already changed, but only from transparent to white. */
  method AddCursorOutline(width: nat, height: nat, data: array<Pixel>)
    requires data.Length == width * height
    modifies data
    ensures data[..] == Outlined(width, height, old(data[..]))
  {
    ghost var s := data[..];
    var y, i := 0, 0;
    PartlyStarts(width, height, s);
    while y < height
      invariant y <= height && i == y * width
      invariant Partly(data[..], s, Outlined(width, height, s), i)
    {
      RowEnd(width, height, y);
      var x := 0;
      while x < width
        invariant x <= width && i == y * width + x
        invariant Partly(data[..], s, Outlined(width, height, s), i)
      {
        ghost var now := data[..];
        var touches := AnyNeighborBlack(width, height, data, x, y, i);
        if data[i] == TRANSPARENT {
          if touches {
            data[i] := WHITE;
          }
        }
        PartlyStep(width, height, now, s, x, y, i, data[..]);
        i := i + 1;
        x := x + 1;
      }
      y := y + 1;
    }
  }

  lemma PartlyStarts(width: nat, height: nat, s: seq<Pixel>)
    requires |s| == width * height
    ensures Partly(s, s, Outlined(width, height, s), 0)
  {
  }

  /** A second pass finds nothing to do, and black and coloured pixels are never touched. */
  lemma OutlineIdempotent(width: nat, height: nat, s: seq<Pixel>)
    requires |s| == width * height
    ensures Outlined(width, height, Outlined(width, height, s)) == Outlined(width, height, s)
    ensures forall k :: 0 <= k < |s| && s[k] != TRANSPARENT ==> Outlined(width, height, s)[k] == s[k]
  {
    var t := Outlined(width, height, s);
    forall i | 0 <= i < width * height ensures Outlined(width, height, t)[i] == t[i] {
      Cell(width, height, i);
      TouchesSame(width, height, s, t, i % width, i / width);
    }
  }

  // ---- premultiplication -----------------------------------------------------------------------

  function Scaled(c: Byte, alpha: Byte): (r: Byte)
    ensures r <= alpha && r <= c
  {
    ScaledBounds(c, alpha);
    ((c as int * alpha as int) / 255) as Byte
  }

  lemma QuotientBelow(p: nat, k: nat)
    requires p <= 255 * k
    ensures p / 255 <= k
  {
  }

  lemma ScaledBounds(c: Byte, alpha: Byte)
    ensures 0 <= (c as int * alpha as int) / 255 <= alpha as int
    ensures (c as int * alpha as int) / 255 <= c as int
  {
    Scales(c as int, 255, alpha as int);
    Scales(alpha as int, 255, c as int);
    QuotientBelow(c as int * alpha as int, c as int);
    QuotientBelow(c as int * alpha as int, alpha as int);
  }

  function Multiplied(p: Pixel): Pixel {
    Pixel(Scaled(p.blue, p.alpha), Scaled(p.green, p.alpha), Scaled(p.red, p.alpha), p.alpha)
  }

  function Premultiplied(s: seq<Pixel>): seq<Pixel> {
    seq(|s|, i requires 0 <= i < |s| => Multiplied(s[i]))
  }

  method AlphaMul(data: array<Pixel>)
    modifies data
    ensures data[..] == Premultiplied(old(data[..]))
    ensures forall k :: 0 <= k < data.Length ==>
      data[k].blue <= data[k].alpha && data[k].green <= data[k].alpha && data[k].red <= data[k].alpha
  {
    var i := 0;
    while i < data.Length
      invariant i <= data.Length
      invariant forall k :: 0 <= k < i ==> data[k] == Multiplied(old(data[..])[k])
      invariant forall k :: i <= k < data.Length ==> data[k] == old(data[..])[k]
    {
      var p := data[i];
      data[i] := Pixel(Scaled(p.blue, p.alpha), Scaled(p.green, p.alpha), Scaled(p.red, p.alpha), p.alpha);
      i := i + 1;
    }
  }

  predicate OpaqueOrClear(p: Pixel) {
    p.alpha == 255 || p == TRANSPARENT
  }

  lemma MultipliedOpaque(p: Pixel)
    requires OpaqueOrClear(p)
    ensures Multiplied(p) == p
  {
  }

  // ---- merging the mask ------------------------------------------------------------------------

  predicate AlphaAt(s: seq<Pixel>, stride: nat, x: nat, y: nat) {
    y * stride + x < |s| && s[y * stride + x].alpha != 0
  }

  method HasAlphaChannel(data: array<Pixel>, stride: nat, width: nat, height: nat) returns (found: bool)
    requires stride >= width && height * stride <= data.Length
    ensures found <==> exists x, y :: 0 <= x < width && 0 <= y < height && AlphaAt(data[..], stride, x, y)
  {
    var y, plane := 0, 0;
    while y < height
      invariant y <= height && plane == y * stride
      invariant forall u, v :: 0 <= u < width && 0 <= v < y ==> !AlphaAt(data[..], stride, u, v)
    {
      RowEnd(stride, height, y);
      var x := 0;
      while x < width
        invariant x <= width && plane == y * stride + x
        invariant forall u, v :: 0 <= u < width && 0 <= v < y ==> !AlphaAt(data[..], stride, u, v)
        invariant forall u :: 0 <= u < x ==> !AlphaAt(data[..], stride, u, y)
      {
        if data[plane].alpha != 0 {
          assert AlphaAt(data[..], stride, x, y);
          return true;
        }
        plane := plane + 1;
        x := x + 1;
      }
      plane := plane + (stride - width);
      y := y + 1;
    }
    return false;
  }

  /** A pixel that would invert the screen becomes black; one under the mask, clear; any other, opaque. */
  function Merged(p: Pixel, mask: Pixel): Pixel {
    if mask == MASK_WHITE then (if p != TRANSPARENT then BLACK else TRANSPARENT)
    else p.(alpha := 255 - p.alpha)
  }

  predicate Inverts(p: Pixel, mask: Pixel) {
    mask == MASK_WHITE && p != TRANSPARENT
  }

  function MergedAll(s: seq<Pixel>, mask: seq<Pixel>): seq<Pixel>
    requires |s| <= |mask|
  {
    seq(|s|, i requires 0 <= i < |s| => Merged(s[i], mask[i]))
  }

  ghost predicate AnyInverts(s: seq<Pixel>, mask: seq<Pixel>)
    requires |s| <= |mask|
  {
    exists i :: 0 <= i < |s| && Inverts(s[i], mask[i])
  }

  method MergeMask(data: array<Pixel>, mask: seq<Pixel>) returns (addOutline: bool)
    requires data.Length <= |mask|
    modifies data
    ensures data[..] == MergedAll(old(data[..]), mask)
    ensures addOutline <==> AnyInverts(old(data[..]), mask)
  {
    ghost var s := data[..];
    addOutline := false;
    var i := 0;
    while i < data.Length
      invariant i <= data.Length
      invariant forall k :: 0 <= k < i ==> data[k] == Merged(s[k], mask[k])
      invariant forall k :: i <= k < data.Length ==> data[k] == s[k]
      invariant addOutline <==> exists k :: 0 <= k < i && Inverts(s[k], mask[k])
    {
      if mask[i] == MASK_WHITE {
        if data[i] != TRANSPARENT {
          addOutline := true;
          data[i] := BLACK;
        } else {
          data[i] := TRANSPARENT;
        }
      } else {
        data[i] := data[i].(alpha := 255 - data[i].alpha);
      }
      i := i + 1;
    }
  }

  // ---- the whole picture -----------------------------------------------------------------------

  ghost function Drawn(width: nat, height: nat, s: seq<Pixel>, mask: seq<Pixel>, hasAlpha: bool): seq<Pixel>
    requires |s| == width * height <= |mask|
  {
    if hasAlpha then Premultiplied(s)
    else
      var m := MergedAll(s, mask);
      Premultiplied(if AnyInverts(s, mask) then Outlined(width, height, m) else m)
  }

  method DrawCursor(width: nat, height: nat, data: array<Pixel>, mask: seq<Pixel>, isColor: bool)
    requires data.Length == width * height <= |mask|
    modifies data
    ensures var s := old(data[..]);
      data[..] == Drawn(width, height, s, mask, isColor && exists i :: 0 <= i < |s| && s[i].alpha != 0)
  {
    ghost var s := data[..];
    var hasAlpha := false;
    if isColor {
      hasAlpha := HasAlphaChannel(data, width, width, height);
      AlphaAnywhere(width, height, s);
    }
    if !hasAlpha {
      var addOutline := MergeMask(data, mask);
      if addOutline {
        AddCursorOutline(width, height, data);
      }
    }
    AlphaMul(data);
  }

  lemma AlphaAnywhere(width: nat, height: nat, s: seq<Pixel>)
    requires |s| == width * height
    ensures (exists x, y :: 0 <= x < width && 0 <= y < height && AlphaAt(s, width, x, y)) <==>
            (exists i :: 0 <= i < |s| && s[i].alpha != 0)
  {
    if i :| 0 <= i < |s| && s[i].alpha != 0 {
      Cell(width, height, i);
      assert AlphaAt(s, width, i % width, i / width);
    }
  }

  /**
   Without an alpha channel nothing half-transparent comes out: every pixel is opaque or clear, so the
   premultiplication changes nothing, and exactly the inverting pixels of the mask come out black there.
   */
  lemma MaskedCursorIsSharp(width: nat, height: nat, s: seq<Pixel>, mask: seq<Pixel>)
    requires |s| == width * height <= |mask| && forall i :: 0 <= i < |s| ==> s[i].alpha == 0
    ensures var d := Drawn(width, height, s, mask, false);
      && |d| == |s|
      && (forall i :: 0 <= i < |d| ==> OpaqueOrClear(d[i]))
      && d == (if AnyInverts(s, mask) then Outlined(width, height, MergedAll(s, mask)) else MergedAll(s, mask))
      && (forall i :: 0 <= i < |d| && mask[i] == MASK_WHITE ==> (d[i] == BLACK <==> s[i] != TRANSPARENT))
  {
    var m := MergedAll(s, mask);
    var o := if AnyInverts(s, mask) then Outlined(width, height, m) else m;
    OutlineIdempotent(width, height, m);
    forall i | 0 <= i < |s| ensures OpaqueOrClear(o[i]) && Premultiplied(o)[i] == o[i] {
      assert OpaqueOrClear(m[i]);
      MultipliedOpaque(o[i]);
    }
  }
}
