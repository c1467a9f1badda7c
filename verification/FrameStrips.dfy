/** The strip readback of the window frame: instead of the whole window, up to six rectangles are
    rendered and downloaded, and they hold every pixel the frame can show. */
module FrameStrips {
  import opened Basics

  /** The window size and the frame's extents, as the compositor sends them. */
  datatype Frame = Frame(width: int, height: int, top: int, right: int, bottom: int, left: int)

  datatype Rect = Rect(x: int, y: int, w: int, h: int) {
    predicate Has(px: int, py: int) { x <= px < x + w && y <= py < y + h }
    predicate Empty() { w <= 0 || h <= 0 }
    function Area(): int { if Empty() then 0 else w * h }
  }

  function Clamp(x: int, low: int, high: int): int { if x > high then high else if x < low then low else x }

  predicate InWindow(m: Frame, x: int, y: int) {
    0 <= x < m.width && 0 <= y < m.height
  }

  // ---- what has to be downloaded ----

  /** A pixel of one of the four frame bands. */
  predicate InBand(m: Frame, x: int, y: int) {
    y < m.top || y >= m.height - m.bottom || x < m.left || x >= m.width - m.right
  }

  /** A pixel of the window that is a band pixel or has one among its eight neighbours. */
  predicate NearBand(m: Frame, x: int, y: int) {
    exists nx, ny :: x - 1 <= nx <= x + 1 && y - 1 <= ny <= y + 1 && BandAt(m, nx, ny)
  }

  predicate BandAt(m: Frame, x: int, y: int) {
    InWindow(m, x, y) && InBand(m, x, y)
  }

  /** Half the smaller side, rounded up, and one pixel more. */
  function Guard(m: Frame): int {
    (Min(m.width, m.height) + 1) / 2 + 1
  }

  /** A pixel of the guard square in one of the two bottom corners. */
  predicate InGuard(m: Frame, x: int, y: int) {
    y >= m.height - Guard(m) && (x < Guard(m) || x >= m.width - Guard(m))
  }

  // ---- the strips ----

  /** The extents fit the window. */
  predicate ValidExtents(m: Frame) {
    && 0 <= m.top <= m.height && 0 <= m.bottom <= m.height - m.top
    && 0 <= m.left <= m.width && 0 <= m.right <= m.width - m.left
  }

  predicate BoundedCorners(m: Frame) {
    Min(m.width, m.height) + 2 * Abs(m.left - m.right) <= m.width
  }

  /** The extents grown by one pixel where they are not zero, so far as the window allows. */
  function Grown(m: Frame): Frame {
    var top := Min(m.top + (if m.top > 0 then 1 else 0), m.height);
    var bottom := Min(m.bottom + (if m.bottom > 0 then 1 else 0), m.height - top);
    var left := Min(m.left + (if m.left > 0 then 1 else 0), m.width);
    var right := Min(m.right + (if m.right > 0 then 1 else 0), m.width - left);
    Frame(m.width, m.height, top, right, bottom, left)
  }

  /** The six strips around the extents g with the given corner guard. */
  function Six(g: Frame, guard: int): seq<Rect> {
    var middle := g.height - g.top - g.bottom;
    var cornerY := Max(g.top, g.height - guard);
    var cornerHeight := Max(0, g.height - g.bottom - cornerY);
    var cornerLeft := Clamp(guard, g.left, g.width - g.right);
    var cornerRight := Clamp(g.width - guard, cornerLeft, g.width - g.right);
    [Rect(0, 0, g.width, g.top),
     Rect(0, g.top, g.left, middle),
     Rect(g.width - g.right, g.top, g.right, middle),
     Rect(0, g.height - g.bottom, g.width, g.bottom),
     Rect(g.left, cornerY, cornerLeft - g.left, cornerHeight),
     Rect(cornerRight, cornerY, g.width - g.right - cornerRight, cornerHeight)]
  }

  /** The rectangles that are downloaded: the six strips, or the whole window when the body is not
      opaque, a corner threshold can cross the centre or the extents do not fit. */
  function Strips(m: Frame, opaqueBody: bool): seq<Rect> {
    if opaqueBody && BoundedCorners(m) && ValidExtents(m) then Six(Grown(m), Guard(m))
    else [Rect(0, 0, m.width, m.height)]
  }

  predicate Covered(rects: seq<Rect>, x: int, y: int) {
    exists i :: 0 <= i < |rects| && rects[i].Has(x, y)
  }

  lemma GrownFits(m: Frame)
    requires ValidExtents(m)
    ensures ValidExtents(Grown(m))
  {
  }

  lemma SixInside(g: Frame, guard: int, i: nat, x: int, y: int)
    requires ValidExtents(g) && i < 6 && Six(g, guard)[i].Has(x, y)
    ensures InWindow(g, x, y)
  {
  }

  lemma SixApart(g: Frame, guard: int, i: nat, j: nat, x: int, y: int)
    requires ValidExtents(g) && i < j < 6 && Six(g, guard)[i].Has(x, y)
    ensures !Six(g, guard)[j].Has(x, y)
  {
  }

  /** Every strip with pixels in it lies inside the window, and no pixel is in two strips. */
  lemma StripsTile(m: Frame, opaqueBody: bool)
    ensures forall i, x, y :: 0 <= i < |Strips(m, opaqueBody)| && Strips(m, opaqueBody)[i].Has(x, y) ==> InWindow(m, x, y)
    ensures forall i, j, x, y :: 0 <= i < j < |Strips(m, opaqueBody)| ==>
              !(Strips(m, opaqueBody)[i].Has(x, y) && Strips(m, opaqueBody)[j].Has(x, y))
  {
    var s := Strips(m, opaqueBody);
    if opaqueBody && BoundedCorners(m) && ValidExtents(m) {
      GrownFits(m);
      forall i, x, y | 0 <= i < |s| && s[i].Has(x, y) ensures InWindow(m, x, y) {
        SixInside(Grown(m), Guard(m), i, x, y);
      }
      forall i, j, x, y | 0 <= i < j < |s| ensures !(s[i].Has(x, y) && s[j].Has(x, y)) {
        if s[i].Has(x, y) { SixApart(Grown(m), Guard(m), i, j, x, y); }
      }
    }
  }

  /** A strip cannot reach outside the window on either side, empty or not. */
  lemma StripInside(m: Frame, opaqueBody: bool, i: nat)
    requires i < |Strips(m, opaqueBody)| && !Strips(m, opaqueBody)[i].Empty()
    ensures var r := Strips(m, opaqueBody)[i];
            0 <= r.x && r.x + r.w <= m.width && 0 <= r.y && r.y + r.h <= m.height
  {
    var r := Strips(m, opaqueBody)[i];
    if opaqueBody && BoundedCorners(m) && ValidExtents(m) {
      GrownFits(m);
      SixInside(Grown(m), Guard(m), i, r.x, r.y);
      SixInside(Grown(m), Guard(m), i, r.x + r.w - 1, r.y + r.h - 1);
    }
  }

  lemma NearBandIff(m: Frame, x: int, y: int)
    requires ValidExtents(m) && InWindow(m, x, y)
    ensures NearBand(m, x, y) <==> InBand(Grown(m), x, y)
  {
    var g := Grown(m);
    if NearBand(m, x, y) {
      var nx, ny :| x - 1 <= nx <= x + 1 && y - 1 <= ny <= y + 1 && BandAt(m, nx, ny);
    }
    if InBand(g, x, y) {
      var dx := if x < m.left || x >= m.width - m.right then 0 else if x < g.left then -1 else if x >= m.width - g.right then 1 else 0;
      var dy := if y < m.top || y >= m.height - m.bottom then 0 else if y < g.top then -1 else if y >= m.height - g.bottom then 1 else 0;
      assert BandAt(m, x + dx, y + dy);
    }
  }

  lemma SixCover(g: Frame, guard: int, x: int, y: int)
    requires ValidExtents(g) && InWindow(g, x, y)
    ensures Covered(Six(g, guard), x, y) <==>
            InBand(g, x, y) || (y >= g.height - guard && (x < guard || x >= g.width - guard))
  {
    var rects := Six(g, guard);
    assert Covered(rects, x, y) <==> rects[0].Has(x, y) || rects[1].Has(x, y) || rects[2].Has(x, y)
                                     || rects[3].Has(x, y) || rects[4].Has(x, y) || rects[5].Has(x, y);
  }

  /** Exact tiling: the six strips hold exactly the pixels of the window that lie in or next to a
      frame band, and the two guard squares; the fallback holds every pixel. */
  lemma StripsCover(m: Frame, opaqueBody: bool, x: int, y: int)
    requires InWindow(m, x, y)
    ensures Covered(Strips(m, opaqueBody), x, y) <==>
            || !(opaqueBody && BoundedCorners(m) && ValidExtents(m))
            || NearBand(m, x, y) || InGuard(m, x, y)
  {
    if opaqueBody && BoundedCorners(m) && ValidExtents(m) {
      GrownFits(m);
      NearBandIff(m, x, y);
      SixCover(Grown(m), Guard(m), x, y);
    } else {
      assert Strips(m, opaqueBody)[0].Has(x, y);
    }
  }

  function Total(rects: seq<Rect>): int {
    if rects == [] then 0 else rects[0].Area() + Total(rects[1..])
  }

  /** The strips together never hold more pixels than the window. */
  lemma StripsFit(m: Frame, opaqueBody: bool)
    requires m.width >= 0 && m.height >= 0
    ensures Total(Strips(m, opaqueBody)) <= m.width * m.height
  {
    var rects := Strips(m, opaqueBody);
    if |rects| == 1 {
      assert rects[1..] == [];
    } else {
      GrownFits(m);
      SixArea(Grown(m), Guard(m));
    }
  }

  lemma TotalStep(rects: seq<Rect>, i: nat)
    requires i < |rects|
    ensures Total(rects[i..]) == rects[i].Area() + Total(rects[i + 1..])
  {
    assert rects[i..][1..] == rects[i + 1..];
  }

  lemma SixShape(g: Frame, guard: int)
    requires ValidExtents(g)
    ensures var s := Six(g, guard);
            && (forall i :: 0 <= i < 6 ==> s[i].w >= 0 && s[i].h >= 0)
            && s[0].w == s[3].w == g.width && s[0].h == g.top && s[3].h == g.bottom
            && s[1].h == s[2].h && g.top + s[1].h + g.bottom == g.height
            && s[4].h == s[5].h <= s[1].h
            && s[1].w + s[2].w + s[4].w + s[5].w <= g.width
  {
  }

  lemma SixTotal(s: seq<Rect>)
    requires |s| == 6
    ensures Total(s) == s[0].Area() + s[1].Area() + s[2].Area() + s[3].Area() + s[4].Area() + s[5].Area()
  {
    assert s[0..] == s && s[6..] == [];
    TotalStep(s, 5);
    TotalStep(s, 4);
    TotalStep(s, 3);
    TotalStep(s, 2);
    TotalStep(s, 1);
    TotalStep(s, 0);
  }

  lemma SixArea(g: Frame, guard: int)
    requires ValidExtents(g)
    ensures Total(Six(g, guard)) <= g.width * g.height
  {
    var s := Six(g, guard);
    SixTotal(s);
    SixShape(g, guard);
    var middle := s[1].h;
    assert s[0].Area() == g.width * g.top && s[3].Area() == g.width * g.bottom;
    assert s[1].Area() == s[1].w * middle && s[2].Area() == s[2].w * middle;
    assert s[4].Area() == s[4].w * s[4].h && s[5].Area() == s[5].w * s[4].h;
    AreaSum(g.width, g.top, middle, g.bottom, s[1].w, s[2].w, s[4].w, s[5].w, s[4].h);
    assert g.top + middle + g.bottom == g.height;
  }

  /** The middle band is cut lengthwise into at most the window's width. */
  lemma AreaSum(width: nat, top: nat, middle: nat, bottom: nat, a: nat, b: nat, c: nat, d: nat, low: nat)
    requires low <= middle && a + b + c + d <= width
    ensures width * top + a * middle + b * middle + width * bottom + c * low + d * low <= width * (top + middle + bottom)
  {
    MulMono(low, middle, c);
    MulMono(low, middle, d);
    MulMono(a + b + c + d, width, middle);
    calc {
      a * middle + b * middle + c * low + d * low;
    <=
      a * middle + b * middle + c * middle + d * middle;
    ==
      (a + b + c + d) * middle;
    <=
      width * middle;
    }
  }

  lemma MulMono(a: int, b: int, w: nat)
    requires a <= b
    ensures a * w <= b * w && w * a <= w * b
  {
  }

  // ---- writing the pixel buffer ----

  /** The place of a pixel in the buffer. */
  function Offset(w: int, x: int, y: int): int {
    y * w + x
  }

  lemma OffsetInside(w: nat, x: int, y: int, h: nat)
    requires 0 <= x < w && 0 <= y < h
    ensures 0 <= Offset(w, x, y) < w * h
  {
    MulMono(0, y, w);
    MulMono(y + 1, h, w);
    assert (y + 1) * w == y * w + w;
  }

  lemma OffsetInjective(w: nat, x: int, y: int, a: int, b: int)
    requires 0 <= x < w && 0 <= a < w && Offset(w, x, y) == Offset(w, a, b)
    ensures x == a && y == b
  {
    assert (b - y) * w == b * w - y * w;
    if b > y { MulMono(1, b - y, w); }
    if b < y { MulMono(b - y, -1, w); }
  }

  /** Writes one rectangle of the rendering into the buffer, row by row. A cropped rendering shows
      the pixels the full rendering shows there. */
  method Download<P(==, !new)>(pixels: array<P>, m: Frame, r: Rect, full: (int, int) -> P)
    requires m.width >= 0 && m.height >= 0 && pixels.Length == m.width * m.height
    requires 0 <= r.x && 0 < r.w && r.x + r.w <= m.width && 0 <= r.y && 0 < r.h && r.y + r.h <= m.height
    modifies pixels
    ensures forall x, y {:trigger Offset(m.width, x, y)} :: InWindow(m, x, y) ==>
              && 0 <= Offset(m.width, x, y) < pixels.Length
              && pixels[Offset(m.width, x, y)] == if r.Has(x, y) then full(x, y) else old(pixels[..])[Offset(m.width, x, y)]
  {
    ghost var was := pixels[..];
    forall x, y | InWindow(m, x, y) ensures 0 <= Offset(m.width, x, y) < pixels.Length {
      OffsetInside(m.width, x, y, m.height);
    }
    for row := 0 to r.h
      invariant forall x, y {:trigger Offset(m.width, x, y)} :: InWindow(m, x, y) ==>
                  && 0 <= Offset(m.width, x, y) < pixels.Length
                  && pixels[Offset(m.width, x, y)] ==
                       if r.Has(x, y) && y < r.y + row then full(x, y) else was[Offset(m.width, x, y)]
    {
      for col := 0 to r.w
        invariant forall x, y {:trigger Offset(m.width, x, y)} :: InWindow(m, x, y) ==>
                    && 0 <= Offset(m.width, x, y) < pixels.Length
                    && pixels[Offset(m.width, x, y)] ==
                         if r.Has(x, y) && (y < r.y + row || (y == r.y + row && x < r.x + col)) then full(x, y)
                         else was[Offset(m.width, x, y)]
      {
        OffsetInside(m.width, r.x + col, r.y + row, m.height);
        forall x, y | InWindow(m, x, y) && Offset(m.width, x, y) == Offset(m.width, r.x + col, r.y + row)
          ensures x == r.x + col && y == r.y + row
        {
          OffsetInjective(m.width, x, y, r.x + col, r.y + row);
        }
        pixels[Offset(m.width, r.x + col, r.y + row)] := full(r.x + col, r.y + row);
      }
    }
  }

  /** Clamps the extents to the window and grows those that are not zero by one pixel. */
  method FitExtents(m: Frame) returns (g: Frame, valid: bool, bounded: bool)
    ensures valid <==> ValidExtents(m)
    ensures valid ==> g == Grown(m) && (bounded <==> BoundedCorners(m))
    ensures g.width == m.width && g.height == m.height
  {
    var top := Clamp(m.top, 0, m.height);
    var bottom := Clamp(m.bottom, 0, m.height - top);
    var left := Clamp(m.left, 0, m.width);
    var right := Clamp(m.right, 0, m.width - left);
    valid := top == m.top && bottom == m.bottom && left == m.left && right == m.right;
    bounded := Min(m.width, m.height) + 2 * Abs(left - right) <= m.width;
    top := Min(top + (if top > 0 then 1 else 0), m.height);
    bottom := Min(bottom + (if bottom > 0 then 1 else 0), m.height - top);
    left := Min(left + (if left > 0 then 1 else 0), m.width);
    right := Min(right + (if right > 0 then 1 else 0), m.width - left);
    g := Frame(m.width, m.height, top, right, bottom, left);
  }

  /** Which rectangles to download. */
  method PlanStrips(m: Frame, opaqueBody: bool) returns (strips: seq<Rect>)
    ensures strips == Strips(m, opaqueBody)
  {
    var g, valid, bounded := FitExtents(m);
    var middle := m.height - g.top - g.bottom;
    var guard := (Min(m.width, m.height) + 1) / 2 + 1;
    var cornerY := Max(g.top, m.height - guard);
    var cornerHeight := Max(0, m.height - g.bottom - cornerY);
    var cornerLeft := Clamp(guard, g.left, m.width - g.right);
    var cornerRight := Clamp(m.width - guard, cornerLeft, m.width - g.right);
    strips := [
      Rect(0, 0, m.width, g.top),
      Rect(0, g.top, g.left, middle),
      Rect(m.width - g.right, g.top, g.right, middle),
      Rect(0, m.height - g.bottom, m.width, g.bottom),
      Rect(g.left, cornerY, cornerLeft - g.left, cornerHeight),
      Rect(cornerRight, cornerY, m.width - g.right - cornerRight, cornerHeight)];
    if !opaqueBody || !bounded || !valid {
      strips := [Rect(0, 0, m.width, m.height)];
    }
  }

  /** The readback of `frame_paint`. After it the buffer agrees with a full download on every pixel in
      or next to a frame band and in both guard squares, and on the whole window in the fallback cases;
      every other pixel is as it was. */
  method FramePaint<P(==, !new)>(pixels: array<P>, m: Frame, opaqueBody: bool, full: (int, int) -> P)
    requires pixels.Length == if m.width > 0 && m.height > 0 then m.width * m.height else 0
    modifies pixels
    ensures forall x, y {:trigger Offset(m.width, x, y)} :: InWindow(m, x, y) ==>
              && 0 <= Offset(m.width, x, y) < pixels.Length
              && pixels[Offset(m.width, x, y)] ==
                   if || !(opaqueBody && BoundedCorners(m) && ValidExtents(m))
                      || NearBand(m, x, y) || InGuard(m, x, y)
                   then full(x, y) else old(pixels[..])[Offset(m.width, x, y)]
  {
    var strips := PlanStrips(m, opaqueBody);
    DownloadAll(pixels, m, opaqueBody, strips, full);
    forall x, y | InWindow(m, x, y)
      ensures Covered(strips, x, y) <==> !(opaqueBody && BoundedCorners(m) && ValidExtents(m)) || NearBand(m, x, y) || InGuard(m, x, y)
    {
      StripsCover(m, opaqueBody, x, y);
    }
  }

  /** The loop over the strips: a strip without pixels is skipped. */
  method DownloadAll<P(==, !new)>(pixels: array<P>, m: Frame, ghost opaqueBody: bool, strips: seq<Rect>, full: (int, int) -> P)
    requires strips == Strips(m, opaqueBody)
    requires pixels.Length == if m.width > 0 && m.height > 0 then m.width * m.height else 0
    modifies pixels
    ensures forall x, y {:trigger Offset(m.width, x, y)} :: InWindow(m, x, y) ==>
              && 0 <= Offset(m.width, x, y) < pixels.Length
              && pixels[Offset(m.width, x, y)] ==
                   if Covered(strips, x, y) then full(x, y) else old(pixels[..])[Offset(m.width, x, y)]
  {
    forall x, y | InWindow(m, x, y) ensures 0 <= Offset(m.width, x, y) < pixels.Length {
      OffsetInside(m.width, x, y, m.height);
    }
    for i := 0 to |strips|
      invariant forall x, y {:trigger Offset(m.width, x, y)} :: InWindow(m, x, y) ==>
                  && 0 <= Offset(m.width, x, y) < pixels.Length
                  && pixels[Offset(m.width, x, y)] ==
                       if Covered(strips[..i], x, y) then full(x, y) else old(pixels[..])[Offset(m.width, x, y)]
    {
      forall x, y ensures Covered(strips[..i + 1], x, y) <==> Covered(strips[..i], x, y) || strips[i].Has(x, y) {
        CoveredSnoc(strips, i, x, y);
      }
      if strips[i].w <= 0 || strips[i].h <= 0 { continue; }
      StripInside(m, opaqueBody, i);
      Download(pixels, m, strips[i], full);
    }
    assert strips[..|strips|] == strips;
  }

  lemma CoveredSnoc(rects: seq<Rect>, i: nat, x: int, y: int)
    requires i < |rects|
    ensures Covered(rects[..i + 1], x, y) <==> Covered(rects[..i], x, y) || rects[i].Has(x, y)
  {
    if Covered(rects[..i], x, y) {
      var k :| 0 <= k < i && rects[..i][k].Has(x, y);
      assert rects[..i + 1][k].Has(x, y);
    }
    if rects[i].Has(x, y) { assert rects[..i + 1][i].Has(x, y); }
  }
}
