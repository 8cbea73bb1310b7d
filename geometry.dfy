/**
 The arithmetic of the display-area derivation: from the raw range registers,
 the draw mode and the cached PAL/interlace flags to the displayed width and
 height in raw units, plus the smoothing adjustment applied before the
 rectangle is normalised against the fixed 1024x512 virtual canvas.
 All of it is straight-line integer code, so it is kept as pure functions that
 the mutating operations call.
 */
module Geometry {
  import opened Registers

  /** A pair of coordinates or dimensions (the source's two-component vectors). */
  datatype Vec2 = Vec2(x: int, y: int)

  /** The virtual canvas every normalised rectangle is expressed against. */
  const CanvasWidth: int := 1024
  const CanvasHeight: int := 512

  /** The dot-clock divider for each horizontal-resolution selector. */
  const Dividers: seq<int> := [10, 7, 8, 7, 5, 7, 4, 7]

  function Min(a: int, b: int): int {
    if a < b then a else b
  }

  /**
   The 3-bit horizontal-resolution selector `((mode >> 6) & 1) | ((mode & 3) << 1)`:
   bit 6 of the mode as bit 0, bits 0..1 of the mode as bits 1..2.
   */
  function HorizontalRes(mode: Byte): (i: nat)
    ensures i < |Dividers|
  {
    (mode / 64) % 2 + (mode % 4) * 2
  }

  /** The arithmetic reading of the selector agrees with the bitwise one on every byte. */
  lemma HorizontalResIsMask(m: bv8)
    ensures ((m >> 6) & 1) | ((m & 3) << 1) == (m / 64) % 2 + (m % 4) * 2
  {
  }

  function Divider(mode: Byte): (d: int)
    ensures d in {4, 5, 7, 8, 10}
  {
    Dividers[HorizontalRes(mode)]
  }

  /** Dot-clock cycles per scanline: 3406 at 50 Hz, 3413 at 60 Hz. */
  function CyclesPerScanline(pal: bool): (c: int)
    ensures 3406 <= c <= 3413
    ensures c == 3406 <==> pal
  {
    if pal then 3406 else 3413
  }

  /** Scanlines per field: 314 at 50 Hz, 263 at 60 Hz. */
  function TotalScanlines(pal: bool): (n: int)
    ensures 263 <= n <= 314
    ensures n == 314 <==> pal
  {
    if pal then 314 else 263
  }

  /**
   Integer division by the divider, multiplied back: the largest multiple of d not
   above v. Written out per divider so that every division is by a constant.
   */
  function RoundDown(v: nat, d: int): (r: nat)
    requires d in {4, 5, 7, 8, 10}
    ensures r <= v < r + d
  {
    if d == 4 then v / 4 * 4
    else if d == 5 then v / 5 * 5
    else if d == 7 then v / 7 * 7
    else if d == 8 then v / 8 * 8
    else v / 10 * 10
  }

  /** The quotient v / d, per divider like RoundDown; the divider is at least 4. */
  function Quotient(v: nat, d: int): (q: nat)
    requires d in {4, 5, 7, 8, 10}
    ensures q <= v / 4
  {
    if d == 4 then v / 4
    else if d == 5 then v / 5
    else if d == 7 then v / 7
    else if d == 8 then v / 8
    else v / 10
  }

  /** Both are the source's integer division (and multiplication) by the divider. */
  lemma DivisionByDivider(v: nat, d: int)
    requires d in {4, 5, 7, 8, 10}
    ensures RoundDown(v, d) == (v / d) * d
    ensures Quotient(v, d) == v / d
  {
  }

  /** The unsigned `n & ~3`: clears the two low bits. */
  function AlignDown4(n: nat): (r: nat)
    ensures r % 4 == 0 && r <= n < r + 4
  {
    (n / 4) * 4
  }

  /** On a 32-bit word, clearing the two low bits is exactly AlignDown4's quotient-times-four. */
  lemma AlignDown4IsMask(b: bv32)
    ensures b & !3 == (b / 4) * 4
  {
  }

  /** The horizontal span in dot-clock cycles; an empty or inverted range spans nothing. */
  function Span(start: int, end: int): (c: nat)
    ensures c == 0 <==> end <= start
    ensures end > start ==> c == end - start
  {
    if end > start then end - start else 0
  }

  /** The displayed width in pixels, before any smoothing adjustment. */
  function Width(mode: Byte, pal: bool, x1: nat, x2: nat): (w: int)
    ensures 0 <= w <= 852
  {
    var d := Divider(mode);
    var cycles := CyclesPerScanline(pal);
    var horStart := RoundDown(Min(x1, cycles), d);
    var horEnd := RoundDown(Min(x2, cycles), d);
    var span := Span(horStart, horEnd);
    AlignDown4(Quotient(span, d) + 2)
  }

  /** The width is a whole number of 4-pixel groups, and at most 852 pixels. */
  lemma WidthBounds(mode: Byte, pal: bool, x1: nat, x2: nat)
    ensures var w := Width(mode, pal, x1, x2);
      w % 4 == 0 && 0 <= w <= 852
  {
  }

  /** The displayed height in scanlines, before any smoothing adjustment. It is not floored at zero. */
  function Height(pal: bool, interlace: bool, y1: nat, y2: nat): (h: int)
    ensures var lines := Min(y2, TotalScanlines(pal)) - Min(y1, TotalScanlines(pal));
      h == if interlace then 2 * lines else lines
  {
    var total := TotalScanlines(pal);
    var vertStart := Min(y1, total);
    var vertEnd := Min(y2, total);
    var height := Min(total, vertEnd - vertStart);
    if interlace then 2 * height else height
  }

  /** The unedited display size (width, height) derived from the raw registers. */
  function Area(mode: Byte, pal: bool, interlace: bool, x1: nat, x2: nat, y1: nat, y2: nat): (a: Vec2)
    ensures 0 <= a.x <= 852
    ensures -2 * TotalScanlines(pal) <= a.y <= 2 * TotalScanlines(pal)
    ensures !interlace ==> -TotalScanlines(pal) <= a.y <= TotalScanlines(pal)
  {
    Vec2(Width(mode, pal, x1, x2), Height(pal, interlace, y1, y2))
  }

  /** Smoothing shrinks the sampled size by one unit on each edge. */
  function AdjustSize(size: Vec2, linearFiltering: bool): (r: Vec2)
    ensures linearFiltering ==> r.x == size.x - 2 && r.y == size.y - 2
    ensures !linearFiltering ==> r == size
  {
    var k := if linearFiltering then 2 else 0;
    Vec2(size.x - k, size.y - k)
  }

  /** Smoothing moves the sampled origin one unit inwards. */
  function AdjustStart(start: Vec2, linearFiltering: bool): (r: Vec2)
    ensures linearFiltering ==> r.x == start.x + 1 && r.y == start.y + 1
    ensures !linearFiltering ==> r == start
  {
    var k := if linearFiltering then 1 else 0;
    Vec2(start.x + k, start.y + k)
  }

  /** The point on the virtual canvas that a numerator pair stands for. */
  ghost function Normalized(numerator: Vec2): (real, real) {
    (numerator.x as real / CanvasWidth as real, numerator.y as real / CanvasHeight as real)
  }

  /** Equal canvas points come from equal numerators, so comparing numerators compares the rectangle. */
  lemma NormalizedInjective(a: Vec2, b: Vec2)
    ensures Normalized(a) == Normalized(b) <==> a == b
  {
    if Normalized(a) == Normalized(b) {
      assert a.x as real == Normalized(a).0 * 1024.0;
      assert a.y as real == Normalized(a).1 * 512.0;
    }
  }

  /**
   A range that ends where it starts, or before, has no width: its span is empty and
   the two extra dots are rounded away.
   */
  lemma EmptyRangeWidth(mode: Byte, pal: bool, x1: nat, x2: nat)
    requires x2 <= x1
    ensures Width(mode, pal, x1, x2) == 0
  {
    var d := Divider(mode);
    var cycles := CyclesPerScanline(pal);
    assert RoundDown(Min(x2, cycles), d) <= RoundDown(Min(x1, cycles), d) by {
      MonotoneRoundDown(Min(x2, cycles), Min(x1, cycles), d);
    }
  }

  lemma MonotoneRoundDown(u: nat, v: nat, d: int)
    requires u <= v && d in {4, 5, 7, 8, 10}
    ensures RoundDown(u, d) <= RoundDown(v, d)
  {
    DivisionByDivider(u, d);
    DivisionByDivider(v, d);
    MultiplyMonotone(u / d, v / d, d);
  }

  lemma MultiplyMonotone(m: int, n: int, d: nat)
    requires m <= n
    ensures m * d <= n * d
  {
    assert n * d - m * d == (n - m) * d;
  }

  /** A range end at or past the end of the scanline gives the same width as the end itself. */
  lemma WidthSaturates(mode: Byte, pal: bool, x1: nat, x2: nat)
    ensures x1 >= CyclesPerScanline(pal) ==> Width(mode, pal, x1, x2) == Width(mode, pal, CyclesPerScanline(pal), x2)
    ensures x2 >= CyclesPerScanline(pal) ==> Width(mode, pal, x1, x2) == Width(mode, pal, x1, CyclesPerScanline(pal))
  {
  }

  /** A range end at or past the last scanline gives the same height as the last scanline itself. */
  lemma HeightSaturates(pal: bool, interlace: bool, y1: nat, y2: nat)
    ensures y1 >= TotalScanlines(pal) ==> Height(pal, interlace, y1, y2) == Height(pal, interlace, TotalScanlines(pal), y2)
    ensures y2 >= TotalScanlines(pal) ==> Height(pal, interlace, y1, y2) == Height(pal, interlace, y1, TotalScanlines(pal))
  {
  }

  /**
   The non-interlaced height is min(total, clamped end - clamped start), never more than the
   field's scanlines, and negative exactly when the clamped end lies before the clamped start;
   interlacing doubles it.
   */
  lemma HeightProperties(pal: bool, y1: nat, y2: nat)
    ensures var total := TotalScanlines(pal);
      Height(pal, false, y1, y2) == Min(total, Min(y2, total) - Min(y1, total))
    ensures -TotalScanlines(pal) <= Height(pal, false, y1, y2) <= TotalScanlines(pal)
    ensures Height(pal, false, y1, y2) < 0 <==> Min(y2, TotalScanlines(pal)) < Min(y1, TotalScanlines(pal))
    ensures Height(pal, true, y1, y2) == 2 * Height(pal, false, y1, y2)
  {
  }
}
