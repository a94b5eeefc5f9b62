/** Adam7 interlacing and the scanline row lengths of a PNG (image-canonical.ts:121-150; RFC 2083 section 2.6). */
module Adam7 {

  /** First column, first row, column step, row step. */
  datatype Pass = Pass(xs: nat, ys: nat, xstep: nat, ystep: nat)

  const PASSES: seq<Pass> :=
    [ Pass(0, 0, 8, 8), Pass(4, 0, 8, 8), Pass(0, 4, 4, 8), Pass(2, 0, 4, 4), Pass(0, 2, 2, 4), Pass(1, 0, 2, 2), Pass(0, 1, 1, 2) ]

  function CeilDiv(a: nat, b: nat): nat
    requires b > 0
  {
    (a + b - 1) / b
  }

  /** Samples along one axis: how many of start, start + step, ... lie below `size`. */
  function Samples(size: nat, start: nat, step: nat): nat
    requires step > 0
  {
    if size > start then CeilDiv(size - start, step) else 0
  }

  function PassWidth(width: nat, p: nat): nat
    requires p < 7
  {
    Samples(width, PASSES[p].xs, PASSES[p].xstep)
  }

  function PassHeight(height: nat, p: nat): nat
    requires p < 7
  {
    Samples(height, PASSES[p].ys, PASSES[p].ystep)
  }

  /** One filter byte and the packed samples. */
  function RowBytes(width: nat, bitsPerPixel: nat): nat {
    1 + CeilDiv(width * bitsPerPixel, 8)
  }

  // ---------- The row list ----------

  function Repeat(v: nat, n: nat): (r: seq<nat>)
    ensures |r| == n && forall i :: 0 <= i < n ==> r[i] == v
    decreases n
  {
    if n == 0 then [] else Repeat(v, n - 1) + [v]
  }

  /** Columns and rows of one pass. */
  datatype Size = Size(w: nat, h: nat)

  function PassSizes(width: nat, height: nat): (sizes: seq<Size>)
    ensures |sizes| == 7
  {
    seq(7, p requires 0 <= p < 7 => Size(PassWidth(width, p), PassHeight(height, p)))
  }

  function SizeRows(size: Size, bitsPerPixel: nat): seq<nat> {
    if size.w == 0 then [] else Repeat(RowBytes(size.w, bitsPerPixel), size.h)
  }

  function PassesRows(sizes: seq<Size>, bitsPerPixel: nat): seq<nat> {
    if sizes == [] then [] else PassesRows(sizes[..|sizes| - 1], bitsPerPixel) + SizeRows(sizes[|sizes| - 1], bitsPerPixel)
  }

  function Rows(width: nat, height: nat, bitsPerPixel: nat, interlaced: bool): seq<nat> {
    if interlaced then PassesRows(PassSizes(width, height), bitsPerPixel) else Repeat(RowBytes(width, bitsPerPixel), height)
  }

  method PngRows(width: nat, height: nat, bitsPerPixel: nat, interlaced: bool) returns (rows: seq<nat>)
    ensures rows == Rows(width, height, bitsPerPixel, interlaced)
  {
    if !interlaced {
      return Repeat(RowBytes(width, bitsPerPixel), height);
    }
    rows := [];
    ghost var sizes := PassSizes(width, height);
    var k := 0;
    while k < |PASSES|
      invariant 0 <= k <= |PASSES|
      invariant rows == PassesRows(sizes[..k], bitsPerPixel)
    {
      var pw, ph := PassWidth(width, k), PassHeight(height, k);
      assert sizes[k] == Size(pw, ph) && sizes[..k + 1][..k] == sizes[..k];
      if pw == 0 || ph == 0 {
        k := k + 1;
        continue;
      }
      var before := rows;
      var r := 0;
      while r < ph
        invariant 0 <= r <= ph
        invariant rows == before + Repeat(RowBytes(pw, bitsPerPixel), r)
      {
        rows := rows + [RowBytes(pw, bitsPerPixel)];
        r := r + 1;
      }
      k := k + 1;
    }
    assert sizes[..k] == sizes;
  }

  // ---------- Every pixel lies in exactly one pass ----------

  /** Whether `v` is one of start, start + step, ... */
  predicate OnAxis(v: nat, start: nat, step: nat)
    requires step > 0
  {
    v >= start && (v - start) % step == 0
  }

  predicate InPass(p: nat, x: nat, y: nat)
    requires p < 7
  {
    OnAxis(x, PASSES[p].xs, PASSES[p].xstep) && OnAxis(y, PASSES[p].ys, PASSES[p].ystep)
  }

  function PassOf(x: nat, y: nat): (p: nat)
    ensures p < 7
  {
    if y % 2 == 1 then 6
    else if x % 2 == 1 then 5
    else if y % 4 == 2 then 4
    else if x % 4 == 2 then 3
    else if y % 8 == 4 then 2
    else if x % 8 == 4 then 1
    else 0
  }

  /** The passes partition the pixels. */
  lemma PixelInExactlyOnePass(p: nat, x: nat, y: nat)
    requires p < 7
    ensures InPass(p, x, y) <==> p == PassOf(x, y)
  {
    var rx := Axis(x);
    var ry := Axis(y);
    if p == 0 {
      assert InPass(p, x, y) == (rx == 0 && ry == 0);
    } else if p == 1 {
      assert InPass(p, x, y) == (rx == 4 && ry == 0);
    } else if p == 2 {
      assert InPass(p, x, y) == ((rx == 0 || rx == 4) && ry == 4);
    } else if p == 3 {
      assert InPass(p, x, y) == ((rx == 2 || rx == 6) && (ry == 0 || ry == 4));
    } else if p == 4 {
      assert InPass(p, x, y) == ((rx == 0 || rx == 2 || rx == 4 || rx == 6) && (ry == 2 || ry == 6));
    } else if p == 5 {
      assert InPass(p, x, y) == ((rx == 1 || rx == 3 || rx == 5 || rx == 7) && (ry == 0 || ry == 2 || ry == 4 || ry == 6));
    } else {
      assert InPass(p, x, y) == (ry == 1 || ry == 3 || ry == 5 || ry == 7);
    }
  }

  /** Every axis test of the passes, by the residue of the coordinate modulo 8. */
  lemma Axis(v: nat) returns (r: nat)
    ensures r < 8
    ensures v % 8 == 4 <==> r == 4
    ensures v % 4 == 2 <==> r == 2 || r == 6
    ensures v % 2 == 1 <==> r == 1 || r == 3 || r == 5 || r == 7
    ensures OnAxis(v, 0, 8) <==> r == 0
    ensures OnAxis(v, 4, 8) <==> r == 4
    ensures OnAxis(v, 0, 4) <==> r == 0 || r == 4
    ensures OnAxis(v, 2, 4) <==> r == 2 || r == 6
    ensures OnAxis(v, 0, 2) <==> r == 0 || r == 2 || r == 4 || r == 6
    ensures OnAxis(v, 1, 2) <==> r == 1 || r == 3 || r == 5 || r == 7
    ensures OnAxis(v, 0, 1)
  {
    r := v % 8;
    Residue(v / 8, r);
    assert v == 8 * (v / 8) + r;
  }

  lemma Residue(q: nat, r: nat)
    requires r < 8
    ensures var v := 8 * q + r;
            && v % 8 == r && v % 4 == r % 4 && v % 2 == r % 2
            && (v >= 4 && (v - 4) % 8 == 0 <==> r == 4)
            && (v >= 2 && (v - 2) % 4 == 0 <==> r % 4 == 2)
            && (v >= 1 && (v - 1) % 2 == 0 <==> r % 2 == 1)
  {
    var v := 8 * q + r;
    Remainder(v, 8, q, r);
    Remainder(v, 4, 2 * q + r / 4, r % 4);
    Remainder(v, 2, 4 * q + r / 2, r % 2);
    Remainder(v - 4, 8, if r < 4 then q - 1 else q, if r < 4 then r + 4 else r - 4);
    Remainder(v - 2, 4, 2 * q + r / 4 - (if r % 4 < 2 then 1 else 0), (r + 2) % 4);
    Remainder(v - 1, 2, 4 * q + r / 2 - (if r % 2 < 1 then 1 else 0), (r + 1) % 2);
  }

  lemma Remainder(v: int, m: nat, q: int, r: nat)
    requires m in {2, 4, 8} && r < m && v == m * q + r
    ensures v % m == r
  {
  }

  /** The stored rows of a pass are exactly its pixels inside the image. */
  lemma PassPixels(width: nat, height: nat, p: nat, column: nat, row: nat)
    requires p < 7
    ensures var x, y := PASSES[p].xs + column * PASSES[p].xstep, PASSES[p].ys + row * PASSES[p].ystep;
            && PassOf(x, y) == p
            && (column < PassWidth(width, p) && row < PassHeight(height, p) <==> x < width && y < height)
  {
    var pass := PASSES[p];
    var x, y := pass.xs + column * pass.xstep, pass.ys + row * pass.ystep;
    SampleInside(width, pass.xs, pass.xstep, column);
    SampleInside(height, pass.ys, pass.ystep, row);
    assert (x - pass.xs) % pass.xstep == 0 && (y - pass.ys) % pass.ystep == 0;
    PixelInExactlyOnePass(p, x, y);
  }

  lemma SampleInside(size: nat, start: nat, step: nat, k: nat)
    requires step in {1, 2, 4, 8}
    ensures k < Samples(size, start, step) <==> start + k * step < size
    ensures (start + k * step - start) % step == 0
  {
  }

  /** Every pixel of the image is a sample of its pass, at one column and row of it. */
  lemma PixelHasSample(width: nat, height: nat, x: nat, y: nat) returns (p: nat, column: nat, row: nat)
    requires x < width && y < height
    ensures p == PassOf(x, y) && column < PassWidth(width, p) && row < PassHeight(height, p)
    ensures x == PASSES[p].xs + column * PASSES[p].xstep && y == PASSES[p].ys + row * PASSES[p].ystep
  {
    p := PassOf(x, y);
    PixelInExactlyOnePass(p, x, y);
    var pass := PASSES[p];
    column, row := (x - pass.xs) / pass.xstep, (y - pass.ys) / pass.ystep;
    PassPixels(width, height, p, column, row);
  }

  // ---------- The passes add up to the image ----------

  function Area(sizes: seq<Size>): nat {
    if sizes == [] then 0 else Area(sizes[..|sizes| - 1]) + sizes[|sizes| - 1].w * sizes[|sizes| - 1].h
  }

  /** A grid and its copy shifted by half a step make the grid of half the step. */
  lemma Halves(size: nat, half: nat)
    requires half in {1, 2, 4}
    ensures Samples(size, 0, 2 * half) + Samples(size, half, 2 * half) == Samples(size, 0, half)
  {
    var m := size + half - 1;
    if half == 4 {
      assert Samples(size, 0, 8) == (m + 4) / 8 && Samples(size, 4, 8) == m / 8 && Samples(size, 0, 4) == m / 4;
      HalfSteps(m, 4);
    } else if half == 2 {
      assert Samples(size, 0, 4) == (m + 2) / 4 && Samples(size, 2, 4) == m / 4 && Samples(size, 0, 2) == m / 2;
      HalfSteps(m, 2);
    } else {
      assert Samples(size, 0, 2) == (m + 1) / 2 && Samples(size, 1, 2) == m / 2 && Samples(size, 0, 1) == m;
      HalfSteps(m, 1);
    }
  }

  lemma HalfSteps(m: nat, half: nat)
    requires half in {1, 2, 4}
    ensures (m + half) / (2 * half) + m / (2 * half) == m / half
  {
    var q, r := m / (2 * half), m % (2 * half);
    assert m == 2 * half * q + r;
    if half == 4 {
      assert m / 4 == 2 * q + r / 4;
    } else if half == 2 {
      assert m / 2 == 2 * q + r / 2;
    }
  }

  /** Adding a strip to a rectangle: (a + b) * c. */
  lemma Distribute(a: nat, b: nat, c: nat)
    ensures (a + b) * c == a * c + b * c && c * (a + b) == c * a + c * b
  {
  }

  /** The areas telescope: every two passes halve a step in one direction, then in the other. */
  lemma Telescope(w8: int, w4: int, w2: int, w: int, h8: int, h4: int, h2: int, h: int)
    ensures w8 * h8 + (w4 - w8) * h8 + w4 * (h4 - h8) + (w2 - w4) * h4 + w2 * (h2 - h4) + (w - w2) * h2 + w * (h - h2) == w * h
  {
  }

  lemma SamplesTelescope(size: nat)
    ensures Samples(size, 4, 8) == Samples(size, 0, 4) - Samples(size, 0, 8)
    ensures Samples(size, 2, 4) == Samples(size, 0, 2) - Samples(size, 0, 4)
    ensures Samples(size, 1, 2) == size - Samples(size, 0, 2)
    ensures Samples(size, 0, 1) == size
  {
    Halves(size, 4);
    Halves(size, 2);
    Halves(size, 1);
  }

  lemma AreaAppend(sizes: seq<Size>, size: Size)
    ensures Area(sizes + [size]) == Area(sizes) + size.w * size.h
  {
    assert (sizes + [size])[..|sizes|] == sizes;
  }

  lemma AreaOfSeven(a: Size, b: Size, c: Size, d: Size, e: Size, f: Size, g: Size)
    ensures Area([a, b, c, d, e, f, g]) == a.w * a.h + b.w * b.h + c.w * c.h + d.w * d.h + e.w * e.h + f.w * f.h + g.w * g.h
  {
    var s0: seq<Size> := [];
    AreaAppend(s0, a);
    AreaAppend([a], b);
    AreaAppend([a, b], c);
    AreaAppend([a, b, c], d);
    AreaAppend([a, b, c, d], e);
    AreaAppend([a, b, c, d, e], f);
    AreaAppend([a, b, c, d, e, f], g);
    assert s0 + [a] == [a] && [a] + [b] == [a, b] && [a, b] + [c] == [a, b, c] && [a, b, c] + [d] == [a, b, c, d];
    assert [a, b, c, d] + [e] == [a, b, c, d, e] && [a, b, c, d, e] + [f] == [a, b, c, d, e, f];
    assert [a, b, c, d, e, f] + [g] == [a, b, c, d, e, f, g];
  }

  /** The sum of the pass areas is the image. */
  lemma PassesCoverImage(width: nat, height: nat)
    ensures Area(PassSizes(width, height)) == width * height
  {
    hide CeilDiv;
    var w8, w4, w2 := Samples(width, 0, 8), Samples(width, 0, 4), Samples(width, 0, 2);
    var h8, h4, h2 := Samples(height, 0, 8), Samples(height, 0, 4), Samples(height, 0, 2);
    SamplesTelescope(width);
    SamplesTelescope(height);
    var s := PassSizes(width, height);
    assert s == [Size(w8, h8), Size(w4 - w8, h8), Size(w4, h4 - h8), Size(w2 - w4, h4), Size(w2, h2 - h4),
                 Size(width - w2, h2), Size(width, height - h2)];
    AreaOfSeven(s[0], s[1], s[2], s[3], s[4], s[5], s[6]);
    Telescope(w8, w4, w2, width, h8, h4, h2, height);
  }

  function Sum(rows: seq<nat>): nat {
    if rows == [] then 0 else Sum(rows[..|rows| - 1]) + rows[|rows| - 1]
  }

  lemma {:induction false} SumAppend(a: seq<nat>, b: seq<nat>)
    ensures Sum(a + b) == Sum(a) + Sum(b)
  {
    if b == [] {
      assert a + b == a;
    } else {
      assert (a + b)[..|a + b| - 1] == a + b[..|b| - 1];
      SumAppend(a, b[..|b| - 1]);
    }
  }

  lemma {:induction false} SumRepeat(v: nat, n: nat)
    ensures Sum(Repeat(v, n)) == n * v
  {
    if n > 0 {
      SumRepeat(v, n - 1);
      assert Repeat(v, n)[..n - 1] == Repeat(v, n - 1);
      Distribute(n - 1, 1, v);
    }
  }

  lemma Scale(n: nat, low: nat, v: nat, high: nat)
    requires low <= v <= high
    ensures n * low <= n * v <= n * high
  {
  }

  lemma CeilBits(bits: nat)
    ensures bits <= 8 * CeilDiv(bits, 8) <= bits + 7
  {
  }

  lemma RowsBits(width: nat, bitsPerPixel: nat, n: nat, bytes: nat)
    requires width * bitsPerPixel <= 8 * bytes <= width * bitsPerPixel + 7
    ensures width * n * bitsPerPixel <= 8 * (n * (1 + bytes) - n) <= width * n * bitsPerPixel + 7 * n
  {
    var bits := width * bitsPerPixel;
    Scale(n, bits, 8 * bytes, bits + 7);
    Distribute(1, bytes, n);
    Distribute(bits, 7, n);
    assert n * (8 * bytes) == 8 * (n * bytes);
    assert n * bits == width * n * bitsPerPixel;
  }

  /** `rows` hold `area` pixels: their bits, one filter byte a row, and less than one byte of padding a row. */
  predicate HoldPixels(rows: seq<nat>, area: nat, bitsPerPixel: nat) {
    area * bitsPerPixel <= 8 * (Sum(rows) - |rows|) <= area * bitsPerPixel + 7 * |rows|
  }

  /** The bits of `n` equal rows: at least their pixels' bits, and less than a byte more for each row. */
  lemma RepeatBits(width: nat, bitsPerPixel: nat, n: nat)
    ensures HoldPixels(Repeat(RowBytes(width, bitsPerPixel), n), width * n, bitsPerPixel)
  {
    hide CeilDiv, Sum, Repeat, HoldPixels;
    var bytes := CeilDiv(width * bitsPerPixel, 8);
    CeilBits(width * bitsPerPixel);
    SumRepeat(1 + bytes, n);
    RowsBits(width, bitsPerPixel, n, bytes);
    HoldIs(Repeat(1 + bytes, n), width * n, bitsPerPixel, n * (1 + bytes));
  }

  lemma HoldIs(rows: seq<nat>, area: nat, bitsPerPixel: nat, sum: nat)
    requires Sum(rows) == sum && area * bitsPerPixel <= 8 * (sum - |rows|) <= area * bitsPerPixel + 7 * |rows|
    ensures HoldPixels(rows, area, bitsPerPixel)
  {
    hide Sum;
  }

  lemma NoRows(bitsPerPixel: nat)
    ensures HoldPixels([], 0, bitsPerPixel)
  {
  }

  lemma HoldAppend(a: seq<nat>, m: nat, b: seq<nat>, n: nat, bitsPerPixel: nat)
    requires HoldPixels(a, m, bitsPerPixel) && HoldPixels(b, n, bitsPerPixel)
    ensures HoldPixels(a + b, m + n, bitsPerPixel)
  {
    SumAppend(a, b);
    Distribute(m, n, bitsPerPixel);
  }

  lemma {:induction false} PassesBits(sizes: seq<Size>, bitsPerPixel: nat)
    ensures HoldPixels(PassesRows(sizes, bitsPerPixel), Area(sizes), bitsPerPixel)
  {
    hide HoldPixels, RowBytes, Sum;
    if sizes == [] {
      NoRows(bitsPerPixel);
    } else {
      var front, last := sizes[..|sizes| - 1], sizes[|sizes| - 1];
      PassesBits(front, bitsPerPixel);
      if last.w > 0 {
        RepeatBits(last.w, bitsPerPixel, last.h);
      } else {
        NoRows(bitsPerPixel);
      }
      HoldAppend(PassesRows(front, bitsPerPixel), Area(front), SizeRows(last, bitsPerPixel), last.w * last.h, bitsPerPixel);
    }
  }

  /** Interlaced or not, the rows hold every pixel's bits, one filter byte a row, and less than one byte of padding a row. */
  lemma RowsHoldTheImage(width: nat, height: nat, bitsPerPixel: nat, interlaced: bool)
    ensures HoldPixels(Rows(width, height, bitsPerPixel, interlaced), width * height, bitsPerPixel)
    ensures forall i :: 0 <= i < |Rows(width, height, bitsPerPixel, interlaced)| ==> Rows(width, height, bitsPerPixel, interlaced)[i] >= 1
  {
    if interlaced {
      PassesBits(PassSizes(width, height), bitsPerPixel);
      PassesCoverImage(width, height);
      RowsPositive(PassSizes(width, height), bitsPerPixel);
    } else {
      RepeatBits(width, bitsPerPixel, height);
    }
  }

  lemma {:induction false} RowsPositive(sizes: seq<Size>, bitsPerPixel: nat)
    ensures forall i :: 0 <= i < |PassesRows(sizes, bitsPerPixel)| ==> PassesRows(sizes, bitsPerPixel)[i] >= 1
  {
    if sizes != [] {
      RowsPositive(sizes[..|sizes| - 1], bitsPerPixel);
    }
  }
}
