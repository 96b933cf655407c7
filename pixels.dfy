/**
 * The soft-render fill of the frame loop (main.c:115-132): every pixel of a
 * locked 24-bit RGB texture is written in place, three bytes per pixel,
 * rows `pitch` bytes apart.
 */
module Pixels {

  /** One byte of the locked pixel buffer. */
  type Byte = b: int | 0 <= b < 256

  /** Byte offset of pixel `(x, y)`: `y * pitch + x * 3` (main.c:119-120). */
  function Offset(pitch: nat, x: nat, y: nat): nat
  {
    y * pitch + 3 * x
  }

  /** Red channel of a pixel in column `x`: `(x > width / 2) * 128`. */
  function Red(x: nat, width: nat): Byte
  {
    if x > width / 2 then 128 else 0
  }

  /** Green channel of a pixel in row `y`: `y % 64`. */
  function Green(y: nat): Byte
  {
    y % 64
  }

  /** Blue channel of a pixel in column `x`: `x % 64`. */
  function Blue(x: nat): Byte
  {
    x % 64
  }

  /**
   * Byte `j` of the buffer belongs to a pixel of the `width` x `height`
   * frame: it lies in one of the first `height` rows and before that row's
   * padding.
   */
  predicate Covered(pitch: nat, width: nat, height: nat, j: nat)
  {
    pitch > 0 && j / pitch < height && j % pitch < 3 * width
  }

  /**
   * The value the fill gives byte `j`, read off the byte index alone: row
   * `j / pitch`, column `(j % pitch) / 3`, channel `(j % pitch) % 3`.
   */
  function Expected(pitch: nat, width: nat, j: nat): Byte
    requires pitch > 0
  {
    var y, o := j / pitch, j % pitch;
    var x, c := o / 3, o % 3;
    if c == 0 then Red(x, width) else if c == 1 then Green(y) else Blue(x)
  }

  /** The whole buffer after one fill of `before`. */
  function Rendered(before: seq<Byte>, pitch: nat, width: nat, height: nat): (after: seq<Byte>)
    ensures |after| == |before|
  {
    seq(|before|, j requires 0 <= j < |before| =>
      if Covered(pitch, width, height, j) then Expected(pitch, width, j) else before[j])
  }

  /** Byte `o` of row `y`: `y * pitch + o`. */
  function RowByte(pitch: nat, y: nat, o: nat): nat
  {
    y * pitch + o
  }

  /** Multiplication by a natural number is monotone. */
  lemma MulMonotone(a: nat, b: nat, p: nat)
    requires a <= b
    ensures a * p <= b * p
  {
    assert b * p == a * p + (b - a) * p;
  }

  /** Byte `o < pitch` of row `y` lies in row `y`, at position `o`. */
  lemma RowDivMod(pitch: nat, y: nat, o: nat)
    requires o < pitch
    ensures RowByte(pitch, y, o) / pitch == y && RowByte(pitch, y, o) % pitch == o
  {
    var n := RowByte(pitch, y, o);
    var q, m := n / pitch, n % pitch;
    assert n == q * pitch + m && 0 <= m < pitch;
    if q > y {
      MulMonotone(y + 1, q, pitch);
      assert false;
    }
    if q < y {
      MulMonotone(q + 1, y, pitch);
      assert false;
    }
  }

  /** A byte below `pitch * height` lies in one of the first `height` rows. */
  lemma BelowLastRow(pitch: nat, height: nat, j: nat)
    requires pitch > 0
    ensures j < pitch * height <==> j / pitch < height
  {
    var q := j / pitch;
    assert j == q * pitch + j % pitch;
    if q < height {
      MulMonotone(q + 1, height, pitch);
    } else {
      MulMonotone(height, q, pitch);
    }
  }

  /** Row, column and channel of byte `Offset(pitch, x, y) + c`. */
  lemma PixelDivMod(pitch: nat, x: nat, y: nat, c: nat)
    requires c < 3 && 3 * x + c < pitch
    ensures (Offset(pitch, x, y) + c) / pitch == y
    ensures (Offset(pitch, x, y) + c) % pitch == 3 * x + c
    ensures (3 * x + c) / 3 == x && (3 * x + c) % 3 == c
  {
    RowDivMod(pitch, y, 3 * x + c);
  }

  /**
   * With `pitch >= 3 * width`, the last byte written for any in-range pixel
   * lies below `pitch * height`, the end of the last visible row.
   */
  lemma WrittenInBounds(pitch: nat, width: nat, height: nat, x: nat, y: nat)
    requires pitch >= 3 * width
    requires x < width && y < height
    ensures Offset(pitch, x, y) + 2 < pitch * height
  {
    MulMonotone(y + 1, height, pitch);
    assert (y + 1) * pitch == y * pitch + pitch;
    assert pitch * height == height * pitch;
  }

  /**
   * Every pixel with `x < width` and `y < height` occupies bytes
   * `y * pitch + 3 * x`, `+1` and `+2`, holding red, green and blue in that
   * order; red is 128 exactly when `x > width / 2` and 0 otherwise, green is
   * `y % 64` and blue is `x % 64`, both below 64.
   */
  lemma PixelBytes(before: seq<Byte>, pitch: nat, width: nat, height: nat, x: nat, y: nat)
    requires pitch >= 3 * width && pitch * height <= |before|
    requires x < width && y < height
    ensures Offset(pitch, x, y) + 2 < |before|
    ensures Rendered(before, pitch, width, height)[Offset(pitch, x, y)] == (if x > width / 2 then 128 else 0)
    ensures Rendered(before, pitch, width, height)[Offset(pitch, x, y) + 1] == y % 64 < 64
    ensures Rendered(before, pitch, width, height)[Offset(pitch, x, y) + 2] == x % 64 < 64
  {
    WrittenInBounds(pitch, width, height, x, y);
    PixelDivMod(pitch, x, y, 0);
    PixelDivMod(pitch, x, y, 1);
    PixelDivMod(pitch, x, y, 2);
  }

  /** Two different pixels of the frame write disjoint byte triples. */
  lemma PixelsDisjoint(pitch: nat, width: nat, x: nat, y: nat, x': nat, y': nat, c: nat, c': nat)
    requires pitch >= 3 * width
    requires x < width && x' < width && c < 3 && c' < 3
    requires (x, y) != (x', y')
    ensures Offset(pitch, x, y) + c != Offset(pitch, x', y') + c'
  {
    PixelDivMod(pitch, x, y, c);
    PixelDivMod(pitch, x', y', c');
  }

  /**
   * The padding bytes of each visible row, from `3 * width` up to
   * `pitch - 1`, keep their previous value.
   */
  lemma PaddingUnchanged(before: seq<Byte>, pitch: nat, width: nat, height: nat, y: nat, o: nat)
    requires pitch * height <= |before|
    requires y < height && 3 * width <= o < pitch
    ensures RowByte(pitch, y, o) < |before|
    ensures Rendered(before, pitch, width, height)[RowByte(pitch, y, o)] == before[RowByte(pitch, y, o)]
  {
    RowDivMod(pitch, y, o);
    BelowLastRow(pitch, height, RowByte(pitch, y, o));
  }

  /** Every byte from the end of row `height - 1` on keeps its previous value. */
  lemma TailUnchanged(before: seq<Byte>, pitch: nat, width: nat, height: nat, j: nat)
    requires pitch * height <= j < |before|
    ensures Rendered(before, pitch, width, height)[j] == before[j]
  {
    if pitch > 0 {
      BelowLastRow(pitch, height, j);
    }
  }

  /**
   * Only in-range triples are written: a byte the fill changes is channel
   * `c < 3` of a pixel `(x, y)` with `x < width` and `y < height`.
   */
  lemma ChangedIsPixelByte(before: seq<Byte>, pitch: nat, width: nat, height: nat, j: nat)
    requires j < |before| && Rendered(before, pitch, width, height)[j] != before[j]
    ensures pitch > 0
    ensures var y, x, c := j / pitch, (j % pitch) / 3, (j % pitch) % 3;
      y < height && x < width && j == Offset(pitch, x, y) + c
  {
    var y, o := j / pitch, j % pitch;
    assert j == y * pitch + o;
    assert o == 3 * (o / 3) + o % 3;
  }

  /**
   * Byte `j` has been filled once the loops are at row `y`, row position
   * `n`: it lies in an earlier visible row, or in row `y` before `n`.
   */
  predicate Done(pitch: nat, width: nat, y: nat, n: nat, j: nat)
  {
    pitch > 0 && ((j / pitch < y && j % pitch < 3 * width) || (j / pitch == y && j % pitch < n))
  }

  /** The buffer once the loops are at row `y`, row position `n`. */
  function Partial(before: seq<Byte>, pitch: nat, width: nat, y: nat, n: nat): (mid: seq<Byte>)
    ensures |mid| == |before|
  {
    seq(|before|, j requires 0 <= j < |before| =>
      if Done(pitch, width, y, n, j) then Expected(pitch, width, j) else before[j])
  }

  /** Before the first row nothing has been filled. */
  lemma PartialStart(before: seq<Byte>, pitch: nat, width: nat)
    ensures Partial(before, pitch, width, 0, 0) == before
  {
    var mid := Partial(before, pitch, width, 0, 0);
    forall j | 0 <= j < |before|
      ensures mid[j] == before[j]
    {
      if pitch > 0 {
        assert j / pitch >= 0;
        assert !Done(pitch, width, 0, 0, j);
      }
    }
  }

  /** Row `y` complete is row `y + 1` not yet started. */
  lemma PartialNextRow(before: seq<Byte>, pitch: nat, width: nat, y: nat)
    ensures Partial(before, pitch, width, y, 3 * width) == Partial(before, pitch, width, y + 1, 0)
  {
  }

  /** All `height` rows filled is the rendered frame. */
  lemma PartialEnd(before: seq<Byte>, pitch: nat, width: nat, height: nat)
    ensures Partial(before, pitch, width, height, 0) == Rendered(before, pitch, width, height)
  {
  }

  /** Filling pixel `(x, y)` writes its three bytes and moves row position `3 * x` to `3 * x + 3`. */
  lemma PartialStep(before: seq<Byte>, pitch: nat, width: nat, height: nat, x: nat, y: nat)
    requires pitch >= 3 * width && pitch * height <= |before|
    requires x < width && y < height
    ensures Offset(pitch, x, y) + 2 < |before|
    ensures Partial(before, pitch, width, y, 3 * x + 3) ==
      Partial(before, pitch, width, y, 3 * x)
        [Offset(pitch, x, y) := Red(x, width)]
        [Offset(pitch, x, y) + 1 := Green(y)]
        [Offset(pitch, x, y) + 2 := Blue(x)]
  {
    WrittenInBounds(pitch, width, height, x, y);
    var o := Offset(pitch, x, y);
    PixelDivMod(pitch, x, y, 0);
    PixelDivMod(pitch, x, y, 1);
    PixelDivMod(pitch, x, y, 2);
    var lhs := Partial(before, pitch, width, y, 3 * x + 3);
    var rhs := Partial(before, pitch, width, y, 3 * x)[o := Red(x, width)][o + 1 := Green(y)][o + 2 := Blue(x)];
    forall j | 0 <= j < |before|
      ensures lhs[j] == rhs[j]
    {
      DoneStep(pitch, width, x, y, j);
    }
  }

  /** Row position `3 * x + 3` adds exactly the three bytes of pixel `(x, y)` to row position `3 * x`. */
  lemma DoneStep(pitch: nat, width: nat, x: nat, y: nat, j: nat)
    requires 3 * x + 3 <= pitch
    ensures Done(pitch, width, y, 3 * x + 3, j) <==>
      Done(pitch, width, y, 3 * x, j) || Offset(pitch, x, y) <= j < Offset(pitch, x, y) + 3
  {
    var q, m := j / pitch, j % pitch;
    assert j == RowByte(pitch, q, m);
    if Offset(pitch, x, y) <= j < Offset(pitch, x, y) + 3 {
      RowDivMod(pitch, y, j - y * pitch);
    } else if q == y {
      assert m < 3 * x || m >= 3 * x + 3;
    }
  }

  /**
   * The nested `for` loops of main.c:117-131: row by row, pixel by pixel,
   * red, green and blue are stored at `y * pitch + x * 3` and the two bytes
   * after it. `pitch >= 3 * width` and `pitch * height <= pixels.Length` are
   * what the locked texture guarantees.
   */
  method Fill(pixels: array<Byte>, pitch: nat, width: nat, height: nat)
    requires pitch >= 3 * width && pitch * height <= pixels.Length
    modifies pixels
    ensures pixels[..] == Rendered(old(pixels[..]), pitch, width, height)
  {
    ghost var before := pixels[..];
    PartialStart(before, pitch, width);
    var y := 0;
    while y < height
      invariant 0 <= y <= height
      invariant pixels[..] == Partial(before, pitch, width, y, 0)
    {
      var x := 0;
      while x < width
        invariant 0 <= x <= width
        invariant pixels[..] == Partial(before, pitch, width, y, 3 * x)
      {
        PartialStep(before, pitch, width, height, x, y);
        var line := y * pitch;
        var pixel := line + x * 3;
        pixels[pixel + 0] := Red(x, width);
        pixels[pixel + 1] := Green(y);
        pixels[pixel + 2] := Blue(x);
        x := x + 1;
      }
      PartialNextRow(before, pitch, width, y);
      y := y + 1;
    }
    PartialEnd(before, pitch, width, height);
  }
}
