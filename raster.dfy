/** Images as rectangular grids of pixels, row by row (rows top to bottom,
    pixels left to right), and the three exact quarter-turn rotations that
    OpenCV's `rotate` performs on them. */
module Raster {
  /** One pixel; the channel order plays no part in what is modelled. */
  datatype Pixel = Pixel(c0: int, c1: int, c2: int)

  predicate IsImage(g: seq<seq<Pixel>>)
  {
    |g| > 0 && |g[0]| > 0 && forall i :: 0 <= i < |g| ==> |g[i]| == |g[0]|
  }

  /** A decoded image: at least one row, every row of the same positive width. */
  type Image = g: seq<seq<Pixel>> | IsImage(g) witness [[Pixel(0, 0, 0)]]

  function Height(g: Image): nat { |g| }
  function Width(g: Image): nat { |g[0]| }

  /** `cv2.ROTATE_90_CLOCKWISE`. */
  function Rot90(g: Image): (r: Image)
    ensures Height(r) == Width(g) && Width(r) == Height(g)
  {
    var h, w := Height(g), Width(g);
    seq(w, i requires 0 <= i < w => seq(h, j requires 0 <= j < h => g[h - 1 - j][i]))
  }

  /** `cv2.ROTATE_180`. */
  function Rot180(g: Image): (r: Image)
    ensures Height(r) == Height(g) && Width(r) == Width(g)
  {
    var h, w := Height(g), Width(g);
    seq(h, i requires 0 <= i < h => seq(w, j requires 0 <= j < w => g[h - 1 - i][w - 1 - j]))
  }

  /** `cv2.ROTATE_90_COUNTERCLOCKWISE`. */
  function Rot270(g: Image): (r: Image)
    ensures Height(r) == Width(g) && Width(r) == Height(g)
  {
    var h, w := Height(g), Width(g);
    seq(w, i requires 0 <= i < w => seq(h, j requires 0 <= j < h => g[j][w - 1 - i]))
  }

  /** Where each pixel goes: under a clockwise quarter turn the pixel at row
      y, column x lands at row x, column h - 1 - y; under a half turn at the
      mirrored row and column; under a counter-clockwise quarter turn at row
      w - 1 - x, column y. */
  lemma PixelMoves(g: Image, y: nat, x: nat)
    requires y < Height(g) && x < Width(g)
    ensures Rot90(g)[x][Height(g) - 1 - y] == g[y][x]
    ensures Rot180(g)[Height(g) - 1 - y][Width(g) - 1 - x] == g[y][x]
    ensures Rot270(g)[Width(g) - 1 - x][y] == g[y][x]
  {
  }

  /** Two images of the same size that agree on every pixel are equal. */
  lemma SamePixels(a: Image, b: Image)
    requires Height(a) == Height(b) && Width(a) == Width(b)
    requires forall y, x :: 0 <= y < Height(a) && 0 <= x < Width(a) ==> a[y][x] == b[y][x]
    ensures a == b
  {
    forall y | 0 <= y < Height(a)
      ensures a[y] == b[y]
    {
      assert |a[y]| == |b[y]| == Width(a);
    }
  }

  /** A half turn is two clockwise quarter turns. */
  lemma Rot180IsTwoQuarters(g: Image)
    ensures Rot180(g) == Rot90(Rot90(g))
  {
    var a, b := Rot180(g), Rot90(Rot90(g));
    forall y, x | 0 <= y < Height(a) && 0 <= x < Width(a)
      ensures a[y][x] == b[y][x]
    {
      var h, w := Height(g), Width(g);
      assert a[y][x] == g[h - 1 - y][w - 1 - x];
      assert Rot90(g)[w - 1 - x][h - 1 - (h - 1 - y)] == g[h - 1 - y][w - 1 - x];
    }
    SamePixels(a, b);
  }

  /** A counter-clockwise quarter turn is three clockwise ones. */
  lemma Rot270IsThreeQuarters(g: Image)
    ensures Rot270(g) == Rot90(Rot180(g))
  {
    var a, b := Rot270(g), Rot90(Rot180(g));
    forall y, x | 0 <= y < Height(a) && 0 <= x < Width(a)
      ensures a[y][x] == b[y][x]
    {
      var h, w := Height(g), Width(g);
      assert a[y][x] == g[x][w - 1 - y];
      assert b[y][x] == Rot180(g)[h - 1 - x][y];
      assert Rot180(g)[h - 1 - x][y] == g[x][w - 1 - y];
    }
    SamePixels(a, b);
  }

  /** Turning clockwise undoes a counter-clockwise quarter turn, and four
      clockwise quarter turns give the image back. */
  lemma Rot90UndoesRot270(g: Image)
    ensures Rot90(Rot270(g)) == g
    ensures Rot90(Rot90(Rot90(Rot90(g)))) == g
  {
    var a := Rot90(Rot270(g));
    forall y, x | 0 <= y < Height(g) && 0 <= x < Width(g)
      ensures a[y][x] == g[y][x]
    {
      var w := Width(g);
      assert Rot270(g)[w - 1 - x][y] == g[y][x];
    }
    SamePixels(a, g);
    Rot180IsTwoQuarters(g);
    Rot270IsThreeQuarters(g);
  }

  /** Turning counter-clockwise undoes a clockwise quarter turn. */
  lemma Rot270UndoesRot90(g: Image)
    ensures Rot270(Rot90(g)) == g
  {
    var a := Rot270(Rot90(g));
    forall y, x | 0 <= y < Height(g) && 0 <= x < Width(g)
      ensures a[y][x] == g[y][x]
    {
      var h := Height(g);
      assert Rot90(g)[x][h - 1 - y] == g[y][x];
    }
    SamePixels(a, g);
  }
}
