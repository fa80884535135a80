/** The 16-bit grey-level pixel buffers the compositors work on: numpy
    `uint16` arrays of shape (height, width), their value as a grid of rows,
    and a tile image placed on a canvas at a top-left corner. */
module Canvas {

  /** One numpy `uint16` sample. */
  type u16 = x: int | 0 <= x < 0x1_0000

  /** Rows of samples, row-major like a numpy array of shape (height, width). */
  type Image = seq<seq<u16>>

  predicate IsShape(g: Image, h: int, w: int) {
    |g| == h && forall r :: 0 <= r < |g| ==> |g[r]| == w
  }

  /** The contents of a 2-D array, row by row. */
  ghost function Grid(a: array2<u16>): (g: Image)
    reads a
    ensures IsShape(g, a.Length0, a.Length1)
    ensures forall r, c :: 0 <= r < a.Length0 && 0 <= c < a.Length1 ==> g[r][c] == a[r, c]
  {
    seq(a.Length0, r requires 0 <= r < a.Length0 reads a =>
      seq(a.Length1, c requires 0 <= c < a.Length1 reads a => a[r, c]))
  }

  /** `np.zeros((h, w), dtype=np.uint16)` */
  function Zero(h: nat, w: nat): (g: Image)
    ensures IsShape(g, h, w)
    ensures forall r, c :: 0 <= r < h && 0 <= c < w ==> g[r][c] == 0
  {
    seq(h, _ => seq(w, _ => 0))
  }

  /** `np.zeros((h, w), dtype=np.uint16)` as a new array. */
  method NewZero(h: nat, w: nat) returns (a: array2<u16>)
    ensures fresh(a) && a.Length0 == h && a.Length1 == w
    ensures Grid(a) == Zero(h, w)
  {
    a := new u16[h, w]((_, _) => 0);
    GridEq(a, Zero(h, w));
  }

  /** Two grids of the same shape and the same samples are equal. */
  lemma GridEq(a: array2<u16>, g: Image)
    requires IsShape(g, a.Length0, a.Length1)
    requires forall r, c :: 0 <= r < a.Length0 && 0 <= c < a.Length1 ==> a[r, c] == g[r][c]
    ensures Grid(a) == g
  {
    var h := Grid(a);
    forall r | 0 <= r < a.Length0
      ensures h[r] == g[r]
    {
      assert forall c :: 0 <= c < a.Length1 ==> h[r][c] == g[r][c];
    }
  }

  /** A tile image whose top-left pixel lands on canvas row `top`, column
      `left`. */
  datatype Placement = Placement(top: int, left: int, pixels: Image)

  /** The canvas cell (r, c) lies under the placed tile. */
  predicate Covers(p: Placement, r: int, c: int) {
    p.top <= r < p.top + |p.pixels| && p.left <= c < p.left + |p.pixels[r - p.top]|
  }

  /** The tile's pixel over canvas cell (r, c). */
  function PixelAt(p: Placement, r: int, c: int): u16
    requires Covers(p, r, c)
  {
    p.pixels[r - p.top][c - p.left]
  }
}
