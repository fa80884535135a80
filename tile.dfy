/** The tile grid of one acquisition and its compositor (`src/tile.py`):
    tiles are numbered 1..rows*cols, each names one image file per channel
    under `<path>/<channel>/<number zero-padded to 5>.tif`; once MIST has
    reported a corner per tile, the canvas is sized to hold every tile and
    the tiles of one channel are blended onto a zeroed uint16 canvas in
    tile-number order. */
module Tiles {
  import opened Text
  import opened Dicts
  import opened Canvas

  const TILE_IMAGE_EXTENSION: string := ".tif"
  const ZFILL_SIZE: nat := 5

  // ---------------------------------------------------------------------------
  // File names
  // ---------------------------------------------------------------------------

  /** `tile_fname(num)`: `str(num).zfill(5) + ".tif"`. */
  function TileFname(num: int): string {
    ZFill(IntToString(num), ZFILL_SIZE) + TILE_IMAGE_EXTENSION
  }

  /** A tile file name is the extension after, for a non-negative number,
      its decimal digits padded with '0' to at least five; the padding is
      never more than needed, and numbers up to 99999 give 9 characters. */
  lemma TileFnameSpec(num: int)
    ensures var r := TileFname(num);
            |r| >= 4 && r[|r| - 4..] == TILE_IMAGE_EXTENSION
            && (num >= 0 ==> |r| >= ZFILL_SIZE + 4 && AllDigits(r[..|r| - 4])
                             && DigitsValue(r[..|r| - 4]) == num)
            && (num >= 0 && |r| > ZFILL_SIZE + 4 ==> r[0] != '0')
            && (0 <= num < 100000 ==> |r| == 9)
  {
    var stem := ZFill(IntToString(num), ZFILL_SIZE);
    var r := TileFname(num);
    if num >= 0 {
      NatToStringValue(num);
      ZFillDigits(IntToString(num), ZFILL_SIZE);
    }
    assert r[..|r| - 4] == stem && r[|r| - 4..] == TILE_IMAGE_EXTENSION;
    StemLength(num);
  }

  lemma StemLength(num: int)
    ensures 0 <= num < 100000 ==> |IntToString(num)| <= ZFILL_SIZE
  {
    if 0 <= num < 100000 {
      assert Pow10(5) == 100000 by {
        assert Pow10(1) == 10;
        assert Pow10(2) == 100;
        assert Pow10(3) == 1000;
        assert Pow10(4) == 10000;
      }
      NatToStringShort(num, 5);
    }
  }

  /** A tile file name is relative (it never starts with '/'), so
      `os.path.join(path, channel, tile_fname(i))` always ends with it. */
  lemma TileFnameIsRelative(i: int)
    ensures TileFname(i)[0] != '/'
  {
    var name := TileFname(i);
    TileFnameSpec(i);
    if i >= 0 {
      assert name[0] == name[..|name| - 4][0];
    } else {
      assert ZFill(IntToString(i), ZFILL_SIZE)[0] == '-';
      assert name[0] == ZFill(IntToString(i), ZFILL_SIZE)[0];
    }
  }

  /** `os.path.join(path, channel, name)` for each channel, stored channel by
      channel in order: the paths a freshly assembled tile holds. */
  function ChannelPaths(path: string, channels: seq<string>, name: string): map<string, string> {
    if channels == [] then map[]
    else
      var last := channels[|channels| - 1];
      ChannelPaths(path, channels[..|channels| - 1], name)[last := JoinPath(JoinPath(path, last), name)]
  }

  /** The paths tile `i` holds: `os.path.join(path, channel, tile_fname(i))`
      for each channel. */
  function TilePaths(path: string, channels: seq<string>, i: int): map<string, string> {
    if channels == [] then map[]
    else
      var last := channels[|channels| - 1];
      TilePaths(path, channels[..|channels| - 1], i)[last := JoinPath(JoinPath(path, last), TileFname(i))]
  }

  /** Tile i's paths are the channel paths for its file name. */
  lemma {:induction false} TilePathsByName(path: string, channels: seq<string>, i: int, name: string)
    requires name == TileFname(i)
    ensures TilePaths(path, channels, i) == ChannelPaths(path, channels, name)
  {
    if channels != [] {
      TilePathsByName(path, channels[..|channels| - 1], i, name);
    }
  }

  /** A fresh tile holds exactly the sequence's channels, each at its
      standard path. */
  lemma {:induction false} ChannelPathsComplete(path: string, channels: seq<string>, name: string)
    ensures forall c :: c in ChannelPaths(path, channels, name) <==> c in channels
    ensures forall c :: c in ChannelPaths(path, channels, name) ==>
              ChannelPaths(path, channels, name)[c] == JoinPath(JoinPath(path, c), name)
  {
    if channels != [] {
      var front := channels[..|channels| - 1];
      ChannelPathsComplete(path, front, name);
      assert channels == front + [channels[|channels| - 1]];
    }
  }

  // ---------------------------------------------------------------------------
  // Tiles
  // ---------------------------------------------------------------------------

  /** One stage position: the image file of each channel taken there. */
  class Tile {
    var channels: map<string, string>

    constructor ()
      ensures channels == map[]
    {
      channels := map[];
    }

    /** `add_channel(name, path)`: `name` now refers to `path`; every other
        channel keeps its path. */
    method AddChannel(name: string, path: string)
      modifies this
      ensures channels == old(channels)[name := path]
      ensures channels[name] == path
      ensures forall other :: other != name ==> (other in channels <==> other in old(channels))
      ensures forall other :: other != name && other in channels ==> channels[other] == old(channels)[other]
    {
      channels := channels[name := path];
    }

    /** `get_channel(name)`: the path stored under `name`; `None` stands for
        the `KeyError` of an unknown channel. */
    method GetChannel(name: string) returns (path: Option<string>)
      ensures path.Some? <==> name in channels
      ensures path.Some? ==> path.value == channels[name]
    {
      if name in channels {
        path := Some(channels[name]);
      } else {
        path := None;
      }
    }
  }

  // ---------------------------------------------------------------------------
  // Canvas size
  // ---------------------------------------------------------------------------

  /** `max(max(edges), 0)` as the loop in `__set_full_image_size` computes
      it: a running maximum starting from 0. */
  function Extent(edges: seq<int>): nat {
    if edges == [] then 0
    else
      var front := Extent(edges[..|edges| - 1]);
      if edges[|edges| - 1] > front then edges[|edges| - 1] else front
  }

  /** The extent is at least every edge, and is 0 or one of the edges. */
  lemma {:induction false} ExtentIsMax(edges: seq<int>)
    ensures forall k :: 0 <= k < |edges| ==> edges[k] <= Extent(edges)
    ensures Extent(edges) == 0 || Extent(edges) in edges
  {
    if edges != [] {
      var front := edges[..|edges| - 1];
      ExtentIsMax(front);
      assert forall k :: 0 <= k < |front| ==> edges[k] == front[k];
    }
  }

  /** One more edge raises the extent to it if it is larger. */
  lemma ExtentSnoc(edges: seq<int>, e: int)
    ensures Extent(edges + [e]) == if e > Extent(edges) then e else Extent(edges)
  {
    assert (edges + [e])[..|edges|] == edges;
  }

  /** corner.x + tile width for each corner, in order. */
  function RightEdges(corners: seq<(int, int)>, width: nat): (edges: seq<int>)
    ensures |edges| == |corners|
  {
    seq(|corners|, i requires 0 <= i < |corners| => corners[i].0 + width)
  }

  /** corner.y + tile height for each corner, in order. */
  function BottomEdges(corners: seq<(int, int)>, height: nat): (edges: seq<int>)
    ensures |edges| == |corners|
  {
    seq(|corners|, i requires 0 <= i < |corners| => corners[i].1 + height)
  }

  /** The running maxima after corner i are the maxima before it, raised to
      its edges where they are larger. */
  lemma EdgesStep(cs: seq<(int, int)>, i: nat, width: nat, height: nat)
    requires i < |cs|
    ensures Extent(RightEdges(cs[..i + 1], width))
            == if cs[i].0 + width > Extent(RightEdges(cs[..i], width)) then cs[i].0 + width else Extent(RightEdges(cs[..i], width))
    ensures Extent(BottomEdges(cs[..i + 1], height))
            == if cs[i].1 + height > Extent(BottomEdges(cs[..i], height)) then cs[i].1 + height else Extent(BottomEdges(cs[..i], height))
  {
    assert RightEdges(cs[..i + 1], width) == RightEdges(cs[..i], width) + [cs[i].0 + width];
    assert BottomEdges(cs[..i + 1], height) == BottomEdges(cs[..i], height) + [cs[i].1 + height];
    ExtentSnoc(RightEdges(cs[..i], width), cs[i].0 + width);
    ExtentSnoc(BottomEdges(cs[..i], height), cs[i].1 + height);
  }

  /** `full_size` = (height, width) of the composite for the given corners
      and tile size (width, height). */
  function FullSize(corners: Dict<int, (int, int)>, tileSize: (nat, nat)): (nat, nat)
    requires Valid(corners)
  {
    var cs := Values(corners);
    (Extent(BottomEdges(cs, tileSize.1)), Extent(RightEdges(cs, tileSize.0)))
  }

  /** Every tile's rectangle lies inside the canvas. */
  lemma TileInsideCanvas(corners: Dict<int, (int, int)>, tileSize: (nat, nat), k: int)
    requires Valid(corners)
    requires k in corners.entries
    ensures corners.entries[k].1 + tileSize.1 <= FullSize(corners, tileSize).0
    ensures corners.entries[k].0 + tileSize.0 <= FullSize(corners, tileSize).1
  {
    var cs := Values(corners);
    var bottoms := BottomEdges(cs, tileSize.1);
    var rights := RightEdges(cs, tileSize.0);
    ExtentIsMax(bottoms);
    ExtentIsMax(rights);
    var i :| 0 <= i < |corners.keys| && corners.keys[i] == k;
    assert bottoms[i] == corners.entries[k].1 + tileSize.1;
    assert rights[i] == corners.entries[k].0 + tileSize.0;
  }

  /** The canvas is no larger than needed: (0, 0) without corners, and
      otherwise each side is 0 or reached by some tile. */
  lemma CanvasIsTight(corners: Dict<int, (int, int)>, tileSize: (nat, nat))
    requires Valid(corners)
    ensures corners.keys == [] ==> FullSize(corners, tileSize) == (0, 0)
    ensures var (h, w) := FullSize(corners, tileSize);
            (h == 0 || exists j :: j in corners.entries && h == corners.entries[j].1 + tileSize.1)
            && (w == 0 || exists j :: j in corners.entries && w == corners.entries[j].0 + tileSize.0)
  {
    var cs := Values(corners);
    var bottoms := BottomEdges(cs, tileSize.1);
    var rights := RightEdges(cs, tileSize.0);
    ExtentIsMax(bottoms);
    ExtentIsMax(rights);
    var (h, w) := FullSize(corners, tileSize);
    if h != 0 {
      var i :| 0 <= i < |bottoms| && bottoms[i] == h;
      assert corners.keys[i] in corners.entries;
    }
    if w != 0 {
      var i :| 0 <= i < |rights| && rights[i] == w;
      assert corners.keys[i] in corners.entries;
    }
  }

  // ---------------------------------------------------------------------------
  // Blending
  // ---------------------------------------------------------------------------

  /** What the two masked assignments of `blend` leave in a canvas cell that
      held `a` when the tile's pixel there is `b`. The first assignment copies
      `b` into a cell that reads 0 ("unwritten"); the second, whose mask is
      recomputed after the first, averages every non-zero cell with `b` in
      uint16 arithmetic (the sum wraps at 65536) and truncates. So an
      unwritten cell ends at `b` only when `b` < 32768, and a written cell
      ends at the truncated half of the wrapped sum. */
  function BlendCell(a: u16, b: u16): (r: u16)
    ensures a == 0 && b < 0x8000 ==> r == b
    ensures a == 0 && b >= 0x8000 ==> r == b - 0x8000
    ensures a != 0 ==> r == (a + b) % 0x1_0000 / 2
  {
    var written := if a == 0 then b else a;
    if written != 0 then (written + b) % 0x1_0000 / 2 else written
  }

  /** The canvas after one tile is blended in: cells under the tile follow
      BlendCell, all others keep their value. */
  function ApplyTile(canvas: Image, p: Placement): (out: Image)
    ensures |out| == |canvas|
    ensures forall r :: 0 <= r < |out| ==> |out[r]| == |canvas[r]|
  {
    seq(|canvas|, r requires 0 <= r < |canvas| =>
      seq(|canvas[r]|, c requires 0 <= c < |canvas[r]| =>
        if Covers(p, r, c) then BlendCell(canvas[r][c], PixelAt(p, r, c)) else canvas[r][c]))
  }

  /** The canvas after the tiles of `ps` are blended in, first to last. */
  function BlendAll(canvas: Image, ps: seq<Placement>): (out: Image)
    ensures |out| == |canvas|
    ensures forall r :: 0 <= r < |out| ==> |out[r]| == |canvas[r]|
  {
    if ps == [] then canvas else ApplyTile(BlendAll(canvas, ps[..|ps| - 1]), ps[|ps| - 1])
  }

  /** Blending one more tile applies it to the canvas blended so far. */
  lemma BlendAllSnoc(canvas: Image, ps: seq<Placement>, p: Placement)
    ensures BlendAll(canvas, ps + [p]) == ApplyTile(BlendAll(canvas, ps), p)
  {
    assert (ps + [p])[..|ps|] == ps;
  }

  /** A cell under none of the tiles keeps its value; on the zeroed canvas it
      stays 0. */
  lemma {:induction false} BlendAllUncovered(canvas: Image, ps: seq<Placement>, r: int, c: int)
    requires 0 <= r < |canvas| && 0 <= c < |canvas[r]|
    requires forall k :: 0 <= k < |ps| ==> !Covers(ps[k], r, c)
    ensures BlendAll(canvas, ps)[r][c] == canvas[r][c]
  {
    if ps != [] {
      BlendAllUncovered(canvas, ps[..|ps| - 1], r, c);
    }
  }

  /** A cell under exactly one tile, blended onto an unwritten (zero) cell,
      ends at BlendCell(0, b) for that tile's pixel b: b itself when b is
      below 32768. */
  lemma {:induction false} BlendAllSingleCover(canvas: Image, ps: seq<Placement>, k: nat, r: int, c: int)
    requires 0 <= r < |canvas| && 0 <= c < |canvas[r]| && canvas[r][c] == 0
    requires k < |ps| && Covers(ps[k], r, c)
    requires forall j :: 0 <= j < |ps| && j != k ==> !Covers(ps[j], r, c)
    ensures BlendAll(canvas, ps)[r][c] == BlendCell(0, PixelAt(ps[k], r, c))
    ensures PixelAt(ps[k], r, c) < 0x8000 ==> BlendAll(canvas, ps)[r][c] == PixelAt(ps[k], r, c)
  {
    if k == |ps| - 1 {
      var front := ps[..|ps| - 1];
      BlendAllUncovered(canvas, front, r, c);
    } else {
      var front := ps[..|ps| - 1];
      BlendAllSingleCover(canvas, front, k, r, c);
    }
  }

  /** Two tiles overlapping in one column, the first all 4s and the second
      all 6s: the overlap is their average 5, the rest keep 4 and 6. */
  lemma BlendTwoTilesExample()
    ensures BlendAll(Zero(1, 3), [Placement(0, 0, [[4, 4]]), Placement(0, 1, [[6, 6]])]) == [[4, 5, 6]]
  {
    var first := ApplyTile(Zero(1, 3), Placement(0, 0, [[4, 4]]));
    assert first[0] == [4, 4, 0];
    var ps := [Placement(0, 0, [[4, 4]]), Placement(0, 1, [[6, 6]])];
    assert ps[..1] == [Placement(0, 0, [[4, 4]])];
    assert [Placement(0, 0, [[4, 4]])][..0] == [];
    var second := BlendAll(Zero(1, 3), ps);
    assert second[0] == [4, 5, 6];
  }

  /** One tile over a one-cell canvas. */
  lemma ApplyOneCell(a: u16, b: u16)
    ensures ApplyTile([[a]], Placement(0, 0, [[b]])) == [[BlendCell(a, b)]]
  {
    var out := ApplyTile([[a]], Placement(0, 0, [[b]]));
    assert out[0] == [BlendCell(a, b)];
  }

  /** The tiles of `ps`, each one cell at (0, 0), blended onto one zero cell. */
  lemma {:induction false} BlendOneCell(ps: seq<Placement>, last: u16, prev: u16)
    requires |ps| >= 1 && ps[|ps| - 1].top == 0 && ps[|ps| - 1].left == 0
    requires BlendAll(Zero(1, 1), ps[..|ps| - 1]) == [[prev]]
    requires ps[|ps| - 1].pixels == [[last]]
    ensures BlendAll(Zero(1, 1), ps) == [[BlendCell(prev, last)]]
  {
    ApplyOneCell(prev, last);
  }

  /** Three tiles over one cell: the running pairwise average weighs the
      last tile most, 2 then 4 then 8 gives 5 ... */
  lemma BlendRisingExample()
    ensures BlendAll(Zero(1, 1), [Placement(0, 0, [[2]]), Placement(0, 0, [[4]]), Placement(0, 0, [[8]])]) == [[5]]
  {
    var a, b, c := Placement(0, 0, [[2]]), Placement(0, 0, [[4]]), Placement(0, 0, [[8]]);
    assert Zero(1, 1) == [[0]] by { assert Zero(1, 1)[0] == [0]; }
    assert [a, b, c][..2] == [a, b] && [a, b][..1] == [a] && [a][..0] == [];
    BlendOneCell([a], 2, 0);
    BlendOneCell([a, b], 4, 2);
    BlendOneCell([a, b, c], 8, 3);
  }

  /** ... but the same tiles in the opposite order, 8 then 4 then 2, give
      4: the composite depends on the tile order. */
  lemma BlendFallingExample()
    ensures BlendAll(Zero(1, 1), [Placement(0, 0, [[8]]), Placement(0, 0, [[4]]), Placement(0, 0, [[2]])]) == [[4]]
  {
    var a, b, c := Placement(0, 0, [[2]]), Placement(0, 0, [[4]]), Placement(0, 0, [[8]]);
    assert Zero(1, 1) == [[0]] by { assert Zero(1, 1)[0] == [0]; }
    assert [c, b, a][..2] == [c, b] && [c, b][..1] == [c] && [c][..0] == [];
    BlendOneCell([c], 8, 0);
    BlendOneCell([c, b], 4, 8);
    BlendOneCell([c, b, a], 2, 6);
  }

  /** A genuinely dark (0) pixel written first is later overwritten, not
      averaged: 0 then 6 gives 6, while 2 then 6 gives 4. */
  lemma BlendZeroIsUnwrittenExample()
    ensures BlendAll(Zero(1, 1), [Placement(0, 0, [[0]]), Placement(0, 0, [[6]])]) == [[6]]
    ensures BlendAll(Zero(1, 1), [Placement(0, 0, [[2]]), Placement(0, 0, [[6]])]) == [[4]]
  {
    var z, two, six := Placement(0, 0, [[0]]), Placement(0, 0, [[2]]), Placement(0, 0, [[6]]);
    assert Zero(1, 1) == [[0]] by { assert Zero(1, 1)[0] == [0]; }
    assert [z, six][..1] == [z] && [z][..0] == [];
    assert [two, six][..1] == [two] && [two][..0] == [];
    BlendOneCell([z], 0, 0);
    BlendOneCell([z, six], 6, 0);
    BlendOneCell([two], 2, 0);
    BlendOneCell([two, six], 6, 2);
  }

  /** Why `blend` failed: the attribute `full_size` is missing (no stitch
      yet), a tile number or a channel or a corner is missing (`KeyError`),
      the image file cannot be read (`imread` gives `None`), or the image's
      shape differs from the section it is blended into (`IndexError`). */
  datatype BlendError =
    | NotStitched
    | MissingTile(number: int)
    | MissingChannel(number: int, channel: string)
    | MissingCorner(number: int)
    | TileReadError(path: string)
    | ShapeMismatch(number: int)

  /** `section[section == 0] = im[section == 0]` on the section with its
      top-left cell at (top, left). */
  method FillUnwritten(output: array2<u16>, top: nat, left: nat, im: Image, width: nat)
    requires IsShape(im, |im|, width)
    requires top + |im| <= output.Length0 && left + width <= output.Length1
    modifies output
    ensures forall r, c :: 0 <= r < output.Length0 && 0 <= c < output.Length1 ==>
              output[r, c] == if top <= r < top + |im| && left <= c < left + width && old(output[r, c]) == 0
                              then im[r - top][c - left] else old(output[r, c])
  {
    var i := 0;
    while i < |im|
      invariant 0 <= i <= |im|
      invariant forall r, c :: 0 <= r < output.Length0 && 0 <= c < output.Length1 ==>
                  output[r, c] == if top <= r < top + i && left <= c < left + width && old(output[r, c]) == 0
                                  then im[r - top][c - left] else old(output[r, c])
    {
      var j := 0;
      while j < width
        invariant 0 <= j <= width
        invariant forall r, c :: 0 <= r < output.Length0 && 0 <= c < output.Length1 ==>
                    output[r, c] == if ((top <= r < top + i && left <= c < left + width)
                                        || (r == top + i && left <= c < left + j)) && old(output[r, c]) == 0
                                    then im[r - top][c - left] else old(output[r, c])
      {
        if output[top + i, left + j] == 0 {
          output[top + i, left + j] := im[i][j];
        }
        j := j + 1;
      }
      i := i + 1;
    }
  }

  /** `section[section != 0] = (section[section != 0] + im[section != 0]) / 2`
      with the uint16 sum wrapping at 65536 and the quotient truncated back
      into the uint16 canvas. */
  method AverageWritten(output: array2<u16>, top: nat, left: nat, im: Image, width: nat)
    requires IsShape(im, |im|, width)
    requires top + |im| <= output.Length0 && left + width <= output.Length1
    modifies output
    ensures forall r, c :: 0 <= r < output.Length0 && 0 <= c < output.Length1 ==>
              output[r, c] == if top <= r < top + |im| && left <= c < left + width && old(output[r, c]) != 0
                              then (old(output[r, c]) + im[r - top][c - left]) % 0x1_0000 / 2 else old(output[r, c])
  {
    var i := 0;
    while i < |im|
      invariant 0 <= i <= |im|
      invariant forall r, c :: 0 <= r < output.Length0 && 0 <= c < output.Length1 ==>
                  output[r, c] == if top <= r < top + i && left <= c < left + width && old(output[r, c]) != 0
                                  then (old(output[r, c]) + im[r - top][c - left]) % 0x1_0000 / 2 else old(output[r, c])
    {
      var j := 0;
      while j < width
        invariant 0 <= j <= width
        invariant forall r, c :: 0 <= r < output.Length0 && 0 <= c < output.Length1 ==>
                    output[r, c] == if ((top <= r < top + i && left <= c < left + width)
                                        || (r == top + i && left <= c < left + j)) && old(output[r, c]) != 0
                                    then (old(output[r, c]) + im[r - top][c - left]) % 0x1_0000 / 2 else old(output[r, c])
      {
        if output[top + i, left + j] != 0 {
          output[top + i, left + j] := (output[top + i, left + j] + im[i][j]) % 0x1_0000 / 2;
        }
        j := j + 1;
      }
      i := i + 1;
    }
  }

  /** Both masked assignments on one section: the canvas becomes ApplyTile
      of the old canvas and the tile placed at (top, left). */
  method BlendSection(output: array2<u16>, top: nat, left: nat, im: Image, width: nat)
    requires IsShape(im, |im|, width)
    requires top + |im| <= output.Length0 && left + width <= output.Length1
    modifies output
    ensures Grid(output) == ApplyTile(old(Grid(output)), Placement(top, left, im))
  {
    ghost var before := Grid(output);
    ghost var p := Placement(top, left, im);
    FillUnwritten(output, top, left, im, width);
    AverageWritten(output, top, left, im, width);
    ghost var want := ApplyTile(before, p);
    forall r, c | 0 <= r < output.Length0 && 0 <= c < output.Length1
      ensures output[r, c] == want[r][c]
    {
      if Covers(p, r, c) {
        assert PixelAt(p, r, c) == im[r - top][c - left];
      }
    }
    GridEq(output, want);
  }

  // ---------------------------------------------------------------------------
  // The tile sequence
  // ---------------------------------------------------------------------------

  /** A fresh Tile holding `path/channel/name` for every channel. */
  method NewTileNamed(path: string, channels: seq<string>, name: string) returns (tile: Tile)
    ensures fresh(tile)
    ensures tile.channels == ChannelPaths(path, channels, name)
  {
    tile := new Tile();
    var k := 0;
    while k < |channels|
      invariant 0 <= k <= |channels|
      invariant tile.channels == ChannelPaths(path, channels[..k], name)
    {
      assert channels[..k + 1][..k] == channels[..k];
      tile.AddChannel(channels[k], JoinPath(JoinPath(path, channels[k]), name));
      k := k + 1;
    }
    assert channels[..|channels|] == channels;
  }

  /** The body of the loop in `assemble_tiles` for tile number `i`: a fresh
      Tile holding `path/channel/tile_fname(i)` for every channel. */
  method NewTile(path: string, channels: seq<string>, i: int) returns (tile: Tile)
    ensures fresh(tile)
    ensures tile.channels == TilePaths(path, channels, i)
  {
    var name := TileFname(i);
    tile := NewTileNamed(path, channels, name);
    TilePathsByName(path, channels, i, name);
  }

  /** `TileSequence`: a rows x cols grid of tiles under one folder, the
      channels they carry, the corners MIST reported and the canvas size. */
  class TileSequence {
    var path: string
    var rows: nat
    var cols: nat
    var channels: seq<string>
    var corners: Dict<int, (int, int)>
    /** (width, height) of every tile */
    var tileSize: (nat, nat)
    var tiles: map<int, Tile>
    /** (height, width) of the composite; absent until `stitch` ran */
    var fullSize: Option<(nat, nat)>

    constructor (path: string, tileSize: (nat, nat), rows: nat, cols: nat, channels: seq<string>)
      ensures this.path == path && this.tileSize == tileSize
      ensures this.rows == rows && this.cols == cols && this.channels == channels
      ensures corners == Empty() && fullSize == None
      ensures forall i :: i in tiles <==> 1 <= i <= rows * cols
      ensures forall i :: i in tiles ==> fresh(tiles[i]) && tiles[i].channels == TilePaths(path, channels, i)
    {
      this.path := path;
      this.rows := rows;
      this.cols := cols;
      this.channels := channels;
      this.corners := Empty();
      this.tileSize := tileSize;
      this.tiles := map[];
      this.fullSize := None;
      new;
      AssembleTiles();
    }

    /** `assemble_tiles`: a fresh Tile for each number 1..rows*cols, holding
        `path/channel/tile_fname(i)` for every channel, stored under i; other
        entries are left alone. */
    method AssembleTiles()
      modifies this`tiles
      ensures forall i :: i in tiles <==> i in old(tiles) || 1 <= i <= rows * cols
      ensures forall i :: i in old(tiles) && !(1 <= i <= rows * cols) ==> tiles[i] == old(tiles)[i]
      ensures forall i :: 1 <= i <= rows * cols ==>
                fresh(tiles[i]) && tiles[i].channels == TilePaths(path, channels, i)
    {
      var count, p, chs := rows * cols, path, channels;
      var i := 1;
      while i <= count
        invariant 1 <= i <= count + 1
        invariant forall j :: j in tiles <==> j in old(tiles) || 1 <= j < i
        invariant forall j :: j in old(tiles) && !(1 <= j < i) ==> tiles[j] == old(tiles)[j]
        invariant forall j :: 1 <= j < i ==> fresh(tiles[j])
        invariant forall j :: 1 <= j < i ==> tiles[j].channels == TilePaths(p, chs, j)
      {
        ghost var before := tiles;
        var tile := NewTile(p, chs, i);
        tiles := tiles[i := tile];
        forall j | 1 <= j <= i
          ensures fresh(tiles[j]) && tiles[j].channels == TilePaths(p, chs, j)
        {
          if j < i {
            assert tiles[j] == before[j];
          }
        }
        forall j | j in old(tiles) && !(1 <= j <= i)
          ensures tiles[j] == old(tiles)[j]
        {
          assert tiles[j] == before[j];
        }
        i := i + 1;
      }
    }

    /** `stitch(channel)` once MIST has reported `found`: the corners are
        stored and the canvas sized to them. */
    method Stitch(found: Dict<int, (int, int)>)
      requires Valid(found)
      modifies this`corners, this`fullSize
      ensures corners == found
      ensures fullSize == Some(FullSize(found, tileSize))
    {
      corners := found;
      SetFullImageSize();
    }

    /** `__set_full_image_size`: the running maxima of corner + tile size
        over the corners in dict order, starting from 0, stored as
        (height, width). */
    method SetFullImageSize()
      requires Valid(corners)
      modifies this`fullSize
      ensures fullSize == Some(FullSize(corners, tileSize))
    {
      var cs := Values(corners);
      var (width, height) := tileSize;
      var x: nat, y: nat := 0, 0;
      var i := 0;
      assert cs[..0] == [] && RightEdges([], width) == [] && BottomEdges([], height) == [];
      while i < |cs|
        invariant 0 <= i <= |cs|
        invariant x == Extent(RightEdges(cs[..i], width))
        invariant y == Extent(BottomEdges(cs[..i], height))
      {
        var corner := cs[i];
        EdgesStep(cs, i, width, height);
        x := if corner.0 + width > x then corner.0 + width else x;
        y := if corner.1 + height > y then corner.1 + height else y;
        i := i + 1;
      }
      assert cs[..i] == cs;
      fullSize := Some((y, x));
    }

    /** Where tile i of `channel` goes and what it holds, or why `blend`
        fails at it, in the order `blend` looks things up. */
    ghost function TilePlacement(i: int, channel: string, images: map<string, Image>): Result<Placement, BlendError>
      reads this, tiles.Values
      requires Valid(corners)
    {
      if i !in tiles then Err(MissingTile(i))
      else if channel !in tiles[i].channels then Err(MissingChannel(i, channel))
      else if i !in corners.entries then Err(MissingCorner(i))
      else
        var file := tiles[i].channels[channel];
        if file !in images then Err(TileReadError(file))
        else
          var im := images[file];
          if !IsShape(im, tileSize.1, tileSize.0) then Err(ShapeMismatch(i))
          else Ok(Placement(corners.entries[i].1, corners.entries[i].0, im))
    }

    /** The placements of tiles 1..n in order, or the first failure. */
    ghost function Plan(n: nat, channel: string, images: map<string, Image>): Result<seq<Placement>, BlendError>
      reads this, tiles.Values
      requires Valid(corners)
    {
      if n == 0 then Ok([])
      else
        match Plan(n - 1, channel, images)
        case Err(e) => Err(e)
        case Ok(ps) =>
          match TilePlacement(n, channel, images)
          case Err(e) => Err(e)
          case Ok(p) => Ok(ps + [p])
    }

    /** One more tile: the plan so far extended by its placement, or its
        failure. */
    lemma PlanStep(n: nat, channel: string, images: map<string, Image>)
      requires Valid(corners)
      requires n >= 1 && Plan(n - 1, channel, images).Ok?
      ensures TilePlacement(n, channel, images).Err? ==>
                Plan(n, channel, images) == Err(TilePlacement(n, channel, images).error)
      ensures TilePlacement(n, channel, images).Ok? ==>
                Plan(n, channel, images) == Ok(Plan(n - 1, channel, images).value + [TilePlacement(n, channel, images).value])
    {
    }

    /** The plan lists tile 1, tile 2, ... tile n, in that order. */
    lemma {:induction false} PlanOrder(n: nat, channel: string, images: map<string, Image>)
      requires Valid(corners)
      requires Plan(n, channel, images).Ok?
      ensures |Plan(n, channel, images).value| == n
      ensures forall k :: 0 <= k < n ==> TilePlacement(k + 1, channel, images) == Ok(Plan(n, channel, images).value[k])
    {
      if n > 0 {
        PlanOrder(n - 1, channel, images);
      }
    }

    /** Once a tile fails, every longer plan fails with the same error. */
    lemma {:induction false} PlanKeepsFirstError(i: nat, n: nat, channel: string, images: map<string, Image>)
      requires Valid(corners)
      requires i <= n && Plan(i, channel, images).Err?
      ensures Plan(n, channel, images) == Plan(i, channel, images)
      decreases n
    {
      if i < n {
        PlanKeepsFirstError(i, n - 1, channel, images);
      }
    }

    /** The lookups `blend` does for tile i: its channel path, its corner
        and its image, each failure reported as TilePlacement reports it. */
    method Locate(i: int, channel: string, images: map<string, Image>)
      returns (r: Result<(nat, nat, Image), BlendError>)
      requires Valid(corners)
      requires forall k :: k in corners.entries ==> corners.entries[k].0 >= 0 && corners.entries[k].1 >= 0
      ensures r.Err? ==> TilePlacement(i, channel, images) == Err(r.error)
      ensures r.Ok? ==> i in corners.entries
                        && r.value.0 == corners.entries[i].1 && r.value.1 == corners.entries[i].0
                        && IsShape(r.value.2, tileSize.1, tileSize.0)
                        && TilePlacement(i, channel, images) == Ok(Placement(r.value.0, r.value.1, r.value.2))
    {
      if i !in tiles {
        return Err(MissingTile(i));
      }
      var file := tiles[i].GetChannel(channel);
      if file.None? {
        return Err(MissingChannel(i, channel));
      }
      if i !in corners.entries {
        return Err(MissingCorner(i));
      }
      var corner := corners.entries[i];
      if file.value !in images {
        return Err(TileReadError(file.value));
      }
      var im := images[file.value];
      if !IsShape(im, tileSize.1, tileSize.0) {
        return Err(ShapeMismatch(i));
      }
      return Ok((corner.1, corner.0, im));
    }

    /** One pass of the loop in `blend`: tile i is looked up and blended
        into its section of `output`, or the lookup fails and `output` is
        left as it was. */
    method BlendTile(output: array2<u16>, i: nat, channel: string, images: map<string, Image>, ghost done: seq<Placement>)
      returns (failure: Option<BlendError>)
      requires Valid(corners)
      requires forall k :: k in corners.entries ==> corners.entries[k].0 >= 0 && corners.entries[k].1 >= 0
      requires (output.Length0, output.Length1) == FullSize(corners, tileSize)
      requires i >= 1 && Plan(i - 1, channel, images) == Ok(done)
      modifies output
      ensures Plan(i, channel, images).Err? ==> failure == Some(Plan(i, channel, images).error)
      ensures Plan(i, channel, images).Ok? ==> failure.None? && Plan(i, channel, images).value == done + [Plan(i, channel, images).value[|done|]]
      ensures Plan(i, channel, images).Ok? ==>
                Grid(output) == ApplyTile(old(Grid(output)), Plan(i, channel, images).value[|done|])
    {
      var located := Locate(i, channel, images);
      PlanStep(i, channel, images);
      if located.Err? {
        return Some(located.error);
      }
      var (top, left, im) := located.value;
      TileInsideCanvas(corners, tileSize, i);
      ghost var planned := Plan(i, channel, images);
      BlendSection(output, top, left, im, tileSize.0);
      assert Plan(i, channel, images) == planned;
      return None;
    }

    /** The number of tiles, rows * cols. */
    function TileCount(): nat
      reads this
    {
      rows * cols
    }

    /** `blend(channel)`: a zeroed canvas of shape `full_size`, then tiles
        1..rows*cols blended in number order, each over its section; any
        failure discards the canvas. */
    method Blend(channel: string, images: map<string, Image>) returns (result: Result<array2<u16>, BlendError>)
      requires Valid(corners)
      requires forall k :: k in corners.entries ==> corners.entries[k].0 >= 0 && corners.entries[k].1 >= 0
      requires fullSize.Some? ==> fullSize.value == FullSize(corners, tileSize)
      ensures fullSize.None? ==> result == Err(NotStitched)
      ensures fullSize.Some? && Plan(TileCount(), channel, images).Err? ==>
                result == Err(Plan(TileCount(), channel, images).error)
      ensures fullSize.Some? && Plan(TileCount(), channel, images).Ok? ==>
                result.Ok? && fresh(result.value)
                && Grid(result.value) == BlendAll(Zero(fullSize.value.0, fullSize.value.1), Plan(TileCount(), channel, images).value)
    {
      if fullSize.None? {
        return Err(NotStitched);
      }
      var (height, width) := fullSize.value;
      var output := NewZero(height, width);
      ghost var done: seq<Placement> := [];
      var count := TileCount();
      var i := 1;
      while i <= count
        invariant 1 <= i <= count + 1
        invariant fresh(output) && output.Length0 == height && output.Length1 == width
        invariant Plan(i - 1, channel, images) == Ok(done)
        invariant Grid(output) == BlendAll(Zero(height, width), done)
      {
        var failure := BlendTile(output, i, channel, images, done);
        if failure.Some? {
          PlanKeepsFirstError(i, count, channel, images);
          return Err(failure.value);
        }
        ghost var p := Plan(i, channel, images).value[|done|];
        BlendAllSnoc(Zero(height, width), done, p);
        done := done + [p];
        i := i + 1;
      }
      return Ok(output);
    }
  }
}
