/** `keyence_extractor.py`: the stand-alone pipeline for Keyence BZ-X tiles.
    Tile corners come from each file's embedded metadata and are moved to a
    top-left origin, the canvas is sized from the tile furthest right and
    furthest down, every tile's channel sum is averaged into a zeroed 16-bit
    canvas, and files are grouped by the channel their name ends in. */
module KeyenceExtractor {
  import opened Text
  import opened Dicts
  import opened Canvas

  const ALLOWABLE_CHANNELS: seq<string> := ["CH1", "CH2", "CH3", "CH4", "CH5"]

  /** A tile's top-left corner, (x, y). */
  type Corner = (int, int)

  // ---------------------------------------------------------------------------
  // fix_origin
  // ---------------------------------------------------------------------------

  /** The x coordinates of the corners, in key order. */
  function Xs<K(!new)>(d: Dict<K, Corner>): seq<int>
    requires Valid(d)
  {
    seq(|d.keys|, i requires 0 <= i < |d.keys| => d.entries[d.keys[i]].0)
  }

  /** The y coordinates of the corners, in key order. */
  function Ys<K(!new)>(d: Dict<K, Corner>): seq<int>
    requires Valid(d)
  {
    seq(|d.keys|, i requires 0 <= i < |d.keys| => d.entries[d.keys[i]].1)
  }

  /** `fix_origin(corner_dict)`: every corner reflected about the largest x
      and the largest y, `(x_origin - x, y_origin - y)`, under the same keys
      in the same order; `None` for an empty dict, where `max` of an empty
      list raises `ValueError`. */
  function FixOrigin<K(!new)>(d: Dict<K, Corner>): Option<Dict<K, Corner>>
    requires Valid(d)
  {
    if d.keys == [] then None
    else
      var xo, yo := SeqMax(Xs(d)), SeqMax(Ys(d));
      Some(Dict(d.keys, map k | k in d.entries :: (xo - d.entries[k].0, yo - d.entries[k].1)))
  }

  /** The largest x of the corners bounds every x and is one of them. */
  lemma MaxXSpec<K(!new)>(d: Dict<K, Corner>)
    requires Valid(d) && d.keys != []
    ensures forall k :: k in d.entries ==> d.entries[k].0 <= SeqMax(Xs(d))
    ensures exists k :: k in d.entries && d.entries[k].0 == SeqMax(Xs(d))
  {
    var xs := Xs(d);
    forall k | k in d.entries
      ensures d.entries[k].0 <= SeqMax(xs)
    {
      var i :| 0 <= i < |d.keys| && d.keys[i] == k;
      assert xs[i] == d.entries[k].0;
    }
    var i :| 0 <= i < |xs| && xs[i] == SeqMax(xs);
    assert d.keys[i] in d.entries;
  }

  /** The largest y of the corners bounds every y and is one of them. */
  lemma MaxYSpec<K(!new)>(d: Dict<K, Corner>)
    requires Valid(d) && d.keys != []
    ensures forall k :: k in d.entries ==> d.entries[k].1 <= SeqMax(Ys(d))
    ensures exists k :: k in d.entries && d.entries[k].1 == SeqMax(Ys(d))
  {
    var ys := Ys(d);
    forall k | k in d.entries
      ensures d.entries[k].1 <= SeqMax(ys)
    {
      var i :| 0 <= i < |d.keys| && d.keys[i] == k;
      assert ys[i] == d.entries[k].1;
    }
    var i :| 0 <= i < |ys| && ys[i] == SeqMax(ys);
    assert d.keys[i] in d.entries;
  }

  /** The corrected dict has exactly the input's keys, in the input's order
      (so it is well formed too), and fails only on an empty input. */
  lemma FixOriginKeys<K(!new)>(d: Dict<K, Corner>)
    requires Valid(d)
    ensures FixOrigin(d).None? <==> d.keys == []
    ensures FixOrigin(d).Some? ==> FixOrigin(d).value.keys == d.keys
    ensures FixOrigin(d).Some? ==> FixOrigin(d).value.entries.Keys == d.entries.Keys
  {
  }

  /** Every corrected coordinate is non-negative, and a corrected x (y) is 0
      exactly for a tile whose raw x (y) is the largest. */
  lemma FixOriginNonNegative<K(!new)>(d: Dict<K, Corner>, k: K)
    requires Valid(d) && FixOrigin(d).Some? && k in d.entries
    ensures var c := FixOrigin(d).value.entries[k];
            && c.0 >= 0 && c.1 >= 0
            && (c.0 == 0 <==> forall j :: j in d.entries ==> d.entries[j].0 <= d.entries[k].0)
            && (c.1 == 0 <==> forall j :: j in d.entries ==> d.entries[j].1 <= d.entries[k].1)
  {
    MaxXSpec(d);
    MaxYSpec(d);
  }

  /** The correction reverses the order of coordinates and keeps their
      distances: a tile further right ends up further left by as much. */
  lemma FixOriginReverses<K(!new)>(d: Dict<K, Corner>, a: K, b: K)
    requires Valid(d) && FixOrigin(d).Some? && a in d.entries && b in d.entries
    ensures var r := FixOrigin(d).value.entries;
            && r[a].0 - r[b].0 == d.entries[b].0 - d.entries[a].0
            && r[a].1 - r[b].1 == d.entries[b].1 - d.entries[a].1
            && (d.entries[a].0 <= d.entries[b].0 <==> r[a].0 >= r[b].0)
            && (d.entries[a].1 <= d.entries[b].1 <==> r[a].1 >= r[b].1)
  {
  }

  /** Four tiles on a 2 x 2 grid, `w` apart across and `h` apart down: the
      bottom-right tile becomes the origin and the top-left one lands at
      (w, h). */
  lemma FixOriginGrid<K(!new)>(a: K, b: K, c: K, e: K, w: nat, h: nat)
    requires a != b && a != c && a != e && b != c && b != e && c != e
    ensures var d := Dict([a, b, c, e], map[a := (0, 0), b := (w, 0), c := (0, h), e := (w, h)]);
            Valid(d) && FixOrigin(d) == Some(Dict([a, b, c, e], map[a := (w, h), b := (0, h), c := (w, 0), e := (0, 0)]))
  {
    var d := Dict([a, b, c, e], map[a := (0, 0), b := (w, 0), c := (0, h), e := (w, h)]);
    var want := map[a := (w, h), b := (0, h), c := (w, 0), e := (0, 0)];
    GridKeys(a, b, c, e, w, h);
    GridCorners(d, a, b, c, e, w, h);
    var r := FixOrigin(d).value;
    assert r.entries[a] == want[a] && r.entries[b] == want[b];
    assert r.entries[c] == want[c] && r.entries[e] == want[e];
    assert r.entries == want;
  }

  /** The corrected 2 x 2 grid keeps its keys in their order. */
  lemma GridKeys<K(!new)>(a: K, b: K, c: K, e: K, w: nat, h: nat)
    requires a != b && a != c && a != e && b != c && b != e && c != e
    ensures var d := Dict([a, b, c, e], map[a := (0, 0), b := (w, 0), c := (0, h), e := (w, h)]);
            && Valid(d) && FixOrigin(d).Some?
            && FixOrigin(d).value.keys == [a, b, c, e] && FixOrigin(d).value.entries.Keys == {a, b, c, e}
  {
    var d := Dict([a, b, c, e], map[a := (0, 0), b := (w, 0), c := (0, h), e := (w, h)]);
    assert Valid(d);
    FixOriginKeys(d);
  }

  /** The corrected corners of the 2 x 2 grid, one coordinate at a time. */
  lemma GridCorners<K(!new)>(d: Dict<K, Corner>, a: K, b: K, c: K, e: K, w: nat, h: nat)
    requires a != b && a != c && a != e && b != c && b != e && c != e
    requires d == Dict([a, b, c, e], map[a := (0, 0), b := (w, 0), c := (0, h), e := (w, h)]) && Valid(d)
    ensures FixOrigin(d).Some?
    ensures var r := FixOrigin(d).value.entries;
            && a in r && b in r && c in r && e in r
            && r[a].0 == w && r[a].1 == h && r[b].0 == 0 && r[b].1 == h
            && r[c].0 == w && r[c].1 == 0 && r[e].0 == 0 && r[e].1 == 0
  {
    GridMax(d, e, w, h);
    FixOriginEntries(d);
  }

  /** A corner that bounds every other corner gives the largest x and y. */
  lemma GridMax<K(!new)>(d: Dict<K, Corner>, e: K, w: int, h: int)
    requires Valid(d) && e in d.entries && d.entries[e].0 == w && d.entries[e].1 == h
    requires forall k :: k in d.entries ==> d.entries[k].0 <= w && d.entries[k].1 <= h
    ensures d.keys != [] && SeqMax(Xs(d)) == w && SeqMax(Ys(d)) == h
  {
    MaxXSpec(d);
    MaxYSpec(d);
  }

  /** The corrected corners in terms of the largest x and y. */
  lemma FixOriginEntries<K(!new)>(d: Dict<K, Corner>)
    requires Valid(d) && d.keys != []
    ensures FixOrigin(d).Some?
    ensures forall k :: k in d.entries ==>
              && k in FixOrigin(d).value.entries
              && FixOrigin(d).value.entries[k].0 == SeqMax(Xs(d)) - d.entries[k].0
              && FixOrigin(d).value.entries[k].1 == SeqMax(Ys(d)) - d.entries[k].1
  {
  }

  // ---------------------------------------------------------------------------
  // get_stitching
  // ---------------------------------------------------------------------------

  /** What `position_info` reads from a tile file's metadata: its top-left
      corner in pixels and its (width, height). */
  datatype TileInfo = TileInfo(corner: Corner, size: (nat, nat))

  /** What `get_stitching` returns: the corner of each file and its
      (width, height), both keyed by file in list order. */
  datatype TileMaps = TileMaps(corners: Dict<string, Corner>, sizes: Dict<string, (nat, nat)>)

  /** Why `get_stitching` fails: a file's metadata cannot be read, or there
      are no files (`max` of an empty list). */
  datatype StitchError = PositionUnreadable(path: string) | NoTiles

  /** The two dicts the loop of `get_stitching` fills, file by file; `info`
      holds `position_info` of every readable file. */
  function Gathered(files: seq<string>, info: map<string, TileInfo>)
    : Result<TileMaps, StitchError>
  {
    if files == [] then Ok(TileMaps(Empty(), Empty()))
    else
      match Gathered(files[..|files| - 1], info)
      case Err(e) => Err(e)
      case Ok(TileMaps(corners, sizes)) =>
        var f := files[|files| - 1];
        if f !in info then Err(PositionUnreadable(f))
        else Ok(TileMaps(Store(corners, f, info[f].corner), Store(sizes, f, info[f].size)))
  }

  /** Gathering succeeds exactly when every file is readable. */
  lemma {:induction false} GatheredOk(files: seq<string>, info: map<string, TileInfo>)
    ensures Gathered(files, info).Ok? <==> forall i :: 0 <= i < |files| ==> files[i] in info
  {
    if files != [] {
      var front := files[..|files| - 1];
      GatheredOk(front, info);
      assert forall i :: 0 <= i < |front| ==> front[i] == files[i];
    }
  }

  /** A failure names the first unreadable file. */
  lemma {:induction false} GatheredFirstError(files: seq<string>, info: map<string, TileInfo>)
    requires Gathered(files, info).Err?
    ensures exists i :: 0 <= i < |files| && files[i] !in info
                        && Gathered(files, info).error == PositionUnreadable(files[i])
                        && forall j :: 0 <= j < i ==> files[j] in info
  {
    var front := files[..|files| - 1];
    assert forall i :: 0 <= i < |front| ==> front[i] == files[i];
    if Gathered(front, info).Err? {
      GatheredFirstError(front, info);
      var i :| 0 <= i < |front| && front[i] !in info
               && Gathered(front, info).error == PositionUnreadable(front[i])
               && forall j :: 0 <= j < i ==> front[j] in info;
      assert files[i] == front[i];
    } else {
      GatheredOk(front, info);
      assert files[|files| - 1] !in info;
    }
  }

  /** The gathered dicts are well formed and share their key order. */
  lemma {:induction false} GatheredKeys(files: seq<string>, info: map<string, TileInfo>)
    requires Gathered(files, info).Ok?
    ensures Valid(Gathered(files, info).value.corners)
    ensures Gathered(files, info).value.sizes.keys == Gathered(files, info).value.corners.keys
    ensures Gathered(files, info).value.sizes.entries.Keys == Gathered(files, info).value.corners.entries.Keys
  {
    if files != [] {
      var front := files[..|files| - 1];
      var f := files[|files| - 1];
      GatheredKeys(front, info);
      StoreValid(Gathered(front, info).value.corners, f, info[f].corner);
    }
  }

  /** The gathered dicts hold exactly the listed files. */
  lemma {:induction false} GatheredFiles(files: seq<string>, info: map<string, TileInfo>)
    requires Gathered(files, info).Ok?
    ensures forall f :: f in Gathered(files, info).value.corners.entries <==> f in files
  {
    if files != [] {
      var front := files[..|files| - 1];
      GatheredFiles(front, info);
      assert files == front + [files[|files| - 1]];
    }
  }

  /** Each gathered file maps to its metadata corner and size. */
  lemma {:induction false} GatheredValues(files: seq<string>, info: map<string, TileInfo>)
    requires Gathered(files, info).Ok?
    ensures forall f :: f in Gathered(files, info).value.corners.entries ==>
              f in info && Gathered(files, info).value.corners.entries[f] == info[f].corner
    ensures forall f :: f in Gathered(files, info).value.sizes.entries ==>
              f in info && Gathered(files, info).value.sizes.entries[f] == info[f].size
  {
    if files != [] {
      GatheredValues(files[..|files| - 1], info);
    }
  }

  /** `get_stitching(file_list)`: the corners, moved to the top-left origin,
      and the sizes of the files. */
  function Stitching(files: seq<string>, info: map<string, TileInfo>)
    : Result<TileMaps, StitchError>
  {
    match Gathered(files, info)
    case Err(e) => Err(e)
    case Ok(TileMaps(corners, sizes)) =>
      GatheredKeys(files, info);
      match FixOrigin(corners)
      case None => Err(NoTiles)
      case Some(fixed) => Ok(TileMaps(fixed, sizes))
  }

  /** `get_stitching`: the loop reads each file's metadata into the two
      dicts, then the corners are moved to the top-left origin. */
  method GetStitching(files: seq<string>, info: map<string, TileInfo>)
    returns (r: Result<TileMaps, StitchError>)
    ensures r == Stitching(files, info)
  {
    var corners: Dict<string, Corner> := Empty();
    var sizes: Dict<string, (nat, nat)> := Empty();
    var k := 0;
    assert files[..0] == [];
    while k < |files|
      invariant 0 <= k <= |files|
      invariant Gathered(files[..k], info) == Ok(TileMaps(corners, sizes))
    {
      assert files[..k + 1][..k] == files[..k];
      var f := files[k];
      if f !in info {
        GatheredKeepsFirstError(files, info, k + 1);
        return Err(PositionUnreadable(f));
      }
      corners := Store(corners, f, info[f].corner);
      sizes := Store(sizes, f, info[f].size);
      k := k + 1;
    }
    assert files[..k] == files;
    GatheredKeys(files, info);
    var fixed := FixOrigin(corners);
    if fixed.None? {
      return Err(NoTiles);
    }
    return Ok(TileMaps(fixed.value, sizes));
  }

  /** Once a prefix of the files fails, all of them fail the same way. */
  lemma {:induction false} GatheredKeepsFirstError(files: seq<string>, info: map<string, TileInfo>, k: nat)
    requires k <= |files| && Gathered(files[..k], info).Err?
    ensures Gathered(files, info) == Gathered(files[..k], info)
    decreases |files| - k
  {
    if k < |files| {
      assert files[..k + 1][..k] == files[..k];
      GatheredKeepsFirstError(files, info, k + 1);
    } else {
      assert files[..k] == files;
    }
  }

  /** With every file readable, each file's corner is its metadata corner
      reflected about the largest x and y among the files. */
  lemma StitchingCorners(files: seq<string>, info: map<string, TileInfo>, f: string)
    requires forall g :: g in files ==> g in info
    requires f in files
    ensures Stitching(files, info).Ok?
    ensures var TileMaps(corners, sizes) := Stitching(files, info).value;
            && f in corners.entries && f in sizes.entries && sizes.entries[f] == info[f].size
            && 0 <= corners.entries[f].0 && 0 <= corners.entries[f].1
            && (forall g :: g in files ==>
                  && g in corners.entries
                  && info[g].corner.0 - info[f].corner.0 == corners.entries[f].0 - corners.entries[g].0
                  && info[g].corner.1 - info[f].corner.1 == corners.entries[f].1 - corners.entries[g].1)
  {
    GatheredOk(files, info);
    GatheredKeys(files, info);
    GatheredFiles(files, info);
    GatheredValues(files, info);
    var TileMaps(raw, sizes) := Gathered(files, info).value;
    assert f in raw.entries;
    FixOriginKeys(raw);
    FixOriginNonNegative(raw, f);
    forall g | g in files
      ensures info[g].corner.0 - info[f].corner.0 == FixOrigin(raw).value.entries[f].0 - FixOrigin(raw).value.entries[g].0
      ensures info[g].corner.1 - info[f].corner.1 == FixOrigin(raw).value.entries[f].1 - FixOrigin(raw).value.entries[g].1
    {
      FixOriginReverses(raw, f, g);
    }
  }

  // ---------------------------------------------------------------------------
  // get_blended_size
  // ---------------------------------------------------------------------------

  /** The index of the first largest element: the one a scan that replaces
      its candidate only on a strictly larger element ends with. */
  function FirstMax(xs: seq<int>): (i: nat)
    requires |xs| > 0
    ensures i < |xs|
  {
    if |xs| == 1 then 0
    else
      var m := FirstMax(xs[..|xs| - 1]);
      if xs[|xs| - 1] > xs[m] then |xs| - 1 else m
  }

  /** FirstMax is a largest element, and every element before it is
      strictly smaller. */
  lemma {:induction false} FirstMaxSpec(xs: seq<int>)
    requires |xs| > 0
    ensures forall j :: 0 <= j < |xs| ==> xs[j] <= xs[FirstMax(xs)]
    ensures forall j :: 0 <= j < FirstMax(xs) ==> xs[j] < xs[FirstMax(xs)]
  {
    if |xs| > 1 {
      var front := xs[..|xs| - 1];
      FirstMaxSpec(front);
      assert forall j :: 0 <= j < |front| ==> front[j] == xs[j];
    }
  }

  /** One more element moves the first maximum only to a strictly larger
      element. */
  lemma FirstMaxStep(xs: seq<int>, k: nat)
    requires 0 < k < |xs|
    ensures FirstMax(xs[..k + 1]) == if xs[k] > xs[FirstMax(xs[..k])] then k else FirstMax(xs[..k])
  {
    assert xs[..k + 1][..k] == xs[..k];
  }

  /** The x of each file's corner, in list order. */
  function CornerXs(files: seq<string>, corners: map<string, Corner>): (r: seq<int>)
    requires forall i :: 0 <= i < |files| ==> files[i] in corners
    ensures |r| == |files| && forall i :: 0 <= i < |files| ==> r[i] == corners[files[i]].0
  {
    seq(|files|, i requires 0 <= i < |files| => corners[files[i]].0)
  }

  /** The y of each file's corner, in list order. */
  function CornerYs(files: seq<string>, corners: map<string, Corner>): (r: seq<int>)
    requires forall i :: 0 <= i < |files| ==> files[i] in corners
    ensures |r| == |files| && forall i :: 0 <= i < |files| ==> r[i] == corners[files[i]].1
  {
    seq(|files|, i requires 0 <= i < |files| => corners[files[i]].1)
  }

  /** The files `get_blended_size` and `blend` may be given: a non-empty
      list whose files all have a corner and a size. */
  predicate Listed(files: seq<string>, corners: map<string, Corner>, sizes: map<string, (nat, nat)>) {
    |files| > 0 && forall i :: 0 <= i < |files| ==> files[i] in corners && files[i] in sizes
  }

  /** The canvas (width, height): the first file with the largest x, its x
      plus its width; the first file with the largest y, its y plus its
      height. */
  function BlendedSize(files: seq<string>, corners: map<string, Corner>, sizes: map<string, (nat, nat)>): (int, int)
    requires Listed(files, corners, sizes)
  {
    var fx := files[FirstMax(CornerXs(files, corners))];
    var fy := files[FirstMax(CornerYs(files, corners))];
    (corners[fx].0 + sizes[fx].0, corners[fy].1 + sizes[fy].1)
  }

  /** `get_blended_size(file_lst, corner_dict, size_dict)`: the loop keeps
      the first file with the largest x and the first with the largest y. */
  method GetBlendedSize(files: seq<string>, corners: map<string, Corner>, sizes: map<string, (nat, nat)>)
    returns (size: (int, int))
    requires Listed(files, corners, sizes)
    ensures size == BlendedSize(files, corners, sizes)
  {
    ghost var xs, ys := CornerXs(files, corners), CornerYs(files, corners);
    var maxXKey, maxYKey := files[0], files[0];
    ghost var ix, iy := 0, 0;
    assert |xs[..1]| == 1 && |ys[..1]| == 1;
    // The pass over file_lst[0] compares it with itself and changes nothing.
    var k := 1;
    while k < |files|
      invariant 1 <= k <= |files|
      invariant 0 <= ix < k && ix == FirstMax(xs[..k]) && maxXKey == files[ix]
      invariant 0 <= iy < k && iy == FirstMax(ys[..k]) && maxYKey == files[iy]
    {
      var f := files[k];
      FirstMaxStep(xs, k);
      FirstMaxStep(ys, k);
      if corners[f].0 > corners[maxXKey].0 {
        maxXKey := f;
        ix := k;
      }
      if corners[f].1 > corners[maxYKey].1 {
        maxYKey := f;
        iy := k;
      }
      k := k + 1;
    }
    assert xs[..k] == xs && ys[..k] == ys;
    size := (corners[maxXKey].0 + sizes[maxXKey].0, corners[maxYKey].1 + sizes[maxYKey].1);
  }

  /** The width comes from a file with the largest x and the height from a
      file with the largest y, each the first such file in the list. */
  lemma BlendedSizeFromFirstMax(files: seq<string>, corners: map<string, Corner>, sizes: map<string, (nat, nat)>)
    requires Listed(files, corners, sizes)
    ensures exists i :: 0 <= i < |files|
              && BlendedSize(files, corners, sizes).0 == corners[files[i]].0 + sizes[files[i]].0
              && (forall j :: 0 <= j < |files| ==> corners[files[j]].0 <= corners[files[i]].0)
              && (forall j :: 0 <= j < i ==> corners[files[j]].0 < corners[files[i]].0)
    ensures exists i :: 0 <= i < |files|
              && BlendedSize(files, corners, sizes).1 == corners[files[i]].1 + sizes[files[i]].1
              && (forall j :: 0 <= j < |files| ==> corners[files[j]].1 <= corners[files[i]].1)
              && (forall j :: 0 <= j < i ==> corners[files[j]].1 < corners[files[i]].1)
  {
    var xs, ys := CornerXs(files, corners), CornerYs(files, corners);
    FirstMaxSpec(xs);
    FirstMaxSpec(ys);
    var ix, iy := FirstMax(xs), FirstMax(ys);
    assert forall j :: 0 <= j < |files| ==> xs[j] == corners[files[j]].0 && ys[j] == corners[files[j]].1;
    assert BlendedSize(files, corners, sizes).0 == corners[files[ix]].0 + sizes[files[ix]].0;
    assert BlendedSize(files, corners, sizes).1 == corners[files[iy]].1 + sizes[files[iy]].1;
  }

  /** When all tiles have the same size, every tile fits inside the canvas. */
  lemma BlendedSizeCovers(files: seq<string>, corners: map<string, Corner>, sizes: map<string, (nat, nat)>, f: string)
    requires Listed(files, corners, sizes)
    requires forall i, j :: 0 <= i < |files| && 0 <= j < |files| ==> sizes[files[i]] == sizes[files[j]]
    requires f in files
    ensures corners[f].0 + sizes[f].0 <= BlendedSize(files, corners, sizes).0
    ensures corners[f].1 + sizes[f].1 <= BlendedSize(files, corners, sizes).1
  {
    BlendedSizeFromFirstMax(files, corners, sizes);
    var k :| 0 <= k < |files| && files[k] == f;
  }

  // ---------------------------------------------------------------------------
  // blend
  // ---------------------------------------------------------------------------

  /** A tile image as `cv2.imread(f, -1)` gives it: rows of pixels, each
      pixel a list of channel samples. */
  type Pixels = seq<seq<seq<u16>>>

  /** The sum of one pixel's channel samples. */
  function SampleSum(px: seq<u16>): nat {
    if px == [] then 0 else SampleSum(px[..|px| - 1]) + px[|px| - 1]
  }

  /** Every pixel's channel sum fits in 16 bits, so that averaging it with a
      canvas cell stays in range. */
  predicate SumsFit(im: Pixels) {
    forall r, c :: 0 <= r < |im| && 0 <= c < |im[r]| ==> SampleSum(im[r][c]) < 0x1_0000
  }

  /** The tile images `blend` reads, each pixel's channel sum within 16 bits. */
  type FitImages = m: map<string, Pixels> | forall g :: g in m ==> SumsFit(m[g]) witness map[]

  /** `np.sum(im, axis=2)`: each pixel's channel samples added up. */
  function ChannelSum(im: Pixels): (s: Image)
    requires SumsFit(im)
    ensures |s| == |im|
    ensures forall r :: 0 <= r < |s| ==> |s[r]| == |im[r]|
    ensures forall r, c :: 0 <= r < |s| && 0 <= c < |s[r]| ==> s[r][c] == SampleSum(im[r][c])
  {
    seq(|im|, r requires 0 <= r < |im| =>
      seq(|im[r]|, c requires 0 <= c < |im[r]| => SampleSum(im[r][c]) as u16))
  }

  /** Why `blend` fails: `imread` gives `None` for a file, or numpy cannot
      broadcast the tile's channel sum onto its canvas section. */
  datatype BlendError = ImageUnreadable(path: string) | ShapeMismatch(path: string)

  /** How many of `len` cells from `start` a numpy slice of a dimension of
      size `dim` keeps. */
  function SliceLength(start: nat, len: nat, dim: nat): nat {
    if start >= dim then 0
    else if start + len <= dim then len
    else dim - start
  }

  /** numpy's rule for `section + im` assigned back into `section`, one
      dimension at a time: the image's extent must equal the section's or be
      1, and an extent of 1 is repeated across the section. */
  predicate Broadcasts(imageRows: nat, imageCols: nat, rows: nat, cols: nat) {
    (imageRows == rows || imageRows == 1) && (imageCols == cols || imageCols == 1)
  }

  /** The image `s` broadcast to `rows` x `cols`: a single row or a single
      column is repeated. */
  function Broadcast(s: Image, rows: nat, cols: nat): (b: Image)
    requires |s| >= 1 && IsShape(s, |s|, |s[0]|) && Broadcasts(|s|, |s[0]|, rows, cols)
    ensures IsShape(b, rows, cols)
  {
    seq(rows, r requires 0 <= r < rows =>
      seq(cols, c requires 0 <= c < cols =>
        s[if |s| == 1 then 0 else r][if |s[0]| == 1 then 0 else c]))
  }

  /** What `section + im` puts into a section of `rows` x `cols`: the image
      broadcast to the section, or nothing where numpy raises. An image
      without rows has no width to compare and fits only an empty section. */
  function SectionImage(s: Image, rows: nat, cols: nat): (r: Option<Image>)
    ensures r.Some? ==> IsShape(r.value, rows, cols) || (rows == 0 && r.value == [])
  {
    if |s| == 0 then
      if rows == 0 then Some([]) else None
    else if IsShape(s, |s|, |s[0]|) && Broadcasts(|s|, |s[0]|, rows, cols) then
      Some(Broadcast(s, rows, cols))
    else None
  }

  /** Tile `f` on a canvas of `height` x `width`: its channel sum, broadcast
      to the canvas section `[y:y+h, x:x+w]`, placed at its corner. */
  function TileLayout(f: string, corners: map<string, (nat, nat)>, sizes: map<string, (nat, nat)>,
                      images: FitImages, height: nat, width: nat): Result<Placement, BlendError>
    requires f in corners && f in sizes
  {
    if f !in images then Err(ImageUnreadable(f))
    else
      var x, y := corners[f].0, corners[f].1;
      match SectionImage(ChannelSum(images[f]), SliceLength(y, sizes[f].1, height), SliceLength(x, sizes[f].0, width))
      case None => Err(ShapeMismatch(f))
      case Some(b) => Ok(Placement(y, x, b))
  }

  /** What a placed tile holds: each cell of the section gets the pixel of
      the tile's channel sum in the same position, or in row or column 0 of
      an image of one row or one column; a ragged image or an extent other
      than the section's or 1 is refused. */
  lemma TileLayoutPixels(f: string, corners: map<string, (nat, nat)>, sizes: map<string, (nat, nat)>,
                         images: FitImages, height: nat, width: nat)
    requires f in corners && f in sizes && f in images
    ensures var s := ChannelSum(images[f]);
            var rows, cols := SliceLength(corners[f].1, sizes[f].1, height), SliceLength(corners[f].0, sizes[f].0, width);
            var t := TileLayout(f, corners, sizes, images, height, width);
            && (t.Ok? <==> (|s| == 0 && rows == 0) || (|s| >= 1 && IsShape(s, |s|, |s[0]|) && Broadcasts(|s|, |s[0]|, rows, cols)))
            && (t.Ok? ==> t.value.top == corners[f].1 && t.value.left == corners[f].0)
            && (t.Ok? && |s| >= 1 ==>
                  IsShape(t.value.pixels, rows, cols)
                  && forall r, c :: 0 <= r < rows && 0 <= c < cols ==>
                       t.value.pixels[r][c] == s[if |s| == 1 then 0 else r][if |s[0]| == 1 then 0 else c])
  {
  }

  lemma BroadcastPixelDown(v: u16)
    ensures SectionImage([[v]], 2, 1) == Some([[v], [v]])
  {
    var b := Broadcast([[v]], 2, 1);
    assert b[0] == [v] && b[1] == [v];
    assert b == [[v], [v]];
    assert IsShape([[v]], 1, 1) && Broadcasts(1, 1, 2, 1);
  }

  /** A tile of one pixel whose size names a section of two rows is
      averaged into both rows. */
  lemma BroadcastColumnExample(v: u16, images: FitImages)
    requires images == map["f" := [[[v]]]]
    ensures var t := TileLayout("f", map["f" := (0, 0)], map["f" := (1, 2)], images, 2, 1);
            t == Ok(Placement(0, 0, [[v], [v]]))
            && AverageTile(Zero(2, 1), t.value) == [[v / 2], [v / 2]]
  {
    var corners, sizes := map["f" := (0, 0)], map["f" := (1, 2)];
    assert corners["f"] == (0, 0) && sizes["f"] == (1, 2);
    OnePixelSum(v);
    assert ChannelSum(images["f"]) == [[v]];
    assert SliceLength(0, 2, 2) == 2 && SliceLength(0, 1, 1) == 1;
    BroadcastPixelDown(v);
    assert TileLayout("f", corners, sizes, images, 2, 1) == Ok(Placement(0, 0, [[v], [v]]));
    AverageColumn(v);
  }

  lemma OnePixelSum(v: u16)
    ensures ChannelSum([[[v]]]) == [[v]]
  {
    assert [v][..0] == [];
    assert SampleSum([v]) == v;
    var cs := ChannelSum([[[v]]]);
    assert cs[0] == [v];
  }

  lemma AverageColumn(v: u16)
    ensures AverageTile(Zero(2, 1), Placement(0, 0, [[v], [v]])) == [[v / 2], [v / 2]]
  {
    var out := AverageTile(Zero(2, 1), Placement(0, 0, [[v], [v]]));
    assert out[0] == [v / 2] && out[1] == [v / 2];
  }

  /** A placement with a rectangular image that, unless it is empty, lies
      inside a canvas of `height` x `width`. */
  predicate Fits(p: Placement, height: nat, width: nat) {
    && p.top >= 0 && p.left >= 0
    && (|p.pixels| > 0 ==>
          && IsShape(p.pixels, |p.pixels|, |p.pixels[0]|) && p.top + |p.pixels| <= height
          && (|p.pixels[0]| > 0 ==> p.left + |p.pixels[0]| <= width))
  }

  /** A placed tile is a rectangle that, unless it is empty, lies inside
      the canvas. */
  lemma TileLayoutFits(f: string, corners: map<string, (nat, nat)>, sizes: map<string, (nat, nat)>,
                       images: FitImages, height: nat, width: nat)
    requires f in corners && f in sizes
    requires TileLayout(f, corners, sizes, images, height, width).Ok?
    ensures Fits(TileLayout(f, corners, sizes, images, height, width).value, height, width)
  {
  }

  /** The placements of the files in list order, or the first failure. */
  function Layout(files: seq<string>, corners: map<string, (nat, nat)>, sizes: map<string, (nat, nat)>,
                  images: FitImages, height: nat, width: nat): Result<seq<Placement>, BlendError>
    requires forall i :: 0 <= i < |files| ==> files[i] in corners && files[i] in sizes
  {
    if files == [] then Ok([])
    else
      match Layout(files[..|files| - 1], corners, sizes, images, height, width)
      case Err(e) => Err(e)
      case Ok(ps) =>
        match TileLayout(files[|files| - 1], corners, sizes, images, height, width)
        case Err(e) => Err(e)
        case Ok(p) => Ok(ps + [p])
  }

  /** Once a prefix of the files fails, the whole list fails the same way. */
  lemma {:induction false} LayoutKeepsFirstError(files: seq<string>, corners: map<string, (nat, nat)>,
                                                 sizes: map<string, (nat, nat)>, images: FitImages,
                                                 height: nat, width: nat, k: nat)
    requires forall i :: 0 <= i < |files| ==> files[i] in corners && files[i] in sizes
    requires k <= |files| && Layout(files[..k], corners, sizes, images, height, width).Err?
    ensures Layout(files, corners, sizes, images, height, width) == Layout(files[..k], corners, sizes, images, height, width)
    decreases |files| - k
  {
    if k < |files| {
      assert files[..k + 1][..k] == files[..k];
      LayoutKeepsFirstError(files, corners, sizes, images, height, width, k + 1);
    } else {
      assert files[..k] == files;
    }
  }

  /** Extending a laid-out prefix by one file appends that file's tile, or
      fails with that file's error. */
  lemma LayoutStep(files: seq<string>, corners: map<string, (nat, nat)>, sizes: map<string, (nat, nat)>,
                   images: FitImages, height: nat, width: nat, i: nat, done: seq<Placement>)
    requires forall j :: 0 <= j < |files| ==> files[j] in corners && files[j] in sizes
    requires i < |files| && Layout(files[..i], corners, sizes, images, height, width) == Ok(done)
    ensures var t := TileLayout(files[i], corners, sizes, images, height, width);
            && (t.Err? ==> Layout(files[..i + 1], corners, sizes, images, height, width) == Err(t.error))
            && (t.Ok? ==> Layout(files[..i + 1], corners, sizes, images, height, width) == Ok(done + [t.value]))
  {
    assert files[..i + 1][..i] == files[..i];
  }

  /** The layout places file i as its i-th tile. */
  lemma {:induction false} LayoutOrder(files: seq<string>, corners: map<string, (nat, nat)>,
                                       sizes: map<string, (nat, nat)>, images: FitImages,
                                       height: nat, width: nat)
    requires forall i :: 0 <= i < |files| ==> files[i] in corners && files[i] in sizes
    requires Layout(files, corners, sizes, images, height, width).Ok?
    ensures |Layout(files, corners, sizes, images, height, width).value| == |files|
    ensures forall i :: 0 <= i < |files| ==>
              TileLayout(files[i], corners, sizes, images, height, width)
              == Ok(Layout(files, corners, sizes, images, height, width).value[i])
  {
    if files != [] {
      var front := files[..|files| - 1];
      var last := files[|files| - 1];
      LayoutOrder(front, corners, sizes, images, height, width);
      var ps := Layout(front, corners, sizes, images, height, width).value;
      var p := TileLayout(last, corners, sizes, images, height, width).value;
      assert Layout(files, corners, sizes, images, height, width).value == ps + [p];
      assert forall i :: 0 <= i < |front| ==> front[i] == files[i];
    }
  }

  /** `(section + im) / 2` of one cell, truncated into the uint16 canvas. */
  function AverageCell(a: u16, s: u16): (r: u16)
    ensures a <= s ==> a <= r <= s
    ensures s <= a ==> s <= r <= a
  {
    (a + s) / 2
  }

  /** The canvas after one tile: cells under it are averaged with its
      channel sum, all others keep their value. */
  function AverageTile(canvas: Image, p: Placement): (out: Image)
    ensures |out| == |canvas|
    ensures forall r :: 0 <= r < |out| ==> |out[r]| == |canvas[r]|
  {
    seq(|canvas|, r requires 0 <= r < |canvas| =>
      seq(|canvas[r]|, c requires 0 <= c < |canvas[r]| =>
        if Covers(p, r, c) then AverageCell(canvas[r][c], PixelAt(p, r, c)) else canvas[r][c]))
  }

  /** The canvas after the tiles of `ps`, first to last. */
  function AverageAll(canvas: Image, ps: seq<Placement>): (out: Image)
    ensures |out| == |canvas|
    ensures forall r :: 0 <= r < |out| ==> |out[r]| == |canvas[r]|
  {
    if ps == [] then canvas else AverageTile(AverageAll(canvas, ps[..|ps| - 1]), ps[|ps| - 1])
  }

  /** Averaging in one more tile averages it into the canvas so far. */
  lemma AverageAllSnoc(canvas: Image, ps: seq<Placement>, p: Placement)
    ensures AverageAll(canvas, ps + [p]) == AverageTile(AverageAll(canvas, ps), p)
  {
    assert (ps + [p])[..|ps|] == ps;
  }

  /** A cell under none of the tiles keeps its value: on the zeroed canvas
      it stays 0. */
  lemma {:induction false} AverageAllUncovered(canvas: Image, ps: seq<Placement>, r: int, c: int)
    requires 0 <= r < |canvas| && 0 <= c < |canvas[r]|
    requires forall k :: 0 <= k < |ps| ==> !Covers(ps[k], r, c)
    ensures AverageAll(canvas, ps)[r][c] == canvas[r][c]
  {
    if ps != [] {
      AverageAllUncovered(canvas, ps[..|ps| - 1], r, c);
    }
  }

  /** A cell under exactly one tile is the average of its old value and
      that tile's pixel: there is no "unwritten" marker, so on the zeroed
      canvas a cell covered once ends at half the channel sum. */
  lemma {:induction false} AverageAllSingleCover(canvas: Image, ps: seq<Placement>, k: nat, r: int, c: int)
    requires 0 <= r < |canvas| && 0 <= c < |canvas[r]|
    requires k < |ps| && Covers(ps[k], r, c)
    requires forall j :: 0 <= j < |ps| && j != k ==> !Covers(ps[j], r, c)
    ensures AverageAll(canvas, ps)[r][c] == (canvas[r][c] + PixelAt(ps[k], r, c)) / 2
  {
    var front := ps[..|ps| - 1];
    if k < |ps| - 1 {
      assert front[k] == ps[k];
      assert forall j :: 0 <= j < |front| && j != k ==> front[j] == ps[j];
      AverageAllSingleCover(canvas, front, k, r, c);
    } else {
      assert forall j :: 0 <= j < |front| ==> front[j] == ps[j];
      AverageAllUncovered(canvas, front, r, c);
    }
  }

  /** Two tiles over one cell of the zeroed canvas: the later tile counts
      twice as much as the earlier, so the result depends on their order
      (100 then 300 gives 175, 300 then 100 gives 125). */
  lemma AverageTwoTiles(u: u16, v: u16)
    ensures AverageAll(Zero(1, 1), [Placement(0, 0, [[u]]), Placement(0, 0, [[v]])]) == [[(u / 2 + v) / 2]]
  {
    var a := Placement(0, 0, [[u]]);
    var b := Placement(0, 0, [[v]]);
    var z := Zero(1, 1);
    assert z == [[0]] by { assert z[0] == [0]; }
    assert [] + [a] == [a] && [a] + [b] == [a, b];
    AverageAllSnoc(z, [], a);
    AverageAllSnoc(z, [a], b);
    AverageOneCell(0, u);
    AverageOneCell(u / 2, v);
  }

  /** One tile of one pixel over a canvas of one cell. */
  lemma AverageOneCell(cell: u16, v: u16)
    ensures AverageTile([[cell]], Placement(0, 0, [[v]])) == [[(cell + v) / 2]]
  {
    var p := Placement(0, 0, [[v]]);
    var out := AverageTile([[cell]], p);
    assert Covers(p, 0, 0) && PixelAt(p, 0, 0) == v;
    assert out[0][0] == (cell + v) / 2;
    assert out[0] == [(cell + v) / 2];
  }

  /** `output[y:y+h, x:x+w] = (output[y:y+h, x:x+w] + im) / 2` for a tile
      whose channel sum `s` exactly fills that section. */
  method AverageSection(output: array2<u16>, top: nat, left: nat, s: Image, width: nat)
    requires IsShape(s, |s|, width)
    requires top + |s| <= output.Length0 && left + width <= output.Length1
    modifies output
    ensures forall r, c :: 0 <= r < output.Length0 && 0 <= c < output.Length1 ==>
              output[r, c] == if top <= r < top + |s| && left <= c < left + width
                              then AverageCell(old(output[r, c]), s[r - top][c - left]) else old(output[r, c])
  {
    var i := 0;
    while i < |s|
      invariant 0 <= i <= |s|
      invariant forall r, c :: 0 <= r < output.Length0 && 0 <= c < output.Length1 ==>
                  output[r, c] == if top <= r < top + i && left <= c < left + width
                                  then AverageCell(old(output[r, c]), s[r - top][c - left]) else old(output[r, c])
    {
      var j := 0;
      while j < width
        invariant 0 <= j <= width
        invariant forall r, c :: 0 <= r < output.Length0 && 0 <= c < output.Length1 ==>
                    output[r, c] == if (top <= r < top + i && left <= c < left + width) || (r == top + i && left <= c < left + j)
                                    then AverageCell(old(output[r, c]), s[r - top][c - left]) else old(output[r, c])
      {
        output[top + i, left + j] := AverageCell(output[top + i, left + j], s[i][j]);
        j := j + 1;
      }
      i := i + 1;
    }
  }

  /** One tile averaged into the canvas: the canvas becomes AverageTile of
      the old canvas and the placement. */
  method AverageInto(output: array2<u16>, p: Placement)
    requires Fits(p, output.Length0, output.Length1)
    modifies output
    ensures Grid(output) == AverageTile(old(Grid(output)), p)
  {
    ghost var before := Grid(output);
    if |p.pixels| > 0 && |p.pixels[0]| > 0 {
      AverageSection(output, p.top, p.left, p.pixels, |p.pixels[0]|);
    }
    ghost var want := AverageTile(before, p);
    forall r, c | 0 <= r < output.Length0 && 0 <= c < output.Length1
      ensures output[r, c] == want[r][c]
    {
      if Covers(p, r, c) {
        assert PixelAt(p, r, c) == p.pixels[r - p.top][c - p.left];
      }
    }
    GridEq(output, want);
  }

  /** `blend(file_lst, outpath, corner_dict, size_dict)` without the final
      `imwrite`: a zeroed canvas of `get_blended_size`'s shape, then each
      file's channel sum averaged into its section in list order; a
      failure discards the canvas. */
  method Blend(files: seq<string>, corners: map<string, (nat, nat)>, sizes: map<string, (nat, nat)>,
               images: FitImages)
    returns (result: Result<array2<u16>, BlendError>)
    requires Listed(files, corners, sizes)
    ensures var w, h := BlendedSize(files, corners, sizes).0, BlendedSize(files, corners, sizes).1;
            && w >= 0 && h >= 0
            && var layout := Layout(files, corners, sizes, images, h, w);
            && (layout.Err? ==> result == Err(layout.error))
            && (layout.Ok? ==>
                  result.Ok? && fresh(result.value)
                  && Grid(result.value) == AverageAll(Zero(h, w), layout.value))
  {
    var size := GetBlendedSize(files, corners, sizes);
    BlendedSizeFromFirstMax(files, corners, sizes);
    var width: nat, height: nat := size.0, size.1;
    var output := NewZero(height, width);
    ghost var done: seq<Placement> := [];
    var i := 0;
    assert files[..0] == [];
    while i < |files|
      invariant 0 <= i <= |files|
      invariant fresh(output) && output.Length0 == height && output.Length1 == width
      invariant Layout(files[..i], corners, sizes, images, height, width) == Ok(done)
      invariant Grid(output) == AverageAll(Zero(height, width), done)
    {
      var placed := TileLayout(files[i], corners, sizes, images, height, width);
      LayoutStep(files, corners, sizes, images, height, width, i, done);
      if placed.Err? {
        LayoutKeepsFirstError(files, corners, sizes, images, height, width, i + 1);
        return Err(placed.error);
      }
      var p := placed.value;
      TileLayoutFits(files[i], corners, sizes, images, height, width);
      AverageInto(output, p);
      AverageAllSnoc(Zero(height, width), done, p);
      done := done + [p];
      i := i + 1;
    }
    assert files[..i] == files;
    return Ok(output);
  }

  // ---------------------------------------------------------------------------
  // get_channel_lists
  // ---------------------------------------------------------------------------

  /** The channel a file name ends in: the part after its last '_' must be
      `<channel>.<ext>` with an allowed channel and "tif" or "TIF". */
  function ChannelOf(f: string): (r: Option<string>)
    ensures r.Some? ==> r.value in ALLOWABLE_CHANNELS
  {
    var parts := Split(f, '_');
    ChannelOfLast(parts[|parts| - 1])
  }

  /** The channel named by the last '_'-separated part of a file name. */
  function ChannelOfLast(last: string): (r: Option<string>)
    ensures r.Some? ==> r.value in ALLOWABLE_CHANNELS
  {
    var fields := Split(last, '.');
    if |fields| == 2 && fields[0] in ALLOWABLE_CHANNELS && (fields[1] == "TIF" || fields[1] == "tif")
    then Some(fields[0])
    else None
  }

  /** The channel names hold neither '_' nor '.'. */
  lemma ChannelNamesPlain()
    ensures forall k :: k in ALLOWABLE_CHANNELS ==> '_' !in k && '.' !in k
  {
  }

  /** A Keyence file name `<anything>_<channel>.tif` is filed under its
      channel, whatever comes before the last '_'. */
  lemma ChannelOfName(p: string, k: string, ext: string)
    requires k in ALLOWABLE_CHANNELS && (ext == "tif" || ext == "TIF")
    ensures ChannelOf(p + "_" + k + "." + ext) == Some(k)
  {
    var last := k + "." + ext;
    assert p + "_" + k + "." + ext == p + ['_'] + last;
    ChannelOfLastName(k, ext);
    LastPart(p, '_', last);
  }

  /** `<channel>.<ext>` names its channel. */
  lemma ChannelOfLastName(k: string, ext: string)
    requires k in ALLOWABLE_CHANNELS && (ext == "tif" || ext == "TIF")
    ensures '_' !in k + "." + ext
    ensures ChannelOfLast(k + "." + ext) == Some(k)
  {
    ChannelNamesPlain();
    assert '.' !in ext && '_' !in ext;
    assert k + "." + ext == k + ['.'] + ext;
    SplitPair(k, '.', ext);
  }

  /** Two separator-free pieces joined by the separator split back apart. */
  lemma SplitPair(a: string, sep: char, b: string)
    requires sep !in a && sep !in b
    ensures Split(a + [sep] + b, sep) == [a, b]
  {
    SplitLeading(a, sep, b);
    SplitNoSep(b, sep);
  }

  /** What follows the last separator is the last piece of a split. */
  lemma LastPart(a: string, sep: char, b: string)
    requires sep !in b
    ensures var parts := Split(a + [sep] + b, sep); parts[|parts| - 1] == b
  {
    SplitAround(a, sep, b);
    SplitNoSep(b, sep);
  }

  /** The items of `items` whose key is `k`, in their order. */
  function Matching<T>(items: seq<T>, key: T -> Option<string>, k: string): seq<T> {
    if items == [] then []
    else
      var rest := Matching(items[..|items| - 1], key, k);
      if key(items[|items| - 1]) == Some(k) then rest + [items[|items| - 1]] else rest
  }

  /** The `defaultdict(list)` the loop of `get_channel_lists` fills: each
      item with a key is appended to its key's list, a key entering the
      dict at its first item. */
  function Grouped<T>(items: seq<T>, key: T -> Option<string>): Dict<string, seq<T>> {
    if items == [] then Empty()
    else
      var d := Grouped(items[..|items| - 1], key);
      var f := items[|items| - 1];
      match key(f)
      case None => d
      case Some(k) => Store(d, k, (if k in d.entries then d.entries[k] else []) + [f])
  }

  /** A key's list holds exactly its items in their order, and a key is in
      the dict exactly when some item has it. */
  lemma {:induction false} GroupedSpec<T>(items: seq<T>, key: T -> Option<string>, k: string)
    ensures Valid(Grouped(items, key))
    ensures k in Grouped(items, key).entries <==> Matching(items, key, k) != []
    ensures k in Grouped(items, key).entries ==> Grouped(items, key).entries[k] == Matching(items, key, k)
  {
    if items != [] {
      var front := items[..|items| - 1];
      GroupedSpec(front, key, k);
      var d := Grouped(front, key);
      match key(items[|items| - 1])
      case None =>
      case Some(j) =>
        StoreValid(d, j, (if j in d.entries then d.entries[j] else []) + [items[|items| - 1]]);
    }
  }

  /** Matching keeps exactly the items with key `k`. */
  lemma {:induction false} MatchingSpec<T>(items: seq<T>, key: T -> Option<string>, k: string)
    ensures forall x :: x in Matching(items, key, k) ==> x in items && key(x) == Some(k)
    ensures forall i :: 0 <= i < |items| && key(items[i]) == Some(k) ==> items[i] in Matching(items, key, k)
  {
    if items != [] {
      var front := items[..|items| - 1];
      MatchingSpec(front, key, k);
      assert forall i :: 0 <= i < |front| ==> front[i] == items[i];
    }
  }

  /** The loop of `get_channel_lists`, for any way `key` of reading an
      item's channel. */
  method GroupByKey<T>(items: seq<T>, key: T -> Option<string>) returns (d: Dict<string, seq<T>>)
    ensures d == Grouped(items, key)
  {
    d := Empty();
    var i := 0;
    assert items[..0] == [];
    while i < |items|
      invariant 0 <= i <= |items|
      invariant d == Grouped(items[..i], key)
    {
      assert items[..i + 1][..i] == items[..i];
      match key(items[i]) {
        case None =>
        case Some(k) =>
          var list := if k in d.entries then d.entries[k] else [];
          d := Store(d, k, list + [items[i]]);
      }
      i := i + 1;
    }
    assert items[..i] == items;
  }

  /** `get_channel_lists(file_lst)`: the files grouped by channel, each list
      in input order; a file with no allowed channel is dropped. */
  method GetChannelLists(files: seq<string>) returns (channels: Dict<string, seq<string>>)
    ensures channels == Grouped(files, ChannelOf)
  {
    channels := GroupByKey(files, ChannelOf);
  }

  /** Every key of the channel lists is an allowed channel, and each list
      holds exactly the files whose name ends in that channel, in order. */
  lemma ChannelListsSpec(files: seq<string>, k: string)
    ensures Valid(Grouped(files, ChannelOf))
    ensures k in Grouped(files, ChannelOf).entries ==>
              k in ALLOWABLE_CHANNELS && Grouped(files, ChannelOf).entries[k] == Matching(files, ChannelOf, k)
    ensures k in Grouped(files, ChannelOf).entries <==> exists i :: 0 <= i < |files| && ChannelOf(files[i]) == Some(k)
  {
    GroupedSpec(files, ChannelOf, k);
    MatchingSpec(files, ChannelOf, k);
    if k in Grouped(files, ChannelOf).entries {
      var x := Matching(files, ChannelOf, k)[0];
      assert x in Matching(files, ChannelOf, k);
      var i :| 0 <= i < |files| && files[i] == x;
    }
    if exists i :: 0 <= i < |files| && ChannelOf(files[i]) == Some(k) {
      var i :| 0 <= i < |files| && ChannelOf(files[i]) == Some(k);
      assert files[i] in Matching(files, ChannelOf, k);
    }
  }
}
