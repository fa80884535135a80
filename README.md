# Keyence tile mosaics, modelled in Dafny

A Keyence BZ-X microscope records a grid of overlapping tiles. This project
models the code that puts those tiles together into one mosaic, and proves
properties of that model.

- **Reading a run** (`src/KeyenceRun.py`, module `KeyenceRun`). An acquisition
  folder holds one `.bcf` archive and the tile images.
  - The archive gives the grid (rows × columns), a comment per channel and the
    original image size.
  - Each `.tif` name gives the tile's prefix, its five-digit number and its
    channel, through the pattern `(.*)_([0-9]{5})_(.*).tif`.
  - A channel is *complete* when its tile numbers are exactly 1..rows·cols.
    Opening a run fails unless some channel is complete.
- **The tile grid** (`src/tile.py`, module `Tiles`).
  - Tile `i` names one file per channel: `<path>/<channel>/<i zero-padded to 5>.tif`.
  - Once MIST has reported a corner per tile, the canvas is sized to the
    furthest tile edges.
  - The tiles of one channel are then blended, in number order, onto a zeroed
    uint16 canvas. A zero cell takes the tile's pixel. A non-zero cell becomes
    the truncated half of its uint16 sum with the pixel, and that sum wraps at
    65536.
- **The MIST glue** (`src/mist.py`, identical to `iris/mist.py`; module `Mist`).
  - It builds MIST's command line from a module-level option dict. `stitch`
    updates that dict in place, so every call starts from the previous call's
    options.
  - It parses MIST's global-positions report, `file: <name>; corr: …; position: (x, y); …`,
    into a dict from tile number to corner.
- **The stand-alone pipeline** (`keyence_extractor.py`, module `KeyenceExtractor`).
  - Corners come from each file's metadata. `fix_origin` reflects them about
    the largest x and y.
  - The canvas size is taken from the first file with the largest x and the
    first with the largest y.
  - Each file's channel sum is averaged into its section of the canvas, in
    list order.
  - Files are grouped by the channel named after their last `_`.

Shared pieces:

- `Text` covers Python's `str(int)`, `int(str)`, `zfill`, `split`, `strip`
  and `os.path.join`.
- `Dicts` models a Python `dict` with its insertion order (`keys`) and its
  mapping (`entries`).
- `Canvas` holds the uint16 image type and the zeroed `array2` canvas.

How the model stands in for the program's side effects:

- Exceptions become `Result`/`Option` values.
- Objects whose fields the source updates are classes.
- A loop that updates variables is a method with a `while` loop, proved
  against a specification function.
- Files, archives, images and the MIST process are given as values.

Behaviour of the code worth knowing, which the model keeps:

- **Blending depends on tile order** (src/tile.py:151-160,
  keyence_extractor.py:126-132). Each new tile is averaged with the running
  canvas, so the composite depends on the order of the tiles
  (`Tiles.BlendRisingExample`, `Tiles.BlendFallingExample`,
  `KeyenceExtractor.AverageTwoTiles`).
- **No dedicated error for an empty corner set.**
  - Without corners, `__set_full_image_size` gives a (0, 0) canvas
    (src/tile.py:126-133).
  - `fix_origin` fails only because `max` of an empty list raises
    (keyence_extractor.py:86-87).
- **No channel is dropped** (src/KeyenceRun.py:158-160). The `del channel`
  loop at the end of `__get_images` only unbinds its loop variable. The
  run's channels are therefore left unchanged (`KeyenceRun.KeyenceRun.GetImages`).
- **`TypeError`, not `ValueError`, when no channel is complete**
  (src/KeyenceRun.py:151-153). The `ValueError` for that case is never
  raised: building its message calls `len` on an int, which raises
  `TypeError` first.
- **Broadcasting in the stand-alone blend** (keyence_extractor.py:132).
  `section + im` follows numpy's broadcasting, so a tile image of one row
  or one column is averaged into every row or column of its section
  (`KeyenceExtractor.BroadcastColumnExample`).

## Model

| member | source | states |
|---|---|---|
| Text.NatToStringValue | src/tile.py:97 | `str(n)` is a digit string that reads back as n, starting with '0' only for n = 0 |
| Text.ParseIntOfString | src/mist.py:52 | `int(str(i))` is i for every integer, negative ones included |
| Text.ZFill | src/tile.py:97 | `zfill(width)` gives at least `width` characters and never shortens the text |
| Text.ZFillDigits | src/tile.py:97 | zero-filling a digit string adds only leading '0's, keeps the digits at the end, and keeps the value |
| Text.Split | src/mist.py:67 | `split(sep)` gives at least one piece, no piece holds the separator, and joining the pieces with it gives the text back |
| Text.SplitAround | src/mist.py:67 | splitting at a separator splits the two sides independently |
| Text.Strip | src/mist.py:45 | `strip()` never lengthens the text and leaves no whitespace at either end |
| Text.StripRemovesOnlySpace | src/mist.py:66 | `strip()` removes only whitespace, and only from the two ends |
| Text.StripPadded | src/mist.py:45 | a text without whitespace at its ends, padded with whitespace, strips back to itself |
| Text.JoinPath | src/tile.py:104-106 | `os.path.join(a, b)` ends with b, and is b alone when b starts with '/' |
| Text.SeqMax | keyence_extractor.py:86-87 | `max` of a non-empty list is one of its elements and at least every element |
| Dicts.StoreValid | src/mist.py:70 | assigning `d[k] = v` keeps a dict well formed |
| Dicts.Store | src/mist.py:70 | `d[k] = v` maps k to v; a new key goes at the end of the order and an existing key keeps its place |
| Dicts.StoreKeepsOrder | src/mist.py:70 | an assignment never reorders or removes existing keys |
| Tiles.TileFnameSpec | src/tile.py:84-97 | the file name of tile `num` is its decimal digits left-padded with '0' to at least five, then ".tif"; the padding is never more than needed; numbers 0..99999 give 9 characters |
| Tiles.StemLength | src/tile.py:97 | a number below 100000 has at most five digits, so `zfill(5)` pads it to exactly five |
| Tiles.TileFnameIsRelative | src/tile.py:104-106 | a tile file name never starts with '/', so `os.path.join(path, channel, name)` keeps the path and channel in front of it |
| Tiles.TilePathsByName | src/tile.py:101-106 | the paths tile i holds are the channel paths for the file name `tile_fname(i)` |
| Tiles.ChannelPathsComplete | src/tile.py:103-106 | a freshly assembled tile has a path for exactly the sequence's channels, each `path/channel/name` |
| Tiles.Tile.constructor | src/tile.py:33-36 | a new tile has no channels |
| Tiles.Tile.AddChannel | src/tile.py:38-50 | after `add_channel(name, path)` the name maps to the path; every other channel keeps its path, and no other channel is added or removed |
| Tiles.Tile.GetChannel | src/tile.py:52-53 | gives the stored path exactly when the channel is present, and nothing (the `KeyError`) otherwise |
| Tiles.ExtentIsMax | src/tile.py:128-132 | the running maximum starting at 0 is at least every edge and is either 0 or one of the edges |
| Tiles.ExtentSnoc | src/tile.py:131-132 | one more corner raises the running maximum to its edge exactly when that edge is larger |
| Tiles.EdgesStep | src/tile.py:130-132 | the maxima after corner i are the maxima before it, raised to its right and bottom edges |
| Tiles.TileInsideCanvas | src/tile.py:126-133 | every tile's rectangle, its corner plus the tile size, lies inside `full_size` |
| Tiles.CanvasIsTight | src/tile.py:126-133 | without corners the canvas is (0, 0); otherwise each side is 0 or reached by some tile's edge |
| Tiles.BlendCell | src/tile.py:158-160 | an unwritten (0) cell takes the pixel when it is below 32768 and otherwise the pixel minus 32768; a written cell ends at (cell + pixel) mod 65536, halved and truncated |
| Tiles.ApplyTile | src/tile.py:155-160 | blending one tile keeps the canvas shape |
| Tiles.BlendAll | src/tile.py:151-160 | blending a sequence of tiles keeps the canvas shape |
| Tiles.BlendAllSnoc | src/tile.py:151-160 | blending one more tile applies it to the canvas blended so far |
| Tiles.BlendAllUncovered | src/tile.py:149-160 | a cell under no tile keeps its value, so on the zeroed canvas it stays 0 |
| Tiles.BlendAllSingleCover | src/tile.py:149-160 | a zero cell under exactly one tile ends at BlendCell(0, pixel), which is the pixel itself when the pixel is below 32768 |
| Tiles.BlendTwoTilesExample | src/tile.py:136-161 | two 1×2 tiles of 4s and 6s overlapping in one column give [4, 5, 6] |
| Tiles.BlendRisingExample | src/tile.py:151-160 | three tiles 2, 4, 8 over one cell give 5 |
| Tiles.BlendFallingExample | src/tile.py:151-160 | the same tiles in the order 8, 4, 2 give 4, so the result depends on tile order |
| Tiles.BlendZeroIsUnwrittenExample | src/tile.py:158-160 | a dark (0) pixel blended first is overwritten by the next tile (0 then 6 gives 6), while 2 then 6 gives 4 |
| Tiles.FillUnwritten | src/tile.py:158 | inside the section, every zero cell takes the tile's pixel and every other cell is unchanged; cells outside the section are unchanged |
| Tiles.AverageWritten | src/tile.py:159-160 | inside the section, every non-zero cell becomes (cell + pixel) mod 65536 halved; zero cells and cells outside the section are unchanged |
| Tiles.BlendSection | src/tile.py:155-160 | the two masked assignments on one section turn the canvas into ApplyTile of the old canvas and the placed tile |
| Tiles.NewTileNamed | src/tile.py:102-106 | a fresh tile holding `path/channel/name` for every channel |
| Tiles.NewTile | src/tile.py:102-107 | a fresh tile holding `path/channel/tile_fname(i)` for every channel |
| Tiles.TileSequence.constructor | src/tile.py:73-82 | stores the metadata, has no corners and no canvas size yet, and holds a fresh tile for exactly the numbers 1..rows·cols, each with its standard paths |
| Tiles.TileSequence.AssembleTiles | src/tile.py:99-107 | adds a fresh tile with the standard paths under every number 1..rows·cols; entries under other numbers are left alone |
| Tiles.TileSequence.Stitch | src/tile.py:109-124 | stores the corners MIST reported and sizes the canvas to them |
| Tiles.TileSequence.SetFullImageSize | src/tile.py:126-134 | `full_size` becomes (height, width), the running maxima of corner plus tile size over the corners in dict order |
| Tiles.TileSequence.PlanStep | src/tile.py:151-154 | tile n's lookup either fails the whole plan with its error or extends the plan by one placement |
| Tiles.TileSequence.PlanOrder | src/tile.py:151 | a successful plan for n tiles places tile k+1 at position k, so the tiles go in number order |
| Tiles.TileSequence.PlanKeepsFirstError | src/tile.py:151-154 | once a tile's lookup fails, every longer plan fails with that same error |
| Tiles.TileSequence.Locate | src/tile.py:152-154 | looks up tile i's path, corner and image in the order `blend` does, failing exactly as the plan says |
| Tiles.TileSequence.BlendTile | src/tile.py:151-160 | one loop pass either reports the plan's failure or blends tile i, so the canvas becomes the blend of the longer plan |
| Tiles.TileSequence.Blend | src/tile.py:136-161 | without `full_size` the call fails; otherwise it fails with the first failing tile's error, or gives a fresh canvas of shape `full_size` equal to the zeroed canvas with tiles 1..rows·cols blended in order |
| Canvas.NewZero | src/tile.py:149 | `np.zeros(shape, uint16)`: a fresh canvas of the given shape, every cell 0 |
| Mist.FromColonFormat | src/mist.py:40-45 | fails (the `IndexError`) exactly when there is no ':'; the result holds no ':' |
| Mist.FromColonFormatOf | src/mist.py:40-45 | `field: value` reads back as `value` when neither part holds ':' and the value has no surrounding whitespace |
| Mist.FirstMatch | src/mist.py:50 | a found position is at or after the start and matches `([0-9]{5}).tif` |
| Mist.FirstMatchIsLeftmost | src/mist.py:50 | the search finds the leftmost match, and a miss means no position matches |
| Mist.FilenameToNumberSpec | src/mist.py:48-52 | there is no number exactly when no position matches; otherwise the number is the value of the five digits at the leftmost match |
| Mist.FilenameToNumberOfTileFname | src/mist.py:48-52 | reading back the file name of tile n (0 ≤ n < 100000) gives n |
| Mist.ParsePosition | src/mist.py:69 | a parsed position came from a parenthesised text |
| Mist.LiteralIntChars | src/mist.py:69 | an integer `literal_eval` accepts holds only digits, signs and the tokenizer's blanks (space, tab, form feed, CR, LF); a vertical tab or other Unicode space is refused |
| Mist.LeadingZeroRejected | src/mist.py:69 | a digit run that starts with '0' and holds another digit is refused, signed or not, as Python's `SyntaxError` for "007" |
| Mist.ParsePositionChars | src/mist.py:69 | an accepted position holds only blanks, digits, signs and ',' between its brackets |
| Mist.ParsePositionParts | src/mist.py:69 | two ','-free elements in brackets give the pair exactly when both are integer literals, and `BadPosition` otherwise |
| Mist.LeadingZeroPositionExample | src/mist.py:69 | "(007,1)" is refused |
| Mist.VerticalTabPositionExample | src/mist.py:69 | a vertical tab before a number is refused |
| Mist.ZerosPositionExample | src/mist.py:69 | "(00, 1)" reads as (0, 1), since a run of zeros is the literal 0 |
| Mist.LiteralIntOfString | src/mist.py:69 | `str(i)`, with or without one space before it, reads back as i |
| Mist.LiteralIntOfDigits | src/mist.py:69 | a decimal literal with an optional '-' and at most one space before it reads back as its signed value |
| Mist.ParsePositionOf | src/mist.py:69 | "(a,b)" with integer literals a and b reads back as the pair |
| Mist.ParsePositionOfText | src/mist.py:69 | the text "(x, y)" reads back as (x, y) |
| Mist.ReportLineFields | src/mist.py:66-67 | a report line split at ';' has the file field first and the position field third |
| Mist.ParseLineOf | src/mist.py:65-70 | a line whose file field names tile n and whose position field reads as pos parses to (n, pos) |
| Mist.ParseReportLine | src/mist.py:65-70 | a line MIST writes for a file at a position parses to the file's number and the position, whatever the correlation and the rest of the line |
| Mist.ParseTileReportLine | src/mist.py:65-70 | the line for tile n at (x, y) parses to (n, (x, y)) |
| Mist.CollectValid | src/mist.py:63-71 | the corners form a well-formed dict |
| Mist.CollectKeepsFirstError | src/mist.py:65-70 | once a line fails, the whole report fails with that error |
| Mist.CollectOk | src/mist.py:63-71 | the report parses exactly when every line parses, and otherwise fails with the first failing line's error |
| Mist.CollectKeys | src/mist.py:63-71 | the corners' keys are exactly the tile numbers of the report's lines |
| Mist.CollectLastWins | src/mist.py:70 | a tile number holds the position of the last line that names it |
| Mist.CollectLines | src/mist.py:63-71 | the loop parses the lines one by one into a dict, giving what Collect specifies |
| Mist.ExtractCorners | src/mist.py:55-71 | the corners of a report, as Corners specifies |
| Mist.CollectTwo | src/mist.py:63-71 | two parsed lines for different tiles give exactly their two corners, in line order |
| Mist.CornersOfTwo | src/mist.py:55-71 | a report of two well-formed lines for different tiles gives exactly their two corners |
| Mist.TwoTileReport | src/mist.py:55-71 | two report lines as MIST writes them, for different tiles, give exactly those tiles' corners |
| Mist.DefaultKeysDistinct | src/mist.py:19-36 | the defaults name each option once |
| Mist.DefaultKeysMapped | src/mist.py:19-36 | the defaults hold 16 options, every option except "outputPath" |
| Mist.DefaultOptionsValid | src/mist.py:19-36 | the defaults form a well-formed dict of 16 options, without "outputPath" |
| Mist.RunOptionsValid | src/mist.py:96-103 | after the seven writes, the options are still a well-formed dict |
| Mist.RunOptionsEntries | src/mist.py:96-103 | the run's entries are the old entries with the seven writes applied in order |
| Mist.RunWritesKeys | src/mist.py:97-103 | the writes add exactly the seven switches to the keys |
| Mist.RunWritesKeepsOthers | src/mist.py:97-103 | the writes leave every other option's value alone |
| Mist.RunOptionsWrites | src/mist.py:97-103 | the seven entries hold the run's directories, `str(cols)`, `str(rows)` and "{ppppp}.tif" |
| Mist.RunOptionsKeys | src/mist.py:96-103 | a key is in the run's options exactly when it was before or is one of the seven switches |
| Mist.RunOptionsKeepsOthers | src/mist.py:96-103 | every option that is not written keeps its value |
| Mist.RunOptionsKeepsOrder | src/mist.py:96-103 | the existing options keep their order; new switches go after them |
| Mist.RunWritesIdempotent | src/mist.py:97-103 | writing the seven entries a second time changes nothing |
| Mist.RunOptionsSameKeys | src/mist.py:96-103 | a run over options that already hold all seven switches adds no key |
| Mist.RunOptionsIdempotent | src/mist.py:96-103 | a second identical call starts from and ends at the options the first call produced |
| Mist.ArgvLength | src/mist.py:104-107 | the argument list has two entries per option |
| Mist.ArgvAt | src/mist.py:104-107 | option i's "--name" is at position 2i, with its value right after it |
| Mist.BuildArgs | src/mist.py:104-107 | the loop produces each option's switch and value, option by option in dict order |
| Mist.Mist.constructor | src/mist.py:19-36 | the shared options start as the literal defaults |
| Mist.Mist.Stitch | src/mist.py:74-128 | the shared options become the run's options; the command is `java -jar fft2d-wdeps.jar` followed by the options as switches; the corners are those of the report |
| Mist.DefaultRunKeys | src/mist.py:96-103 | a run from the defaults adds "outputPath" after the 16 defaults and keeps their order |
| Mist.FirstRunArgv | src/mist.py:96-111 | the first run passes 34 arguments after `java -jar fft2d-wdeps.jar`, ending with "--outputPath" and the output directory |
| KeyenceExtractor.MaxXSpec | keyence_extractor.py:86 | the largest x is at least every corner's x and is some corner's x |
| KeyenceExtractor.MaxYSpec | keyence_extractor.py:87 | the largest y is at least every corner's y and is some corner's y |
| KeyenceExtractor.FixOriginKeys | keyence_extractor.py:75-93 | fails only on an empty dict (`max` of an empty list); otherwise the result has the same keys in the same order |
| KeyenceExtractor.FixOriginNonNegative | keyence_extractor.py:89-93 | every corrected coordinate is non-negative, and it is 0 exactly for a tile whose raw coordinate is the largest |
| KeyenceExtractor.FixOriginReverses | keyence_extractor.py:89-93 | the correction reverses the order of coordinates and keeps the distances between them |
| KeyenceExtractor.FixOriginGrid | keyence_extractor.py:75-93 | a 2×2 grid w apart across and h apart down maps the bottom-right tile to (0, 0) and the top-left tile to (w, h) |
| KeyenceExtractor.GridKeys | keyence_extractor.py:89-93 | the corrected 2×2 grid keeps its keys in their order |
| KeyenceExtractor.GridCorners | keyence_extractor.py:89-93 | the corrected corners of the 2×2 grid, tile by tile |
| KeyenceExtractor.FixOriginEntries | keyence_extractor.py:86-93 | each corrected corner is (largest x − x, largest y − y) |
| KeyenceExtractor.GatheredOk | keyence_extractor.py:99-102 | reading the metadata succeeds exactly when every file's metadata is readable |
| KeyenceExtractor.GatheredFirstError | keyence_extractor.py:99-102 | a failure names a listed file whose metadata is unreadable |
| KeyenceExtractor.GatheredKeys | keyence_extractor.py:97-102 | the corner dict and the size dict are well formed and share their key order |
| KeyenceExtractor.GatheredFiles | keyence_extractor.py:99-102 | the dicts hold exactly the listed files |
| KeyenceExtractor.GatheredValues | keyence_extractor.py:100-102 | each file maps to its metadata corner and size |
| KeyenceExtractor.GetStitching | keyence_extractor.py:96-104 | the loop and the origin correction give what Stitching specifies |
| KeyenceExtractor.GatheredKeepsFirstError | keyence_extractor.py:99-102 | once a file fails, the whole list fails with that error |
| KeyenceExtractor.StitchingCorners | keyence_extractor.py:96-104 | with every file readable, each file's corner is its metadata corner reflected about the largest x and y, and the distances between files are kept |
| KeyenceExtractor.FirstMax | keyence_extractor.py:108-115 | the index the scan ends with is a valid index |
| KeyenceExtractor.FirstMaxSpec | keyence_extractor.py:108-115 | that index holds a largest element, and every element before it is strictly smaller |
| KeyenceExtractor.GetBlendedSize | keyence_extractor.py:106-117 | the loop gives what BlendedSize specifies |
| KeyenceExtractor.BlendedSizeFromFirstMax | keyence_extractor.py:106-117 | the width is x plus width of the first file with the largest x; the height is y plus height of the first file with the largest y |
| KeyenceExtractor.BlendedSizeCovers | keyence_extractor.py:106-117 | when all tiles have the same size, every tile lies inside the canvas |
| KeyenceExtractor.ChannelSum | keyence_extractor.py:129 | the result has the image's shape, and each cell is the sum of that pixel's channel samples |
| KeyenceExtractor.SectionImage | keyence_extractor.py:132 | what numpy adds to a section is a rectangle of the section's shape, or nothing for an empty section; otherwise the addition raises |
| KeyenceExtractor.BroadcastPixelDown | keyence_extractor.py:132 | a one-pixel image added to a 2×1 section is repeated into both rows |
| KeyenceExtractor.TileLayoutPixels | keyence_extractor.py:129-132 | a tile is placed at its corner exactly when its channel sum is rectangular and each extent equals its section's or is 1 (a row-less image fits only an empty section); each section cell holds the matching pixel, a single row or column being repeated |
| KeyenceExtractor.BroadcastColumnExample | keyence_extractor.py:129-132 | a one-pixel tile whose size spans two rows is averaged into both rows of a 2×1 canvas |
| KeyenceExtractor.TileLayoutFits | keyence_extractor.py:130-132 | a placed tile is a rectangle that lies inside the canvas |
| KeyenceExtractor.LayoutKeepsFirstError | keyence_extractor.py:126-132 | once a file fails, the whole list fails with that error |
| KeyenceExtractor.LayoutStep | keyence_extractor.py:126-132 | one more pass of the loop appends the next file's tile, or fails with that file's error |
| KeyenceExtractor.LayoutOrder | keyence_extractor.py:126 | file i is placed as the i-th tile |
| KeyenceExtractor.AverageCell | keyence_extractor.py:132 | the average of a cell and a pixel lies between the two |
| KeyenceExtractor.AverageTile | keyence_extractor.py:132 | averaging one tile in keeps the canvas shape |
| KeyenceExtractor.AverageAll | keyence_extractor.py:126-132 | averaging a sequence of tiles keeps the canvas shape |
| KeyenceExtractor.AverageAllSnoc | keyence_extractor.py:126-132 | averaging one more tile in averages it into the canvas so far |
| KeyenceExtractor.AverageAllUncovered | keyence_extractor.py:124-132 | a cell under no tile keeps its value, so on the zeroed canvas it stays 0 |
| KeyenceExtractor.AverageAllSingleCover | keyence_extractor.py:124-132 | a cell under exactly one tile ends at the average of its old value and that tile's pixel, so on the zeroed canvas it is half the channel sum |
| KeyenceExtractor.AverageTwoTiles | keyence_extractor.py:126-132 | two tiles u then v over one zero cell give (u/2 + v)/2, so the later tile counts twice as much |
| KeyenceExtractor.AverageOneCell | keyence_extractor.py:132 | one pixel v over a cell c gives (c + v)/2 |
| KeyenceExtractor.AverageSection | keyence_extractor.py:132 | inside the section every cell becomes (cell + sum)/2; outside it every cell is unchanged |
| KeyenceExtractor.AverageInto | keyence_extractor.py:132 | the canvas becomes AverageTile of the old canvas and the placement |
| KeyenceExtractor.Blend | keyence_extractor.py:119-133 | fails with the first unreadable or unbroadcastable file's error, or gives a fresh canvas of the blended size equal to the zeroed canvas with each file averaged in, in list order |
| KeyenceExtractor.ChannelOf | keyence_extractor.py:143-145 | a channel read from a file name is one of ALLOWABLE_CHANNELS |
| KeyenceExtractor.ChannelOfLast | keyence_extractor.py:143-145 | a channel read from the last '_' part is one of ALLOWABLE_CHANNELS |
| KeyenceExtractor.ChannelNamesPlain | keyence_extractor.py:13 | no allowed channel name contains '_' or '.' |
| KeyenceExtractor.ChannelOfName | keyence_extractor.py:143-145 | `<anything>_<channel>.tif` (or `.TIF`) is filed under its channel |
| KeyenceExtractor.ChannelOfLastName | keyence_extractor.py:143-145 | `<channel>.<ext>` names its channel |
| KeyenceExtractor.GroupedSpec | keyence_extractor.py:141-147 | a key is in the grouping exactly when some item has it, and its list holds exactly its items in input order |
| KeyenceExtractor.MatchingSpec | keyence_extractor.py:145-146 | the list for k holds exactly the items whose key is k |
| KeyenceExtractor.GroupByKey | keyence_extractor.py:141-147 | the loop gives what Grouped specifies |
| KeyenceExtractor.GetChannelLists | keyence_extractor.py:136-147 | the files grouped by the channel their names end in |
| KeyenceExtractor.ChannelListsSpec | keyence_extractor.py:136-147 | every key is an allowed channel; a channel is a key exactly when some file names it; its list holds exactly those files, in order |
| KeyenceRun.ChannelNamesLiteral | src/KeyenceRun.py:21 | `BCF_CHANNEL_NAMES` pairs Channel0..Channel4 with CH1..CH5 |
| KeyenceRun.GetTag | src/KeyenceRun.py:66-77 | no element gives None; one element gives its text; two or more fail the assertion, and only then |
| KeyenceRun.IntOf | src/KeyenceRun.py:85-86 | `int(None)` is a TypeError, a read error is passed on, and a value is the parse of the tag's text |
| KeyenceRun.TagPairOf | src/KeyenceRun.py:108-121 | a missing properties entry is FileNotFoundError; an entry with each tag once, holding `str(n)`, reads back as the two numbers |
| KeyenceRun.TagPairRepeated | src/KeyenceRun.py:66-77 | a tag that occurs twice fails the read |
| KeyenceRun.ChannelsOfSpec | src/KeyenceRun.py:93-106 | the read fails exactly when a present entry has two comments; otherwise a tile channel is a key exactly when its archive entry is present, and it holds that entry's comment |
| KeyenceRun.ChannelsSpec | src/KeyenceRun.py:93-106 | CHn is a key exactly when the entry for Channel(n−1) is present, holding that entry's comment |
| KeyenceRun.LastTail | src/KeyenceRun.py:27 | the last position below n where `.tif` starts, or none |
| KeyenceRun.LastToken | src/KeyenceRun.py:27 | the last position below n where `_ddddd_` starts, or none |
| KeyenceRun.MatchLineSpec | src/KeyenceRun.py:27-28 | a matched line is prefix `_` five digits `_` channel `.tif`; the number is the digits' value, below 100000; both `(.*)` groups are greedy |
| KeyenceRun.KeyenceMatchOneLine | src/KeyenceRun.py:128 | a name without newlines is searched as one line |
| KeyenceRun.LastTailOfName | src/KeyenceRun.py:27 | a Keyence name's last `.tif` is its extension |
| KeyenceRun.LastTokenOfName | src/KeyenceRun.py:27 | a Keyence name's last `_ddddd_` before the extension is the one after the prefix, when the channel has no '_' |
| KeyenceRun.MatchLineOfName | src/KeyenceRun.py:27 | the line pattern splits a Keyence name into its prefix, number and channel |
| KeyenceRun.KeyenceMatchOfName | src/KeyenceRun.py:125-134 | `<prefix>_<ddddd>_<channel>.tif` with a channel free of '_' reads back as its three parts, whatever the prefix holds |
| KeyenceRun.KeyenceMatchExample | src/KeyenceRun.py:128-134 | "XY02_00013_CH2.tif" gives ("XY02", 13, "CH2") |
| KeyenceRun.KeyenceMatchGreedyExample | src/KeyenceRun.py:128-134 | "a_00001_b_00002_CH1.tif" gives ("a_00001_b", 2, "CH1"), because the prefix is greedy |
| KeyenceRun.ImagesBy | src/KeyenceRun.py:124-134 | the images read from the names form a well-formed dict |
| KeyenceRun.ImagesKeepsFirstError | src/KeyenceRun.py:125-134 | once a name fails to match, the whole read fails with that name's AttributeError |
| KeyenceRun.ImagesOkIff | src/KeyenceRun.py:125-134 | the names are read exactly when every one of them matches |
| KeyenceRun.ImagesEntries | src/KeyenceRun.py:130-134 | the keys are exactly the names, each holding its own match groups |
| KeyenceRun.Numbers | src/KeyenceRun.py:140-145 | `image_numbers` is a well-formed dict |
| KeyenceRun.NumbersOf | src/KeyenceRun.py:144-145 | n is in a channel's numbers exactly when some image of that channel has number n |
| KeyenceRun.ChannelKeysSpec | src/KeyenceRun.py:140-143 | the comprehension keys the dict by exactly the channels that occur, each with an empty set |
| KeyenceRun.AddNumbersSpec | src/KeyenceRun.py:144-145 | the loop keeps the keys and their order, and adds each channel's numbers to its set |
| KeyenceRun.NumbersSpec | src/KeyenceRun.py:140-145 | a channel is a key exactly when some image has it, and holds exactly its images' numbers |
| KeyenceRun.Full | src/KeyenceRun.py:149 | `set(range(1, count + 1))` holds exactly 1..count |
| KeyenceRun.ValidInSpec | src/KeyenceRun.py:147-150 | a key is kept exactly when its set is 1..count |
| KeyenceRun.ValidChannelIff | src/KeyenceRun.py:139-150 | a channel is valid exactly when some image has it and its tile numbers are exactly 1..rows·cols |
| KeyenceRun.MissingTileInvalidates | src/KeyenceRun.py:147-150 | a channel missing any tile number in 1..count is not valid |
| KeyenceRun.ExtraTileInvalidates | src/KeyenceRun.py:147-150 | a channel with a tile numbered outside 1..count is not valid |
| KeyenceRun.ReadImages | src/KeyenceRun.py:124-134 | the first loop gives what Images specifies |
| KeyenceRun.NumbersByChannel | src/KeyenceRun.py:140-145 | the comprehension and the loop give what Numbers specifies |
| KeyenceRun.CompleteChannels | src/KeyenceRun.py:147-150 | the comprehension gives the valid channels in dict order |
| KeyenceRun.Bcf | src/KeyenceRun.py:59-64 | succeeds exactly when there is one `.bcf` file, giving that file; otherwise fails the assertion |
| KeyenceRun.LoadNeedsOneBcf | src/KeyenceRun.py:31-33 | a folder without exactly one `.bcf` file cannot be opened |
| KeyenceRun.LoadNeedsGrid | src/KeyenceRun.py:35 | a folder whose archive lacks the grid entry cannot be opened, and the error is FileNotFoundError |
| KeyenceRun.ImagesOfSpec | src/KeyenceRun.py:123-161 | the kept images are every `.tif` name with its groups, and at least one channel has exactly the tile numbers 1..rows·cols |
| KeyenceRun.KeyenceRun.constructor | src/KeyenceRun.py:31-33 | the run holds its path, its `.bcf` file and the archive entries |
| KeyenceRun.KeyenceRun.GetGrid | src/KeyenceRun.py:108-121 | rows and columns become the grid entry's "Row" and "Column", or the read's error is reported |
| KeyenceRun.KeyenceRun.GetImageSize | src/KeyenceRun.py:79-91 | the image size becomes (Height, Width) of its entry, or the read's error is reported |
| KeyenceRun.KeyenceRun.GetChannels | src/KeyenceRun.py:93-106 | the channels become what Channels specifies, or the first repeated comment is reported |
| KeyenceRun.KeyenceRun.ReadArchive | src/KeyenceRun.py:35-37 | the grid, the channels and the image size are read in that order; the first error stops the reading |
| KeyenceRun.KeyenceRun.GetImages | src/KeyenceRun.py:123-161 | the images become what ImagesOf specifies, or its error is reported; the channels are unchanged |
| KeyenceRun.ChannelsKeepsFirstError | src/KeyenceRun.py:98-104 | once a channel fails, the whole read fails with that error |
| KeyenceRun.Open | src/KeyenceRun.py:30-38 | opens a fresh run holding exactly what Load specifies, and fails exactly when Load does, with the same error |

## Left out

- File, archive and image I/O:
  - `glob`, `zipfile`, `ET.fromstring`, `cv2.imread` and `cv2.imwrite` are not modelled.
  - The folder's `.bcf` names, the archive's parsed entries, the `.tif` base names, the report lines and the decoded images are parameters.
  - `ntpath.basename` is taken as already applied.
- `position_info` and `extract_xml` are not modelled:
  - they use floating-point scaling and XML embedded in the TIFF;
  - their result is a parameter, a map from file to corner and size.
- The MIST process is not modelled:
  - `subprocess.call`, the `shelloutput` switch and the removal of MIST's output files;
  - `Mist.Mist.Stitch` records the command and reads the given report lines.
- `prep_folders` is not modelled: it writes directories and calls `self.gray`, which does not exist in the source.
- `main`, `dir_path` and `output_stitching` of `keyence_extractor.py` are not modelled: they are argument parsing and file output.
- Logging is not modelled, including the warning about differing prefixes.
- `Tile.quant` is not modelled: nothing in the core uses it.
- `src/iris.py`, `iris.py` and `setup.py` are not part of this model.
- Python's `int()` is modelled only partly: only ASCII digits with an optional sign and surrounding whitespace are accepted. `_` separators and non-ASCII digits are not.
- Mist.ParsePosition: `ast.literal_eval` is modelled only for a pair of decimal integer literals, "(x, y)". It refuses, as `BadPosition`, pairs Python would still read: `_` separators, hexadecimal, octal and binary literals, floats, a blank between sign and digits, a comment or a line continuation, a trailing comma, or blanks around the brackets. The report parser strips each field first, so the last case does not arise there.
- Tiles.TileSequence.constructor: rows, columns and the tile size are natural numbers. Python accepts negative ints there (rows = cols = -1 makes `range(1, rows * cols + 1)` give one tile); that is not modelled.
- Tiles.TileSequence.Blend: requires non-negative corners.
  - Negative slice starts, which numpy counts from the end, are not modelled.
  - Tiles.TileSequence.BlendTile and Tiles.TileSequence.Locate have the same requirement.
- KeyenceExtractor.GetBlendedSize: requires a non-empty file list whose files all have a corner and a size. The `AssertionError` and `KeyError` raised otherwise are not modelled. KeyenceExtractor.Blend has the same requirement.
- KeyenceExtractor.Blend: every pixel's channel sum must be below 65536, through the `FitImages` type. This also excludes sums whose average with the canvas cell would still fit (a sum of 100000 on a zero cell gives 50000 in the source). numpy's float-to-uint16 conversion of averages of 65536 or more is not modelled either.
- KeyenceExtractor.Blend: `np.sum(im, axis=2)` on an image without a channel axis raises. That case is not modelled, because images are always given with a channel axis.
