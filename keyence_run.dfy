/** One Keyence BZ-X acquisition folder (`src/KeyenceRun.py`): the `.bcf`
    archive's properties give the grid shape, the channel comments and the
    original image size; the folder's `.tif` names give each tile's prefix,
    number and channel, and a channel is usable only when its tile numbers
    are exactly 1..rows*cols. The archive is taken as its parsed XML
    entries and the folder as the base names of its `.tif` files. */
module KeyenceRun {
  import opened Text
  import opened Dicts

  const BCF_GRID_PROPERTIES: string := "GroupFileProperty/ImageJoint/properties.xml"
  const BCF_IMAGE_SIZE_PROPERTIES: string := "GroupFileProperty/Image/OriginalImageSize/properties.xml"

  /** `BCF_CHANNEL_PROPERTIES.format(name)`. */
  function ChannelProperties(name: string): string {
    "GroupFileProperty/" + name + "/properties.xml"
  }

  /** `BCF_CHANNEL_NAMES`: the archive's name of each channel paired with
      the name the tiles use, `("Channel" + str(x), "CH" + str(x + 1))` for
      x in `range(5)`. */
  function ChannelNames(): seq<(string, string)> {
    seq(5, x requires 0 <= x < 5 => ("Channel" + IntToString(x), "CH" + IntToString(x + 1)))
  }

  /** Channel0..Channel4 are called CH1..CH5 by the tiles. */
  lemma ChannelNamesLiteral()
    ensures ChannelNames() == [("Channel0", "CH1"), ("Channel1", "CH2"), ("Channel2", "CH3"),
                               ("Channel3", "CH4"), ("Channel4", "CH5")]
  {
    var names := ChannelNames();
    assert IntToString(0) == "0" && IntToString(1) == "1" && IntToString(2) == "2";
    assert IntToString(3) == "3" && IntToString(4) == "4" && IntToString(5) == "5";
    assert "Channel" + "0" == "Channel0" && "Channel" + "1" == "Channel1" && "Channel" + "2" == "Channel2";
    assert "Channel" + "3" == "Channel3" && "Channel" + "4" == "Channel4";
    assert "CH" + "1" == "CH1" && "CH" + "2" == "CH2" && "CH" + "3" == "CH3";
    assert "CH" + "4" == "CH4" && "CH" + "5" == "CH5";
  }

  /** The exceptions that abort opening a run. */
  datatype RunError =
    | AssertionError              // not exactly one `.bcf`, or a tag that occurs twice
    | FileNotFoundError(entry: string) // a properties entry missing from the archive
    | TypeError                   // `int(None)`, or `len` of an int when no channel is complete
    | ValueError(text: string)    // `int` of text that is not a number
    | AttributeError(name: string) // a `.tif` name the tile pattern does not match

  // ---------------------------------------------------------------------------
  // The archive
  // ---------------------------------------------------------------------------

  /** A parsed properties document: for each tag, the text of each of the
      root's children with that tag (`None` for an element without text). */
  type Xml = map<string, seq<Option<string>>>

  /** `root.findall(tag)`, as the elements' texts. */
  function FindAll(root: Xml, tag: string): seq<Option<string>> {
    if tag in root then root[tag] else []
  }

  /** What `__get_tag` gives for the texts `found`: nothing found is `None`,
      one element is its text, a second element fails the assertion. */
  function TagValue(found: seq<Option<string>>): Result<Option<string>, RunError> {
    if |found| == 0 then Ok(None)
    else if |found| == 1 then Ok(found[0])
    else Err(AssertionError)
  }

  /** `__get_tag(root, tag)`: the loop keeps the text of the element it
      visits and asserts that it visits no second one. */
  method GetTag(root: Xml, tag: string) returns (r: Result<Option<string>, RunError>)
    ensures |FindAll(root, tag)| == 0 ==> r == Ok(None)
    ensures |FindAll(root, tag)| == 1 ==> r == Ok(FindAll(root, tag)[0])
    ensures |FindAll(root, tag)| >= 2 <==> r == Err(AssertionError)
  {
    var found := FindAll(root, tag);
    var val: Option<string> := None;
    var idx := 0;
    while idx < |found|
      invariant 0 <= idx <= |found| && idx <= 1
      invariant val == if idx == 0 then None else found[0]
    {
      if idx != 0 {
        return Err(AssertionError);
      }
      val := found[idx];
      idx := idx + 1;
    }
    return Ok(val);
  }

  /** `int(...)` of a tag's value: `int(None)` is a `TypeError`. */
  function IntOf(tag: Result<Option<string>, RunError>): (r: Result<int, RunError>)
    ensures tag.Err? ==> r == Err(tag.error)
    ensures tag == Ok(None) ==> r == Err(TypeError)
    ensures r.Ok? ==> tag.Ok? && tag.value.Some? && ParseInt(tag.value.value) == Some(r.value)
  {
    match tag
    case Err(e) => Err(e)
    case Ok(None) => Err(TypeError)
    case Ok(Some(t)) =>
      match ParseInt(t)
      case None => Err(ValueError(t))
      case Some(n) => Ok(n)
  }

  /** Two integer tags of one properties entry, read in order: the first
      failure wins; a missing entry is `FileNotFoundError`. */
  function TagPair(archive: map<string, Xml>, entry: string, first: string, second: string)
    : Result<(int, int), RunError>
  {
    if entry !in archive then Err(FileNotFoundError(entry))
    else
      var root := archive[entry];
      match IntOf(TagValue(FindAll(root, first)))
      case Err(e) => Err(e)
      case Ok(a) =>
        match IntOf(TagValue(FindAll(root, second)))
        case Err(e) => Err(e)
        case Ok(b) => Ok((a, b))
  }

  /** (rows, cols) as `__get_grid` reads them. */
  function Grid(archive: map<string, Xml>): Result<(int, int), RunError> {
    TagPair(archive, BCF_GRID_PROPERTIES, "Row", "Column")
  }

  /** (height, width) as `__get_image_size` reads them. */
  function ImageSize(archive: map<string, Xml>): Result<(int, int), RunError> {
    TagPair(archive, BCF_IMAGE_SIZE_PROPERTIES, "Height", "Width")
  }

  /** A properties entry holding each of the two tags once, with a
      number's decimal text, reads back as the two numbers; without the
      entry the read fails with `FileNotFoundError` for it. */
  lemma TagPairOf(archive: map<string, Xml>, entry: string, first: string, second: string, a: int, b: int)
    requires first != second
    ensures entry !in archive ==> TagPair(archive, entry, first, second) == Err(FileNotFoundError(entry))
    ensures var with := archive[entry := map[first := [Some(IntToString(a))], second := [Some(IntToString(b))]]];
            TagPair(with, entry, first, second) == Ok((a, b))
  {
    ParseIntOfString(a);
    ParseIntOfString(b);
  }

  /** A tag that occurs twice in the entry fails the read. */
  lemma TagPairRepeated(archive: map<string, Xml>, entry: string, first: string, second: string)
    requires entry in archive && |FindAll(archive[entry], first)| >= 2
    ensures TagPair(archive, entry, first, second) == Err(AssertionError)
  {
  }

  /** `__get_channels` over the pairs `names`: for each pair whose
      properties entry is present, the tile channel name maps to the
      entry's "Comment" text, in the pairs' order. */
  function ChannelsOf(archive: map<string, Xml>, names: seq<(string, string)>)
    : Result<Dict<string, Option<string>>, RunError>
  {
    if names == [] then Ok(Empty())
    else
      match ChannelsOf(archive, names[..|names| - 1])
      case Err(e) => Err(e)
      case Ok(d) =>
        var (file, key) := names[|names| - 1];
        var entry := ChannelProperties(file);
        if entry !in archive then Ok(d)
        else
          match TagValue(FindAll(archive[entry], "Comment"))
          case Err(e) => Err(e)
          case Ok(comment) => Ok(Store(d, key, comment))
  }

  /** `__get_channels`: the channels of `BCF_CHANNEL_NAMES` the archive
      describes. */
  function Channels(archive: map<string, Xml>): Result<Dict<string, Option<string>>, RunError> {
    ChannelsOf(archive, ChannelNames())
  }

  /** The channel pairs whose properties entry is present and whose
      "Comment" occurs at most once. */
  predicate Readable(archive: map<string, Xml>, file: string) {
    ChannelProperties(file) in archive ==> |FindAll(archive[ChannelProperties(file)], "Comment")| <= 1
  }

  /** Reading the channels fails exactly when some present entry has two
      comments; otherwise a tile channel name is a key exactly when its
      archive channel's entry is present, and maps to that entry's comment. */
  lemma {:induction false} ChannelsOfSpec(archive: map<string, Xml>, names: seq<(string, string)>, i: nat)
    requires forall p, q :: 0 <= p < q < |names| ==> names[p].1 != names[q].1
    ensures ChannelsOf(archive, names).Ok? <==> forall j :: 0 <= j < |names| ==> Readable(archive, names[j].0)
    ensures ChannelsOf(archive, names).Ok? ==> Valid(ChannelsOf(archive, names).value)
    ensures ChannelsOf(archive, names).Ok? ==>
              forall k :: k in ChannelsOf(archive, names).value.entries ==> exists j :: 0 <= j < |names| && names[j].1 == k
    ensures ChannelsOf(archive, names).Ok? && i < |names| ==>
              var d := ChannelsOf(archive, names).value;
              var entry := ChannelProperties(names[i].0);
              && (names[i].1 in d.entries <==> entry in archive)
              && (entry in archive ==> d.entries[names[i].1] == TagValue(FindAll(archive[entry], "Comment")).value)
  {
    if names != [] {
      var front := names[..|names| - 1];
      assert forall j :: 0 <= j < |front| ==> front[j] == names[j];
      ChannelsOfSpec(archive, front, i);
      if ChannelsOf(archive, front).Ok? {
        var d := ChannelsOf(archive, front).value;
        var (file, key) := names[|names| - 1];
        var entry := ChannelProperties(file);
        if entry in archive && |FindAll(archive[entry], "Comment")| <= 1 {
          StoreValid(d, key, TagValue(FindAll(archive[entry], "Comment")).value);
        }
        if i < |front| {
          assert names[i].1 != key;
        }
      }
    }
  }

  // ---------------------------------------------------------------------------
  // Tile file names
  // ---------------------------------------------------------------------------

  /** The groups of `KEYENCE_TILE_PATTERN`, `(.*)_([0-9]{5})_(.*).tif`, for
      one file: the prefix, the tile number and the channel. */
  datatype ImageInfo = ImageInfo(prefix: string, number: int, channel: string)

  /** `_([0-9]{5})_` at `i`. */
  predicate TokenAt(t: string, i: nat) {
    i + 7 <= |t| && t[i] == '_' && AllDigits(t[i + 1..i + 6]) && t[i + 6] == '_'
  }

  /** `.tif` at `j`: any character, then "tif". */
  predicate TailAt(t: string, j: nat) {
    j + 4 <= |t| && t[j + 1..j + 4] == "tif"
  }

  /** The last `.tif` starting below `n`. */
  function LastTail(t: string, n: nat): (r: Option<nat>)
    ensures r.Some? ==> r.value < n && TailAt(t, r.value) && forall k :: r.value < k < n ==> !TailAt(t, k)
    ensures r.None? ==> forall k :: 0 <= k < n ==> !TailAt(t, k)
  {
    if n == 0 then None
    else if TailAt(t, n - 1) then Some(n - 1)
    else LastTail(t, n - 1)
  }

  /** The last `_ddddd_` starting below `n`. */
  function LastToken(t: string, n: nat): (r: Option<nat>)
    ensures r.Some? ==> r.value < n && TokenAt(t, r.value) && forall k :: r.value < k < n ==> !TokenAt(t, k)
    ensures r.None? ==> forall k :: 0 <= k < n ==> !TokenAt(t, k)
  {
    if n == 0 then None
    else if TokenAt(t, n - 1) then Some(n - 1)
    else LastToken(t, n - 1)
  }

  /** The pattern matched from the start of a line without newlines: both
      `(.*)` are greedy, so the prefix runs to the last `_ddddd_` that still
      has a `.tif` after it, and the channel to the last `.tif`. */
  function MatchLine(t: string): Option<ImageInfo> {
    match LastTail(t, |t|)
    case None => None
    case Some(j) =>
      if j < 7 then None
      else
        match LastToken(t, j - 6)
        case None => None
        case Some(i) => Some(ImageInfo(t[..i], DigitsValue(t[i + 1..i + 6]), t[i + 7..j]))
  }

  /** `re.search` over the lines of a name: `.` matches no newline, so the
      leftmost match starts at the beginning of the first line that has one. */
  function SearchLines(lines: seq<string>): Option<ImageInfo> {
    if lines == [] then None
    else
      match MatchLine(lines[0])
      case Some(g) => Some(g)
      case None => SearchLines(lines[1..])
  }

  /** `re.search(KEYENCE_TILE_PATTERN, image)`; `None` when nothing matches. */
  function KeyenceMatch(image: string): Option<ImageInfo> {
    SearchLines(Split(image, '\n'))
  }

  /** What a match means: the line is the prefix, `_`, five digits whose
      value is the number, `_`, the channel, then `.tif`; no `_ddddd_`
      starts inside what follows the prefix's token before that `.tif`, and
      no `.tif` starts after it. */
  lemma MatchLineSpec(t: string)
    requires MatchLine(t).Some?
    ensures var g := MatchLine(t).value;
            var p, j := |g.prefix|, |g.prefix| + 7 + |g.channel|;
            && TokenAt(t, p) && TailAt(t, j)
            && t[..p] == g.prefix && t[p + 7..j] == g.channel
            && g.number == DigitsValue(t[p + 1..p + 6]) && 0 <= g.number < 100000
            && (forall i :: p < i && i + 7 <= j ==> !TokenAt(t, i))
            && (forall k :: j < k ==> !TailAt(t, k))
  {
    var g := MatchLine(t).value;
    var j := LastTail(t, |t|).value;
    var i := LastToken(t, j - 6).value;
    DigitsValueUpperBound(t[i + 1..i + 6]);
    assert Pow10(5) == 100000 by {
      assert Pow10(1) == 10 && Pow10(2) == 100 && Pow10(3) == 1000 && Pow10(4) == 10000;
    }
  }

  /** A name without newlines is searched as one line. */
  lemma KeyenceMatchOneLine(image: string)
    requires '\n' !in image
    ensures KeyenceMatch(image) == MatchLine(image)
  {
    SplitNoSep(image, '\n');
    var lines := Split(image, '\n');
    assert lines == [image] && lines[0] == image && lines[1..] == [];
    assert SearchLines(lines[1..]) == None;
  }

  /** The Keyence file name `<prefix>_<digits>_<channel>.tif`. */
  function KeyenceName(prefix: string, digits: string, channel: string): string {
    prefix + "_" + digits + "_" + channel + ".tif"
  }

  /** Where the parts of a Keyence file name sit. */
  lemma KeyenceNameLayout(prefix: string, digits: string, channel: string)
    requires |digits| == 5
    ensures var t, p := KeyenceName(prefix, digits, channel), |prefix|;
            var j := p + 7 + |channel|;
            && |t| == j + 4 && t[..p] == prefix && t[p] == '_' && t[p + 1..p + 6] == digits
            && t[p + 6] == '_' && t[p + 7..j] == channel && t[j] == '.' && t[j + 1..j + 4] == "tif"
            && (forall k :: 0 <= k < p ==> t[k] == prefix[k])
            && (forall k :: p + 1 <= k < p + 6 ==> t[k] == digits[k - p - 1])
            && (forall k :: p + 7 <= k < j ==> t[k] == channel[k - p - 7])
  {
  }

  /** Digits and the name's punctuation are not newlines. */
  lemma KeyenceNameOneLine(prefix: string, digits: string, channel: string)
    requires |digits| == 5 && AllDigits(digits)
    requires '\n' !in prefix && '\n' !in channel
    ensures '\n' !in KeyenceName(prefix, digits, channel)
  {
    var t := KeyenceName(prefix, digits, channel);
    KeyenceNameLayout(prefix, digits, channel);
    var p, j := |prefix|, |prefix| + 7 + |channel|;
    forall k | 0 <= k < |t|
      ensures t[k] != '\n'
    {
      if k < p {
        assert t[k] == prefix[k];
      } else if p + 7 <= k < j {
        assert t[k] == channel[k - p - 7];
      } else if p < k < p + 6 {
        assert t[k] == digits[k - p - 1];
      } else if j < k {
        assert t[k] == t[j + 1..j + 4][k - j - 1];
      }
    }
  }

  /** A Keyence name's last `.tif` is its extension. */
  lemma LastTailOfName(prefix: string, digits: string, channel: string)
    requires |digits| == 5
    ensures LastTail(KeyenceName(prefix, digits, channel), |KeyenceName(prefix, digits, channel)|)
            == Some(|prefix| + 7 + |channel|)
  {
    var t := KeyenceName(prefix, digits, channel);
    KeyenceNameLayout(prefix, digits, channel);
    assert TailAt(t, |t| - 4);
  }

  /** A Keyence name's last `_ddddd_` before its extension is the one after
      the prefix, when the channel has no '_'. */
  lemma LastTokenOfName(prefix: string, digits: string, channel: string)
    requires |digits| == 5 && AllDigits(digits) && '_' !in channel
    ensures LastToken(KeyenceName(prefix, digits, channel), |prefix| + 1 + |channel|) == Some(|prefix|)
  {
    var t := KeyenceName(prefix, digits, channel);
    KeyenceNameLayout(prefix, digits, channel);
    var p, j := |prefix|, |prefix| + 7 + |channel|;
    assert TokenAt(t, p);
    forall i | p < i && i + 7 <= j
      ensures !TokenAt(t, i)
    {
      if i < p + 6 {
        assert t[i] == digits[i - p - 1];
      } else {
        assert t[i + 6] == channel[i + 6 - p - 7];
      }
    }
  }

  /** The line pattern splits a Keyence name at its last token and its
      `.tif`. */
  lemma MatchLineOfName(prefix: string, digits: string, channel: string)
    requires |digits| == 5 && AllDigits(digits) && '_' !in channel
    ensures MatchLine(KeyenceName(prefix, digits, channel)) == Some(ImageInfo(prefix, DigitsValue(digits), channel))
  {
    KeyenceNameLayout(prefix, digits, channel);
    LastTailOfName(prefix, digits, channel);
    LastTokenOfName(prefix, digits, channel);
  }

  /** A name built by the Keyence convention, `<prefix>_<ddddd>_<channel>.tif`
      with a channel free of '_', reads back as its three parts, whatever
      '_' or digit runs the prefix holds. */
  lemma KeyenceMatchOfName(prefix: string, digits: string, channel: string)
    requires |digits| == 5 && AllDigits(digits)
    requires '\n' !in prefix && '\n' !in channel && '_' !in channel
    ensures KeyenceMatch(KeyenceName(prefix, digits, channel)) == Some(ImageInfo(prefix, DigitsValue(digits), channel))
  {
    KeyenceNameOneLine(prefix, digits, channel);
    KeyenceMatchOneLine(KeyenceName(prefix, digits, channel));
    MatchLineOfName(prefix, digits, channel);
  }

  /** The value of five digits. */
  lemma FiveDigits(a: char, b: char, c: char, d: char, e: char)
    requires IsDigit(a) && IsDigit(b) && IsDigit(c) && IsDigit(d) && IsDigit(e)
    ensures DigitsValue([a, b, c, d, e])
            == (((DigitValue(a) * 10 + DigitValue(b)) * 10 + DigitValue(c)) * 10 + DigitValue(d)) * 10 + DigitValue(e)
  {
    assert [a][..0] == [];
    assert DigitsValue([a]) == DigitValue(a);
    assert [a, b][..1] == [a];
    assert DigitsValue([a, b]) == DigitValue(a) * 10 + DigitValue(b);
    assert [a, b, c][..2] == [a, b];
    assert DigitsValue([a, b, c]) == (DigitValue(a) * 10 + DigitValue(b)) * 10 + DigitValue(c);
    assert [a, b, c, d][..3] == [a, b, c];
    assert DigitsValue([a, b, c, d]) == ((DigitValue(a) * 10 + DigitValue(b)) * 10 + DigitValue(c)) * 10 + DigitValue(d);
    assert [a, b, c, d, e][..4] == [a, b, c, d];
  }

  /** For instance "XY02_00013_CH2.tif" is tile 13 of channel CH2. */
  lemma KeyenceMatchExample()
    ensures KeyenceMatch("XY02_00013_CH2.tif") == Some(ImageInfo("XY02", 13, "CH2"))
  {
    var name := KeyenceName("XY02", "00013", "CH2");
    KeyenceMatchOfName("XY02", "00013", "CH2");
    ExampleParts(name, "XY02_00013_CH2.tif", "00013", 13);
  }

  /** In "a_00001_b_00002_CH1.tif" the greedy prefix swallows the first
      token, so the file is tile 2. */
  lemma KeyenceMatchGreedyExample()
    ensures KeyenceMatch("a_00001_b_00002_CH1.tif") == Some(ImageInfo("a_00001_b", 2, "CH1"))
  {
    var name := KeyenceName("a_00001_b", "00002", "CH1");
    KeyenceMatchOfName("a_00001_b", "00002", "CH1");
    ExampleParts(name, "a_00001_b_00002_CH1.tif", "00002", 2);
  }

  /** The spelled-out names and numbers of the two examples. */
  lemma ExampleParts(name: string, literal: string, digits: string, n: int)
    requires (name, literal, digits, n) == (KeyenceName("XY02", "00013", "CH2"), "XY02_00013_CH2.tif", "00013", 13)
             || (name, literal, digits, n) == (KeyenceName("a_00001_b", "00002", "CH1"), "a_00001_b_00002_CH1.tif", "00002", 2)
    ensures name == literal && AllDigits(digits) && DigitsValue(digits) == n
  {
    if n == 13 {
      FiveDigits('0', '0', '0', '1', '3');
      assert digits == ['0', '0', '0', '1', '3'];
    } else {
      FiveDigits('0', '0', '0', '0', '2');
      assert digits == ['0', '0', '0', '0', '2'];
    }
  }

  // ---------------------------------------------------------------------------
  // Images and complete channels
  // ---------------------------------------------------------------------------

  /** The `images` dict the first loop of `__get_images` builds from the
      folder's `.tif` names, for a pattern search `search`: each name's
      groups under the name; a name the search does not match raises
      (`match.groups()` of `None`). */
  function ImagesBy(search: string -> Option<ImageInfo>, names: seq<string>)
    : (r: Result<Dict<string, ImageInfo>, RunError>)
    ensures r.Ok? ==> Valid(r.value)
  {
    if names == [] then Ok(Empty())
    else
      match ImagesBy(search, names[..|names| - 1])
      case Err(e) => Err(e)
      case Ok(d) =>
        var f := names[|names| - 1];
        match search(f)
        case None => Err(AttributeError(f))
        case Some(g) => StoreValid(d, f, g); Ok(Store(d, f, g))
  }

  /** The `images` dict for `KEYENCE_TILE_PATTERN`. */
  function Images(names: seq<string>): Result<Dict<string, ImageInfo>, RunError> {
    ImagesBy(KeyenceMatch, names)
  }

  /** Once a prefix of the names fails, all of them fail the same way. */
  lemma {:induction false} ImagesKeepsFirstError(search: string -> Option<ImageInfo>, names: seq<string>, k: nat)
    requires k <= |names| && ImagesBy(search, names[..k]).Err?
    ensures ImagesBy(search, names) == ImagesBy(search, names[..k])
    decreases |names| - k
  {
    if k < |names| {
      assert names[..k + 1][..k] == names[..k];
      ImagesKeepsFirstError(search, names, k + 1);
    } else {
      assert names[..k] == names;
    }
  }

  /** The names are read exactly when each of them matches. */
  lemma {:induction false} ImagesOkIff(search: string -> Option<ImageInfo>, names: seq<string>)
    ensures ImagesBy(search, names).Ok? <==> forall i :: 0 <= i < |names| ==> search(names[i]).Some?
  {
    if names != [] {
      var front := names[..|names| - 1];
      ImagesOkIff(search, front);
      if ImagesBy(search, front).Err? {
        var i :| 0 <= i < |front| && search(front[i]).None?;
        assert front[i] == names[i];
      } else if search(names[|names| - 1]).Some? {
        forall i | 0 <= i < |names|
          ensures search(names[i]).Some?
        {
          if i < |front| {
            assert names[i] == front[i];
          }
        }
      }
    }
  }

  /** Read names are the keys, each holding its own groups, and nothing
      else is a key. */
  lemma {:induction false} ImagesEntries(search: string -> Option<ImageInfo>, names: seq<string>)
    requires ImagesBy(search, names).Ok?
    ensures forall f :: f in ImagesBy(search, names).value.entries <==> f in names
    ensures forall f :: f in ImagesBy(search, names).value.entries ==>
              search(f) == Some(ImagesBy(search, names).value.entries[f])
  {
    if names != [] {
      var front := names[..|names| - 1];
      var f := names[|names| - 1];
      ImagesEntries(search, front);
      var d := ImagesBy(search, front).value;
      var g := search(f).value;
      assert ImagesBy(search, names).value.entries == d.entries[f := g];
      forall x
        ensures x in d.entries[f := g] <==> x in names
      {
        assert x in names <==> x in front || x == f by {
          assert names == front + [f];
        }
      }
    }
  }

  /** `{c: set() for c in [image['channel'] for image in images.values()]}`:
      each channel once, in the order it first occurs. */
  function ChannelKeys(infos: seq<ImageInfo>): Dict<string, set<int>> {
    if infos == [] then Empty()
    else Store(ChannelKeys(infos[..|infos| - 1]), infos[|infos| - 1].channel, {})
  }

  /** The second loop: each image's number added to its channel's set
      (every channel already has one). */
  function AddNumbers(d: Dict<string, set<int>>, infos: seq<ImageInfo>): Dict<string, set<int>> {
    if infos == [] then d
    else
      var e := AddNumbers(d, infos[..|infos| - 1]);
      var c := infos[|infos| - 1].channel;
      Store(e, c, (if c in e.entries then e.entries[c] else {}) + {infos[|infos| - 1].number})
  }

  /** `image_numbers`: each channel's set of tile numbers. */
  function Numbers(infos: seq<ImageInfo>): (d: Dict<string, set<int>>)
    ensures Valid(d)
  {
    ChannelKeysSpec(infos);
    AddNumbersSpec(ChannelKeys(infos), infos, "");
    AddNumbers(ChannelKeys(infos), infos)
  }

  /** The tile numbers of the images of channel `k`. */
  function NumbersOf(infos: seq<ImageInfo>, k: string): (ns: set<int>)
    ensures forall n :: n in ns <==> exists i :: 0 <= i < |infos| && infos[i].channel == k && infos[i].number == n
  {
    if infos == [] then {}
    else
      var front := infos[..|infos| - 1];
      var last := infos[|infos| - 1];
      assert forall i :: 0 <= i < |front| ==> front[i] == infos[i];
      NumbersOf(front, k) + (if last.channel == k then {last.number} else {})
  }

  /** The first loop keys the dict by the channels that occur, each with an
      empty set. */
  lemma {:induction false} ChannelKeysSpec(infos: seq<ImageInfo>)
    ensures Valid(ChannelKeys(infos))
    ensures forall k :: k in ChannelKeys(infos).entries <==> exists i :: 0 <= i < |infos| && infos[i].channel == k
    ensures forall k :: k in ChannelKeys(infos).entries ==> ChannelKeys(infos).entries[k] == {}
  {
    if infos != [] {
      var front := infos[..|infos| - 1];
      ChannelKeysSpec(front);
      StoreValid(ChannelKeys(front), infos[|infos| - 1].channel, {});
      assert forall i :: 0 <= i < |front| ==> front[i] == infos[i];
    }
  }

  /** The second loop keeps the keys and adds each channel's numbers to its
      set. */
  lemma {:induction false} AddNumbersSpec(d: Dict<string, set<int>>, infos: seq<ImageInfo>, k: string)
    requires Valid(d) && forall i :: 0 <= i < |infos| ==> infos[i].channel in d.entries
    ensures Valid(AddNumbers(d, infos)) && AddNumbers(d, infos).keys == d.keys
    ensures AddNumbers(d, infos).entries.Keys == d.entries.Keys
    ensures k in d.entries ==> AddNumbers(d, infos).entries[k] == d.entries[k] + NumbersOf(infos, k)
  {
    if infos != [] {
      var front := infos[..|infos| - 1];
      assert forall i :: 0 <= i < |front| ==> front[i] == infos[i];
      AddNumbersSpec(d, front, k);
      var e := AddNumbers(d, front);
      var last := infos[|infos| - 1];
      StoreValid(e, last.channel, e.entries[last.channel] + {last.number});
    }
  }

  /** `image_numbers` has a key for each channel that occurs, holding the
      numbers of that channel's images. */
  lemma NumbersSpec(infos: seq<ImageInfo>, k: string)
    ensures Valid(Numbers(infos))
    ensures k in Numbers(infos).entries <==> exists i :: 0 <= i < |infos| && infos[i].channel == k
    ensures k in Numbers(infos).entries ==> Numbers(infos).entries[k] == NumbersOf(infos, k)
  {
    ChannelKeysSpec(infos);
    AddNumbersSpec(ChannelKeys(infos), infos, k);
  }

  /** `set(range(1, count + 1))`. */
  function Full(count: int): (s: set<int>)
    ensures forall n :: n in s <==> 1 <= n <= count
  {
    if count < 1 then {} else Full(count - 1) + {count}
  }

  /** The keys in `keys` whose set is exactly 1..count, in order. */
  function ValidIn(keys: seq<string>, entries: map<string, set<int>>, count: int): seq<string>
    requires forall i :: 0 <= i < |keys| ==> keys[i] in entries
  {
    if keys == [] then []
    else
      var last := keys[|keys| - 1];
      ValidIn(keys[..|keys| - 1], entries, count) + (if entries[last] == Full(count) then [last] else [])
  }

  /** `valid_channels`: the channels, in dict order, whose numbers are
      exactly 1..rows*cols. */
  function ValidChannels(d: Dict<string, set<int>>, count: int): seq<string>
    requires Valid(d)
  {
    ValidIn(d.keys, d.entries, count)
  }

  /** A key is kept exactly when its set is 1..count. */
  lemma {:induction false} ValidInSpec(keys: seq<string>, entries: map<string, set<int>>, count: int, k: string)
    requires forall i :: 0 <= i < |keys| ==> keys[i] in entries
    ensures k in ValidIn(keys, entries, count) <==> k in keys && entries[k] == Full(count)
  {
    if keys != [] {
      var front := keys[..|keys| - 1];
      ValidInSpec(front, entries, count, k);
      assert keys == front + [keys[|keys| - 1]];
    }
  }

  /** A channel is valid exactly when some image has it and the numbers of
      its images are exactly 1..count: a missing number or an extra one
      makes it invalid. */
  lemma ValidChannelIff(infos: seq<ImageInfo>, count: int, k: string)
    ensures Valid(Numbers(infos))
    ensures k in ValidChannels(Numbers(infos), count) <==>
              (exists i :: 0 <= i < |infos| && infos[i].channel == k) && NumbersOf(infos, k) == Full(count)
  {
    NumbersSpec(infos, k);
    ValidInSpec(Numbers(infos).keys, Numbers(infos).entries, count, k);
  }

  /** A channel with no image numbered `n`, for some n in 1..count, is not
      valid. */
  lemma MissingTileInvalidates(infos: seq<ImageInfo>, count: int, k: string, n: int)
    requires 1 <= n <= count
    requires forall i :: 0 <= i < |infos| && infos[i].channel == k ==> infos[i].number != n
    ensures k !in ValidChannels(Numbers(infos), count)
  {
    ValidChannelIff(infos, count, k);
    assert n in Full(count) && n !in NumbersOf(infos, k);
  }

  /** A channel with an image numbered outside 1..count is not valid. */
  lemma ExtraTileInvalidates(infos: seq<ImageInfo>, count: int, k: string, i: nat)
    requires i < |infos| && infos[i].channel == k && !(1 <= infos[i].number <= count)
    ensures k !in ValidChannels(Numbers(infos), count)
  {
    ValidChannelIff(infos, count, k);
    assert infos[i].number in NumbersOf(infos, k) && infos[i].number !in Full(count);
  }

  /** The first loop of `__get_images`: each name's groups stored under the
      name, or the first name the pattern does not match. */
  method ReadImages(names: seq<string>) returns (r: Result<Dict<string, ImageInfo>, RunError>)
    ensures r == Images(names)
  {
    var images := Empty();
    var k := 0;
    assert names[..0] == [];
    while k < |names|
      invariant 0 <= k <= |names|
      invariant Images(names[..k]) == Ok(images)
    {
      assert names[..k + 1][..k] == names[..k];
      var image := names[k];
      var matched := KeyenceMatch(image);
      if matched.None? {
        ImagesKeepsFirstError(KeyenceMatch, names, k + 1);
        return Err(AttributeError(image));
      }
      images := Store(images, image, matched.value);
      k := k + 1;
    }
    assert names[..k] == names;
    return Ok(images);
  }

  /** The dict comprehension and the loop that fill `image_numbers`. */
  method NumbersByChannel(infos: seq<ImageInfo>) returns (d: Dict<string, set<int>>)
    ensures d == Numbers(infos)
  {
    d := Empty();
    var k := 0;
    assert infos[..0] == [];
    while k < |infos|
      invariant 0 <= k <= |infos|
      invariant d == ChannelKeys(infos[..k])
    {
      assert infos[..k + 1][..k] == infos[..k];
      d := Store(d, infos[k].channel, {});
      k := k + 1;
    }
    assert infos[..k] == infos;
    ghost var keyed := d;
    ChannelKeysSpec(infos);
    k := 0;
    while k < |infos|
      invariant 0 <= k <= |infos|
      invariant d == AddNumbers(keyed, infos[..k])
    {
      assert infos[..k + 1][..k] == infos[..k];
      var c := infos[k].channel;
      d := Store(d, c, (if c in d.entries then d.entries[c] else {}) + {infos[k].number});
      k := k + 1;
    }
    assert infos[..k] == infos;
  }

  /** The list comprehension for `valid_channels`. */
  method CompleteChannels(d: Dict<string, set<int>>, count: int) returns (valid: seq<string>)
    requires Valid(d)
    ensures valid == ValidChannels(d, count)
  {
    var full := Full(count);
    valid := [];
    var k := 0;
    assert d.keys[..0] == [];
    while k < |d.keys|
      invariant 0 <= k <= |d.keys|
      invariant valid == ValidIn(d.keys[..k], d.entries, count)
    {
      assert d.keys[..k + 1][..k] == d.keys[..k];
      if d.entries[d.keys[k]] == full {
        valid := valid + [d.keys[k]];
      }
      k := k + 1;
    }
    assert d.keys[..k] == d.keys;
  }

  /** What `__get_images` leaves in `self.images` for a grid of `count`
      tiles, or why it raises: every matched name is kept, whether its
      channel is complete or not, once at least one channel is complete;
      with none, formatting the message (`len` of an int) raises
      `TypeError`. */
  function ImagesOf(names: seq<string>, count: int): Result<Dict<string, ImageInfo>, RunError> {
    match Images(names)
    case Err(e) => Err(e)
    case Ok(d) => if HasCompleteChannel(d, count) then Ok(d) else Err(TypeError)
  }

  /** Some channel of the images has exactly the tile numbers 1..count. */
  predicate HasCompleteChannel(images: Dict<string, ImageInfo>, count: int)
    requires Valid(images)
  {
    ValidChannels(Numbers(Values(images)), count) != []
  }

  // ---------------------------------------------------------------------------
  // Opening a run
  // ---------------------------------------------------------------------------

  /** `__get_bcf`: the folder's `.bcf` files must be exactly one. */
  function Bcf(bcfFiles: seq<string>): (r: Result<string, RunError>)
    ensures r.Ok? <==> |bcfFiles| == 1
    ensures r.Ok? ==> r.value == bcfFiles[0]
    ensures r.Err? ==> r.error == AssertionError
  {
    if |bcfFiles| == 1 then Ok(bcfFiles[0]) else Err(AssertionError)
  }

  /** What the archive says about a run: the grid, the channels and the
      size of one tile. */
  datatype Properties = Properties(
    rows: int,
    cols: int,
    channels: Dict<string, Option<string>>,
    imageSize: (int, int))

  /** What a successfully opened run holds. */
  datatype RunInfo = RunInfo(path: string, bcf: string, properties: Properties, images: Dict<string, ImageInfo>)

  /** `__get_grid`, `__get_channels` and `__get_image_size` in the order
      `__init__` calls them, the first exception ending the reading. */
  function ReadProperties(archive: map<string, Xml>): Result<Properties, RunError> {
    match Grid(archive)
    case Err(e) => Err(e)
    case Ok(grid) =>
      match Channels(archive)
      case Err(e) => Err(e)
      case Ok(channels) =>
        match ImageSize(archive)
        case Err(e) => Err(e)
        case Ok(size) => Ok(Properties(grid.0, grid.1, channels, size))
  }

  /** `KeyenceRun(path)` for a folder whose `.bcf` files are `bcfFiles`,
      whose archive holds the entries `archive` and whose `.tif` files have
      the base names `names`: the `.bcf` file, then the archive's
      properties, then the images, the first exception ending it. */
  function Load(path: string, bcfFiles: seq<string>, archive: map<string, Xml>, names: seq<string>)
    : Result<RunInfo, RunError>
  {
    match Bcf(bcfFiles)
    case Err(e) => Err(e)
    case Ok(bcf) =>
      match ReadProperties(archive)
      case Err(e) => Err(e)
      case Ok(p) =>
        match ImagesOf(names, p.rows * p.cols)
        case Err(e) => Err(e)
        case Ok(images) => Ok(RunInfo(path, bcf, p, images))
  }

  /** A folder without exactly one `.bcf` file cannot be opened. */
  lemma LoadNeedsOneBcf(path: string, bcfFiles: seq<string>, archive: map<string, Xml>, names: seq<string>)
    requires |bcfFiles| != 1
    ensures Load(path, bcfFiles, archive, names) == Err(AssertionError)
  {
  }

  /** A folder whose archive lacks the grid entry cannot be opened. */
  lemma LoadNeedsGrid(path: string, bcfFiles: seq<string>, archive: map<string, Xml>, names: seq<string>)
    requires |bcfFiles| == 1 && BCF_GRID_PROPERTIES !in archive
    ensures Load(path, bcfFiles, archive, names) == Err(FileNotFoundError(BCF_GRID_PROPERTIES))
  {
  }

  /** The channels read from the archive: CHn is a key exactly when the
      entry of Channel(n-1) is present, holding that entry's comment. */
  lemma ChannelsSpec(archive: map<string, Xml>, i: nat)
    requires Channels(archive).Ok? && i < 5
    ensures var d := Channels(archive).value;
            var entry := ChannelProperties(ChannelNames()[i].0);
            && Valid(d)
            && (ChannelNames()[i].1 in d.entries <==> entry in archive)
            && (entry in archive ==> TagValue(FindAll(archive[entry], "Comment")) == Ok(d.entries[ChannelNames()[i].1]))
  {
    ChannelNamesLiteral();
    ChannelsOfSpec(archive, ChannelNames(), i);
  }

  /** Read images hold every `.tif` name with its groups, and at least one
      channel whose tile numbers are exactly 1..count. */
  lemma ImagesOfSpec(names: seq<string>, count: int)
    requires ImagesOf(names, count).Ok?
    ensures var images := ImagesOf(names, count).value;
            && Valid(images)
            && (forall f :: f in images.entries <==> f in names)
            && (forall f :: f in images.entries ==> KeyenceMatch(f) == Some(images.entries[f]))
            && exists k :: (exists f :: f in images.entries && images.entries[f].channel == k)
                           && NumbersOf(Values(images), k) == Full(count)
  {
    var images := ImagesOf(names, count).value;
    ImagesEntries(KeyenceMatch, names);
    var infos := Values(images);
    var k := ValidChannels(Numbers(infos), count)[0];
    ValidChannelIff(infos, count, k);
    var j :| 0 <= j < |infos| && infos[j].channel == k;
    var f := images.keys[j];
    assert f in images.entries && images.entries[f].channel == k;
  }

  /** One Keyence acquisition folder, read from its archive and its tile
      names. */
  class KeyenceRun {
    const path: string
    const bcf: string
    /** The entries of the `.bcf` archive (`self.bcfzip`). */
    const archive: map<string, Xml>
    var rows: int
    var cols: int
    /** Tile channel name to its comment, for the channels the archive
        describes. */
    var channels: Dict<string, Option<string>>
    /** (height, width) of one tile. */
    var imageSize: (int, int)
    /** Tile file name to its prefix, number and channel. */
    var images: Dict<string, ImageInfo>

    /** The state `__init__` has set up before reading the archive. */
    constructor (path: string, bcf: string, archive: map<string, Xml>)
      ensures this.path == path && this.bcf == bcf && this.archive == archive
    {
      this.path := path;
      this.bcf := bcf;
      this.archive := archive;
    }

    /** The fields as a value. */
    function Info(): RunInfo
      reads this
    {
      RunInfo(path, bcf, Properties(rows, cols, channels, imageSize), images)
    }

    /** `__get_grid`: the grid entry's "Row" and "Column". */
    method GetGrid() returns (err: Option<RunError>)
      modifies this`rows, this`cols
      ensures Grid(archive).Ok? ==> err == None && (rows, cols) == Grid(archive).value
      ensures Grid(archive).Err? ==> err == Some(Grid(archive).error)
    {
      if BCF_GRID_PROPERTIES !in archive {
        return Some(FileNotFoundError(BCF_GRID_PROPERTIES));
      }
      var root := archive[BCF_GRID_PROPERTIES];
      var row := GetTag(root, "Row");
      var r := IntOf(row);
      if r.Err? {
        return Some(r.error);
      }
      rows := r.value;
      var column := GetTag(root, "Column");
      var c := IntOf(column);
      if c.Err? {
        return Some(c.error);
      }
      cols := c.value;
      return None;
    }

    /** `__get_image_size`: the image size entry's "Height" and "Width". */
    method GetImageSize() returns (err: Option<RunError>)
      modifies this`imageSize
      ensures ImageSize(archive).Ok? ==> err == None && imageSize == ImageSize(archive).value
      ensures ImageSize(archive).Err? ==> err == Some(ImageSize(archive).error)
    {
      if BCF_IMAGE_SIZE_PROPERTIES !in archive {
        return Some(FileNotFoundError(BCF_IMAGE_SIZE_PROPERTIES));
      }
      var root := archive[BCF_IMAGE_SIZE_PROPERTIES];
      var height := GetTag(root, "Height");
      var h := IntOf(height);
      if h.Err? {
        return Some(h.error);
      }
      var width := GetTag(root, "Width");
      var w := IntOf(width);
      if w.Err? {
        return Some(w.error);
      }
      imageSize := (h.value, w.value);
      return None;
    }

    /** `__get_channels`: each channel pair whose properties entry is in the
        archive adds the tile channel name with the entry's "Comment". */
    method GetChannels() returns (err: Option<RunError>)
      modifies this`channels
      ensures Channels(archive).Ok? ==> err == None && channels == Channels(archive).value
      ensures Channels(archive).Err? ==> err == Some(Channels(archive).error)
    {
      var names := ChannelNames();
      channels := Empty();
      var k := 0;
      assert names[..0] == [];
      while k < |names|
        invariant 0 <= k <= |names|
        invariant ChannelsOf(archive, names[..k]) == Ok(channels)
      {
        assert names[..k + 1][..k] == names[..k];
        var entry := ChannelProperties(names[k].0);
        if entry in archive {
          var comment := GetTag(archive[entry], "Comment");
          if comment.Err? {
            ChannelsKeepsFirstError(archive, names, k + 1);
            return Some(comment.error);
          }
          channels := Store(channels, names[k].1, comment.value);
        }
        k := k + 1;
      }
      assert names[..k] == names;
      return None;
    }

    /** The three reads of the archive in `__init__`. */
    method ReadArchive() returns (err: Option<RunError>)
      modifies this`rows, this`cols, this`channels, this`imageSize
      ensures ReadProperties(archive).Ok? ==>
                err == None && Properties(rows, cols, channels, imageSize) == ReadProperties(archive).value
      ensures ReadProperties(archive).Err? ==> err == Some(ReadProperties(archive).error)
    {
      err := GetGrid();
      if err.Some? {
        return;
      }
      err := GetChannels();
      if err.Some? {
        return;
      }
      err := GetImageSize();
    }

    /** `__get_images` for the folder's `.tif` base names: every name must
        match the tile pattern, and some channel must have exactly the tile
        numbers 1..rows*cols; all matched names are kept, and the channels
        are left as they were. */
    method GetImages(names: seq<string>) returns (err: Option<RunError>)
      modifies this`images
      ensures ImagesOf(names, rows * cols).Ok? ==> err == None && images == ImagesOf(names, rows * cols).value
      ensures ImagesOf(names, rows * cols).Err? ==> err == Some(ImagesOf(names, rows * cols).error)
      ensures channels == old(channels)
    {
      var read := ReadImages(names);
      if read.Err? {
        return Some(read.error);
      }
      var numbers := NumbersByChannel(Values(read.value));
      var valid := CompleteChannels(numbers, rows * cols);
      if |valid| == 0 {
        return Some(TypeError);
      }
      images := read.value;
      return None;
    }
  }

  /** Once a prefix of the channel pairs fails, all of them fail the same
      way. */
  lemma {:induction false} ChannelsKeepsFirstError(archive: map<string, Xml>, names: seq<(string, string)>, k: nat)
    requires k <= |names| && ChannelsOf(archive, names[..k]).Err?
    ensures ChannelsOf(archive, names) == ChannelsOf(archive, names[..k])
    decreases |names| - k
  {
    if k < |names| {
      assert names[..k + 1][..k] == names[..k];
      ChannelsKeepsFirstError(archive, names, k + 1);
    } else {
      assert names[..k] == names;
    }
  }

  /** `KeyenceRun(path)`: the run, or the exception its construction
      raises. */
  method Open(path: string, bcfFiles: seq<string>, archive: map<string, Xml>, names: seq<string>)
    returns (r: Result<KeyenceRun, RunError>)
    ensures Load(path, bcfFiles, archive, names).Ok? <==> r.Ok?
    ensures r.Ok? ==> fresh(r.value) && r.value.Info() == Load(path, bcfFiles, archive, names).value
    ensures r.Err? ==> r.error == Load(path, bcfFiles, archive, names).error
  {
    if |bcfFiles| != 1 {
      return Err(AssertionError);
    }
    var run := new KeyenceRun(path, bcfFiles[0], archive);
    var err := run.ReadArchive();
    if err.Some? {
      return Err(err.value);
    }
    err := run.GetImages(names);
    if err.Some? {
      return Err(err.value);
    }
    return Ok(run);
  }
}
