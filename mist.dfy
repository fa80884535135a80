/** The glue to the MIST stitcher (`src/mist.py`, and the identical
    `iris/mist.py`): the field parsers for MIST's global-positions report,
    the report-to-corners loop, and the command line built from the shared
    option dictionary. */
module Mist {
  import opened Text
  import opened Dicts
  import Tiles

  const JAR_PATH: string := "fft2d-wdeps.jar"
  const FILENAME_PATTERN: string := "{ppppp}.tif"

  /** The exceptions a malformed report line raises. */
  datatype ParseError =
    | IndexError        // a missing ':' or a missing third ';' field
    | NoTileNumber      // the file name has no 5-digit run before "?tif"
    | BadPosition       // the position is not an "(x, y)" pair

  // ---------------------------------------------------------------------------
  // Field parsers
  // ---------------------------------------------------------------------------

  /** `from_colon_format(s)`: the text between the first and the second ':'
      without its surrounding whitespace; `IndexError` without any ':'. */
  function FromColonFormat(s: string): (r: Result<string, ParseError>)
    ensures r.Err? <==> ':' !in s
    ensures r.Ok? ==> ':' !in r.value
  {
    var parts := Split(s, ':');
    if |parts| < 2 then
      assert Join(parts, ':') == parts[0];
      Err(IndexError)
    else
      StripInside(parts[1]);
      Ok(Strip(parts[1]))
  }

  /** What Strip keeps of `s` is part of `s`: no character it lacks. */
  lemma StripInside(s: string)
    ensures forall c :: c in Strip(s) ==> c in s
  {
    StripRemovesOnlySpace(s);
    var a, b :| AllSpace(a) && AllSpace(b) && s == a + Strip(s) + b;
    forall c | c in Strip(s)
      ensures c in s
    {
      var k :| 0 <= k < |Strip(s)| && Strip(s)[k] == c;
      assert s[|a| + k] == c;
    }
  }

  /** `field: value` reads back as `value`, for a field name without ':'
      and a value with no ':' and no whitespace at its ends. */
  lemma FromColonFormatOf(field: string, value: string)
    requires ':' !in field && ':' !in value
    requires value == [] || (!IsSpace(value[0]) && !IsSpace(value[|value| - 1]))
    ensures FromColonFormat(Field(field, value)) == Ok(value)
  {
    var s := Field(field, value);
    assert s == field + [':'] + (" " + value);
    SplitAround(field, ':', " " + value);
    assert ':' !in " " + value;
    SplitNoSep(field, ':');
    SplitNoSep(" " + value, ':');
    StripPadded(" ", value, "");
    assert " " + value + "" == " " + value;
  }

  /** The regular expression `([0-9]{5}).tif` matches at `p`: five ASCII
      digits, any character but a newline, then "tif". */
  predicate MatchAt(s: string, p: nat) {
    p + 9 <= |s| && AllDigits(s[p..p + 5]) && s[p + 5] != '\n' && s[p + 6..p + 9] == "tif"
  }

  /** `re.search`: the leftmost match at or after `from`. */
  function FirstMatch(s: string, from: nat): (r: Option<nat>)
    ensures r.Some? ==> from <= r.value && MatchAt(s, r.value)
    decreases |s| - from
  {
    if from + 9 > |s| then None
    else if MatchAt(s, from) then Some(from)
    else FirstMatch(s, from + 1)
  }

  /** FirstMatch finds the leftmost match, and a miss means there is none. */
  lemma {:induction false} FirstMatchIsLeftmost(s: string, from: nat)
    ensures FirstMatch(s, from).Some? ==>
              var p := FirstMatch(s, from).value;
              from <= p && MatchAt(s, p) && forall q :: from <= q < p ==> !MatchAt(s, q)
    ensures FirstMatch(s, from).None? ==> forall q :: from <= q ==> !MatchAt(s, q)
    decreases |s| - from
  {
    if from + 9 <= |s| && !MatchAt(s, from) {
      FirstMatchIsLeftmost(s, from + 1);
    }
  }

  /** `filename_to_number(s)`: the value of the five digits of the leftmost
      match; `None` (the source's `AttributeError`) when nothing matches. */
  function FilenameToNumber(s: string): (r: Option<int>)
  {
    match FirstMatch(s, 0)
    case None => None
    case Some(p) => Some(DigitsValue(s[p..p + 5]))
  }

  /** The number is the value of the digits at the leftmost match, and there
      is one exactly when some position matches. */
  lemma FilenameToNumberSpec(s: string)
    ensures FilenameToNumber(s).None? <==> forall q: nat :: !MatchAt(s, q)
    ensures FilenameToNumber(s).Some? ==>
              exists p: nat :: MatchAt(s, p) && (forall q :: 0 <= q < p ==> !MatchAt(s, q))
                               && FilenameToNumber(s).value == DigitsValue(s[p..p + 5])
  {
    FirstMatchIsLeftmost(s, 0);
  }

  /** `filename_to_number(tile_fname(n)) == n` for every number the 5-digit
      padding covers. */
  lemma FilenameToNumberOfTileFname(n: int)
    requires 0 <= n < 100000
    ensures FilenameToNumber(Tiles.TileFname(n)) == Some(n)
  {
    var name := Tiles.TileFname(n);
    Tiles.TileFnameSpec(n);
    assert name[..5] == name[..|name| - 4];
    assert name[5] == '.';
    assert name[6..9] == "tif";
    assert MatchAt(name, 0);
  }

  /** The whitespace Python's tokenizer skips between the tokens of a
      bracketed expression: space, tab, form feed, CR and LF. Other
      characters `str.isspace` accepts, such as a vertical tab, are a
      `SyntaxError` there. */
  predicate IsBlank(c: char) {
    c == ' ' || c == '\t' || c as int == 12 || c == '\r' || c == '\n'
  }

  /** `s` without its leading blanks. */
  function SkipBlanks(s: string): (r: string)
    ensures |r| <= |s|
    ensures r == [] || !IsBlank(r[0])
  {
    if |s| > 0 && IsBlank(s[0]) then SkipBlanks(s[1..]) else s
  }

  /** `s` without its trailing blanks. */
  function DropBlanks(s: string): (r: string)
    ensures |r| <= |s|
    ensures r == [] || !IsBlank(r[|r| - 1])
  {
    if |s| > 0 && IsBlank(s[|s| - 1]) then DropBlanks(s[..|s| - 1]) else s
  }

  lemma SkipBlanksNone(s: string)
    requires s == [] || !IsBlank(s[0])
    ensures SkipBlanks(s) == s
  {
  }

  lemma DropBlanksNone(s: string)
    requires s == [] || !IsBlank(s[|s| - 1])
    ensures DropBlanks(s) == s
  {
  }

  /** SkipBlanks removes a run of blanks from the front and nothing else. */
  lemma {:induction false} SkipBlanksDrops(s: string)
    ensures var r := SkipBlanks(s);
            r == s[|s| - |r|..] && forall k :: 0 <= k < |s| - |r| ==> IsBlank(s[k])
  {
    if |s| > 0 && IsBlank(s[0]) {
      SkipBlanksDrops(s[1..]);
      var r := SkipBlanks(s[1..]);
      assert s[1..][|s| - 1 - |r|..] == s[|s| - |r|..];
      forall k | 1 <= k < |s| - |r|
        ensures IsBlank(s[k])
      {
        assert s[k] == s[1..][k - 1];
      }
    }
  }

  /** DropBlanks removes a run of blanks from the back and nothing else. */
  lemma {:induction false} DropBlanksDrops(s: string)
    ensures var r := DropBlanks(s);
            r == s[..|r|] && forall k :: |r| <= k < |s| ==> IsBlank(s[k])
  {
    if |s| > 0 && IsBlank(s[|s| - 1]) {
      DropBlanksDrops(s[..|s| - 1]);
      var r := DropBlanks(s[..|s| - 1]);
      assert s[..|s| - 1][..|r|] == s[..|r|];
      forall k | |r| <= k < |s| - 1
        ensures IsBlank(s[k])
      {
        assert s[k] == s[..|s| - 1][k];
      }
    }
  }

  /** A decimal integer literal of Python 3: digits that start with '0'
      only when every digit is '0' ("007" is a `SyntaxError`, "00" is 0). */
  predicate IsDecimalLiteral(d: string) {
    |d| >= 1 && AllDigits(d) && (d[0] == '0' ==> forall k :: 0 <= k < |d| ==> d[k] == '0')
  }

  /** One element of the integer pair `ast.literal_eval` reads: blanks, at
      most one sign, a decimal literal, blanks. */
  function LiteralInt(s: string): Option<int> {
    SignedLiteral(DropBlanks(SkipBlanks(s)))
  }

  /** A signed decimal literal without blanks around it. */
  function SignedLiteral(t: string): Option<int> {
    if |t| >= 1 && (t[0] == '-' || t[0] == '+') then
      if IsDecimalLiteral(t[1..]) then
        var magnitude: int := DigitsValue(t[1..]);
        Some(if t[0] == '-' then -magnitude else magnitude)
      else None
    else if IsDecimalLiteral(t) then Some(DigitsValue(t))
    else None
  }

  /** An accepted element holds only blanks, digits and signs: a vertical
      tab or any other whitespace the tokenizer refuses is rejected. */
  lemma LiteralIntChars(s: string)
    requires LiteralInt(s).Some?
    ensures forall k :: 0 <= k < |s| ==> IsBlank(s[k]) || IsDigit(s[k]) || s[k] == '-' || s[k] == '+'
  {
    var u := SkipBlanks(s);
    var t := DropBlanks(u);
    SkipBlanksDrops(s);
    DropBlanksDrops(u);
    assert AllDigits(t[1..]) || AllDigits(t);
    forall k | 0 <= k < |s|
      ensures IsBlank(s[k]) || IsDigit(s[k]) || s[k] == '-' || s[k] == '+'
    {
      var i := k - (|s| - |u|);
      if 0 <= i < |t| {
        assert s[k] == t[i];
        if i > 0 && t[0] in "-+" {
          assert t[i] == t[1..][i - 1];
        }
      } else if 0 <= i {
        assert s[k] == u[i];
      }
    }
  }

  /** A digit run that starts with '0' and holds another digit is refused,
      with or without a sign. */
  lemma LeadingZeroRejected(d: string, k: nat)
    requires AllDigits(d) && |d| >= 2 && d[0] == '0' && k < |d| && d[k] != '0'
    ensures LiteralInt(d) == None && LiteralInt("-" + d) == None
  {
    assert !IsDecimalLiteral(d);
    assert SkipBlanks(d) == d;
    assert IsDigit(d[|d| - 1]);
    assert DropBlanks(d) == d;
    var m := "-" + d;
    assert m[1..] == d;
    assert SkipBlanks(m) == m;
    assert m[|m| - 1] == d[|d| - 1];
    assert DropBlanks(m) == m;
  }

  /** `ast.literal_eval` of a position: "(x, y)" with two integer literals.
      A tuple of another length, a float, a nested bracket or any other
      literal is the `BadPosition` case. */
  function ParsePosition(s: string): (r: Result<(int, int), ParseError>)
    ensures r.Ok? ==> |s| >= 2 && s[0] == '(' && s[|s| - 1] == ')'
  {
    if |s| >= 2 && s[0] == '(' && s[|s| - 1] == ')' then
      var parts := Split(s[1..|s| - 1], ',');
      if |parts| == 2 then
        match (LiteralInt(parts[0]), LiteralInt(parts[1]))
        case (Some(x), Some(y)) => Ok((x, y))
        case _ => Err(BadPosition)
      else Err(BadPosition)
    else Err(BadPosition)
  }

  /** An accepted position holds nothing but blanks, digits, signs and one
      ',' between its brackets. */
  lemma ParsePositionChars(s: string)
    requires ParsePosition(s).Ok?
    ensures forall k :: 1 <= k < |s| - 1 ==> IsBlank(s[k]) || IsDigit(s[k]) || s[k] in "-+,"
  {
    var inner := s[1..|s| - 1];
    var parts := Split(inner, ',');
    assert Join(parts[1..], ',') == parts[1];
    assert inner == parts[0] + [','] + parts[1];
    LiteralIntChars(parts[0]);
    LiteralIntChars(parts[1]);
    forall k | 1 <= k < |s| - 1
      ensures IsBlank(s[k]) || IsDigit(s[k]) || s[k] in "-+,"
    {
      assert s[k] == inner[k - 1];
      if k - 1 > |parts[0]| {
        assert inner[k - 1] == parts[1][k - 2 - |parts[0]|];
      }
    }
  }

  /** The text of a position as MIST writes it: "(x, y)". */
  function PositionText(x: int, y: int): string {
    "(" + IntToString(x) + "," + (" " + IntToString(y)) + ")"
  }

  /** A decimal integer has no ',' and no whitespace at its ends. */
  lemma IntTextPlain(i: int)
    ensures ',' !in IntToString(i) && ':' !in IntToString(i) && ';' !in IntToString(i)
    ensures var t := IntToString(i); !IsSpace(t[0]) && !IsSpace(t[|t| - 1])
  {
    var t := IntToString(i);
    if i >= 0 {
      assert AllDigits(t);
    } else {
      assert AllDigits(t[1..]);
      forall k | 1 <= k < |t|
        ensures IsDigit(t[k])
      {
        assert t[k] == t[1..][k - 1];
      }
    }
  }

  /** `str(n)` is a decimal literal. */
  lemma NatTextLiteral(n: nat)
    ensures IsDecimalLiteral(NatToString(n))
  {
    NatToStringValue(n);
    if n == 0 {
      assert NatToString(0) == "0";
    }
  }

  /** `literal_eval` reads `str(i)`, with or without one blank before it,
      back as `i`. */
  lemma LiteralIntOfString(i: int, blank: string)
    requires blank == "" || blank == " "
    ensures LiteralInt(blank + IntToString(i)) == Some(i)
  {
    var n: nat := if i < 0 then -i else i;
    NatTextLiteral(n);
    NatToStringValue(n);
    LiteralIntOfDigits(blank, NatToString(n), i < 0);
  }

  /** A decimal literal, with '-' in front or not and one blank or none
      before it, reads back as its signed value. */
  lemma LiteralIntOfDigits(blank: string, d: string, negative: bool)
    requires blank == "" || blank == " "
    requires IsDecimalLiteral(d)
    ensures var t := if negative then "-" + d else d;
            LiteralInt(blank + t) == Some(if negative then -(DigitsValue(d) as int) else DigitsValue(d))
  {
    var t := if negative then "-" + d else d;
    assert IsDigit(d[0]) && IsDigit(d[|d| - 1]);
    assert t[|t| - 1] == d[|d| - 1];
    SkipOneBlank(blank, t);
    DropBlanksNone(t);
    assert LiteralInt(blank + t) == SignedLiteral(t);
    if negative {
      NegativeLiteral(d);
    } else {
      assert SignedLiteral(d) == Some(DigitsValue(d) as int) by {
        assert d[0] != '-' && d[0] != '+';
      }
    }
  }

  lemma NegativeLiteral(d: string)
    requires IsDecimalLiteral(d)
    ensures SignedLiteral("-" + d) == Some(-(DigitsValue(d) as int))
  {
    assert ("-" + d)[1..] == d;
  }

  /** At most one blank in front of a text that starts with no blank. */
  lemma SkipOneBlank(blank: string, t: string)
    requires blank == "" || blank == " "
    requires t != [] && !IsBlank(t[0])
    ensures SkipBlanks(blank + t) == t
  {
    if blank == " " {
      assert (blank + t)[1..] == t;
    } else {
      assert blank + t == t;
    }
  }




  /** Two integer literals in parentheses read back as the pair. */
  lemma ParsePositionOf(a: string, b: string, x: int, y: int)
    requires LiteralInt(a) == Some(x) && LiteralInt(b) == Some(y)
    ensures ParsePosition("(" + a + "," + b + ")") == Ok((x, y))
  {
    var s := "(" + a + "," + b + ")";
    LiteralIntChars(a);
    LiteralIntChars(b);
    assert ',' !in a && ',' !in b;
    assert s[1..|s| - 1] == a + [','] + b;
    SplitLeading(a, ',', b);
    SplitNoSep(b, ',');
  }

  /** Two ','-free elements in brackets are read one by one. */
  lemma ParsePositionParts(a: string, b: string)
    requires ',' !in a && ',' !in b
    ensures ParsePosition("(" + a + "," + b + ")")
            == if LiteralInt(a).Some? && LiteralInt(b).Some? then Ok((LiteralInt(a).value, LiteralInt(b).value))
               else Err(BadPosition)
  {
    var s := "(" + a + "," + b + ")";
    assert s[1..|s| - 1] == a + [','] + b;
    SplitLeading(a, ',', b);
    SplitNoSep(b, ',');
  }

  /** `literal_eval` refuses "(007,1)" with a `SyntaxError`: a leading zero. */
  lemma LeadingZeroPositionExample()
    ensures ParsePosition("(007,1)") == Err(BadPosition)
  {
    assert "(007,1)" == "(" + "007" + "," + "1" + ")";
    ParsePositionParts("007", "1");
    LeadingZeroRejected("007", 2);
  }

  /** `literal_eval` refuses a vertical tab before a number. */
  lemma VerticalTabPositionExample()
    ensures ParsePosition("(\U{B}5, 1)") == Err(BadPosition)
  {
    var e := "\U{B}5";
    assert "(\U{B}5, 1)" == "(" + e + "," + " 1" + ")";
    ParsePositionParts(e, " 1");
    assert !IsBlank(e[0]) && !IsDigit(e[0]);
    assert LiteralInt(e) == None;
  }

  /** A run of zeros is the literal 0: `literal_eval("(00, 1)") == (0, 1)`. */
  lemma ZerosPositionExample()
    ensures ParsePosition("(00, 1)") == Ok((0, 1))
  {
    SkipBlanksNone("00");
    DropBlanksNone("00");
    assert IsDecimalLiteral("00");
    assert DigitsValue("00") == DigitsValue("0") * 10 + 0;
    assert LiteralInt("00") == Some(0);
    assert SkipBlanks(" 1") == SkipBlanks(" 1"[1..]) == "1";
    DropBlanksNone("1");
    assert DigitsValue("1") == 1;
    assert LiteralInt(" 1") == Some(1);
    assert "(" + "00" + "," + " 1" + ")" == "(00, 1)";
    ParsePositionOf("00", " 1", 0, 1);
  }

  /** `literal_eval("(x, y)") == (x, y)`. */
  lemma ParsePositionOfText(x: int, y: int)
    ensures ParsePosition(PositionText(x, y)) == Ok((x, y))
  {
    var a, b := IntToString(x), " " + IntToString(y);
    LiteralIntOfString(x, "");
    assert "" + IntToString(x) == a;
    LiteralIntOfString(y, " ");
    ParsePositionOf(a, b, x, y);
  }

  // ---------------------------------------------------------------------------
  // The report
  // ---------------------------------------------------------------------------

  /** A parsed report line: a tile number and its (x, y) corner. */
  type Entry = (int, (int, int))

  /** One line of `extract_corners`: strip it, split it at ';', read the
      tile number from field 0 and the position from field 2. */
  function ParseLine(line: string): (r: Result<Entry, ParseError>)
  {
    var fields := Split(Strip(line), ';');
    match FromColonFormat(fields[0])
    case Err(e) => Err(e)
    case Ok(name) =>
      match FilenameToNumber(name)
      case None => Err(NoTileNumber)
      case Some(number) =>
        if |fields| < 3 then Err(IndexError)
        else
          match FromColonFormat(fields[2])
          case Err(e) => Err(e)
          case Ok(text) =>
            match ParsePosition(text)
            case Err(e) => Err(e)
            case Ok(position) => Ok((number, position))
  }

  /** A `key: value` field as MIST writes it. */
  function Field(key: string, value: string): string {
    key + ": " + value
  }

  /** A report line as MIST writes it: the file, correlation and position
      fields, and then the rest of the line (the grid field) after a ';'. */
  function ReportLine(name: string, corr: string, position: string, rest: string): string {
    Field("file", name) + [';'] + (Field(" corr", corr) + [';'] + (Field(" position", position) + [';'] + rest))
  }

  /** The ';'-fields of a report line: the file field first and the
      position field third. */
  lemma ReportLineFields(name: string, corr: string, position: string, rest: string)
    requires ';' !in name && ';' !in corr && ';' !in position
    requires rest == [] || !IsSpace(rest[|rest| - 1])
    ensures var fields := Split(Strip(ReportLine(name, corr, position, rest)), ';');
            |fields| >= 3 && fields[0] == Field("file", name) && fields[2] == Field(" position", position)
  {
    var line := ReportLine(name, corr, position, rest);
    var f0, f1, f2 := Field("file", name), Field(" corr", corr), Field(" position", position);
    assert ';' !in f0 && ';' !in f1 && ';' !in f2;
    assert line[0] == f0[0] == 'f';
    assert line[|line| - 1] == ';' || line[|line| - 1] == rest[|rest| - 1];
    StripUnpadded(line);
    SplitLeading(f0, ';', f1 + [';'] + (f2 + [';'] + rest));
    SplitLeading(f1, ';', f2 + [';'] + rest);
    SplitLeading(f2, ';', rest);
  }

  /** The report's field names hold no ':'. */
  lemma FieldNamesPlain()
    ensures ':' !in "file" && ':' !in " position"
  {
  }

  /** A line whose file field names tile `n` and whose position field
      reads as `pos` parses to (n, pos). */
  lemma ParseLineOf(line: string, n: int, pos: (int, int))
    requires var fields := Split(Strip(line), ';');
             && |fields| >= 3
             && FromColonFormat(fields[0]).Ok? && FilenameToNumber(FromColonFormat(fields[0]).value) == Some(n)
             && FromColonFormat(fields[2]).Ok? && ParsePosition(FromColonFormat(fields[2]).value) == Ok(pos)
    ensures ParseLine(line) == Ok((n, pos))
  {
  }

  /** A line MIST writes for tile file `name` at a position reads back as
      that file's number and the position; the correlation and the rest of
      the line play no part. */
  lemma ParseReportLine(name: string, corr: string, p: string, rest: string, n: int, pos: (int, int))
    requires FilenameToNumber(name) == Some(n) && ParsePosition(p) == Ok(pos)
    requires ':' !in name && ';' !in name && ';' !in corr && ':' !in p && ';' !in p
    requires name != [] && !IsSpace(name[0]) && !IsSpace(name[|name| - 1])
    requires p != [] && !IsSpace(p[0]) && !IsSpace(p[|p| - 1])
    requires rest == [] || !IsSpace(rest[|rest| - 1])
    ensures ParseLine(ReportLine(name, corr, p, rest)) == Ok((n, pos))
  {
    FieldNamesPlain();
    ReportLineFields(name, corr, p, rest);
    FromColonFormatOf("file", name);
    FromColonFormatOf(" position", p);
    ParseLineOf(ReportLine(name, corr, p, rest), n, pos);
  }

  /** A position text has no ':' or ';' and is bracketed. */
  lemma PositionTextPlain(x: int, y: int)
    ensures var p := PositionText(x, y);
            ':' !in p && ';' !in p && p[0] == '(' && p[|p| - 1] == ')'
  {
    IntTextPlain(x);
    IntTextPlain(y);
  }

  /** Each line of the report, parsed by `parse`. */
  function Parsed<T>(lines: seq<T>, parse: T -> Result<Entry, ParseError>): seq<Result<Entry, ParseError>> {
    seq(|lines|, i requires 0 <= i < |lines| => parse(lines[i]))
  }

  /** The corners `extract_corners` returns for the report `lines` (the
      file's lines, each read in turn). */
  function Corners(lines: seq<string>): Result<Dict<int, (int, int)>, ParseError> {
    Collect(Parsed(lines, ParseLine))
  }

  /** The dict built from parsed lines: the first malformed line raises,
      otherwise each line stores its position under its tile number, a
      later line overwriting an earlier one. */
  function Collect(parsed: seq<Result<Entry, ParseError>>): Result<Dict<int, (int, int)>, ParseError> {
    if parsed == [] then Ok(Empty())
    else
      match Collect(parsed[..|parsed| - 1])
      case Err(e) => Err(e)
      case Ok(d) =>
        match parsed[|parsed| - 1]
        case Err(e) => Err(e)
        case Ok(entry) => Ok(Store(d, entry.0, entry.1))
  }

  /** The corners form a well-formed dict. */
  lemma {:induction false} CollectValid(parsed: seq<Result<Entry, ParseError>>)
    ensures Collect(parsed).Ok? ==> Valid(Collect(parsed).value)
  {
    if parsed != [] {
      var front := parsed[..|parsed| - 1];
      CollectValid(front);
      if Collect(front).Ok? && parsed[|parsed| - 1].Ok? {
        var entry := parsed[|parsed| - 1].value;
        StoreValid(Collect(front).value, entry.0, entry.1);
      }
    }
  }

  /** Once a prefix of the report fails, the whole report fails the same way. */
  lemma {:induction false} CollectKeepsFirstError(parsed: seq<Result<Entry, ParseError>>, k: nat)
    requires k <= |parsed| && Collect(parsed[..k]).Err?
    ensures Collect(parsed) == Collect(parsed[..k])
    decreases |parsed| - k
  {
    if k < |parsed| {
      assert parsed[..k + 1][..k] == parsed[..k];
      CollectKeepsFirstError(parsed, k + 1);
    } else {
      assert parsed[..k] == parsed;
    }
  }

  /** The report parses exactly when every line does, and it fails with the
      first failing line's error. */
  lemma {:induction false} CollectOk(parsed: seq<Result<Entry, ParseError>>)
    ensures Collect(parsed).Ok? <==> forall i :: 0 <= i < |parsed| ==> parsed[i].Ok?
    ensures Collect(parsed).Err? ==>
              exists i :: 0 <= i < |parsed| && parsed[i].Err? && Collect(parsed).error == parsed[i].error
                          && forall j :: 0 <= j < i ==> parsed[j].Ok?
  {
    if parsed != [] {
      var front := parsed[..|parsed| - 1];
      CollectOk(front);
      assert forall i :: 0 <= i < |front| ==> front[i] == parsed[i];
      if Collect(front).Err? {
        var i :| 0 <= i < |front| && front[i].Err? && Collect(front).error == front[i].error
                 && forall j :: 0 <= j < i ==> front[j].Ok?;
        assert parsed[i] == front[i];
      }
    }
  }

  /** The corners' keys are exactly the tile numbers of the report's lines. */
  lemma {:induction false} CollectKeys(parsed: seq<Result<Entry, ParseError>>, n: int)
    requires Collect(parsed).Ok?
    ensures n in Collect(parsed).value.entries <==>
              exists i :: 0 <= i < |parsed| && parsed[i].Ok? && parsed[i].value.0 == n
  {
    if parsed != [] {
      var front := parsed[..|parsed| - 1];
      CollectKeys(front, n);
      assert forall i :: 0 <= i < |front| ==> front[i] == parsed[i];
      if n in Collect(parsed).value.entries && parsed[|parsed| - 1].value.0 != n {
        var i :| 0 <= i < |front| && front[i].Ok? && front[i].value.0 == n;
        assert parsed[i] == front[i];
      }
    }
  }

  /** A tile number holds the position of the last line naming it. */
  lemma {:induction false} CollectLastWins(parsed: seq<Result<Entry, ParseError>>, i: int)
    requires Collect(parsed).Ok? && 0 <= i < |parsed| && parsed[i].Ok?
    requires forall j :: i < j < |parsed| && parsed[j].Ok? ==> parsed[j].value.0 != parsed[i].value.0
    ensures parsed[i].value.0 in Collect(parsed).value.entries
    ensures Collect(parsed).value.entries[parsed[i].value.0] == parsed[i].value.1
  {
    if i < |parsed| - 1 {
      var front := parsed[..|parsed| - 1];
      assert front[i] == parsed[i];
      assert forall j :: i < j < |front| ==> front[j] == parsed[j];
      CollectLastWins(front, i);
    }
  }

  /** The loop of `extract_corners`, for any line parser `parse`: the
      lines parsed one by one into a dict. */
  method CollectLines<T>(lines: seq<T>, parse: T -> Result<Entry, ParseError>)
    returns (r: Result<Dict<int, (int, int)>, ParseError>)
    ensures r == Collect(Parsed(lines, parse))
  {
    ghost var parsed := Parsed(lines, parse);
    var corners := Empty();
    var k := 0;
    assert parsed[..0] == [];
    while k < |lines|
      invariant 0 <= k <= |lines|
      invariant Collect(parsed[..k]) == Ok(corners)
    {
      assert parsed[..k + 1][..k] == parsed[..k];
      match parse(lines[k])
      case Err(e) =>
        CollectKeepsFirstError(parsed, k + 1);
        return Err(e);
      case Ok(entry) =>
        corners := Store(corners, entry.0, entry.1);
      k := k + 1;
    }
    assert parsed[..k] == parsed;
    return Ok(corners);
  }

  /** `extract_corners`: the report's lines parsed one by one into a dict. */
  method ExtractCorners(lines: seq<string>) returns (r: Result<Dict<int, (int, int)>, ParseError>)
    ensures r == Corners(lines)
  {
    r := CollectLines(lines, ParseLine);
  }

  /** Tile file names of the 5-digit range are plain: digits, '.', "tif". */
  lemma TileNameIsPlain(n: int)
    requires 0 <= n < 100000
    ensures var name := Tiles.TileFname(n);
            |name| == 9 && ':' !in name && ';' !in name && !IsSpace(name[0]) && !IsSpace(name[8])
  {
    var name := Tiles.TileFname(n);
    Tiles.TileFnameSpec(n);
    assert name == name[..5] + ".tif";
    forall k | 0 <= k < 5
      ensures IsDigit(name[k])
    {
      assert name[k] == name[..5][k];
    }
  }

  /** The line MIST writes for tile `n` at (x, y) reads back as (n, (x, y)). */
  lemma ParseTileReportLine(n: int, corr: string, x: int, y: int, rest: string)
    requires 0 <= n < 100000 && ';' !in corr
    requires rest == [] || !IsSpace(rest[|rest| - 1])
    ensures ParseLine(ReportLine(Tiles.TileFname(n), corr, PositionText(x, y), rest)) == Ok((n, (x, y)))
  {
    TileNameIsPlain(n);
    FilenameToNumberOfTileFname(n);
    PositionTextPlain(x, y);
    ParsePositionOfText(x, y);
    ParseReportLine(Tiles.TileFname(n), corr, PositionText(x, y), rest, n, (x, y));
  }

  /** Two parsed lines for different tiles give those two corners, in
      line order. */
  lemma CollectTwo(a: Entry, b: Entry)
    requires a.0 != b.0
    ensures Collect([Ok(a), Ok(b)]) == Ok(Dict([a.0, b.0], map[a.0 := a.1, b.0 := b.1]))
  {
    var ps: seq<Result<Entry, ParseError>> := [Ok(a), Ok(b)];
    var p1 := ps[..1];
    assert p1 == [Ok(a)];
    assert p1[..0] == [];
    var d1 := Store(Empty(), a.0, a.1);
    assert Collect(p1) == Ok(d1);
    assert ps[..|ps| - 1] == p1;
    assert Collect(ps) == Ok(Store(d1, b.0, b.1));
    assert Store(d1, b.0, b.1).keys == [a.0, b.0];
  }

  /** Parsing two lines is parsing each. */
  lemma ParsedTwo<T>(a: T, b: T, parse: T -> Result<Entry, ParseError>)
    ensures Parsed([a, b], parse) == [parse(a), parse(b)]
  {
  }

  /** A report of two well-formed lines for different tiles gives exactly
      their two corners. */
  lemma CornersOfTwo(line1: string, e1: Entry, line2: string, e2: Entry)
    requires ParseLine(line1) == Ok(e1) && ParseLine(line2) == Ok(e2) && e1.0 != e2.0
    ensures Corners([line1, line2]) == Ok(Dict([e1.0, e2.0], map[e1.0 := e1.1, e2.0 := e2.1]))
  {
    ParsedTwo(line1, line2, ParseLine);
    CollectTwo(e1, e2);
  }

  /** A report of two lines as MIST writes them, for different tiles,
      gives exactly their two corners; for instance 00001.tif at (0, 0)
      and 00002.tif at (256, 0) give {1: (0, 0), 2: (256, 0)}. */
  lemma TwoTileReport(line1: string, n1: int, x1: int, y1: int, line2: string, n2: int, x2: int, y2: int)
    requires 0 <= n1 < 100000 && 0 <= n2 < 100000 && n1 != n2
    requires line1 == ReportLine(Tiles.TileFname(n1), "0.0", PositionText(x1, y1), " grid: (0, 0);")
    requires line2 == ReportLine(Tiles.TileFname(n2), "0.0", PositionText(x2, y2), " grid: (0, 1);")
    ensures Corners([line1, line2]) == Ok(Dict([n1, n2], map[n1 := (x1, y1), n2 := (x2, y2)]))
  {
    ParseTileReportLine(n1, "0.0", x1, y1, " grid: (0, 0);");
    ParseTileReportLine(n2, "0.0", x2, y2, " grid: (0, 1);");
    CornersOfTwo(line1, (n1, (x1, y1)), line2, (n2, (x2, y2)));
  }

  // ---------------------------------------------------------------------------
  // The MIST command line
  // ---------------------------------------------------------------------------

  /** The option names `stitch` passes to MIST: the keys of
      `DEFAULT_STITCHING_OPTIONS` and the "outputPath" it adds. */
  datatype Switch =
    | Headless | NumberingPattern | GridOrigin | FilenamePatternType
    | GridWidth | GridHeight | StartTile | FilenamePattern | ImageDir
    | OutputFullImage | StartRow | StartCol | ExtentWidth | ExtentHeight
    | BlendingMode | BlendingAlpha | OutputPath

  /** The dict key, as spelled in the source. */
  function SwitchName(k: Switch): string {
    match k
    case Headless => "headless"
    case NumberingPattern => "numberingPattern"
    case GridOrigin => "gridOrigin"
    case FilenamePatternType => "filenamePatternType"
    case GridWidth => "gridWidth"
    case GridHeight => "gridHeight"
    case StartTile => "startTile"
    case FilenamePattern => "filenamePattern"
    case ImageDir => "imageDir"
    case OutputFullImage => "outputFullImage"
    case StartRow => "startRow"
    case StartCol => "startCol"
    case ExtentWidth => "extentWidth"
    case ExtentHeight => "extentHeight"
    case BlendingMode => "blendingMode"
    case BlendingAlpha => "blendingAlpha"
    case OutputPath => "outputPath"
  }

  /** The place of an option in the defaults' literal; "outputPath", which
      `stitch` adds, comes last. */
  function Rank(k: Switch): nat {
    match k
    case Headless => 0
    case NumberingPattern => 1
    case GridOrigin => 2
    case FilenamePatternType => 3
    case GridWidth => 4
    case GridHeight => 5
    case StartTile => 6
    case FilenamePattern => 7
    case ImageDir => 8
    case OutputFullImage => 9
    case StartRow => 10
    case StartCol => 11
    case ExtentWidth => 12
    case ExtentHeight => 13
    case BlendingMode => 14
    case BlendingAlpha => 15
    case OutputPath => 16
  }

  /** `DEFAULT_STITCHING_OPTIONS`, in its literal's order. */
  function DefaultOptions(): Dict<Switch, string> {
    Dict(
      [Headless, NumberingPattern, GridOrigin, FilenamePatternType,
       GridWidth, GridHeight, StartTile, FilenamePattern, ImageDir,
       OutputFullImage, StartRow, StartCol, ExtentWidth, ExtentHeight,
       BlendingMode, BlendingAlpha],
      map[Headless := "true", NumberingPattern := "HORIZONTALCONTINUOUS",
          GridOrigin := "UL", FilenamePatternType := "SEQUENTIAL",
          GridWidth := "12", GridHeight := "8", StartTile := "1",
          FilenamePattern := "\"\"", ImageDir := "", OutputFullImage := "false",
          StartRow := "0", StartCol := "0", ExtentWidth := "12",
          ExtentHeight := "8", BlendingMode := "linear", BlendingAlpha := "0.5"])
  }

  /** The defaults name each option once. */
  lemma DefaultKeysDistinct()
    ensures forall i, j :: 0 <= i < j < |DefaultOptions().keys| ==>
              DefaultOptions().keys[i] != DefaultOptions().keys[j]
  {
    var keys := DefaultOptions().keys;
    assert forall i :: 0 <= i < |keys| ==> Rank(keys[i]) == i;
    forall i, j | 0 <= i < j < |keys|
      ensures keys[i] != keys[j]
    {
      assert Rank(keys[i]) != Rank(keys[j]);
    }
  }

  /** The defaults list every option but "outputPath". */
  lemma DefaultKeysMapped()
    ensures |DefaultOptions().keys| == 16
    ensures forall k :: k in DefaultOptions().entries <==> k != OutputPath
    ensures forall i :: 0 <= i < 16 ==> DefaultOptions().keys[i] != OutputPath
  {
  }

  /** The defaults form a well-formed dict of 16 options, without
      "outputPath". */
  lemma DefaultOptionsValid()
    ensures Valid(DefaultOptions()) && |DefaultOptions().keys| == 16 && OutputPath !in DefaultOptions().entries
  {
    DefaultKeysDistinct();
    DefaultKeysMapped();
  }

  /** The options after `stitch(image_dir, out_dir, rows, cols)` wrote its
      seven entries, in the order the source writes them; `rowsText` and
      `colsText` are `str(rows)` and `str(cols)`. */
  function RunOptions(d: Dict<Switch, string>, imageDir: string, outDir: string, rowsText: string, colsText: string)
    : Dict<Switch, string>
  {
    var d := Store(d, ImageDir, imageDir);
    var d := Store(d, OutputPath, outDir);
    var d := Store(d, GridWidth, colsText);
    var d := Store(d, GridHeight, rowsText);
    var d := Store(d, ExtentWidth, colsText);
    var d := Store(d, ExtentHeight, rowsText);
    Store(d, FilenamePattern, FILENAME_PATTERN)
  }

  /** The switches `stitch` writes. */
  predicate IsRunSwitch(k: Switch) {
    || k == ImageDir || k == OutputPath || k == GridWidth || k == GridHeight
    || k == ExtentWidth || k == ExtentHeight || k == FilenamePattern
  }

  /** The run's options stay a well-formed dict. */
  lemma RunOptionsValid(d: Dict<Switch, string>, imageDir: string, outDir: string, rowsText: string, colsText: string)
    requires Valid(d)
    ensures Valid(RunOptions(d, imageDir, outDir, rowsText, colsText))
  {
    var d1 := Store(d, ImageDir, imageDir);
    var d2 := Store(d1, OutputPath, outDir);
    var d3 := Store(d2, GridWidth, colsText);
    var d4 := Store(d3, GridHeight, rowsText);
    var d5 := Store(d4, ExtentWidth, colsText);
    var d6 := Store(d5, ExtentHeight, rowsText);
    StoreValid(d, ImageDir, imageDir);
    StoreValid(d1, OutputPath, outDir);
    StoreValid(d2, GridWidth, colsText);
    StoreValid(d3, GridHeight, rowsText);
    StoreValid(d4, ExtentWidth, colsText);
    StoreValid(d5, ExtentHeight, rowsText);
    StoreValid(d6, FilenamePattern, FILENAME_PATTERN);
  }

  /** The seven writes of a run, applied to the entries `m`. */
  function RunWrites(m: map<Switch, string>, imageDir: string, outDir: string, rowsText: string, colsText: string)
    : map<Switch, string>
  {
    m[ImageDir := imageDir][OutputPath := outDir][GridWidth := colsText][GridHeight := rowsText]
     [ExtentWidth := colsText][ExtentHeight := rowsText][FilenamePattern := FILENAME_PATTERN]
  }

  /** The run's entries are the old ones with the seven writes applied in
      order. */
  lemma RunOptionsEntries(d: Dict<Switch, string>, imageDir: string, outDir: string, rowsText: string, colsText: string)
    ensures RunOptions(d, imageDir, outDir, rowsText, colsText).entries
            == RunWrites(d.entries, imageDir, outDir, rowsText, colsText)
  {
  }

  /** The writes add exactly the run's switches to the keys. */
  lemma RunWritesKeys(m: map<Switch, string>, imageDir: string, outDir: string, rowsText: string, colsText: string, k: Switch)
    ensures k in RunWrites(m, imageDir, outDir, rowsText, colsText) <==> k in m || IsRunSwitch(k)
  {
  }

  /** The writes leave every other switch alone. */
  lemma RunWritesKeepsOthers(m: map<Switch, string>, imageDir: string, outDir: string, rowsText: string, colsText: string)
    ensures forall k :: k in m && !IsRunSwitch(k) ==> RunWrites(m, imageDir, outDir, rowsText, colsText)[k] == m[k]
  {
  }

  /** The seven entries hold the run's values. */
  lemma RunOptionsWrites(d: Dict<Switch, string>, imageDir: string, outDir: string, rowsText: string, colsText: string)
    ensures var r := RunOptions(d, imageDir, outDir, rowsText, colsText);
            && r.entries[ImageDir] == imageDir && r.entries[OutputPath] == outDir
            && r.entries[GridWidth] == colsText && r.entries[ExtentWidth] == colsText
            && r.entries[GridHeight] == rowsText && r.entries[ExtentHeight] == rowsText
            && r.entries[FilenamePattern] == FILENAME_PATTERN
  {
    RunOptionsEntries(d, imageDir, outDir, rowsText, colsText);
  }

  /** The run's options are the old ones plus the seven switches. */
  lemma RunOptionsKeys(d: Dict<Switch, string>, imageDir: string, outDir: string, rowsText: string, colsText: string, k: Switch)
    ensures k in RunOptions(d, imageDir, outDir, rowsText, colsText).entries <==> k in d.entries || IsRunSwitch(k)
  {
    RunOptionsEntries(d, imageDir, outDir, rowsText, colsText);
    RunWritesKeys(d.entries, imageDir, outDir, rowsText, colsText, k);
  }

  /** Every other option keeps its value. */
  lemma RunOptionsKeepsOthers(d: Dict<Switch, string>, imageDir: string, outDir: string, rowsText: string, colsText: string)
    ensures var r := RunOptions(d, imageDir, outDir, rowsText, colsText);
            forall k :: k in d.entries && !IsRunSwitch(k) ==> r.entries[k] == d.entries[k]
  {
    RunOptionsEntries(d, imageDir, outDir, rowsText, colsText);
    RunWritesKeepsOthers(d.entries, imageDir, outDir, rowsText, colsText);
  }

  /** The existing options keep their order; new switches go after them. */
  lemma RunOptionsKeepsOrder(d: Dict<Switch, string>, imageDir: string, outDir: string, rowsText: string, colsText: string)
    ensures d.keys <= RunOptions(d, imageDir, outDir, rowsText, colsText).keys
  {
    var d1 := Store(d, ImageDir, imageDir);
    StoreKeepsOrder(d, ImageDir, imageDir);
    var d2 := Store(d1, OutputPath, outDir);
    StoreKeepsOrder(d1, OutputPath, outDir);
    var d3 := Store(d2, GridWidth, colsText);
    StoreKeepsOrder(d2, GridWidth, colsText);
    var d4 := Store(d3, GridHeight, rowsText);
    StoreKeepsOrder(d3, GridHeight, rowsText);
    var d5 := Store(d4, ExtentWidth, colsText);
    StoreKeepsOrder(d4, ExtentWidth, colsText);
    var d6 := Store(d5, ExtentHeight, rowsText);
    StoreKeepsOrder(d5, ExtentHeight, rowsText);
    StoreKeepsOrder(d6, FilenamePattern, FILENAME_PATTERN);
    PrefixTrans(d.keys, d1.keys, d2.keys);
    PrefixTrans(d.keys, d2.keys, d3.keys);
    PrefixTrans(d.keys, d3.keys, d4.keys);
    PrefixTrans(d.keys, d4.keys, d5.keys);
    PrefixTrans(d.keys, d5.keys, d6.keys);
    PrefixTrans(d.keys, d6.keys, Store(d6, FilenamePattern, FILENAME_PATTERN).keys);
  }

  /** Writing the seven entries again changes nothing. */
  lemma RunWritesIdempotent(m: map<Switch, string>, imageDir: string, outDir: string, rowsText: string, colsText: string)
    ensures var w := RunWrites(m, imageDir, outDir, rowsText, colsText);
            RunWrites(w, imageDir, outDir, rowsText, colsText) == w
  {
  }

  /** A run over options that already hold all seven switches adds no key. */
  lemma RunOptionsSameKeys(d: Dict<Switch, string>, imageDir: string, outDir: string, rowsText: string, colsText: string)
    requires forall k :: IsRunSwitch(k) ==> k in d.entries
    ensures RunOptions(d, imageDir, outDir, rowsText, colsText).keys == d.keys
  {
    var d1 := Store(d, ImageDir, imageDir);
    var d2 := Store(d1, OutputPath, outDir);
    var d3 := Store(d2, GridWidth, colsText);
    var d4 := Store(d3, GridHeight, rowsText);
    var d5 := Store(d4, ExtentWidth, colsText);
    var d6 := Store(d5, ExtentHeight, rowsText);
    assert d6.keys == d.keys;
  }

  /** Writing the same run twice is writing it once: the shared options a
      second identical call starts from are already its own result. */
  lemma RunOptionsIdempotent(d: Dict<Switch, string>, imageDir: string, outDir: string, rowsText: string, colsText: string)
    ensures var r := RunOptions(d, imageDir, outDir, rowsText, colsText);
            RunOptions(r, imageDir, outDir, rowsText, colsText) == r
  {
    var r := RunOptions(d, imageDir, outDir, rowsText, colsText);
    forall k | IsRunSwitch(k)
      ensures k in r.entries
    {
      RunOptionsKeys(d, imageDir, outDir, rowsText, colsText, k);
    }
    RunOptionsSameKeys(r, imageDir, outDir, rowsText, colsText);
    RunOptionsEntries(d, imageDir, outDir, rowsText, colsText);
    RunOptionsEntries(r, imageDir, outDir, rowsText, colsText);
    RunWritesIdempotent(d.entries, imageDir, outDir, rowsText, colsText);
  }

  /** An option as a command-line switch: its name after "--". */
  function Flag(k: Switch): string {
    "--" + SwitchName(k)
  }

  /** `args` of `stitch`: each option's switch, then its value, option by
      option in dict order. */
  function Argv<K(==)>(keys: seq<K>, entries: map<K, string>, flag: K -> string): seq<string>
    requires forall i :: 0 <= i < |keys| ==> keys[i] in entries
  {
    if keys == [] then []
    else
      var last := keys[|keys| - 1];
      Argv(keys[..|keys| - 1], entries, flag) + [flag(last), entries[last]]
  }

  /** The argument list has two entries per option. */
  lemma {:induction false} ArgvLength<K>(keys: seq<K>, entries: map<K, string>, flag: K -> string)
    requires forall i :: 0 <= i < |keys| ==> keys[i] in entries
    ensures |Argv(keys, entries, flag)| == 2 * |keys|
  {
    if keys != [] {
      ArgvLength(keys[..|keys| - 1], entries, flag);
    }
  }

  /** Option `i`'s switch is at `2 i`, its value right after it. */
  lemma {:induction false} ArgvAt<K>(keys: seq<K>, entries: map<K, string>, flag: K -> string, i: int)
    requires forall i :: 0 <= i < |keys| ==> keys[i] in entries
    requires 0 <= i < |keys|
    ensures |Argv(keys, entries, flag)| == 2 * |keys|
    ensures Argv(keys, entries, flag)[2 * i] == flag(keys[i])
    ensures Argv(keys, entries, flag)[2 * i + 1] == entries[keys[i]]
  {
    ArgvLength(keys, entries, flag);
    var front := keys[..|keys| - 1];
    ArgvLength(front, entries, flag);
    if i < |front| {
      ArgvAt(front, entries, flag, i);
      assert front[i] == keys[i];
    }
  }

  /** The `for switch in options` loop of `stitch`, for any spelling
      `flag` of an option as a switch. */
  method BuildArgs<K(!new)>(options: Dict<K, string>, flag: K -> string) returns (args: seq<string>)
    requires Valid(options)
    ensures args == Argv(options.keys, options.entries, flag)
  {
    var keys := options.keys;
    args := [];
    var k := 0;
    assert keys[..0] == [];
    while k < |keys|
      invariant 0 <= k <= |keys|
      invariant args == Argv(keys[..k], options.entries, flag)
    {
      assert keys[..k + 1][..k] == keys[..k];
      args := args + [flag(keys[k])];
      args := args + [options.entries[keys[k]]];
      k := k + 1;
    }
    assert keys[..k] == keys;
  }

  /** The process state `stitch` reads and writes: the module-level default
      option dict, which `stitch` updates in place, so every later call
      starts from the previous call's options. */
  class Mist {
    var options: Dict<Switch, string>

    /** The module as imported: the literal defaults. */
    constructor ()
      ensures options == DefaultOptions() && Valid(options)
    {
      options := DefaultOptions();
      DefaultOptionsValid();
    }

    /** `stitch(image_dir, out_dir, rows, cols)` without the MIST process:
        the shared options are updated for this run, the command is
        `java -jar fft2d-wdeps.jar` followed by the options as switches,
        and `report`, the lines of the global-positions file MIST writes,
        is read back into corners. */
    method Stitch(imageDir: string, outDir: string, rows: int, cols: int, report: seq<string>)
      returns (command: seq<string>, corners: Result<Dict<int, (int, int)>, ParseError>)
      requires Valid(options)
      modifies this
      ensures options == RunOptions(old(options), imageDir, outDir, IntToString(rows), IntToString(cols))
      ensures Valid(options)
      ensures command == ["java", "-jar", JAR_PATH] + Argv(options.keys, options.entries, Flag)
      ensures corners == Corners(report)
    {
      ghost var before := options;
      options := Store(options, ImageDir, imageDir);
      options := Store(options, OutputPath, outDir);
      options := Store(options, GridWidth, IntToString(cols));
      options := Store(options, GridHeight, IntToString(rows));
      options := Store(options, ExtentWidth, IntToString(cols));
      options := Store(options, ExtentHeight, IntToString(rows));
      options := Store(options, FilenamePattern, FILENAME_PATTERN);
      RunOptionsValid(before, imageDir, outDir, IntToString(rows), IntToString(cols));
      var args := BuildArgs(options, Flag);
      command := ["java", "-jar", JAR_PATH] + args;
      corners := ExtractCorners(report);
    }
  }

  /** Run from the defaults, `stitch` adds "outputPath" after the 16
      default options and keeps their order. */
  lemma DefaultRunKeys(imageDir: string, outDir: string, rowsText: string, colsText: string)
    ensures RunOptions(DefaultOptions(), imageDir, outDir, rowsText, colsText).keys == DefaultOptions().keys + [OutputPath]
  {
    DefaultOptionsValid();
  }

  /** The first run from the defaults passes 17 options, 34 arguments after
      `java -jar fft2d-wdeps.jar`, with "--outputPath" and its value last. */
  lemma FirstRunArgv(imageDir: string, outDir: string, rowsText: string, colsText: string)
    ensures var r := RunOptions(DefaultOptions(), imageDir, outDir, rowsText, colsText);
            && Valid(r) && |r.keys| == 17
            && |Argv(r.keys, r.entries, Flag)| == 34
            && Argv(r.keys, r.entries, Flag)[32..] == [Flag(OutputPath), outDir]
  {
    var r := RunOptions(DefaultOptions(), imageDir, outDir, rowsText, colsText);
    DefaultRunKeys(imageDir, outDir, rowsText, colsText);
    DefaultOptionsValid();
    RunOptionsValid(DefaultOptions(), imageDir, outDir, rowsText, colsText);
    RunOptionsWrites(DefaultOptions(), imageDir, outDir, rowsText, colsText);
    assert r.keys[16] == OutputPath;
    ArgvAt(r.keys, r.entries, Flag, 16);
    var a := Argv(r.keys, r.entries, Flag);
    assert a[32..] == [a[32], a[33]];
  }
}
