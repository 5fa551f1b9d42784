/** `prepare_input_file` of the Scope3 sample script: the derived columns it
    adds to the data frame read from the CSV file (row identifier, formatted
    date, device type, creative format, creative width and height). */
module Prepare {
  import opened PyValues

  /** The alias lists of the configuration block; each becomes a parameter. */
  datatype AliasConfig = AliasConfig(
    mobile: seq<string>,
    desktop: seq<string>,
    banner: seq<string>,
    video: seq<string>)

  /** The alias lists as the script ships them. */
  const DefaultAliases := AliasConfig(
    ["Smart Phone", "Tablet", "mobile", "Mobile"],
    ["Desktop", "desktop", "PC"],
    ["banner", "Banner", "Standard"],
    ["video", "Video"])

  /** The columns of one CSV row that the script reads, named after the
      configured headers (`date`, `domain`, `app`, `country`, `device`,
      `impressions`, `creative format`, `creative size`, `creative duration`). */
  datatype InputRow = InputRow(
    date: Cell,
    domain: Cell,
    app: Cell,
    country: Cell,
    device: Cell,
    impressions: Cell,
    creativeFormat: Cell,
    creativeSize: Cell,
    creativeDuration: Cell)

  /** A row of the prepared data frame: the input row and the derived columns
      `scope3_row_identifier`, `scope3_formatted_date`,
      `scope3_formatted_device_type`, `scope3_formatted_creative_format`,
      `scope3_formatted_width` and `scope3_formatted_height`. */
  datatype PreparedRow = PreparedRow(
    input: InputRow,
    identifier: nat,
    formattedDate: Cell,
    deviceType: string,
    creativeFormat: string,
    width: Cell,
    height: Cell)

  /** Why `prepare_input_file` raises: `pd.to_datetime` cannot read a date, or
      the split size column does not have exactly two columns to assign to
      the width and height columns. */
  datatype PrepareError = DateParseError | SizeColumnsMismatch(columns: nat)

  const DeviceTypes: set<string> := {"mobile", "desktop", "unknown"}
  const CreativeFormats: set<string> := {"banner", "video", "unknown"}

  /** The label is one of the aliases. */
  ghost predicate Listed(x: Cell, aliases: seq<string>) {
    exists k :: 0 <= k < |aliases| && x == Str(aliases[k])
  }

  /** Python's `x in aliases` for a list of strings. */
  function InAliases(x: Cell, aliases: seq<string>): (r: bool)
    ensures r <==> Listed(x, aliases)
  {
    if aliases == [] then false
    else
      var r := PyEq(x, Str(aliases[0])) || InAliases(x, aliases[1..]);
      assert Listed(x, aliases[1..]) ==> Listed(x, aliases) by {
        if Listed(x, aliases[1..]) {
          var k :| 0 <= k < |aliases[1..]| && x == Str(aliases[1..][k]);
          assert x == Str(aliases[k + 1]);
        }
      }
      assert Listed(x, aliases) && !PyEq(x, Str(aliases[0])) ==> Listed(x, aliases[1..]) by {
        if Listed(x, aliases) && !PyEq(x, Str(aliases[0])) {
          var k :| 0 <= k < |aliases| && x == Str(aliases[k]);
          assert k != 0;
          assert x == Str(aliases[1..][k - 1]);
        }
      }
      r
  }

  /** The device-type column: `mobile` for a mobile alias, otherwise `desktop`
      for a desktop alias, otherwise `unknown`. */
  function ClassifyDevice(x: Cell, cfg: AliasConfig): (r: string)
    ensures r in DeviceTypes
    ensures r == "mobile" <==> Listed(x, cfg.mobile)
    ensures r == "desktop" <==> !Listed(x, cfg.mobile) && Listed(x, cfg.desktop)
  {
    if InAliases(x, cfg.mobile) then "mobile"
    else if InAliases(x, cfg.desktop) then "desktop"
    else "unknown"
  }

  /** The creative-format column: `banner` for a banner alias, otherwise
      `video` for a video alias, otherwise `unknown`. */
  function ClassifyFormat(x: Cell, cfg: AliasConfig): (r: string)
    ensures r in CreativeFormats
    ensures r == "banner" <==> Listed(x, cfg.banner)
    ensures r == "video" <==> !Listed(x, cfg.banner) && Listed(x, cfg.video)
  {
    if InAliases(x, cfg.banner) then "banner"
    else if InAliases(x, cfg.video) then "video"
    else "unknown"
  }

  /** The shipped device aliases on the labels a campaign export uses. */
  lemma DefaultDeviceClassification()
    ensures ClassifyDevice(Str("Tablet"), DefaultAliases) == "mobile"
    ensures ClassifyDevice(Str("Mobile"), DefaultAliases) == "mobile"
    ensures ClassifyDevice(Str("PC"), DefaultAliases) == "desktop"
    ensures ClassifyDevice(Str("unknown-device"), DefaultAliases) == "unknown"
    ensures ClassifyDevice(NaN, DefaultAliases) == "unknown"
  {
    assert DefaultAliases.mobile[1] == "Tablet";
    assert DefaultAliases.mobile[3] == "Mobile";
    assert DefaultAliases.desktop[2] == "PC";
  }

  /** The shipped creative-format aliases on the labels a campaign export uses. */
  lemma DefaultFormatClassification()
    ensures ClassifyFormat(Str("Standard"), DefaultAliases) == "banner"
    ensures ClassifyFormat(Str("Video"), DefaultAliases) == "video"
    ensures ClassifyFormat(Str("native"), DefaultAliases) == "unknown"
  {
    assert DefaultAliases.banner[2] == "Standard";
    assert DefaultAliases.video[1] == "Video";
  }

  /** Python's `s.split(sep)`: the pieces between occurrences of `sep`. */
  function Split(s: string, sep: char): (parts: seq<string>)
    ensures 1 <= |parts|
    ensures forall k :: 0 <= k < |parts| ==> sep !in parts[k]
  {
    if s == [] then [""]
    else
      var rest := Split(s[1..], sep);
      if s[0] == sep then [""] + rest
      else [[s[0]] + rest[0]] + rest[1..]
  }

  /** `sep.join(parts)`. */
  function Join(parts: seq<string>, sep: char): string
    requires 1 <= |parts|
  {
    if |parts| == 1 then parts[0] else parts[0] + [sep] + Join(parts[1..], sep)
  }

  /** Joining the pieces back gives the original string. */
  lemma {:induction false} JoinSplit(s: string, sep: char)
    ensures Join(Split(s, sep), sep) == s
  {
    if s != [] {
      var rest := Split(s[1..], sep);
      JoinSplit(s[1..], sep);
      if s[0] != sep {
        if |rest| == 1 {
          assert Split(s, sep) == [[s[0]] + rest[0]];
        } else {
          assert Split(s, sep)[1..] == rest[1..];
        }
      } else {
        assert Split(s, sep)[1..] == rest;
      }
    }
  }

  /** Splitting a word that holds no separator, followed by more text. */
  lemma {:induction false} SplitAfterWord(w: string, t: string, sep: char)
    requires sep !in w
    ensures Split(w + t, sep) == [w + Split(t, sep)[0]] + Split(t, sep)[1..]
  {
    if w != [] {
      var st := Split(t, sep);
      assert (w + t)[0] == w[0] && (w + t)[1..] == w[1..] + t;
      SplitAfterWord(w[1..], t, sep);
      var rest := Split(w[1..] + t, sep);
      assert rest[0] == w[1..] + st[0] && rest[1..] == st[1..];
      assert w[0] != sep;
      assert Split(w + t, sep) == [[w[0]] + rest[0]] + rest[1..];
      assert [w[0]] + (w[1..] + st[0]) == w + st[0];
    } else {
      var st := Split(t, sep);
      assert w + t == t && w + st[0] == st[0];
      assert st == [st[0]] + st[1..];
    }
  }

  /** Splitting what was joined gives the pieces back, when no piece holds the
      separator. */
  lemma {:induction false} SplitJoin(parts: seq<string>, sep: char)
    requires 1 <= |parts|
    requires forall k :: 0 <= k < |parts| ==> sep !in parts[k]
    ensures Split(Join(parts, sep), sep) == parts
  {
    if |parts| == 1 {
      SplitAfterWord(parts[0], [], sep);
      assert parts[0] + [] == parts[0];
    } else {
      var t := Join(parts[1..], sep);
      SplitJoin(parts[1..], sep);
      assert Split([sep] + t, sep) == [""] + parts[1..];
      assert parts[0] + [sep] + t == parts[0] + ([sep] + t);
      SplitAfterWord(parts[0], [sep] + t, sep);
      assert parts[0] + "" == parts[0];
    }
  }

  /** The number of pieces the row's size splits into; a cell that is not a
      string yields missing values only. */
  function SizePieces(c: Cell): nat {
    if c.Str? then |Split(c.s, 'x')| else 0
  }

  /** The number of columns `str.split('x', expand=True)` produces: the most
      pieces any row splits into. */
  function ExpandedColumns(rows: seq<InputRow>): (w: nat)
    ensures forall k :: 0 <= k < |rows| ==> SizePieces(rows[k].creativeSize) <= w
    ensures w == 0 || exists k :: 0 <= k < |rows| && SizePieces(rows[k].creativeSize) == w
  {
    if rows == [] then 0
    else
      var rest := ExpandedColumns(rows[1..]);
      var here := SizePieces(rows[0].creativeSize);
      assert forall k :: 1 <= k < |rows| ==> rows[k] == rows[1..][k - 1];
      if here < rest then rest else here
  }

  /** Column `n` of the expanded split for one row: the piece, `None` when the
      row has fewer pieces, NaN when the size is not a string. */
  function SizeColumn(c: Cell, n: nat): (r: Cell)
    ensures r == NaN <==> !c.Str?
    ensures r == Null <==> c.Str? && SizePieces(c) <= n
    ensures r.Str? ==> 'x' !in r.s
    ensures r != NaN && r != Null ==> r.Str?
  {
    if c.Str? then
      var pieces := Split(c.s, 'x');
      if n < |pieces| then Str(pieces[n]) else Null
    else NaN
  }

  /** A size with exactly one `x` splits into a width and a height that rebuild
      it, and neither holds an `x`. */
  lemma SizeSplit(c: Cell)
    requires SizePieces(c) == 2
    ensures SizeColumn(c, 0).Str? && SizeColumn(c, 1).Str?
    ensures SizeColumn(c, 0).s + "x" + SizeColumn(c, 1).s == c.s
    ensures 'x' !in SizeColumn(c, 0).s && 'x' !in SizeColumn(c, 1).s
  {
    JoinSplit(c.s, 'x');
  }

  /** The derived columns of one row. */
  function PrepareRow(row: InputRow, identifier: nat, date: Cell, cfg: AliasConfig): PreparedRow {
    PreparedRow(row, identifier, date,
      ClassifyDevice(row.device, cfg),
      ClassifyFormat(row.creativeFormat, cfg),
      SizeColumn(row.creativeSize, 0),
      SizeColumn(row.creativeSize, 1))
  }

  predicate DatesParse(rows: seq<InputRow>, formatDate: Cell -> Option<Cell>) {
    forall k :: 0 <= k < |rows| ==> formatDate(rows[k].date).Some?
  }

  /** `prepare_input_file` on the rows `pd.read_csv` returned. `formatDate`
      stands for `pd.to_datetime(..., format=date_format).dt.strftime('%Y-%m-%d')`
      on one cell: `None` where it raises. */
  function PrepareInputFile(rows: seq<InputRow>, cfg: AliasConfig, formatDate: Cell -> Option<Cell>)
    : (r: Result<seq<PreparedRow>, PrepareError>)
    ensures r.Ok? <==> DatesParse(rows, formatDate) && ExpandedColumns(rows) == 2
    ensures r.Err? && !DatesParse(rows, formatDate) ==> r.error == DateParseError
    ensures r.Err? && DatesParse(rows, formatDate) ==> r.error == SizeColumnsMismatch(ExpandedColumns(rows))
    ensures r.Ok? ==> |r.value| == |rows|
    ensures r.Ok? ==> forall k :: 0 <= k < |rows| ==>
      && r.value[k].identifier == k
      && r.value[k].input == rows[k]
      && Some(r.value[k].formattedDate) == formatDate(rows[k].date)
      && r.value[k].deviceType == ClassifyDevice(rows[k].device, cfg)
      && r.value[k].creativeFormat == ClassifyFormat(rows[k].creativeFormat, cfg)
      && r.value[k].width == SizeColumn(rows[k].creativeSize, 0)
      && r.value[k].height == SizeColumn(rows[k].creativeSize, 1)
  {
    if !DatesParse(rows, formatDate) then Err(DateParseError)
    else
      var columns := ExpandedColumns(rows);
      if columns != 2 then Err(SizeColumnsMismatch(columns))
      else Ok(seq(|rows|, k requires 0 <= k < |rows| =>
        PrepareRow(rows[k], k, formatDate(rows[k].date).value, cfg)))
  }

  /** Every prepared row's width and height are the two halves of its size
      when the size is a string with one `x`, and missing otherwise. */
  lemma PreparedSizes(rows: seq<InputRow>, cfg: AliasConfig, formatDate: Cell -> Option<Cell>, k: nat)
    requires PrepareInputFile(rows, cfg, formatDate).Ok?
    requires k < |rows|
    ensures var p := PrepareInputFile(rows, cfg, formatDate).value[k];
      if SizePieces(rows[k].creativeSize) == 2 then
        p.width.s + "x" + p.height.s == rows[k].creativeSize.s
      else if rows[k].creativeSize.Str? then p.width == rows[k].creativeSize && p.height == Null
      else p.width == NaN && p.height == NaN
  {
    var c := rows[k].creativeSize;
    if SizePieces(c) == 2 {
      SizeSplit(c);
    } else if c.Str? {
      assert SizePieces(c) == 1;
      JoinSplit(c.s, 'x');
    }
  }
}
