// src/dissectBCL/demux.py, the demultiplexing sheet handed to bcl-convert:
// `writeDemuxSheet` renders an `ssDic` entry as the lines of
// demuxSheet.csv, and `readDemuxSheet` parses such a file back (it is
// re-read when a person may have edited it by hand).
module DemuxSheet {
  import opened Wrappers
  import opened Text
  import opened Records
  import opened Misc

  // ---------------------------------------------------------- writeDemuxSheet

  /** `writeDemuxSheet` clears dualIx in place when no index-2 tolerance was computed. */
  function SettledPrep(p: Prep): (q: Prep)
    ensures q.dualIx <==> p.dualIx && p.mismatch.index2.Some?
    ensures q == p.(dualIx := q.dualIx)
  {
    if p.dualIx && p.mismatch.index2.None? then p.(dualIx := false) else p
  }

  /** `"{}".format(mask)`: a mask of None prints as "None". */
  function MaskText(mask: Option<string>): string
  {
    match mask
    case None => "None"
    case Some(m) => m
  }

  function MaskLine(mask: Option<string>): string
  {
    "OverrideCycles," + MaskText(mask) + ",,"
  }

  /** The settings lines before OverrideCycles: the header, the format and the tolerances. */
  function ToleranceLines(p: Prep): seq<string>
  {
    ["[Header],,,", "FileFormatVersion,2,,", ",,,", "[BCLConvert_Settings],,,",
     "BarcodeMismatchesIndex1," + NatToString(p.mismatch.index1) + ",,"]
    + (if p.dualIx && p.mismatch.index2.Some? then
         ["BarcodeMismatchesIndex2," + NatToString(p.mismatch.index2.value) + ",,"]
       else [])
  }

  function DataMarker(dualIx: bool): string
  {
    if dualIx then "[BCLConvert_Data],,,,,," else "[BCLConvert_Data],,,,,"
  }

  /** The data columns, by name. */
  function DataColumns(dualIx: bool, laneSplit: bool): seq<string>
  {
    (if laneSplit then ["Lane"] else []) + ["Sample_ID", "index"]
    + (if dualIx then ["index2"] else []) + ["Sample_Project"]
  }

  /** The header line: "Lane,Sample_ID,index,index2,Sample_Project" less the columns not written. */
  function HeaderLine(dualIx: bool, laneSplit: bool): string
  {
    Join(DataColumns(dualIx, laneSplit), ",")
  }

  function LaneValue(lane: Lane): PyValue
  {
    match lane
    case LaneNo(n) => PyInt(n)
    case LaneText(t) => PyStr(t)
  }

  /** The values a data line joins, in the order of `DataColumns`. */
  function RowValues(r: Row, dualIx: bool, laneSplit: bool): (vs: seq<PyValue>)
    ensures |vs| == |DataColumns(dualIx, laneSplit)|
  {
    (if laneSplit then [LaneValue(r.lane)] else [])
    + [PyStr(r.sampleId), PyStr(CellStr(r.index))]
    + (if dualIx then [PyStr(CellStr(r.index2))] else [])
    + [PyStr(r.project)]
  }

  function RowLine(r: Row, dualIx: bool, laneSplit: bool): string
  {
    JoinLis(RowValues(r, dualIx, laneSplit), ",")
  }

  function RowLines(rows: seq<Row>, dualIx: bool, laneSplit: bool): (lines: seq<string>)
    ensures |lines| == |rows|
    ensures forall i :: 0 <= i < |rows| ==> lines[i] == RowLine(rows[i], dualIx, laneSplit)
  {
    seq(|rows|, i requires 0 <= i < |rows| => RowLine(rows[i], dualIx, laneSplit))
  }

  /** The lines `writeDemuxSheet` writes for an entry's prepared keys and sample rows. */
  function DemuxSheetLines(p: Prep, rows: seq<Row>, laneSplit: bool): seq<string>
  {
    var dualIx := SettledPrep(p).dualIx;
    ToleranceLines(p) + [MaskLine(p.mask)] + p.convertOpts + [",,,"]
    + [DataMarker(dualIx), HeaderLine(dualIx, laneSplit)] + RowLines(rows, dualIx, laneSplit)
  }

  // ----------------------------------------------------------- readDemuxSheet

  /** The loop state of `readDemuxSheet`: `sampleStatus`, `nesLis` and `mask` (unbound: None). */
  datatype ReadState = ReadState(sampleStatus: bool, nesLis: seq<seq<string>>, mask: Option<string>)

  const StartState := ReadState(false, [], None)

  /** One line of the file: strip it, take a mask from it, keep it if in the data section. */
  function ReadStep(st: ReadState, raw: string): ReadState
  {
    var line := Strip(raw);
    var mask :=
      if "OverrideCycles" <= line then Some(ReplaceAll(ReplaceAll(line, "OverrideCycles", ""), ",", ""))
      else st.mask;
    var nesLis := if st.sampleStatus then st.nesLis + [Split(line, ',')] else st.nesLis;
    var status := st.sampleStatus || "[BCLConvert_Data]" <= line || "[Data]" <= line;
    ReadState(status, nesLis, mask)
  }

  function ReadLines(st: ReadState, lines: seq<string>): ReadState
    decreases |lines|
  {
    if |lines| == 0 then st else ReadStep(ReadLines(st, lines[..|lines| - 1]), lines[|lines| - 1])
  }

  /** A pandas DataFrame of text cells; a cell pandas pads a short row with is None. */
  datatype Table = Table(columns: seq<string>, rows: seq<seq<Option<string>>>)

  /** What `readDemuxSheet` returns: the mask (None if no OverrideCycles line), the table, dualIx. */
  datatype ManualSheet = ManualSheet(mask: Option<string>, df: Table, dualIx: bool)

  function MaxLen(rows: seq<seq<string>>): (m: nat)
    ensures forall i :: 0 <= i < |rows| ==> |rows[i]| <= m
    ensures |rows| > 0 ==> exists i :: 0 <= i < |rows| && |rows[i]| == m
    decreases |rows|
  {
    if |rows| == 0 then 0
    else
      var rest := MaxLen(rows[1..]);
      assert forall i :: 1 <= i < |rows| ==> rows[i] == rows[1..][i - 1];
      if |rows[0]| >= rest then |rows[0]| else rest
  }

  function Pad(cells: seq<string>, n: nat): (r: seq<Option<string>>)
    requires |cells| <= n
    ensures |r| == n
  {
    seq(n, k requires 0 <= k < n => if k < |cells| then Some(cells[k]) else None)
  }

  /**
   * `pd.DataFrame(nesLis[1:], columns=nesLis[0])`: an IndexError without
   * any data line, a ValueError when the longest row does not have as many
   * cells as there are columns; shorter rows are padded.
   */
  function Frame(nesLis: seq<seq<string>>): Result<Table>
  {
    if |nesLis| == 0 then Err("IndexError: list index out of range")
    else
      var cols := nesLis[0];
      var data := nesLis[1..];
      if |data| > 0 && MaxLen(data) != |cols| then Err("ValueError: columns passed do not match the data")
      else Ok(Table(cols, seq(|data|, i requires 0 <= i < |data| => Pad(data[i], |cols|))))
  }

  /** `readDemuxSheet` over the file's lines. */
  function ReadDemuxSheet(lines: seq<string>): Result<ManualSheet>
  {
    var st := ReadLines(StartState, lines);
    match Frame(st.nesLis)
    case Err(e) => Err(e)
    case Ok(t) => Ok(ManualSheet(st.mask, t, "index2" in t.columns))
  }

  /** `readDemuxSheet`: the line loop, then the DataFrame. */
  method ReadDemuxSheetLoop(lines: seq<string>) returns (r: Result<ManualSheet>)
    ensures r == ReadDemuxSheet(lines)
  {
    var sampleStatus := false;
    var nesLis: seq<seq<string>> := [];
    var mask: Option<string> := None;
    var i := 0;
    while i < |lines|
      invariant 0 <= i <= |lines|
      invariant ReadState(sampleStatus, nesLis, mask) == ReadLines(StartState, lines[..i])
    {
      assert lines[..i + 1][..i] == lines[..i];
      var line := Strip(lines[i]);
      if "OverrideCycles" <= line {
        mask := Some(ReplaceAll(ReplaceAll(line, "OverrideCycles", ""), ",", ""));
      }
      if sampleStatus {
        nesLis := nesLis + [Split(line, ',')];
      }
      if "[BCLConvert_Data]" <= line || "[Data]" <= line {
        sampleStatus := true;
      }
      i := i + 1;
    }
    assert lines[..i] == lines;
    var df := Frame(nesLis);
    if df.Err? {
      return Err(df.reason);
    }
    r := Ok(ManualSheet(mask, df.value, "index2" in df.value.columns));
  }

  // -------------------------------------------------------------- round trip

  lemma {:induction false} ReadLinesConcat(st: ReadState, a: seq<string>, b: seq<string>)
    ensures ReadLines(st, a + b) == ReadLines(ReadLines(st, a), b)
    decreases |b|
  {
    if |b| == 0 {
      assert a + b == a;
    } else {
      ReadLinesConcat(st, a, b[..|b| - 1]);
      assert (a + b)[..|a + b| - 1] == a + b[..|b| - 1];
    }
  }

  /** A line `readDemuxSheet` passes over outside the data section. */
  predicate Inert(line: string)
  {
    var l := Strip(line);
    !("OverrideCycles" <= l) && !("[BCLConvert_Data]" <= l) && !("[Data]" <= l)
  }

  lemma {:induction false} StripRightKeepsStart(s: string)
    requires |s| > 0 && !IsSpace(s[0])
    ensures |StripRight(s)| > 0 && StripRight(s)[0] == s[0]
    decreases |s|
  {
    if IsSpace(s[|s| - 1]) {
      StripRightKeepsStart(s[..|s| - 1]);
    }
  }

  lemma {:induction false} StripNoSpace(s: string)
    requires NoSpace(s)
    ensures Strip(s) == s
  {
    if |s| > 0 {
      assert !IsSpace(s[0]) && !IsSpace(s[|s| - 1]);
    }
  }

  /** A line that starts with neither white space, 'O' nor '[' is inert. */
  lemma FirstCharInert(line: string)
    requires |line| > 0 && !IsSpace(line[0]) && line[0] != 'O' && line[0] != '['
    ensures Inert(line)
  {
    StripRightKeepsStart(line);
    assert Strip(line)[0] == line[0];
  }

  lemma {:induction false} ReadInert(st: ReadState, lines: seq<string>)
    requires !st.sampleStatus
    requires forall i :: 0 <= i < |lines| ==> Inert(lines[i])
    ensures ReadLines(st, lines) == st
    decreases |lines|
  {
    if |lines| > 0 {
      ReadInert(st, lines[..|lines| - 1]);
    }
  }

  /** Data lines: each is split on ',' and kept. */
  function Fields(lines: seq<string>): (r: seq<seq<string>>)
    ensures |r| == |lines|
  {
    seq(|lines|, i requires 0 <= i < |lines| => Split(Strip(lines[i]), ','))
  }

  lemma {:induction false} ReadData(st: ReadState, lines: seq<string>)
    requires st.sampleStatus
    requires forall i :: 0 <= i < |lines| ==> !("OverrideCycles" <= Strip(lines[i]))
    ensures ReadLines(st, lines) == st.(nesLis := st.nesLis + Fields(lines))
    decreases |lines|
  {
    if |lines| > 0 {
      var n := |lines| - 1;
      ReadData(st, lines[..n]);
      assert Fields(lines) == Fields(lines[..n]) + [Split(Strip(lines[n]), ',')];
    } else {
      assert st.nesLis + Fields(lines) == st.nesLis;
    }
  }

  /** A line with no white space at either end is its own strip. */
  lemma StripEnds(s: string)
    requires |s| > 0 && !IsSpace(s[0]) && !IsSpace(s[|s| - 1])
    ensures Strip(s) == s
  {
  }

  /** A line with no white space at either end is inert when its letters rule out the three prefixes. */
  lemma BracketInert(line: string)
    requires |line| > 1 && !IsSpace(line[0]) && !IsSpace(line[|line| - 1])
    requires line[0] != 'O' && line[1] != 'D' && (|line| > 12 ==> line[12] != 'D')
    ensures Inert(line)
  {
    StripEnds(line);
    assert "[Data]"[1] == 'D' && "[BCLConvert_Data]"[12] == 'D';
  }

  lemma ToleranceLinesInert(p: Prep)
    ensures forall i :: 0 <= i < |ToleranceLines(p)| ==> Inert(ToleranceLines(p)[i])
  {
    var m1 := "BarcodeMismatchesIndex1," + NatToString(p.mismatch.index1) + ",,";
    var base := ["[Header],,,", "FileFormatVersion,2,,", ",,,", "[BCLConvert_Settings],,,", m1];
    BracketInert(base[0]);
    FirstCharInert(base[1]);
    FirstCharInert(base[2]);
    BracketInert(base[3]);
    assert m1[0] == 'B';
    FirstCharInert(m1);
    assert forall i :: 0 <= i < |base| ==> Inert(base[i]);
    if p.dualIx && p.mismatch.index2.Some? {
      var m2 := "BarcodeMismatchesIndex2," + NatToString(p.mismatch.index2.value) + ",,";
      assert m2[0] == 'B';
      FirstCharInert(m2);
      assert ToleranceLines(p) == base + [m2];
    } else {
      assert ToleranceLines(p) == base;
    }
  }

  lemma {:induction false} ReplaceAllOfAbsentHead(s: string, pat: string)
    requires |pat| > 0 && pat[0] !in s
    ensures ReplaceAll(s, pat, "") == s
    decreases |s|
  {
    if |s| >= |pat| {
      assert s[0] != pat[0];
      assert s[..|pat|] != pat;
      ReplaceAllOfAbsentHead(s[1..], pat);
      assert s == [s[0]] + s[1..];
    }
  }

  /** The mask line reads back as the mask's text, when that text has no ',' and no 'O'. */
  lemma MaskLineReads(mask: Option<string>)
    requires ',' !in MaskText(mask) && 'O' !in MaskText(mask)
    ensures var line := Strip(MaskLine(mask));
      "OverrideCycles" <= line
      && ReplaceAll(ReplaceAll(line, "OverrideCycles", ""), ",", "") == MaskText(mask)
      && !("[BCLConvert_Data]" <= line) && !("[Data]" <= line)
  {
    var m := MaskText(mask);
    var line := MaskLine(mask);
    StripRightKeepsStart(line);
    assert StripRight(line) == line;
    assert Strip(line) == line;
    var rest := "," + m + ",,";
    assert line == "OverrideCycles" + rest;
    assert line[..|"OverrideCycles"|] == "OverrideCycles";
    ReplaceAllOfAbsentHead(rest, "OverrideCycles");
    assert ReplaceAll(line, "OverrideCycles", "") == rest;
    ReplaceCharConcat(",", m + ",,", ',', "");
    ReplaceCharConcat(m, ",,", ',', "");
    ReplaceCharAbsent(m, ',', "");
    assert rest == "," + (m + ",,");
  }

  /** A cell `writeDemuxSheet` can write and read back: no ',' and no white space. */
  predicate Plain(s: string)
  {
    ',' !in s && NoSpace(s)
  }

  /** What a row needs for its data line to read back cell for cell. */
  predicate RowPlain(r: Row, laneSplit: bool)
  {
    && (laneSplit ==> r.lane.LaneNo?)
    && (forall v :: v in RowValues(r, true, laneSplit) ==> Plain(Str(v)))
    && !("OverrideCycles" <= r.sampleId)
  }

  lemma {:induction false} JoinNoSpace(parts: seq<string>, sep: string)
    requires NoSpace(sep) && forall i :: 0 <= i < |parts| ==> NoSpace(parts[i])
    ensures NoSpace(Join(parts, sep))
    decreases |parts|
  {
    if |parts| > 1 {
      JoinNoSpace(parts[1..], sep);
      var rest := Join(parts[1..], sep);
      assert Join(parts, sep) == parts[0] + sep + rest;
      forall k | 0 <= k < |Join(parts, sep)|
        ensures !IsSpace(Join(parts, sep)[k])
      {
        if k < |parts[0]| {
        } else if k < |parts[0]| + |sep| {
          assert Join(parts, sep)[k] == sep[k - |parts[0]|];
        } else {
          assert Join(parts, sep)[k] == rest[k - |parts[0]| - |sep|];
        }
      }
    }
  }

  lemma {:induction false} JoinStartsWithFirst(parts: seq<string>, sep: string)
    requires |parts| > 1
    ensures Join(parts, sep) == parts[0] + sep + Join(parts[1..], sep)
  {
  }

  lemma IntToStringStart(n: int)
    ensures |IntToString(n)| > 0 && IntToString(n)[0] != 'O'
  {
    if n >= 0 {
      assert IsDigit(NatToString(n)[0]);
    }
  }

  /** The data line of a plain row reads back as its values. */
  lemma RowLineReads(r: Row, dualIx: bool, laneSplit: bool)
    requires RowPlain(r, laneSplit)
    ensures !("OverrideCycles" <= Strip(RowLine(r, dualIx, laneSplit)))
    ensures Split(Strip(RowLine(r, dualIx, laneSplit)), ',') == Rendered(RowValues(r, dualIx, laneSplit))
  {
    var vs := RowValues(r, dualIx, laneSplit);
    var all := RowValues(r, true, laneSplit);
    assert forall v :: v in vs ==> v in all;
    var parts := Rendered(vs);
    forall i | 0 <= i < |parts|
      ensures NoSpace(parts[i]) && ',' !in parts[i]
    {
      assert vs[i] in vs;
    }
    JoinNoSpace(parts, ",");
    var line := RowLine(r, dualIx, laneSplit);
    StripNoSpace(line);
    JoinLisSplit(vs, ',');
    assert |parts| > 1;
    JoinStartsWithFirst(parts, ",");
    if laneSplit {
      IntToStringStart(r.lane.n);
      assert parts[0] == IntToString(r.lane.n);
    } else {
      assert parts[0] == r.sampleId;
      NotOverrideThroughComma(r.sampleId, Join(parts[1..], ","));
    }
  }

  lemma NotOverrideThroughComma(id: string, tail: string)
    requires !("OverrideCycles" <= id) && ',' !in id
    ensures !("OverrideCycles" <= id + "," + tail)
  {
    var line := id + "," + tail;
    if |id| >= |"OverrideCycles"| {
      assert line[..|"OverrideCycles"|] == id[..|"OverrideCycles"|];
    } else {
      assert line[|id|] == ',';
      assert forall k :: 0 <= k < |"OverrideCycles"| ==> "OverrideCycles"[k] != ',';
    }
  }

  lemma {:induction false} RowLinesRead(rows: seq<Row>, dualIx: bool, laneSplit: bool)
    requires forall i :: 0 <= i < |rows| ==> RowPlain(rows[i], laneSplit)
    ensures forall i :: 0 <= i < |rows| ==> !("OverrideCycles" <= Strip(RowLines(rows, dualIx, laneSplit)[i]))
    ensures Fields(RowLines(rows, dualIx, laneSplit)) ==
      seq(|rows|, i requires 0 <= i < |rows| => Rendered(RowValues(rows[i], dualIx, laneSplit)))
  {
    forall i | 0 <= i < |rows|
      ensures !("OverrideCycles" <= Strip(RowLines(rows, dualIx, laneSplit)[i]))
      ensures Split(Strip(RowLines(rows, dualIx, laneSplit)[i]), ',') == Rendered(RowValues(rows[i], dualIx, laneSplit))
    {
      RowLineReads(rows[i], dualIx, laneSplit);
    }
  }

  /** The data column names are plain words, at least two of them. */
  lemma DataColumnsPlain(dualIx: bool, laneSplit: bool)
    ensures var cols := DataColumns(dualIx, laneSplit);
      && |cols| > 1 && (cols[0] == "Lane" || cols[0] == "Sample_ID")
      && forall i :: 0 <= i < |cols| ==> ',' !in cols[i] && NoSpace(cols[i])
  {
    var cols := DataColumns(dualIx, laneSplit);
    var words := ["Lane", "Sample_ID", "index", "index2", "Sample_Project"];
    forall w | w in words
      ensures ',' !in w && NoSpace(w)
    {
      WordPlain(w);
    }
    assert forall i :: 0 <= i < |cols| ==> cols[i] in words;
  }

  /** A word of ASCII letters, digits and '_' has no ',' and no white space. */
  lemma WordPlain(w: string)
    requires forall i :: 0 <= i < |w| ==> 'A' <= w[i] <= 'z' || '0' <= w[i] <= '9'
    ensures ',' !in w && NoSpace(w)
  {
  }

  lemma HeaderReads(dualIx: bool, laneSplit: bool)
    ensures Split(Strip(HeaderLine(dualIx, laneSplit)), ',') == DataColumns(dualIx, laneSplit)
    ensures !("OverrideCycles" <= Strip(HeaderLine(dualIx, laneSplit)))
  {
    var cols := DataColumns(dualIx, laneSplit);
    var line := HeaderLine(dualIx, laneSplit);
    DataColumnsPlain(dualIx, laneSplit);
    JoinNoSpace(cols, ",");
    StripNoSpace(line);
    SplitJoin(cols, ',');
    JoinStartsWithFirst(cols, ",");
    assert line == cols[0] + "," + Join(cols[1..], ",");
    assert line[0] == cols[0][0] != 'O';
  }

  lemma DataMarkerReads(dualIx: bool)
    ensures "[BCLConvert_Data]" <= Strip(DataMarker(dualIx))
    ensures !("OverrideCycles" <= Strip(DataMarker(dualIx)))
  {
    StripNoSpace(DataMarker(dualIx));
  }

  /** The cells a plain row reads back as: the `str` of each written value. */
  function RowCells(r: Row, dualIx: bool, laneSplit: bool): (cells: seq<Option<string>>)
    ensures |cells| == |DataColumns(dualIx, laneSplit)|
  {
    Present(Rendered(RowValues(r, dualIx, laneSplit)))
  }

  /** Everything before the data section leaves only the mask behind. */
  lemma ReadSettings(p: Prep, dualIx: bool)
    requires ',' !in MaskText(p.mask) && 'O' !in MaskText(p.mask)
    requires forall i :: 0 <= i < |p.convertOpts| ==> Inert(p.convertOpts[i])
    ensures ReadLines(StartState, ToleranceLines(p) + [MaskLine(p.mask)] + p.convertOpts + [",,,"] + [DataMarker(dualIx)])
      == ReadState(true, [], Some(MaskText(p.mask)))
  {
    var tol := ToleranceLines(p);
    var opts := p.convertOpts + [",,,"];
    var st1 := ReadState(false, [], Some(MaskText(p.mask)));
    assert ReadLines(StartState, tol + [MaskLine(p.mask)]) == st1 by {
      ReadThroughMask(p);
    }
    assert ReadLines(st1, opts) == st1 by {
      FirstCharInert(",,,");
      assert forall i :: 0 <= i < |opts| ==> Inert(opts[i]);
      ReadInert(st1, opts);
    }
    assert ReadLines(st1, [DataMarker(dualIx)]) == ReadState(true, [], Some(MaskText(p.mask))) by {
      DataMarkerReads(dualIx);
      assert [DataMarker(dualIx)][..0] == [];
    }
    ReadThree(StartState, tol + [MaskLine(p.mask)], opts, [DataMarker(dualIx)]);
    assert tol + [MaskLine(p.mask)] + opts == ToleranceLines(p) + [MaskLine(p.mask)] + p.convertOpts + [",,,"];
  }

  /** The tolerance lines change nothing; the mask line then records the mask. */
  lemma ReadThroughMask(p: Prep)
    requires ',' !in MaskText(p.mask) && 'O' !in MaskText(p.mask)
    ensures ReadLines(StartState, ToleranceLines(p) + [MaskLine(p.mask)]) == ReadState(false, [], Some(MaskText(p.mask)))
  {
    var tol := ToleranceLines(p);
    ToleranceLinesInert(p);
    ReadInert(StartState, tol);
    MaskLineReads(p.mask);
    assert ReadLines(StartState, [MaskLine(p.mask)]) == ReadState(false, [], Some(MaskText(p.mask))) by {
      assert [MaskLine(p.mask)][..0] == [];
    }
    ReadLinesConcat(StartState, tol, [MaskLine(p.mask)]);
  }

  lemma ReadThree(st: ReadState, a: seq<string>, b: seq<string>, c: seq<string>)
    ensures ReadLines(st, a + b + c) == ReadLines(ReadLines(ReadLines(st, a), b), c)
  {
    ReadLinesConcat(st, a, b);
    ReadLinesConcat(st, a + b, c);
  }

  /** The rendered values of each row, as the data lines split back into cells. */
  function RenderedRows(rows: seq<Row>, dualIx: bool, laneSplit: bool): (r: seq<seq<string>>)
    ensures |r| == |rows|
  {
    seq(|rows|, i requires 0 <= i < |rows| => Rendered(RowValues(rows[i], dualIx, laneSplit)))
  }

  /** A line before a run of lines: its fields come first, and so does its mask test. */
  lemma FieldsCons(h: string, t: seq<string>)
    requires !("OverrideCycles" <= Strip(h))
    requires forall i :: 0 <= i < |t| ==> !("OverrideCycles" <= Strip(t[i]))
    ensures Fields([h] + t) == [Split(Strip(h), ',')] + Fields(t)
    ensures forall i :: 0 <= i < |[h] + t| ==> !("OverrideCycles" <= Strip(([h] + t)[i]))
  {
    var l := [h] + t;
    forall i | 0 <= i < |l|
      ensures !("OverrideCycles" <= Strip(l[i]))
    {
      if i > 0 {
        assert l[i] == t[i - 1];
      }
    }
  }

  /** The header and the data lines are kept, split on ','. */
  lemma ReadDataSection(st: ReadState, rows: seq<Row>, dualIx: bool, laneSplit: bool)
    requires st.sampleStatus && st.nesLis == []
    requires forall i :: 0 <= i < |rows| ==> RowPlain(rows[i], laneSplit)
    ensures ReadLines(st, [HeaderLine(dualIx, laneSplit)] + RowLines(rows, dualIx, laneSplit))
      == st.(nesLis := [DataColumns(dualIx, laneSplit)] + RenderedRows(rows, dualIx, laneSplit))
  {
    var header := HeaderLine(dualIx, laneSplit);
    var body := RowLines(rows, dualIx, laneSplit);
    HeaderReads(dualIx, laneSplit);
    RowLinesRead(rows, dualIx, laneSplit);
    FieldsCons(header, body);
    ReadData(st, [header] + body);
    assert Fields(body) == RenderedRows(rows, dualIx, laneSplit);
  }

  /** The table pandas builds from a header and rows of as many cells. */
  lemma FrameOfFullRows(cols: seq<string>, data: seq<seq<string>>)
    requires forall i :: 0 <= i < |data| ==> |data[i]| == |cols|
    ensures Frame([cols] + data) == Ok(Table(cols, seq(|data|, i requires 0 <= i < |data| => Present(data[i]))))
  {
    var nes := [cols] + data;
    assert nes[0] == cols && nes[1..] == data;
    if |data| > 0 {
      assert MaxLen(data) == |cols|;
    }
    var padded := seq(|data|, i requires 0 <= i < |data| => Pad(data[i], |cols|));
    assert Frame(nes) == Ok(Table(cols, padded));
    forall i | 0 <= i < |data|
      ensures padded[i] == Present(data[i])
    {
    }
    assert padded == seq(|data|, i requires 0 <= i < |data| => Present(data[i]));
  }

  /** Each cell of a row, as a present cell. */
  function Present(cells: seq<string>): (r: seq<Option<string>>)
    ensures |r| == |cells| && forall k :: 0 <= k < |cells| ==> r[k] == Some(cells[k])
  {
    seq(|cells|, k requires 0 <= k < |cells| => Some(cells[k]))
  }

  /**
   * `readDemuxSheet` undoes `writeDemuxSheet`: the mask written on the
   * OverrideCycles line comes back (a mask of None as the text "None"),
   * the data section comes back as a table with the written columns and
   * one row of cells per sample, and dualIx is read back as the value the
   * writer settled on.
   */
  lemma WriteReadRoundTrip(p: Prep, rows: seq<Row>, laneSplit: bool)
    requires ',' !in MaskText(p.mask) && 'O' !in MaskText(p.mask)
    requires forall i :: 0 <= i < |p.convertOpts| ==> Inert(p.convertOpts[i])
    requires forall i :: 0 <= i < |rows| ==> RowPlain(rows[i], laneSplit)
    ensures var dualIx := SettledPrep(p).dualIx;
      ReadDemuxSheet(DemuxSheetLines(p, rows, laneSplit)) ==
        Ok(ManualSheet(
          Some(MaskText(p.mask)),
          Table(DataColumns(dualIx, laneSplit), seq(|rows|, i requires 0 <= i < |rows| => RowCells(rows[i], dualIx, laneSplit))),
          dualIx))
  {
    var dualIx := SettledPrep(p).dualIx;
    ReadSheetLines(p, rows, laneSplit);
    ReadOfDataSection(DemuxSheetLines(p, rows, laneSplit), MaskText(p.mask), rows, dualIx, laneSplit);
  }

  /** What `readDemuxSheet` returns once the line loop has kept a written data section. */
  lemma ReadOfDataSection(lines: seq<string>, mask: string, rows: seq<Row>, dualIx: bool, laneSplit: bool)
    requires ReadLines(StartState, lines)
      == ReadState(true, [DataColumns(dualIx, laneSplit)] + RenderedRows(rows, dualIx, laneSplit), Some(mask))
    ensures ReadDemuxSheet(lines) ==
      Ok(ManualSheet(
        Some(mask),
        Table(DataColumns(dualIx, laneSplit), seq(|rows|, i requires 0 <= i < |rows| => RowCells(rows[i], dualIx, laneSplit))),
        dualIx))
  {
    var cols := DataColumns(dualIx, laneSplit);
    var data := RenderedRows(rows, dualIx, laneSplit);
    FrameOfFullRows(cols, data);
    var t := Frame([cols] + data).value;
    assert t.rows == seq(|rows|, i requires 0 <= i < |rows| => RowCells(rows[i], dualIx, laneSplit));
    assert ("index2" in cols) == dualIx;
  }

  /** The line loop over a written sheet ends with the mask and the data section's cells. */
  lemma ReadSheetLines(p: Prep, rows: seq<Row>, laneSplit: bool)
    requires ',' !in MaskText(p.mask) && 'O' !in MaskText(p.mask)
    requires forall i :: 0 <= i < |p.convertOpts| ==> Inert(p.convertOpts[i])
    requires forall i :: 0 <= i < |rows| ==> RowPlain(rows[i], laneSplit)
    ensures var dualIx := SettledPrep(p).dualIx;
      ReadLines(StartState, DemuxSheetLines(p, rows, laneSplit))
        == ReadState(true, [DataColumns(dualIx, laneSplit)] + RenderedRows(rows, dualIx, laneSplit), Some(MaskText(p.mask)))
  {
    var dualIx := SettledPrep(p).dualIx;
    var head := ToleranceLines(p) + [MaskLine(p.mask)] + p.convertOpts + [",,,"] + [DataMarker(dualIx)];
    var rest := [HeaderLine(dualIx, laneSplit)] + RowLines(rows, dualIx, laneSplit);
    assert DemuxSheetLines(p, rows, laneSplit) == head + rest;
    ReadSettings(p, dualIx);
    ReadLinesConcat(StartState, head, rest);
    ReadDataSection(ReadState(true, [], Some(MaskText(p.mask))), rows, dualIx, laneSplit);
  }
}
