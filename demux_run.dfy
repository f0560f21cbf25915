// src/dissectBCL/demux.py, the stages that act on the output directory:
// `prepConvert` fills each `ssDic` entry with its mask and tolerances,
// `writeDemuxSheet` writes the entry's sheet (settling dualIx in place), and
// `demux` walks the output folders, resumes from what a previous run left
// (a demux sheet, the bclconvert.done marker), launches bcl-convert with one
// retry on exit -6, and folds the demultiplexing statistics back in.
module DemuxRun {
  import opened Wrappers
  import opened Text
  import opened Records
  import opened Misc
  import opened Demux
  import opened DemuxSheet
  import opened RunDir
  import opened FlowcellSheet

  // ------------------------------------------------------------- prepConvert

  /** `series.str[:n]` on one cell: NaN stays NaN. */
  function Cut(c: Option<string>, n: nat): (r: Option<string>)
    ensures r.Some? <==> c.Some?
    ensures r.Some? ==> r.value <= c.value && |r.value| == if |c.value| <= n then |c.value| else n
  {
    match c
    case None => None
    case Some(s) => Some(if |s| <= n then s else s[..n])
  }

  /** A minimum length counts only when it is truthy: present and not 0. */
  function Truthy(m: Option<nat>): bool
  {
    m.Some? && m.value > 0
  }

  /** The index and index2 columns cut to the minimum lengths, when those are truthy. */
  function TruncateSheet(sheet: Sheet, minP7: Option<nat>, minP5: Option<nat>): (t: Sheet)
    ensures t.cols == sheet.cols && |t.rows| == |sheet.rows|
  {
    Sheet(sheet.cols, seq(|sheet.rows|, i requires 0 <= i < |sheet.rows| =>
      sheet.rows[i].(
        index := if Truthy(minP7) then Cut(sheet.rows[i].index, minP7.value) else sheet.rows[i].index,
        index2 := if Truthy(minP5) then Cut(sheet.rows[i].index2, minP5.value) else sheet.rows[i].index2)))
  }

  /** `P5Seriesret`: the index2 column, or an empty series without one. */
  function P5Cells(sheet: Sheet): seq<Option<string>>
  {
    if sheet.cols.index2 then Index2Cells(sheet.rows) else []
  }

  /** One folder of `prepConvert`: `detMask`, the cut to equal index lengths, then `misMatcher`. */
  function PrepEntry(e: OutLane, recipe: SeqRecipe): (r: Result<OutLane>)
    ensures r.Ok? ==> r.value.name == e.name && r.value.prep.Some? && |r.value.sheet.rows| == |e.sheet.rows|
  {
    match DetMask(recipe, e.sheet)
    case Err(m) => Err(m)
    case Ok(info) =>
      var sheet := TruncateSheet(e.sheet, info.minP7, info.minP5);
      match MisMatch(IndexCells(sheet.rows), P5Cells(sheet))
      case Err(m) => Err(m)
      case Ok(mm) =>
        Ok(e.(sheet := sheet, prep := Some(Prep(Some(info.mask), info.dualIx, info.pe, info.convertOpts, mm))))
  }

  /** The folder's bcl-convert marker exists. */
  predicate Converted(markers: set<Marker>, folder: string)
  {
    (folder, BclConvertDone) in markers
  }

  /**
   * `prepConvert` over the entries from position `i` on, in order: folders
   * with the marker are skipped; the first exception stops the loop and
   * leaves the failing entry and those after it as they were.
   */
  function PrepFrom(entries: seq<OutLane>, i: nat, recipe: SeqRecipe, markers: set<Marker>): (r: (seq<OutLane>, Option<string>))
    ensures |r.0| == |entries|
    decreases |entries| - i
  {
    if i >= |entries| then (entries, None)
    else if Converted(markers, entries[i].name) then PrepFrom(entries, i + 1, recipe, markers)
    else
      match PrepEntry(entries[i], recipe)
      case Err(m) => (entries, Some(m))
      case Ok(e) => PrepFrom(entries[i := e], i + 1, recipe, markers)
  }

  /** `prepConvert` over all of `ssDic`. */
  function PrepAll(entries: seq<OutLane>, recipe: SeqRecipe, markers: set<Marker>): (seq<OutLane>, Option<string>)
  {
    PrepFrom(entries, 0, recipe, markers)
  }

  /** `prepConvert`, updating the entries of `ssDic` in place. */
  method PrepConvert(ss: SampleSheet, recipe: SeqRecipe, markers: set<Marker>) returns (r: Result<()>)
    modifies ss
    ensures ss.ssDic == PrepAll(old(ss.ssDic), recipe, markers).0
    ensures r.Err? <==> PrepAll(old(ss.ssDic), recipe, markers).1.Some?
    ensures ss.flowcell == old(ss.flowcell) && ss.runInfoLanes == old(ss.runInfoLanes)
    ensures ss.fullSS == old(ss.fullSS) && ss.laneSplitStatus == old(ss.laneSplitStatus)
  {
    var i := 0;
    while i < |ss.ssDic|
      invariant i <= |ss.ssDic| == |old(ss.ssDic)|
      invariant PrepFrom(ss.ssDic, i, recipe, markers) == PrepAll(old(ss.ssDic), recipe, markers)
      invariant ss.flowcell == old(ss.flowcell) && ss.runInfoLanes == old(ss.runInfoLanes)
      invariant ss.fullSS == old(ss.fullSS) && ss.laneSplitStatus == old(ss.laneSplitStatus)
      decreases |ss.ssDic| - i
    {
      var e := ss.ssDic[i];
      if !Converted(markers, e.name) {
        var p := PrepOne(e, recipe);
        if p.Err? {
          return Err(p.reason);
        }
        ss.ssDic := ss.ssDic[i := p.value];
      }
      i := i + 1;
    }
    r := Ok(());
  }

  /** One folder of `prepConvert`'s loop. */
  method PrepOne(e: OutLane, recipe: SeqRecipe) returns (r: Result<OutLane>)
    ensures r == PrepEntry(e, recipe)
  {
    var d := DetMask(recipe, e.sheet);
    if d.Err? {
      return Err(d.reason);
    }
    var info := d.value;
    var sheet := TruncateSheet(e.sheet, info.minP7, info.minP5);
    var mm := MisMatcher(IndexCells(sheet.rows), P5Cells(sheet));
    if mm.Err? {
      return Err(mm.reason);
    }
    r := Ok(e.(sheet := sheet, prep := Some(Prep(Some(info.mask), info.dualIx, info.pe, info.convertOpts, mm.value))));
  }

  /** `prepConvert` from `i` on keeps every folder's name. */
  lemma {:induction false} PrepFromNames(entries: seq<OutLane>, i: nat, recipe: SeqRecipe, markers: set<Marker>)
    ensures var res := PrepFrom(entries, i, recipe, markers).0;
      forall k :: 0 <= k < |entries| ==> res[k].name == entries[k].name
    decreases |entries| - i
  {
    if i < |entries| {
      var p := PrepEntry(entries[i], recipe);
      if Converted(markers, entries[i].name) {
        PrepFromNames(entries, i + 1, recipe, markers);
      } else if p.Ok? {
        PrepFromNames(entries[i := p.value], i + 1, recipe, markers);
      }
    }
  }

  /** `prepConvert` from `i` on leaves the folders before `i` and every converted folder as they were. */
  lemma {:induction false} PrepFromUntouched(entries: seq<OutLane>, i: nat, recipe: SeqRecipe, markers: set<Marker>)
    ensures var res := PrepFrom(entries, i, recipe, markers).0;
      forall k :: 0 <= k < |entries| && (k < i || Converted(markers, entries[k].name)) ==> res[k] == entries[k]
    decreases |entries| - i
  {
    if i < |entries| {
      var p := PrepEntry(entries[i], recipe);
      if Converted(markers, entries[i].name) {
        PrepFromUntouched(entries, i + 1, recipe, markers);
      } else if p.Ok? {
        var next := entries[i := p.value];
        PrepFromUntouched(next, i + 1, recipe, markers);
        var res := PrepFrom(next, i + 1, recipe, markers).0;
        assert PrepFrom(entries, i, recipe, markers).0 == res;
        forall k | 0 <= k < |entries| && (k < i || Converted(markers, entries[k].name))
          ensures res[k] == entries[k]
        {
          assert k != i && next[k] == entries[k];
        }
      }
    }
  }

  /** When `prepConvert` from `i` on raises nothing, every folder from `i` on without the marker is prepared. */
  lemma {:induction false} PrepFromPrepares(entries: seq<OutLane>, i: nat, recipe: SeqRecipe, markers: set<Marker>)
    requires PrepFrom(entries, i, recipe, markers).1.None?
    ensures var res := PrepFrom(entries, i, recipe, markers).0;
      forall k :: i <= k < |entries| && !Converted(markers, entries[k].name) ==> PrepEntry(entries[k], recipe) == Ok(res[k])
    decreases |entries| - i
  {
    if i < |entries| {
      var p := PrepEntry(entries[i], recipe);
      if Converted(markers, entries[i].name) {
        PrepFromPrepares(entries, i + 1, recipe, markers);
      } else if p.Ok? {
        var next := entries[i := p.value];
        PrepFromPrepares(next, i + 1, recipe, markers);
        PrepFromUntouched(next, i + 1, recipe, markers);
      }
    }
  }

  /** `prepConvert` keeps the folders and their order and leaves a converted folder untouched. */
  lemma PrepAllKeeps(entries: seq<OutLane>, recipe: SeqRecipe, markers: set<Marker>)
    ensures var res := PrepAll(entries, recipe, markers).0;
      && (forall k :: 0 <= k < |entries| ==> res[k].name == entries[k].name)
      && (forall k :: 0 <= k < |entries| && Converted(markers, entries[k].name) ==> res[k] == entries[k])
  {
    PrepFromNames(entries, 0, recipe, markers);
    PrepFromUntouched(entries, 0, recipe, markers);
  }

  /** When `prepConvert` raises nothing, every folder without the marker has been prepared. */
  lemma PrepAllPrepares(entries: seq<OutLane>, recipe: SeqRecipe, markers: set<Marker>)
    requires PrepAll(entries, recipe, markers).1.None?
    ensures forall k :: 0 <= k < |entries| && !Converted(markers, entries[k].name) ==>
      PrepEntry(entries[k], recipe) == Ok(PrepAll(entries, recipe, markers).0[k])
  {
    PrepFromPrepares(entries, 0, recipe, markers);
  }

  /**
   * After `prepConvert` in the general case, every index is cut to exactly
   * the shortest index of the sheet (a prefix of what it was), and the
   * tolerances are computed from the cut indices.
   */
  lemma PrepEntryCuts(e: OutLane, recipe: SeqRecipe)
    requires PrepEntry(e, recipe).Ok?
    requires !IsNugen(e.sheet.rows) && !IsScAtac(e.sheet.rows)
    ensures var e' := PrepEntry(e, recipe).value;
      var m := MinLength(IndexCells(e.sheet.rows)).value;
      && |e'.sheet.rows| == |e.sheet.rows|
      && (m > 0 ==> forall i :: 0 <= i < |e.sheet.rows| && e.sheet.rows[i].index.Some? ==>
            e'.sheet.rows[i].index.Some? && |e'.sheet.rows[i].index.value| == m
            && e'.sheet.rows[i].index.value <= e.sheet.rows[i].index.value)
      && e'.prep.Some?
      && e'.prep.value.mismatch == MisMatch(IndexCells(e'.sheet.rows), P5Cells(e'.sheet)).value
  {
    DetMaskFlags(recipe, e.sheet);
    var info := DetMask(recipe, e.sheet).value;
    var t := TruncateSheet(e.sheet, info.minP7, info.minP5);
    PrepEntryParts(e, recipe);
    TruncateCuts(e.sheet, info.minP7.value, info.minP5);
  }

  /** What a successful `PrepEntry` is made of: the cut sheet and the tolerances of the cut indices. */
  lemma PrepEntryParts(e: OutLane, recipe: SeqRecipe)
    requires PrepEntry(e, recipe).Ok?
    ensures DetMask(recipe, e.sheet).Ok?
    ensures var info := DetMask(recipe, e.sheet).value;
      var t := TruncateSheet(e.sheet, info.minP7, info.minP5);
      && PrepEntry(e, recipe).value.sheet == t
      && PrepEntry(e, recipe).value.prep.Some?
      && PrepEntry(e, recipe).value.prep.value.mismatch == MisMatch(IndexCells(t.rows), P5Cells(t)).value
  {
  }

  /** Cutting to the shortest index length `m` leaves every index a prefix of length exactly `m`. */
  lemma TruncateCuts(sheet: Sheet, m: nat, minP5: Option<nat>)
    requires MinLength(IndexCells(sheet.rows)) == Some(m)
    ensures var t := TruncateSheet(sheet, Some(m), minP5);
      m > 0 ==> forall i :: 0 <= i < |sheet.rows| && sheet.rows[i].index.Some? ==>
        t.rows[i].index.Some? && |t.rows[i].index.value| == m && t.rows[i].index.value <= sheet.rows[i].index.value
  {
    var t := TruncateSheet(sheet, Some(m), minP5);
    forall i | 0 <= i < |sheet.rows| && sheet.rows[i].index.Some? && m > 0
      ensures t.rows[i].index.Some? && |t.rows[i].index.value| == m
    {
      assert IndexCells(sheet.rows)[i] == sheet.rows[i].index;
    }
  }

  // --------------------------------------------------------- writeDemuxSheet

  /** The lines `writeDemuxSheet` writes before the sample rows. */
  function SheetHead(p: Prep, laneSplit: bool): seq<string>
  {
    var dualIx := SettledPrep(p).dualIx;
    ToleranceLines(p) + [MaskLine(p.mask)] + p.convertOpts + [",,,"]
    + [DataMarker(dualIx), HeaderLine(dualIx, laneSplit)]
  }

  /**
   * `writeDemuxSheet` for entry `k`: a KeyError when `prepConvert` did not
   * prepare it; otherwise dualIx is settled in the entry and the sheet is
   * written to the folder.
   */
  method WriteDemuxSheet(ss: SampleSheet, k: nat, out: OutputDir) returns (r: Result<()>)
    requires k < |ss.ssDic|
    modifies ss, out
    ensures ss.laneSplitStatus == old(ss.laneSplitStatus) && ss.flowcell == old(ss.flowcell)
    ensures ss.runInfoLanes == old(ss.runInfoLanes) && ss.fullSS == old(ss.fullSS)
    ensures out.folders == old(out.folders) && out.markers == old(out.markers)
    ensures out.launches == old(out.launches) && out.mails == old(out.mails)
    ensures var e := old(ss.ssDic[k]);
      match e.prep
      case None => r == Err("KeyError: 'mismatch'") && ss.ssDic == old(ss.ssDic) && out.sheets == old(out.sheets)
      case Some(p) =>
        && r == Ok(())
        && ss.ssDic == old(ss.ssDic)[k := e.(prep := Some(SettledPrep(p)))]
        && out.sheets == old(out.sheets)[e.name := DemuxSheetLines(p, e.sheet.rows, ss.laneSplitStatus)]
  {
    var e := ss.ssDic[k];
    if e.prep.None? {
      return Err("KeyError: 'mismatch'");
    }
    var p := e.prep.value;
    var settled := SettledPrep(p);
    ss.ssDic := ss.ssDic[k := e.(prep := Some(settled))];
    var split := ss.laneSplitStatus;
    var lines := SheetHead(p, split);
    var rows := e.sheet.rows;
    var i := 0;
    while i < |rows|
      invariant 0 <= i <= |rows|
      invariant lines == SheetHead(p, split) + RowLines(rows, settled.dualIx, split)[..i]
    {
      lines := lines + [RowLine(rows[i], settled.dualIx, split)];
      assert RowLines(rows, settled.dualIx, split)[..i + 1]
        == RowLines(rows, settled.dualIx, split)[..i] + [RowLine(rows[i], settled.dualIx, split)];
      i := i + 1;
    }
    assert RowLines(rows, settled.dualIx, split)[..i] == RowLines(rows, settled.dualIx, split);
    out.sheets := out.sheets[e.name := lines];
    r := Ok(());
  }

  // ------------------------------------------------------------------- demux

  /** What `demux` needs from the configuration and the flow cell. */
  datatype BclConfig = BclConfig(bclconvert: string, bclPath: string, outBaseDir: string)

  /** The bcl-convert command line for one output folder. */
  function BclOpts(cfg: BclConfig, folder: string, laneSplit: bool, threads: string): (o: seq<string>)
    ensures laneSplit ==> |o| == 14
    ensures !laneSplit ==> |o| == 16 && o[14..] == ["--no-lane-splitting", "true"]
    ensures o[0] == cfg.bclconvert && o[7] == PathJoin(PathJoin(cfg.outBaseDir, folder), "demuxSheet.csv")
    ensures o[9] == threads && o[11] == threads
  {
    var outputFolder := PathJoin(cfg.outBaseDir, folder);
    var base := [cfg.bclconvert, "--output-directory", outputFolder, "--force",
      "--bcl-input-directory", cfg.bclPath, "--sample-sheet", PathJoin(outputFolder, "demuxSheet.csv"),
      "--bcl-num-conversion-threads", threads, "--bcl-num-compression-threads", threads,
      "--bcl-sampleproject-subdirectories", "true"];
    assert |base| == 14;
    var extra: seq<string> := if laneSplit then [] else ["--no-lane-splitting", "true"];
    assert (base + extra)[14..] == extra;
    base + extra
  }

  /** The message `mailHome` sends when bcl-convert fails. */
  function ExitMail(code: int): string
  {
    "BCL-convert exit " + IntToString(code) + ". Investigate."
  }

  const ExitOne := "SystemExit: 1"

  /**
   * The bcl-convert step of one folder. Without the marker, bcl-convert is
   * launched; exit 0 touches the marker, exit -6 launches it once more
   * (marker on 0, otherwise a mail and exit), any other code mails and
   * exits. Exit codes are the `n`-th launch's `exitCode(n)`.
   */
  function ConvertStep(dir: DirState, folder: string, opts: seq<string>, exitCode: nat -> int): (DirState, Result<()>)
  {
    if Converted(dir.markers, folder) then (dir, Ok(()))
    else
      var code := exitCode(|dir.launches|);
      var d1 := dir.(launches := dir.launches + [opts]);
      if code == 0 then (d1.(markers := d1.markers + {(folder, BclConvertDone)}), Ok(()))
      else if code == -6 then
        var code2 := exitCode(|d1.launches|);
        var d2 := d1.(launches := d1.launches + [opts]);
        if code2 == 0 then (d2.(markers := d2.markers + {(folder, BclConvertDone)}), Ok(()))
        else (d2.(mails := d2.mails + [(folder, ExitMail(code2))]), Err(ExitOne))
      else (d1.(mails := d1.mails + [(folder, ExitMail(code))]), Err(ExitOne))
  }

  /** A converted folder is not converted again. */
  lemma ConvertSkipsMarked(dir: DirState, folder: string, opts: seq<string>, exitCode: nat -> int)
    requires Converted(dir.markers, folder)
    ensures ConvertStep(dir, folder, opts, exitCode) == (dir, Ok(()))
  {
  }

  /**
   * Without the marker: bcl-convert is launched once, or twice exactly
   * when the first launch exits with -6, always with the same command
   * line; the marker is touched exactly when the last launch exits 0;
   * a failure sends one mail and touches nothing; nothing else changes.
   */
  lemma ConvertRetriesOnce(dir: DirState, folder: string, opts: seq<string>, exitCode: nat -> int)
    requires !Converted(dir.markers, folder)
    ensures var d := ConvertStep(dir, folder, opts, exitCode).0;
      var r := ConvertStep(dir, folder, opts, exitCode).1;
      var n := |dir.launches|;
      var tries := if exitCode(n) == -6 then 2 else 1;
      && d.launches == dir.launches + seq(tries, _ => opts)
      && (r.Ok? <==> exitCode(n + tries - 1) == 0)
      && (r.Ok? ==> d.markers == dir.markers + {(folder, BclConvertDone)} && d.mails == dir.mails)
      && (r.Err? ==> d.markers == dir.markers && d.mails == dir.mails + [(folder, ExitMail(exitCode(n + tries - 1)))])
      && d.folders == dir.folders && d.sheets == dir.sheets
  {
    var n := |dir.launches|;
    if exitCode(n) == -6 {
      assert seq(2, _ => opts) == [opts, opts];
      assert dir.launches + [opts] + [opts] == dir.launches + [opts, opts];
    } else {
      assert seq(1, _ => opts) == [opts];
    }
  }

  /** `bclRunner = Popen(bclOpts); bclRunner.wait()`, with the retry. */
  method RunBclConvert(out: OutputDir, folder: string, opts: seq<string>, exitCode: nat -> int) returns (r: Result<()>)
    modifies out
    ensures (out.State(), r) == ConvertStep(old(out.State()), folder, opts, exitCode)
  {
    if Converted(out.markers, folder) {
      return Ok(());
    }
    var exitcode := exitCode(|out.launches|);
    out.launches := out.launches + [opts];
    if exitcode == 0 {
      out.markers := out.markers + {(folder, BclConvertDone)};
      r := Ok(());
    } else if exitcode == -6 {
      exitcode := exitCode(|out.launches|);
      out.launches := out.launches + [opts];
      if exitcode == 0 {
        out.markers := out.markers + {(folder, BclConvertDone)};
        r := Ok(());
      } else {
        out.mails := out.mails + [(folder, ExitMail(exitcode))];
        r := Err(ExitOne);
      }
    } else {
      out.mails := out.mails + [(folder, ExitMail(exitcode))];
      r := Err(ExitOne);
    }
  }

  /**
   * Taking in a demux sheet found in the folder, as written at lines
   * 429-442: the mask is updated when the entry has one, but dualIx is
   * looked up unconditionally, a KeyError for an entry `prepConvert`
   * skipped.
   */
  function ReconcileAsWritten(e: OutLane, m: ManualSheet, matching: (Sheet, Table) -> Sheet): Result<OutLane>
  {
    var e1 := if e.prep.Some? && m.mask != e.prep.value.mask then e.(prep := Some(e.prep.value.(mask := m.mask))) else e;
    if e1.prep.None? then Err("KeyError: 'dualIx'")
    else Ok(e1.(sheet := matching(e1.sheet, m.df)))
  }

  /** The same with the dualIx comparison (which only logs) guarded like the mask update. */
  function Reconcile(e: OutLane, m: ManualSheet, matching: (Sheet, Table) -> Sheet): (r: OutLane)
    ensures r.name == e.name && r.p5rc == e.p5rc && r.prep.Some? == e.prep.Some?
    ensures r.prep.Some? ==> r.prep.value == e.prep.value.(mask := m.mask)
    ensures r.sheet == matching(e.sheet, m.df)
  {
    var e1 := if e.prep.Some? && m.mask != e.prep.value.mask then e.(prep := Some(e.prep.value.(mask := m.mask))) else e;
    e1.(sheet := matching(e1.sheet, m.df))
  }

  /**
   * Resuming a folder that was already converted: `prepConvert` skipped
   * it, so its entry has no dualIx, and the sheet found in the folder
   * makes the code as written raise, while the guarded version takes the
   * sheet in.
   */
  lemma ResumeRaises(e: OutLane, m: ManualSheet, matching: (Sheet, Table) -> Sheet, recipe: SeqRecipe, markers: set<Marker>)
    requires Converted(markers, e.name)
    ensures PrepAll([e], recipe, markers).0 == [e]
    ensures e.prep.None? ==> ReconcileAsWritten(e, m, matching).Err?
    ensures ReconcileAsWritten(e, m, matching).Ok? ==> ReconcileAsWritten(e, m, matching).value == Reconcile(e, m, matching)
  {
    assert PrepFrom([e], 0, recipe, markers) == PrepFrom([e], 1, recipe, markers);
  }

  /** `writeDemuxSheet` on one entry, as a step on the directory snapshot. */
  function WriteSheetStep(e: OutLane, dir: DirState, laneSplit: bool): Result<(OutLane, DirState)>
  {
    match e.prep
    case None => Err("KeyError: 'mismatch'")
    case Some(p) =>
      Ok((e.(prep := Some(SettledPrep(p))), dir.(sheets := dir.sheets[e.name := DemuxSheetLines(p, e.sheet.rows, laneSplit)])))
  }

  /** The demux sheet step of one folder: write it if absent, else read it back and take it in. */
  function SheetStep(e: OutLane, dir: DirState, laneSplit: bool, matching: (Sheet, Table) -> Sheet): (r: Result<(OutLane, DirState)>)
    ensures r.Ok? ==> && r.value.0.name == e.name
                      && r.value.1.markers == dir.markers && r.value.1.launches == dir.launches
                      && r.value.1.folders == dir.folders
  {
    if e.name !in dir.sheets then WriteSheetStep(e, dir, laneSplit)
    else
      match ReadDemuxSheet(dir.sheets[e.name])
      case Err(m) => Err(m)
      case Ok(m) => Ok((Reconcile(e, m, matching), dir))
  }

  /** One output folder of `demux`: make it, the sheet step, the conversion step, the statistics. */
  function DemuxFolder(st: Stage, k: nat, laneSplit: bool, cfg: BclConfig, exitCode: nat -> int,
                       matching: (Sheet, Table) -> Sheet, stats: (string, Sheet) -> Sheet): (r: (Stage, Result<()>))
    requires k < |st.entries|
    ensures |r.0.entries| == |st.entries|
    ensures forall j :: 0 <= j < |st.entries| ==> r.0.entries[j].name == st.entries[j].name
  {
    var e := st.entries[k];
    var dir := st.dir.(folders := st.dir.folders + {e.name});
    var sheet := SheetStep(e, dir, laneSplit, matching);
    if sheet.Err? then (Stage(st.entries, dir), Err(sheet.reason))
    else ConvertFolder(Stage(st.entries[k := sheet.value.0], sheet.value.1), k, laneSplit, cfg, exitCode, stats)
  }

  /** The rest of one folder once its sheet is settled: bcl-convert, then the statistics. */
  function ConvertFolder(st: Stage, k: nat, laneSplit: bool, cfg: BclConfig, exitCode: nat -> int,
                         stats: (string, Sheet) -> Sheet): (r: (Stage, Result<()>))
    requires k < |st.entries|
    ensures |r.0.entries| == |st.entries|
    ensures forall j :: 0 <= j < |st.entries| ==> r.0.entries[j].name == st.entries[j].name
  {
    var e := st.entries[k];
    var conv := ConvertStep(st.dir, e.name, BclOpts(cfg, e.name, laneSplit, "20"), exitCode);
    if conv.1.Err? then (Stage(st.entries, conv.0), conv.1)
    else (Stage(st.entries[k := e.(sheet := stats(PathJoin(cfg.outBaseDir, e.name), e.sheet))], conv.0), Ok(()))
  }

  /** One folder of `demux` as a step of the folder loop. */
  function DemuxStep(laneSplit: bool, cfg: BclConfig, exitCode: nat -> int,
                     matching: (Sheet, Table) -> Sheet, stats: (string, Sheet) -> Sheet): (Stage, nat) -> (Stage, Result<()>)
  {
    (s: Stage, j: nat) => if j < |s.entries| then DemuxFolder(s, j, laneSplit, cfg, exitCode, matching, stats) else (s, Ok(()))
  }

  /** `demux`: every folder in `ssDic` order; the first failure ends the run. */
  function DemuxAll(st: Stage, laneSplit: bool, cfg: BclConfig, exitCode: nat -> int,
                    matching: (Sheet, Table) -> Sheet, stats: (string, Sheet) -> Sheet): (Stage, Result<()>)
  {
    EachFolder(st, 0, |st.entries|, DemuxStep(laneSplit, cfg, exitCode, matching, stats))
  }

  /**
   * A folder's marker is touched only by a launch that exits 0, and a
   * folder that already had its marker is not launched again; no marker
   * is ever removed.
   */
  lemma DemuxFolderMarkers(st: Stage, k: nat, laneSplit: bool, cfg: BclConfig, exitCode: nat -> int,
                           matching: (Sheet, Table) -> Sheet, stats: (string, Sheet) -> Sheet)
    requires k < |st.entries|
    ensures var step := DemuxFolder(st, k, laneSplit, cfg, exitCode, matching, stats);
      var st1 := step.0;
      var res := step.1;
      var f := st.entries[k].name;
      && st.dir.markers <= st1.dir.markers
      && st1.dir.markers <= st.dir.markers + {(f, BclConvertDone)}
      && (Converted(st.dir.markers, f) ==> st1.dir.launches == st.dir.launches)
      && (!Converted(st.dir.markers, f) && Converted(st1.dir.markers, f) ==>
            |st1.dir.launches| > |st.dir.launches| && exitCode(|st1.dir.launches| - 1) == 0)
      && (res.Err? ==> !Converted(st1.dir.markers, f) || Converted(st.dir.markers, f))
      && f in st1.dir.folders
  {
    var e := st.entries[k];
    var dir := st.dir.(folders := st.dir.folders + {e.name});
    var sheet := SheetStep(e, dir, laneSplit, matching);
    if sheet.Ok? {
      var st1 := Stage(st.entries[k := sheet.value.0], sheet.value.1);
      ConvertFolderMarkers(st1, k, laneSplit, cfg, exitCode, stats);
      assert DemuxFolder(st, k, laneSplit, cfg, exitCode, matching, stats)
        == ConvertFolder(st1, k, laneSplit, cfg, exitCode, stats);
    }
  }


  /** The conversion part of one folder touches at most its own marker, and only after an exit 0. */
  lemma ConvertFolderMarkers(st: Stage, k: nat, laneSplit: bool, cfg: BclConfig, exitCode: nat -> int,
                             stats: (string, Sheet) -> Sheet)
    requires k < |st.entries|
    ensures var step := ConvertFolder(st, k, laneSplit, cfg, exitCode, stats);
      var st1 := step.0;
      var f := st.entries[k].name;
      && st.dir.markers <= st1.dir.markers
      && st1.dir.markers <= st.dir.markers + {(f, BclConvertDone)}
      && (Converted(st.dir.markers, f) ==> st1.dir.launches == st.dir.launches)
      && (!Converted(st.dir.markers, f) && Converted(st1.dir.markers, f) ==>
            |st1.dir.launches| > |st.dir.launches| && exitCode(|st1.dir.launches| - 1) == 0)
      && (step.1.Err? ==> !Converted(st1.dir.markers, f) || Converted(st.dir.markers, f))
      && st1.dir.folders == st.dir.folders
  {
    var f := st.entries[k].name;
    if !Converted(st.dir.markers, f) {
      ConvertRetriesOnce(st.dir, f, BclOpts(cfg, f, laneSplit, "20"), exitCode);
    }
  }

  /** `demux` keeps every marker and adds only bcl-convert markers of its own folders. */
  lemma DemuxMarkers(st: Stage, laneSplit: bool, cfg: BclConfig, exitCode: nat -> int,
                     matching: (Sheet, Table) -> Sheet, stats: (string, Sheet) -> Sheet)
    ensures NewMarkersWithin(st.dir.markers, DemuxAll(st, laneSplit, cfg, exitCode, matching, stats).0.dir.markers,
                             FoldersFrom(st.entries, 0), {BclConvertDone})
  {
    var step := DemuxStep(laneSplit, cfg, exitCode, matching, stats);
    forall s: Stage, j: nat
      ensures StepMarks(step, s, j, {BclConvertDone})
    {
      if j < |s.entries| {
        DemuxFolderMarkers(s, j, laneSplit, cfg, exitCode, matching, stats);
      }
    }
    EachFolderMarkers(st, 0, |st.entries|, step, {BclConvertDone});
  }

  /** `readDemuxSheet` on a file of the output directory. */
  method ReadFolderSheet(out: OutputDir, folder: string) returns (r: Result<ManualSheet>)
    requires folder in out.sheets
    ensures r == ReadDemuxSheet(out.sheets[folder])
  {
    r := ReadDemuxSheetLoop(out.sheets[folder]);
  }

  /** The demux sheet step of folder `k`: `writeDemuxSheet`, or `readDemuxSheet` and the checks against the entry. */
  method SheetStepAt(ss: SampleSheet, out: OutputDir, k: nat, matching: (Sheet, Table) -> Sheet) returns (r: Result<()>)
    requires k < |ss.ssDic|
    modifies ss, out
    ensures ss.laneSplitStatus == old(ss.laneSplitStatus)
    ensures var sh := SheetStep(old(ss.ssDic[k]), old(out.State()), ss.laneSplitStatus, matching);
      && (sh.Err? ==> r == Err(sh.reason) && ss.ssDic == old(ss.ssDic) && out.State() == old(out.State()))
      && (sh.Ok? ==> r == Ok(()) && ss.ssDic == old(ss.ssDic)[k := sh.value.0] && out.State() == sh.value.1)
  {
    var e := ss.ssDic[k];
    if e.name !in out.sheets {
      r := WriteDemuxSheet(ss, k, out);
    } else {
      var m := ReadFolderSheet(out, e.name);
      if m.Err? {
        return Err(m.reason);
      }
      ss.ssDic := ss.ssDic[k := Reconcile(e, m.value, matching)];
      r := Ok(());
    }
  }

  /**
   * `step` is the folder step of `demux` on every folder in range; the
   * trigger keeps that step's definition out of sight of a proof that does
   * not name `DemuxFolder` itself.
   */
  ghost predicate IsDemuxStep(step: (Stage, nat) -> (Stage, Result<()>), laneSplit: bool, cfg: BclConfig, exitCode: nat -> int,
                        matching: (Sheet, Table) -> Sheet, stats: (string, Sheet) -> Sheet)
  {
    forall s: Stage, j: nat {:trigger DemuxFolder(s, j, laneSplit, cfg, exitCode, matching, stats)} ::
      j < |s.entries| ==> step(s, j) == DemuxFolder(s, j, laneSplit, cfg, exitCode, matching, stats)
  }

  /** `DemuxStep` is the folder step of `demux`. */
  lemma DemuxStepIs(laneSplit: bool, cfg: BclConfig, exitCode: nat -> int,
                    matching: (Sheet, Table) -> Sheet, stats: (string, Sheet) -> Sheet)
    ensures IsDemuxStep(DemuxStep(laneSplit, cfg, exitCode, matching, stats), laneSplit, cfg, exitCode, matching, stats)
  {
  }

  /** The body of `demux`'s loop for folder `k`. */
  method DemuxOne(ss: SampleSheet, out: OutputDir, k: nat, cfg: BclConfig, exitCode: nat -> int,
                  matching: (Sheet, Table) -> Sheet, stats: (string, Sheet) -> Sheet,
                  ghost step: (Stage, nat) -> (Stage, Result<()>)) returns (r: Result<()>)
    requires k < |ss.ssDic|
    requires IsDemuxStep(step, ss.laneSplitStatus, cfg, exitCode, matching, stats)
    modifies ss, out
    ensures ss.laneSplitStatus == old(ss.laneSplitStatus) && |ss.ssDic| == old(|ss.ssDic|)
    ensures (Stage(ss.ssDic, out.State()), r) == step(Stage(old(ss.ssDic), old(out.State())), k)
  {
    var name := ss.ssDic[k].name;
    var split := ss.laneSplitStatus;
    ghost var st := Stage(ss.ssDic, out.State());
    ghost var dir := out.State().(folders := out.folders + {name});
    ghost var sh := SheetStep(ss.ssDic[k], dir, split, matching);
    out.folders := out.folders + {name};
    assert out.State() == dir;
    r := SheetStepAt(ss, out, k, matching);
    if r.Ok? {
      assert sh.value.0.name == name;
      r := ConvertAt(ss, out, k, cfg, exitCode, stats);
    }
    assert (Stage(ss.ssDic, out.State()), r) == DemuxFolder(st, k, split, cfg, exitCode, matching, stats);
  }

  /** The bcl-convert and statistics part of `demux`'s loop for folder `k`. */
  method ConvertAt(ss: SampleSheet, out: OutputDir, k: nat, cfg: BclConfig, exitCode: nat -> int,
                   stats: (string, Sheet) -> Sheet) returns (r: Result<()>)
    requires k < |ss.ssDic|
    modifies ss, out
    ensures ss.laneSplitStatus == old(ss.laneSplitStatus)
    ensures (Stage(ss.ssDic, out.State()), r)
      == ConvertFolder(Stage(old(ss.ssDic), old(out.State())), k, ss.laneSplitStatus, cfg, exitCode, stats)
  {
    var e := ss.ssDic[k];
    r := RunBclConvert(out, e.name, BclOpts(cfg, e.name, ss.laneSplitStatus, "20"), exitCode);
    if r.Ok? {
      ss.ssDic := ss.ssDic[k := e.(sheet := stats(PathJoin(cfg.outBaseDir, e.name), e.sheet))];
    }
  }

  /**
   * `demux`'s loop: every output folder in `ssDic` order, stopping at the
   * first failure, for any `step` that is the folder step of `demux`.
   */
  method DemuxLoop(ss: SampleSheet, out: OutputDir, cfg: BclConfig, exitCode: nat -> int,
                   matching: (Sheet, Table) -> Sheet, stats: (string, Sheet) -> Sheet,
                   ghost step: (Stage, nat) -> (Stage, Result<()>)) returns (r: Result<()>)
    requires IsDemuxStep(step, ss.laneSplitStatus, cfg, exitCode, matching, stats)
    modifies ss, out
    ensures ss.laneSplitStatus == old(ss.laneSplitStatus)
    ensures (Stage(ss.ssDic, out.State()), r) == EachFolder(Stage(old(ss.ssDic), old(out.State())), 0, |old(ss.ssDic)|, step)
  {
    var k := 0;
    while k < |ss.ssDic|
      invariant ss.laneSplitStatus == old(ss.laneSplitStatus)
      invariant k <= |ss.ssDic| == |old(ss.ssDic)|
      invariant EachFolder(Stage(ss.ssDic, out.State()), k, |ss.ssDic| - k, step)
        == EachFolder(Stage(old(ss.ssDic), old(out.State())), 0, |old(ss.ssDic)|, step)
      decreases |ss.ssDic| - k
    {
      ghost var st := Stage(ss.ssDic, out.State());
      ghost var n := |ss.ssDic| - k;
      assert EachFolder(st, k, n, step)
        == if step(st, k).1.Err? then step(st, k) else EachFolder(step(st, k).0, k + 1, n - 1, step);
      r := DemuxOne(ss, out, k, cfg, exitCode, matching, stats, step);
      if r.Err? {
        return;
      }
      k := k + 1;
    }
    r := Ok(());
  }

  /** `demux`: every output folder in `ssDic` order, stopping at the first failure. */
  method RunDemux(ss: SampleSheet, out: OutputDir, cfg: BclConfig, exitCode: nat -> int,
                  matching: (Sheet, Table) -> Sheet, stats: (string, Sheet) -> Sheet) returns (r: Result<()>)
    modifies ss, out
    ensures (Stage(ss.ssDic, out.State()), r)
      == DemuxAll(Stage(old(ss.ssDic), old(out.State())), old(ss.laneSplitStatus), cfg, exitCode, matching, stats)
  {
    DemuxStepIs(ss.laneSplitStatus, cfg, exitCode, matching, stats);
    r := DemuxLoop(ss, out, cfg, exitCode, matching, stats, DemuxStep(ss.laneSplitStatus, cfg, exitCode, matching, stats));
  }

  // -------------------------------------------------------------- parseStats

  /** The reads of one sample summed over the demultiplexing statistics' rows. */
  function ReadsOf(rows: seq<(string, int)>, id: string): int
    decreases |rows|
  {
    if |rows| == 0 then 0
    else ReadsOf(rows[..|rows| - 1], id) + (if rows[|rows| - 1].0 == id then rows[|rows| - 1].1 else 0)
  }

  /** The `muxDic` loop of `parseStats`: '# Reads' summed per SampleID. */
  method MuxReads(rows: seq<(string, int)>) returns (muxDic: map<string, int>)
    ensures forall id :: id in muxDic <==> exists i :: 0 <= i < |rows| && rows[i].0 == id
    ensures forall id :: id in muxDic ==> muxDic[id] == ReadsOf(rows, id)
  {
    muxDic := map[];
    var i := 0;
    while i < |rows|
      invariant 0 <= i <= |rows|
      invariant forall id :: id in muxDic <==> exists j :: 0 <= j < i && rows[j].0 == id
      invariant forall id :: id in muxDic ==> muxDic[id] == ReadsOf(rows[..i], id)
    {
      var sampleID := rows[i].0;
      var count := rows[i].1;
      assert rows[..i + 1][..i] == rows[..i];
      if sampleID !in muxDic {
        ReadsOfAbsent(rows[..i], sampleID);
        muxDic := muxDic[sampleID := count];
      } else {
        muxDic := muxDic[sampleID := muxDic[sampleID] + count];
      }
      i := i + 1;
    }
    assert rows[..i] == rows;
  }

  lemma {:induction false} ReadsOfAbsent(rows: seq<(string, int)>, id: string)
    requires forall j :: 0 <= j < |rows| ==> rows[j].0 != id
    ensures ReadsOf(rows, id) == 0
    decreases |rows|
  {
    if |rows| > 0 {
      ReadsOfAbsent(rows[..|rows| - 1], id);
    }
  }
}
