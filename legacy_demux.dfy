// dissectBCL/demux.py, the first version of the demultiplexing stage:
// `misMatcher` with its own index-2 thresholds, `detMask` returning four
// values, `prepConvert` over every output folder, a `writeDemuxSheet`
// that reads the index-2 tolerance whenever dualIx is set, and a `demux`
// with neither marker files nor a retry.
module LegacyDemux {
  import opened Wrappers
  import opened Text
  import opened Records
  import Misc
  import Later = Demux
  import DemuxSheet
  import RunDir
  import DemuxRun
  import CS = ClassesSheet

  // ------------------------------------------------------------ misMatcher

  /** The index-2 tolerance of this version: 1 at distance 3, 2 above, 0 below. */
  function Index2Tolerance(minVal: int): (r: nat)
    ensures r <= 2
  {
    if minVal == 3 then 1
    else if minVal > 3 then 2
    else 0
  }

  /**
   * The index-2 thresholds differ from the index-1 ones at distance 4 and
   * nowhere else, and they are monotone as well.
   */
  lemma Index2ToleranceDiffers(d: int)
    ensures Index2Tolerance(d) == Later.Hamming2Mismatch(d) <==> d != 4
    ensures Index2Tolerance(d) >= Later.Hamming2Mismatch(d)
    ensures forall e :: d <= e ==> Index2Tolerance(d) <= Index2Tolerance(e)
  {
  }

  /**
   * What `misMatcher` returns: the index-2 entry is computed whenever the
   * index2 series has any cell, present or not (a missing cell is at
   * distance 0 from everything).
   */
  function MisMatch(p7s: seq<Option<string>>, p5s: seq<Option<string>>): Result<Mismatch>
  {
    var h7 := Later.AllPairs(p7s);
    if |h7| == 0 then Err(Later.EmptyMin)
    else if |p5s| == 0 then Ok(Mismatch(Later.Hamming2Mismatch(Later.SeqMin(h7)), None))
    else
      var h5 := Later.AllPairs(p5s);
      if |h5| == 0 then Err(Later.EmptyMin)
      else Ok(Mismatch(Later.Hamming2Mismatch(Later.SeqMin(h7)), Some(Index2Tolerance(Later.SeqMin(h5)))))
  }

  /** `misMatcher`, with the `hammings` loops. */
  method MisMatcher(p7s: seq<Option<string>>, p5s: seq<Option<string>>) returns (r: Result<Mismatch>)
    ensures r == MisMatch(p7s, p5s)
  {
    var hammings := Later.PairDistances(p7s);
    if |hammings| == 0 {
      return Err(Later.EmptyMin);
    }
    var index1 := Later.Hamming2Mismatch(Later.SeqMin(hammings));
    if |p5s| == 0 {
      return Ok(Mismatch(index1, None));
    }
    hammings := Later.PairDistances(p5s);
    if |hammings| == 0 {
      return Err(Later.EmptyMin);
    }
    r := Ok(Mismatch(index1, Some(Index2Tolerance(Later.SeqMin(hammings)))));
  }

  /**
   * `misMatcher` fails on fewer than two barcodes in a series it looks at,
   * sets the index-2 tolerance exactly when the index2 series is not
   * empty, and each tolerance is its thresholds' value at the smallest
   * pairwise distance.
   */
  lemma MisMatchKeys(p7s: seq<Option<string>>, p5s: seq<Option<string>>)
    ensures MisMatch(p7s, p5s).Ok? <==> |p7s| >= 2 && (|p5s| == 0 || |p5s| >= 2)
    ensures MisMatch(p7s, p5s).Ok? ==> (MisMatch(p7s, p5s).value.index2.Some? <==> |p5s| > 0)
    ensures MisMatch(p7s, p5s).Ok? ==>
      exists d: nat :: Later.MinimalDistance(p7s, d) && MisMatch(p7s, p5s).value.index1 == Later.Hamming2Mismatch(d)
    ensures MisMatch(p7s, p5s).Ok? && |p5s| > 0 ==>
      exists d: nat :: Later.MinimalDistance(p5s, d) && MisMatch(p7s, p5s).value.index2 == Some(Index2Tolerance(d))
  {
    Later.PairwiseEmpty(p7s, |p7s|);
    Later.PairwiseEmpty(p5s, |p5s|);
    if |Later.AllPairs(p7s)| > 0 {
      Later.AllPairsMin(p7s);
    }
    if |Later.AllPairs(p5s)| > 0 {
      Later.AllPairsMin(p5s);
    }
  }

  /** An index2 series of missing cells only gets tolerance 0: every pair is at distance 0. */
  lemma MisMatchMissingIndex2(p7s: seq<Option<string>>, p5s: seq<Option<string>>)
    requires MisMatch(p7s, p5s).Ok? && |p5s| > 0 && !Later.AnyPresent(p5s)
    ensures MisMatch(p7s, p5s).value.index2 == Some(0)
  {
    MisMatchKeys(p7s, p5s);
    var d: nat :| Later.MinimalDistance(p5s, d) && MisMatch(p7s, p5s).value.index2 == Some(Index2Tolerance(d));
    var i, j :| 0 <= i < j < |p5s| && Misc.Distance(p5s[i], p5s[j]) == d;
    assert p5s[i].None?;
  }

  // --------------------------------------------------------------- detMask

  /** What `detMask` returns here: mask, dualIx, PE and convertOpts. */
  datatype MaskInfo = MaskInfo(mask: string, dualIx: bool, pe: bool, convertOpts: seq<string>)

  const AtacKit := "ATAC-Seq single cell"

  /**
   * `any(df['indexType'].str.contains(NugenKit))` as written: the test of
   * a missing cell is NaN, which `any` takes as true.
   */
  predicate IsNugenAsWritten(rows: seq<Row>)
  {
    exists i :: 0 <= i < |rows| && (rows[i].indexType.None? || Contains(rows[i].indexType.value, Later.NugenKit))
  }

  /** `any(df['indexType'].dropna().str.contains(AtacKit))`. */
  predicate IsScAtac(rows: seq<Row>)
  {
    exists i :: 0 <= i < |rows| && rows[i].indexType.Some? && Contains(rows[i].indexType.value, AtacKit)
  }

  /** The NuGEN Ovation SoLo branch: barcode plus UMI on index 1, the UMI options. */
  function NugenMask(recipe: SeqRecipe, r1: ReadSpec, recipeP7: nat, minP7: Option<nat>, dualIx: bool, minP5: Option<nat>): Result<MaskInfo>
  {
    var p5 := Lookup(recipe, "Index2");
    if dualIx && p5.None? then Err("UnboundLocalError: recipeP5")
    else if dualIx && minP5.None? then Err(Later.NaNToInt)
    else
      var t5 := if dualIx then [Misc.LenMask(p5.value.cycles, minP5.value, false)] else [];
      var tokens := [Misc.ReadToken(r1), Later.NugenIndexToken(recipeP7, minP7)] + t5 + Later.Read2Tokens(recipe);
      Ok(MaskInfo(Join(tokens, ";"), dualIx, Lookup(recipe, "Read2").Some?, Later.UmiOpts))
  }

  /** The scATAC branch: index 2 read as a UMI, dualIx left as it is, no options. */
  function ScAtacMask(recipe: SeqRecipe, r1: ReadSpec, recipeP7: nat, minP7: Option<nat>, dualIx: bool): Result<MaskInfo>
  {
    if minP7.None? then Err(Later.NaNToInt)
    else
      var p5 := Lookup(recipe, "Index2");
      var t5 := if p5.Some? then [Later.CycleToken('U', p5.value.cycles)] else [];
      var tokens := [Misc.ReadToken(r1), Misc.LenMask(recipeP7, minP7.value, false)] + t5 + Later.Read2Tokens(recipe);
      Ok(MaskInfo(Join(tokens, ";"), dualIx, Lookup(recipe, "Read2").Some?, []))
  }

  /** The general branch: dualIx is the index2 column's existence, so a NaN minimum fails. */
  function GeneralMask(recipe: SeqRecipe, r1: ReadSpec, recipeP7: nat, minP7: Option<nat>, dualIx: bool, minP5: Option<nat>): Result<MaskInfo>
  {
    if minP7.None? then Err(Later.NaNToInt)
    else
      var p5 := Lookup(recipe, "Index2");
      if dualIx && p5.None? then Err("UnboundLocalError: recipeP5")
      else if dualIx && minP5.None? then Err(Later.NaNToInt)
      else
        var t5 :=
          if dualIx then [Misc.LenMask(p5.value.cycles, minP5.value, false)]
          else if p5.Some? then [Later.CycleToken('N', p5.value.cycles)]
          else [];
        var tokens := [Misc.ReadToken(r1), Misc.LenMask(recipeP7, minP7.value, false)] + t5 + Later.Read2Tokens(recipe);
        Ok(MaskInfo(Join(tokens, ";"), dualIx, Lookup(recipe, "Read2").Some?, []))
  }

  /**
   * `detMask` with the kit tests given: the index column and the Index1
   * read are looked up first; dualIx is whether an index2 column exists;
   * without an indexType column nothing is returned, which the caller
   * fails to unpack.
   */
  function MaskFor(recipe: SeqRecipe, sheet: Sheet, nugen: bool, atac: bool): Result<MaskInfo>
  {
    if !sheet.cols.index then Err("KeyError: index")
    else
      var minP7 := Later.MinLength(IndexCells(sheet.rows));
      match Lookup(recipe, "Index1")
      case None => Err("KeyError: Index1")
      case Some(ix1) =>
        var minP5 := if sheet.cols.index2 then Later.MinLength(Index2Cells(sheet.rows)) else None;
        if !sheet.cols.indexType then Err("TypeError: cannot unpack non-iterable NoneType object")
        else
          match Lookup(recipe, "Read1")
          case None => Err("KeyError: Read1")
          case Some(r1) =>
            if nugen then NugenMask(recipe, r1, ix1.cycles, minP7, sheet.cols.index2, minP5)
            else if atac then ScAtacMask(recipe, r1, ix1.cycles, minP7, sheet.cols.index2)
            else GeneralMask(recipe, r1, ix1.cycles, minP7, sheet.cols.index2, minP5)
  }

  /** `detMask` as written: a missing indexType cell selects the NuGEN branch. */
  function DetMaskAsWritten(recipe: SeqRecipe, sheet: Sheet): Result<MaskInfo>
  {
    MaskFor(recipe, sheet, IsNugenAsWritten(sheet.rows), IsScAtac(sheet.rows))
  }

  /** `detMask` with the kit test skipping missing cells, as the later version does. */
  function DetMask(recipe: SeqRecipe, sheet: Sheet): Result<MaskInfo>
  {
    MaskFor(recipe, sheet, Later.IsNugen(sheet.rows), IsScAtac(sheet.rows))
  }

  /**
   * A sheet that names no kit but leaves one indexType cell empty gets the
   * NuGEN mask and UMI options as written; the corrected test gives it
   * the general mask with no options.
   */
  lemma MissingTypeSelectsNugen(recipe: SeqRecipe, sheet: Sheet, i: nat)
    requires i < |sheet.rows| && sheet.rows[i].indexType.None?
    requires !Later.IsNugen(sheet.rows) && !IsScAtac(sheet.rows)
    ensures DetMaskAsWritten(recipe, sheet).Ok? ==> DetMaskAsWritten(recipe, sheet).value.convertOpts == Later.UmiOpts
    ensures DetMask(recipe, sheet).Ok? ==> DetMask(recipe, sheet).value.convertOpts == []
  {
    assert IsNugenAsWritten(sheet.rows);
  }

  /**
   * What `detMask` promises besides the mask: dualIx is whether the sheet
   * has an index2 column in every branch, PE is whether Read2 was
   * sequenced, and the UMI options go with a row naming the NuGEN kit and
   * with nothing else.
   */
  lemma DetMaskFlags(recipe: SeqRecipe, sheet: Sheet)
    requires DetMask(recipe, sheet).Ok?
    ensures var m := DetMask(recipe, sheet).value;
      && m.dualIx == sheet.cols.index2
      && m.pe == Lookup(recipe, "Read2").Some?
      && (m.convertOpts == Later.UmiOpts <==> Later.IsNugen(sheet.rows))
      && (!Later.IsNugen(sheet.rows) ==> m.convertOpts == [])
  {
  }

  /**
   * On a NuGEN sheet both versions take the NuGEN branch and agree on
   * success, mask, dualIx and options.
   */
  lemma NugenAgrees(recipe: SeqRecipe, sheet: Sheet)
    requires Later.IsNugen(sheet.rows)
    ensures DetMask(recipe, sheet).Ok? <==> Later.DetMask(recipe, sheet).Ok?
    ensures DetMask(recipe, sheet).Ok? ==>
      var m := DetMask(recipe, sheet).value;
      var n := Later.DetMask(recipe, sheet).value;
      m.mask == n.mask && m.dualIx == n.dualIx && m.convertOpts == n.convertOpts
  {
  }

  /**
   * On a sheet naming neither kit whose index2 column, if any, has a
   * barcode, both versions take the general branch and agree on success,
   * mask and dualIx.
   */
  lemma GeneralAgrees(recipe: SeqRecipe, sheet: Sheet)
    requires sheet.cols.description
    requires !Later.IsNugen(sheet.rows) && !IsScAtac(sheet.rows) && !Later.IsScAtac(sheet.rows)
    requires sheet.cols.index2 ==> Later.AnyPresent(Index2Cells(sheet.rows))
    ensures DetMask(recipe, sheet).Ok? <==> Later.DetMask(recipe, sheet).Ok?
    ensures DetMask(recipe, sheet).Ok? ==>
      var m := DetMask(recipe, sheet).value;
      var n := Later.DetMask(recipe, sheet).value;
      m.mask == n.mask && m.dualIx == n.dualIx && m.convertOpts == n.convertOpts
  {
    if sheet.cols.index && Lookup(recipe, "Index1").Some? && sheet.cols.indexType && Lookup(recipe, "Read1").Some? {
      var minP5 := if sheet.cols.index2 then Later.MinLength(Index2Cells(sheet.rows)) else None;
      if sheet.cols.index2 {
        var cells := Index2Cells(sheet.rows);
        var i :| 0 <= i < |cells| && cells[i].Some?;
        assert Later.MinLength(cells).Some?;
      }
      GeneralMaskAgrees(recipe, Lookup(recipe, "Read1").value, Lookup(recipe, "Index1").value.cycles,
                        Later.MinLength(IndexCells(sheet.rows)), sheet.cols.index2, minP5);
    }
  }

  /** The general branches of the two versions agree when an index2 column comes with a minimum. */
  lemma GeneralMaskAgrees(recipe: SeqRecipe, r1: ReadSpec, recipeP7: nat, minP7: Option<nat>, index2Col: bool, minP5: Option<nat>)
    requires index2Col ==> minP5.Some?
    ensures GeneralMask(recipe, r1, recipeP7, minP7, index2Col, minP5).Ok?
      <==> Later.GeneralMask(recipe, r1, recipeP7, minP7, index2Col, minP5).Ok?
    ensures GeneralMask(recipe, r1, recipeP7, minP7, index2Col, minP5).Ok? ==>
      var m := GeneralMask(recipe, r1, recipeP7, minP7, index2Col, minP5).value;
      var n := Later.GeneralMask(recipe, r1, recipeP7, minP7, index2Col, minP5).value;
      m.mask == n.mask && m.dualIx == n.dualIx && m.convertOpts == n.convertOpts
  {
  }

  // ----------------------------------------------------------- prepConvert

  /** One folder of `prepConvert`: `detMask`, then `misMatcher` on the untruncated columns. */
  function PrepEntry(e: OutLane, recipe: SeqRecipe): (r: Result<OutLane>)
    ensures r.Ok? ==> r.value.name == e.name && r.value.sheet == e.sheet && r.value.prep.Some?
  {
    match DetMask(recipe, e.sheet)
    case Err(m) => Err(m)
    case Ok(info) =>
      match MisMatch(IndexCells(e.sheet.rows), DemuxRun.P5Cells(e.sheet))
      case Err(m) => Err(m)
      case Ok(mm) =>
        Ok(e.(prep := Some(Prep(Some(info.mask), info.dualIx, info.pe, info.convertOpts, mm))))
  }

  /** `PrepEntry` as a step, for the loop over the folders. */
  function PrepStep(recipe: SeqRecipe): OutLane -> Result<OutLane>
  {
    e => PrepEntry(e, recipe)
  }

  /** `prepConvert` from position `i` on: every folder, no marker test; the first exception ends it. */
  function PrepFrom(entries: seq<OutLane>, i: nat, prep: OutLane -> Result<OutLane>): (r: (seq<OutLane>, Option<string>))
    ensures |r.0| == |entries|
    decreases |entries| - i
  {
    if i >= |entries| then (entries, None)
    else
      match prep(entries[i])
      case Err(m) => (entries, Some(m))
      case Ok(e) => PrepFrom(entries[i := e], i + 1, prep)
  }

  /** `prepConvert`, updating the entries of `ssDic` in place. */
  method PrepConvert(ss: CS.SampleSheet, recipe: SeqRecipe) returns (r: Result<()>)
    modifies ss
    ensures ss.ssDic == PrepFrom(old(ss.ssDic), 0, PrepStep(recipe)).0
    ensures r.Err? <==> PrepFrom(old(ss.ssDic), 0, PrepStep(recipe)).1.Some?
    ensures ss.flowcell == old(ss.flowcell) && ss.runInfoLanes == old(ss.runInfoLanes)
    ensures ss.fullSS == old(ss.fullSS) && ss.laneSplitStatus == old(ss.laneSplitStatus)
  {
    var i := 0;
    while i < |ss.ssDic|
      invariant i <= |ss.ssDic| == |old(ss.ssDic)|
      invariant PrepFrom(ss.ssDic, i, PrepStep(recipe)) == PrepFrom(old(ss.ssDic), 0, PrepStep(recipe))
      invariant ss.flowcell == old(ss.flowcell) && ss.runInfoLanes == old(ss.runInfoLanes)
      invariant ss.fullSS == old(ss.fullSS) && ss.laneSplitStatus == old(ss.laneSplitStatus)
      decreases |ss.ssDic| - i
    {
      var e := ss.ssDic[i];
      var p := PrepOne(e, recipe);
      if p.Err? {
        return Err(p.reason);
      }
      ss.ssDic := ss.ssDic[i := p.value];
      i := i + 1;
    }
    r := Ok(());
  }

  /** One folder of `prepConvert`'s loop. */
  method PrepOne(e: OutLane, recipe: SeqRecipe) returns (r: Result<OutLane>)
    ensures r == PrepStep(recipe)(e)
  {
    var d := DetMask(recipe, e.sheet);
    if d.Err? {
      return Err(d.reason);
    }
    var mm := MisMatcher(IndexCells(e.sheet.rows), DemuxRun.P5Cells(e.sheet));
    if mm.Err? {
      return Err(mm.reason);
    }
    var info := d.value;
    r := Ok(e.(prep := Some(Prep(Some(info.mask), info.dualIx, info.pe, info.convertOpts, mm.value))));
  }

  /** A step that keeps each folder's name and sample sheet. */
  ghost predicate KeepsFolder(prep: OutLane -> Result<OutLane>)
  {
    forall e :: prep(e).Ok? ==> prep(e).value.name == e.name && prep(e).value.sheet == e.sheet
  }

  /** `prepConvert` from `i` on keeps every folder's name and sample sheet. */
  lemma {:induction false} PrepFromKeeps(entries: seq<OutLane>, i: nat, prep: OutLane -> Result<OutLane>)
    requires KeepsFolder(prep)
    ensures var res := PrepFrom(entries, i, prep).0;
      forall k :: 0 <= k < |entries| ==> res[k].name == entries[k].name && res[k].sheet == entries[k].sheet
    decreases |entries| - i
  {
    if i < |entries| {
      var p := prep(entries[i]);
      if p.Ok? {
        PrepFromKeeps(entries[i := p.value], i + 1, prep);
      }
    }
  }

  /** `prepConvert` from `i` on leaves the folders before `i` as they were. */
  lemma {:induction false} PrepFromUntouched(entries: seq<OutLane>, i: nat, prep: OutLane -> Result<OutLane>)
    ensures var res := PrepFrom(entries, i, prep).0;
      forall k :: 0 <= k < |entries| && k < i ==> res[k] == entries[k]
    decreases |entries| - i
  {
    if i < |entries| {
      var p := prep(entries[i]);
      if p.Ok? {
        var next := entries[i := p.value];
        PrepFromUntouched(next, i + 1, prep);
        forall k | 0 <= k < |entries| && k < i
          ensures next[k] == entries[k]
        {
        }
      }
    }
  }

  /** When `prepConvert` from `i` on raises nothing, every folder from `i` on holds its prepared entry. */
  lemma {:induction false} PrepFromPrepares(entries: seq<OutLane>, i: nat, prep: OutLane -> Result<OutLane>)
    requires PrepFrom(entries, i, prep).1.None?
    ensures var res := PrepFrom(entries, i, prep).0;
      forall k :: i <= k < |entries| ==> prep(entries[k]) == Ok(res[k])
    decreases |entries| - i
  {
    if i < |entries| {
      var p := prep(entries[i]);
      if p.Ok? {
        var next := entries[i := p.value];
        PrepFromPrepares(next, i + 1, prep);
        PrepFromUntouched(next, i + 1, prep);
      }
    }
  }

  /**
   * `prepConvert` keeps the folders, their order and their sample sheets,
   * and when it raises nothing every folder holds `detMask` and
   * `misMatcher`'s keys for its sheet.
   */
  lemma PrepConvertPrepares(entries: seq<OutLane>, recipe: SeqRecipe)
    ensures var res := PrepFrom(entries, 0, PrepStep(recipe));
      && (forall k :: 0 <= k < |entries| ==> res.0[k].name == entries[k].name && res.0[k].sheet == entries[k].sheet)
      && (res.1.None? ==> forall k :: 0 <= k < |entries| ==> PrepEntry(entries[k], recipe) == Ok(res.0[k]))
  {
    PrepFromKeeps(entries, 0, PrepStep(recipe));
    if PrepFrom(entries, 0, PrepStep(recipe)).1.None? {
      PrepFromPrepares(entries, 0, PrepStep(recipe));
    }
  }

  // ------------------------------------------------------- writeDemuxSheet

  /**
   * `writeDemuxSheet`: the same lines as the later writer, but the
   * index-2 tolerance is read whenever dualIx is set, a KeyError when
   * `misMatcher` gave none; an entry never prepared has no 'mismatch'.
   */
  function SheetLines(e: OutLane, laneSplit: bool): (r: Result<seq<string>>)
    ensures r.Ok? <==> e.prep.Some? && (e.prep.value.dualIx ==> e.prep.value.mismatch.index2.Some?)
  {
    match e.prep
    case None => Err("KeyError: 'mismatch'")
    case Some(p) =>
      if p.dualIx && p.mismatch.index2.None? then Err("KeyError: 'BarcodeMismatchesIndex2'")
      else Ok(DemuxSheet.DemuxSheetLines(p, e.sheet.rows, laneSplit))
  }

  /**
   * When it writes, the writer of this version leaves dualIx as it was
   * and writes an index-2 tolerance line exactly when dualIx is set.
   */
  lemma SheetLinesKeepDualIx(e: OutLane, laneSplit: bool)
    requires SheetLines(e, laneSplit).Ok?
    ensures DemuxSheet.SettledPrep(e.prep.value) == e.prep.value
    ensures |DemuxSheet.ToleranceLines(e.prep.value)| == (if e.prep.value.dualIx then 6 else 5)
  {
  }

  /**
   * The KeyError cannot follow `prepConvert`: dualIx comes from the index2
   * column, which then makes `misMatcher` compute the index-2 tolerance
   * (a sheet too short for that fails in `misMatcher` first).
   */
  lemma PreparedSheetWrites(e: OutLane, recipe: SeqRecipe, laneSplit: bool)
    requires PrepEntry(e, recipe).Ok?
    ensures SheetLines(PrepEntry(e, recipe).value, laneSplit).Ok?
  {
    var info := DetMask(recipe, e.sheet).value;
    DetMaskFlags(recipe, e.sheet);
    MisMatchKeys(IndexCells(e.sheet.rows), DemuxRun.P5Cells(e.sheet));
  }

  // ----------------------------------------------------------------- demux

  const ExitOne := "SystemExit: 1"

  /** The bcl-convert command line: 20 threads of each kind, no lane-splitting option. */
  function BclOpts(cfg: DemuxRun.BclConfig, folder: string): (o: seq<string>)
    ensures |o| == 14 && o[0] == cfg.bclconvert && o[9] == "20" && o[11] == "20"
    ensures o[7] == RunDir.PathJoin(RunDir.PathJoin(cfg.outBaseDir, folder), "demuxSheet.csv")
  {
    DemuxRun.BclOpts(cfg, folder, true, "20")
  }

  /**
   * One folder of `demux`: the folder is made if missing, the demux sheet
   * written if missing, and bcl-convert launched once; a non-zero exit
   * ends the run. No marker is read or touched.
   */
  function DemuxFolder(dir: RunDir.DirState, e: OutLane, laneSplit: bool, cfg: DemuxRun.BclConfig,
                       exitCode: nat -> int): (RunDir.DirState, Result<()>)
  {
    var d0 := dir.(folders := dir.folders + {e.name});
    var written :=
      if e.name in d0.sheets then Ok(d0)
      else
        match SheetLines(e, laneSplit)
        case Err(m) => Err(m)
        case Ok(lines) => Ok(d0.(sheets := d0.sheets[e.name := lines]));
    match written
    case Err(m) => (d0, Err(m))
    case Ok(d1) =>
      var code := exitCode(|d1.launches|);
      var d2 := d1.(launches := d1.launches + [BclOpts(cfg, e.name)]);
      if code == 0 then (d2, Ok(())) else (d2, Err(ExitOne))
  }

  /** `DemuxFolder` as a step, for the loop over the folders. */
  function FolderStep(laneSplit: bool, cfg: DemuxRun.BclConfig, exitCode: nat -> int): (RunDir.DirState, OutLane) -> (RunDir.DirState, Result<()>)
  {
    (dir, e) => DemuxFolder(dir, e, laneSplit, cfg, exitCode)
  }

  /** `demux` over the folders from `k` on. */
  function DemuxFrom(dir: RunDir.DirState, entries: seq<OutLane>, k: nat,
                     step: (RunDir.DirState, OutLane) -> (RunDir.DirState, Result<()>)): (RunDir.DirState, Result<()>)
    decreases |entries| - k
  {
    if k >= |entries| then (dir, Ok(()))
    else
      var r := step(dir, entries[k]);
      if r.1.Err? then r else DemuxFrom(r.0, entries, k + 1, step)
  }

  /** The option lists of the launches of folders `k` to `k + n`, in order. */
  function Launches(entries: seq<OutLane>, k: nat, n: nat, cfg: DemuxRun.BclConfig): (l: seq<seq<string>>)
    requires k + n <= |entries|
    ensures |l| == n
    ensures forall j :: 0 <= j < n ==> l[j] == BclOpts(cfg, entries[k + j].name)
  {
    seq(n, j requires 0 <= j < n => BclOpts(cfg, entries[k + j].name))
  }

  /**
   * One folder: no marker and no mail, and at most one launch. The folder
   * succeeds exactly when its sheet is there or can be written and its
   * single launch exits 0; a launch exiting -6 is not retried.
   */
  lemma DemuxFolderOnce(dir: RunDir.DirState, e: OutLane, laneSplit: bool, cfg: DemuxRun.BclConfig, exitCode: nat -> int)
    ensures var (d, r) := DemuxFolder(dir, e, laneSplit, cfg, exitCode);
      var sheetOk := e.name in dir.sheets || SheetLines(e, laneSplit).Ok?;
      && d.markers == dir.markers && d.mails == dir.mails
      && d.folders == dir.folders + {e.name}
      && d.launches == dir.launches + (if sheetOk then [BclOpts(cfg, e.name)] else [])
      && (r.Ok? <==> sheetOk && exitCode(|dir.launches|) == 0)
      && (e.name in dir.sheets ==> d.sheets == dir.sheets)
  {
  }

  /** A folder step that touches no marker and no mail and launches at most once. */
  ghost predicate StepKeeps(step: (RunDir.DirState, OutLane) -> (RunDir.DirState, Result<()>))
  {
    forall dir, e :: var d := step(dir, e).0;
      && d.markers == dir.markers && d.mails == dir.mails
      && |dir.launches| <= |d.launches| <= |dir.launches| + 1
  }

  /** A folder step that, when it succeeds, launched bcl-convert once for the folder and saw exit 0. */
  ghost predicate StepLaunchesOnce(step: (RunDir.DirState, OutLane) -> (RunDir.DirState, Result<()>),
                                   cfg: DemuxRun.BclConfig, exitCode: nat -> int)
  {
    forall dir, e :: step(dir, e).1.Ok? ==>
      step(dir, e).0.launches == dir.launches + [BclOpts(cfg, e.name)] && exitCode(|dir.launches|) == 0
  }

  lemma FolderStepIs(laneSplit: bool, cfg: DemuxRun.BclConfig, exitCode: nat -> int)
    ensures StepKeeps(FolderStep(laneSplit, cfg, exitCode))
    ensures StepLaunchesOnce(FolderStep(laneSplit, cfg, exitCode), cfg, exitCode)
  {
    forall dir, e
      ensures var d := FolderStep(laneSplit, cfg, exitCode)(dir, e).0;
        && d.markers == dir.markers && d.mails == dir.mails
        && |dir.launches| <= |d.launches| <= |dir.launches| + 1
    {
      DemuxFolderOnce(dir, e, laneSplit, cfg, exitCode);
    }
    forall dir, e | FolderStep(laneSplit, cfg, exitCode)(dir, e).1.Ok?
      ensures FolderStep(laneSplit, cfg, exitCode)(dir, e).0.launches == dir.launches + [BclOpts(cfg, e.name)]
      ensures exitCode(|dir.launches|) == 0
    {
      DemuxFolderOnce(dir, e, laneSplit, cfg, exitCode);
    }
  }

  /** The stage never touches a marker or a mail, and launches at most once per folder. */
  lemma {:induction false} DemuxFromKeeps(dir: RunDir.DirState, entries: seq<OutLane>, k: nat,
                                          step: (RunDir.DirState, OutLane) -> (RunDir.DirState, Result<()>))
    requires k <= |entries| && StepKeeps(step)
    ensures var d := DemuxFrom(dir, entries, k, step).0;
      && d.markers == dir.markers && d.mails == dir.mails
      && |dir.launches| <= |d.launches| <= |dir.launches| + (|entries| - k)
    decreases |entries| - k
  {
    if k < |entries| {
      var r := step(dir, entries[k]);
      if r.1.Ok? {
        DemuxFromKeeps(r.0, entries, k + 1, step);
      }
    }
  }

  /**
   * On success every folder from `k` on was launched exactly once, in
   * order, and every launch exited 0.
   */
  lemma {:induction false} DemuxFromLaunches(dir: RunDir.DirState, entries: seq<OutLane>, k: nat,
                                             step: (RunDir.DirState, OutLane) -> (RunDir.DirState, Result<()>),
                                             cfg: DemuxRun.BclConfig, exitCode: nat -> int)
    requires k <= |entries| && StepLaunchesOnce(step, cfg, exitCode)
    requires DemuxFrom(dir, entries, k, step).1.Ok?
    ensures var d := DemuxFrom(dir, entries, k, step).0;
      && d.launches == dir.launches + Launches(entries, k, |entries| - k, cfg)
      && forall j :: |dir.launches| <= j < |d.launches| ==> exitCode(j) == 0
    decreases |entries| - k
  {
    if k < |entries| {
      var r := step(dir, entries[k]);
      DemuxFromLaunches(r.0, entries, k + 1, step, cfg, exitCode);
      assert Launches(entries, k, |entries| - k, cfg)
        == [BclOpts(cfg, entries[k].name)] + Launches(entries, k + 1, |entries| - k - 1, cfg);
    } else {
      assert Launches(entries, k, 0, cfg) == [];
    }
  }

  /**
   * `demux` of this version: no marker is read or touched and no mail is
   * sent; on success every folder was launched exactly once, in order,
   * and every launch exited 0, so a -6 is never retried.
   */
  lemma DemuxOnce(dir: RunDir.DirState, entries: seq<OutLane>, laneSplit: bool, cfg: DemuxRun.BclConfig, exitCode: nat -> int)
    ensures var (d, r) := DemuxFrom(dir, entries, 0, FolderStep(laneSplit, cfg, exitCode));
      && d.markers == dir.markers && d.mails == dir.mails
      && |d.launches| <= |dir.launches| + |entries|
      && (r.Ok? ==> d.launches == dir.launches + Launches(entries, 0, |entries|, cfg))
      && (r.Ok? ==> forall j :: |dir.launches| <= j < |d.launches| ==> exitCode(j) == 0)
  {
    FolderStepIs(laneSplit, cfg, exitCode);
    DemuxFromKeeps(dir, entries, 0, FolderStep(laneSplit, cfg, exitCode));
    if DemuxFrom(dir, entries, 0, FolderStep(laneSplit, cfg, exitCode)).1.Ok? {
      DemuxFromLaunches(dir, entries, 0, FolderStep(laneSplit, cfg, exitCode), cfg, exitCode);
    }
  }

  /** `demux`, stepping through the output folders. */
  method Demux(ss: CS.SampleSheet, out: RunDir.OutputDir, cfg: DemuxRun.BclConfig, exitCode: nat -> int) returns (r: Result<()>)
    modifies out
    ensures (out.State(), r) == DemuxFrom(old(out.State()), ss.ssDic, 0, FolderStep(ss.laneSplitStatus, cfg, exitCode))
  {
    var i := 0;
    while i < |ss.ssDic|
      invariant 0 <= i <= |ss.ssDic|
      invariant DemuxFrom(out.State(), ss.ssDic, i, FolderStep(ss.laneSplitStatus, cfg, exitCode))
        == DemuxFrom(old(out.State()), ss.ssDic, 0, FolderStep(ss.laneSplitStatus, cfg, exitCode))
      decreases |ss.ssDic| - i
    {
      var step := DemuxOne(out, ss.ssDic[i], ss.laneSplitStatus, cfg, exitCode);
      if step.Err? {
        return step;
      }
      i := i + 1;
    }
    r := Ok(());
  }

  /** One folder of `demux`'s loop: make the folder, write its sheet if missing, launch once. */
  method DemuxOne(out: RunDir.OutputDir, e: OutLane, laneSplit: bool, cfg: DemuxRun.BclConfig, exitCode: nat -> int) returns (r: Result<()>)
    modifies out
    ensures (out.State(), r) == DemuxFolder(old(out.State()), e, laneSplit, cfg, exitCode)
  {
    out.folders := out.folders + {e.name};
    if e.name !in out.sheets {
      var lines := SheetLines(e, laneSplit);
      if lines.Err? {
        return Err(lines.reason);
      }
      out.sheets := out.sheets[e.name := lines.value];
    }
    var exitcode := exitCode(|out.launches|);
    out.launches := out.launches + [BclOpts(cfg, e.name)];
    if exitcode != 0 {
      return Err(ExitOne);
    }
    r := Ok(());
  }
}
