// src/dissectBCL/classes.py, the older `sampleSheetClass` of the packaged
// pipeline: its own `decideSplit` (a sample name on several rows forbids
// the split), `parseSS` with spaces taken out of the project names, and
// the free-space verdict of the report mail.
module ClassesSheet {
  import opened Wrappers
  import opened Text
  import opened Records
  import FS = FlowcellSheet

  // ------------------------------------------------------------- decideSplit

  /** Two different rows carry the same Sample_Name: `value_counts() > 1` for that name. */
  predicate NameRepeats(rows: seq<Row>)
  {
    exists i, j :: 0 <= i < j < |rows| && rows[i].sampleName == rows[j].sampleName
  }

  /** How many rows carry the Sample_Name `name`: one entry of `value_counts()`. */
  function NameCount(rows: seq<Row>, name: string): nat
    decreases |rows|
  {
    if |rows| == 0 then 0
    else NameCount(rows[..|rows| - 1], name) + (if rows[|rows| - 1].sampleName == name then 1 else 0)
  }

  /** Two rows put one project, whichever it is, on two different lanes. */
  predicate ProjectOnTwoLanes(a: Row, b: Row)
  {
    a.project == b.project && a.lane != b.lane
  }

  /**
   * `decideSplit`: split per lane unless a sample name repeats, a project
   * sits on two lanes or fewer lanes are listed than the run has; a run
   * that is not split is split after all when its indices clash across
   * samples (the same clash test as the flow cell module's).
   */
  function DecideSplitOf(sheet: Sheet, runInfoLanes: nat): Result<bool>
  {
    if !sheet.cols.lane then Err("KeyError: Lane")
    else
      var rows := sheet.rows;
      var status := !NameRepeats(rows) && !FS.SomePair(rows, ProjectOnTwoLanes)
        && |FS.LaneSet(rows)| >= runInfoLanes;
      if status then Ok(true)
      else if !sheet.cols.index then Err("UnboundLocalError: testSer")
      else
        var dual := sheet.cols.index2;
        Ok(FS.SomePair(rows, (a, b) => FS.Clashes(dual, a, b)))
  }

  /** The row test is the source's count: some Sample_Name is counted more than once. */
  lemma NameRepeatsIff(rows: seq<Row>)
    ensures NameRepeats(rows) <==> exists i :: 0 <= i < |rows| && NameCount(rows, rows[i].sampleName) > 1
  {
    if NameRepeats(rows) {
      var i, j :| 0 <= i < j < |rows| && rows[i].sampleName == rows[j].sampleName;
      NameCountAtLeastTwo(rows, i, j);
    }
    if exists i :: 0 <= i < |rows| && NameCount(rows, rows[i].sampleName) > 1 {
      var i :| 0 <= i < |rows| && NameCount(rows, rows[i].sampleName) > 1;
      var j, k := NameCountTwoRows(rows, rows[i].sampleName);
    }
  }

  /** A name on rows `i` and `j` is counted at least twice. */
  lemma {:induction false} NameCountAtLeastTwo(rows: seq<Row>, i: nat, j: nat)
    requires i < j < |rows| && rows[i].sampleName == rows[j].sampleName
    ensures NameCount(rows, rows[i].sampleName) >= 2
    decreases |rows|
  {
    var init := rows[..|rows| - 1];
    if j < |rows| - 1 {
      assert init[i] == rows[i] && init[j] == rows[j];
      NameCountAtLeastTwo(init, i, j);
    } else {
      assert init[i] == rows[i];
      NameCountPositive(init, i);
    }
  }

  /** A name on row `i` is counted. */
  lemma {:induction false} NameCountPositive(rows: seq<Row>, i: nat)
    requires i < |rows|
    ensures NameCount(rows, rows[i].sampleName) >= 1
    decreases |rows|
  {
    var init := rows[..|rows| - 1];
    if i < |rows| - 1 {
      assert init[i] == rows[i];
      NameCountPositive(init, i);
    }
  }

  /** A name counted twice sits on two different rows. */
  lemma {:induction false} NameCountTwoRows(rows: seq<Row>, name: string) returns (i: nat, j: nat)
    requires NameCount(rows, name) > 1
    ensures i < j < |rows| && rows[i].sampleName == name && rows[j].sampleName == name
    decreases |rows|
  {
    var init := rows[..|rows| - 1];
    if NameCount(init, name) > 1 {
      i, j := NameCountTwoRows(init, name);
      assert init[i] == rows[i] && init[j] == rows[j];
    } else {
      i := NameCountRow(init, name);
      assert init[i] == rows[i];
      j := |rows| - 1;
    }
  }

  /** A name counted once sits on some row. */
  lemma {:induction false} NameCountRow(rows: seq<Row>, name: string) returns (i: nat)
    requires NameCount(rows, name) > 0
    ensures i < |rows| && rows[i].sampleName == name
    decreases |rows|
  {
    var init := rows[..|rows| - 1];
    if rows[|rows| - 1].sampleName == name {
      i := |rows| - 1;
    } else {
      i := NameCountRow(init, name);
      assert init[i] == rows[i];
    }
  }

  /**
   * The test counts rows, not lanes: a sample listed twice on the same lane
   * with the same index forbids the split here, where the flow cell
   * module's test, which looks at lanes, allows it.
   */
  lemma RowsNotLanes(r: Row, cols: Columns)
    requires cols.lane && cols.index && r.lane == LaneNo(1)
    ensures DecideSplitOf(Sheet(cols, [r, r]), 1) == Ok(false)
    ensures FS.DecideSplitOf(Sheet(cols, [r, r]), 1) == Ok(true)
  {
    var rows := [r, r];
    assert NameRepeats(rows) by {
      assert rows[0].sampleName == rows[1].sampleName;
    }
    assert FS.LaneSet(rows) == {LaneNo(1)} by {
      assert rows[0].lane == LaneNo(1);
    }
    assert !FS.SomePair(rows, (a, b) => FS.Clashes(cols.index2, a, b));
    assert !FS.SomePair(rows, FS.SampleOnTwoLanes);
    assert !FS.SomePair(rows, FS.ProjectOnTwoLanes);
  }

  // ----------------------------------------------------------------- parseSS

  /** `str.replace(' ', '')` on Sample_Project. */
  function NoBlanks(s: string): string
  {
    ReplaceAll(s, [' '], "")
  }

  /** The result has no space, a name without one is kept as it is, and so taking spaces out twice is taking them out once. */
  lemma NoBlanksClean(s: string)
    ensures ' ' !in NoBlanks(s)
    ensures ' ' !in s ==> NoBlanks(s) == s
    ensures NoBlanks(NoBlanks(s)) == NoBlanks(s)
  {
    ReplaceCharRemoves(s, ' ', "");
    ReplaceCharAbsent(NoBlanks(s), ' ', "");
    if ' ' !in s {
      ReplaceCharAbsent(s, ' ', "");
    }
  }

  /** Every row's Sample_Project without its spaces. */
  function ProjectsWithoutBlanks(rows: seq<Row>): (r: seq<Row>)
    ensures |r| == |rows|
    ensures forall i :: 0 <= i < |rows| ==> r[i] == rows[i].(project := NoBlanks(rows[i].project))
  {
    seq(|rows|, i requires 0 <= i < |rows| => rows[i].(project := NoBlanks(rows[i].project)))
  }

  /** The split decided on the cleaned sheet, then the entries built as the flow cell module builds them. */
  function SettleOf(flowcell: string, clean: Sheet, n: nat, lims: bool): Result<(bool, seq<OutLane>)>
  {
    match DecideSplitOf(clean, n)
    case Err(e) => Err(e)
    case Ok(split) =>
      if split then Ok((true, FS.SplitEntries(flowcell, clean, n)))
      else Ok((false, [FS.MergedEntry(flowcell, clean, n, lims)]))
  }

  /**
   * `parseSS` after the CSV is read: Lane cast to int (a KeyError without
   * the column, a ValueError for a lane that is not a number), the spaces
   * taken out of the project names, then the split and the entries.
   */
  function ParseSSOf(flowcell: string, sheet: Sheet, n: nat, lims: bool): Result<(bool, seq<OutLane>)>
  {
    if !sheet.cols.lane then Err("KeyError: Lane")
    else if !FS.LaneNumbers(sheet.rows) then Err("ValueError: invalid literal for int()")
    else SettleOf(flowcell, Sheet(sheet.cols, ProjectsWithoutBlanks(sheet.rows)), n, lims)
  }

  /**
   * No entry `parseSS` builds has a project name with a space in it, and
   * a run that is split has one entry per lane, that lane's rows.
   */
  lemma ParseSSEntries(flowcell: string, sheet: Sheet, n: nat, lims: bool)
    requires ParseSSOf(flowcell, sheet, n, lims).Ok?
    ensures var p := ParseSSOf(flowcell, sheet, n, lims).value;
      && (forall k, x :: 0 <= k < |p.1| && x in p.1[k].sheet.rows ==> ' ' !in x.project)
      && (p.0 ==> |p.1| == n && forall k :: 0 <= k < n ==> p.1[k].name == FS.LaneKey(flowcell, k + 1))
      && (!p.0 ==> |p.1| == 1 && p.1[0].name == FS.AllLanesKey(flowcell, n))
  {
    var clean := Sheet(sheet.cols, ProjectsWithoutBlanks(sheet.rows));
    var p := ParseSSOf(flowcell, sheet, n, lims).value;
    forall x | x in clean.rows
      ensures ' ' !in x.project
    {
      var i :| 0 <= i < |clean.rows| && clean.rows[i] == x;
      NoBlanksClean(sheet.rows[i].project);
    }
    if p.0 {
      FS.SplitEntriesByLane(flowcell, clean, n);
    } else {
      FS.MergedEntryRows(flowcell, clean, n, lims);
      MergedProjects(clean.rows, lims);
    }
  }

  /** Merging keeps each row's project (the collapse takes a sample's first row). */
  lemma MergedProjects(rows: seq<Row>, lims: bool)
    requires forall x :: x in rows ==> ' ' !in x.project
    ensures var r := if lims then FS.Collapse(rows) else rows;
      forall x :: x in r ==> ' ' !in x.project
  {
    if lims {
      var ids := FS.Ids(rows);
      forall k | 0 <= k < |ids|
        ensures ' ' !in FS.Collapse(rows)[k].project
      {
        var g := FS.Group(rows, ids[k]);
        assert ids[k] in ids;
        var i :| 0 <= i < |rows| && rows[i].sampleId == ids[k];
        assert rows[i] in g;
        assert g[0] in g;
      }
    }
  }

  /** The sample sheet object of this version, the same fields as the flow cell module's. */
  class SampleSheet {
    var flowcell: string
    var runInfoLanes: nat
    var fullSS: Option<Sheet>
    var laneSplitStatus: bool
    var ssDic: seq<OutLane>

    constructor(flowcell: string, runInfoLanes: nat)
      ensures this.flowcell == flowcell && this.runInfoLanes == runInfoLanes
      ensures fullSS.None? && !laneSplitStatus && ssDic == []
    {
      this.flowcell := flowcell;
      this.runInfoLanes := runInfoLanes;
      fullSS := None;
      laneSplitStatus := false;
      ssDic := [];
    }

    /** `decideSplit` on the full sheet. */
    method DecideSplit() returns (r: Result<bool>)
      requires fullSS.Some?
      ensures r == DecideSplitOf(fullSS.value, runInfoLanes)
    {
      var sheet := fullSS.value;
      if !sheet.cols.lane {
        return Err("KeyError: Lane");
      }
      var laneSplitStatus := true;
      var repeated := RepeatedName(sheet.rows);
      if repeated {
        laneSplitStatus := false;
      }
      var projectClash := FS.AnyPair(sheet.rows, ProjectOnTwoLanes);
      if projectClash {
        laneSplitStatus := false;
      }
      var lanes := FS.CountLanes(sheet.rows);
      if lanes < runInfoLanes {
        laneSplitStatus := false;
      }
      if !laneSplitStatus {
        if !sheet.cols.index {
          return Err("UnboundLocalError: testSer");
        }
        var dual := sheet.cols.index2;
        laneSplitStatus := FS.AnyPair(sheet.rows, (a, b) => FS.Clashes(dual, a, b));
      }
      return Ok(laneSplitStatus);
    }

    /** `parseSS`: the cleaned sheet kept as `fullSS` while the split is decided, then the entries. */
    method ParseSS(sheet: Sheet, lims: bool) returns (r: Result<()>)
      modifies this
      ensures flowcell == old(flowcell) && runInfoLanes == old(runInfoLanes)
      ensures var p := ParseSSOf(flowcell, sheet, runInfoLanes, lims);
        && (p.Ok? <==> r.Ok?)
        && (p.Ok? ==> laneSplitStatus == p.value.0 && ssDic == p.value.1 && fullSS.None?)
        && (p.Err? ==> r == Err(p.reason))
    {
      if !sheet.cols.lane {
        return Err("KeyError: Lane");
      }
      if !FS.LaneNumbers(sheet.rows) {
        return Err("ValueError: invalid literal for int()");
      }
      var clean := Sheet(sheet.cols, ProjectsWithoutBlanks(sheet.rows));
      fullSS := Some(clean);
      var d := DecideSplit();
      if d.Err? {
        return Err(d.reason);
      }
      laneSplitStatus := d.value;
      if laneSplitStatus {
        ssDic := FS.LaneEntries(flowcell, clean, runInfoLanes);
      } else {
        ssDic := [FS.MergedEntry(flowcell, clean, runInfoLanes, lims)];
      }
      fullSS := None;
      r := Ok(());
    }
  }

  /** The `value_counts() > 1` test, as a scan for an earlier row of the same name. */
  method RepeatedName(rows: seq<Row>) returns (found: bool)
    ensures found == NameRepeats(rows)
  {
    found := false;
    var j := 0;
    while j < |rows|
      invariant 0 <= j <= |rows|
      invariant found <==> exists i, k :: 0 <= i < k < j && rows[i].sampleName == rows[k].sampleName
    {
      var i := 0;
      while i < j
        invariant 0 <= i <= j
        invariant found <==>
          (exists i', k :: 0 <= i' < k < j && rows[i'].sampleName == rows[k].sampleName)
          || (exists i' :: 0 <= i' < i && rows[i'].sampleName == rows[j].sampleName)
      {
        if rows[i].sampleName == rows[j].sampleName {
          found := true;
        }
        i := i + 1;
      }
      j := j + 1;
    }
  }

  // ------------------------------------------------------------------ prepMail

  const AllGood := "All good!"
  const Tight := "Space getting tight!"
  const Danger := "Danger zone, clear space immediately!"

  /**
   * `spaceGood`: the verdict on the free space of the output volume. More
   * than 5000 is fine, strictly between 1000 and 5000 is tight, and
   * everything else is danger, 1000 and 5000 themselves included.
   */
  function SpaceGood(freeSpace: int): (r: string)
    ensures r == AllGood <==> freeSpace > 5000
    ensures r == Tight <==> 1000 < freeSpace < 5000
    ensures r == Danger <==> freeSpace <= 1000 || freeSpace == 5000
  {
    if freeSpace > 5000 then AllGood
    else if freeSpace > 1000 && freeSpace < 5000 then Tight
    else Danger
  }
}
