// src/dissectBCL/flowcell.py, `sampleSheetClass`: whether the run can be
// demultiplexed lane by lane (`decideSplit`) and how the parsed sample
// sheet is cut into the `ssDic` entries, one per output folder (`parseSS`).
module FlowcellSheet {
  import opened Wrappers
  import opened Text
  import opened Records
  import opened Misc

  // ------------------------------------------------------------- decideSplit

  /** Two rows put one sample (other than PhiX) on two different lanes. */
  predicate SampleOnTwoLanes(a: Row, b: Row)
  {
    a.sampleId == b.sampleId && a.sampleId != "PhiX" && a.lane != b.lane
  }

  /** Two rows put one project (other than the PhiX project) on two different lanes. */
  predicate ProjectOnTwoLanes(a: Row, b: Row)
  {
    a.project == b.project && a.project != "0000_PhiX_DeepSeq" && a.lane != b.lane
  }

  /** Some two rows of the sheet are related by `rel`. */
  predicate SomePair(rows: seq<Row>, rel: (Row, Row) -> bool)
  {
    exists i, j {:trigger rel(rows[i], rows[j])} :: 0 <= i < |rows| && 0 <= j < |rows| && rel(rows[i], rows[j])
  }

  /** The lanes the sheet lists: `fullSS['Lane'].unique()`. */
  function LaneSet(rows: seq<Row>): set<Lane>
  {
    set i | 0 <= i < |rows| :: rows[i].lane
  }

  /** The lanes one sample is listed on. */
  function LanesOfSample(rows: seq<Row>, s: string): set<Lane>
  {
    set i | 0 <= i < |rows| && rows[i].sampleId == s :: rows[i].lane
  }

  /**
   * What `value_counts` counts in the clash test: the index, or index and
   * index2 concatenated when both columns exist; NaN (None) when a part is
   * NaN, and NaN is not counted.
   */
  function ClashKey(r: Row, dual: bool): Option<string>
  {
    if !dual then r.index
    else if r.index.Some? && r.index2.Some? then Some(r.index.value + r.index2.value)
    else None
  }

  /** What `drop_duplicates` compares before counting: id, index and (if dual) index2. */
  function DedupKey(r: Row, dual: bool): (string, Option<string>, Option<string>)
  {
    (r.sampleId, r.index, if dual then r.index2 else None)
  }

  /** Two different deduplicated rows share a counted key: `value_counts` sees a count above 1. */
  predicate Clashes(dual: bool, a: Row, b: Row)
  {
    ClashKey(a, dual).Some? && ClashKey(a, dual) == ClashKey(b, dual) && DedupKey(a, dual) != DedupKey(b, dual)
  }

  /**
   * `decideSplit`: split per lane unless a sample or a project sits on two
   * lanes or fewer lanes are listed than the run has; a run that is not
   * split is split after all when its indices clash across samples. The
   * Lane column is read unconditionally (KeyError without it), and the
   * clash test needs an index column (`testSer` is unbound otherwise).
   */
  function DecideSplitOf(sheet: Sheet, runInfoLanes: nat): Result<bool>
  {
    if !sheet.cols.lane then Err("KeyError: Lane")
    else
      var rows := sheet.rows;
      var status := !SomePair(rows, SampleOnTwoLanes) && !SomePair(rows, ProjectOnTwoLanes)
        && |LaneSet(rows)| >= runInfoLanes;
      if status then Ok(true)
      else if !sheet.cols.index then Err("UnboundLocalError: testSer")
      else
        var dual := sheet.cols.index2;
        Ok(SomePair(rows, (a, b) => Clashes(dual, a, b)))
  }

  /** The flag loop shared by the sample, project and clash tests. */
  method AnyPair(rows: seq<Row>, rel: (Row, Row) -> bool) returns (found: bool)
    ensures found == SomePair(rows, rel)
  {
    found := false;
    var i := 0;
    while i < |rows|
      invariant 0 <= i <= |rows|
      invariant found <==> exists i', j :: 0 <= i' < i && 0 <= j < |rows| && rel(rows[i'], rows[j])
    {
      var j := 0;
      while j < |rows|
        invariant 0 <= j <= |rows|
        invariant found <==>
          (exists i', j' :: 0 <= i' < i && 0 <= j' < |rows| && rel(rows[i'], rows[j']))
          || (exists j' :: 0 <= j' < j && rel(rows[i], rows[j']))
      {
        if rel(rows[i], rows[j]) {
          found := true;
        }
        j := j + 1;
      }
      i := i + 1;
    }
  }

  method CountLanes(rows: seq<Row>) returns (n: nat)
    ensures n == |LaneSet(rows)|
  {
    var lanes: set<Lane> := {};
    var i := 0;
    while i < |rows|
      invariant 0 <= i <= |rows|
      invariant lanes == set k | 0 <= k < i :: rows[k].lane
    {
      lanes := lanes + {rows[i].lane};
      i := i + 1;
    }
    n := |lanes|;
  }

  /** A set of more than one element has two different members, and only such a set. */
  lemma MoreThanOne<T>(s: set<T>)
    ensures |s| > 1 <==> exists a, b :: a in s && b in s && a != b
  {
    if |s| > 1 {
      var a :| a in s;
      assert |s - {a}| == |s| - 1;
      var b :| b in s - {a};
    }
    if exists a, b :: a in s && b in s && a != b {
      var a, b :| a in s && b in s && a != b;
      assert {a, b} <= s;
      assert |{a, b}| == 2;
      SubsetCard({a, b}, s);
    }
  }

  lemma SubsetCard<T>(a: set<T>, b: set<T>)
    requires a <= b
    ensures |a| <= |b|
  {
    assert b == a + (b - a);
  }

  /**
   * The pairwise test is the source's per-sample one: some sample other
   * than PhiX has more than one unique lane.
   */
  lemma SampleOnTwoLanesIff(rows: seq<Row>)
    ensures SomePair(rows, SampleOnTwoLanes)
      <==> exists i :: 0 <= i < |rows| && rows[i].sampleId != "PhiX" && |LanesOfSample(rows, rows[i].sampleId)| > 1
  {
    if SomePair(rows, SampleOnTwoLanes) {
      var i, j :| 0 <= i < |rows| && 0 <= j < |rows| && SampleOnTwoLanes(rows[i], rows[j]);
      var s := rows[i].sampleId;
      assert rows[i].lane in LanesOfSample(rows, s) && rows[j].lane in LanesOfSample(rows, s);
      MoreThanOne(LanesOfSample(rows, s));
    }
    if exists i :: 0 <= i < |rows| && rows[i].sampleId != "PhiX" && |LanesOfSample(rows, rows[i].sampleId)| > 1 {
      var i :| 0 <= i < |rows| && rows[i].sampleId != "PhiX" && |LanesOfSample(rows, rows[i].sampleId)| > 1;
      var s := rows[i].sampleId;
      MoreThanOne(LanesOfSample(rows, s));
      var a, b :| a in LanesOfSample(rows, s) && b in LanesOfSample(rows, s) && a != b;
      var ia :| 0 <= ia < |rows| && rows[ia].sampleId == s && rows[ia].lane == a;
      var ib :| 0 <= ib < |rows| && rows[ib].sampleId == s && rows[ib].lane == b;
      assert SampleOnTwoLanes(rows[ia], rows[ib]);
    }
  }

  // ----------------------------------------------------------------- parseSS

  /** `flowcell + '_lanes_' + str(lane)`, the output folder of one lane. */
  function LaneKey(flowcell: string, lane: nat): string
  {
    flowcell + "_lanes_" + NatToString(lane)
  }

  /** `[str(lane) for lane in range(1, n + 1)]`. */
  function LaneNames(n: nat): (names: seq<string>)
    ensures |names| == n
  {
    seq(n, i requires 0 <= i < n => NatToString(i + 1))
  }

  /** The one output folder of a run that is not split: '<flowcell>_lanes_1_2_…'. */
  function AllLanesKey(flowcell: string, n: nat): string
  {
    flowcell + "_lanes_" + Join(LaneNames(n), "_")
  }

  /** The Lane cell written over every row of a run that is not split: '1,2,…'. */
  function AllLanesEntry(n: nat): string
  {
    Join(LaneNames(n), ",")
  }

  /** `ssdf[ssdf['Lane'] == lane]`. */
  function RowsOfLane(rows: seq<Row>, lane: int): (r: seq<Row>)
    ensures forall x :: x in r <==> x in rows && x.lane == LaneNo(lane)
    decreases |rows|
  {
    if |rows| == 0 then []
    else
      var rest := RowsOfLane(rows[1..], lane);
      assert forall x :: x in rows <==> x == rows[0] || x in rows[1..];
      if rows[0].lane == LaneNo(lane) then [rows[0]] + rest else rest
  }

  /** Sample_Project and Sample_Name through `umlautDestroyer`. */
  function Sanitised(rows: seq<Row>): (r: seq<Row>)
    ensures |r| == |rows|
  {
    seq(|rows|, i requires 0 <= i < |rows| =>
      rows[i].(project := UmlautDestroyer(rows[i].project), sampleName := UmlautDestroyer(rows[i].sampleName)))
  }

  /** The entries of a split run: one per lane 1..n, each holding that lane's rows. */
  function SplitEntries(flowcell: string, sheet: Sheet, n: nat): (entries: seq<OutLane>)
    ensures |entries| == n
  {
    seq(n, k requires 0 <= k < n =>
      OutLane(LaneKey(flowcell, k + 1), Sheet(sheet.cols, RowsOfLane(sheet.rows, k + 1)), None, None))
  }

  /** The first present cell of a group: pandas' 'first' aggregation skips NaN. */
  function FirstPresent(cells: seq<Option<string>>): (r: Option<string>)
    ensures r.Some? <==> exists k :: 0 <= k < |cells| && cells[k].Some?
    ensures r.Some? ==> r in cells
    decreases |cells|
  {
    if |cells| == 0 then None
    else if cells[0].Some? then cells[0]
    else
      var rest := FirstPresent(cells[1..]);
      assert forall k :: 1 <= k < |cells| ==> cells[k] == cells[1..][k - 1];
      rest
  }

  /** The rows of one Sample_ID, in sheet order. */
  function Group(rows: seq<Row>, id: string): (g: seq<Row>)
    ensures forall x :: x in g <==> x in rows && x.sampleId == id
    decreases |rows|
  {
    if |rows| == 0 then []
    else
      var rest := Group(rows[1..], id);
      assert forall x :: x in rows <==> x == rows[0] || x in rows[1..];
      if rows[0].sampleId == id then [rows[0]] + rest else rest
  }

  /** Strictly increasing in Python's string order, so no string twice. */
  predicate StrictlySorted(xs: seq<string>)
  {
    forall k, l :: 0 <= k < l < |xs| ==> StrLt(xs[k], xs[l])
  }

  /** `x` put in its place in a sorted list of keys, unless already there. */
  function InsertId(x: string, xs: seq<string>): (r: seq<string>)
    requires StrictlySorted(xs)
    ensures StrictlySorted(r)
    ensures forall y :: y in r <==> y == x || y in xs
    decreases |xs|
  {
    if xs == [] then [x]
    else if x == xs[0] then xs
    else if StrLt(x, xs[0]) then
      assert forall l :: 0 < l < |xs| ==> StrLt(x, xs[l]) by {
        forall l | 0 < l < |xs| { StrLtTrans(x, xs[0], xs[l]); }
      }
      [x] + xs
    else
      StrLtTotal(x, xs[0]);
      var rest := InsertId(x, xs[1..]);
      assert forall y :: y in xs[1..] ==> StrLt(xs[0], y);
      [xs[0]] + rest
  }

  /**
   * The group keys of `groupby('Sample_ID')`: the sheet's Sample_IDs, each
   * once, sorted (pandas sorts the keys by default).
   */
  function Ids(rows: seq<Row>): (ids: seq<string>)
    ensures StrictlySorted(ids)
    ensures forall k, l :: 0 <= k < l < |ids| ==> ids[k] != ids[l]
    ensures forall s :: s in ids <==> exists i :: 0 <= i < |rows| && rows[i].sampleId == s
    decreases |rows|
  {
    if |rows| == 0 then []
    else
      var init := Ids(rows[..|rows| - 1]);
      var last := rows[|rows| - 1].sampleId;
      assert forall i :: 0 <= i < |rows| - 1 ==> rows[..|rows| - 1][i] == rows[i];
      var ids := InsertId(last, init);
      assert forall k, l :: 0 <= k < l < |ids| ==> ids[k] != ids[l] by {
        forall k, l | 0 <= k < l < |ids| ensures ids[k] != ids[l] { StrLtAsym(ids[k], ids[l]); }
      }
      ids
  }

  /** The one row `groupby('Sample_ID').agg('first')` makes of a sample's rows. */
  function Combine(g: seq<Row>): Row
    requires |g| > 0
  {
    g[0].(
      index := FirstPresent(seq(|g|, k requires 0 <= k < |g| => g[k].index)),
      index2 := FirstPresent(seq(|g|, k requires 0 <= k < |g| => g[k].index2)),
      indexType := FirstPresent(seq(|g|, k requires 0 <= k < |g| => g[k].indexType)),
      description := FirstPresent(seq(|g|, k requires 0 <= k < |g| => g[k].description)))
  }

  /** The sheet collapsed to one row per Sample_ID. */
  function Collapse(rows: seq<Row>): (r: seq<Row>)
    ensures |r| == |Ids(rows)|
  {
    var ids := Ids(rows);
    seq(|ids|, k requires 0 <= k < |ids| =>
      var g := Group(rows, ids[k]);
      assert ids[k] in ids;
      var i :| 0 <= i < |rows| && rows[i].sampleId == ids[k];
      assert rows[i] in g;
      Combine(g))
  }

  /** The Sample_IDs a sheet lists. */
  function IdSet(rows: seq<Row>): set<string>
  {
    set i | 0 <= i < |rows| :: rows[i].sampleId
  }

  function WithLane(rows: seq<Row>, lane: Lane): (r: seq<Row>)
    ensures |r| == |rows| && forall i :: 0 <= i < |rows| ==> r[i] == rows[i].(lane := lane)
  {
    seq(|rows|, i requires 0 <= i < |rows| => rows[i].(lane := lane))
  }

  /** The single entry of a run that is not split; with LIMS data, one row per sample. */
  function MergedEntry(flowcell: string, sheet: Sheet, n: nat, lims: bool): OutLane
  {
    var rows := if lims then Collapse(sheet.rows) else sheet.rows;
    OutLane(AllLanesKey(flowcell, n), Sheet(sheet.cols, WithLane(rows, LaneText(AllLanesEntry(n)))), None, None)
  }

  /** Every Lane cell is a number, so `astype({'Lane': 'int32'})` succeeds. */
  predicate LaneNumbers(rows: seq<Row>)
  {
    forall i :: 0 <= i < |rows| ==> rows[i].lane.LaneNo?
  }

  /**
   * `parseSS` after the CSV is read: Lane cast to int (a ValueError for a
   * Lane that is not a number, a KeyError without the column), names
   * sanitised, the split decided, then the entries built.
   */
  function ParseSSOf(flowcell: string, sheet: Sheet, n: nat, lims: bool): Result<(bool, seq<OutLane>)>
  {
    if !sheet.cols.lane then Err("KeyError: Lane")
    else if !LaneNumbers(sheet.rows) then Err("ValueError: invalid literal for int()")
    else
      SettleOf(flowcell, Sheet(sheet.cols, Sanitised(sheet.rows)), n, lims)
  }

  /** The split decided on the cleaned sheet, then the entries built. */
  function SettleOf(flowcell: string, clean: Sheet, n: nat, lims: bool): Result<(bool, seq<OutLane>)>
  {
    match DecideSplitOf(clean, n)
    case Err(e) => Err(e)
    case Ok(split) =>
      if split then Ok((true, SplitEntries(flowcell, clean, n)))
      else Ok((false, [MergedEntry(flowcell, clean, n, lims)]))
  }

  lemma LaneKeyInjective(flowcell: string, a: nat, b: nat)
    requires LaneKey(flowcell, a) == LaneKey(flowcell, b)
    ensures a == b
  {
    var p := flowcell + "_lanes_";
    assert LaneKey(flowcell, a)[|p|..] == NatToString(a);
    assert LaneKey(flowcell, b)[|p|..] == NatToString(b);
    NatToStringInjective(a, b);
  }

  /**
   * A split run gets one output folder per lane 1..n, named after the
   * lane, all names different, each holding exactly the rows listed on
   * its lane.
   */
  lemma SplitEntriesByLane(flowcell: string, sheet: Sheet, n: nat)
    ensures var es := SplitEntries(flowcell, sheet, n);
      && (forall k :: 0 <= k < n ==> es[k].name == LaneKey(flowcell, k + 1))
      && (forall k, l :: 0 <= k < l < n ==> es[k].name != es[l].name)
      && (forall k, x :: 0 <= k < n ==> (x in es[k].sheet.rows <==> x in sheet.rows && x.lane == LaneNo(k + 1)))
  {
    var es := SplitEntries(flowcell, sheet, n);
    forall k, l | 0 <= k < l < n
      ensures es[k].name != es[l].name
    {
      if es[k].name == es[l].name {
        LaneKeyInjective(flowcell, k + 1, l + 1);
      }
    }
  }

  /** The collapsed sheet's k-th row is the k-th Sample_ID's, so its rows are sorted by Sample_ID. */
  lemma CollapseIds(rows: seq<Row>)
    ensures var c := Collapse(rows);
      && (forall k :: 0 <= k < |c| ==> c[k].sampleId == Ids(rows)[k])
      && (forall k, l :: 0 <= k < l < |c| ==> StrLt(c[k].sampleId, c[l].sampleId))
  {
    var ids := Ids(rows);
    var c := Collapse(rows);
    forall k | 0 <= k < |c|
      ensures c[k].sampleId == ids[k]
    {
      var g := Group(rows, ids[k]);
      assert ids[k] in ids;
      var i :| 0 <= i < |rows| && rows[i].sampleId == ids[k];
      assert rows[i] in g;
      assert g[0] in g;
    }
  }

  /**
   * A run that is not split gets one folder whose rows all carry the
   * lanes '1,2,…'; with LIMS data the rows are one per Sample_ID, every
   * sample of the sheet kept.
   */
  lemma MergedEntryRows(flowcell: string, sheet: Sheet, n: nat, lims: bool)
    ensures var e := MergedEntry(flowcell, sheet, n, lims);
      && e.name == AllLanesKey(flowcell, n)
      && (forall x :: x in e.sheet.rows ==> x.lane == LaneText(AllLanesEntry(n)))
      && (!lims ==>
            && |e.sheet.rows| == |sheet.rows|
            && forall i :: 0 <= i < |sheet.rows| ==> e.sheet.rows[i] == sheet.rows[i].(lane := LaneText(AllLanesEntry(n))))
      && (lims ==>
            && (forall k, l :: 0 <= k < l < |e.sheet.rows| ==> e.sheet.rows[k].sampleId != e.sheet.rows[l].sampleId)
            && (forall k, l :: 0 <= k < l < |e.sheet.rows| ==> StrLt(e.sheet.rows[k].sampleId, e.sheet.rows[l].sampleId))
            && IdSet(e.sheet.rows) == IdSet(sheet.rows))
  {
    if lims {
      CollapsedWithLane(sheet.rows, LaneText(AllLanesEntry(n)), MergedEntry(flowcell, sheet, n, lims).sheet.rows);
    }
  }

  /** The collapsed rows with one Lane cell: one row per Sample_ID, sorted, every sample kept. */
  lemma CollapsedWithLane(rows: seq<Row>, lane: Lane, r: seq<Row>)
    requires r == WithLane(Collapse(rows), lane)
    ensures forall k, l :: 0 <= k < l < |r| ==> r[k].sampleId != r[l].sampleId
    ensures forall k, l :: 0 <= k < l < |r| ==> StrLt(r[k].sampleId, r[l].sampleId)
    ensures IdSet(r) == IdSet(rows)
  {
    CollapseIds(rows);
    KeyedRows(rows, Ids(rows), r);
  }

  /** Rows keyed one by one by the group keys are distinct, sorted and cover the sheet's samples. */
  lemma KeyedRows(rows: seq<Row>, ids: seq<string>, r: seq<Row>)
    requires ids == Ids(rows)
    requires |r| == |ids| && forall k :: 0 <= k < |r| ==> r[k].sampleId == ids[k]
    ensures forall k, l :: 0 <= k < l < |r| ==> r[k].sampleId != r[l].sampleId
    ensures forall k, l :: 0 <= k < l < |r| ==> StrLt(r[k].sampleId, r[l].sampleId)
    ensures IdSet(r) == IdSet(rows)
  {
    forall s | s in IdSet(rows)
      ensures s in IdSet(r)
    {
      var i :| 0 <= i < |rows| && rows[i].sampleId == s;
      assert s in ids;
      var k :| 0 <= k < |ids| && ids[k] == s;
      assert r[k].sampleId == s;
    }
    forall s | s in IdSet(r)
      ensures s in IdSet(rows)
    {
      var k :| 0 <= k < |r| && r[k].sampleId == s;
      assert ids[k] in ids;
    }
  }

  /** The loop of `parseSS` over the lanes of a split run. */
  method LaneEntries(flowcell: string, clean: Sheet, n: nat) returns (dic: seq<OutLane>)
    ensures dic == SplitEntries(flowcell, clean, n)
  {
    dic := [];
    var lane := 1;
    while lane <= n
      invariant 1 <= lane <= n + 1
      invariant dic == SplitEntries(flowcell, clean, n)[..lane - 1]
    {
      dic := dic + [OutLane(LaneKey(flowcell, lane), Sheet(clean.cols, RowsOfLane(clean.rows, lane)), None, None)];
      lane := lane + 1;
    }
  }

  /** The sample sheet object: the full sheet until it is cut, the split status and the entries. */
  class SampleSheet {
    var flowcell: string
    var runInfoLanes: nat
    var fullSS: Option<Sheet>
    var laneSplitStatus: bool
    var ssDic: seq<OutLane>

    constructor(flowcell: string, runInfoLanes: nat)
      ensures this.flowcell == flowcell && this.runInfoLanes == runInfoLanes
      ensures fullSS.None? && !laneSplitStatus && ssDic == []
    {
      this.flowcell := flowcell;
      this.runInfoLanes := runInfoLanes;
      fullSS := None;
      laneSplitStatus := false;
      ssDic := [];
    }

    /** `decideSplit` on the full sheet. */
    method DecideSplit() returns (r: Result<bool>)
      requires fullSS.Some?
      ensures r == DecideSplitOf(fullSS.value, runInfoLanes)
    {
      var sheet := fullSS.value;
      if !sheet.cols.lane {
        return Err("KeyError: Lane");
      }
      var laneSplitStatus := true;
      var sampleClash := AnyPair(sheet.rows, SampleOnTwoLanes);
      if sampleClash {
        laneSplitStatus := false;
      }
      var projectClash := AnyPair(sheet.rows, ProjectOnTwoLanes);
      if projectClash {
        laneSplitStatus := false;
      }
      var lanes := CountLanes(sheet.rows);
      if lanes < runInfoLanes {
        laneSplitStatus := false;
      }
      if !laneSplitStatus {
        if !sheet.cols.index {
          return Err("UnboundLocalError: testSer");
        }
        var dual := sheet.cols.index2;
        laneSplitStatus := AnyPair(sheet.rows, (a, b) => Clashes(dual, a, b));
      }
      return Ok(laneSplitStatus);
    }

    /** The rest of `parseSS` once the full sheet is in place: decide the split, build the entries. */
    method Settle(lims: bool) returns (r: Result<()>)
      requires fullSS.Some?
      modifies this
      ensures flowcell == old(flowcell) && runInfoLanes == old(runInfoLanes)
      ensures var p := SettleOf(flowcell, old(fullSS.value), runInfoLanes, lims);
        && (p.Ok? <==> r.Ok?)
        && (p.Ok? ==> laneSplitStatus == p.value.0 && ssDic == p.value.1 && fullSS.None?)
        && (p.Err? ==> r == Err(p.reason))
    {
      var clean := fullSS.value;
      var d := DecideSplit();
      if d.Err? {
        return Err(d.reason);
      }
      laneSplitStatus := d.value;
      if laneSplitStatus {
        ssDic := LaneEntries(flowcell, clean, runInfoLanes);
      } else {
        ssDic := [MergedEntry(flowcell, clean, runInfoLanes, lims)];
      }
      fullSS := None;
      return Ok(());
    }

    /**
     * `parseSS`: keep the sanitised sheet as `fullSS`, decide the split,
     * build the entries lane by lane (or the single merged entry), then
     * drop `fullSS`.
     */
    method ParseSS(sheet: Sheet, lims: bool) returns (r: Result<()>)
      modifies this
      ensures flowcell == old(flowcell) && runInfoLanes == old(runInfoLanes)
      ensures var p := ParseSSOf(flowcell, sheet, runInfoLanes, lims);
        && (p.Ok? <==> r.Ok?)
        && (p.Ok? ==> laneSplitStatus == p.value.0 && ssDic == p.value.1 && fullSS.None?)
        && (p.Err? ==> r == Err(p.reason))
    {
      if !sheet.cols.lane {
        return Err("KeyError: Lane");
      }
      if !LaneNumbers(sheet.rows) {
        return Err("ValueError: invalid literal for int()");
      }
      var clean := Sheet(sheet.cols, Sanitised(sheet.rows));
      fullSS := Some(clean);
      r := Settle(lims);
    }
  }
}
