// dissectBCL/classes.py, the first version of the pipeline: `parseRunInfo`,
// which keys every read 'Read<Number>' and keeps its cycles as text, and a
// `decideSplit` that returns at the first reason not to split, with no
// clash override.
module LegacyClasses {
  import opened Wrappers
  import opened Records
  import FS = FlowcellSheet
  import CS = ClassesSheet

  // ------------------------------------------------------------ parseRunInfo

  /** An element of RunInfo.xml as this version reads it; a missing attribute is `None`. */
  datatype RunInfoElement =
    | Read(isIndexedRead: Option<string>, number: Option<string>, numCycles: Option<string>)
    | Layout(laneCount: Option<string>)
    | InstrumentName(text: string)
    | FlowcellName(text: string)
    | Other

  /** `[NumCycles, readType]`: the cycles stay text, the type is 'Index' or 'Read'. */
  type ReadEntry = (string, string)

  /** The loop's dictionary and variables; an unassigned variable is `None`. */
  datatype Scan = Scan(readDic: map<string, ReadEntry>, lanes: Option<int>,
                       instrument: Option<string>, flowcellID: Option<string>)

  /** `'Read' + Number` and `[NumCycles, 'Index' | 'Read']` of a read whose attributes are all there. */
  function KeyOf(x: RunInfoElement): string
    requires x.Read? && x.number.Some?
  {
    "Read" + x.number.value
  }

  function EntryOf(x: RunInfoElement): ReadEntry
    requires x.Read? && x.isIndexedRead.Some? && x.numCycles.Some?
  {
    (x.numCycles.value, if x.isIndexedRead.value == "Y" then "Index" else "Read")
  }

  /** A read element with the three attributes the loop reads. */
  predicate Complete(x: RunInfoElement)
  {
    x.Read? && x.isIndexedRead.Some? && x.number.Some? && x.numCycles.Some?
  }

  /** One turn of the loop: attributes are read IsIndexedRead, Number, NumCycles. */
  function Visit(s: Scan, x: RunInfoElement): Result<Scan>
  {
    match x
    case Read(ix, number, cycles) =>
      if ix.None? then Err("KeyError: 'IsIndexedRead'")
      else if number.None? then Err("KeyError: 'Number'")
      else if cycles.None? then Err("KeyError: 'NumCycles'")
      else Ok(s.(readDic := s.readDic[KeyOf(x) := EntryOf(x)]))
    case Layout(lc) =>
      if lc.None? then Err("KeyError: 'LaneCount'")
      else
        (match Text.ParseInt(lc.value)
         case None => Err("ValueError: invalid literal for int()")
         case Some(v) => Ok(s.(lanes := Some(v))))
    case InstrumentName(t) => Ok(s.(instrument := Some(t)))
    case FlowcellName(t) => Ok(s.(flowcellID := Some(t)))
    case Other => Ok(s)
  }

  function ScanOf(xs: seq<RunInfoElement>): Result<Scan>
    decreases |xs|
  {
    if |xs| == 0 then Ok(Scan(map[], None, None, None))
    else
      match ScanOf(xs[..|xs| - 1])
      case Err(m) => Err(m)
      case Ok(s) => Visit(s, xs[|xs| - 1])
  }

  /** `parseRunInfo`: the dictionary of reads, the lanes, the instrument and the flow cell. */
  function ParseRunInfoOf(xs: seq<RunInfoElement>): Result<(map<string, ReadEntry>, int, string, string)>
  {
    match ScanOf(xs)
    case Err(m) => Err(m)
    case Ok(s) =>
      if s.lanes.None? then Err("UnboundLocalError: lanes")
      else if s.instrument.None? then Err("UnboundLocalError: instrument")
      else if s.flowcellID.None? then Err("UnboundLocalError: flowcellID")
      else Ok((s.readDic, s.lanes.value, s.instrument.value, s.flowcellID.value))
  }

  /** An exception ends the loop: the scan of the whole document is that of the prefix that raised. */
  lemma {:induction false} ScanErrPersists(xs: seq<RunInfoElement>, i: nat)
    requires i <= |xs| && ScanOf(xs[..i]).Err?
    ensures ScanOf(xs) == ScanOf(xs[..i])
    decreases |xs|
  {
    if i < |xs| {
      var init := xs[..|xs| - 1];
      assert init[..i] == xs[..i];
      ScanErrPersists(init, i);
    } else {
      assert xs[..i] == xs;
    }
  }

  /** `parseRunInfo`, with its loop over the elements and its dictionary. */
  method ParseRunInfo(xs: seq<RunInfoElement>) returns (r: Result<(map<string, ReadEntry>, int, string, string)>)
    ensures r == ParseRunInfoOf(xs)
  {
    var readDic: map<string, ReadEntry> := map[];
    var lanes: Option<int> := None;
    var instrument: Option<string> := None;
    var flowcellID: Option<string> := None;
    var i := 0;
    while i < |xs|
      invariant 0 <= i <= |xs|
      invariant ScanOf(xs[..i]) == Ok(Scan(readDic, lanes, instrument, flowcellID))
    {
      assert xs[..i + 1][..i] == xs[..i];
      ghost var next := Visit(Scan(readDic, lanes, instrument, flowcellID), xs[i]);
      assert ScanOf(xs[..i + 1]) == next;
      if next.Err? {
        ScanErrPersists(xs, i + 1);
      }
      match xs[i] {
        case Read(ix, number, cycles) =>
          if ix.None? {
            return Err("KeyError: 'IsIndexedRead'");
          }
          var readType := if ix.value == "Y" then "Index" else "Read";
          if number.None? {
            return Err("KeyError: 'Number'");
          }
          var readKey := "Read" + number.value;
          if cycles.None? {
            return Err("KeyError: 'NumCycles'");
          }
          readDic := readDic[readKey := (cycles.value, readType)];
        case Layout(lc) =>
          if lc.None? {
            return Err("KeyError: 'LaneCount'");
          }
          var v := Text.ParseInt(lc.value);
          if v.None? {
            return Err("ValueError: invalid literal for int()");
          }
          lanes := v;
        case InstrumentName(t) =>
          instrument := Some(t);
        case FlowcellName(t) =>
          flowcellID := Some(t);
        case Other =>
      }
      i := i + 1;
    }
    assert xs[..i] == xs;
    if lanes.None? {
      return Err("UnboundLocalError: lanes");
    }
    if instrument.None? {
      return Err("UnboundLocalError: instrument");
    }
    if flowcellID.None? {
      return Err("UnboundLocalError: flowcellID");
    }
    r := Ok((readDic, lanes.value, instrument.value, flowcellID.value));
  }

  /** Element `j` is a complete read and no later complete read has its key. */
  predicate LastWithKey(xs: seq<RunInfoElement>, j: int)
  {
    && 0 <= j < |xs| && Complete(xs[j])
    && forall k :: j < k < |xs| && Complete(xs[k]) ==> KeyOf(xs[k]) != KeyOf(xs[j])
  }

  /** Some complete read is keyed `key`. */
  predicate HasReadKey(xs: seq<RunInfoElement>, key: string)
  {
    exists j :: 0 <= j < |xs| && Complete(xs[j]) && KeyOf(xs[j]) == key
  }

  /** A successful turn of the loop changes the dictionary only at a complete read's key. */
  lemma VisitDic(s: Scan, x: RunInfoElement)
    requires Visit(s, x).Ok?
    ensures Visit(s, x).value.readDic == if Complete(x) then s.readDic[KeyOf(x) := EntryOf(x)] else s.readDic
  {
  }

  /** The dictionary holds one key per read Number, 'Read<Number>', whatever the read's type. */
  lemma {:induction false} ReadDicKeys(xs: seq<RunInfoElement>)
    requires ScanOf(xs).Ok?
    ensures forall key :: key in ScanOf(xs).value.readDic <==> HasReadKey(xs, key)
    decreases |xs|
  {
    if |xs| > 0 {
      var n := |xs| - 1;
      var init := xs[..n];
      ReadDicKeys(init);
      assert ScanOf(xs) == Visit(ScanOf(init).value, xs[n]);
      VisitDic(ScanOf(init).value, xs[n]);
      forall key
        ensures HasReadKey(xs, key) <==> HasReadKey(init, key) || (Complete(xs[n]) && KeyOf(xs[n]) == key)
      {
        if HasReadKey(xs, key) {
          var j :| 0 <= j < |xs| && Complete(xs[j]) && KeyOf(xs[j]) == key;
          if j < n {
            assert init[j] == xs[j];
          }
        }
        if HasReadKey(init, key) {
          var j :| 0 <= j < n && Complete(init[j]) && KeyOf(init[j]) == key;
          assert init[j] == xs[j];
        }
      }
    }
  }

  /** A Number given twice keeps the later read's entry: the last read with a key decides its entry. */
  lemma {:induction false} ReadDicLast(xs: seq<RunInfoElement>, j: nat)
    requires ScanOf(xs).Ok? && LastWithKey(xs, j)
    ensures KeyOf(xs[j]) in ScanOf(xs).value.readDic
    ensures ScanOf(xs).value.readDic[KeyOf(xs[j])] == EntryOf(xs[j])
    decreases |xs|
  {
    var n := |xs| - 1;
    var init := xs[..n];
    assert ScanOf(xs) == Visit(ScanOf(init).value, xs[n]);
    VisitDic(ScanOf(init).value, xs[n]);
    if j < n {
      assert init[j] == xs[j];
      assert LastWithKey(init, j) by {
        forall k | j < k < n && Complete(init[k])
          ensures KeyOf(init[k]) != KeyOf(init[j])
        {
          assert init[k] == xs[k];
        }
      }
      ReadDicLast(init, j);
    }
  }

  /** A read's type is 'Index' exactly when IsIndexedRead is 'Y', 'Read' otherwise. */
  lemma EntryTypes(xs: seq<RunInfoElement>, j: nat)
    requires j < |xs| && Complete(xs[j])
    ensures EntryOf(xs[j]).1 in {"Index", "Read"}
    ensures EntryOf(xs[j]).1 == "Index" <==> xs[j].isIndexedRead == Some("Y")
  {
  }

  // ------------------------------------------------------------- decideSplit

  /**
   * `decideSplit`: False at the first reason not to split (a repeated
   * sample name, a project on two lanes, fewer lanes listed than the run
   * has), True otherwise. The Lane column is read only after the name test,
   * so without it a repeated name still answers False.
   */
  function DecideSplitOf(sheet: Sheet, runInfoLanes: nat): Result<bool>
  {
    var rows := sheet.rows;
    if CS.NameRepeats(rows) then Ok(false)
    else if !sheet.cols.lane then Err("KeyError: Lane")
    else if FS.SomePair(rows, CS.ProjectOnTwoLanes) then Ok(false)
    else Ok(|FS.LaneSet(rows)| >= runInfoLanes)
  }

  /**
   * The early-return version agrees with the later `classes.py` whenever
   * the later one finds no reason against the split, and answers False
   * whenever the later one reached its clash override: the later version
   * only ever adds the override.
   */
  lemma LegacyAgreesUntilOverride(sheet: Sheet, runInfoLanes: nat)
    requires sheet.cols.lane && sheet.cols.index
    ensures CS.DecideSplitOf(sheet, runInfoLanes).Ok? && DecideSplitOf(sheet, runInfoLanes).Ok?
    ensures var later := CS.DecideSplitOf(sheet, runInfoLanes).value;
      var early := DecideSplitOf(sheet, runInfoLanes).value;
      && (early ==> later)
      && (early <==> !CS.NameRepeats(sheet.rows) && !FS.SomePair(sheet.rows, CS.ProjectOnTwoLanes)
                     && |FS.LaneSet(sheet.rows)| >= runInfoLanes)
  {
  }
}
