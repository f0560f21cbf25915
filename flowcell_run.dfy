// src/dissectBCL/flowcell.py, the flow cell object: reading the run's layout
// (RunInfo.xml for Illumina, RunParameters.json for Aviti), the sequencer
// letter and the completion status, and the stages it drives on its output
// folders (`prepConvert`, `demux`, `demux_aviti`, `postmux`), each recording
// its exit status in `exitStats`.
module FlowcellRun {
  import opened Wrappers
  import opened Text
  import opened Records
  import opened Demux
  import opened RunDir
  import opened FlowcellSheet
  import opened DemuxRun
  import PM = Postmux

  // ------------------------------------------------------------ parseRunInfo

  /**
   * An element of RunInfo.xml, in the order `root.iter()` visits them. An
   * attribute the element does not carry is `None`.
   */
  datatype XmlElement =
    | ReadElement(isIndexedRead: Option<string>, numCycles: Option<string>)
    | FlowcellLayout(laneCount: Option<string>)
    | Instrument(text: string)
    | FlowcellTag(text: string)
    | OtherElement

  /** What `parseRunInfo` returns: (seqRecipe, lanes, instrument, flowcellID). */
  datatype RunInfo = RunInfo(recipe: SeqRecipe, lanes: int, instrument: string, flowcellID: string)

  /** The local variables of `parseRunInfo`'s loop; an unassigned one is `None`. */
  datatype Scan = Scan(recipe: SeqRecipe, readCount: nat, indexCount: nat,
                       lanes: Option<int>, instrument: Option<string>, flowcellID: Option<string>)

  const StartScan := Scan([], 1, 1, None, None, None)

  /** `int(NumCycles)`; a negative count has no `ReadSpec`. */
  function CycleCount(text: string): (r: Result<nat>)
    ensures r.Ok? ==> ParseInt(text) == Some(r.value as int)
  {
    match ParseInt(text)
    case None => Err("ValueError: invalid literal for int()")
    case Some(v) => if v < 0 then Err("ValueError: negative cycle count") else Ok(v as nat)
  }

  /** One turn of the loop over the elements. */
  function Visit(s: Scan, x: XmlElement): Result<Scan>
  {
    match x
    case ReadElement(ix, cycles) =>
      if ix.None? then Err("KeyError: 'IsIndexedRead'")
      else if cycles.None? then Err("KeyError: 'NumCycles'")
      else
        (match CycleCount(cycles.value)
         case Err(m) => Err(m)
         case Ok(n) =>
           if ix.value == "Y" then
             Ok(s.(recipe := s.recipe + [("Index" + NatToString(s.indexCount), ReadSpec(I, n))], indexCount := s.indexCount + 1))
           else
             Ok(s.(recipe := s.recipe + [("Read" + NatToString(s.readCount), ReadSpec(Y, n))], readCount := s.readCount + 1)))
    case FlowcellLayout(lc) =>
      if lc.None? then Err("KeyError: 'LaneCount'")
      else
        (match ParseInt(lc.value)
         case None => Err("ValueError: invalid literal for int()")
         case Some(v) => Ok(s.(lanes := Some(v))))
    case Instrument(t) => Ok(s.(instrument := Some(t)))
    case FlowcellTag(t) => Ok(s.(flowcellID := Some(t)))
    case OtherElement => Ok(s)
  }

  /** The loop over the elements, in document order. */
  function ScanOf(xs: seq<XmlElement>): Result<Scan>
    decreases |xs|
  {
    if |xs| == 0 then Ok(StartScan)
    else
      match ScanOf(xs[..|xs| - 1])
      case Err(m) => Err(m)
      case Ok(s) => Visit(s, xs[|xs| - 1])
  }

  /** `parseRunInfo`: the scan, then the return tuple, which raises on a variable never assigned. */
  function ParseRunInfoOf(xs: seq<XmlElement>): Result<RunInfo>
  {
    match ScanOf(xs)
    case Err(m) => Err(m)
    case Ok(s) =>
      if s.lanes.None? then Err("UnboundLocalError: lanes")
      else if s.instrument.None? then Err("UnboundLocalError: instrument")
      else if s.flowcellID.None? then Err("UnboundLocalError: flowcellID")
      else Ok(RunInfo(s.recipe, s.lanes.value, s.instrument.value, s.flowcellID.value))
  }

  /** An exception ends the loop: the scan of the whole document is that of the prefix that raised. */
  lemma {:induction false} ScanErrPersists(xs: seq<XmlElement>, i: nat)
    requires i <= |xs| && ScanOf(xs[..i]).Err?
    ensures ScanOf(xs) == ScanOf(xs[..i])
    decreases |xs|
  {
    if i < |xs| {
      var init := xs[..|xs| - 1];
      assert init[..i] == xs[..i];
      ScanErrPersists(init, i);
    } else {
      assert xs[..i] == xs;
    }
  }

  /** `parseRunInfo`, with its loop. */
  method ParseRunInfo(xs: seq<XmlElement>) returns (r: Result<RunInfo>)
    ensures r == ParseRunInfoOf(xs)
  {
    var seqRecipe: SeqRecipe := [];
    var readCount: nat := 1;
    var indexCount: nat := 1;
    var lanes: Option<int> := None;
    var instrument: Option<string> := None;
    var flowcellID: Option<string> := None;
    var i := 0;
    while i < |xs|
      invariant 0 <= i <= |xs|
      invariant ScanOf(xs[..i]) == Ok(Scan(seqRecipe, readCount, indexCount, lanes, instrument, flowcellID))
    {
      assert xs[..i + 1][..i] == xs[..i];
      ghost var next := Visit(Scan(seqRecipe, readCount, indexCount, lanes, instrument, flowcellID), xs[i]);
      assert ScanOf(xs[..i + 1]) == next;
      if next.Err? {
        ScanErrPersists(xs, i + 1);
      }
      match xs[i] {
      case ReadElement(ix, cycles) =>
        if ix.None? {
          return Err("KeyError: 'IsIndexedRead'");
        }
        if cycles.None? {
          return Err("KeyError: 'NumCycles'");
        }
        var n := CycleCount(cycles.value);
        if n.Err? {
          return Err(n.reason);
        }
        if ix.value == "Y" {
          seqRecipe := seqRecipe + [("Index" + NatToString(indexCount), ReadSpec(I, n.value))];
          indexCount := indexCount + 1;
        } else {
          seqRecipe := seqRecipe + [("Read" + NatToString(readCount), ReadSpec(Y, n.value))];
          readCount := readCount + 1;
        }
      case FlowcellLayout(lc) =>
        if lc.None? {
          return Err("KeyError: 'LaneCount'");
        }
        var v := ParseInt(lc.value);
        if v.None? {
          return Err("ValueError: invalid literal for int()");
        }
        lanes := v;
      case Instrument(t) =>
        instrument := Some(t);
      case FlowcellTag(t) =>
        flowcellID := Some(t);
      case OtherElement =>
      }
      i := i + 1;
    }
    assert xs[..i] == xs;
    if lanes.None? {
      return Err("UnboundLocalError: lanes");
    }
    if instrument.None? {
      return Err("UnboundLocalError: instrument");
    }
    if flowcellID.None? {
      return Err("UnboundLocalError: flowcellID");
    }
    r := Ok(RunInfo(seqRecipe, lanes.value, instrument.value, flowcellID.value));
  }

  /** For each Read element, in order, whether it is an index read (`IsIndexedRead == 'Y'`). */
  function ReadFlags(xs: seq<XmlElement>): (f: seq<bool>)
    decreases |xs|
  {
    if |xs| == 0 then []
    else
      var x := xs[|xs| - 1];
      ReadFlags(xs[..|xs| - 1]) + (if x.ReadElement? then [x.isIndexedRead == Some("Y")] else [])
  }

  /** How many of `f` equal `b`. */
  function CountOf(f: seq<bool>, b: bool): nat
    decreases |f|
  {
    if |f| == 0 then 0 else CountOf(f[..|f| - 1], b) + (if f[|f| - 1] == b then 1 else 0)
  }

  /**
   * The key of the `j`-th Read element: 'Index<n>' when it is the `n`-th
   * index read, 'Read<n>' when it is the `n`-th other read.
   */
  function ReadKey(f: seq<bool>, j: nat): string
    requires j < |f|
  {
    if f[j] then "Index" + NatToString(CountOf(f[..j], true) + 1)
    else "Read" + NatToString(CountOf(f[..j], false) + 1)
  }

  /** The read kind of an index read ('I') or another read ('Y'). */
  function KindOf(index: bool): ReadKind
  {
    if index then I else Y
  }

  /** `recipe` has one entry per read flag, keyed by `ReadKey` and of the flag's kind. */
  predicate RecipeFollows(recipe: SeqRecipe, f: seq<bool>)
  {
    && |recipe| == |f|
    && forall j :: 0 <= j < |f| ==> recipe[j].0 == ReadKey(f, j) && recipe[j].1.kind == KindOf(f[j])
  }

  lemma CountSnoc(f: seq<bool>, b: bool, c: bool)
    ensures CountOf(f + [b], c) == CountOf(f, c) + (if b == c then 1 else 0)
  {
    assert (f + [b])[..|f|] == f;
  }

  /** Appending a read leaves the key of an earlier one as it was. */
  lemma ReadKeyPrefix(f: seq<bool>, b: bool, j: nat)
    requires j < |f|
    ensures ReadKey(f + [b], j) == ReadKey(f, j)
  {
    assert (f + [b])[..j] == f[..j];
    assert (f + [b])[j] == f[j];
  }

  /** The appended read is keyed by the count of its kind before it. */
  lemma ReadKeyLast(f: seq<bool>, b: bool)
    ensures ReadKey(f + [b], |f|) == if b then "Index" + NatToString(CountOf(f, true) + 1) else "Read" + NatToString(CountOf(f, false) + 1)
  {
    var g := f + [b];
    assert g[..|f|] == f;
    var k := CountOf(g[..|f|], b);
    assert k == CountOf(f, b);
    if b {
      assert ReadKey(g, |f|) == "Index" + NatToString(k + 1);
    } else {
      assert ReadKey(g, |f|) == "Read" + NatToString(k + 1);
    }
  }

  /** Appending a read leaves the earlier keys as they were and keys the new one by its own count. */
  lemma RecipeFollowsSnoc(recipe: SeqRecipe, f: seq<bool>, b: bool, n: nat)
    requires RecipeFollows(recipe, f)
    ensures RecipeFollows(recipe + [(ReadKey(f + [b], |f|), ReadSpec(KindOf(b), n))], f + [b])
    ensures ReadKey(f + [b], |f|) == if b then "Index" + NatToString(CountOf(f, true) + 1) else "Read" + NatToString(CountOf(f, false) + 1)
  {
    var g := f + [b];
    var r := recipe + [(ReadKey(g, |f|), ReadSpec(KindOf(b), n))];
    ReadKeyLast(f, b);
    forall j | 0 <= j < |g|
      ensures r[j].0 == ReadKey(g, j) && r[j].1.kind == KindOf(g[j])
    {
      if j < |f| {
        ReadKeyPrefix(f, b, j);
        assert r[j] == recipe[j];
      }
    }
  }

  /** A Read element appends one read and counts it; any other element leaves the recipe and the counters alone. */
  lemma VisitShape(s: Scan, x: XmlElement)
    requires Visit(s, x).Ok?
    ensures var t := Visit(s, x).value;
      if x.ReadElement? then
        var b := x.isIndexedRead == Some("Y");
        var n := CycleCount(x.numCycles.value).value;
        && x.isIndexedRead.Some? && x.numCycles.Some? && CycleCount(x.numCycles.value).Ok?
        && t.recipe == s.recipe + [(if b then "Index" + NatToString(s.indexCount) else "Read" + NatToString(s.readCount), ReadSpec(KindOf(b), n))]
        && t.indexCount == s.indexCount + (if b then 1 else 0) && t.readCount == s.readCount + (if b then 0 else 1)
      else t.recipe == s.recipe && t.indexCount == s.indexCount && t.readCount == s.readCount
  {
  }

  /**
   * The recipe `parseRunInfo` builds has one entry per Read element, in
   * document order, keyed by `ReadKey` and of kind 'I' exactly for the
   * index reads; the counters stand one above the reads of each kind.
   */
  lemma {:induction false} ScanRecipe(xs: seq<XmlElement>)
    requires ScanOf(xs).Ok?
    ensures var s := ScanOf(xs).value;
      var f := ReadFlags(xs);
      && RecipeFollows(s.recipe, f)
      && s.indexCount == CountOf(f, true) + 1 && s.readCount == CountOf(f, false) + 1
    decreases |xs|
  {
    if |xs| > 0 {
      var init := xs[..|xs| - 1];
      var x := xs[|xs| - 1];
      ScanRecipe(init);
      var s0 := ScanOf(init).value;
      var f0 := ReadFlags(init);
      assert ScanOf(xs) == Visit(s0, x);
      VisitShape(s0, x);
      if x.ReadElement? {
        var b := x.isIndexedRead == Some("Y");
        var n := CycleCount(x.numCycles.value).value;
        assert ReadFlags(xs) == f0 + [b];
        RecipeFollowsSnoc(s0.recipe, f0, b, n);
        CountSnoc(f0, b, true);
        CountSnoc(f0, b, false);
      } else {
        assert ReadFlags(xs) == f0;
      }
    }
  }

  /** The count of `b` grows by one at every `b`. */
  lemma {:induction false} CountGrows(f: seq<bool>, j: nat, k: nat, b: bool)
    requires j < k <= |f| && f[j] == b
    ensures CountOf(f[..k], b) >= CountOf(f[..j], b) + 1
    decreases k
  {
    if k == j + 1 {
      assert f[..k][..j] == f[..j];
    } else {
      CountGrows(f, j, k - 1, b);
      assert f[..k][..k - 1] == f[..k - 1];
    }
  }

  /** Different reads get different keys, so the dict assignments of `parseRunInfo` never overwrite. */
  lemma ReadKeysDistinct(f: seq<bool>, j: nat, k: nat)
    requires j < k < |f|
    ensures ReadKey(f, j) != ReadKey(f, k)
  {
    if f[j] == f[k] {
      CountGrows(f, j, k, f[j]);
      var p := if f[j] then "Index" else "Read";
      if ReadKey(f, j) == ReadKey(f, k) {
        assert ReadKey(f, j)[|p|..] == ReadKey(f, k)[|p|..];
        NatToStringInjective(CountOf(f[..j], f[j]) + 1, CountOf(f[..k], f[j]) + 1);
      }
    } else {
      assert ReadKey(f, j)[0] != ReadKey(f, k)[0];
    }
  }

  /**
   * `parseRunInfo` succeeds only when the document has a FlowcellLayout, an
   * Instrument and a Flowcell element; its recipe then has one distinct key
   * per Read element, 'Index<n>' / 'I' for index reads and 'Read<n>' / 'Y'
   * for the others.
   */
  lemma ParseRunInfoShape(xs: seq<XmlElement>)
    requires ParseRunInfoOf(xs).Ok?
    ensures var info := ParseRunInfoOf(xs).value;
      var f := ReadFlags(xs);
      && RecipeFollows(info.recipe, f)
      && (forall j, k :: 0 <= j < k < |info.recipe| ==> info.recipe[j].0 != info.recipe[k].0)
      && (exists i :: 0 <= i < |xs| && xs[i].FlowcellLayout?)
      && (exists i :: 0 <= i < |xs| && xs[i].Instrument?)
      && (exists i :: 0 <= i < |xs| && xs[i].FlowcellTag?)
  {
    ScanRecipe(xs);
    ScanAssigned(xs);
    forall j, k | 0 <= j < k < |ReadFlags(xs)|
      ensures ReadKey(ReadFlags(xs), j) != ReadKey(ReadFlags(xs), k)
    {
      ReadKeysDistinct(ReadFlags(xs), j, k);
    }
  }

  /** A variable of the scan is assigned only by an element of its tag. */
  lemma {:induction false} ScanAssigned(xs: seq<XmlElement>)
    requires ScanOf(xs).Ok?
    ensures var s := ScanOf(xs).value;
      && (s.lanes.Some? ==> exists i :: 0 <= i < |xs| && xs[i].FlowcellLayout?)
      && (s.instrument.Some? ==> exists i :: 0 <= i < |xs| && xs[i].Instrument?)
      && (s.flowcellID.Some? ==> exists i :: 0 <= i < |xs| && xs[i].FlowcellTag?)
    decreases |xs|
  {
    if |xs| > 0 {
      var init := xs[..|xs| - 1];
      ScanAssigned(init);
      forall i | 0 <= i < |init|
        ensures xs[i] == init[i]
      {
      }
    }
  }

  // ------------------------------------------------------- parseRunInfoAviti

  /** The parts of RunParameters.json `parseRunInfoAviti` reads; a missing key is `None`. */
  datatype RunParams = RunParams(
    cycles: Option<map<string, nat>>,
    analysisLanes: Option<string>,
    instrumentName: Option<string>,
    flowcellID: Option<string>)

  /** `['kind', cycles[key]]` under `name` if `key` is among the cycles. */
  function OptionalRead(cycles: map<string, nat>, key: string, name: string, kind: ReadKind): SeqRecipe
  {
    if key in cycles then [(name, ReadSpec(kind, cycles[key]))] else []
  }

  /** The recipe of an Aviti run: Read1, then Read2, Index1 and Index2 for the cycle keys present. */
  function AvitiRecipe(c: map<string, nat>): (recipe: SeqRecipe)
    requires "R1" in c
    ensures |recipe| > 0 && recipe[0] == ("Read1", ReadSpec(Y, c["R1"]))
  {
    [("Read1", ReadSpec(Y, c["R1"]))]
      + OptionalRead(c, "R2", "Read2", Y) + OptionalRead(c, "I1", "Index1", I) + OptionalRead(c, "I2", "Index2", I)
  }

  /**
   * `parseRunInfoAviti`: Read1 from R1 (a KeyError without it), then
   * Read2, Index1 and Index2 from R2, I1 and I2 when present; two lanes
   * exactly when AnalysisLanes is "1+2".
   */
  function ParseRunInfoAviti(p: RunParams): (r: Result<RunInfo>)
    ensures r.Ok? <==> && p.cycles.Some? && "R1" in p.cycles.value && p.analysisLanes.Some?
                       && p.instrumentName.Some? && p.flowcellID.Some?
    ensures r.Ok? ==>
      && r.value.recipe == AvitiRecipe(p.cycles.value)
      && (r.value.lanes == 2 <==> p.analysisLanes.value == "1+2")
      && (r.value.lanes == 1 <==> p.analysisLanes.value != "1+2")
      && r.value.instrument == p.instrumentName.value && r.value.flowcellID == p.flowcellID.value
  {
    if p.cycles.None? then Err("KeyError: 'Cycles'")
    else
      var c := p.cycles.value;
      if "R1" !in c then Err("KeyError: 'R1'")
      else if p.analysisLanes.None? then Err("KeyError: 'AnalysisLanes'")
      else if p.instrumentName.None? then Err("KeyError: 'InstrumentName'")
      else if p.flowcellID.None? then Err("KeyError: 'FlowcellID'")
      else
        var lanes := if p.analysisLanes.value == "1+2" then 2 else 1;
        Ok(RunInfo(AvitiRecipe(c), lanes, p.instrumentName.value, p.flowcellID.value))
  }

  /** Looking a key up in a concatenation: the first part first. */
  lemma {:induction false} LookupAppend(a: SeqRecipe, b: SeqRecipe, key: string)
    ensures Lookup(a + b, key) == if Lookup(a, key).Some? then Lookup(a, key) else Lookup(b, key)
    decreases |a|
  {
    if |a| == 0 {
      assert a + b == b;
    } else {
      assert (a + b)[1..] == a[1..] + b;
      LookupAppend(a[1..], b, key);
    }
  }

  /** The one read of an Aviti recipe stored under `key`, if any. */
  function AvitiRead(c: map<string, nat>, key: string): Option<ReadSpec>
    requires "R1" in c
  {
    if key == "Read1" then Some(ReadSpec(Y, c["R1"]))
    else if key == "Read2" && "R2" in c then Some(ReadSpec(Y, c["R2"]))
    else if key == "Index1" && "I1" in c then Some(ReadSpec(I, c["I1"]))
    else if key == "Index2" && "I2" in c then Some(ReadSpec(I, c["I2"]))
    else None
  }

  /**
   * The recipe `parseRunInfoAviti` builds holds Read1 with the R1 cycles,
   * and Read2, Index1 and Index2 exactly when R2, I1 and I2 are among the
   * cycles, with those counts; no other key.
   */
  lemma AvitiRecipeReads(c: map<string, nat>, key: string)
    requires "R1" in c
    ensures Lookup(AvitiRecipe(c), key) == AvitiRead(c, key)
  {
    var r1 := [("Read1", ReadSpec(Y, c["R1"]))];
    var o2 := OptionalRead(c, "R2", "Read2", Y);
    var o3 := OptionalRead(c, "I1", "Index1", I);
    var o4 := OptionalRead(c, "I2", "Index2", I);
    LookupAppend(r1 + o2 + o3, o4, key);
    LookupAppend(r1 + o2, o3, key);
    LookupAppend(r1, o2, key);
  }

  // ------------------------------------------------- sequencer and completion

  /** `sequencers[name.split('_')[1][0]]`: the instrument letter of the run folder name. */
  function SequencerOf(name: string): (r: Result<string>)
    ensures r.Ok? <==> var f := Field(name, '_', 1);
      f.Some? && |f.value| > 0 && f.value[0] in "ANM"
    ensures r.Ok? ==> var letter := Field(name, '_', 1).value[0];
      && (r.value == "NovaSeq" <==> letter == 'A')
      && (r.value == "NextSeq" <==> letter == 'N')
      && (r.value == "MiSeq" <==> letter == 'M')
  {
    match Field(name, '_', 1)
    case None => Err("IndexError: list index out of range")
    case Some(f) =>
      if |f| == 0 then Err("IndexError: string index out of range")
      else if f[0] == 'A' then Ok("NovaSeq")
      else if f[0] == 'N' then Ok("NextSeq")
      else if f[0] == 'M' then Ok("MiSeq")
      else Err("KeyError: sequencer letter")
  }

  const Completed := "SuccessfullyCompleted"

  /** An element of RunCompletionStatus.xml, as (tag, text), is a CompletionStatus. */
  predicate IsStatus(x: (string, string))
  {
    x.0 == "CompletionStatus"
  }

  /** The text of the last CompletionStatus element of RunCompletionStatus.xml. */
  function LastStatus(xs: seq<(string, string)>): (r: Option<string>)
    decreases |xs|
  {
    if |xs| == 0 then None
    else if IsStatus(xs[|xs| - 1]) then Some(xs[|xs| - 1].1)
    else LastStatus(xs[..|xs| - 1])
  }

  /** `i` is the last CompletionStatus element. */
  predicate LastStatusAt(xs: seq<(string, string)>, i: int)
  {
    0 <= i < |xs| && IsStatus(xs[i]) && forall j :: i < j < |xs| ==> !IsStatus(xs[j])
  }

  /** The loop's `_status` ends up as the text of the last CompletionStatus element, and is unset without one. */
  lemma {:induction false} LastStatusIsLast(xs: seq<(string, string)>)
    ensures LastStatus(xs).Some? <==> exists i :: 0 <= i < |xs| && IsStatus(xs[i])
    ensures LastStatus(xs).Some? ==> exists i :: LastStatusAt(xs, i) && xs[i].1 == LastStatus(xs).value
    decreases |xs|
  {
    if |xs| > 0 {
      var n := |xs| - 1;
      if !IsStatus(xs[n]) {
        var init := xs[..n];
        LastStatusIsLast(init);
        assert forall i :: 0 <= i < n ==> init[i] == xs[i];
        if LastStatus(xs).Some? {
          var i :| LastStatusAt(init, i) && init[i].1 == LastStatus(xs).value;
          assert LastStatusAt(xs, i);
        }
      } else {
        assert LastStatusAt(xs, n);
      }
    }
  }

  /**
   * `validateRunCompletion` as written: the status file is read only for a
   * sequencer called 'Miseq' (an UnboundLocalError if it has no
   * CompletionStatus); every other sequencer counts as completed.
   */
  function ValidateRunCompletionAsWritten(sequencer: string, status: seq<(string, string)>): Result<string>
  {
    if sequencer == "Miseq" then
      match LastStatus(status)
      case None => Err("UnboundLocalError: _status")
      case Some(t) => Ok(t)
    else Ok(Completed)
  }

  /** The same check against the name the sequencer map actually produces, 'MiSeq'. */
  function ValidateRunCompletion(sequencer: string, status: seq<(string, string)>): (r: Result<string>)
    ensures sequencer != "MiSeq" ==> r == Ok(Completed)
    ensures sequencer == "MiSeq" ==> (r.Ok? <==> LastStatus(status).Some?)
    ensures sequencer == "MiSeq" && r.Ok? ==> r.value == LastStatus(status).value
  {
    if sequencer == "MiSeq" then
      match LastStatus(status)
      case None => Err("UnboundLocalError: _status")
      case Some(t) => Ok(t)
    else Ok(Completed)
  }

  /**
   * No sequencer name the letter map yields is 'Miseq', so as written every
   * Illumina run counts as completed whatever its status file says; the
   * corrected check reports a MiSeq run's own status.
   */
  lemma CompletionNeverRead(name: string, status: seq<(string, string)>)
    requires SequencerOf(name).Ok?
    ensures ValidateRunCompletionAsWritten(SequencerOf(name).value, status) == Ok(Completed)
    ensures SequencerOf(name).value == "MiSeq" && LastStatus(status).Some? ==>
      ValidateRunCompletion(SequencerOf(name).value, status) == Ok(LastStatus(status).value)
  {
  }

  /**
   * A MiSeq run folder (date, then an instrument ID starting with 'M') whose
   * status file says Failed: as written it is taken for completed, the
   * corrected check reports Failed.
   */
  lemma FailedMiSeqRun(date: string, instrument: string, rest: string)
    requires '_' !in date && '_' !in instrument
    ensures var name := date + "_M" + instrument + "_" + rest;
      && SequencerOf(name) == Ok("MiSeq")
      && ValidateRunCompletionAsWritten("MiSeq", [("CompletionStatus", "Failed")]) == Ok(Completed)
      && ValidateRunCompletion("MiSeq", [("CompletionStatus", "Failed")]) == Ok("Failed")
  {
    var id := ['M'] + instrument;
    assert '_' !in id;
    var name := date + "_M" + instrument + "_" + rest;
    assert name == date + ['_'] + (id + ['_'] + rest);
    SplitAtFirstSeparator(date, id + ['_'] + rest, '_');
    SplitAtFirstSeparator(id, rest, '_');
    assert Field(name, '_', 1) == Some(id);
  }

  // ------------------------------------------------------------ prepConvert

  /**
   * One folder of this file's `prepConvert` as written: the pairs it loops
   * over cut the index column to minP5 and the index2 column to minP7.
   * A truthy minP7 makes it read the index2 column, a KeyError on a sheet
   * without one; a truthy minP5 implies the index2 column, and `detMask`
   * already read the index column.
   */
  function PrepEntrySwapped(e: OutLane, recipe: SeqRecipe): Result<OutLane>
  {
    match DetMask(recipe, e.sheet)
    case Err(m) => Err(m)
    case Ok(info) =>
      if Truthy(info.minP7) && !e.sheet.cols.index2 then Err("KeyError: 'index2'")
      else
        var sheet := TruncateSheet(e.sheet, info.minP5, info.minP7);
        match MisMatch(IndexCells(sheet.rows), P5Cells(sheet))
        case Err(m) => Err(m)
        case Ok(mm) =>
          Ok(e.(sheet := sheet, prep := Some(Prep(Some(info.mask), info.dualIx, info.pe, info.convertOpts, mm))))
  }

  /** Cutting index2 to `n`, no longer than any index2, leaves every index2 of length exactly `n`. */
  lemma TruncateIndex2(sheet: Sheet, minP7: Option<nat>, n: nat)
    requires n > 0
    requires forall i :: 0 <= i < |sheet.rows| && sheet.rows[i].index2.Some? ==> n <= |sheet.rows[i].index2.value|
    ensures Index2CutTo(sheet.rows, TruncateSheet(sheet, minP7, Some(n)).rows, n)
  {
  }

  /** Row by row, every index2 of `rows` is present in `cut` and exactly `n` long. */
  predicate Index2CutTo(rows: seq<Row>, cut: seq<Row>, n: nat)
  {
    && |cut| == |rows|
    && forall i :: 0 <= i < |rows| && rows[i].index2.Some? ==>
         cut[i].index2.Some? && |cut[i].index2.value| == n
  }

  /** What a successful `PrepEntrySwapped` is made of: the sheet cut with the two minimum lengths exchanged. */
  lemma SwappedParts(e: OutLane, recipe: SeqRecipe)
    requires PrepEntrySwapped(e, recipe).Ok?
    ensures DetMask(recipe, e.sheet).Ok?
    ensures var info := DetMask(recipe, e.sheet).value;
      && (Truthy(info.minP7) ==> e.sheet.cols.index2)
      && PrepEntrySwapped(e, recipe).value.sheet == TruncateSheet(e.sheet, info.minP5, info.minP7)
  {
  }

  /**
   * As written, a single-index sheet outside the two special kits stops
   * at the index2 cut, where the corrected preparation goes on.
   */
  lemma SwappedSingleIndexRaises(e: OutLane, recipe: SeqRecipe)
    requires DetMask(recipe, e.sheet).Ok?
    requires !IsNugen(e.sheet.rows) && !IsScAtac(e.sheet.rows) && !e.sheet.cols.index2
    requires MinLength(IndexCells(e.sheet.rows)).Some? && MinLength(IndexCells(e.sheet.rows)).value > 0
    ensures PrepEntrySwapped(e, recipe) == Err("KeyError: 'index2'")
  {
    DetMaskFlags(recipe, e.sheet);
  }

  /**
   * As written, when the shortest index is shorter than the shortest
   * index2, every index2 comes out cut to the index length: shorter than
   * the index2 length the mask announces.
   */
  lemma SwappedCutShortensIndex2(e: OutLane, recipe: SeqRecipe)
    requires PrepEntrySwapped(e, recipe).Ok?
    requires !IsNugen(e.sheet.rows) && !IsScAtac(e.sheet.rows) && e.sheet.cols.index2
    requires var a := MinLength(IndexCells(e.sheet.rows));
      var b := MinLength(Index2Cells(e.sheet.rows));
      a.Some? && b.Some? && 0 < a.value < b.value
    ensures var a := MinLength(IndexCells(e.sheet.rows)).value;
      var b := MinLength(Index2Cells(e.sheet.rows)).value;
      && DetMask(recipe, e.sheet).value.minP5 == Some(b)
      && a < b && Index2CutTo(e.sheet.rows, PrepEntrySwapped(e, recipe).value.sheet.rows, a)
  {
    SwappedParts(e, recipe);
    DetMaskFlags(recipe, e.sheet);
    CutIndex2To(e.sheet, DetMask(recipe, e.sheet).value.minP5, MinLength(IndexCells(e.sheet.rows)).value,
      PrepEntrySwapped(e, recipe).value.sheet);
  }

  /** The corrected cut leaves every index2 at exactly the shortest index2 length. */
  lemma PrepEntryCutsIndex2(e: OutLane, recipe: SeqRecipe)
    requires PrepEntry(e, recipe).Ok?
    requires !IsNugen(e.sheet.rows) && !IsScAtac(e.sheet.rows) && e.sheet.cols.index2
    requires var b := MinLength(Index2Cells(e.sheet.rows)); b.Some? && b.value > 0
    ensures Index2CutTo(e.sheet.rows, PrepEntry(e, recipe).value.sheet.rows, MinLength(Index2Cells(e.sheet.rows)).value)
  {
    PrepEntryParts(e, recipe);
    DetMaskFlags(recipe, e.sheet);
    CutIndex2To(e.sheet, DetMask(recipe, e.sheet).value.minP7, MinLength(Index2Cells(e.sheet.rows)).value,
      PrepEntry(e, recipe).value.sheet);
  }

  /** `TruncateIndex2` for a sheet `t` already known to be the cut one. */
  lemma CutIndex2To(sheet: Sheet, minP7: Option<nat>, n: nat, t: Sheet)
    requires n > 0 && MinLength(Index2Cells(sheet.rows)).Some? && n <= MinLength(Index2Cells(sheet.rows)).value
    requires t == TruncateSheet(sheet, minP7, Some(n))
    ensures Index2CutTo(sheet.rows, t.rows, n)
  {
    TruncateIndex2(sheet, minP7, n);
  }

  // ------------------------------------------------------------------ demux

  /** What `demux` needs besides the output directory: the bcl-convert settings and the configured threads. */
  datatype RunConfig = RunConfig(bcl: BclConfig, threads: nat)

  /** `f"{int(config['misc']['threads'])//2}"`. */
  function HalfThreads(threads: nat): string
  {
    NatToString(threads / 2)
  }

  /** The message mailed when bcl-convert fails (the tool's stderr, appended in the source, is left out). */
  function CrashMail(code: int): string
  {
    "BCL-convert exit " + IntToString(code) + ". Pipeline crashed. "
  }

  const ReadSheetWhat := "TypeError: readDemuxSheet() got an unexpected keyword argument 'what'"

  /**
   * The bcl-convert part of one folder. Without the marker, bcl-convert is
   * launched once; exit 0 touches the marker and, on a MiSeq, asks the P5
   * check: when it fires, bcl-convert is launched again and the call that
   * reads the demux sheet back raises; otherwise P5RC is false. Any other
   * exit mails and ends the run. A converted folder keeps its P5RC.
   */
  function FcConvert(st: Stage, k: nat, laneSplit: bool, cfg: RunConfig, miseq: bool, exitCode: nat -> int,
                     evalP5: (string, bool) -> bool, stats: (string, Sheet) -> Sheet): (r: (Stage, Result<()>))
    requires k < |st.entries|
    ensures |r.0.entries| == |st.entries|
    ensures forall j :: 0 <= j < |st.entries| ==> r.0.entries[j].name == st.entries[j].name
  {
    var e := st.entries[k];
    var folder := PathJoin(cfg.bcl.outBaseDir, e.name);
    var dir := st.dir;
    if Converted(dir.markers, e.name) then
      (Stage(st.entries[k := e.(sheet := stats(folder, e.sheet))], dir), Ok(()))
    else
      var opts := BclOpts(cfg.bcl, e.name, laneSplit, HalfThreads(cfg.threads));
      var code := exitCode(|dir.launches|);
      var d1 := dir.(launches := dir.launches + [opts]);
      if code != 0 then (Stage(st.entries, d1.(mails := d1.mails + [(e.name, CrashMail(code))])), Err(ExitOne))
      else
        var d2 := d1.(markers := d1.markers + {(e.name, BclConvertDone)});
        if !miseq then
          (Stage(st.entries[k := e.(p5rc := Some(false), sheet := stats(folder, e.sheet))], d2), Ok(()))
        else if e.prep.None? then (Stage(st.entries, d2), Err("KeyError: 'dualIx'"))
        else if evalP5(folder, e.prep.value.dualIx) then
          (Stage(st.entries, d2.(launches := d2.launches + [opts])), Err(ReadSheetWhat))
        else
          (Stage(st.entries[k := e.(p5rc := Some(false), sheet := stats(folder, e.sheet))], d2), Ok(()))
  }

  /**
   * `compareDemuxSheet(_ssDic, demuxOut)`, whose body is not part of this
   * model: given a folder's entry and the sheet lines already stored there,
   * it may raise or change the entry. It is handed the entry's value, not
   * its key in `ssDic`, so the folder name stays.
   */
  type Compare = (OutLane, seq<string>) -> Result<OutLane>

  /**
   * One output folder of `demux`: make it; write the demux sheet when the
   * folder has none, or compare the entry with the existing one; then the
   * bcl-convert part.
   */
  function FcDemuxFolder(st: Stage, k: nat, laneSplit: bool, cfg: RunConfig, miseq: bool, exitCode: nat -> int,
                         evalP5: (string, bool) -> bool, stats: (string, Sheet) -> Sheet, compare: Compare): (r: (Stage, Result<()>))
    requires k < |st.entries|
    ensures |r.0.entries| == |st.entries|
    ensures forall j :: 0 <= j < |st.entries| ==> r.0.entries[j].name == st.entries[j].name
  {
    var e := st.entries[k];
    var dir := st.dir.(folders := st.dir.folders + {e.name});
    if e.name in dir.sheets then
      match compare(e, dir.sheets[e.name])
      case Err(m) => (Stage(st.entries, dir), Err(m))
      case Ok(c) => FcConvert(Stage(st.entries[k := c.(name := e.name)], dir), k, laneSplit, cfg, miseq, exitCode, evalP5, stats)
    else
      match WriteSheetStep(e, dir, laneSplit)
      case Err(m) => (Stage(st.entries, dir), Err(m))
      case Ok(w) => FcConvert(Stage(st.entries[k := w.0], w.1), k, laneSplit, cfg, miseq, exitCode, evalP5, stats)
  }

  /** One folder of `demux` as a step of the folder loop. */
  function FcDemuxStep(laneSplit: bool, cfg: RunConfig, miseq: bool, exitCode: nat -> int,
                       evalP5: (string, bool) -> bool, stats: (string, Sheet) -> Sheet, compare: Compare): (Stage, nat) -> (Stage, Result<()>)
  {
    (s: Stage, j: nat) => if j < |s.entries| then FcDemuxFolder(s, j, laneSplit, cfg, miseq, exitCode, evalP5, stats, compare) else (s, Ok(()))
  }

  const FailedMail := "RunCompletionStatus is not successfullycompleted.\nMarked for failure and ignored for the future."
  const RunFailed := "run.failed"
  const MkdirKeyword := "TypeError: mkdir() got an unexpected keyword argument 'exists_ok'"

  /**
   * The branch for a run that did not complete, as written: the first
   * folder's `mkdir(exists_ok=True)` raises, so only a run without folders
   * gets as far as the mail.
   */
  function FailedRunAsWritten(st: Stage, name: string): (Stage, Result<()>)
  {
    if |st.entries| > 0 then (st, Err(MkdirKeyword))
    else (st.(dir := st.dir.(mails := st.dir.mails + [(name + " ignored", FailedMail)])), Ok(()))
  }

  /** The branch as intended: every folder made and marked run.failed, then one mail. */
  function FailedRun(st: Stage, name: string): (r: (Stage, Result<()>))
    ensures r.1.Ok? && r.0.entries == st.entries
    ensures r.0.dir.folders == st.dir.folders + FoldersFrom(st.entries, 0)
    ensures r.0.dir.markers == st.dir.markers + (set f | f in FoldersFrom(st.entries, 0) :: (f, RunFailed))
    ensures r.0.dir.mails == st.dir.mails + [(name + " ignored", FailedMail)]
    ensures r.0.dir.launches == st.dir.launches && r.0.dir.sheets == st.dir.sheets
  {
    var fs := FoldersFrom(st.entries, 0);
    var dir := st.dir.(folders := st.dir.folders + fs,
                       markers := st.dir.markers + (set f | f in fs :: (f, RunFailed)),
                       mails := st.dir.mails + [(name + " ignored", FailedMail)]);
    (Stage(st.entries, dir), Ok(()))
  }

  /** As written, a failed run with folders marks none of them; the intended branch marks all. */
  lemma FailedRunMarksNothing(st: Stage, name: string)
    requires |st.entries| > 0
    ensures FailedRunAsWritten(st, name).1.Err? && FailedRunAsWritten(st, name).0 == st
    ensures (st.entries[0].name, RunFailed) in FailedRun(st, name).0.dir.markers
  {
    assert st.entries[0].name in FoldersFrom(st.entries, 0);
  }

  /** `demux`: the failed-run branch, or every folder in `ssDic` order until the first failure. */
  function FcDemuxAll(st: Stage, name: string, succesfullrun: string, laneSplit: bool, cfg: RunConfig, miseq: bool,
                      exitCode: nat -> int, evalP5: (string, bool) -> bool, stats: (string, Sheet) -> Sheet, compare: Compare): (Stage, Result<()>)
  {
    if succesfullrun != Completed then FailedRun(st, name)
    else EachFolder(st, 0, |st.entries|, FcDemuxStep(laneSplit, cfg, miseq, exitCode, evalP5, stats, compare))
  }

  /**
   * The bcl-convert part of a folder touches at most that folder's marker,
   * only after a launch that exits 0; it launches nothing for a converted
   * folder, and never retries a failed launch: a non-zero exit leaves
   * exactly one new launch and no marker.
   */
  lemma FcConvertMarkers(st: Stage, k: nat, laneSplit: bool, cfg: RunConfig, miseq: bool, exitCode: nat -> int,
                         evalP5: (string, bool) -> bool, stats: (string, Sheet) -> Sheet)
    requires k < |st.entries|
    ensures var r := FcConvert(st, k, laneSplit, cfg, miseq, exitCode, evalP5, stats);
      var f := st.entries[k].name;
      var n := |st.dir.launches|;
      var opts := BclOpts(cfg.bcl, f, laneSplit, HalfThreads(cfg.threads));
      && st.dir.markers <= r.0.dir.markers <= st.dir.markers + {(f, BclConvertDone)}
      && r.0.dir.folders == st.dir.folders && r.0.dir.sheets == st.dir.sheets
      && (Converted(st.dir.markers, f) ==> r.0.dir.launches == st.dir.launches && r.1.Ok?)
      && (!Converted(st.dir.markers, f) ==>
            && |r.0.dir.launches| > n && r.0.dir.launches[n] == opts
            && (Converted(r.0.dir.markers, f) <==> exitCode(n) == 0)
            && (exitCode(n) != 0 ==> r.0.dir.launches == st.dir.launches + [opts] && r.1 == Err(ExitOne)))
  {
  }

  /** The same for a whole folder of `demux`, which also makes the folder. */
  lemma FcDemuxFolderMarkers(st: Stage, k: nat, laneSplit: bool, cfg: RunConfig, miseq: bool, exitCode: nat -> int,
                             evalP5: (string, bool) -> bool, stats: (string, Sheet) -> Sheet, compare: Compare)
    requires k < |st.entries|
    ensures var r := FcDemuxFolder(st, k, laneSplit, cfg, miseq, exitCode, evalP5, stats, compare);
      var f := st.entries[k].name;
      && st.dir.markers <= r.0.dir.markers <= st.dir.markers + {(f, BclConvertDone)}
      && f in r.0.dir.folders
      && (Converted(st.dir.markers, f) ==> r.0.dir.launches == st.dir.launches)
      && (Converted(r.0.dir.markers, f) && !Converted(st.dir.markers, f) ==> exitCode(|st.dir.launches|) == 0)
  {
    var e := st.entries[k];
    var dir := st.dir.(folders := st.dir.folders + {e.name});
    if e.name in dir.sheets {
      var c := compare(e, dir.sheets[e.name]);
      if c.Ok? {
        FcConvertMarkers(Stage(st.entries[k := c.value.(name := e.name)], dir), k, laneSplit, cfg, miseq, exitCode, evalP5, stats);
      }
    } else {
      var w := WriteSheetStep(e, dir, laneSplit);
      if w.Ok? {
        FcConvertMarkers(Stage(st.entries[k := w.value.0], w.value.1), k, laneSplit, cfg, miseq, exitCode, evalP5, stats);
      }
    }
  }

  /**
   * A folder that already holds a demux sheet is compared before anything
   * else: a comparison that raises stops the folder with that error, having
   * only made it; otherwise bcl-convert runs on the compared entry.
   */
  lemma FcCompareFirst(st: Stage, k: nat, laneSplit: bool, cfg: RunConfig, miseq: bool, exitCode: nat -> int,
                       evalP5: (string, bool) -> bool, stats: (string, Sheet) -> Sheet, compare: Compare)
    requires k < |st.entries| && st.entries[k].name in st.dir.sheets
    ensures var e := st.entries[k];
      var r := FcDemuxFolder(st, k, laneSplit, cfg, miseq, exitCode, evalP5, stats, compare);
      var c := compare(e, st.dir.sheets[e.name]);
      var dir := st.dir.(folders := st.dir.folders + {e.name});
      && (c.Err? ==> r == (Stage(st.entries, dir), Err(c.reason)))
      && (c.Ok? ==> r == FcConvert(Stage(st.entries[k := c.value.(name := e.name)], dir), k, laneSplit, cfg, miseq, exitCode, evalP5, stats))
  {
  }

  /** `demux` keeps every marker and adds only bcl-convert markers of its own folders (run.failed ones when the run failed). */
  lemma FcDemuxMarkers(st: Stage, name: string, succesfullrun: string, laneSplit: bool, cfg: RunConfig, miseq: bool,
                       exitCode: nat -> int, evalP5: (string, bool) -> bool, stats: (string, Sheet) -> Sheet, compare: Compare)
    ensures NewMarkersWithin(st.dir.markers,
                             FcDemuxAll(st, name, succesfullrun, laneSplit, cfg, miseq, exitCode, evalP5, stats, compare).0.dir.markers,
                             FoldersFrom(st.entries, 0), if succesfullrun == Completed then {BclConvertDone} else {RunFailed})
  {
    if succesfullrun == Completed {
      var step := FcDemuxStep(laneSplit, cfg, miseq, exitCode, evalP5, stats, compare);
      forall s: Stage, j: nat
        ensures StepMarks(step, s, j, {BclConvertDone})
      {
        if j < |s.entries| {
          FcDemuxFolderMarkers(s, j, laneSplit, cfg, miseq, exitCode, evalP5, stats, compare);
        }
      }
      EachFolderMarkers(st, 0, |st.entries|, step, {BclConvertDone});
    }
  }

  /**
   * `step` is the folder step of this file's `demux` on every folder in
   * range; the trigger keeps the step's definition out of sight of a proof
   * that does not name `FcDemuxFolder` itself.
   */
  ghost predicate IsFcDemuxStep(step: (Stage, nat) -> (Stage, Result<()>), laneSplit: bool, cfg: RunConfig, miseq: bool,
                                exitCode: nat -> int, evalP5: (string, bool) -> bool, stats: (string, Sheet) -> Sheet, compare: Compare)
  {
    forall s: Stage, j: nat {:trigger FcDemuxFolder(s, j, laneSplit, cfg, miseq, exitCode, evalP5, stats, compare)} ::
      j < |s.entries| ==> step(s, j) == FcDemuxFolder(s, j, laneSplit, cfg, miseq, exitCode, evalP5, stats, compare)
  }

  lemma FcDemuxStepIs(laneSplit: bool, cfg: RunConfig, miseq: bool, exitCode: nat -> int,
                      evalP5: (string, bool) -> bool, stats: (string, Sheet) -> Sheet, compare: Compare)
    ensures IsFcDemuxStep(FcDemuxStep(laneSplit, cfg, miseq, exitCode, evalP5, stats, compare), laneSplit, cfg, miseq, exitCode, evalP5, stats, compare)
  {
  }

  // ----------------------------------------------------------- demux_aviti

  const Bases2FastqDone := "bases2fastq.done"
  const ParseStatsMode := "TypeError: parseStats() got an unexpected keyword argument 'mode'"

  /**
   * One folder of `demux_aviti`: P5RC is set false, the folder made, the
   * run manifest written if absent (by `writeDemuxSheetAviti`, not part of this model, given as
   * `manifest`), bases2fastq launched without its marker (marker on exit 0,
   * otherwise a mail and exit), then `parseStats` is called with a keyword
   * it does not take.
   */
  function AvitiFolder(st: Stage, k: nat, laneSplit: bool, b2f: seq<string>, exitCode: nat -> int,
                       manifest: (OutLane, bool) -> seq<string>): (r: (Stage, Result<()>))
    requires k < |st.entries|
  {
    var e := st.entries[k].(p5rc := Some(false));
    var entries := st.entries[k := e];
    var dir0 := st.dir.(folders := st.dir.folders + {e.name});
    var dir := if e.name in dir0.sheets then dir0 else dir0.(sheets := dir0.sheets[e.name := manifest(e, laneSplit)]);
    if (e.name, Bases2FastqDone) in dir.markers then (Stage(entries, dir), Err(ParseStatsMode))
    else
      var code := exitCode(|dir.launches|);
      var d1 := dir.(launches := dir.launches + [b2f]);
      if code == 0 then (Stage(entries, d1.(markers := d1.markers + {(e.name, Bases2FastqDone)})), Err(ParseStatsMode))
      else (Stage(entries, d1.(mails := d1.mails + [(e.name, "Bases2fastq exit " + IntToString(code) + ". Pipeline crashed. ")])), Err(ExitOne))
  }

  /**
   * `demux_aviti` on a completed run never gets past its first folder: that
   * folder ends in an exception either way, its marker touched exactly
   * when bases2fastq was launched and exited 0.
   */
  lemma AvitiStopsAtFirstFolder(st: Stage, laneSplit: bool, b2f: seq<string>, exitCode: nat -> int,
                                manifest: (OutLane, bool) -> seq<string>)
    requires |st.entries| > 0
    ensures var r := AvitiFolder(st, 0, laneSplit, b2f, exitCode, manifest);
      var f := st.entries[0].name;
      && r.1.Err?
      && r.0.entries[0].p5rc == Some(false)
      && ((f, Bases2FastqDone) in r.0.dir.markers <==>
            (f, Bases2FastqDone) in st.dir.markers || exitCode(|st.dir.launches|) == 0)
      && (r.1 == Err(ExitOne) <==> (f, Bases2FastqDone) !in st.dir.markers && exitCode(|st.dir.launches|) != 0)
  {
  }

  // ---------------------------------------------------------------- postmux

  /** `df['Sample_Project'].dropna().unique()`: the projects in order of first appearance. */
  function Projects(rows: seq<Row>): (ps: seq<string>)
    ensures forall i, j :: 0 <= i < j < |ps| ==> ps[i] != ps[j]
    ensures forall p :: p in ps <==> exists i :: 0 <= i < |rows| && rows[i].project == p
    decreases |rows|
  {
    if |rows| == 0 then []
    else
      var init := rows[..|rows| - 1];
      var ps := Projects(init);
      var p := rows[|rows| - 1].project;
      assert forall i :: 0 <= i < |init| ==> init[i] == rows[i];
      if p in ps then ps else ps + [p]
  }

  /**
   * The tool runs of one folder's projects from the `i`-th on (FastQC,
   * clumpify, kraken, md5sums and MultiQC, recorded as one launch per
   * project); `tools(folder, project)` is the failure mail of a batch
   * that does not exit 0, `None` when all do.
   */
  function ToolsFrom(dir: DirState, folder: string, ps: seq<string>, i: nat,
                     tools: (string, string) -> Option<string>): (r: (DirState, Result<()>))
    ensures r.0.markers == dir.markers && r.0.folders == dir.folders && r.0.sheets == dir.sheets
    ensures r.1.Ok? ==> |r.0.launches| == |dir.launches| + (if i <= |ps| then |ps| - i else 0)
    decreases |ps| - i
  {
    if i >= |ps| then (dir, Ok(()))
    else
      var d1 := dir.(launches := dir.launches + [["postmux", folder, ps[i]]]);
      match tools(folder, ps[i])
      case Some(msg) => (d1.(mails := d1.mails + [(folder, msg)]), Err(ExitOne))
      case None => ToolsFrom(d1, folder, ps, i + 1, tools)
  }

  /** Every project's tools succeed from the `i`-th on. */
  predicate ToolsOk(folder: string, ps: seq<string>, i: nat, tools: (string, string) -> Option<string>)
  {
    forall j :: i <= j < |ps| ==> tools(folder, ps[j]).None?
  }

  /** The tool runs succeed exactly when every project's batch does. */
  lemma {:induction false} ToolsFromOk(dir: DirState, folder: string, ps: seq<string>, i: nat,
                                       tools: (string, string) -> Option<string>)
    ensures ToolsFrom(dir, folder, ps, i, tools).1.Ok? <==> ToolsOk(folder, ps, i, tools)
    decreases |ps| - i
  {
    if i < |ps| {
      var d1 := dir.(launches := dir.launches + [["postmux", folder, ps[i]]]);
      ToolsFromOk(d1, folder, ps, i + 1, tools);
    }
  }

  /**
   * What the renaming of a folder depends on besides the sheet: whether
   * the run is an Aviti run (project folders under `Samples`), the lane
   * split status, and the `*fastq.gz` listing of each project folder.
   */
  datatype RenameEnv = RenameEnv(aviti: bool, laneSplit: bool, listing: string -> seq<string>)

  /** The folder `renameProject` is given for a project: `laneFolder / project`, or `laneFolder / 'Samples' / project` on Aviti. */
  function ProjectFolder(lane: string, project: string, aviti: bool): string
  {
    if aviti then PathJoin(PathJoin(lane, "Samples"), project) else PathJoin(lane, project)
  }

  /** The frame `renameProject` looks names up in: Sample_ID and Sample_Name of every row. */
  function NameRows(rows: seq<Row>): (r: seq<PM.NameRow>)
    ensures |r| == |rows| && forall i :: 0 <= i < |rows| ==> r[i] == PM.NameRow(rows[i].sampleId, Some(rows[i].sampleName))
  {
    seq(|rows|, i requires 0 <= i < |rows| => PM.NameRow(rows[i].sampleId, Some(rows[i].sampleName)))
  }

  /** `renameProject` for one project of the lane folder, on that folder's fastq listing. */
  function RenameOne(lane: string, rows: seq<PM.NameRow>, project: string, env: RenameEnv): Result<string>
  {
    var folder := ProjectFolder(lane, project, env.aviti);
    PM.RenameOutcome(folder, env.listing(folder), rows, env.laneSplit)
  }

  /** `RenameOne` for the projects of one lane folder. */
  function Renamer(lane: string, rows: seq<PM.NameRow>, env: RenameEnv): string -> Result<string>
  {
    p => RenameOne(lane, rows, p, env)
  }

  /**
   * The renaming of one folder's projects from the `i`-th on, `one` giving
   * each project's outcome: the first `renameProject` that fails ends it.
   * The `validateFqEnds` that follows each one looks at
   * `laneFolder / project`, which the renaming has just moved away, so it
   * finds no fastq file and passes.
   */
  function RenameFrom(ps: seq<string>, i: nat, one: string -> Result<string>): Result<()>
    decreases |ps| - i
  {
    if i >= |ps| then Ok(())
    else
      match one(ps[i])
      case Err(m) => Err(m)
      case Ok(_) => RenameFrom(ps, i + 1, one)
  }

  /** Every project's renaming succeeds from the `i`-th on. */
  predicate RenamesOk(ps: seq<string>, i: nat, one: string -> Result<string>)
  {
    forall j :: i <= j < |ps| ==> one(ps[j]).Ok?
  }

  /** The renaming gets through exactly when every project's does. */
  lemma {:induction false} RenameFromOk(ps: seq<string>, i: nat, one: string -> Result<string>)
    ensures RenameFrom(ps, i, one).Ok? <==> RenamesOk(ps, i, one)
    decreases |ps| - i
  {
    if i < |ps| {
      RenameFromOk(ps, i + 1, one);
    }
  }

  /** The renaming a folder needs: none once renamed.done is there. */
  function RenameStep(st: Stage, k: nat, env: RenameEnv): Result<()>
    requires k < |st.entries|
  {
    var e := st.entries[k];
    if (e.name, RenamedDone) in st.dir.markers then Ok(())
    else RenameFrom(Projects(e.sheet.rows), 0, Renamer(e.name, NameRows(e.sheet.rows), env))
  }

  /**
   * One folder of `postmux`: without renamed.done every project is
   * renamed, and a failing renaming ends the run before renamed.done is
   * touched; then, without postmux.done, the tools run project by project
   * and the first failure ends the run; postmux.done is touched after them.
   */
  function PostmuxFolder(st: Stage, k: nat, env: RenameEnv, tools: (string, string) -> Option<string>): (r: (Stage, Result<()>))
    requires k < |st.entries|
    ensures r.0.entries == st.entries
  {
    var e := st.entries[k];
    var rn := RenameStep(st, k, env);
    if rn.Err? then (st, rn)
    else
      var d0 := st.dir.(markers := st.dir.markers + {(e.name, RenamedDone)});
      if (e.name, PostmuxDone) in d0.markers then (Stage(st.entries, d0), Ok(()))
      else
        var t := ToolsFrom(d0, e.name, Projects(e.sheet.rows), 0, tools);
        if t.1.Err? then (Stage(st.entries, t.0), t.1)
        else (Stage(st.entries, t.0.(markers := t.0.markers + {(e.name, PostmuxDone)})), Ok(()))
  }

  /**
   * After a folder of `postmux`, renamed.done is there exactly when it
   * was before or every project was renamed, and a failed renaming
   * changes nothing; postmux.done is there exactly when it was before or,
   * renamed, every project's tools succeeded, and a folder that had it
   * launches nothing.
   */
  lemma PostmuxFolderMarkers(st: Stage, k: nat, env: RenameEnv, tools: (string, string) -> Option<string>)
    requires k < |st.entries|
    ensures var r := PostmuxFolder(st, k, env, tools);
      var f := st.entries[k].name;
      var ps := Projects(st.entries[k].sheet.rows);
      var renamed := (f, RenamedDone) in st.dir.markers || RenamesOk(ps, 0, Renamer(f, NameRows(st.entries[k].sheet.rows), env));
      && ((f, RenamedDone) in r.0.dir.markers <==> renamed)
      && (!renamed ==> r.0.dir == st.dir && r.1.Err?)
      && NewMarkersWithin(st.dir.markers, r.0.dir.markers, {f}, {RenamedDone, PostmuxDone})
      && ((f, PostmuxDone) in r.0.dir.markers <==> (f, PostmuxDone) in st.dir.markers || (renamed && ToolsOk(f, ps, 0, tools)))
      && (r.1.Ok? <==> renamed && ((f, PostmuxDone) in st.dir.markers || ToolsOk(f, ps, 0, tools)))
      && ((f, PostmuxDone) in st.dir.markers ==> r.0.dir.launches == st.dir.launches)
      && (r.1.Ok? && (f, PostmuxDone) !in st.dir.markers ==> |r.0.dir.launches| == |st.dir.launches| + |ps|)
  {
    var e := st.entries[k];
    RenameFromOk(Projects(e.sheet.rows), 0, Renamer(e.name, NameRows(e.sheet.rows), env));
    var d0 := st.dir.(markers := st.dir.markers + {(e.name, RenamedDone)});
    ToolsFromOk(d0, e.name, Projects(e.sheet.rows), 0, tools);
  }

  /** One folder of `postmux` as a step of the folder loop. */
  function PostmuxStep(env: RenameEnv, tools: (string, string) -> Option<string>): (Stage, nat) -> (Stage, Result<()>)
  {
    (s: Stage, j: nat) => if j < |s.entries| then PostmuxFolder(s, j, env, tools) else (s, Ok(()))
  }

  /** `postmux` adds only renamed.done and postmux.done markers of its own folders. */
  lemma PostmuxMarkers(st: Stage, env: RenameEnv, tools: (string, string) -> Option<string>)
    ensures NewMarkersWithin(st.dir.markers, EachFolder(st, 0, |st.entries|, PostmuxStep(env, tools)).0.dir.markers,
                             FoldersFrom(st.entries, 0), {RenamedDone, PostmuxDone})
  {
    var step := PostmuxStep(env, tools);
    forall s: Stage, j: nat
      ensures StepMarks(step, s, j, {RenamedDone, PostmuxDone})
    {
      if j < |s.entries| {
        PostmuxFolderMarkers(s, j, env, tools);
      }
    }
    EachFolderMarkers(st, 0, |st.entries|, step, {RenamedDone, PostmuxDone});
  }

  // ---------------------------------------------------------- the flow cell

  /** The flow cell object: what `__init__` read and the exit statuses the stages record. */
  class FlowCell {
    var name: string
    var sequencer: string
    var seqRecipe: SeqRecipe
    var lanes: int
    var instrument: string
    var flowcellID: string
    var succesfullrun: string
    var exitStats: map<string, int>
    var sampleSheet: SampleSheet

    /**
     * The fields `__init__` sets from a run's layout and completion
     * status; the sample sheet object is built (and parsed) by its own class.
     */
    constructor(name: string, sequencer: string, info: RunInfo, succesfullrun: string, ss: SampleSheet)
      ensures this.name == name && this.sequencer == sequencer && this.succesfullrun == succesfullrun
      ensures seqRecipe == info.recipe && lanes == info.lanes && instrument == info.instrument
      ensures flowcellID == info.flowcellID && sampleSheet == ss && exitStats == map[]
    {
      this.name := name;
      this.sequencer := sequencer;
      this.succesfullrun := succesfullrun;
      seqRecipe := info.recipe;
      lanes := info.lanes;
      instrument := info.instrument;
      flowcellID := info.flowcellID;
      sampleSheet := ss;
      exitStats := map[];
    }

    /**
     * `prepConvert` with the two cuts the right way round: every folder is
     * prepared (no marker is consulted), then 'premux' is recorded as 0.
     */
    method PrepConvert() returns (r: Result<()>)
      modifies this, sampleSheet
      ensures sampleSheet == old(sampleSheet) && seqRecipe == old(seqRecipe) && succesfullrun == old(succesfullrun)
      ensures sampleSheet.ssDic == PrepAll(old(sampleSheet.ssDic), seqRecipe, {}).0
      ensures r.Err? <==> PrepAll(old(sampleSheet.ssDic), seqRecipe, {}).1.Some?
      ensures sampleSheet.laneSplitStatus == old(sampleSheet.laneSplitStatus)
      ensures exitStats == if r.Ok? then old(exitStats)["premux" := 0] else old(exitStats)
    {
      r := DemuxRun.PrepConvert(sampleSheet, seqRecipe, {});
      if r.Ok? {
        exitStats := exitStats["premux" := 0];
      }
    }

    /** `demux`: the failed-run branch, or the folder loop; 'demux' is recorded as 0 after a completed loop. */
    method Demux(out: OutputDir, cfg: RunConfig, exitCode: nat -> int,
                 evalP5: (string, bool) -> bool, stats: (string, Sheet) -> Sheet, compare: Compare) returns (r: Result<()>)
      modifies this, sampleSheet, out
      ensures sampleSheet == old(sampleSheet) && name == old(name) && succesfullrun == old(succesfullrun)
      ensures (Stage(sampleSheet.ssDic, out.State()), r)
        == FcDemuxAll(Stage(old(sampleSheet.ssDic), old(out.State())), name, succesfullrun,
                      old(sampleSheet.laneSplitStatus), cfg, sequencer == "MiSeq", exitCode, evalP5, stats, compare)
      ensures exitStats == if r.Ok? && succesfullrun == Completed then old(exitStats)["demux" := 0] else old(exitStats)
    {
      if succesfullrun != Completed {
        var fs := FoldersFrom(sampleSheet.ssDic, 0);
        out.folders := out.folders + fs;
        out.markers := out.markers + (set f | f in fs :: (f, RunFailed));
        out.mails := out.mails + [(name + " ignored", FailedMail)];
        return Ok(());
      }
      var miseq := sequencer == "MiSeq";
      FcDemuxStepIs(sampleSheet.laneSplitStatus, cfg, miseq, exitCode, evalP5, stats, compare);
      r := FcDemuxLoop(sampleSheet, out, cfg, miseq, exitCode, evalP5, stats, compare,
                       FcDemuxStep(sampleSheet.laneSplitStatus, cfg, miseq, exitCode, evalP5, stats, compare));
      if r.Ok? {
        exitStats := exitStats["demux" := 0];
      }
    }

    /** `postmux`: every folder in order until the first failure; 'postmux' is recorded as 0 at the end. */
    method Postmux(out: OutputDir, listing: string -> seq<string>, tools: (string, string) -> Option<string>) returns (r: Result<()>)
      modifies this, out
      ensures sampleSheet == old(sampleSheet)
      ensures (Stage(sampleSheet.ssDic, out.State()), r)
        == EachFolder(Stage(sampleSheet.ssDic, old(out.State())), 0, |sampleSheet.ssDic|,
                      PostmuxStep(RenameEnv(sequencer == "aviti", sampleSheet.laneSplitStatus, listing), tools))
      ensures exitStats == if r.Ok? then old(exitStats)["postmux" := 0] else old(exitStats)
    {
      r := PostmuxLoop(sampleSheet.ssDic, out, RenameEnv(sequencer == "aviti", sampleSheet.laneSplitStatus, listing), tools);
      if r.Ok? {
        exitStats := exitStats["postmux" := 0];
      }
    }
  }

  /** The body of `demux`'s loop for folder `k`. */
  method FcDemuxOne(ss: SampleSheet, out: OutputDir, k: nat, cfg: RunConfig, miseq: bool, exitCode: nat -> int,
                    evalP5: (string, bool) -> bool, stats: (string, Sheet) -> Sheet, compare: Compare,
                    ghost step: (Stage, nat) -> (Stage, Result<()>)) returns (r: Result<()>)
    requires k < |ss.ssDic|
    requires IsFcDemuxStep(step, ss.laneSplitStatus, cfg, miseq, exitCode, evalP5, stats, compare)
    modifies ss, out
    ensures ss.laneSplitStatus == old(ss.laneSplitStatus) && |ss.ssDic| == old(|ss.ssDic|)
    ensures (Stage(ss.ssDic, out.State()), r) == step(Stage(old(ss.ssDic), old(out.State())), k)
  {
    var name := ss.ssDic[k].name;
    var split := ss.laneSplitStatus;
    ghost var st := Stage(ss.ssDic, out.State());
    out.folders := out.folders + {name};
    ghost var dir := out.State();
    if name !in out.sheets {
      r := WriteDemuxSheet(ss, k, out);
      if r.Err? {
        assert (Stage(ss.ssDic, out.State()), r) == FcDemuxFolder(st, k, split, cfg, miseq, exitCode, evalP5, stats, compare);
        return;
      }
    } else {
      var c := compare(ss.ssDic[k], out.sheets[name]);
      if c.Err? {
        r := Err(c.reason);
        assert (Stage(ss.ssDic, out.State()), r) == FcDemuxFolder(st, k, split, cfg, miseq, exitCode, evalP5, stats, compare);
        return;
      }
      ss.ssDic := ss.ssDic[k := c.value.(name := name)];
    }
    assert ss.ssDic[k].name == name;
    r := FcConvertAt(ss, out, k, cfg, miseq, exitCode, evalP5, stats);
    assert (Stage(ss.ssDic, out.State()), r) == FcDemuxFolder(st, k, split, cfg, miseq, exitCode, evalP5, stats, compare);
  }

  /** The bcl-convert part of `demux`'s loop for folder `k`. */
  method FcConvertAt(ss: SampleSheet, out: OutputDir, k: nat, cfg: RunConfig, miseq: bool, exitCode: nat -> int,
                     evalP5: (string, bool) -> bool, stats: (string, Sheet) -> Sheet) returns (r: Result<()>)
    requires k < |ss.ssDic|
    modifies ss, out
    ensures ss.laneSplitStatus == old(ss.laneSplitStatus)
    ensures (Stage(ss.ssDic, out.State()), r)
      == FcConvert(Stage(old(ss.ssDic), old(out.State())), k, ss.laneSplitStatus, cfg, miseq, exitCode, evalP5, stats)
  {
    var e := ss.ssDic[k];
    var folder := PathJoin(cfg.bcl.outBaseDir, e.name);
    if !Converted(out.markers, e.name) {
      var opts := BclOpts(cfg.bcl, e.name, ss.laneSplitStatus, HalfThreads(cfg.threads));
      var exitcode := exitCode(|out.launches|);
      out.launches := out.launches + [opts];
      if exitcode != 0 {
        out.mails := out.mails + [(e.name, CrashMail(exitcode))];
        return Err(ExitOne);
      }
      out.markers := out.markers + {(e.name, BclConvertDone)};
      if miseq {
        if e.prep.None? {
          return Err("KeyError: 'dualIx'");
        }
        if evalP5(folder, e.prep.value.dualIx) {
          out.launches := out.launches + [opts];
          return Err(ReadSheetWhat);
        }
      }
      e := e.(p5rc := Some(false));
    }
    ss.ssDic := ss.ssDic[k := e.(sheet := stats(folder, e.sheet))];
    r := Ok(());
  }

  /** `demux`'s loop: every output folder in `ssDic` order, stopping at the first failure. */
  method FcDemuxLoop(ss: SampleSheet, out: OutputDir, cfg: RunConfig, miseq: bool, exitCode: nat -> int,
                     evalP5: (string, bool) -> bool, stats: (string, Sheet) -> Sheet, compare: Compare,
                     ghost step: (Stage, nat) -> (Stage, Result<()>)) returns (r: Result<()>)
    requires IsFcDemuxStep(step, ss.laneSplitStatus, cfg, miseq, exitCode, evalP5, stats, compare)
    modifies ss, out
    ensures ss.laneSplitStatus == old(ss.laneSplitStatus)
    ensures (Stage(ss.ssDic, out.State()), r) == EachFolder(Stage(old(ss.ssDic), old(out.State())), 0, |old(ss.ssDic)|, step)
  {
    var k := 0;
    while k < |ss.ssDic|
      invariant ss.laneSplitStatus == old(ss.laneSplitStatus)
      invariant k <= |ss.ssDic| == |old(ss.ssDic)|
      invariant EachFolder(Stage(ss.ssDic, out.State()), k, |ss.ssDic| - k, step)
        == EachFolder(Stage(old(ss.ssDic), old(out.State())), 0, |old(ss.ssDic)|, step)
      decreases |ss.ssDic| - k
    {
      ghost var st := Stage(ss.ssDic, out.State());
      ghost var n := |ss.ssDic| - k;
      assert EachFolder(st, k, n, step)
        == if step(st, k).1.Err? then step(st, k) else EachFolder(step(st, k).0, k + 1, n - 1, step);
      r := FcDemuxOne(ss, out, k, cfg, miseq, exitCode, evalP5, stats, compare, step);
      if r.Err? {
        return;
      }
      k := k + 1;
    }
    r := Ok(());
  }

  /** `postmux`'s loop over the output folders. */
  method PostmuxLoop(entries: seq<OutLane>, out: OutputDir, env: RenameEnv, tools: (string, string) -> Option<string>)
    returns (r: Result<()>)
    modifies out
    ensures (Stage(entries, out.State()), r) == EachFolder(Stage(entries, old(out.State())), 0, |entries|, PostmuxStep(env, tools))
  {
    ghost var step := PostmuxStep(env, tools);
    var k := 0;
    while k < |entries|
      invariant k <= |entries|
      invariant EachFolder(Stage(entries, out.State()), k, |entries| - k, step)
        == EachFolder(Stage(entries, old(out.State())), 0, |entries|, step)
      decreases |entries| - k
    {
      ghost var st := Stage(entries, out.State());
      ghost var n := |entries| - k;
      assert EachFolder(st, k, n, step)
        == if step(st, k).1.Err? then step(st, k) else EachFolder(step(st, k).0, k + 1, n - 1, step);
      assert step(st, k) == PostmuxFolder(st, k, env, tools);
      r := PostmuxAt(entries, out, k, env, tools);
      if r.Err? {
        return;
      }
      k := k + 1;
    }
    r := Ok(());
  }

  /** One folder of `postmux`. */
  method PostmuxAt(entries: seq<OutLane>, out: OutputDir, k: nat, env: RenameEnv, tools: (string, string) -> Option<string>)
    returns (r: Result<()>)
    requires k < |entries|
    modifies out
    ensures (Stage(entries, out.State()), r) == PostmuxFolder(Stage(entries, old(out.State())), k, env, tools)
  {
    var e := entries[k];
    r := RenameAt(entries, out, k, env);
    if r.Err? {
      return;
    }
    out.markers := out.markers + {(e.name, RenamedDone)};
    if (e.name, PostmuxDone) in out.markers {
      return Ok(());
    }
    var ps := Projects(e.sheet.rows);
    var i := 0;
    while i < |ps|
      invariant i <= |ps|
      invariant ToolsFrom(out.State(), e.name, ps, i, tools) == ToolsFrom(old(out.State()).(markers := old(out.markers) + {(e.name, RenamedDone)}), e.name, ps, 0, tools)
      decreases |ps| - i
    {
      out.launches := out.launches + [["postmux", e.name, ps[i]]];
      var failure := tools(e.name, ps[i]);
      if failure.Some? {
        out.mails := out.mails + [(e.name, failure.value)];
        return Err(ExitOne);
      }
      i := i + 1;
    }
    out.markers := out.markers + {(e.name, PostmuxDone)};
    r := Ok(());
  }

  /** `renameProject` on one project folder of the lane. */
  method RenameProjectOf(lane: string, rows: seq<PM.NameRow>, project: string, env: RenameEnv) returns (res: Result<string>)
    ensures res == RenameOne(lane, rows, project, env)
  {
    var folder := ProjectFolder(lane, project, env.aviti);
    var moves;
    moves, res := PM.RenameProject(folder, env.listing(folder), rows, env.laneSplit);
  }

  /** The renaming part of one folder of `postmux`: `renameProject` for each project, unless renamed.done is there. */
  method RenameAt(entries: seq<OutLane>, out: OutputDir, k: nat, env: RenameEnv) returns (r: Result<()>)
    requires k < |entries|
    ensures r == RenameStep(Stage(entries, out.State()), k, env)
  {
    var e := entries[k];
    if (e.name, RenamedDone) in out.markers {
      return Ok(());
    }
    var rows := NameRows(e.sheet.rows);
    var ps := Projects(e.sheet.rows);
    ghost var one := Renamer(e.name, rows, env);
    var i := 0;
    while i < |ps|
      invariant i <= |ps|
      invariant RenameFrom(ps, i, one) == RenameFrom(ps, 0, one)
      decreases |ps| - i
    {
      var res := RenameProjectOf(e.name, rows, ps[i], env);
      assert res == one(ps[i]);
      if res.Err? {
        return Err(res.reason);
      }
      i := i + 1;
    }
    r := Ok(());
  }
}
