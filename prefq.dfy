// dissectBCL/preFQ.py: the first version's read-length list
// (`cycleOverwrite`), the in-place rewrite of its index entries to the
// shortest index (`detMask`), and `misMatcher`, which returns the list.
module PreFQ {
  import opened Wrappers
  import opened Text
  import opened MaskSyntax
  import Misc
  import Demux

  /** One entry of `readLens`: (cycles, type). */
  type ReadLen = (int, string)

  /** The types `cycleOverwrite` keeps. */
  predicate Kept(read: ReadLen)
  {
    read.1 == "Read" || read.1 == "Index"
  }

  /** The letter of a kept read: 'I' for an index read of fewer than 16 cycles, 'Y' otherwise. */
  function Letter(read: ReadLen): char
  {
    if read.1 == "Index" && read.0 < 16 then 'I' else 'Y'
  }

  /** The entry the loop appends for one read, if any. */
  function CycleEntry(read: ReadLen): Option<string>
  {
    if read.1 == "Read" then Some("Y " + IntToString(read.0))
    else if read.1 == "Index" && read.0 < 16 then Some("I " + IntToString(read.0))
    else if read.1 == "Index" then Some("Y " + IntToString(read.0))
    else None
  }

  /** The list `cycleOverwrite` returns for the reads so far. */
  function CycleList(readLens: seq<ReadLen>): (l: seq<string>)
    ensures |l| == |KeptReads(readLens)|
    decreases |readLens|
  {
    if |readLens| == 0 then []
    else
      var e := CycleEntry(readLens[|readLens| - 1]);
      CycleList(readLens[..|readLens| - 1]) + (if e.Some? then [e.value] else [])
  }

  /** The reads `cycleOverwrite` keeps, in order. */
  function KeptReads(readLens: seq<ReadLen>): (k: seq<ReadLen>)
    ensures forall i :: 0 <= i < |k| ==> Kept(k[i])
    decreases |readLens|
  {
    if |readLens| == 0 then []
    else
      var r := readLens[|readLens| - 1];
      KeptReads(readLens[..|readLens| - 1]) + (if Kept(r) then [r] else [])
  }

  /** `cycleOverwrite`, with its loop. */
  method CycleOverwrite(readLens: seq<ReadLen>) returns (cycleList: seq<string>)
    ensures cycleList == CycleList(readLens)
  {
    cycleList := [];
    var i := 0;
    while i < |readLens|
      invariant 0 <= i <= |readLens|
      invariant cycleList == CycleList(readLens[..i])
    {
      assert readLens[..i + 1][..i] == readLens[..i];
      var read := readLens[i];
      if read.1 == "Read" {
        cycleList := cycleList + ["Y " + IntToString(read.0)];
      }
      if read.1 == "Index" && read.0 < 16 {
        cycleList := cycleList + ["I " + IntToString(read.0)];
      } else if read.1 == "Index" && read.0 >= 16 {
        cycleList := cycleList + ["Y " + IntToString(read.0)];
      }
      i := i + 1;
    }
    assert readLens[..i] == readLens;
  }

  /** `misMatcher` of this version: the read-length list, and nothing else. */
  method MisMatcher(readLens: seq<ReadLen>) returns (cycleList: seq<string>)
    ensures cycleList == CycleList(readLens)
  {
    cycleList := CycleOverwrite(readLens);
  }

  /** A kept read's entry: its letter, a space, its cycles. */
  lemma EntryOfKept(read: ReadLen)
    ensures Kept(read) <==> CycleEntry(read).Some?
    ensures Kept(read) ==> CycleEntry(read).value == [Letter(read), ' '] + IntToString(read.0)
  {
  }

  /**
   * `cycleOverwrite` makes exactly one entry per Read or Index element, in
   * input order: the `i`-th entry is the `i`-th kept read's letter and
   * cycles.
   */
  lemma {:induction false} CycleListFollows(readLens: seq<ReadLen>)
    ensures |CycleList(readLens)| == |KeptReads(readLens)|
    ensures forall i :: 0 <= i < |CycleList(readLens)| ==>
      CycleList(readLens)[i] == [Letter(KeptReads(readLens)[i]), ' '] + IntToString(KeptReads(readLens)[i].0)
    decreases |readLens|
  {
    if |readLens| > 0 {
      var init := readLens[..|readLens| - 1];
      CycleListFollows(init);
      EntryOfKept(readLens[|readLens| - 1]);
    }
  }

  lemma NoSpaceInIntToString(n: int)
    ensures ' ' !in IntToString(n)
  {
    var d := NatToString(if n < 0 then -n else n);
    assert ' ' !in d by {
      forall i | 0 <= i < |d|
        ensures d[i] != ' '
      {
        assert IsDigit(d[i]);
      }
    }
    if n < 0 {
      assert IntToString(n) == "-" + d;
    }
  }

  /**
   * An entry reads back as `detMask` reads it: the part after the space is
   * the read's cycles, which `int()` recovers.
   */
  lemma EntryReadsBack(read: ReadLen)
    ensures var e := [Letter(read), ' '] + IntToString(read.0);
      && Field(e, ' ', 1) == Some(IntToString(read.0))
      && ParseInt(Field(e, ' ', 1).value) == Some(read.0)
  {
    var digits := IntToString(read.0);
    NoSpaceInIntToString(read.0);
    assert [Letter(read), ' '] + digits == [Letter(read)] + [' '] + digits;
    SplitAtFirstSeparator([Letter(read)], digits, ' ');
    SplitWithoutSeparator(digits, ' ');
    ParseIntOfIntToString(read.0);
  }

  // ------------------------------------------------------------------ detMask

  const ListIndexError := "IndexError: list index out of range"

  /**
   * The rewrite of one entry: `int(entry.split(' ')[1])` sequenced cycles
   * (IndexError, ValueError), then, when they exceed the shortest index
   * of the column, "I<min>N<rest>". A column with no index at all has a
   * NaN minimum, which no length exceeds.
   */
  function Rewrite(entry: string, cells: seq<Option<string>>): Result<string>
  {
    match Field(entry, ' ', 1)
    case None => Err(ListIndexError)
    case Some(f) =>
      match ParseInt(f)
      case None => Err("ValueError: invalid literal for int()")
      case Some(seqLen) =>
        match Demux.MinLength(cells)
        case None => Ok(entry)
        case Some(m) =>
          if seqLen > m then Ok("I" + NatToString(m) + "N" + NatToString(seqLen - m)) else Ok(entry)
  }

  /**
   * `detMask` on the list: entry 1 rewritten against the index column,
   * then entry 2, if it holds an 'I', against the index2 column. An
   * exception after the first rewrite leaves that rewrite in place.
   */
  function DetMaskOf(cycleList: seq<string>, index: Option<seq<Option<string>>>,
                     index2: Option<seq<Option<string>>>): (r: (seq<string>, Result<()>))
    ensures |r.0| == |cycleList|
    ensures forall i :: 0 <= i < |cycleList| && i != 1 && i != 2 ==> r.0[i] == cycleList[i]
  {
    if index.None? then (cycleList, Err("KeyError: 'index'"))
    else if |cycleList| < 2 then (cycleList, Err(ListIndexError))
    else
      match Rewrite(cycleList[1], index.value)
      case Err(m) => (cycleList, Err(m))
      case Ok(t1) =>
        var cl := cycleList[1 := t1];
        if |cl| < 3 then (cl, Err(ListIndexError))
        else if 'I' !in cl[2] then (cl, Ok(()))
        else if index2.None? then (cl, Err("KeyError: 'index2'"))
        else
          match Rewrite(cl[2], index2.value)
          case Err(m) => (cl, Err(m))
          case Ok(t2) => (cl[2 := t2], Ok(()))
  }

  /** `detMask`, overwriting the entries of the list in place and returning nothing. */
  method DetMask(cycleList: array<string>, index: Option<seq<Option<string>>>,
                 index2: Option<seq<Option<string>>>) returns (r: Result<()>)
    modifies cycleList
    ensures (cycleList[..], r) == DetMaskOf(old(cycleList[..]), index, index2)
  {
    if index.None? {
      return Err("KeyError: 'index'");
    }
    if cycleList.Length < 2 {
      return Err(ListIndexError);
    }
    var t1 := Rewrite(cycleList[1], index.value);
    if t1.Err? {
      return Err(t1.reason);
    }
    cycleList[1] := t1.value;
    if cycleList.Length < 3 {
      return Err(ListIndexError);
    }
    if 'I' in cycleList[2] {
      if index2.None? {
        return Err("KeyError: 'index2'");
      }
      var t2 := Rewrite(cycleList[2], index2.value);
      if t2.Err? {
        return Err(t2.reason);
      }
      cycleList[2] := t2.value;
    }
    r := Ok(());
  }

  /**
   * An entry is rewritten only when its sequenced cycles exceed the
   * shortest index, and then into the `lenMask` token of those lengths:
   * an index segment of the shortest length followed by a skip of the
   * rest, together the sequenced cycles.
   */
  lemma RewriteIsLenMask(entry: string, cells: seq<Option<string>>)
    requires Rewrite(entry, cells).Ok? && Rewrite(entry, cells).value != entry
    ensures var seqLen := ParseInt(Field(entry, ' ', 1).value).value;
      var m := Demux.MinLength(cells).value;
      && m < seqLen
      && Rewrite(entry, cells).value == Misc.LenMask(seqLen, m, false)
      && ParseSegments(Rewrite(entry, cells).value) == Some([Segment('I', m), Segment('N', seqLen - m)])
      && Cycles([Segment('I', m), Segment('N', seqLen - m)]) == seqLen
  {
    var seqLen := ParseInt(Field(entry, ' ', 1).value).value;
    var m := Demux.MinLength(cells).value;
    assert Misc.LenMaskSegments(seqLen, m, false) == [Segment('I', m), Segment('N', seqLen - m)];
    Misc.LenMaskCoversRecipe(seqLen, m, false);
  }

  /**
   * Run on a list `cycleOverwrite` made, the index entry is rewritten from
   * the cycles of the second kept read: to the `lenMask` token when they
   * exceed the shortest index, otherwise kept.
   */
  lemma DetMaskOnCycleList(readLens: seq<ReadLen>, cells: seq<Option<string>>, index2: Option<seq<Option<string>>>)
    requires |KeptReads(readLens)| >= 2
    ensures var cl := CycleList(readLens);
      var n := KeptReads(readLens)[1].0;
      var r := DetMaskOf(cl, Some(cells), index2);
      && (Demux.MinLength(cells).Some? && n > Demux.MinLength(cells).value ==>
            r.0[1] == Misc.LenMask(n, Demux.MinLength(cells).value, false))
      && (Demux.MinLength(cells).None? || n <= Demux.MinLength(cells).value ==> r.0[1] == cl[1])
  {
    CycleListFollows(readLens);
    EntryReadsBack(KeptReads(readLens)[1]);
    var cl := CycleList(readLens);
    if Rewrite(cl[1], cells).Ok? && Rewrite(cl[1], cells).value != cl[1] {
      RewriteIsLenMask(cl[1], cells);
    }
  }
}
