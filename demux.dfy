// src/dissectBCL/demux.py, the mask and mismatch engine: the barcode
// mismatch tolerance bcl-convert is given (`hamming2Mismatch`,
// `misMatcher`) and the OverrideCycles mask derived from the run's read
// layout and the shortest index in a sample sheet (`detMask`).
module Demux {
  import opened Wrappers
  import opened Text
  import opened Records
  import opened MaskSyntax
  import opened Misc

  // ------------------------------------------------------- hamming2Mismatch

  /** `hamming2Mismatch`: the tolerance for a minimal pairwise barcode distance. */
  function Hamming2Mismatch(minVal: int): (r: nat)
    ensures r <= 2
  {
    if minVal > 2 && minVal <= 4 then 1
    else if minVal > 4 then 2
    else 0
  }

  /** A larger minimal distance never lowers the tolerance. */
  lemma Hamming2MismatchMonotone(a: int, b: int)
    requires a <= b
    ensures Hamming2Mismatch(a) <= Hamming2Mismatch(b)
  {
  }

  /**
   * The tolerance keeps barcodes apart: with `t` mismatches allowed and two
   * barcodes at distance `d >= 1`, `2 * t < d`, so no read lies within `t`
   * of both.
   */
  lemma ToleranceSeparates(d: int)
    requires d >= 1
    ensures 2 * Hamming2Mismatch(d) < d
  {
  }

  /** A read within `t` of two barcodes puts them at most `2 * t` apart (triangle inequality). */
  lemma {:induction false} MismatchesTriangle(a: string, b: string, c: string, k: nat)
    requires k <= |a| && k <= |b| && k <= |c|
    ensures MismatchesUpTo(a, c, k) <= MismatchesUpTo(a, b, k) + MismatchesUpTo(b, c, k)
  {
    if k > 0 {
      MismatchesTriangle(a, b, c, k - 1);
    }
  }

  // ------------------------------------------------------------ misMatcher

  /** Distances from `cells[i]` to each later cell: one row of `combinations(cells, 2)`. */
  function PairRow(cells: seq<Option<string>>, i: nat): (row: seq<nat>)
    requires i < |cells|
    ensures |row| == |cells| - i - 1
    ensures forall k :: 0 <= k < |row| ==> row[k] == Distance(cells[i], cells[i + 1 + k])
  {
    var row := seq<nat>(|cells| - i - 1, k requires 0 <= k < |cells| - i - 1 => Distance(cells[i], cells[i + 1 + k]));
    row
  }

  /** The distances of the pairs whose first element is among the first `n` cells, in `combinations` order. */
  function Pairwise(cells: seq<Option<string>>, n: nat): seq<nat>
    requires n <= |cells|
  {
    if n == 0 then [] else Pairwise(cells, n - 1) + PairRow(cells, n - 1)
  }

  /** The `hammings` list: the distance of every pair `i < j`, in `combinations` order. */
  function AllPairs(cells: seq<Option<string>>): seq<nat>
  {
    Pairwise(cells, |cells|)
  }

  lemma {:induction false} PairwiseHas(cells: seq<Option<string>>, n: nat)
    requires n <= |cells|
    ensures forall i, j :: 0 <= i < n && i < j < |cells| ==> Distance(cells[i], cells[j]) in Pairwise(cells, n)
  {
    forall i, j | 0 <= i < n && i < j < |cells|
      ensures Distance(cells[i], cells[j]) in Pairwise(cells, n)
    {
      PairwiseHasPair(cells, n, i, j);
    }
  }

  /** The pair `(i, j)` is listed once its first cell is among the first `n`. */
  lemma {:induction false} PairwiseHasPair(cells: seq<Option<string>>, n: nat, i: nat, j: nat)
    requires i < n <= |cells| && i < j < |cells|
    ensures Distance(cells[i], cells[j]) in Pairwise(cells, n)
    decreases n
  {
    var before := Pairwise(cells, n - 1);
    var row := PairRow(cells, n - 1);
    assert Pairwise(cells, n) == before + row;
    if i == n - 1 {
      assert row[j - i - 1] == Distance(cells[i], cells[j]);
      assert (before + row)[|before| + (j - i - 1)] == row[j - i - 1];
    } else {
      PairwiseHasPair(cells, n - 1, i, j);
    }
  }

  lemma {:induction false} PairwiseOnly(cells: seq<Option<string>>, n: nat)
    requires n <= |cells|
    ensures forall x :: x in Pairwise(cells, n) ==>
      exists i, j :: 0 <= i < j < |cells| && x == Distance(cells[i], cells[j])
  {
    if n > 0 {
      PairwiseOnly(cells, n - 1);
      var row := PairRow(cells, n - 1);
      forall x | x in Pairwise(cells, n)
        ensures exists i, j :: 0 <= i < j < |cells| && x == Distance(cells[i], cells[j])
      {
        if x !in Pairwise(cells, n - 1) {
          var k :| 0 <= k < |row| && row[k] == x;
          assert x == Distance(cells[n - 1], cells[n + k]);
        }
      }
    }
  }

  lemma {:induction false} PairwiseEmpty(cells: seq<Option<string>>, n: nat)
    requires n <= |cells|
    ensures |Pairwise(cells, n)| == 0 <==> n == 0 || |cells| <= 1
  {
    if n > 0 {
      PairwiseEmpty(cells, n - 1);
      if |cells| > 1 && n == 1 {
        assert |PairRow(cells, 0)| > 0;
      }
    }
  }

  /** Python `min` of a non-empty list. */
  function SeqMin(s: seq<nat>): (m: nat)
    requires |s| > 0
    ensures m in s
    ensures forall k :: 0 <= k < |s| ==> m <= s[k]
  {
    if |s| == 1 then s[0]
    else
      var rest := SeqMin(s[1..]);
      if s[0] <= rest then s[0] else rest
  }

  /** `not P5s.empty and not P5s.isnull().all()`: some index2 cell is present. */
  predicate AnyPresent(cells: seq<Option<string>>)
  {
    exists i :: 0 <= i < |cells| && cells[i].Some?
  }

  const EmptyMin := "ValueError: min() arg is an empty sequence"

  /**
   * What `misMatcher` returns for the index series `P7s` and the index2
   * series `P5s` (empty when the sheet has no index2 column).
   */
  function MisMatch(p7s: seq<Option<string>>, p5s: seq<Option<string>>): Result<Mismatch>
  {
    var h7 := AllPairs(p7s);
    if |h7| == 0 then Err(EmptyMin)
    else if !AnyPresent(p5s) then Ok(Mismatch(Hamming2Mismatch(SeqMin(h7)), None))
    else
      var h5 := AllPairs(p5s);
      if |h5| == 0 then Err(EmptyMin)
      else Ok(Mismatch(Hamming2Mismatch(SeqMin(h7)), Some(Hamming2Mismatch(SeqMin(h5)))))
  }

  /** The `hammings` loop over `combinations(cells, 2)`. */
  method PairDistances(cells: seq<Option<string>>) returns (hammings: seq<nat>)
    ensures hammings == AllPairs(cells)
  {
    hammings := [];
    var i := 0;
    while i < |cells|
      invariant 0 <= i <= |cells|
      invariant hammings == Pairwise(cells, i)
    {
      var j := i + 1;
      while j < |cells|
        invariant i + 1 <= j <= |cells|
        invariant hammings == Pairwise(cells, i) + PairRow(cells, i)[..j - i - 1]
      {
        var d := Hamming(cells[i], cells[j]);
        assert PairRow(cells, i)[..j - i] == PairRow(cells, i)[..j - i - 1] + [d];
        hammings := hammings + [d];
        j := j + 1;
      }
      assert PairRow(cells, i)[..j - i - 1] == PairRow(cells, i);
      i := i + 1;
    }
  }

  /** `misMatcher`. */
  method MisMatcher(p7s: seq<Option<string>>, p5s: seq<Option<string>>) returns (r: Result<Mismatch>)
    ensures r == MisMatch(p7s, p5s)
  {
    var hammings := PairDistances(p7s);
    if |hammings| == 0 {
      return Err(EmptyMin);
    }
    var index1 := Hamming2Mismatch(SeqMin(hammings));
    if !AnyPresent(p5s) {
      return Ok(Mismatch(index1, None));
    }
    hammings := PairDistances(p5s);
    if |hammings| == 0 {
      return Err(EmptyMin);
    }
    r := Ok(Mismatch(index1, Some(Hamming2Mismatch(SeqMin(hammings)))));
  }

  /** Every pair of barcodes is at least `d` apart, and some pair is exactly `d` apart. */
  ghost predicate MinimalDistance(cells: seq<Option<string>>, d: nat)
  {
    (exists i, j :: 0 <= i < j < |cells| && Distance(cells[i], cells[j]) == d)
    && forall i, j :: 0 <= i < j < |cells| ==> d <= Distance(cells[i], cells[j])
  }

  lemma AllPairsMin(cells: seq<Option<string>>)
    requires |AllPairs(cells)| > 0
    ensures MinimalDistance(cells, SeqMin(AllPairs(cells)))
  {
    PairwiseHas(cells, |cells|);
    PairwiseOnly(cells, |cells|);
    var m := SeqMin(AllPairs(cells));
    forall i, j | 0 <= i < j < |cells|
      ensures m <= Distance(cells[i], cells[j])
    {
      var x := Distance(cells[i], cells[j]);
      var k :| 0 <= k < |AllPairs(cells)| && AllPairs(cells)[k] == x;
    }
  }

  /**
   * `misMatcher` always sets the index-1 tolerance and sets the index-2
   * tolerance exactly when an index2 cell is present; it fails (an empty
   * `min`) when a series it looks at has fewer than two entries. Each
   * tolerance is the one for the smallest pairwise distance.
   */
  lemma MisMatchKeys(p7s: seq<Option<string>>, p5s: seq<Option<string>>)
    ensures MisMatch(p7s, p5s).Ok? <==> |p7s| >= 2 && (!AnyPresent(p5s) || |p5s| >= 2)
    ensures MisMatch(p7s, p5s).Ok? ==>
      (MisMatch(p7s, p5s).value.index2.Some? <==> AnyPresent(p5s))
    ensures MisMatch(p7s, p5s).Ok? ==>
      exists d: nat :: MinimalDistance(p7s, d) && MisMatch(p7s, p5s).value.index1 == Hamming2Mismatch(d)
    ensures MisMatch(p7s, p5s).Ok? && AnyPresent(p5s) ==>
      exists d: nat :: MinimalDistance(p5s, d) && MisMatch(p7s, p5s).value.index2 == Some(Hamming2Mismatch(d))
  {
    PairwiseEmpty(p7s, |p7s|);
    PairwiseEmpty(p5s, |p5s|);
    if |AllPairs(p7s)| > 0 {
      AllPairsMin(p7s);
    }
    if |AllPairs(p5s)| > 0 {
      AllPairsMin(p5s);
    }
  }

  /**
   * When no two index barcodes are at distance 0, the index-1 tolerance
   * separates every pair of samples: `2 * t` is below each pair's distance.
   */
  lemma MisMatchSeparates(p7s: seq<Option<string>>, p5s: seq<Option<string>>)
    requires MisMatch(p7s, p5s).Ok?
    requires forall i, j :: 0 <= i < j < |p7s| ==> Distance(p7s[i], p7s[j]) > 0
    ensures forall i, j :: 0 <= i < j < |p7s| ==>
      2 * MisMatch(p7s, p5s).value.index1 < Distance(p7s[i], p7s[j])
  {
    AllPairsMin(p7s);
    var m := SeqMin(AllPairs(p7s));
    var i0, j0 :| 0 <= i0 < j0 < |p7s| && Distance(p7s[i0], p7s[j0]) == m;
    ToleranceSeparates(m);
    forall i, j | 0 <= i < j < |p7s|
      ensures 2 * MisMatch(p7s, p5s).value.index1 < Distance(p7s[i], p7s[j])
    {
    }
  }

  // --------------------------------------------------------------- detMask

  /**
   * `series.str.len().min()`: the shortest present cell's length, `None`
   * for NaN (no cell present).
   */
  function MinLength(cells: seq<Option<string>>): (r: Option<nat>)
    ensures r.None? <==> forall i :: 0 <= i < |cells| ==> cells[i].None?
    ensures r.Some? ==> exists i :: 0 <= i < |cells| && cells[i].Some? && |cells[i].value| == r.value
    ensures r.Some? ==> forall i :: 0 <= i < |cells| && cells[i].Some? ==> r.value <= |cells[i].value|
    decreases |cells|
  {
    if |cells| == 0 then None
    else
      var rest := MinLength(cells[1..]);
      assert forall i :: 1 <= i < |cells| ==> cells[i] == cells[1..][i - 1];
      match cells[0]
      case None => rest
      case Some(c) => if rest.Some? && rest.value < |c| then rest else Some(|c|)
  }

  /** What `detMask` returns: mask, dualIx, PE, convertOpts, minP5, minP7 (`None` for None and NaN). */
  datatype MaskInfo = MaskInfo(
    mask: string,
    dualIx: bool,
    pe: bool,
    convertOpts: seq<string>,
    minP5: Option<nat>,
    minP7: Option<nat>)

  const NugenKit := "NuGEN Ovation SoLo RNA-Seq System"
  const ScAtacKit := "scATAC-Seq 10xGenomics"
  const UmiOpts := ["CreateFastQForIndexReads,1,,", "TrimUMI,0,,"]

  /** `any(df['indexType'].dropna().str.contains(NugenKit))`. */
  predicate IsNugen(rows: seq<Row>)
  {
    exists i :: 0 <= i < |rows| && rows[i].indexType.Some? && Contains(rows[i].indexType.value, NugenKit)
  }

  /** `any(df['Description'].dropna().str.contains(ScAtacKit))`. */
  predicate IsScAtac(rows: seq<Row>)
  {
    exists i :: 0 <= i < |rows| && rows[i].description.Some? && Contains(rows[i].description.value, ScAtacKit)
  }

  /**
   * `"N{}".format(n)` and `"U{}".format(n)`: skip `n` cycles, or read them
   * as a UMI; the token reads back as that single segment.
   */
  function CycleToken(op: char, n: nat): (t: string)
    requires op == 'N' || op == 'U'
    ensures ParseSegments(t) == Some([Segment(op, n)])
  {
    var t := [op] + NatToString(n);
    assert t == RenderSegment(Segment(op, n));
    assert Render([Segment(op, n)]) == RenderSegment(Segment(op, n)) + Render([]);
    assert t == Render([Segment(op, n)]);
    ParseRender([Segment(op, n)]);
    t
  }

  /** The segments of the NuGEN index-1 token for a present minimum. */
  function NugenSegments(recipeP7: nat, m: nat): seq<Segment>
  {
    [Segment('I', m)] + (if recipeP7 > m then [Segment('U', recipeP7 - m)] else [])
  }

  /**
   * The NuGEN index-1 token: `I<minP7>U<rest>` when cycles remain after the
   * shortest index, else `I<minP7>`; a NaN minimum prints as "nan".
   */
  function NugenIndexToken(recipeP7: nat, minP7: Option<nat>): (t: string)
    ensures minP7.Some? ==> ParseSegments(t) == Some(NugenSegments(recipeP7, minP7.value))
  {
    match minP7
    case None => "Inan"
    case Some(m) =>
      var t :=
        if recipeP7 - m > 0 then "I" + NatToString(m) + "U" + NatToString(recipeP7 - m)
        else "I" + NatToString(m);
      var segs := NugenSegments(recipeP7, m);
      assert Render(segs) == RenderSegment(segs[0]) + Render(segs[1..]);
      assert recipeP7 > m ==> Render(segs[1..]) == RenderSegment(segs[1]) + Render([]);
      assert t == Render(segs);
      ParseRender(segs);
      t
  }

  /** With the shortest index within the sequenced cycles, barcode and UMI cover the whole index read. */
  lemma NugenSegmentsCover(recipeP7: nat, m: nat)
    requires m <= recipeP7
    ensures Cycles(NugenSegments(recipeP7, m)) == recipeP7
  {
    var segs := NugenSegments(recipeP7, m);
    assert Cycles(segs) == m + Cycles(segs[1..]);
    if recipeP7 > m {
      assert Cycles(segs[1..]) == recipeP7 - m + Cycles([]);
    }
  }

  const NaNToInt := "ValueError: cannot convert float NaN to integer"

  /** The Read2 token, present on paired-end runs. */
  function Read2Tokens(recipe: SeqRecipe): seq<string>
  {
    match Lookup(recipe, "Read2")
    case None => []
    case Some(r2) => [ReadToken(r2)]
  }

  /** The NuGEN Ovation SoLo branch: index 1 is barcode plus UMI; dualIx is whether an index2 column exists. */
  function NugenMask(recipe: SeqRecipe, r1: ReadSpec, recipeP7: nat, minP7: Option<nat>, index2Col: bool, minP5: Option<nat>): Result<MaskInfo>
  {
    var p5 := Lookup(recipe, "Index2");
    if index2Col && p5.None? then Err("UnboundLocalError: recipeP5")
    else if index2Col && minP5.None? then Err(NaNToInt)
    else
      var t5 := if index2Col then [LenMask(p5.value.cycles, minP5.value, false)] else [];
      var tokens := [ReadToken(r1), NugenIndexToken(recipeP7, minP7)] + t5 + Read2Tokens(recipe);
      Ok(MaskInfo(Join(tokens, ";"), index2Col, Lookup(recipe, "Read2").Some?, UmiOpts, None, None))
  }

  /** The scATAC branch: index 2 is read as a UMI whatever the sheet says, and dualIx is cleared. */
  function ScAtacMask(recipe: SeqRecipe, r1: ReadSpec, recipeP7: nat, minP7: Option<nat>): Result<MaskInfo>
  {
    if minP7.None? then Err(NaNToInt)
    else
      var p5 := Lookup(recipe, "Index2");
      var t5 := if p5.Some? then [CycleToken('U', p5.value.cycles)] else [];
      var tokens := [ReadToken(r1), LenMask(recipeP7, minP7.value, false)] + t5 + Read2Tokens(recipe);
      Ok(MaskInfo(Join(tokens, ";"), false, Lookup(recipe, "Read2").Some?, UmiOpts, None, None))
  }

  /**
   * The general branch: index 2 is masked to the shortest index2 when the
   * sheet is dual-indexed, and skipped when it was sequenced but unused.
   */
  function GeneralMask(recipe: SeqRecipe, r1: ReadSpec, recipeP7: nat, minP7: Option<nat>, index2Col: bool, minP5: Option<nat>): Result<MaskInfo>
  {
    if minP7.None? then Err(NaNToInt)
    else
      var dualIx := index2Col && minP5.Some?;
      var p5 := Lookup(recipe, "Index2");
      if dualIx && p5.None? then Err("UnboundLocalError: recipeP5")
      else
        var t5 :=
          if dualIx then [LenMask(p5.value.cycles, minP5.value, false)]
          else if p5.Some? then [CycleToken('N', p5.value.cycles)]
          else [];
        var tokens := [ReadToken(r1), LenMask(recipeP7, minP7.value, false)] + t5 + Read2Tokens(recipe);
        Ok(MaskInfo(Join(tokens, ";"), dualIx, Lookup(recipe, "Read2").Some?, [], minP5, minP7))
  }

  /**
   * `detMask(seqRecipe, sampleSheetDF, outputFolder)`. A sheet without an
   * indexType column makes `detMask` return None, which its caller fails to
   * unpack; missing keys and columns are the KeyErrors Python raises.
   */
  function DetMask(recipe: SeqRecipe, sheet: Sheet): Result<MaskInfo>
  {
    if !sheet.cols.index then Err("KeyError: index")
    else
      var minP7 := MinLength(IndexCells(sheet.rows));
      match Lookup(recipe, "Index1")
      case None => Err("KeyError: Index1")
      case Some(ix1) =>
        var minP5 := if sheet.cols.index2 then MinLength(Index2Cells(sheet.rows)) else None;
        if !sheet.cols.indexType then Err("TypeError: cannot unpack non-iterable NoneType object")
        else if !IsNugen(sheet.rows) && !sheet.cols.description then Err("KeyError: Description")
        else
          match Lookup(recipe, "Read1")
          case None => Err("KeyError: Read1")
          case Some(r1) =>
            if IsNugen(sheet.rows) then NugenMask(recipe, r1, ix1.cycles, minP7, sheet.cols.index2, minP5)
            else if IsScAtac(sheet.rows) then ScAtacMask(recipe, r1, ix1.cycles, minP7)
            else GeneralMask(recipe, r1, ix1.cycles, minP7, sheet.cols.index2, minP5)
  }

  const LenMaskArity := "TypeError: lenMask() missing 1 required positional argument: 'aviti'"

  /**
   * `detMask` as written: `lenMask(recipe, minl)` is called with two of its
   * three arguments, so every branch that builds a barcode token with it
   * raises the TypeError: the scATAC and general branches always, and the
   * NuGEN branch when an index2 column exists (after `recipeP5` is looked up).
   * Only a NuGEN sheet without index2 gets a mask, the one `DetMask` gives.
   */
  function DetMaskAsWritten(recipe: SeqRecipe, sheet: Sheet): (r: Result<MaskInfo>)
    ensures r.Ok? ==> IsNugen(sheet.rows) && !sheet.cols.index2 && r == DetMask(recipe, sheet)
  {
    if !sheet.cols.index then Err("KeyError: index")
    else
      match Lookup(recipe, "Index1")
      case None => Err("KeyError: Index1")
      case Some(ix1) =>
        if !sheet.cols.indexType then Err("TypeError: cannot unpack non-iterable NoneType object")
        else if !IsNugen(sheet.rows) && !sheet.cols.description then Err("KeyError: Description")
        else
          match Lookup(recipe, "Read1")
          case None => Err("KeyError: Read1")
          case Some(r1) =>
            if IsNugen(sheet.rows) then
              if !sheet.cols.index2 then NugenMask(recipe, r1, ix1.cycles, MinLength(IndexCells(sheet.rows)), false, None)
              else if Lookup(recipe, "Index2").None? then Err("UnboundLocalError: recipeP5")
              else Err(LenMaskArity)
            else Err(LenMaskArity)
  }

  /**
   * Wherever the corrected `detMask` would build a mask with `lenMask`, the
   * code as written raises the TypeError instead: a sheet that reaches the
   * branch choice gets a mask exactly when it is NuGEN without index2.
   */
  lemma DetMaskLenMaskRaises(recipe: SeqRecipe, sheet: Sheet)
    requires sheet.cols.index && sheet.cols.indexType
    requires Lookup(recipe, "Index1").Some? && Lookup(recipe, "Read1").Some?
    requires IsNugen(sheet.rows) || sheet.cols.description
    ensures DetMaskAsWritten(recipe, sheet).Ok? <==> IsNugen(sheet.rows) && !sheet.cols.index2
    ensures !IsNugen(sheet.rows) ==> DetMaskAsWritten(recipe, sheet) == Err(LenMaskArity)
    ensures IsNugen(sheet.rows) && sheet.cols.index2 && Lookup(recipe, "Index2").Some? ==>
              DetMaskAsWritten(recipe, sheet) == Err(LenMaskArity)
  {
  }

  /** Some index2 cell of the sheet is present. */
  predicate HasIndex2(sheet: Sheet)
  {
    sheet.cols.index2 && AnyPresent(Index2Cells(sheet.rows))
  }

  /**
   * What `detMask` promises besides the mask: PE is whether Read2 was
   * sequenced; dualIx is the index2 column's existence for NuGEN, false for
   * scATAC and "some index2 present" otherwise; the UMI options go with the
   * two special kits only; the minimum lengths come back in the general case.
   */
  lemma DetMaskFlags(recipe: SeqRecipe, sheet: Sheet)
    requires DetMask(recipe, sheet).Ok?
    ensures var m := DetMask(recipe, sheet).value;
      && m.pe == Lookup(recipe, "Read2").Some?
      && (IsNugen(sheet.rows) ==> m.dualIx == sheet.cols.index2 && m.convertOpts == UmiOpts && m.minP5.None? && m.minP7.None?)
      && (!IsNugen(sheet.rows) && IsScAtac(sheet.rows) ==> !m.dualIx && m.convertOpts == UmiOpts && m.minP5.None? && m.minP7.None?)
      && (!IsNugen(sheet.rows) && !IsScAtac(sheet.rows) ==>
            (m.dualIx <==> HasIndex2(sheet)) && m.convertOpts == []
            && m.minP7 == MinLength(IndexCells(sheet.rows)) && m.minP7.Some?
            && m.minP5 == (if sheet.cols.index2 then MinLength(Index2Cells(sheet.rows)) else None))
  {
  }

  /** `detMask` fails without an index column, an Index1 read, an indexType column or a Read1 read. */
  lemma DetMaskNeeds(recipe: SeqRecipe, sheet: Sheet)
    requires DetMask(recipe, sheet).Ok?
    ensures sheet.cols.index && sheet.cols.indexType
    ensures Lookup(recipe, "Index1").Some? && Lookup(recipe, "Read1").Some?
    ensures !IsNugen(sheet.rows) ==> sheet.cols.description
  {
  }

  /** Outside NuGEN a sheet without Description fails on that column, whatever the recipe's Read1. */
  lemma DetMaskDescriptionFirst(recipe: SeqRecipe, sheet: Sheet)
    requires sheet.cols.index && sheet.cols.indexType && Lookup(recipe, "Index1").Some?
    requires !IsNugen(sheet.rows) && !sheet.cols.description
    ensures DetMask(recipe, sheet) == Err("KeyError: Description")
  {
  }

  /** The shortest barcodes fit in the sequenced index reads. */
  predicate IndexLengthsFit(recipe: SeqRecipe, sheet: Sheet)
  {
    var minP7 := MinLength(IndexCells(sheet.rows));
    var minP5 := MinLength(Index2Cells(sheet.rows));
    && Lookup(recipe, "Index1").Some? && minP7.Some? && minP7.value <= Lookup(recipe, "Index1").value.cycles
    && (sheet.cols.index2 && minP5.Some? && Lookup(recipe, "Index2").Some? ==>
          minP5.value <= Lookup(recipe, "Index2").value.cycles)
  }

  lemma {:induction false} ParsedHasNoSemicolon(t: string, segs: seq<Segment>)
    requires ParseSegments(t) == Some(segs)
    requires forall i :: 0 <= i < |segs| ==> segs[i].op != ';'
    ensures ';' !in t
    decreases |t|
  {
    if t != [] {
      var k := DigitRun(t[1..]);
      assert !IsDigit(t[0]) && k > 0;
      assert t[1..1 + k] == t[1..][..k];
      var rest := ParseSegments(t[1 + k..]).value;
      assert segs == [Segment(t[0], DigitsValue(t[1..1 + k]))] + rest;
      assert segs[0].op == t[0];
      assert forall i :: 0 <= i < |rest| ==> rest[i] == segs[i + 1];
      ParsedHasNoSemicolon(t[1 + k..], rest);
      assert t == [t[0]] + t[1..1 + k] + t[1 + k..];
      assert AllDigits(t[1..1 + k]);
    }
  }

  /** The cycles a token consumes, if it parses to segments none of whose operations is ';'. */
  function TokenCycle(t: string): Option<nat>
  {
    match ParseSegments(t)
    case None => None
    case Some(segs) =>
      if forall i :: 0 <= i < |segs| ==> segs[i].op != ';' then Some(Cycles(segs)) else None
  }

  predicate TokenOf(t: string, c: nat)
  {
    TokenCycle(t) == Some(c)
  }

  lemma {:induction false} MaskOfTokens(tokens: seq<string>, cs: seq<nat>)
    requires |tokens| > 0 && TokensOf(tokens, cs)
    ensures MaskCycles(Join(tokens, ";")) == Some(cs)
  {
    forall i | 0 <= i < |tokens|
      ensures ';' !in tokens[i]
    {
      assert TokenOf(tokens[i], cs[i]);
      ParsedHasNoSemicolon(tokens[i], ParseSegments(tokens[i]).value);
    }
    SplitJoin(tokens, ';');
    TokensCycles(tokens, cs);
  }

  lemma {:induction false} TokensCycles(tokens: seq<string>, cs: seq<nat>)
    requires TokensOf(tokens, cs)
    ensures TokenCycles(tokens) == Some(cs)
    decreases |tokens|
  {
    if |tokens| > 0 {
      TokensCycles(tokens[1..], cs[1..]);
      assert TokenOf(tokens[0], cs[0]);
      assert [cs[0]] + cs[1..] == cs;
    }
  }

  lemma SingleSegmentToken(t: string, op: char, n: nat)
    requires ParseSegments(t) == Some([Segment(op, n)]) && op != ';'
    ensures TokenOf(t, n)
  {
    assert Cycles([Segment(op, n)]) == n + Cycles([]);
  }

  lemma LenMaskToken(recipe: nat, minl: nat)
    requires minl <= recipe
    ensures TokenOf(LenMask(recipe, minl, false), recipe)
  {
    LenMaskCoversRecipe(recipe, minl, false);
    var segs := LenMaskSegments(recipe, minl, false);
    assert forall i :: 0 <= i < |segs| ==> segs[i].op != ';';
  }

  lemma ReadTokenOf(r: ReadSpec)
    ensures TokenOf(ReadToken(r), r.cycles)
  {
    SingleSegmentToken(ReadToken(r), if r.kind.Y? then 'Y' else 'I', r.cycles);
  }

  lemma NugenTokenOf(recipeP7: nat, m: nat)
    requires m <= recipeP7
    ensures TokenOf(NugenIndexToken(recipeP7, Some(m)), recipeP7)
  {
    NugenSegmentsCover(recipeP7, m);
    var segs := NugenSegments(recipeP7, m);
    assert forall i :: 0 <= i < |segs| ==> segs[i].op != ';';
  }

  /** Each token covers the corresponding cycle count. */
  predicate TokensOf(tokens: seq<string>, cs: seq<nat>)
  {
    |tokens| == |cs| && forall i :: 0 <= i < |tokens| ==> TokenOf(tokens[i], cs[i])
  }

  lemma TokensOfConcat(a: seq<string>, ca: seq<nat>, b: seq<string>, cb: seq<nat>)
    requires TokensOf(a, ca) && TokensOf(b, cb)
    ensures TokensOf(a + b, ca + cb)
  {
    forall i | 0 <= i < |a + b|
      ensures TokenOf((a + b)[i], (ca + cb)[i])
    {
      if i >= |a| {
        assert (a + b)[i] == b[i - |a|] && (ca + cb)[i] == cb[i - |a|];
      }
    }
  }

  /** The Read2 token covers Read2's cycles. */
  function Read2Cycles(recipe: SeqRecipe): (cs: seq<nat>)
    ensures TokensOf(Read2Tokens(recipe), cs)
  {
    match Lookup(recipe, "Read2")
    case None => []
    case Some(r2) =>
      ReadTokenOf(r2);
      [r2.cycles]
  }

  /** Tokens `[Read1, Index1] + index-2 part + Read2`, each known to cover its read. */
  lemma MaskFromParts(recipe: SeqRecipe, t1: string, c1: nat, t5: seq<string>, c5: seq<nat>)
    requires Lookup(recipe, "Read1").Some?
    requires TokenOf(t1, c1)
    requires TokensOf(t5, c5)
    ensures var r1 := Lookup(recipe, "Read1").value;
      MaskCycles(Join([ReadToken(r1), t1] + t5 + Read2Tokens(recipe), ";")) ==
        Some([r1.cycles, c1] + c5 + Read2Cycles(recipe))
  {
    var r1 := Lookup(recipe, "Read1").value;
    ReadTokenOf(r1);
    assert TokensOf([ReadToken(r1), t1], [r1.cycles, c1]);
    TokensOfConcat([ReadToken(r1), t1], [r1.cycles, c1], t5, c5);
    TokensOfConcat([ReadToken(r1), t1] + t5, [r1.cycles, c1] + c5, Read2Tokens(recipe), Read2Cycles(recipe));
    MaskOfTokens([ReadToken(r1), t1] + t5 + Read2Tokens(recipe), [r1.cycles, c1] + c5 + Read2Cycles(recipe));
  }

  /** The cycles of Read1, Index1, Index2 (when `withIndex2`) and Read2, in mask order. */
  function ExpectedCycles(recipe: SeqRecipe, withIndex2: bool): seq<nat>
    requires Lookup(recipe, "Read1").Some? && Lookup(recipe, "Index1").Some?
  {
    var i2 := Lookup(recipe, "Index2");
    [Lookup(recipe, "Read1").value.cycles, Lookup(recipe, "Index1").value.cycles]
    + (if withIndex2 && i2.Some? then [i2.value.cycles] else [])
    + Read2Cycles(recipe)
  }

  lemma NugenCovers(recipe: SeqRecipe, r1: ReadSpec, recipeP7: nat, minP7: Option<nat>, index2Col: bool, minP5: Option<nat>)
    requires Lookup(recipe, "Read1") == Some(r1) && Lookup(recipe, "Index1").Some?
    requires recipeP7 == Lookup(recipe, "Index1").value.cycles
    requires NugenMask(recipe, r1, recipeP7, minP7, index2Col, minP5).Ok?
    requires minP7.Some? && minP7.value <= recipeP7
    requires index2Col ==> minP5.value <= Lookup(recipe, "Index2").value.cycles
    ensures MaskCycles(NugenMask(recipe, r1, recipeP7, minP7, index2Col, minP5).value.mask) ==
      Some(ExpectedCycles(recipe, index2Col))
  {
    NugenTokenOf(recipeP7, minP7.value);
    var p5 := Lookup(recipe, "Index2");
    var t5 := if index2Col then [LenMask(p5.value.cycles, minP5.value, false)] else [];
    var c5: seq<nat> := if index2Col then [p5.value.cycles] else [];
    if index2Col {
      LenMaskToken(p5.value.cycles, minP5.value);
    }
    assert TokensOf(t5, c5);
    MaskFromParts(recipe, NugenIndexToken(recipeP7, minP7), recipeP7, t5, c5);
  }

  lemma ScAtacCovers(recipe: SeqRecipe, r1: ReadSpec, recipeP7: nat, minP7: Option<nat>)
    requires Lookup(recipe, "Read1") == Some(r1) && Lookup(recipe, "Index1").Some?
    requires recipeP7 == Lookup(recipe, "Index1").value.cycles
    requires ScAtacMask(recipe, r1, recipeP7, minP7).Ok?
    requires minP7.Some? && minP7.value <= recipeP7
    ensures MaskCycles(ScAtacMask(recipe, r1, recipeP7, minP7).value.mask) ==
      Some(ExpectedCycles(recipe, true))
  {
    LenMaskToken(recipeP7, minP7.value);
    var p5 := Lookup(recipe, "Index2");
    var t5 := if p5.Some? then [CycleToken('U', p5.value.cycles)] else [];
    var c5: seq<nat> := if p5.Some? then [p5.value.cycles] else [];
    if p5.Some? {
      SingleSegmentToken(t5[0], 'U', p5.value.cycles);
    }
    assert TokensOf(t5, c5);
    MaskFromParts(recipe, LenMask(recipeP7, minP7.value, false), recipeP7, t5, c5);
  }

  lemma GeneralCovers(recipe: SeqRecipe, r1: ReadSpec, recipeP7: nat, minP7: Option<nat>, index2Col: bool, minP5: Option<nat>)
    requires Lookup(recipe, "Read1") == Some(r1) && Lookup(recipe, "Index1").Some?
    requires recipeP7 == Lookup(recipe, "Index1").value.cycles
    requires GeneralMask(recipe, r1, recipeP7, minP7, index2Col, minP5).Ok?
    requires minP7.Some? && minP7.value <= recipeP7
    requires index2Col && minP5.Some? && Lookup(recipe, "Index2").Some? ==>
      minP5.value <= Lookup(recipe, "Index2").value.cycles
    ensures MaskCycles(GeneralMask(recipe, r1, recipeP7, minP7, index2Col, minP5).value.mask) ==
      Some(ExpectedCycles(recipe, true))
  {
    LenMaskToken(recipeP7, minP7.value);
    var dualIx := index2Col && minP5.Some?;
    var p5 := Lookup(recipe, "Index2");
    var t5 :=
      if dualIx then [LenMask(p5.value.cycles, minP5.value, false)]
      else if p5.Some? then [CycleToken('N', p5.value.cycles)]
      else [];
    var c5: seq<nat> := if p5.Some? then [p5.value.cycles] else [];
    if dualIx {
      LenMaskToken(p5.value.cycles, minP5.value);
    } else if p5.Some? {
      SingleSegmentToken(t5[0], 'N', p5.value.cycles);
    }
    assert TokensOf(t5, c5);
    MaskFromParts(recipe, LenMask(recipeP7, minP7.value, false), recipeP7, t5, c5);
  }

  /**
   * The mask accounts for every sequenced read with its full cycle count:
   * Read1, Index1, Index2 (except in a NuGEN sheet without an index2
   * column, whose mask leaves it out) and Read2, in that order, whenever the
   * shortest barcodes fit in the index reads.
   */
  lemma DetMaskCoversRecipe(recipe: SeqRecipe, sheet: Sheet)
    requires DetMask(recipe, sheet).Ok?
    requires IndexLengthsFit(recipe, sheet)
    ensures MaskCycles(DetMask(recipe, sheet).value.mask) ==
      Some(ExpectedCycles(recipe, !IsNugen(sheet.rows) || sheet.cols.index2))
  {
    var r1 := Lookup(recipe, "Read1").value;
    var recipeP7 := Lookup(recipe, "Index1").value.cycles;
    var minP7 := MinLength(IndexCells(sheet.rows));
    var minP5 := if sheet.cols.index2 then MinLength(Index2Cells(sheet.rows)) else None;
    if IsNugen(sheet.rows) {
      NugenCovers(recipe, r1, recipeP7, minP7, sheet.cols.index2, minP5);
    } else if IsScAtac(sheet.rows) {
      ScAtacCovers(recipe, r1, recipeP7, minP7);
    } else {
      GeneralCovers(recipe, r1, recipeP7, minP7, sheet.cols.index2, minP5);
    }
  }
}
