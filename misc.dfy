// src/dissectBCL/misc.py: barcode distance, mask tokens, name sanitising,
// report strings and the choice of the latest sequencing_data directory.
module Misc {
  import opened Wrappers
  import opened Text
  import opened Records
  import opened MaskSyntax

  // ---------------------------------------------------------------- hamming

  /** Differing positions among the first `k` characters of `a` and `b`. */
  function MismatchesUpTo(a: string, b: string, k: nat): nat
    requires k <= |a| && k <= |b|
  {
    if k == 0 then 0 else MismatchesUpTo(a, b, k - 1) + (if a[k - 1] != b[k - 1] then 1 else 0)
  }

  function Min(x: nat, y: nat): nat { if x <= y then x else y }

  /**
   * The distance `hamming` computes: 0 when either barcode is missing
   * (NaN or None), otherwise the differing positions over the shorter length.
   */
  function Distance(s1: Option<string>, s2: Option<string>): nat
  {
    if s1.None? || s2.None? then 0
    else MismatchesUpTo(s1.value, s2.value, Min(|s1.value|, |s2.value|))
  }

  /** `hamming`: counts differing positions in a loop. */
  method Hamming(s1: Option<string>, s2: Option<string>) returns (dist: nat)
    ensures dist == Distance(s1, s2)
  {
    if s1.None? || s2.None? {
      return 0;
    }
    var a, b := s1.value, s2.value;
    var n := Min(|a|, |b|);
    dist := 0;
    var step := 0;
    while step < n
      invariant step <= n
      invariant dist == MismatchesUpTo(a, b, step)
    {
      if a[step] != b[step] {
        dist := dist + 1;
      }
      step := step + 1;
    }
  }

  lemma {:induction false} MismatchesSymmetric(a: string, b: string, k: nat)
    requires k <= |a| && k <= |b|
    ensures MismatchesUpTo(a, b, k) == MismatchesUpTo(b, a, k)
  {
    if k > 0 {
      MismatchesSymmetric(a, b, k - 1);
    }
  }

  lemma {:induction false} MismatchesBounded(a: string, b: string, k: nat)
    requires k <= |a| && k <= |b|
    ensures MismatchesUpTo(a, b, k) <= k
  {
    if k > 0 {
      MismatchesBounded(a, b, k - 1);
    }
  }

  lemma {:induction false} MismatchesZero(a: string, b: string, k: nat)
    requires k <= |a| && k <= |b|
    ensures MismatchesUpTo(a, b, k) == 0 <==> a[..k] == b[..k]
  {
    if k > 0 {
      MismatchesZero(a, b, k - 1);
      assert a[..k] == a[..k - 1] + [a[k - 1]];
      assert b[..k] == b[..k - 1] + [b[k - 1]];
      if a[..k] == b[..k] {
        assert a[..k][..k - 1] == a[..k - 1];
        assert b[..k][..k - 1] == b[..k - 1];
      }
    }
  }

  /** `hamming` is symmetric and never exceeds the shorter barcode's length. */
  lemma DistanceSymmetricBounded(s1: Option<string>, s2: Option<string>)
    ensures Distance(s1, s2) == Distance(s2, s1)
    ensures s1.Some? && s2.Some? ==> Distance(s1, s2) <= Min(|s1.value|, |s2.value|)
  {
    if s1.Some? && s2.Some? {
      var n := Min(|s1.value|, |s2.value|);
      assert Min(|s2.value|, |s1.value|) == n;
      MismatchesSymmetric(s1.value, s2.value, n);
      MismatchesBounded(s1.value, s2.value, n);
    }
  }

  /** Two present barcodes are at distance 0 exactly when one is a prefix of the other. */
  lemma DistanceZeroIff(a: string, b: string)
    ensures Distance(Some(a), Some(b)) == 0 <==> (a <= b || b <= a)
  {
    var n := Min(|a|, |b|);
    MismatchesZero(a, b, n);
    if |a| <= |b| {
      assert a[..n] == a;
    } else {
      assert b[..n] == b;
    }
  }

  // ---------------------------------------------------------------- joinLis

  /** A list element `joinLis` renders with `str`: an int or a string. */
  datatype PyValue = PyInt(i: int) | PyStr(s: string)

  function Str(v: PyValue): string
  {
    match v
    case PyInt(i) => IntToString(i)
    case PyStr(s) => s
  }

  function Rendered(lis: seq<PyValue>): (r: seq<string>)
    ensures |r| == |lis|
  {
    seq(|lis|, i requires 0 <= i < |lis| => Str(lis[i]))
  }

  /** `joinLis`: the `str` of each element, joined with `joinStr`. */
  function JoinLis(lis: seq<PyValue>, joinStr: string): string
  {
    Join(Rendered(lis), joinStr)
  }

  /** Splitting a `joinLis` line on its one-character separator gives each element's `str` back. */
  lemma JoinLisSplit(lis: seq<PyValue>, c: char)
    requires |lis| > 0
    requires forall i :: 0 <= i < |lis| ==> c !in Str(lis[i])
    ensures Split(JoinLis(lis, [c]), c) == Rendered(lis)
  {
    SplitJoin(Rendered(lis), c);
  }

  /** `joinLis(seqRecipe[key])` for a read `[kind, cycles]`, e.g. "Y101". */
  function ReadToken(r: ReadSpec): (t: string)
    ensures ParseSegments(t) == Some([Segment(if r.kind.Y? then 'Y' else 'I', r.cycles)])
  {
    var t := JoinLis([PyStr(KindText(r.kind)), PyInt(r.cycles)], "");
    var segs := [Segment(if r.kind.Y? then 'Y' else 'I', r.cycles)];
    assert Rendered([PyStr(KindText(r.kind)), PyInt(r.cycles)]) == [KindText(r.kind), NatToString(r.cycles)];
    assert [KindText(r.kind), NatToString(r.cycles)] == [KindText(r.kind)] + [NatToString(r.cycles)];
    JoinCons(KindText(r.kind), [NatToString(r.cycles)], "");
    assert t == KindText(r.kind) + NatToString(r.cycles);
    assert Render(segs) == RenderSegment(segs[0]) + Render([]);
    assert t == Render(segs);
    ParseRender(segs);
    t
  }

  // ---------------------------------------------------------------- lenMask

  /** The segments `lenMask` stands for: the index (or read, on Aviti) part and the skipped rest. */
  function LenMaskSegments(recipe: nat, minl: nat, aviti: bool): seq<Segment>
  {
    [Segment(if aviti then 'Y' else 'I', minl)] + (if recipe > minl then [Segment('N', recipe - minl)] else [])
  }

  /**
   * `lenMask`: e.g. an 8bp index read over 10 cycles gives "I8N2"; a read
   * token "Y8N2" on Aviti.
   */
  function LenMask(recipe: nat, minl: nat, aviti: bool): (r: string)
    ensures ParseSegments(r) == Some(LenMaskSegments(recipe, minl, aviti))
    ensures ';' !in r
  {
    var r :=
      if recipe - minl > 0 then
        (if aviti then "Y" else "I") + NatToString(minl) + "N" + NatToString(recipe - minl)
      else
        (if aviti then "Y" else "I") + NatToString(minl);
    var segs := LenMaskSegments(recipe, minl, aviti);
    assert Render(segs) == RenderSegment(segs[0]) + Render(segs[1..]);
    assert recipe > minl ==> Render(segs[1..]) == RenderSegment(segs[1]) + Render([]);
    assert r == Render(segs);
    ParseRender(segs);
    RenderHasNoSemicolon(segs);
    r
  }

  /** The index and skip lengths of a `lenMask` token add up to the sequenced cycles. */
  lemma LenMaskCoversRecipe(recipe: nat, minl: nat, aviti: bool)
    requires minl <= recipe
    ensures Cycles(LenMaskSegments(recipe, minl, aviti)) == recipe
  {
    var segs := LenMaskSegments(recipe, minl, aviti);
    assert Cycles(segs) == minl + Cycles(segs[1..]);
    if recipe > minl {
      assert Cycles(segs[1..]) == recipe - minl + Cycles([]);
    }
  }

  // ------------------------------------------------------- umlautDestroyer

  /** The replacements `umlautDestroyer` applies, in order, before removing spaces. */
  const Umlauts: seq<(char, string)> := [
    ('ü', "u"), ('é', "e"), ('è', "e"), ('á', "a"), ('à', "a"), ('Ü', "U"),
    ('ä', "a"), ('Ä', "A"), ('ö', "o"), ('Ö', "O"), ('ß', "ss"), ('\'', "")]

  function ReplaceEach(s: string, steps: seq<(char, string)>): string
    decreases |steps|
  {
    if |steps| == 0 then s else ReplaceEach(ReplaceAll(s, [steps[0].0], steps[0].1), steps[1..])
  }

  /** No replacement text brings back a character some step replaces. */
  predicate Settled(steps: seq<(char, string)>)
  {
    forall k, m :: 0 <= k < |steps| && 0 <= m < |steps| ==> steps[m].0 !in steps[k].1
  }

  lemma {:induction false} ReplaceEachKeepsAbsent(s: string, steps: seq<(char, string)>, q: char)
    requires q !in s
    requires forall k :: 0 <= k < |steps| ==> q !in steps[k].1
    ensures q !in ReplaceEach(s, steps)
    decreases |steps|
  {
    if |steps| > 0 {
      ReplaceCharKeepsAbsent(s, steps[0].0, steps[0].1, q);
      ReplaceEachKeepsAbsent(ReplaceAll(s, [steps[0].0], steps[0].1), steps[1..], q);
    }
  }

  lemma {:induction false} ReplaceEachRemoves(s: string, steps: seq<(char, string)>)
    requires Settled(steps)
    ensures forall k :: 0 <= k < |steps| ==> steps[k].0 !in ReplaceEach(s, steps)
    decreases |steps|
  {
    if |steps| > 0 {
      var s1 := ReplaceAll(s, [steps[0].0], steps[0].1);
      ReplaceCharRemoves(s, steps[0].0, steps[0].1);
      ReplaceEachKeepsAbsent(s1, steps[1..], steps[0].0);
      ReplaceEachRemoves(s1, steps[1..]);
    }
  }

  lemma {:induction false} ReplaceEachIdentity(s: string, steps: seq<(char, string)>)
    requires forall k :: 0 <= k < |steps| ==> steps[k].0 !in s
    ensures ReplaceEach(s, steps) == s
    decreases |steps|
  {
    if |steps| > 0 {
      ReplaceCharAbsent(s, steps[0].0, steps[0].1);
      ReplaceEachIdentity(s, steps[1..]);
    }
  }

  lemma UmlautsSettled()
    ensures Settled(Umlauts)
    ensures forall k :: 0 <= k < |Umlauts| ==> ' ' !in Umlauts[k].1 && Umlauts[k].0 != ' '
  {
  }

  /** `umlautDestroyer`: accented letters to ASCII, ß to ss, then apostrophes and spaces removed. */
  function UmlautDestroyer(germanWord: string): string
  {
    ReplaceAll(ReplaceEach(germanWord, Umlauts), " ", "")
  }

  /** The sanitised name has no space, no apostrophe and none of the replaced letters. */
  lemma UmlautDestroyerClean(germanWord: string)
    ensures ' ' !in UmlautDestroyer(germanWord)
    ensures forall k :: 0 <= k < |Umlauts| ==> Umlauts[k].0 !in UmlautDestroyer(germanWord)
    ensures '\'' !in UmlautDestroyer(germanWord)
  {
    UmlautsSettled();
    var s1 := ReplaceEach(germanWord, Umlauts);
    ReplaceEachRemoves(germanWord, Umlauts);
    ReplaceCharRemoves(s1, ' ', "");
    forall k | 0 <= k < |Umlauts| ensures Umlauts[k].0 !in UmlautDestroyer(germanWord) {
      ReplaceCharKeepsAbsent(s1, ' ', "", Umlauts[k].0);
    }
    assert Umlauts[11].0 == '\'';
  }

  /** Sanitising twice is sanitising once. */
  lemma UmlautDestroyerIdempotent(germanWord: string)
    ensures UmlautDestroyer(UmlautDestroyer(germanWord)) == UmlautDestroyer(germanWord)
  {
    var r := UmlautDestroyer(germanWord);
    UmlautDestroyerClean(germanWord);
    ReplaceEachIdentity(r, Umlauts);
    ReplaceCharAbsent(r, ' ', "");
  }

  // ------------------------------------------------------ report formatting

  function RecipeEntry(entry: (string, ReadSpec)): string
  {
    entry.0 + ":" + NatToString(entry.1.cycles)
  }

  function RecipeEntries(seqRecipe: SeqRecipe): (r: seq<string>)
    ensures |r| == |seqRecipe|
  {
    seq(|seqRecipe|, i requires 0 <= i < |seqRecipe| => RecipeEntry(seqRecipe[i]))
  }

  /** `formatSeqRecipe`: "Unknown" for an empty recipe, else "key:cycles" entries joined by "; ". */
  method FormatSeqRecipe(seqRecipe: SeqRecipe) returns (r: string)
    ensures |seqRecipe| == 0 ==> r == "Unknown"
    ensures |seqRecipe| > 0 ==> r == Join(RecipeEntries(seqRecipe), "; ")
  {
    if |seqRecipe| == 0 {
      return "Unknown";
    }
    var retStr := "";
    var i := 0;
    while i < |seqRecipe|
      invariant 0 <= i <= |seqRecipe|
      invariant i == 0 ==> retStr == ""
      invariant i > 0 ==> retStr == Join(RecipeEntries(seqRecipe)[..i], "; ") + "; "
    {
      var entries := RecipeEntries(seqRecipe);
      if i > 0 {
        JoinSnoc(entries[..i], entries[i], "; ");
      }
      assert entries[..i + 1] == entries[..i] + [entries[i]];
      retStr := retStr + RecipeEntry(seqRecipe[i]) + "; ";
      i := i + 1;
    }
    assert RecipeEntries(seqRecipe)[..i] == RecipeEntries(seqRecipe);
    r := DropLast2(retStr);
  }

  function MisMatchEntry(entry: (string, int)): string
  {
    entry.0 + ":" + IntToString(entry.1)
  }

  function MisMatchEntries(mmDic: seq<(string, int)>): (r: seq<string>)
    ensures |r| == |mmDic|
  {
    seq(|mmDic|, i requires 0 <= i < |mmDic| => MisMatchEntry(mmDic[i]))
  }

  /** `formatMisMatches`: "key:val" entries joined by ", ", and "" for an empty dict. */
  method FormatMisMatches(mmDic: seq<(string, int)>) returns (r: string)
    ensures r == Join(MisMatchEntries(mmDic), ", ")
  {
    var retStr := "";
    var i := 0;
    while i < |mmDic|
      invariant 0 <= i <= |mmDic|
      invariant i == 0 ==> retStr == ""
      invariant i > 0 ==> retStr == Join(MisMatchEntries(mmDic)[..i], ", ") + ", "
    {
      var entries := MisMatchEntries(mmDic);
      if i > 0 {
        JoinSnoc(entries[..i], entries[i], ", ");
      }
      assert entries[..i + 1] == entries[..i] + [entries[i]];
      retStr := retStr + MisMatchEntry(mmDic[i]) + ", ";
      i := i + 1;
    }
    assert MisMatchEntries(mmDic)[..i] == MisMatchEntries(mmDic);
    r := DropLast2(retStr);
  }

  /** Python `str` of a barcode cell: the text, or "nan" for a missing value. */
  function CellStr(c: Option<string>): string
  {
    if c.None? then "nan" else c.value
  }

  /**
   * `retBCstr` on one row (a pandas Series, here its index labels and
   * cells): the header "P7\tP5" or "P7", or the row's barcodes.
   * `Err` is the KeyError of a row with index2 but no index.
   */
  function RetBCstr(ser: map<string, Option<string>>, returnHeader: bool): Result<string>
  {
    if returnHeader then Ok(if "index2" in ser then "P7\tP5" else "P7")
    else if "index2" in ser then
      (if "index" in ser then Ok(Join([CellStr(ser["index"]), CellStr(ser["index2"])], "\t"))
       else Err("KeyError: index"))
    else if "index" in ser then Ok(CellStr(ser["index"]))
    else Ok("nan")
  }

  /**
   * The barcode string of a row lines up with the header of the same
   * row: as many tab-separated fields, holding the str of index (and index2).
   */
  lemma RetBCstrMatchesHeader(ser: map<string, Option<string>>)
    requires "index" in ser
    requires '\t' !in CellStr(ser["index"])
    requires "index2" in ser ==> '\t' !in CellStr(ser["index2"])
    ensures RetBCstr(ser, false).Ok? && RetBCstr(ser, true).Ok?
    ensures |Split(RetBCstr(ser, false).value, '\t')| == |Split(RetBCstr(ser, true).value, '\t')|
    ensures Split(RetBCstr(ser, false).value, '\t')
      == if "index2" in ser then [CellStr(ser["index"]), CellStr(ser["index2"])] else [CellStr(ser["index"])]
  {
    if "index2" in ser {
      SplitJoin([CellStr(ser["index"]), CellStr(ser["index2"])], '\t');
      SplitJoin(["P7", "P5"], '\t');
      assert Join(["P7", "P5"], "\t") == "P7\tP5";
    } else {
      SplitWithoutSeparator(CellStr(ser["index"]), '\t');
      SplitWithoutSeparator("P7", '\t');
    }
  }

  // ------------------------------------------------------- fetchLatestSeqDir

  /** A directory name with 'sequencing_data' removed: what `int` is applied to. */
  function SeqDirSuffix(name: string): string
  {
    ReplaceAll(name, "sequencing_data", "")
  }

  /** A directory the loop looks at and whose remainder it parses. */
  predicate Numbered(name: string, seqDir: string)
  {
    Contains(name, seqDir) && SeqDirSuffix(name) != ""
  }

  function SeqDirName(n: nat): string
  {
    if n == 0 then "sequencing_data" else "sequencing_data" + NatToString(n)
  }

  /**
   * `fetchLatestSeqDir` over the names found in the PI directory: the
   * largest number after 'sequencing_data', or plain 'sequencing_data';
   * `Err` is the ValueError of a remainder that is not an integer.
   */
  method FetchLatestSeqDir(names: seq<string>, seqDir: string) returns (r: Result<string>)
    ensures r.Err? <==>
      exists i :: 0 <= i < |names| && Numbered(names[i], seqDir) && ParseInt(SeqDirSuffix(names[i])).None?
    ensures r.Ok? ==> exists n: nat ::
      r.value == SeqDirName(n)
      && (forall i :: 0 <= i < |names| && Numbered(names[i], seqDir) ==> ParseInt(SeqDirSuffix(names[i])).value <= n)
      && (n == 0 || exists i :: 0 <= i < |names| && Numbered(names[i], seqDir) && ParseInt(SeqDirSuffix(names[i])) == Some(n))
  {
    var seqDirNum: nat := 0;
    var k := 0;
    while k < |names|
      invariant 0 <= k <= |names|
      invariant forall i :: 0 <= i < k && Numbered(names[i], seqDir) ==> ParseInt(SeqDirSuffix(names[i])).Some?
      invariant forall i :: 0 <= i < k && Numbered(names[i], seqDir) ==> ParseInt(SeqDirSuffix(names[i])).value <= seqDirNum
      invariant seqDirNum == 0 || exists i :: 0 <= i < k && Numbered(names[i], seqDir) && ParseInt(SeqDirSuffix(names[i])) == Some(seqDirNum)
    {
      if Contains(names[k], seqDir) {
        var seqDirStrip := ReplaceAll(names[k], "sequencing_data", "");
        if seqDirStrip != "" {
          var parsed := ParseInt(seqDirStrip);
          if parsed.None? {
            return Err("ValueError: invalid literal for int()");
          }
          if parsed.value > seqDirNum {
            seqDirNum := parsed.value;
          }
        }
      }
      k := k + 1;
    }
    r := Ok(SeqDirName(seqDirNum));
  }
}
