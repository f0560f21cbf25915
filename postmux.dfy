// src/dissectBCL/postmux.py: naming the fastq files after the samples
// (`matchIDtoName`, `renamefq`, `renameProject`), the fastq ending check
// (`validateFqEnds`), the worker-pool arithmetic and batch verdicts of
// `qcs`/`clumper`/`kraken`, the md5 listing and `moveOptDup`.
module Postmux {
  import opened Wrappers
  import opened Text
  import RunDir

  const ExitOne := "SystemExit: 1"

  // ---------------------------------------------------------- matchIDtoName

  /** The two sample sheet columns `matchIDtoName` reads: Sample_ID and Sample_Name (NaN as None). */
  datatype NameRow = NameRow(sampleId: string, sampleName: Option<string>)

  /** The misspelt `logging.cricital` raises before the intended exit. */
  const NoCricital := "AttributeError: module 'logging' has no attribute 'cricital'"

  /** The positions from `from` on whose Sample_ID is `id`, in sheet order. */
  function Positions(rows: seq<NameRow>, id: string, from: nat): (p: seq<nat>)
    requires from <= |rows|
    ensures forall k :: 0 <= k < |p| ==> from <= p[k] < |rows| && rows[p[k]].sampleId == id
    ensures forall i :: from <= i < |rows| && rows[i].sampleId == id ==> i in p
    ensures forall k, l :: 0 <= k < l < |p| ==> p[k] < p[l]
    decreases |rows| - from
  {
    if from == |rows| then []
    else
      var rest := Positions(rows, id, from + 1);
      PositionsStep(rows, id, from, rest);
      (if rows[from].sampleId == id then [from] else []) + rest
  }

  /** The positions from `from` are `from` itself when it matches, then those after it. */
  lemma PositionsStep(rows: seq<NameRow>, id: string, from: nat, rest: seq<nat>)
    requires from < |rows|
    requires forall k :: 0 <= k < |rest| ==> from + 1 <= rest[k] < |rows| && rows[rest[k]].sampleId == id
    requires forall i :: from + 1 <= i < |rows| && rows[i].sampleId == id ==> i in rest
    requires forall k, l :: 0 <= k < l < |rest| ==> rest[k] < rest[l]
    ensures var p := (if rows[from].sampleId == id then [from] else []) + rest;
      && (forall k :: 0 <= k < |p| ==> from <= p[k] < |rows| && rows[p[k]].sampleId == id)
      && (forall i :: from <= i < |rows| && rows[i].sampleId == id ==> i in p)
      && (forall k, l :: 0 <= k < l < |p| ==> p[k] < p[l])
  {
    var head: seq<nat> := if rows[from].sampleId == id then [from] else [];
    var p := head + rest;
    assert forall k :: 0 <= k < |p| ==> p[k] == if k < |head| then from else rest[k - |head|];
    forall i | from <= i < |rows| && rows[i].sampleId == id
      ensures i in p
    {
      if i == from {
        assert p[0] == from;
      } else {
        var k :| 0 <= k < |rest| && rest[k] == i;
        assert p[|head| + k] == i;
      }
    }
  }

  /**
   * `matchIDtoName(ID, ssdf)`: an ID absent from Sample_ID exits; the names
   * of the ID's rows, when more than one, must agree (a disagreement
   * reaches the misspelt logging call) and must not be NaN; otherwise the
   * first name, which for a single row may be NaN.
   */
  function MatchIDtoName(id: string, rows: seq<NameRow>): (r: Result<Option<string>>)
    ensures (forall i :: 0 <= i < |rows| ==> rows[i].sampleId != id) ==> r == Err(ExitOne)
    ensures r.Ok? ==> exists i :: 0 <= i < |rows| && rows[i].sampleId == id
    ensures r.Ok? ==> forall i :: 0 <= i < |rows| && rows[i].sampleId == id ==> rows[i].sampleName == r.value
    ensures r.Ok? && r.value.None? ==>
      forall i, j :: 0 <= i < |rows| && 0 <= j < |rows| && rows[i].sampleId == id && rows[j].sampleId == id ==> i == j
  {
    var p := Positions(rows, id, 0);
    if |p| == 0 then Err(ExitOne)
    else if |p| > 1 && exists k :: 0 <= k < |p| && rows[p[k]].sampleName != rows[p[0]].sampleName then Err(NoCricital)
    else if |p| > 1 && rows[p[0]].sampleName.None? then Err(ExitOne)
    else Ok(rows[p[0]].sampleName)
  }

  /** An ID whose rows all carry the same name gets that name, unless it is NaN on several rows. */
  lemma MatchIDtoNameFinds(id: string, rows: seq<NameRow>, i: nat, name: Option<string>)
    requires i < |rows| && rows[i].sampleId == id
    requires forall j :: 0 <= j < |rows| && rows[j].sampleId == id ==> rows[j].sampleName == name
    requires name.None? ==> forall j :: 0 <= j < |rows| && rows[j].sampleId == id ==> j == i
    ensures MatchIDtoName(id, rows) == Ok(name)
  {
    var p := Positions(rows, id, 0);
    assert i in p;
    if name.None? {
      assert forall k :: 0 <= k < |p| ==> p[k] == i;
      assert |p| == 1 by {
        if |p| > 1 {
          FirstTwoIncrease(p);
          assert false;
        }
      }
    }
  }

  lemma FirstTwoIncrease(p: seq<nat>)
    ensures |p| > 1 && (forall k, l :: 0 <= k < l < |p| ==> p[k] < p[l]) ==> p[0] < p[1]
  {
  }

  /** Two rows of the ID with different names end in the misspelt logging call. */
  lemma MatchIDtoNameConflict(id: string, rows: seq<NameRow>, i: nat, j: nat)
    requires i < |rows| && j < |rows| && rows[i].sampleId == id && rows[j].sampleId == id
    requires rows[i].sampleName != rows[j].sampleName
    ensures MatchIDtoName(id, rows) == Err(NoCricital)
  {
    var p := Positions(rows, id, 0);
    assert i in p && j in p;
    var ki :| 0 <= ki < |p| && p[ki] == i;
    var kj :| 0 <= kj < |p| && p[kj] == j;
    assert |p| > 1;
    if rows[p[0]].sampleName == rows[i].sampleName {
      assert rows[p[kj]].sampleName != rows[p[0]].sampleName;
    } else {
      assert rows[p[ki]].sampleName != rows[p[0]].sampleName;
    }
  }

  // ------------------------------------------------------------- renamefq

  /**
   * The substitution pattern of `renamefq`:
   * `_S` and one to `maxDigits` digits, underscores, with `lane` an `L`,
   * three digits and underscores, then `([IR][123])+`, `_` and three
   * digits; replaced by `_` and the last read group.
   */
  datatype Pattern = Pattern(maxDigits: nat, lane: bool)

  /** `_S[0-9]?[0-9]?[0-9]?[0-9]_+L[0-9][0-9][0-9]_+([IR][123])+_[0-9][0-9][0-9]`. */
  const LanePattern := Pattern(4, true)
  /** `_S[0-9]?[0-9]?[0-9]?[0-9]_+([IR][123])+_[0-9][0-9][0-9]`. */
  const MergedPattern := Pattern(4, false)

  /** Length of the run of ASCII digits at `p`. */
  function DigitRun(s: string, p: nat): (n: nat)
    ensures p + n <= |s| || n == 0
    decreases |s| - p
  {
    if p < |s| && IsDigit(s[p]) then 1 + DigitRun(s, p + 1) else 0
  }

  /** Length of the run of underscores at `p`. */
  function UnderRun(s: string, p: nat): (n: nat)
    ensures p + n <= |s| || n == 0
    decreases |s| - p
  {
    if p < |s| && s[p] == '_' then 1 + UnderRun(s, p + 1) else 0
  }

  /** A read group `[IR][123]` at `p`. */
  predicate IsRead(s: string, p: nat)
  {
    p + 2 <= |s| && (s[p] == 'I' || s[p] == 'R') && '1' <= s[p + 1] <= '3'
  }

  /** Number of read groups in a row at `p`. */
  function ReadRun(s: string, p: nat): (n: nat)
    ensures p + 2 * n <= |s| || n == 0
    decreases |s| - p
  {
    if IsRead(s, p) then 1 + ReadRun(s, p + 2) else 0
  }

  predicate ThreeDigits(s: string, p: nat)
  {
    p + 3 <= |s| && IsDigit(s[p]) && IsDigit(s[p + 1]) && IsDigit(s[p + 2])
  }

  /** After `_S`, one to `maxDigits` digits and underscores at `p`: where the lane part starts. */
  function SampleEnd(s: string, p: nat, pat: Pattern): (q: Option<nat>)
    ensures q.Some? ==> p < q.value <= |s|
  {
    if !(p + 2 <= |s| && s[p] == '_' && s[p + 1] == 'S') then None
    else
      var d := DigitRun(s, p + 2);
      if d < 1 || d > pat.maxDigits then None
      else
        var u := UnderRun(s, p + 2 + d);
        if u < 1 then None else Some(p + 2 + d + u)
  }

  /** After `L`, three digits and underscores at `q` (nothing when the pattern has no lane part). */
  function LaneEnd(s: string, q: nat, pat: Pattern): (r: Option<nat>)
    requires q <= |s|
    ensures r.Some? ==> q <= r.value <= |s|
  {
    if !pat.lane then Some(q)
    else if q < |s| && s[q] == 'L' && ThreeDigits(s, q + 1) && UnderRun(s, q + 4) >= 1
    then Some(q + 4 + UnderRun(s, q + 4))
    else None
  }

  /** After `([IR][123])+_[0-9][0-9][0-9]` at `r`, with the last read group. */
  function ReadsEnd(s: string, r: nat): (m: Option<(nat, string)>)
    ensures m.Some? ==> r < m.value.0 <= |s|
  {
    var k := ReadRun(s, r);
    if k < 1 then None
    else
      var e := r + 2 * k;
      if e < |s| && s[e] == '_' && ThreeDigits(s, e + 1) then Some((e + 4, s[e - 2..e]))
      else None
  }

  /**
   * The match of the pattern starting at `p`, as its end and its last
   * read group. Every quantifier of the pattern is followed by a
   * character it cannot take, so backtracking never finds another match:
   * the digit, underscore and read-group runs are taken whole.
   */
  function MatchAt(s: string, p: nat, pat: Pattern): (m: Option<(nat, string)>)
    ensures m.Some? ==> p < m.value.0 <= |s|
  {
    match SampleEnd(s, p, pat)
    case None => None
    case Some(q) =>
      match LaneEnd(s, q, pat)
      case None => None
      case Some(r) => ReadsEnd(s, r)
  }

  /** `re.sub(pattern, r'_\1', s[p..])`: every match, left to right, becomes `_` and its read group. */
  function CollapseFrom(s: string, p: nat, pat: Pattern): string
    decreases |s| - p
  {
    if p >= |s| then ""
    else
      match MatchAt(s, p, pat)
      case Some(m) => "_" + m.1 + CollapseFrom(s, m.0, pat)
      case None => [s[p]] + CollapseFrom(s, p + 1, pat)
  }

  function Collapse(s: string, pat: Pattern): string
  {
    CollapseFrom(s, 0, pat)
  }

  /** No `_S` in `w`: no match of the pattern can start inside it. */
  predicate NoUnderscoreS(w: string)
  {
    forall i :: 0 <= i < |w| - 1 ==> !(w[i] == '_' && w[i + 1] == 'S')
  }

  /** Where no match starts, the substitution copies the text. */
  lemma {:induction false} CollapseCopies(s: string, p: nat, q: nat, pat: Pattern)
    requires p <= q <= |s|
    requires forall i :: p <= i < q ==> MatchAt(s, i, pat).None?
    ensures CollapseFrom(s, p, pat) == s[p..q] + CollapseFrom(s, q, pat)
    decreases q - p
  {
    if p < q {
      CollapseCopies(s, p + 1, q, pat);
      assert MatchAt(s, p, pat).None?;
      assert CollapseFrom(s, p, pat) == [s[p]] + CollapseFrom(s, p + 1, pat);
      ConsSlice(s, p, q, CollapseFrom(s, q, pat));
    }
  }

  lemma ConsSlice(s: string, p: nat, q: nat, rest: string)
    requires p < q <= |s|
    ensures [s[p]] + (s[p + 1..q] + rest) == s[p..q] + rest
  {
    assert s[p..q] == [s[p]] + s[p + 1..q];
  }

  lemma {:induction false} DigitRunIs(a: string, n: string, b: string)
    requires AllDigits(n)
    requires b != [] ==> !IsDigit(b[0])
    ensures DigitRun(a + n + b, |a|) == |n|
    decreases |n|
  {
    if n != [] {
      DigitRunIs(a + n[..1], n[1..], b);
      assert a + n[..1] + n[1..] + b == a + n + b;
    }
  }

  lemma SampleEndIs(a: string, n: string, b: string, pat: Pattern)
    requires 1 <= |n| <= pat.maxDigits && AllDigits(n)
    requires b != [] && b[0] != '_'
    ensures SampleEnd(a + "_S" + n + "_" + b, |a|, pat) == Some(|a| + 3 + |n|)
  {
    var s := a + "_S" + n + "_" + b;
    assert s == (a + "_S") + n + ("_" + b);
    DigitRunIs(a + "_S", n, "_" + b);
    assert s[|a|] == '_' && s[|a| + 1] == 'S';
    assert s[|a| + 2 + |n|] == '_' && s[|a| + 3 + |n|] == b[0];
    assert UnderRun(s, |a| + 3 + |n|) == 0;
  }

  lemma LaneEndIs(a: string, lane: Option<string>, b: string, pat: Pattern)
    requires lane.Some? <==> pat.lane
    requires lane.Some? ==> |lane.value| == 3 && AllDigits(lane.value)
    requires b != [] && b[0] != '_'
    ensures LaneEnd(a + LanePart(lane) + b, |a|, pat) == Some(|a| + |LanePart(lane)|)
  {
    if lane.Some? {
      var s := a + LanePart(lane) + b;
      assert s[|a|] == 'L' && s[|a| + 1] == lane.value[0] && s[|a| + 2] == lane.value[1] && s[|a| + 3] == lane.value[2];
      assert s[|a| + 4] == '_' && s[|a| + 5] == b[0];
      assert UnderRun(s, |a| + 5) == 0;
      assert ThreeDigits(s, |a| + 1);
    } else {
      assert a + "" + b == a + b;
    }
  }

  lemma ReadsEndIs(a: string, read: string, chunk: string, b: string)
    requires ReadGroup(read) && |chunk| == 3 && AllDigits(chunk)
    ensures ReadsEnd(a + read + "_" + chunk + b, |a|) == Some((|a| + 6, read))
  {
    var s := a + read + "_" + chunk + b;
    var r := |a|;
    assert s[r] == read[0] && s[r + 1] == read[1] && s[r + 2] == '_';
    assert !IsRead(s, r + 2);
    assert ReadRun(s, r) == 1;
    assert s[r + 3] == chunk[0] && s[r + 4] == chunk[1] && s[r + 5] == chunk[2];
    assert s[r..r + 2] == read;
  }

  /** The part of a bcl-convert fastq name the pattern replaces: `_S<n>_[L<lll>_]<c><k>_<ccc>`. */
  function BclSuffix(n: string, lane: Option<string>, read: string, chunk: string): string
  {
    "_S" + n + "_" + LanePart(lane) + read + "_" + chunk
  }

  function LanePart(lane: Option<string>): string
  {
    if lane.Some? then "L" + lane.value + "_" else ""
  }

  /** The read group of a bcl-convert name: R or I, then 1, 2 or 3. */
  predicate ReadGroup(read: string)
  {
    |read| == 2 && (read[0] == 'I' || read[0] == 'R') && '1' <= read[1] <= '3'
  }

  /** A well-formed suffix for the pattern: sample number, lane and chunk digits of the right lengths. */
  predicate BclParts(pat: Pattern, n: string, lane: Option<string>, read: string, chunk: string)
  {
    && 1 <= |n| <= pat.maxDigits && AllDigits(n)
    && (lane.Some? <==> pat.lane)
    && (lane.Some? ==> |lane.value| == 3 && AllDigits(lane.value))
    && ReadGroup(read)
    && |chunk| == 3 && AllDigits(chunk)
  }

  /** The pattern matches a bcl-convert suffix whole, capturing its read group. */
  lemma MatchAtBcl(w: string, pat: Pattern, n: string, lane: Option<string>, read: string, chunk: string, ext: string)
    requires BclParts(pat, n, lane, read, chunk)
    ensures MatchAt(w + BclSuffix(n, lane, read, chunk) + ext, |w|, pat)
      == Some((|w| + |BclSuffix(n, lane, read, chunk)|, read))
  {
    var lp := LanePart(lane);
    var rest := read + "_" + chunk + ext;
    var s := w + BclSuffix(n, lane, read, chunk) + ext;
    var q := |w| + 3 + |n|;
    var r := q + |lp|;
    BclShape(w, n, lp, read, chunk, ext);
    SampleEndIs(w, n, lp + rest, pat);
    assert SampleEnd(s, |w|, pat) == Some(q);
    LaneEndIs(w + "_S" + n + "_", lane, rest, pat);
    assert LaneEnd(s, q, pat) == Some(r);
    ReadsEndIs(w + "_S" + n + "_" + lp, read, chunk, ext);
    assert ReadsEnd(s, r) == Some((r + 6, read));
    MatchAtFrom(s, |w|, q, r, pat);
  }

  /** A match is its sample part, then its lane part, then its read groups. */
  lemma MatchAtFrom(s: string, p: nat, q: nat, r: nat, pat: Pattern)
    requires SampleEnd(s, p, pat) == Some(q) && LaneEnd(s, q, pat) == Some(r)
    ensures MatchAt(s, p, pat) == ReadsEnd(s, r)
  {
  }

  lemma BclShape(w: string, n: string, lp: string, read: string, chunk: string, ext: string)
    ensures w + ("_S" + n + "_" + lp + read + "_" + chunk) + ext == w + "_S" + n + "_" + (lp + (read + "_" + chunk + ext))
    ensures w + ("_S" + n + "_" + lp + read + "_" + chunk) + ext == (w + "_S" + n + "_") + lp + (read + "_" + chunk + ext)
    ensures w + ("_S" + n + "_" + lp + read + "_" + chunk) + ext == (w + "_S" + n + "_" + lp) + read + "_" + chunk + ext
  {
    var s := w + ("_S" + n + "_" + lp + read + "_" + chunk) + ext;
    var t := read + "_" + chunk + ext;
    assert s == w + "_S" + n + "_" + lp + read + "_" + chunk + ext;
    assert s == (w + "_S" + n + "_" + lp) + t;
    assert s == (w + "_S" + n + "_") + (lp + t);
    assert s == (w + "_S" + n + "_") + lp + t;
    assert s == (w + "_S" + n + "_" + lp) + read + "_" + chunk + ext;
  }

  /** A match starts with `_S`. */
  lemma MatchStartsUnderscoreS(s: string, i: nat, pat: Pattern)
    requires MatchAt(s, i, pat).Some?
    ensures i + 1 < |s| && s[i] == '_' && s[i + 1] == 'S'
  {
  }

  /** Without `_S` at `i` no match starts there. */
  lemma NoMatchWithoutUnderscoreS(s: string, i: nat, pat: Pattern)
    requires !(i + 1 < |s| && s[i] == '_' && s[i + 1] == 'S')
    ensures MatchAt(s, i, pat).None?
  {
  }

  /** No match starts in a prefix without `_S` that is not followed by `S`. */
  lemma NoMatchBefore(s: string, a: nat, pat: Pattern)
    requires a <= |s| && NoUnderscoreS(s[..a]) && (a < |s| ==> s[a] != 'S')
    ensures forall i :: 0 <= i < a ==> MatchAt(s, i, pat).None?
  {
    forall i | 0 <= i < a
      ensures MatchAt(s, i, pat).None?
    {
      if i + 1 < a {
        assert !(s[..a][i] == '_' && s[..a][i + 1] == 'S');
      }
      NoMatchWithoutUnderscoreS(s, i, pat);
    }
  }

  /** No match starts in a suffix without `_S`. */
  lemma NoMatchAfter(s: string, e: nat, pat: Pattern)
    requires e <= |s| && NoUnderscoreS(s[e..])
    ensures forall i :: e <= i < |s| ==> MatchAt(s, i, pat).None?
  {
    forall i | e <= i < |s|
      ensures MatchAt(s, i, pat).None?
    {
      if i + 1 < |s| {
        assert !(s[e..][i - e] == '_' && s[e..][i - e + 1] == 'S');
      }
      NoMatchWithoutUnderscoreS(s, i, pat);
    }
  }

  /** At a match the substitution writes `_` and the read group and resumes after it. */
  lemma CollapseAtMatch(s: string, p: nat, pat: Pattern)
    requires MatchAt(s, p, pat).Some?
    ensures CollapseFrom(s, p, pat) == "_" + MatchAt(s, p, pat).value.1 + CollapseFrom(s, MatchAt(s, p, pat).value.0, pat)
  {
  }

  /** A single match at `a` ending at `e`: only it is replaced. */
  lemma CollapseOneMatch(s: string, a: nat, e: nat, pat: Pattern, group: string)
    requires a < e <= |s|
    requires forall i :: 0 <= i < a ==> MatchAt(s, i, pat).None?
    requires MatchAt(s, a, pat) == Some((e, group))
    requires forall i :: e <= i < |s| ==> MatchAt(s, i, pat).None?
    ensures Collapse(s, pat) == s[..a] + "_" + group + s[e..]
  {
    CollapseCopies(s, 0, a, pat);
    CollapseAtMatch(s, a, pat);
    CollapseCopies(s, e, |s|, pat);
    assert s[0..a] == s[..a] && s[e..|s|] == s[e..];
    assert CollapseFrom(s, e, pat) == s[e..];
    CollapseJoin(s[..a], group, s[e..], CollapseFrom(s, a, pat), CollapseFrom(s, 0, pat));
  }

  lemma CollapseJoin(front: string, group: string, back: string, atA: string, all: string)
    requires atA == "_" + group + back && all == front + atA
    ensures all == front + "_" + group + back
  {
  }

  /**
   * `re.sub` on a bcl-convert fastq name: the sample number, lane and
   * chunk collapse to `_` and the read group, and the rest is kept, as
   * long as neither the sample part nor the extension holds `_S`.
   */
  lemma CollapseBclName(w: string, pat: Pattern, n: string, lane: Option<string>, read: string, chunk: string, ext: string)
    requires BclParts(pat, n, lane, read, chunk)
    requires NoUnderscoreS(w) && NoUnderscoreS(ext)
    ensures Collapse(w + BclSuffix(n, lane, read, chunk) + ext, pat) == w + "_" + read + ext
  {
    MatchAtBcl(w, pat, n, lane, read, chunk, ext);
    BclSuffixHead(n, lane, read, chunk);
    CollapseAround(w, BclSuffix(n, lane, read, chunk), ext, pat, read);
  }

  lemma BclSuffixHead(n: string, lane: Option<string>, read: string, chunk: string)
    ensures |BclSuffix(n, lane, read, chunk)| > 0 && BclSuffix(n, lane, read, chunk)[0] == '_'
  {
    assert BclSuffix(n, lane, read, chunk) == "_" + ("S" + n + "_" + LanePart(lane) + read + "_" + chunk);
  }

  /** A name whose only match is the middle part `m` collapses to that match's read group. */
  lemma CollapseAround(w: string, m: string, ext: string, pat: Pattern, read: string)
    requires |m| > 0 && m[0] == '_'
    requires NoUnderscoreS(w) && NoUnderscoreS(ext)
    requires MatchAt(w + m + ext, |w|, pat) == Some((|w| + |m|, read))
    ensures Collapse(w + m + ext, pat) == w + "_" + read + ext
  {
    var s := w + m + ext;
    assert s[..|w|] == w && s[|w| + |m|..] == ext && s[|w|] == '_';
    NoMatchBefore(s, |w|, pat);
    NoMatchAfter(s, |w| + |m|, pat);
    CollapseOneMatch(s, |w|, |w| + |m|, pat, read);
  }

  /** `str.replace` with a NaN sample name (a float) raises. */
  const NanName := "TypeError: replace() argument 2 must be str, not float"

  /** The pattern `renamefq` uses: with the lane part when lanes are split. */
  function RenamePattern(laneSplit: bool): (pat: Pattern)
    ensures pat.maxDigits == 4 && pat.lane == laneSplit
  {
    if laneSplit then LanePattern else MergedPattern
  }

  /**
   * `renamefq(fqFile, projectFolder, ssdf, laneSplitStatus)` on the file's
   * name: the sample id is the text before the first `_`; the new path is
   * projectFolder/Sample_<id>/<name with id replaced by the sample name and
   * the bcl-convert suffix collapsed>. The lookup's failures propagate.
   */
  function RenameFq(oldName: string, projectFolder: string, rows: seq<NameRow>, laneSplit: bool): (r: Result<string>)
    ensures (forall i :: 0 <= i < |rows| ==> rows[i].sampleId != Split(oldName, '_')[0]) ==> r == Err(ExitOne)
    ensures r.Ok? ==> exists i :: 0 <= i < |rows| && rows[i].sampleId == Split(oldName, '_')[0] && rows[i].sampleName.Some?
  {
    var id := Split(oldName, '_')[0];
    match MatchIDtoName(id, rows)
    case Err(e) => Err(e)
    case Ok(None) => Err(NanName)
    case Ok(Some(name)) =>
      var newName := Collapse(ReplaceAll(oldName, id, name), RenamePattern(laneSplit));
      Ok(RunDir.PathJoin(RunDir.PathJoin(projectFolder, "Sample_" + id), newName))
  }

  /**
   * A bcl-convert fastq name `<id>_S<n>_[L<lll>_]<read>_<ccc><ext>` of a
   * sample with name `name` moves to projectFolder/Sample_<id>/<name>_<read><ext>,
   * e.g. 24L002006_S63_L001_R2_001.fastq.gz becomes <name>_R2.fastq.gz.
   */
  lemma RenameFqBclName(id: string, n: string, lane: Option<string>, read: string, chunk: string, ext: string,
                        projectFolder: string, rows: seq<NameRow>, i: nat, name: string, laneSplit: bool)
    requires id != [] && '_' !in id
    requires BclParts(RenamePattern(laneSplit), n, lane, read, chunk)
    requires !Contains(BclSuffix(n, lane, read, chunk) + ext, id)
    requires NoUnderscoreS(name) && NoUnderscoreS(ext)
    requires i < |rows| && rows[i] == NameRow(id, Some(name))
    requires forall j :: 0 <= j < |rows| && rows[j].sampleId == id ==> rows[j].sampleName == Some(name)
    ensures RenameFq(id + BclSuffix(n, lane, read, chunk) + ext, projectFolder, rows, laneSplit)
      == Ok(RunDir.PathJoin(RunDir.PathJoin(projectFolder, "Sample_" + id), name + "_" + read + ext))
  {
    var m := BclSuffix(n, lane, read, chunk);
    var rest := m + ext;
    assert id + m + ext == id + rest;
    SampleIdOf(id, rest);
    MatchIDtoNameFinds(id, rows, i, Some(name));
    ReplaceIdHead(id, rest, name);
    assert name + rest == name + m + ext;
    CollapseBclName(name, RenamePattern(laneSplit), n, lane, read, chunk, ext);
  }

  /** The sample id of `<id>_...` is `<id>`. */
  lemma SampleIdOf(id: string, rest: string)
    requires '_' !in id && |rest| > 0 && rest[0] == '_'
    ensures Split(id + rest, '_')[0] == id
  {
    assert id + rest == id + ['_'] + rest[1..];
    SplitAtFirstSeparator(id, rest[1..], '_');
  }

  /** The id at the front, and nowhere else, becomes the name. */
  lemma ReplaceIdHead(id: string, rest: string, name: string)
    requires id != [] && !Contains(rest, id)
    ensures ReplaceAll(id + rest, id, name) == name + rest
  {
    ReplaceAllHead(id, rest, name);
    ReplaceAllAbsent(rest, id, name);
  }

  /** A sample whose single row has no name cannot be renamed: the replacement is not a string. */
  lemma RenameFqNanName(oldName: string, projectFolder: string, rows: seq<NameRow>, i: nat, laneSplit: bool)
    requires i < |rows| && rows[i] == NameRow(Split(oldName, '_')[0], None)
    requires forall j :: 0 <= j < |rows| && rows[j].sampleId == Split(oldName, '_')[0] ==> j == i
    ensures RenameFq(oldName, projectFolder, rows, laneSplit) == Err(NanName)
  {
    MatchIDtoNameFinds(Split(oldName, '_')[0], rows, i, None);
  }

  // ---------------------------------------------------------- renameProject

  /** Python `s.rfind(c)`: the last position of `c`, or -1. */
  function RFind(s: string, c: char): (i: int)
    ensures -1 <= i < |s|
    ensures i >= 0 ==> s[i] == c
    ensures c !in s ==> i == -1
    decreases |s|
  {
    if s == [] then -1
    else if s[|s| - 1] == c then |s| - 1
    else RFind(s[..|s| - 1], c)
  }

  /** `PurePath.stem`: the name without its last suffix; a leading or trailing dot is no suffix. */
  function Stem(name: string): string
  {
    var i := RFind(name, '.');
    if 0 < i < |name| - 1 then name[..i] else name
  }

  /** `PurePath.suffix`: the last `.` and what follows it, if that is a suffix. */
  function Suffix(name: string): string
  {
    var i := RFind(name, '.');
    if 0 < i < |name| - 1 then name[i..] else ""
  }

  /** A name is its stem followed by its suffix; a name without a dot is all stem. */
  lemma StemSuffix(name: string)
    ensures Stem(name) + Suffix(name) == name
    ensures '.' !in name ==> Stem(name) == name && Suffix(name) == ""
  {
  }

  /** `[p for p in parts if p != w]`. */
  function Without(parts: seq<string>, w: string): (r: seq<string>)
    ensures |r| <= |parts|
  {
    if parts == [] then []
    else (if parts[0] == w then [] else [parts[0]]) + Without(parts[1..], w)
  }

  lemma {:induction false} WithoutConcat(p: seq<string>, q: seq<string>, w: string)
    ensures Without(p + q, w) == Without(p, w) + Without(q, w)
    decreases |p|
  {
    if p == [] {
      assert p + q == q;
    } else {
      var h := if p[0] == w then [] else [p[0]];
      assert (p + q)[0] == p[0] && (p + q)[1..] == p[1..] + q;
      WithoutConcat(p[1..], q, w);
      assert Without(p + q, w) == h + (Without(p[1..], w) + Without(q, w));
    }
  }

  lemma {:induction false} WithoutAbsent(p: seq<string>, w: string)
    requires w !in p
    ensures Without(p, w) == p
    decreases |p|
  {
    if p != [] {
      WithoutAbsent(p[1..], w);
      assert p == [p[0]] + p[1..];
    }
  }

  /** `with_stem` of a path whose name is empty raises. */
  const EmptyName := "ValueError: path has an empty name"

  /**
   * The new project folder of `renameProject`: the path without any
   * `Samples` component, its name's stem replaced by `Project_` and the
   * old folder's stem. Paths are `/`-separated and normalised (no empty
   * component but a leading root).
   */
  function ProjectTarget(folder: string): Result<string>
  {
    Renamed(Without(Split(folder, '/'), "Samples"), Stem(LastField(folder, '/')))
  }

  /** `Path(*kept).with_stem("Project_" + stem)`. */
  function Renamed(kept: seq<string>, stem: string): Result<string>
  {
    if |kept| == 0 || kept[|kept| - 1] == "" then Err(EmptyName)
    else Ok(Join(kept[..|kept| - 1] + ["Project_" + stem + Suffix(kept[|kept| - 1])], "/"))
  }

  lemma RenamedOf(ps: seq<string>, proj: string)
    requires |ps| > 0 && proj != "" && '.' !in proj
    ensures Renamed(ps + [proj], proj) == Ok(Join(ps, "/") + "/" + ("Project_" + proj))
  {
    StemSuffix(proj);
    RenamedLast(ps, proj);
    JoinProject(ps, proj);
  }

  lemma RenamedLast(ps: seq<string>, proj: string)
    requires |ps| > 0 && proj != "" && Suffix(proj) == ""
    ensures Renamed(ps + [proj], proj) == Ok(Join(ps + ["Project_" + proj], "/"))
  {
    var kept := ps + [proj];
    assert kept[..|kept| - 1] == ps && kept[|kept| - 1] == proj;
    assert "Project_" + proj + Suffix(proj) == "Project_" + proj;
  }

  lemma JoinProject(ps: seq<string>, proj: string)
    requires |ps| > 0
    ensures Join(ps + ["Project_" + proj], "/") == Join(ps, "/") + "/" + ("Project_" + proj)
  {
    JoinSnoc(ps, "Project_" + proj, "/");
  }

  /**
   * `1906_Hein_B03_Hein` under `parent` (Illumina) or under
   * `parent/Samples` (Aviti) becomes `parent/Project_1906_Hein_B03_Hein`.
   */
  lemma ProjectTargetOf(parent: string, proj: string, aviti: bool)
    requires "Samples" !in Split(parent, '/')
    requires proj != "" && proj != "Samples" && '/' !in proj && '.' !in proj
    ensures ProjectTarget(parent + (if aviti then "/Samples/" else "/") + proj) == Ok(parent + "/" + ("Project_" + proj))
  {
    var folder := parent + (if aviti then "/Samples/" else "/") + proj;
    var ps := Split(parent, '/');
    var tail := if aviti then ["Samples", proj] else [proj];
    FolderSplit(parent, proj, aviti);
    assert LastField(folder, '/') == proj by {
      assert Split(folder, '/')[|ps| + |tail| - 1] == proj;
    }
    StemSuffix(proj);
    WithoutConcat(ps, tail, "Samples");
    WithoutAbsent(ps, "Samples");
    assert Without(tail, "Samples") == [proj] by {
      assert Without([proj], "Samples") == [proj] + Without([], "Samples");
      if aviti {
        assert tail[1..] == [proj];
      }
    }
    RenamedOf(ps, proj);
    JoinSplit(parent, '/');
  }

  /** The components of the project folder: the parent's, maybe `Samples`, then the project. */
  lemma FolderSplit(parent: string, proj: string, aviti: bool)
    requires '/' !in proj
    ensures Split(parent + (if aviti then "/Samples/" else "/") + proj, '/')
      == Split(parent, '/') + (if aviti then ["Samples", proj] else [proj])
  {
    SplitWithoutSeparator(proj, '/');
    if aviti {
      SamplesPath(parent, proj);
      SplitUnder(parent, "Samples", proj);
    } else {
      assert parent + "/" + proj == parent + ['/'] + proj;
      SplitConcat(parent, '/', proj);
    }
  }

  lemma SamplesPath(parent: string, proj: string)
    ensures parent + "/Samples/" + proj == parent + ['/'] + ("Samples" + ['/'] + proj)
  {
    assert "/Samples/" == ['/'] + "Samples" + ['/'];
  }

  lemma SplitUnder(parent: string, mid: string, proj: string)
    requires '/' !in mid && '/' !in proj
    ensures Split(parent + ['/'] + (mid + ['/'] + proj), '/') == Split(parent, '/') + [mid, proj]
  {
    SplitConcat(parent, '/', mid + ['/'] + proj);
    SplitConcat(mid, '/', proj);
    SplitWithoutSeparator(mid, '/');
    SplitWithoutSeparator(proj, '/');
  }

  /**
   * Moving each listed file to its new name, in order, until a name
   * cannot be made: the moves made and the failure, if any.
   */
  method MoveEach(folder: string, fqNames: seq<string>, rename: string -> Result<string>)
    returns (moves: seq<(string, string)>, failure: Option<Result<string>>)
    ensures |moves| <= |fqNames|
    ensures forall k :: 0 <= k < |moves| ==>
      rename(fqNames[k]) == Ok(moves[k].1) && moves[k].0 == RunDir.PathJoin(folder, fqNames[k])
    ensures failure.None? <==> |moves| == |fqNames|
    ensures failure.Some? ==> rename(fqNames[|moves|]).Err? && failure.value == rename(fqNames[|moves|])
  {
    moves := [];
    var k := 0;
    while k < |fqNames|
      invariant k <= |fqNames| && |moves| == k
      invariant forall j :: 0 <= j < k ==>
        rename(fqNames[j]) == Ok(moves[j].1) && moves[j].0 == RunDir.PathJoin(folder, fqNames[j])
    {
      var target := rename(fqNames[k]);
      if target.Err? {
        return moves, Some(target);
      }
      moves := moves + [(RunDir.PathJoin(folder, fqNames[k]), target.value)];
      k := k + 1;
    }
    failure := None;
  }

  /**
   * `renameProject(projectFolder, ssdf, laneSplitStatus)`: each fastq file
   * of the folder (its `*fastq.gz` listing, in glob order) moves to its
   * `renamefq` path, then the folder moves to its `Project_` name. A
   * failing lookup stops the run after the moves already made.
   */
  method RenameProject(folder: string, fqNames: seq<string>, rows: seq<NameRow>, laneSplit: bool)
    returns (moves: seq<(string, string)>, r: Result<string>)
    ensures |moves| <= |fqNames|
    ensures forall k :: 0 <= k < |moves| ==>
      RenameFq(fqNames[k], folder, rows, laneSplit) == Ok(moves[k].1) && moves[k].0 == RunDir.PathJoin(folder, fqNames[k])
    ensures |moves| < |fqNames| ==>
      RenameFq(fqNames[|moves|], folder, rows, laneSplit).Err? && r == RenameFq(fqNames[|moves|], folder, rows, laneSplit)
    ensures |moves| == |fqNames| ==> r == ProjectTarget(folder)
    ensures r == RenameOutcome(folder, fqNames, rows, laneSplit)
  {
    var failure;
    moves, failure := MoveEach(folder, fqNames, name => RenameFq(name, folder, rows, laneSplit));
    RenameOutcomeSkip(folder, fqNames, rows, laneSplit, |moves|);
    if failure.Some? {
      return moves, failure.value;
    }
    r := ProjectTarget(folder);
  }

  /** What `renameProject` ends in: the first fastq name whose lookup fails, or the folder's new path. */
  function RenameOutcome(folder: string, fqNames: seq<string>, rows: seq<NameRow>, laneSplit: bool): Result<string>
    decreases |fqNames|
  {
    if fqNames == [] then ProjectTarget(folder)
    else
      match RenameFq(fqNames[0], folder, rows, laneSplit)
      case Err(m) => Err(m)
      case Ok(_) => RenameOutcome(folder, fqNames[1..], rows, laneSplit)
  }

  /** Names that rename fine can be skipped. */
  lemma {:induction false} RenameOutcomeSkip(folder: string, fqNames: seq<string>, rows: seq<NameRow>, laneSplit: bool, k: nat)
    requires k <= |fqNames|
    requires forall j :: 0 <= j < k ==> RenameFq(fqNames[j], folder, rows, laneSplit).Ok?
    ensures RenameOutcome(folder, fqNames, rows, laneSplit) == RenameOutcome(folder, fqNames[k..], rows, laneSplit)
    decreases k
  {
    if k > 0 {
      RenameOutcomeSkip(folder, fqNames[1..], rows, laneSplit, k - 1);
      assert fqNames[1..][k - 1..] == fqNames[k..];
    }
  }

  /** `renameProject` gets through exactly when every lookup succeeds and the folder has a new path. */
  lemma {:induction false} RenameOutcomeOk(folder: string, fqNames: seq<string>, rows: seq<NameRow>, laneSplit: bool)
    ensures RenameOutcome(folder, fqNames, rows, laneSplit).Ok? <==>
      (forall j :: 0 <= j < |fqNames| ==> RenameFq(fqNames[j], folder, rows, laneSplit).Ok?) && ProjectTarget(folder).Ok?
    decreases |fqNames|
  {
    if fqNames != [] {
      RenameOutcomeOk(folder, fqNames[1..], rows, laneSplit);
      assert forall j :: 1 <= j < |fqNames| ==> fqNames[j] == fqNames[1..][j - 1];
    }
  }

  // --------------------------------------------------------- validateFqEnds

  /** `'Undetermined' not in f` with `f` a `PosixPath`: paths are not iterable. */
  const PathNotIterable := "TypeError: argument of type 'PosixPath' is not iterable"

  /**
   * `validateFqEnds` as written: the membership test on the path object
   * raises for the first fastq found, so only an empty listing passes.
   */
  function ValidateFqEndsAsWritten(files: seq<string>): (r: Result<()>)
    ensures r.Ok? <==> files == []
  {
    if files == [] then Ok(()) else Err(PathNotIterable)
  }

  /** The file's name up to its first `.`: `f.name.split('.')[0]`. */
  function FqStem(path: string): string
  {
    Split(LastField(path, '/'), '.')[0]
  }

  /** A stem ending in a read or index mate: R1, R2, I1 or I2. */
  predicate ProperEnd(stem: string)
  {
    Last2(stem) in ["R1", "R2", "I1", "I2"]
  }

  /** Checked at all: the path does not mention `Undetermined`. */
  predicate Checked(path: string)
  {
    !Contains(path, "Undetermined")
  }

  /** The stems `validateFqEnds` flags, in listing order. */
  function Malformed(files: seq<string>): (bad: seq<string>)
    ensures |bad| <= |files|
  {
    if files == [] then []
    else
      var rest := Malformed(files[..|files| - 1]);
      var f := files[|files| - 1];
      if Checked(f) && !ProperEnd(FqStem(f)) then rest + [FqStem(f)] else rest
  }

  /** Nothing is flagged exactly when every checked fastq has a proper ending. */
  lemma {:induction false} MalformedNone(files: seq<string>)
    ensures Malformed(files) == [] <==> forall i :: 0 <= i < |files| && Checked(files[i]) ==> ProperEnd(FqStem(files[i]))
    decreases |files|
  {
    if files != [] {
      var init := files[..|files| - 1];
      MalformedNone(init);
      assert forall i :: 0 <= i < |init| ==> init[i] == files[i];
    }
  }

  /** Every flagged stem is the stem of a checked file with an improper ending. */
  lemma {:induction false} MalformedFrom(files: seq<string>)
    ensures forall e :: e in Malformed(files) ==>
      exists i :: 0 <= i < |files| && Checked(files[i]) && FqStem(files[i]) == e && !ProperEnd(e)
    decreases |files|
  {
    if files != [] {
      var init := files[..|files| - 1];
      MalformedFrom(init);
      assert forall i :: 0 <= i < |init| ==> init[i] == files[i];
    }
  }

  /**
   * `validateFqEnds(pdir, flowcell)` with the membership test on the
   * path's text: the improper stems are collected over the recursive
   * `*fastq.gz` listing; any of them is fatal (after mailing home).
   */
  method ValidateFqEnds(files: seq<string>) returns (malformat: seq<string>, r: Result<()>)
    ensures malformat == Malformed(files)
    ensures r.Ok? <==> forall i :: 0 <= i < |files| && Checked(files[i]) ==> ProperEnd(FqStem(files[i]))
    ensures r.Err? ==> r.reason == ExitOne
  {
    malformat := [];
    for k := 0 to |files|
      invariant malformat == Malformed(files[..k])
    {
      assert files[..k + 1][..k] == files[..k];
      var f := files[k];
      if Checked(f) {
        var e := FqStem(f);
        if !ProperEnd(e) {
          malformat := malformat + [e];
        }
      }
    }
    assert files[..|files|] == files;
    MalformedNone(files);
    r := if malformat == [] then Ok(()) else Err(ExitOne);
  }

  /** Properly named fastq files pass the corrected check but stop the run as written. */
  lemma ValidateFqEndsDiverge(files: seq<string>)
    requires files != []
    requires forall i :: 0 <= i < |files| ==> ProperEnd(FqStem(files[i]))
    ensures ValidateFqEndsAsWritten(files) == Err(PathNotIterable)
    ensures Malformed(files) == []
  {
    MalformedNone(files);
  }

  // ------------------------------------------------------------ worker pools

  /** `max(1, threads // 2)`: fastqc instances, two threads each. */
  function FastqcPool(threads: int): (n: int)
    ensures n >= 1
    ensures threads >= 2 ==> 2 * n <= threads < 2 * n + 2
    ensures threads < 2 ==> n == 1
  {
    if threads / 2 > 1 then threads / 2 else 1
  }

  /** `max(1, threads // 10)`: clumpify instances. */
  function ClumpPool(threads: int): (n: int)
    ensures n >= 1
    ensures threads >= 10 ==> 10 * n <= threads < 10 * n + 10
    ensures threads < 10 ==> n == 1
  {
    if threads / 10 > 1 then threads / 10 else 1
  }

  /** Threads per clumpify instance: ten, or all of them when fewer. */
  function ClumpThreads(threads: int): (t: int)
    ensures t <= 10 && t <= threads
    ensures t == 10 || t == threads
  {
    if threads >= 10 then 10 else threads
  }

  /** `max(1, threads // 5)`: kraken instances. */
  function KrakenPool(threads: int): (n: int)
    ensures n >= 1
    ensures threads >= 5 ==> 5 * n <= threads < 5 * n + 5
    ensures threads < 5 ==> n == 1
  {
    if threads / 5 > 1 then threads / 5 else 1
  }

  /** Threads per kraken instance: five, or all of them when fewer. */
  function KrakenThreads(threads: int): (t: int)
    ensures t <= 5 && t <= threads
    ensures t == 5 || t == threads
  {
    if threads >= 5 then 5 else threads
  }

  /** Clumpify's instances never ask for more threads than configured, and leave fewer than ten idle. */
  lemma ClumpFits(threads: int)
    requires threads >= 1
    ensures threads - 10 < ClumpPool(threads) * ClumpThreads(threads) <= threads
  {
  }

  /** Kraken's instances never ask for more threads than configured, and leave fewer than five idle. */
  lemma KrakenFits(threads: int)
    requires threads >= 1
    ensures threads - 5 < KrakenPool(threads) * KrakenThreads(threads) <= threads
  {
  }

  /** Fastqc's instances, at two threads each, never ask for more than configured, and leave at most one idle. */
  lemma FastqcFits(threads: int)
    requires threads >= 2
    ensures threads - 2 < 2 * FastqcPool(threads) <= threads
  {
  }

  // ------------------------------------------------------------ batch verdict

  /** `xs.count(v)`. */
  function CountOf<T(==)>(xs: seq<T>, v: T): (n: nat)
    ensures n <= |xs|
  {
    if xs == [] then 0
    else (if xs[0] == v then 1 else 0) + CountOf(xs[1..], v)
  }

  /** The count of `v` is the length exactly when every element is `v`. */
  lemma {:induction false} CountOfAll<T>(xs: seq<T>, v: T)
    ensures CountOf(xs, v) == |xs| <==> forall i :: 0 <= i < |xs| ==> xs[i] == v
    decreases |xs|
  {
    if xs != [] {
      CountOfAll(xs[1..], v);
      assert forall i :: 1 <= i < |xs| ==> xs[i] == xs[1..][i - 1];
    }
  }

  /**
   * A pool's verdict: `returns.count(ok) == len(returns)` passes, anything
   * else is fatal (after mailing home). `ok` is 0 for fastqc and kraken
   * and `(0, 0)` for clumpify's pair of exit codes.
   */
  function BatchVerdict<T(==)>(codes: seq<T>, ok: T): (r: Result<()>)
    ensures r.Ok? <==> forall i :: 0 <= i < |codes| ==> codes[i] == ok
    ensures r.Err? ==> r.reason == ExitOne
  {
    CountOfAll(codes, ok);
    if CountOf(codes, ok) == |codes| then Ok(()) else Err(ExitOne)
  }

  /** Clumpify fails when either of a job's two steps does. */
  lemma ClumpVerdict(codes: seq<(int, int)>, k: nat)
    requires k < |codes| && (codes[k].0 != 0 || codes[k].1 != 0)
    ensures BatchVerdict(codes, (0, 0)).Err?
  {
  }

  // ------------------------------------------------------------------- md5

  /** A file name and the hex digest of its content. */
  type Md5Sum = (string, string)

  /** Ordered by name, ties kept in their order. */
  predicate SortedByName(xs: seq<Md5Sum>)
  {
    forall i :: 0 < i < |xs| ==> !StrLt(xs[i].0, xs[i - 1].0)
  }

  /** Inserts after every entry whose name is not greater, which keeps ties in order. */
  function InsertByName(x: Md5Sum, xs: seq<Md5Sum>): (r: seq<Md5Sum>)
    ensures multiset(r) == multiset(xs) + multiset{x}
    ensures |r| > 0 && (r[0] == x || (|xs| > 0 && r[0] == xs[0]))
  {
    if xs == [] then [x]
    else if StrLt(x.0, xs[0].0) then [x] + xs
    else
      assert xs == [xs[0]] + xs[1..];
      [xs[0]] + InsertByName(x, xs[1..])
  }

  lemma {:induction false} InsertSorted(x: Md5Sum, xs: seq<Md5Sum>)
    requires SortedByName(xs)
    ensures SortedByName(InsertByName(x, xs))
    decreases |xs|
  {
    if xs != [] {
      if StrLt(x.0, xs[0].0) {
        StrLtAsym(x.0, xs[0].0);
      } else {
        InsertSorted(x, xs[1..]);
        var r := InsertByName(x, xs);
        var t := InsertByName(x, xs[1..]);
        assert r == [xs[0]] + t;
        assert forall i :: 1 <= i < |r| ==> r[i] == t[i - 1];
      }
    }
  }

  /** `sorted(sums, key=lambda x: x[0])`, a stable sort by name. */
  function SortByName(xs: seq<Md5Sum>): seq<Md5Sum>
  {
    if xs == [] then [] else InsertByName(xs[|xs| - 1], SortByName(xs[..|xs| - 1]))
  }

  /** The md5 listing is ordered by name and holds exactly the sums computed. */
  lemma {:induction false} SortByNameSpec(xs: seq<Md5Sum>)
    ensures SortedByName(SortByName(xs))
    ensures multiset(SortByName(xs)) == multiset(xs)
    decreases |xs|
  {
    if xs != [] {
      var init, last := xs[..|xs| - 1], xs[|xs| - 1];
      SortByNameSpec(init);
      InsertSorted(last, SortByName(init));
      assert SortByName(xs) == InsertByName(last, SortByName(init));
      InsertPermutes(xs, init, last, SortByName(init));
    }
  }

  lemma InsertPermutes(xs: seq<Md5Sum>, init: seq<Md5Sum>, last: Md5Sum, sorted: seq<Md5Sum>)
    requires xs != [] && init == xs[..|xs| - 1] && last == xs[|xs| - 1]
    requires multiset(sorted) == multiset(init)
    ensures multiset(InsertByName(last, sorted)) == multiset(xs)
  {
    assert xs == init + [last];
  }

  /** One line of md5sums.txt: name, tab, digest. */
  function Md5Line(x: Md5Sum): string
  {
    x.0 + "\t" + x.1 + "\n"
  }

  /** The lines of md5sums.txt for entries in the given order. */
  function Md5Text(xs: seq<Md5Sum>): string
  {
    if xs == [] then "" else Md5Text(xs[..|xs| - 1]) + Md5Line(xs[|xs| - 1])
  }

  /** Without tabs or newlines in names and digests, each line of the file reads back as its entry. */
  lemma {:induction false} Md5TextLines(xs: seq<Md5Sum>)
    requires forall i :: 0 <= i < |xs| ==> '\n' !in xs[i].0 + "\t" + xs[i].1
    ensures Split(Md5Text(xs), '\n') == Md5Rows(xs) + [""]
    decreases |xs|
  {
    if xs != [] {
      var init := xs[..|xs| - 1];
      var x := xs[|xs| - 1];
      Md5TextLines(init);
      assert forall i :: 0 <= i < |init| ==> init[i] == xs[i];
      var line := x.0 + "\t" + x.1;
      assert Md5Text(xs) == Md5Text(init) + line + ['\n'] + "";
      SplitConcat(Md5Text(init) + line, '\n', "");
      SplitExtend(Md5Text(init), line, '\n');
      var prev := Md5Rows(init) + [""];
      assert prev[..|prev| - 1] == Md5Rows(init) && prev[|prev| - 1] + line == line;
      assert Split(Md5Text(init) + line, '\n') == Md5Rows(init) + [line];
      SplitWithoutSeparator("", '\n');
      assert Md5Rows(xs) == Md5Rows(init) + [line];
    }
  }

  /** The text of an entry's line without its newline. */
  function Md5Rows(xs: seq<Md5Sum>): seq<string>
  {
    if xs == [] then [] else Md5Rows(xs[..|xs| - 1]) + [xs[|xs| - 1].0 + "\t" + xs[|xs| - 1].1]
  }

  /**
   * The md5 step of `md5_multiqc`: unless md5sums.txt exists, the sums of
   * the project's fastq files are written one line each, ordered by name.
   * The digests are computed outside the model and passed in.
   */
  method Md5Sums(md5Exists: bool, sums: seq<Md5Sum>) returns (written: Option<string>)
    ensures md5Exists <==> written.None?
    ensures written.Some? ==> written.value == Md5Text(SortByName(sums))
  {
    if md5Exists {
      return None;
    }
    var sorted := SortByName(sums);
    var text := "";
    for k := 0 to |sorted|
      invariant text == Md5Text(sorted[..k])
    {
      assert sorted[..k + 1][..k] == sorted[..k];
      text := text + sorted[k].0 + "\t" + sorted[k].1 + "\n";
    }
    assert sorted[..|sorted|] == sorted;
    written := Some(text);
  }

  // ------------------------------------------------------------ moveOptDup

  /**
   * The new path of an optical-duplicate report: the third component from
   * the end, the project folder, gets the `FASTQC_` prefix. The lane
   * folder's glob for `duplicate.txt` reports two folders down only
   * yields paths with that many components.
   */
  function OptDupTarget(path: string): string
    requires |Split(path, '/')| >= 3
  {
    var parts := Split(path, '/');
    var n := |parts|;
    Join(parts[..n - 3] + ["FASTQC_" + parts[n - 3]] + parts[n - 2..], "/")
  }

  /** Reports under a FASTQC path were moved by an earlier run and stay. */
  predicate AlreadyMoved(path: string)
  {
    Contains(path, "FASTQC")
  }

  /** The lane's files after moving the reports `found[..k]`, in order. */
  function MovedUpTo(files: set<string>, found: seq<string>, k: nat): set<string>
    requires k <= |found|
    requires forall i :: 0 <= i < |found| ==> |Split(found[i], '/')| >= 3
  {
    if k == 0 then files
    else
      var before := MovedUpTo(files, found, k - 1);
      var p := found[k - 1];
      if AlreadyMoved(p) then before else (before - {p}) + {OptDupTarget(p)}
  }

  /** A lane output folder whose files the post-processing renames. */
  class LaneFolder {
    var files: set<string>

    constructor (files0: set<string>)
      ensures files == files0
    {
      files := files0;
    }

    /**
     * `moveOptDup(laneFolder)`: every duplicate report `found` by the
     * glob that is not already under a FASTQC path is renamed into the
     * FASTQC_ project folder.
     */
    method MoveOptDup(found: seq<string>)
      requires forall i :: 0 <= i < |found| ==> |Split(found[i], '/')| >= 3
      modifies this
      ensures files == MovedUpTo(old(files), found, |found|)
    {
      for k := 0 to |found|
        invariant files == MovedUpTo(old(files), found, k)
      {
        var txt := found[k];
        if !AlreadyMoved(txt) {
          files := (files - {txt}) + {OptDupTarget(txt)};
        }
      }
    }
  }

  /** `lane/x1/x2/x3_duplicate.txt` moves to `lane/FASTQC_x1/x2/x3_duplicate.txt`. */
  lemma OptDupShape(lane: string, x1: string, x2: string, x3: string)
    requires '/' !in x1 && '/' !in x2 && '/' !in x3
    ensures |Split(lane + "/" + x1 + "/" + x2 + "/" + x3, '/')| >= 3
    ensures OptDupTarget(lane + "/" + x1 + "/" + x2 + "/" + x3) == lane + "/" + ("FASTQC_" + x1) + "/" + x2 + "/" + x3
  {
    var path := lane + "/" + x1 + "/" + x2 + "/" + x3;
    var pl := Split(lane, '/');
    OptDupParts(lane, x1, x2, x3);
    var parts := pl + [x1, x2, x3];
    assert parts[..|parts| - 3] == pl && parts[|parts| - 3] == x1 && parts[|parts| - 2..] == [x2, x3];
    OptDupJoin(pl, "FASTQC_" + x1, x2, x3, "/");
    JoinSplit(lane, '/');
  }

  lemma OptDupParts(lane: string, x1: string, x2: string, x3: string)
    requires '/' !in x1 && '/' !in x2 && '/' !in x3
    ensures Split(lane + "/" + x1 + "/" + x2 + "/" + x3, '/') == Split(lane, '/') + [x1, x2, x3]
  {
    assert lane + "/" + x1 + "/" + x2 + "/" + x3 == lane + ['/'] + (x1 + ['/'] + (x2 + ['/'] + x3));
    SplitConcat(lane, '/', x1 + ['/'] + (x2 + ['/'] + x3));
    SplitConcat(x1, '/', x2 + ['/'] + x3);
    SplitConcat(x2, '/', x3);
    SplitWithoutSeparator(x1, '/');
    SplitWithoutSeparator(x2, '/');
    SplitWithoutSeparator(x3, '/');
  }

  lemma OptDupJoin(pl: seq<string>, y1: string, x2: string, x3: string, sep: string)
    requires |pl| > 0
    ensures Join(pl + [y1] + [x2, x3], sep) == Join(pl, sep) + sep + y1 + sep + x2 + sep + x3
  {
    assert pl + [y1] + [x2, x3] == pl + [y1, x2, x3];
    JoinConcat(pl, [y1, x2, x3], sep);
    JoinCons(y1, [x2, x3], sep);
    JoinCons(x2, [x3], sep);
    assert [y1] + [x2, x3] == [y1, x2, x3] && [x2] + [x3] == [x2, x3];
    assert Join([x3], sep) == x3;
  }

  /** A moved report is under a FASTQC path, so a rerun leaves it where it is. */
  lemma OptDupRerun(lane: string, x1: string, x2: string, x3: string)
    requires '/' !in x1 && '/' !in x2 && '/' !in x3
    ensures |Split(lane + "/" + x1 + "/" + x2 + "/" + x3, '/')| >= 3
    ensures AlreadyMoved(OptDupTarget(lane + "/" + x1 + "/" + x2 + "/" + x3))
  {
    OptDupShape(lane, x1, x2, x3);
    FastqcInside(lane, x1, x2, x3);
  }

  lemma FastqcInside(lane: string, x1: string, x2: string, x3: string)
    ensures Contains(lane + "/" + ("FASTQC_" + x1) + "/" + x2 + "/" + x3, "FASTQC")
  {
    var f := "FASTQC";
    var b := "_" + x1 + "/" + x2 + "/" + x3;
    assert lane + "/" + ("FASTQC_" + x1) + "/" + x2 + "/" + x3 == (lane + "/") + f + b;
    ContainsMiddle(lane + "/", f, b);
  }
}
