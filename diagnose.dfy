// Barcode diagnosis of a flow cell (src/wd40/diagnose.py): reverse
// complements, the converted sample sheet, the undetermined barcodes seen
// often enough to be a lost sample, and the re-assignment of failed
// samples' indices to such barcodes.
module Diagnose {
  import opened Wrappers
  import opened Text

  const ListIndexError := "IndexError: list index out of range"
  const ZeroCount := "ZeroDivisionError: division by zero"
  const NoReadCount := "KeyError: 'readCount'"

  // -------------------------------------------------------------------- revC

  /**
   * Biopython's IUPAC DNA complement, both cases, where an RNA 'U' also
   * pairs with 'A'; any other character stays.
   */
  function Complement(c: char): char
  {
    match c
    case 'A' => 'T' case 'T' => 'A' case 'C' => 'G' case 'G' => 'C'
    case 'M' => 'K' case 'K' => 'M' case 'R' => 'Y' case 'Y' => 'R'
    case 'W' => 'W' case 'S' => 'S' case 'V' => 'B' case 'B' => 'V'
    case 'H' => 'D' case 'D' => 'H' case 'X' => 'X' case 'N' => 'N'
    case 'a' => 't' case 't' => 'a' case 'c' => 'g' case 'g' => 'c'
    case 'm' => 'k' case 'k' => 'm' case 'r' => 'y' case 'y' => 'r'
    case 'w' => 'w' case 's' => 's' case 'v' => 'b' case 'b' => 'v'
    case 'h' => 'd' case 'd' => 'h' case 'x' => 'x' case 'n' => 'n'
    case 'U' => 'A' case 'u' => 'a'
    case _ => c
  }

  /** Complementing twice gives back every character but 'U', which comes back as 'T'. */
  lemma ComplementInvolutive(c: char)
    ensures c != 'U' && c != 'u' ==> Complement(Complement(c)) == c
    ensures c == 'U' ==> Complement(Complement(c)) == 'T'
    ensures c == 'u' ==> Complement(Complement(c)) == 't'
  {
  }

  /** `revC`: the reverse complement of a sequence. */
  function RevC(s: string): (r: string)
    ensures |r| == |s|
  {
    seq(|s|, i requires 0 <= i < |s| => Complement(s[|s| - 1 - i]))
  }

  /** Taking the reverse complement twice gives a sequence without 'U' back. */
  lemma RevCInvolutive(s: string)
    requires 'U' !in s && 'u' !in s
    ensures RevC(RevC(s)) == s
  {
    var r := RevC(s);
    forall i | 0 <= i < |s| ensures RevC(r)[i] == s[i] {
      ComplementInvolutive(s[i]);
    }
  }

  /** The reverse complement of a concatenation swaps and complements the halves. */
  lemma RevCConcat(a: string, b: string)
    ensures RevC(a + b) == RevC(b) + RevC(a)
  {
  }

  // --------------------------------------------------- first occurrence wins

  /** The dict built by `if key not in d: d[key] = value` over the entries in order. */
  function FirstWins<V>(entries: seq<(string, V)>): map<string, V>
    decreases |entries|
  {
    if entries == [] then map[]
    else
      var d := FirstWins(entries[..|entries| - 1]);
      var (key, value) := entries[|entries| - 1];
      if key in d then d else d[key := value]
  }

  /** A key is in the dict iff some entry carries it, with the value of its first entry. */
  lemma {:induction false} FirstWinsFirst<V>(entries: seq<(string, V)>, key: string)
    ensures key in FirstWins(entries) <==> exists k :: 0 <= k < |entries| && entries[k].0 == key
    ensures key in FirstWins(entries) ==> exists k :: (0 <= k < |entries| && entries[k].0 == key
      && FirstWins(entries)[key] == entries[k].1 && forall i :: 0 <= i < k ==> entries[i].0 != key)
    decreases |entries|
  {
    if entries != [] {
      var n := |entries| - 1;
      var front := entries[..n];
      FirstWinsFirst(front, key);
      if key in FirstWins(front) {
        var k :| 0 <= k < n && front[k].0 == key
          && FirstWins(front)[key] == front[k].1 && forall i :: 0 <= i < k ==> front[i].0 != key;
        assert entries[k] == front[k];
        assert forall i :: 0 <= i < k ==> entries[i] == front[i];
      } else if entries[n].0 == key {
        assert forall i :: 0 <= i < n ==> entries[i] == front[i];
      } else {
        forall k | 0 <= k < |entries| ensures entries[k].0 != key {
          if k < n {
            assert entries[k] == front[k];
          }
        }
      }
    }
  }

  lemma FirstWinsSnoc<V>(entries: seq<(string, V)>, e: (string, V))
    ensures FirstWins(entries + [e]) == if e.0 in FirstWins(entries) then FirstWins(entries) else FirstWins(entries)[e.0 := e.1]
  {
    assert (entries + [e])[..|entries|] == entries;
  }

  // ----------------------------------------------------------------- parseSS

  predicate Is22L(line: string) { "22L" <= line }

  function SheetFields(line: string): (lis: seq<string>)
    ensures |lis| > 0
  {
    Split(Strip(line), ',')
  }

  /** The lines `parseSS` indexes into: every '22L' line has the three fields it reads. */
  predicate Indexable(line: string)
  {
    !Is22L(line) || |SheetFields(line)| >= 3
  }

  /** A sample line's entry: its fields after the ID, the project given the 'Project_' prefix. */
  function SheetEntry(line: string): (e: (string, seq<string>))
    requires Is22L(line) && |SheetFields(line)| >= 3
    ensures |e.1| == |SheetFields(line)| - 1 && e.1[1] == "Project_" + SheetFields(line)[2]
  {
    var lis := SheetFields(line);
    (lis[0], [lis[1], "Project_" + lis[2]] + lis[3..])
  }

  /** The '22L' lines' entries, in file order. */
  function SheetEntries(lines: seq<string>): (es: seq<(string, seq<string>)>)
    requires forall i :: 0 <= i < |lines| ==> Indexable(lines[i])
    ensures |es| <= |lines|
    decreases |lines|
  {
    if lines == [] then []
    else
      var front := SheetEntries(lines[..|lines| - 1]);
      var line := lines[|lines| - 1];
      assert Indexable(line);
      if Is22L(line) then front + [SheetEntry(line)] else front
  }

  /** A '22L' line with the fields `parseSS` reads, whose entry is `e`. */
  predicate GivesEntry(line: string, e: (string, seq<string>))
  {
    Is22L(line) && |SheetFields(line)| >= 3 && SheetEntry(line) == e
  }

  /** Every entry comes from a '22L' line and every '22L' line gives one. */
  lemma {:induction false} SheetEntriesFrom(lines: seq<string>, e: (string, seq<string>))
    requires forall i :: 0 <= i < |lines| ==> Indexable(lines[i])
    ensures e in SheetEntries(lines) <==> exists k :: 0 <= k < |lines| && GivesEntry(lines[k], e)
    decreases |lines|
  {
    if lines != [] {
      var n := |lines| - 1;
      assert forall k :: 0 <= k < n ==> lines[..n][k] == lines[k];
      SheetEntriesFrom(lines[..n], e);
      var line := lines[n];
      assert Indexable(line);
      if Is22L(line) {
        SnocIff(SheetEntries(lines[..n]), SheetEntries(lines), SheetEntry(line), e, true);
      } else {
        SnocIff(SheetEntries(lines[..n]), SheetEntries(lines), e, e, false);
      }
      SheetLineSnoc(lines, e);
    }
  }

  /** A line giving the entry is among the first lines or is the last one. */
  lemma SheetLineSnoc(lines: seq<string>, e: (string, seq<string>))
    requires lines != []
    ensures (exists k :: 0 <= k < |lines| && GivesEntry(lines[k], e)) <==>
      ((exists k :: 0 <= k < |lines| - 1 && GivesEntry(lines[k], e)) || GivesEntry(lines[|lines| - 1], e))
  {
  }

  /** Membership in a list that may have gained one last item. */
  lemma SnocIff<T>(front: seq<T>, all: seq<T>, last: T, e: T, added: bool)
    requires all == if added then front + [last] else front
    ensures e in all <==> e in front || (added && last == e)
  {
  }

  /**
   * `parseSS`: without `convert` nothing is read (None). With it, every
   * line starting '22L' is split on ','; the first line of an ID gives its
   * entry; a '22L' line with fewer than three fields is the IndexError.
   */
  method ParseSS(lines: seq<string>, convert: bool) returns (r: Result<Option<map<string, seq<string>>>>)
    ensures !convert ==> r == Ok(None)
    ensures convert ==> (r.Err? <==> exists i :: 0 <= i < |lines| && !Indexable(lines[i]))
    ensures r.Err? ==> r.reason == ListIndexError
    ensures r.Ok? && convert ==>
      (forall i :: 0 <= i < |lines| ==> Indexable(lines[i])) && r.value == Some(FirstWins(SheetEntries(lines)))
  {
    if !convert {
      return Ok(None);
    }
    var sampleDic: map<string, seq<string>> := map[];
    var k := 0;
    while k < |lines|
      invariant 0 <= k <= |lines|
      invariant forall i :: 0 <= i < k ==> Indexable(lines[i])
      invariant sampleDic == FirstWins(SheetEntries(lines[..k]))
    {
      var line := lines[k];
      assert lines[..k + 1][..k] == lines[..k];
      if Is22L(line) {
        var lis := SheetFields(line);
        if |lis| < 3 {
          return Err(ListIndexError);
        }
        var e := SheetEntry(line);
        FirstWinsSnoc(SheetEntries(lines[..k]), e);
        if lis[0] !in sampleDic {
          sampleDic := sampleDic[lis[0] := e.1];
        }
      }
      k := k + 1;
    }
    assert lines[..k] == lines;
    r := Ok(Some(sampleDic));
  }

  // ---------------------------------------------------------------- parseUnd

  /**
   * Whether an unknown barcode seen `count` times is a candidate:
   * `round(depth / count) == 1` (half to even, so strictly between 0.5 and
   * 1.5) or more reads than the depth. A zero count is never one: the
   * division fails before the test (see `ScanLane`).
   */
  predicate Candidate(depth: int, count: nat)
  {
    count > 0 && ((count < 2 * depth && 2 * depth < 3 * count) || depth < count)
  }

  /** Every barcode was seen at least once. */
  predicate Positive(barcodes: seq<(string, nat)>)
  {
    forall i :: 0 <= i < |barcodes| ==> barcodes[i].1 > 0
  }

  /** The unknown barcodes of all lanes, lane after lane. */
  function Barcodes(lanes: seq<seq<(string, nat)>>): seq<(string, nat)>
    decreases |lanes|
  {
    if lanes == [] then [] else Barcodes(lanes[..|lanes| - 1]) + lanes[|lanes| - 1]
  }

  /** The candidates among the barcodes, in order. */
  function Candidates(barcodes: seq<(string, nat)>, depth: int): (cs: seq<(string, nat)>)
    ensures forall i :: 0 <= i < |cs| ==> cs[i] in barcodes && cs[i].1 > 0 && Candidate(depth, cs[i].1)
    decreases |barcodes|
  {
    if barcodes == [] then []
    else
      var front := Candidates(barcodes[..|barcodes| - 1], depth);
      var b := barcodes[|barcodes| - 1];
      if Candidate(depth, b.1) then front + [b] else front
  }

  /** Every barcode that passes the test is among the candidates. */
  lemma {:induction false} CandidatesComplete(barcodes: seq<(string, nat)>, depth: int, k: nat)
    requires k < |barcodes| && Candidate(depth, barcodes[k].1)
    ensures barcodes[k] in Candidates(barcodes, depth)
    decreases |barcodes|
  {
    var n := |barcodes| - 1;
    if k < n {
      assert barcodes[..n][k] == barcodes[k];
      CandidatesComplete(barcodes[..n], depth, k);
    }
  }

  /**
   * `parseUnd`: over the lanes' unknown barcodes, the first count of each
   * candidate barcode; a barcode counted 0 times is the ZeroDivisionError.
   */
  method ParseUnd(lanes: seq<seq<(string, nat)>>, depth: int) returns (r: Result<map<string, nat>>)
    ensures r.Err? <==> exists i :: 0 <= i < |Barcodes(lanes)| && Barcodes(lanes)[i].1 == 0
    ensures r.Err? ==> r.reason == ZeroCount
    ensures r.Ok? ==>
      Positive(Barcodes(lanes)) && r.value == FirstWins(Candidates(Barcodes(lanes), depth))
  {
    var candidates: map<string, nat> := map[];
    var l := 0;
    while l < |lanes|
      invariant 0 <= l <= |lanes|
      invariant Positive(Barcodes(lanes[..l]))
      invariant candidates == FirstWins(Candidates(Barcodes(lanes[..l]), depth))
    {
      assert lanes[..l + 1][..l] == lanes[..l];
      var scanned := ScanLane(Barcodes(lanes[..l]), lanes[l], depth, candidates);
      if scanned.Err? {
        BarcodesGrow(lanes, l + 1);
        var i :| 0 <= i < |lanes[l]| && lanes[l][i].1 == 0;
        assert Barcodes(lanes)[|Barcodes(lanes[..l])| + i] == lanes[l][i];
        return Err(ZeroCount);
      }
      candidates := scanned.value;
      l := l + 1;
    }
    assert lanes[..l] == lanes;
    r := Ok(candidates);
  }

  /** The inner loop of `parseUnd` over one lane's barcodes, after the barcodes `seen` before it. */
  method ScanLane(seen: seq<(string, nat)>, lane: seq<(string, nat)>, depth: int, candidates: map<string, nat>)
    returns (r: Result<map<string, nat>>)
    requires Positive(seen)
    requires candidates == FirstWins(Candidates(seen, depth))
    ensures r.Err? <==> exists i :: 0 <= i < |lane| && lane[i].1 == 0
    ensures r.Ok? ==>
      Positive(seen + lane) && r.value == FirstWins(Candidates(seen + lane, depth))
  {
    var found := candidates;
    var j := 0;
    while j < |lane|
      invariant 0 <= j <= |lane|
      invariant forall i :: 0 <= i < j ==> lane[i].1 > 0
      invariant found == Found(candidates, lane, j, depth)
    {
      var b := lane[j];
      if b.1 == 0 {
        ZeroWitness(lane, j);
        return Err(ZeroCount);
      }
      if Candidate(depth, b.1) && b.0 !in found {
        found := found[b.0 := b.1];
      }
      j := j + 1;
    }
    FoundAll(seen, lane, |lane|, depth, candidates);
    assert lane[..|lane|] == lane;
    PositiveJoin(seen, lane);
    r := Ok(found);
  }

  /** The candidates after the first `j` barcodes of `lane`, starting from `candidates`. */
  ghost function Found(candidates: map<string, nat>, lane: seq<(string, nat)>, j: nat, depth: int): map<string, nat>
    requires j <= |lane|
  {
    if j == 0 then candidates
    else
      var prev := Found(candidates, lane, j - 1, depth);
      var b := lane[j - 1];
      if Candidate(depth, b.1) && b.0 !in prev then prev[b.0 := b.1] else prev
  }

  lemma ZeroWitness(lane: seq<(string, nat)>, j: nat)
    requires j < |lane| && lane[j].1 == 0
    ensures exists i :: 0 <= i < |lane| && lane[i].1 == 0
  {
  }

  lemma PositiveJoin(seen: seq<(string, nat)>, lane: seq<(string, nat)>)
    requires Positive(seen)
    requires forall i :: 0 <= i < |lane| ==> lane[i].1 > 0
    ensures Positive(seen + lane)
  {
  }

  /** The loop's map is the first-wins dict of all candidates seen so far. */
  lemma {:induction false} FoundAll(seen: seq<(string, nat)>, lane: seq<(string, nat)>, j: nat, depth: int, candidates: map<string, nat>)
    requires j <= |lane|
    requires candidates == FirstWins(Candidates(seen, depth))
    ensures Found(candidates, lane, j, depth) == FirstWins(Candidates(seen + lane[..j], depth))
  {
    if j == 0 {
      assert seen + lane[..0] == seen;
    } else {
      FoundAll(seen, lane, j - 1, depth, candidates);
      FoundNext(seen, lane, j, depth, candidates);
    }
  }

  lemma FoundNext(seen: seq<(string, nat)>, lane: seq<(string, nat)>, j: nat, depth: int, candidates: map<string, nat>)
    requires 0 < j <= |lane|
    requires Found(candidates, lane, j - 1, depth) == FirstWins(Candidates(seen + lane[..j - 1], depth))
    ensures Found(candidates, lane, j, depth) == FirstWins(Candidates(seen + lane[..j], depth))
  {
    var prev, b, prefix := Found(candidates, lane, j - 1, depth), lane[j - 1], seen + lane[..j - 1];
    PrefixSnoc(seen, lane, j - 1);
    FoundStep(prefix, b, seen + lane[..j], prev, depth);
  }

  /** One barcode extends the first-wins dict of the candidates as the loop does. */
  lemma FoundStep(prefix: seq<(string, nat)>, b: (string, nat), all: seq<(string, nat)>, prev: map<string, nat>, depth: int)
    requires all == prefix + [b]
    requires prev == FirstWins(Candidates(prefix, depth))
    ensures (if Candidate(depth, b.1) && b.0 !in prev then prev[b.0 := b.1] else prev)
      == FirstWins(Candidates(all, depth))
  {
    CandidatesSnoc(prefix, b, depth);
    if Candidate(depth, b.1) {
      FirstWinsSnoc(Candidates(prefix, depth), b);
    }
  }

  lemma PrefixSnoc<T>(seen: seq<T>, lane: seq<T>, j: nat)
    requires j < |lane|
    ensures seen + lane[..j + 1] == (seen + lane[..j]) + [lane[j]]
  {
    assert lane[..j + 1] == lane[..j] + [lane[j]];
  }

  lemma CandidatesSnoc(barcodes: seq<(string, nat)>, b: (string, nat), depth: int)
    ensures Candidates(barcodes + [b], depth) == if Candidate(depth, b.1) then Candidates(barcodes, depth) + [b] else Candidates(barcodes, depth)
  {
    assert (barcodes + [b])[..|barcodes|] == barcodes;
  }

  /** The barcodes of a prefix of the lanes are a prefix of all barcodes. */
  lemma {:induction false} BarcodesGrow(lanes: seq<seq<(string, nat)>>, l: nat)
    requires l <= |lanes|
    ensures Barcodes(lanes[..l]) <= Barcodes(lanes)
    decreases |lanes| - l
  {
    if l < |lanes| {
      BarcodesGrow(lanes, l + 1);
      assert lanes[..l + 1][..l] == lanes[..l];
    } else {
      assert lanes[..l] == lanes;
    }
  }
  // ------------------------------------------------------------- crapMatcher

  /** A sample sheet row as `crapMatcher` reads and writes it. */
  datatype SampleRow = SampleRow(name: string, index: string, index2: string)

  /** The sample frame `crapMatcher` updates in place; `readCount` is the column it deletes. */
  class SampleFrame {
    var rows: seq<SampleRow>
    var readCount: Option<seq<int>>

    constructor(rows: seq<SampleRow>, readCount: Option<seq<int>>)
      ensures this.rows == rows && this.readCount == readCount
    {
      this.rows := rows;
      this.readCount := readCount;
    }
  }

  /** An undetermined combination 'index+index2' as its two parts. */
  function CandidatePair(comb: string): (r: Result<(string, string)>)
    ensures r.Err? <==> '+' !in comb
  {
    var parts := Split(comb, '+');
    if |parts| < 2 then
      (if '+' in comb then SplitAtLeastTwo(comb, '+'); Err(ListIndexError) else Err(ListIndexError))
    else
      assert '+' in comb by {
        if '+' !in comb {
          SplitWithoutSeparator(comb, '+');
        }
      }
      Ok((parts[0], parts[1]))
  }

  lemma CandidatePairOf(index: string, index2: string)
    requires '+' !in index && '+' !in index2
    ensures CandidatePair(index + "+" + index2) == Ok((index, index2))
  {
    SplitAtFirstSeparator(index, index2, '+');
    SplitWithoutSeparator(index2, '+');
  }

  /** `candNes`: every candidate split on '+', or the IndexError of one without '+'. */
  function CandidatePairs(combs: seq<string>): (r: Result<seq<(string, string)>>)
    ensures r.Err? <==> exists i :: 0 <= i < |combs| && '+' !in combs[i]
    ensures r.Ok? ==> |r.value| == |combs| && forall i :: 0 <= i < |combs| ==> Ok(r.value[i]) == CandidatePair(combs[i])
    decreases |combs|
  {
    if combs == [] then Ok([])
    else
      var n := |combs| - 1;
      match CandidatePairs(combs[..n])
      case Err(e) => Err(e)
      case Ok(front) =>
        match CandidatePair(combs[n])
        case Err(e) => Err(e)
        case Ok(pair) =>
          assert forall i :: 0 <= i < n ==> combs[..n][i] == combs[i];
          Ok(front + [pair])
  }

  /** The samples below depth: name to (index, index2), a later row of the same name winning. */
  function Failing(rows: seq<SampleRow>, counts: seq<int>, depth: int): map<string, (string, string)>
    requires |counts| == |rows|
    decreases |rows|
  {
    if rows == [] then map[]
    else
      var n := |rows| - 1;
      var front := Failing(rows[..n], counts[..n], depth);
      if counts[n] < depth then front[rows[n].name := (rows[n].index, rows[n].index2)] else front
  }

  /** A name fails iff one of its rows is below depth; its indices are those of its last such row. */
  lemma {:induction false} FailingLast(rows: seq<SampleRow>, counts: seq<int>, depth: int, name: string)
    requires |counts| == |rows|
    ensures name in Failing(rows, counts, depth) <==> exists i :: 0 <= i < |rows| && rows[i].name == name && counts[i] < depth
    ensures name in Failing(rows, counts, depth) ==> exists i :: (0 <= i < |rows| && rows[i].name == name && counts[i] < depth
      && Failing(rows, counts, depth)[name] == (rows[i].index, rows[i].index2)
      && forall j :: i < j < |rows| && rows[j].name == name ==> counts[j] >= depth)
    decreases |rows|
  {
    if rows != [] {
      var n := |rows| - 1;
      FailingLast(rows[..n], counts[..n], depth, name);
      if !(counts[n] < depth && rows[n].name == name) {
        if name in Failing(rows[..n], counts[..n], depth) {
          var i :| 0 <= i < n && rows[..n][i].name == name && counts[..n][i] < depth
            && Failing(rows[..n], counts[..n], depth)[name] == (rows[..n][i].index, rows[..n][i].index2)
            && forall j :: i < j < n && rows[..n][j].name == name ==> counts[..n][j] >= depth;
          assert rows[..n][i] == rows[i] && counts[..n][i] == counts[i];
          forall j | i < j < |rows| && rows[j].name == name ensures counts[j] >= depth {
            if j < n {
              assert rows[..n][j] == rows[j] && counts[..n][j] == counts[j];
            }
          }
        } else {
          forall i | 0 <= i < |rows| && rows[i].name == name ensures counts[i] >= depth {
            if i < n {
              assert rows[..n][i] == rows[i] && counts[..n][i] == counts[i];
            }
          }
        }
      }
    }
  }

  /** A candidate pair fits a failed sample when it holds its index and the reverse complement of its index2. */
  predicate Fits(sample: (string, string), pair: (string, string))
  {
    (sample.0 == pair.0 || sample.0 == pair.1) && (RevC(sample.1) == pair.0 || RevC(sample.1) == pair.1)
  }

  /** The last candidate pair that fits the sample, as the inner loop leaves it. */
  function LastFit(sample: (string, string), pairs: seq<(string, string)>): (r: Option<(string, string)>)
    ensures r.None? <==> forall i :: 0 <= i < |pairs| ==> !Fits(sample, pairs[i])
    ensures r.Some? ==> exists i :: (0 <= i < |pairs| && pairs[i] == r.value && Fits(sample, r.value)
      && forall j :: i < j < |pairs| ==> !Fits(sample, pairs[j]))
    decreases |pairs|
  {
    if pairs == [] then None
    else
      var n := |pairs| - 1;
      if Fits(sample, pairs[n]) then Some(pairs[n])
      else
        var r := LastFit(sample, pairs[..n]);
        assert forall i :: 0 <= i < n ==> pairs[..n][i] == pairs[i];
        r
  }

  /** `updateDic`: each failed sample a candidate pair fits, with the last pair that fits. */
  function Updates(failing: map<string, (string, string)>, pairs: seq<(string, string)>): map<string, (string, string)>
  {
    map f | f in failing && LastFit(failing[f], pairs).Some? :: LastFit(failing[f], pairs).value
  }

  /** A sample is updated iff some candidate pair fits it, and then to a fitting pair. */
  lemma UpdatesFit(failing: map<string, (string, string)>, pairs: seq<(string, string)>, f: string)
    ensures f in Updates(failing, pairs) <==> f in failing && exists i :: 0 <= i < |pairs| && Fits(failing[f], pairs[i])
    ensures f in Updates(failing, pairs) ==> Updates(failing, pairs)[f] in pairs && Fits(failing[f], Updates(failing, pairs)[f])
  {
    if f in failing && LastFit(failing[f], pairs).Some? {
      var i :| 0 <= i < |pairs| && pairs[i] == LastFit(failing[f], pairs).value && Fits(failing[f], pairs[i])
        && forall j :: i < j < |pairs| ==> !Fits(failing[f], pairs[j]);
    }
  }

  /** Every row of an updated name gets the pair as its indices; the other rows stay. */
  function Retagged(rows: seq<SampleRow>, updates: map<string, (string, string)>): (r: seq<SampleRow>)
    ensures |r| == |rows|
    ensures forall i :: 0 <= i < |rows| ==> r[i].name == rows[i].name
  {
    seq(|rows|, i requires 0 <= i < |rows| => if rows[i].name in updates then Retag1(rows[i], updates[rows[i].name]) else rows[i])
  }

  function Retag1(row: SampleRow, pair: (string, string)): SampleRow
  {
    SampleRow(row.name, pair.0, pair.1)
  }

  /** Only rows whose name some row below depth carries can change, and to a candidate pair. */
  lemma RetaggedOnlyFailing(rows: seq<SampleRow>, counts: seq<int>, depth: int, pairs: seq<(string, string)>, i: nat)
    requires |counts| == |rows| && i < |rows|
    ensures Retagged(rows, Updates(Failing(rows, counts, depth), pairs))[i] != rows[i] ==>
      (exists j :: 0 <= j < |rows| && rows[j].name == rows[i].name && counts[j] < depth)
      && (Retagged(rows, Updates(Failing(rows, counts, depth), pairs))[i].index,
          Retagged(rows, Updates(Failing(rows, counts, depth), pairs))[i].index2) in pairs
  {
    var failing := Failing(rows, counts, depth);
    FailingLast(rows, counts, depth, rows[i].name);
    UpdatesFit(failing, pairs, rows[i].name);
  }

  /** The `candNes` loop. */
  method SplitCandidates(combs: seq<string>) returns (r: Result<seq<(string, string)>>)
    ensures r == CandidatePairs(combs)
  {
    var candNes: seq<(string, string)> := [];
    var k := 0;
    while k < |combs|
      invariant 0 <= k <= |combs|
      invariant CandidatePairs(combs[..k]) == Ok(candNes)
    {
      assert combs[..k + 1][..k] == combs[..k];
      var pair := CandidatePair(combs[k]);
      if pair.Err? {
        assert CandidatePairs(combs[..k + 1]).Err?;
        CandidatePairsErr(combs, k + 1);
        return Err(pair.reason);
      }
      candNes := candNes + [pair.value];
      k := k + 1;
    }
    assert combs[..k] == combs;
    r := Ok(candNes);
  }

  /** Once a prefix fails, the whole list fails with it. */
  lemma CandidatePairsErr(combs: seq<string>, k: nat)
    requires k <= |combs| && CandidatePairs(combs[..k]).Err?
    ensures CandidatePairs(combs) == CandidatePairs(combs[..k])
  {
    var i :| 0 <= i < k && '+' !in combs[..k][i];
    CandidatePairsFirstErr(combs[..k]);
    CandidatePairsFirstErr(combs);
  }

  /** A failing list fails with the reason of its first unsplittable entry. */
  lemma {:induction false} CandidatePairsFirstErr(combs: seq<string>)
    requires CandidatePairs(combs).Err?
    ensures CandidatePairs(combs) == Err(ListIndexError)
    decreases |combs|
  {
    var n := |combs| - 1;
    if CandidatePairs(combs[..n]).Err? {
      CandidatePairsFirstErr(combs[..n]);
    }
  }

  /** The `samplesDic` loop over the rows below depth. */
  method FailingSamples(rows: seq<SampleRow>, counts: seq<int>, depth: int) returns (samplesDic: map<string, (string, string)>)
    requires |counts| == |rows|
    ensures samplesDic == Failing(rows, counts, depth)
  {
    samplesDic := map[];
    var k := 0;
    while k < |rows|
      invariant 0 <= k <= |rows|
      invariant samplesDic == Failing(rows[..k], counts[..k], depth)
    {
      assert rows[..k + 1][..k] == rows[..k] && counts[..k + 1][..k] == counts[..k];
      if counts[k] < depth {
        samplesDic := samplesDic[rows[k].name := (rows[k].index, rows[k].index2)];
      }
      k := k + 1;
    }
    assert rows[..k] == rows && counts[..k] == counts;
  }

  /** The inner loop over the candidates for one failed sample. */
  method FitFor(sample: (string, string), candNes: seq<(string, string)>) returns (found: Option<(string, string)>)
    ensures found == LastFit(sample, candNes)
  {
    found := None;
    var k := 0;
    while k < |candNes|
      invariant 0 <= k <= |candNes|
      invariant found == LastFit(sample, candNes[..k])
    {
      LastFitSnoc(sample, candNes, k);
      if sample.0 in [candNes[k].0, candNes[k].1] && RevC(sample.1) in [candNes[k].0, candNes[k].1] {
        found := Some(candNes[k]);
      }
      k := k + 1;
    }
    assert candNes[..k] == candNes;
  }

  /** One more candidate pair: it is the last fit if it fits, else the last fit stays. */
  lemma LastFitSnoc(sample: (string, string), pairs: seq<(string, string)>, k: nat)
    requires k < |pairs|
    ensures LastFit(sample, pairs[..k + 1]) ==
      if sample.0 in [pairs[k].0, pairs[k].1] && RevC(sample.1) in [pairs[k].0, pairs[k].1]
      then Some(pairs[k]) else LastFit(sample, pairs[..k])
  {
    assert pairs[..k + 1][..k] == pairs[..k];
  }

  /** The `updateDic` loop over the failed samples. */
  method MatchFailures(samplesDic: map<string, (string, string)>, candNes: seq<(string, string)>)
    returns (updateDic: map<string, (string, string)>)
    ensures updateDic == Updates(samplesDic, candNes)
  {
    updateDic := map[];
    var todo := samplesDic.Keys;
    while todo != {}
      invariant todo <= samplesDic.Keys
      invariant forall f :: f in updateDic <==> f in samplesDic && f !in todo && LastFit(samplesDic[f], candNes).Some?
      invariant forall f :: f in updateDic ==> updateDic[f] == LastFit(samplesDic[f], candNes).value
      decreases todo
    {
      var failure :| failure in todo;
      var found := FitFor(samplesDic[failure], candNes);
      if found.Some? {
        updateDic := updateDic[failure := found.value];
      }
      todo := todo - {failure};
    }
    assert updateDic.Keys == Updates(samplesDic, candNes).Keys;
  }

  /** The `.loc` assignments: every row of each updated name gets that name's pair. */
  method Retag(ssdf: SampleFrame, updateDic: map<string, (string, string)>)
    modifies ssdf
    ensures ssdf.rows == Retagged(old(ssdf.rows), updateDic)
    ensures ssdf.readCount == old(ssdf.readCount)
  {
    ghost var rows0 := ssdf.rows;
    var done: set<string> := {};
    var todo := updateDic.Keys;
    while todo != {}
      invariant todo <= updateDic.Keys && done == updateDic.Keys - todo
      invariant |ssdf.rows| == |rows0| && ssdf.readCount == old(ssdf.readCount)
      invariant forall i :: 0 <= i < |rows0| ==>
        ssdf.rows[i] == if rows0[i].name in done then Retag1(rows0[i], updateDic[rows0[i].name]) else rows0[i]
      decreases todo
    {
      var update :| update in todo;
      var rows := ssdf.rows;
      ssdf.rows := seq(|rows|, i requires 0 <= i < |rows| => if rows[i].name == update then Retag1(rows[i], updateDic[update]) else rows[i]);
      done := done + {update};
      todo := todo - {update};
    }
    assert done == updateDic.Keys;
  }

  /**
   * `crapMatcher`: the samples below depth whose index and reverse
   * complemented index2 both occur in a candidate pair get that pair as
   * their indices (in every row of their name); the readCount column is
   * dropped and the number of updated samples returned. A candidate
   * without '+' or a frame without readCount raise before any change.
   */
  method CrapMatcher(ssdf: SampleFrame, candidates: seq<string>, depth: int) returns (r: Result<nat>)
    modifies ssdf
    ensures CandidatePairs(candidates).Err? ==> r == Err(ListIndexError) && unchanged(ssdf)
    ensures CandidatePairs(candidates).Ok? && (old(ssdf.readCount).None? || |old(ssdf.readCount).value| != |old(ssdf.rows)|) ==>
      r == Err(NoReadCount) && unchanged(ssdf)
    ensures CandidatePairs(candidates).Ok? && old(ssdf.readCount).Some? && |old(ssdf.readCount).value| == |old(ssdf.rows)| ==>
      var updates := Updates(Failing(old(ssdf.rows), old(ssdf.readCount).value, depth), CandidatePairs(candidates).value);
      ssdf.rows == Retagged(old(ssdf.rows), updates) && ssdf.readCount.None? && r == Ok(|updates|)
  {
    var candNes := SplitCandidates(candidates);
    if candNes.Err? {
      CandidatePairsFirstErr(candidates);
      return Err(ListIndexError);
    }
    if ssdf.readCount.None? || |ssdf.readCount.value| != |ssdf.rows| {
      return Err(NoReadCount);
    }
    var samplesDic := FailingSamples(ssdf.rows, ssdf.readCount.value, depth);
    var updateDic := MatchFailures(samplesDic, candNes.value);
    Retag(ssdf, updateDic);
    ssdf.readCount := None;
    r := Ok(|updateDic|);
  }
}
