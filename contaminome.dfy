// The contaminome builder (`prep_contaminome.py`): the taxonomy dumps
// written for kraken2, the BLAST-hit-to-BED conversion that masks rRNA
// copies, and the loop that copies the downloaded genomes into the
// library, renaming every kept FASTA header after its taxid and dropping
// the mitochondria listed per species.
module Contaminome {
  import opened Wrappers
  import opened Text

  const ListIndexError := "IndexError: list index out of range"
  const UnboundStatus := "UnboundLocalError: cannot access local variable 'appendStatus' where it is not associated with a value"

  /** Python's message for `int(word)` on a word that is not a number. */
  function BadInt(word: string): string
  {
    "ValueError: invalid literal for int() with base 10: '" + word + "'"
  }

  // ---------------------------------------------------------------------
  // The fixed tables

  /** One entry of `taxmap`: the name, then `[taxid, parent, rank]`. */
  datatype Taxon = Taxon(name: string, taxid: nat, parent: nat, rank: string)

  const NoRank := "no rank"
  const Domain := "domain"
  const Family := "family"
  const Species := "species"
  const ScientificName := "scientific name"

  /** `taxmap`, in its insertion order: the groups first, then the species. */
  const Taxmap: seq<Taxon> := [
    Taxon("root", 1, 1, NoRank),
    Taxon("alive", 2, 1, NoRank),
    Taxon("non-alive", 3, 1, NoRank),
    Taxon("eukaryote", 4, 2, Domain),
    Taxon("prokaryote", 5, 2, Domain),
    Taxon("phage", 6, 3, Domain),
    Taxon("virus", 7, 3, Domain),
    Taxon("vector", 8, 3, Domain),
    Taxon("humangrp", 9, 4, Family),
    Taxon("mousegrp", 10, 4, Family),
    Taxon("flygrp", 11, 4, Family),
    Taxon("pseudomonasgrp", 12, 5, Family),
    Taxon("eugrp", 13, 4, Family),
    Taxon("progrp", 14, 5, Family),
    Taxon("human", 9606, 9, Species),
    Taxon("mouse", 10090, 10, Species),
    Taxon("fly", 7227, 11, Species),
    Taxon("aedes-aegypti", 7159, 13, Species),
    Taxon("sea-lamprey", 7757, 13, Species),
    Taxon("japanese-medaka", 8090, 13, Species),
    Taxon("c-elegans", 6239, 13, Species),
    Taxon("yeast", 4932, 13, Species),
    Taxon("fission-yeast", 4896, 13, Species),
    Taxon("zebrafish", 7955, 13, Species),
    Taxon("moss-piglet", 232323, 13, Species),
    Taxon("ecoli", 562, 14, Species),
    Taxon("pseudomonas-aeruginosa", 287, 12, Species),
    Taxon("pseudomonas-putidia", 1211579, 12, Species),
    Taxon("pseudomonas-fulva", 47880, 12, Species),
    Taxon("pseudomonas-fluorescens", 294, 12, Species),
    Taxon("pseudomonas-yamanorum", 515393, 12, Species),
    Taxon("mycoplasma", 2148, 14, Species),
    Taxon("mycoplasma-hyorhinis", 2100, 14, Species),
    Taxon("haemophilus", 727, 14, Species),
    Taxon("wolbachia", 163164, 14, Species),
    Taxon("staph_aureus", 1280, 14, Species),
    Taxon("burkholderia-ubonensis", 1249668, 14, Species),
    Taxon("sars-cov2", 2697049, 7, Species),
    Taxon("flu-a", 335341, 7, Species),
    Taxon("noro", 11983, 7, Species),
    Taxon("flu-b", 11520, 7, Species),
    Taxon("common-cold-a", 573824, 7, Species),
    Taxon("common-cold-b", 12131, 7, Species),
    Taxon("drosophila-c-virus", 64279, 7, Species),
    Taxon("phix", 2886930, 6, Species),
    Taxon("lambdaphage", 10710, 6, Species),
    Taxon("vectors", 29278, 8, Species),
    Taxon("ercc", 292781111, 8, Species),
    Taxon("humanrrna", 96061111, 9, Species),
    Taxon("mouserrna", 100901111, 10, Species),
    Taxon("aedesaegyptirrna", 71591111, 13, Species),
    Taxon("zebrafishrrna", 79551111, 13, Species),
    Taxon("flyrrna", 72271111, 11, Species),
    Taxon("humanmito", 96062222, 9, Species),
    Taxon("mousemito", 100902222, 10, Species),
    Taxon("flymito", 72272222, 11, Species),
    Taxon("aedesaegyptimito", 71592222, 13, Species),
    Taxon("zebrafishmito", 79552222, 13, Species)
  ]

  const HumanMito := "NC_012920.1"

  /** `ignore_chrs`: the mitochondrial accessions left out of each genome. */
  const IgnoreChrs: map<string, seq<string>> := map[
    "human" := [HumanMito],
    "mouse" := ["NC_005089.1"],
    "fly" := ["NC_024511.2"],
    "aedes-aegypti" := ["NC_035159.1"],
    "zebrafish" := ["NC_002333.2"]
  ]

  /** `rrna_mask`: each genome with the rRNA library masked out of it. */
  const RrnaMask: seq<(string, string)> := [
    ("human", "humanrrna"),
    ("mouse", "mouserrna"),
    ("fly", "flyrrna"),
    ("aedes-aegypti", "aedesaegyptirrna"),
    ("zebrafish", "zebrafishrrna")
  ]

  // ---------------------------------------------------------------------
  // Writing one line per item

  /** The text of a file written with one `f.write(line(x))` per item, in order. */
  function Render<T>(xs: seq<T>, line: T -> string): string
    decreases |xs|
  {
    if xs == [] then "" else Render(xs[..|xs| - 1], line) + line(xs[|xs| - 1])
  }

  /** The loop `for x in xs: f.write(line(x))`. */
  method WriteLines<T>(xs: seq<T>, line: T -> string) returns (text: string)
    ensures text == Render(xs, line)
  {
    text := "";
    for k := 0 to |xs|
      invariant text == Render(xs[..k], line)
    {
      assert xs[..k + 1][..k] == xs[..k];
      text := text + line(xs[k]);
    }
    assert xs[..|xs|] == xs;
  }

  /** The rows of a rendering, one per item. */
  function Rows<T>(xs: seq<T>, row: T -> string): (rs: seq<string>)
    ensures |rs| == |xs|
    ensures forall i :: 0 <= i < |xs| ==> rs[i] == row(xs[i])
    decreases |xs|
  {
    if xs == [] then [] else Rows(xs[..|xs| - 1], row) + [row(xs[|xs| - 1])]
  }

  /** The rows of a non-empty sequence end with the row of its last item. */
  lemma RowsSnoc<T>(xs: seq<T>, row: T -> string)
    requires xs != []
    ensures Rows(xs, row) == Rows(xs[..|xs| - 1], row) + [row(xs[|xs| - 1])]
  {
  }

  /** One more row before the rest of the text. */
  lemma SplitNextRow(front: string, r: string, w: string, rows: seq<string>)
    requires '\n' !in r
    requires Split(front + (r + ['\n'] + w), '\n') == rows + Split(r + ['\n'] + w, '\n')
    ensures Split(front + (r + "\n") + w, '\n') == rows + [r] + Split(w, '\n')
  {
    assert front + (r + "\n") + w == front + (r + ['\n'] + w);
    SplitAtFirstSeparator(r, w, '\n');
  }

  /**
   * When every item's line is a row without a newline followed by a
   * newline, splitting the text at newlines gives the rows back, then
   * whatever follows the last newline.
   */
  lemma {:induction false} RenderSplit<T>(xs: seq<T>, line: T -> string, row: T -> string, w: string)
    requires forall i :: 0 <= i < |xs| ==> line(xs[i]) == row(xs[i]) + "\n" && '\n' !in row(xs[i])
    ensures Split(Render(xs, line) + w, '\n') == Rows(xs, row) + Split(w, '\n')
    decreases |xs|
  {
    if xs == [] {
      assert Render(xs, line) + w == w;
      assert Rows(xs, row) == [];
    } else {
      var n := |xs| - 1;
      var r := row(xs[n]);
      var front := Render(xs[..n], line);
      assert Render(xs, line) == front + line(xs[n]);
      assert line(xs[n]) == r + "\n" && '\n' !in r;
      RenderSplit(xs[..n], line, row, r + ['\n'] + w);
      SplitNextRow(front, r, w, Rows(xs[..n], row));
      assert Rows(xs, row) == Rows(xs[..n], row) + [r];
    }
  }

  // ---------------------------------------------------------------------
  // `dumpnode` and `dumpname`

  /** The fields of a `nodes.dmp` line: taxid, parent and rank between `|` columns. */
  function NodeFields(t: Taxon): seq<string>
  {
    [NatToString(t.taxid), "|", NatToString(t.parent), "|", t.rank, "|", "-", "|"]
  }

  /** The fields of a `names.dmp` line: taxid and name as a scientific name. */
  function NameFields(t: Taxon): seq<string>
  {
    [NatToString(t.taxid), "|", t.name, "|", "-", "|", ScientificName, "|"]
  }

  function NodeRow(t: Taxon): string { Join(NodeFields(t), "\t") }

  function NameRow(t: Taxon): string { Join(NameFields(t), "\t") }

  function NodeLine(t: Taxon): string { NodeRow(t) + "\n" }

  function NameLine(t: Taxon): string { NameRow(t) + "\n" }

  /** `dumpnode`: the text of `nodes.dmp`. */
  method DumpNode(taxmap: seq<Taxon>) returns (text: string)
    ensures text == Render(taxmap, NodeLine)
  {
    text := WriteLines(taxmap, NodeLine);
  }

  /** `dumpname`: the text of `names.dmp`. */
  method DumpName(taxmap: seq<Taxon>) returns (text: string)
    ensures text == Render(taxmap, NameLine)
  {
    text := WriteLines(taxmap, NameLine);
  }

  lemma DigitsAvoid(n: nat, d: char)
    requires !IsDigit(d)
    ensures d !in NatToString(n)
  {
    var s := NatToString(n);
    forall i | 0 <= i < |s|
      ensures s[i] != d
    {
      assert IsDigit(s[i]);
    }
  }

  /** Tab-joining fields free of newlines brings in no newline. */
  lemma {:induction false} NoNewline(fields: seq<string>)
    requires forall i :: 0 <= i < |fields| ==> '\n' !in fields[i]
    ensures '\n' !in Join(fields, "\t")
    decreases |fields|
  {
    if |fields| > 1 {
      NoNewline(fields[1..]);
    }
  }

  lemma NodeRowFields(t: Taxon)
    requires '\t' !in t.rank && '\n' !in t.rank
    ensures '\n' !in NodeRow(t) && Split(NodeRow(t), '\t') == NodeFields(t)
  {
    DigitsAvoid(t.taxid, '\t');
    DigitsAvoid(t.parent, '\t');
    DigitsAvoid(t.taxid, '\n');
    DigitsAvoid(t.parent, '\n');
    SplitJoin(NodeFields(t), '\t');
    NoNewline(NodeFields(t));
  }

  lemma NameRowFields(t: Taxon)
    requires '\t' !in t.name && '\n' !in t.name
    ensures '\n' !in NameRow(t) && Split(NameRow(t), '\t') == NameFields(t)
  {
    DigitsAvoid(t.taxid, '\t');
    DigitsAvoid(t.taxid, '\n');
    SplitJoin(NameFields(t), '\t');
    NoNewline(NameFields(t));
  }

  /** A rendering of tab-separated rows splits back into lines, then into fields. */
  lemma RenderFields<T>(xs: seq<T>, line: T -> string, row: T -> string, fields: T -> seq<string>)
    requires forall i :: 0 <= i < |xs| ==> line(xs[i]) == row(xs[i]) + "\n" && '\n' !in row(xs[i])
    requires forall i :: 0 <= i < |xs| ==> Split(row(xs[i]), '\t') == fields(xs[i])
    ensures Split(Render(xs, line), '\n') == Rows(xs, row) + [""]
    ensures forall i :: 0 <= i < |xs| ==> Split(Split(Render(xs, line), '\n')[i], '\t') == fields(xs[i])
  {
    RenderSplit(xs, line, row, "");
    assert Render(xs, line) + "" == Render(xs, line);
  }

  /**
   * `nodes.dmp` holds one line per taxon, in map order, and each line
   * splits at tabs into the taxid, `|`, the parent, `|`, the rank, `|`,
   * `-`, `|` — as long as no rank holds a tab or a newline.
   */
  lemma DumpNodeRows(taxmap: seq<Taxon>)
    requires forall i :: 0 <= i < |taxmap| ==> '\t' !in taxmap[i].rank && '\n' !in taxmap[i].rank
    ensures Split(Render(taxmap, NodeLine), '\n') == Rows(taxmap, NodeRow) + [""]
    ensures forall i :: 0 <= i < |taxmap| ==>
      Split(Split(Render(taxmap, NodeLine), '\n')[i], '\t') == NodeFields(taxmap[i])
  {
    forall i | 0 <= i < |taxmap|
      ensures NodeLine(taxmap[i]) == NodeRow(taxmap[i]) + "\n" && '\n' !in NodeRow(taxmap[i])
      ensures Split(NodeRow(taxmap[i]), '\t') == NodeFields(taxmap[i])
    {
      NodeRowFields(taxmap[i]);
    }
    RenderFields(taxmap, NodeLine, NodeRow, NodeFields);
  }

  /** The same for `names.dmp`, as long as no name holds a tab or a newline. */
  lemma DumpNameRows(taxmap: seq<Taxon>)
    requires forall i :: 0 <= i < |taxmap| ==> '\t' !in taxmap[i].name && '\n' !in taxmap[i].name
    ensures Split(Render(taxmap, NameLine), '\n') == Rows(taxmap, NameRow) + [""]
    ensures forall i :: 0 <= i < |taxmap| ==>
      Split(Split(Render(taxmap, NameLine), '\n')[i], '\t') == NameFields(taxmap[i])
  {
    forall i | 0 <= i < |taxmap|
      ensures NameLine(taxmap[i]) == NameRow(taxmap[i]) + "\n" && '\n' !in NameRow(taxmap[i])
      ensures Split(NameRow(taxmap[i]), '\t') == NameFields(taxmap[i])
    {
      NameRowFields(taxmap[i]);
    }
    RenderFields(taxmap, NameLine, NameRow, NameFields);
  }

  // ---------------------------------------------------------------------
  // `mask`: BLAST hits to BED intervals

  /** The longest prefix without whitespace. */
  function Token(s: string): (w: string)
    ensures w <= s && NoSpace(w)
    ensures |w| < |s| ==> IsSpace(s[|w|])
    decreases |s|
  {
    if s == [] || IsSpace(s[0]) then "" else [s[0]] + Token(s[1..])
  }

  lemma {:induction false} StripLeftShape(s: string)
    ensures |StripLeft(s)| <= |s|
    ensures StripLeft(s) != "" ==> !IsSpace(StripLeft(s)[0])
    decreases |s|
  {
    if |s| > 0 && IsSpace(s[0]) {
      StripLeftShape(s[1..]);
    }
  }

  /** Python `s.split()`: the maximal runs of non-whitespace, in order. */
  function Words(s: string): (ws: seq<string>)
    ensures forall i :: 0 <= i < |ws| ==> ws[i] != "" && NoSpace(ws[i])
    decreases |s|
  {
    StripLeftShape(s);
    var t := StripLeft(s);
    if t == "" then [] else
      var w := Token(t);
      [w] + Words(t[|w|..])
  }

  lemma {:induction false} TokenStops(w: string, rest: string)
    requires NoSpace(w)
    requires rest == "" || IsSpace(rest[0])
    ensures Token(w + rest) == w
    decreases |w|
  {
    if w != "" {
      var s := w + rest;
      assert s[0] == w[0] && !IsSpace(w[0]);
      assert s[1..] == w[1..] + rest;
      TokenStops(w[1..], rest);
      assert Token(s) == [w[0]] + Token(s[1..]);
      assert w == [w[0]] + w[1..];
    } else {
      assert w + rest == rest;
    }
  }

  lemma WordsAfterSpace(c: char, s: string)
    requires IsSpace(c)
    ensures Words([c] + s) == Words(s)
  {
    assert ([c] + s)[1..] == s;
  }

  /** A word followed by nothing or by whitespace is split off first. */
  lemma WordsCons(w: string, rest: string)
    requires w != "" && NoSpace(w)
    requires rest == "" || IsSpace(rest[0])
    ensures Words(w + rest) == [w] + Words(rest)
  {
    TokenStops(w, rest);
    assert (w + rest)[|w|..] == rest;
  }

  /** The columns of a tab-separated line come back from `split()`, if none is empty or holds whitespace. */
  lemma {:induction false} WordsOfColumns(cols: seq<string>)
    requires |cols| > 0
    requires forall i :: 0 <= i < |cols| ==> cols[i] != "" && NoSpace(cols[i])
    ensures Words(Join(cols, "\t")) == cols
    decreases |cols|
  {
    if |cols| == 1 {
      WordsCons(cols[0], "");
      assert cols[0] + "" == cols[0];
      assert Words("") == [];
    } else {
      var tail := Join(cols[1..], "\t");
      JoinCons(cols[0], cols[1..], "\t");
      WordsOfColumns(cols[1..]);
      assert cols[0] + "\t" + tail == cols[0] + (['\t'] + tail);
      WordsCons(cols[0], ['\t'] + tail);
      WordsAfterSpace('\t', tail);
      assert cols == [cols[0]] + cols[1..];
    }
  }

  /** One BED interval: the subject sequence, then the smaller and larger coordinate. */
  datatype BedRow = BedRow(chrom: string, start: string, end: string)

  /**
   * One line of BLAST's tabular output (`-outfmt 6`) as a BED interval:
   * column 2 names the subject, columns 9 and 10 are its start and end,
   * swapped when the hit lies on the reverse strand. The errors are those
   * the `lis[8]`, `int(...)`, `lis[9]` evaluation order raises.
   */
  function BedOf(line: string): Result<BedRow>
  {
    var lis := Words(line);
    if |lis| < 9 then Err(ListIndexError)
    else match ParseInt(lis[8])
      case None => Err(BadInt(lis[8]))
      case Some(a) =>
        if |lis| < 10 then Err(ListIndexError)
        else match ParseInt(lis[9])
          case None => Err(BadInt(lis[9]))
          case Some(b) =>
            if a > b then Ok(BedRow(lis[1], lis[9], lis[8])) else Ok(BedRow(lis[1], lis[8], lis[9]))
  }

  /**
   * A hit line fails exactly when it has fewer than ten columns or column
   * 9 or 10 is not an integer; otherwise its interval names column 2, holds
   * columns 9 and 10 in some order, and its start is at most its end.
   */
  lemma BedOfSpec(line: string)
    ensures BedOf(line).Err? <==> (
      |Words(line)| < 10 || ParseInt(Words(line)[8]).None? || ParseInt(Words(line)[9]).None?)
    ensures BedOf(line).Ok? ==> (
      var lis, b := Words(line), BedOf(line).value;
      b.chrom == lis[1] && multiset{b.start, b.end} == multiset{lis[8], lis[9]}
      && ParseInt(b.start).value <= ParseInt(b.end).value)
    ensures BedOf(line).Ok? ==> (
      var b := BedOf(line).value;
      NoSpace(b.chrom) && NoSpace(b.start) && NoSpace(b.end))
  {
  }

  /** A BLAST hit written as tab-separated columns gives the interval its coordinates describe. */
  lemma BedOfColumns(cols: seq<string>, a: int, b: int)
    requires |cols| >= 10
    requires forall i :: 0 <= i < |cols| ==> cols[i] != "" && NoSpace(cols[i])
    requires ParseInt(cols[8]) == Some(a) && ParseInt(cols[9]) == Some(b)
    ensures BedOf(Join(cols, "\t")) == Ok(
      if a > b then BedRow(cols[1], cols[9], cols[8]) else BedRow(cols[1], cols[8], cols[9]))
  {
    WordsOfColumns(cols);
  }

  /** Parsing the lines of a file in order; the first bad line raises. */
  function ParseAll<T>(lines: seq<string>, parse: string -> Result<T>): Result<seq<T>>
    decreases |lines|
  {
    if lines == [] then Ok([])
    else match ParseAll(lines[..|lines| - 1], parse)
      case Err(e) => Err(e)
      case Ok(rows) =>
        match parse(lines[|lines| - 1])
          case Err(e) => Err(e)
          case Ok(row) => Ok(rows + [row])
  }

  /** Parsing fails iff some line fails. */
  lemma {:induction false} ParseAllErr<T>(lines: seq<string>, parse: string -> Result<T>)
    ensures ParseAll(lines, parse).Err? <==> exists i :: 0 <= i < |lines| && parse(lines[i]).Err?
    decreases |lines|
  {
    if lines != [] {
      var n := |lines| - 1;
      ParseAllErr(lines[..n], parse);
      if ParseAll(lines[..n], parse).Err? {
        var i :| 0 <= i < n && parse(lines[..n][i]).Err?;
        assert lines[..n][i] == lines[i];
      } else if parse(lines[n]).Ok? {
        forall i | 0 <= i < |lines|
          ensures parse(lines[i]).Ok?
        {
          if i < n {
            assert lines[..n][i] == lines[i];
          }
        }
      }
    }
  }

  /** Otherwise there is one result per line, in order. */
  lemma {:induction false} ParseAllOk<T>(lines: seq<string>, parse: string -> Result<T>)
    requires ParseAll(lines, parse).Ok?
    ensures |ParseAll(lines, parse).value| == |lines|
    ensures forall i :: 0 <= i < |lines| ==> parse(lines[i]) == Ok(ParseAll(lines, parse).value[i])
    decreases |lines|
  {
    if lines != [] {
      var n := |lines| - 1;
      var rows := ParseAll(lines[..n], parse).value;
      ParseAllOk(lines[..n], parse);
      assert ParseAll(lines, parse).value == rows + [parse(lines[n]).value];
      forall i | 0 <= i < n
        ensures parse(lines[i]) == Ok(ParseAll(lines, parse).value[i])
      {
        assert lines[..n][i] == lines[i];
      }
    }
  }

  /** An error in the first `k` lines is the error of the whole file. */
  lemma {:induction false} ParseAllPrefixErr<T>(lines: seq<string>, parse: string -> Result<T>, k: nat)
    requires k <= |lines| && ParseAll(lines[..k], parse).Err?
    ensures ParseAll(lines, parse) == ParseAll(lines[..k], parse)
    decreases |lines| - k
  {
    if k < |lines| {
      assert lines[..k + 1][..k] == lines[..k];
      ParseAllPrefixErr(lines, parse, k + 1);
    } else {
      assert lines[..k] == lines;
    }
  }

  /**
   * The intervals of a hit file: it fails iff one of its lines does, and
   * otherwise holds each line's interval, in order.
   */
  lemma BedRowsSpec(hits: seq<string>)
    ensures ParseAll(hits, BedOf).Err? <==> exists i :: 0 <= i < |hits| && BedOf(hits[i]).Err?
    ensures ParseAll(hits, BedOf).Ok? ==> (
      |ParseAll(hits, BedOf).value| == |hits|
      && forall i :: 0 <= i < |hits| ==> BedOf(hits[i]) == Ok(ParseAll(hits, BedOf).value[i]))
  {
    ParseAllErr(hits, BedOf);
    if ParseAll(hits, BedOf).Ok? {
      ParseAllOk(hits, BedOf);
    }
  }

  /** A BED line: `"{}\t{}\t{}\n"`. */
  function BedLine(b: BedRow): string
  {
    Join([b.chrom, b.start, b.end], "\t") + "\n"
  }

  /** The part of `mask` that reads `tmpdb_bln` into `bed`, then writes `tmpdb_bed`. */
  method Mask(hits: seq<string>) returns (r: Result<string>)
    ensures ParseAll(hits, BedOf).Err? ==> r == Err(ParseAll(hits, BedOf).reason)
    ensures ParseAll(hits, BedOf).Ok? ==> r == Ok(Render(ParseAll(hits, BedOf).value, BedLine))
  {
    var bed: seq<BedRow> := [];
    for k := 0 to |hits|
      invariant ParseAll(hits[..k], BedOf) == Ok(bed)
    {
      assert hits[..k + 1][..k] == hits[..k];
      var row := BedOf(hits[k]);
      if row.Err? {
        ParseAllPrefixErr(hits, BedOf, k + 1);
        return Err(row.reason);
      }
      bed := bed + [row.value];
    }
    assert hits[..|hits|] == hits;
    var text := WriteLines(bed, BedLine);
    return Ok(text);
  }


  function BedRowText(b: BedRow): string { Join([b.chrom, b.start, b.end], "\t") }

  function BedFields(b: BedRow): seq<string> { [b.chrom, b.start, b.end] }

  /** The BED line of one hit splits back into its three fields. */
  lemma BedRowFields(line: string)
    requires BedOf(line).Ok?
    ensures var b := BedOf(line).value;
      '\n' !in BedRowText(b) && Split(BedRowText(b), '\t') == BedFields(b)
  {
    BedOfSpec(line);
    var b := BedOf(line).value;
    assert '\n' !in b.chrom && '\n' !in b.start && '\n' !in b.end by {
      assert IsSpace('\n');
    }
    assert '\t' !in b.chrom && '\t' !in b.start && '\t' !in b.end by {
      assert IsSpace('\t');
    }
    SplitJoin(BedFields(b), '\t');
    NoNewline(BedFields(b));
  }

  /**
   * The BED file has one line per hit, in order, and each line splits at
   * tabs into the subject and two integer coordinates, the smaller first.
   */
  lemma BedFileRows(hits: seq<string>)
    requires ParseAll(hits, BedOf).Ok?
    ensures |ParseAll(hits, BedOf).value| == |hits|
    ensures var rows, text := ParseAll(hits, BedOf).value, Render(ParseAll(hits, BedOf).value, BedLine);
      |Split(text, '\n')| == |hits| + 1
      && forall i :: 0 <= i < |hits| ==> (
        Split(Split(text, '\n')[i], '\t') == BedFields(rows[i])
        && ParseInt(rows[i].start).Some? && ParseInt(rows[i].end).Some?
        && ParseInt(rows[i].start).value <= ParseInt(rows[i].end).value)
  {
    var rows := ParseAll(hits, BedOf).value;
    ParseAllOk(hits, BedOf);
    forall i | 0 <= i < |rows|
      ensures BedLine(rows[i]) == BedRowText(rows[i]) + "\n" && '\n' !in BedRowText(rows[i])
      ensures Split(BedRowText(rows[i]), '\t') == BedFields(rows[i])
      ensures ParseInt(rows[i].start).Some? && ParseInt(rows[i].end).Some?
      ensures ParseInt(rows[i].start).value <= ParseInt(rows[i].end).value
    {
      BedOfSpec(hits[i]);
      BedRowFields(hits[i]);
    }
    RenderFields(rows, BedLine, BedRowText, BedFields);
  }

  // ---------------------------------------------------------------------
  // Copying one genome into the library

  const Gnluv := "gnluv"
  const KrakenWord := "kraken:taxid"
  const KrakenTag := "|" + KrakenWord + "|"

  predicate IsHeader(line: string) { ">" <= line }

  /** The removals of `>`, `|`, `gnluv`, `:` and `-`, in that order. */
  function Scrub(s: string): string
  {
    ReplaceAll(ReplaceAll(ReplaceAll(ReplaceAll(ReplaceAll(s, ">", ""), "|", ""), Gnluv, ""), ":", ""), "-", "")
  }

  /** The accession of a FASTA header: the stripped, scrubbed line cut at its first space. */
  function Sanitise(line: string): string
  {
    Split(Scrub(Strip(line)), ' ')[0]
  }

  /** No removed character and no space is left in a sanitised header. */
  lemma SanitiseAvoids(line: string)
    ensures var h := Sanitise(line);
      '>' !in h && '|' !in h && ':' !in h && '-' !in h && ' ' !in h
  {
    var s1 := ReplaceAll(Strip(line), ">", "");
    ReplaceCharRemoves(Strip(line), '>', "");
    var s2 := ReplaceAll(s1, "|", "");
    ReplaceCharRemoves(s1, '|', "");
    ReplaceCharKeepsAbsent(s1, '|', "", '>');
    var s3 := ReplaceAll(s2, Gnluv, "");
    ReplaceAllAvoids(s2, Gnluv, "", '>');
    ReplaceAllAvoids(s2, Gnluv, "", '|');
    var s4 := ReplaceAll(s3, ":", "");
    ReplaceCharRemoves(s3, ':', "");
    ReplaceCharKeepsAbsent(s3, ':', "", '>');
    ReplaceCharKeepsAbsent(s3, ':', "", '|');
    var s5 := ReplaceAll(s4, "-", "");
    ReplaceCharRemoves(s4, '-', "");
    ReplaceCharKeepsAbsent(s4, '-', "", '>');
    ReplaceCharKeepsAbsent(s4, '-', "", '|');
    ReplaceCharKeepsAbsent(s4, '-', "", ':');
    SplitAvoids(s5, ' ', '>');
    SplitAvoids(s5, ' ', '|');
    SplitAvoids(s5, ' ', ':');
    SplitAvoids(s5, ' ', '-');
  }

  lemma {:induction false} StripRightAfter(a: string, b: string)
    requires a != [] && !IsSpace(a[|a| - 1])
    ensures StripRight(a + b) == a + StripRight(b)
    decreases |b|
  {
    if b != [] && IsSpace(b[|b| - 1]) {
      var n := |b| - 1;
      assert (a + b)[..|a + b| - 1] == a + b[..n];
      StripRightAfter(a, b[..n]);
    } else {
      assert (a + b)[|a + b| - 1] == if b == [] then a[|a| - 1] else b[|b| - 1];
      assert a + b == a + StripRight(b);
    }
  }

  lemma {:induction false} StripRightPrefix(s: string)
    ensures StripRight(s) <= s
    decreases |s|
  {
    if |s| > 0 && IsSpace(s[|s| - 1]) {
      StripRightPrefix(s[..|s| - 1]);
    }
  }

  /** A space the pattern lacks splits the removal in two. */
  lemma SpaceSplits(a: string, t: string, pat: string)
    requires pat != [] && ' ' !in pat
    ensures ReplaceAll(a + ([' '] + t), pat, "") == ReplaceAll(a, pat, "") + ([' '] + ReplaceAll(t, pat, ""))
  {
    assert a + ([' '] + t) == a + [' '] + t;
    ReplaceAllAround(a, ' ', t, pat, "");
  }

  /** A removal that leaves the accession alone leaves it at the front. */
  lemma KeepHead(acc: string, tail: string, pat: string)
    requires pat != [] && ' ' !in pat && ReplaceAll(acc, pat, "") == acc
    requires tail == "" || tail[0] == ' '
    ensures ReplaceAll(acc + tail, pat, "") == acc + ReplaceAll(tail, pat, "")
    ensures ReplaceAll(tail, pat, "") == "" || ReplaceAll(tail, pat, "")[0] == ' '
  {
    if tail == "" {
      assert acc + tail == acc;
    } else {
      var t := tail[1..];
      assert tail == [' '] + t;
      SpaceSplits(acc, t, pat);
      SpaceSplits([], t, pat);
      assert [] + tail == tail;
    }
  }

  lemma {:induction false} ContainsFirst(s: string, pat: string)
    requires pat != [] && Contains(s, pat)
    ensures pat[0] in s
    decreases |s|
  {
    if !(pat <= s) {
      ContainsFirst(s[1..], pat);
    }
  }

  /** Scrubbing leaves an accession free of the removed text at the front, before a space or the end. */
  lemma ScrubKeepsHead(acc: string, tail: string)
    requires '>' !in acc && '|' !in acc && ':' !in acc && '-' !in acc && 'g' !in acc
    requires tail == "" || tail[0] == ' '
    ensures Scrub(acc + tail) == acc + Scrub(tail)
    ensures Scrub(tail) == "" || Scrub(tail)[0] == ' '
  {
    ReplaceCharAbsent(acc, '>', "");
    KeepHead(acc, tail, ">");
    var t1 := ReplaceAll(tail, ">", "");
    ReplaceCharAbsent(acc, '|', "");
    KeepHead(acc, t1, "|");
    var t2 := ReplaceAll(t1, "|", "");
    if Contains(acc, Gnluv) {
      ContainsFirst(acc, Gnluv);
    }
    ReplaceAllAbsent(acc, Gnluv, "");
    KeepHead(acc, t2, Gnluv);
    var t3 := ReplaceAll(t2, Gnluv, "");
    ReplaceCharAbsent(acc, ':', "");
    KeepHead(acc, t3, ":");
    var t4 := ReplaceAll(t3, ":", "");
    ReplaceCharAbsent(acc, '-', "");
    KeepHead(acc, t4, "-");
  }

  lemma ScrubMarker(rest: string)
    ensures Scrub(">" + rest) == Scrub(rest)
  {
    ReplaceAllHead(">", rest, "");
    assert "" + ReplaceAll(rest, ">", "") == ReplaceAll(rest, ">", "");
  }

  /** Stripping a header keeps its front up to the first space. */
  lemma StripHeader(acc: string, desc: string)
    requires acc != [] && NoSpace(acc)
    ensures Strip(">" + acc + " " + desc) == ">" + (acc + StripRight(" " + desc))
    ensures StripRight(" " + desc) == "" || StripRight(" " + desc)[0] == ' '
  {
    var line := ">" + acc + " " + desc;
    assert StripLeft(line) == line;
    assert line == (">" + acc) + (" " + desc);
    StripRightAfter(">" + acc, " " + desc);
    StripRightPrefix(" " + desc);
  }

  lemma SplitHead(acc: string, t: string)
    requires ' ' !in acc && (t == "" || t[0] == ' ')
    ensures Split(acc + t, ' ')[0] == acc
  {
    if t == "" {
      assert acc + t == acc;
      SplitWithoutSeparator(acc, ' ');
    } else {
      assert acc + t == acc + [' '] + t[1..];
      SplitAtFirstSeparator(acc, t[1..], ' ');
    }
  }

  /**
   * The header of an NCBI record, `><accession> <description>`,
   * sanitises to the accession, as long as the accession holds no
   * whitespace and none of the removed characters.
   */
  lemma SanitiseHeader(acc: string, desc: string)
    requires acc != [] && NoSpace(acc)
    requires '>' !in acc && '|' !in acc && ':' !in acc && '-' !in acc && 'g' !in acc
    ensures Sanitise(">" + acc + " " + desc) == acc
  {
    StripHeader(acc, desc);
    var t0 := StripRight(" " + desc);
    ScrubMarker(acc + t0);
    ScrubKeepsHead(acc, t0);
    assert ' ' !in acc by {
      assert IsSpace(' ');
    }
    SplitHead(acc, Scrub(t0));
  }

  /** The human mitochondrion's NCBI header sanitises to an accession that is ignored for human. */
  lemma HumanMitoIgnored(desc: string)
    ensures Sanitise(">" + HumanMito + " " + desc) in Ignoring("human")
  {
    assert Ignoring("human") == [HumanMito];
    assert NoSpace(HumanMito) by {
      forall i | 0 <= i < |HumanMito|
        ensures !IsSpace(HumanMito[i])
      {
      }
    }
    assert '>' !in HumanMito && '|' !in HumanMito && ':' !in HumanMito && '-' !in HumanMito && 'g' !in HumanMito;
    SanitiseHeader(HumanMito, desc);
  }

  /** The sequence name kraken2 reads its taxid from: `<accession>|kraken:taxid|<taxid>`. */
  function Tagged(head: string, taxid: nat): string
  {
    head + KrakenTag + NatToString(taxid)
  }

  /** A tagged name splits at `|` into the accession, the tag and the taxid. */
  lemma TaggedFields(head: string, taxid: nat)
    requires '|' !in head
    ensures Split(Tagged(head, taxid), '|') == [head, KrakenWord, NatToString(taxid)]
  {
    var digits := NatToString(taxid);
    DigitsAvoid(taxid, '|');
    assert '|' !in KrakenWord;
    assert Tagged(head, taxid) == head + ['|'] + (KrakenWord + ['|'] + digits);
    SplitAtFirstSeparator(head, KrakenWord + ['|'] + digits, '|');
    SplitAtFirstSeparator(KrakenWord, digits, '|');
    SplitWithoutSeparator(digits, '|');
  }

  /** Two sanitised headers get the same name only for the same accession and taxid. */
  lemma TaggedInjective(h1: string, t1: nat, h2: string, t2: nat)
    requires '|' !in h1 && '|' !in h2
    requires Tagged(h1, t1) == Tagged(h2, t2)
    ensures h1 == h2 && t1 == t2
  {
    TaggedFields(h1, t1);
    TaggedFields(h2, t2);
    NatToStringInjective(t1, t2);
  }

  /** What one genome needs besides its lines: the accessions to drop and its taxid. */
  datatype Target = Target(ignoring: seq<string>, taxid: nat)

  /**
   * The loop's state: the lines written to the genome's `.fna` file (each
   * followed by a newline), `appendStatus` (`None` while it is unbound),
   * the `seq2acc` dict with its keys in insertion order, and `headCount`.
   */
  datatype Scan = Scan(out: seq<string>, status: Option<bool>, seq2acc: map<string, nat>, order: seq<string>, heads: nat)

  /** One line of the genome. */
  function Step(sc: Scan, line: string, g: Target): Result<Scan>
  {
    if IsHeader(line) then
      var head := Sanitise(line);
      if head in g.ignoring then Ok(sc.(status := Some(false), heads := sc.heads + 1))
      else
        var name := Tagged(head, g.taxid);
        Ok(Scan(sc.out + [">" + name], Some(true), sc.seq2acc[name := g.taxid],
                if name in sc.seq2acc then sc.order else sc.order + [name], sc.heads + 1))
    else if sc.status.None? then Err(UnboundStatus)
    else if sc.status.value then Ok(sc.(out := sc.out + [Strip(line)]))
    else Ok(sc)
  }

  /** The lines of a genome, one after the other; an error ends the scan. */
  function ScanLines(lines: seq<string>, g: Target, start: Scan): Result<Scan>
    decreases |lines|
  {
    if lines == [] then Ok(start)
    else match ScanLines(lines[..|lines| - 1], g, start)
      case Err(e) => Err(e)
      case Ok(sc) => Step(sc, lines[|lines| - 1], g)
  }

  /** An error in the first `k` lines ends the whole scan with it. */
  lemma {:induction false} ScanPrefixErr(lines: seq<string>, g: Target, start: Scan, k: nat)
    requires k <= |lines| && ScanLines(lines[..k], g, start).Err?
    ensures ScanLines(lines, g, start) == ScanLines(lines[..k], g, start)
    decreases |lines| - k
  {
    if k < |lines| {
      assert lines[..k + 1][..k] == lines[..k];
      ScanPrefixErr(lines, g, start, k + 1);
    } else {
      assert lines[..k] == lines;
    }
  }

  /** The `for line in genome` loop of `main`, for one genome. */
  method WriteGenome(genome: seq<string>, g: Target, start: Scan) returns (r: Result<Scan>)
    ensures r == ScanLines(genome, g, start)
  {
    var out: seq<string>, appendStatus: Option<bool> := start.out, start.status;
    var seq2acc: map<string, nat>, order: seq<string>, headCount: nat := start.seq2acc, start.order, start.heads;
    for k := 0 to |genome|
      invariant ScanLines(genome[..k], g, start) == Ok(Scan(out, appendStatus, seq2acc, order, headCount))
    {
      assert genome[..k + 1][..k] == genome[..k];
      var line := genome[k];
      if IsHeader(line) {
        headCount := headCount + 1;
        var headStr := Sanitise(line);
        if headStr in g.ignoring {
          appendStatus := Some(false);
        } else {
          appendStatus := Some(true);
        }
        if appendStatus == Some(true) {
          headStr := Tagged(headStr, g.taxid);
          out := out + [">" + headStr];
          if headStr !in seq2acc {
            order := order + [headStr];
          }
          seq2acc := seq2acc[headStr := g.taxid];
        }
      } else {
        if appendStatus.None? {
          ScanPrefixErr(genome, g, start, k + 1);
          return Err(UnboundStatus);
        }
        if appendStatus.value {
          out := out + [Strip(line)];
        }
      }
    }
    assert genome[..|genome|] == genome;
    r := Ok(Scan(out, appendStatus, seq2acc, order, headCount));
  }

  /** The scan of one more line is one more step. */
  lemma ScanSnoc(lines: seq<string>, g: Target, start: Scan, k: nat)
    requires k < |lines|
    ensures ScanLines(lines[..k + 1], g, start) ==
      match ScanLines(lines[..k], g, start)
        case Err(e) => Err(e)
        case Ok(sc) => Step(sc, lines[k], g)
  {
    assert lines[..k + 1][..k] == lines[..k];
  }

  /**
   * A header whose accession is ignored writes nothing and records
   * nothing, and neither do the sequence lines after it, up to the next
   * header.
   */
  lemma {:induction false} SuppressedRun(lines: seq<string>, g: Target, start: Scan, i: nat, j: nat)
    requires i <= j < |lines|
    requires IsHeader(lines[i]) && Sanitise(lines[i]) in g.ignoring
    requires forall k :: i < k <= j ==> !IsHeader(lines[k])
    requires ScanLines(lines[..i], g, start).Ok?
    ensures ScanLines(lines[..j + 1], g, start).Ok?
    ensures ScanLines(lines[..j + 1], g, start).value.out == ScanLines(lines[..i], g, start).value.out
    ensures ScanLines(lines[..j + 1], g, start).value.seq2acc == ScanLines(lines[..i], g, start).value.seq2acc
    ensures ScanLines(lines[..j + 1], g, start).value.status == Some(false)
    decreases j
  {
    if j == i {
      ScanSnoc(lines, g, start, i);
    } else {
      SuppressedRun(lines, g, start, i, j - 1);
      ScanSnoc(lines, g, start, j);
    }
  }

  /** A sequence line under a kept header is copied stripped. */
  lemma KeptExtend(before: Scan, mid: Scan, name: string, rows: seq<string>, line: string, g: Target)
    requires mid.out == before.out + [">" + name] + rows
    requires mid.seq2acc == before.seq2acc[name := g.taxid] && mid.status == Some(true)
    requires !IsHeader(line)
    ensures Step(mid, line, g).Ok?
    ensures var after := Step(mid, line, g).value;
      after.out == before.out + [">" + name] + (rows + [Strip(line)])
      && after.seq2acc == before.seq2acc[name := g.taxid]
      && after.status == Some(true)
  {
  }

  /**
   * A header whose accession is kept is written as `><accession>|kraken:taxid|<taxid>`
   * and recorded with the taxid, and the sequence lines after it, up to
   * the next header, are copied stripped.
   */
  lemma {:induction false} KeptRun(lines: seq<string>, g: Target, start: Scan, i: nat, j: nat)
    requires i <= j < |lines|
    requires IsHeader(lines[i]) && Sanitise(lines[i]) !in g.ignoring
    requires forall k :: i < k <= j ==> !IsHeader(lines[k])
    requires ScanLines(lines[..i], g, start).Ok?
    ensures ScanLines(lines[..j + 1], g, start).Ok?
    ensures var before, after := ScanLines(lines[..i], g, start).value, ScanLines(lines[..j + 1], g, start).value;
      var name := Tagged(Sanitise(lines[i]), g.taxid);
      after.out == before.out + [">" + name] + Rows(lines[i + 1..j + 1], Strip)
      && after.seq2acc == before.seq2acc[name := g.taxid]
      && after.status == Some(true)
    decreases j
  {
    if j == i {
      ScanSnoc(lines, g, start, i);
      assert Rows(lines[i + 1..j + 1], Strip) == [];
    } else {
      KeptRun(lines, g, start, i, j - 1);
      ScanSnoc(lines, g, start, j);
      RowsSnoc(lines[i + 1..j + 1], Strip);
      assert lines[i + 1..j + 1][..j - i - 1] == lines[i + 1..j];
      KeptExtend(ScanLines(lines[..i], g, start).value, ScanLines(lines[..j], g, start).value,
                 Tagged(Sanitise(lines[i]), g.taxid), Rows(lines[i + 1..j], Strip), lines[j], g);
    }
  }

  predicate NoHeader(lines: seq<string>)
  {
    forall k :: 0 <= k < |lines| ==> !IsHeader(lines[k])
  }

  /** Line `j` is a sequence line with no header before it. */
  predicate Orphan(lines: seq<string>, j: int)
  {
    0 <= j < |lines| && !IsHeader(lines[j]) && NoHeader(lines[..j])
  }

  lemma OrphanPrefix(lines: seq<string>, n: nat, j: int)
    requires j < n <= |lines|
    ensures Orphan(lines[..n], j) <==> Orphan(lines, j)
  {
    if 0 <= j {
      assert lines[..n][..j] == lines[..j];
    }
  }

  /**
   * The scan fails, with the unbound `appendStatus`, exactly when no
   * earlier genome left it bound and a sequence line comes before the
   * first header; otherwise `appendStatus` is still unbound after it iff
   * it was before and the genome has no header.
   */
  lemma {:induction false} ScanUnbound(lines: seq<string>, g: Target, start: Scan)
    ensures ScanLines(lines, g, start).Err? <==> start.status.None? && exists j :: Orphan(lines, j)
    ensures ScanLines(lines, g, start).Err? ==> ScanLines(lines, g, start).reason == UnboundStatus
    ensures ScanLines(lines, g, start).Ok? ==>
      (ScanLines(lines, g, start).value.status.None? <==> start.status.None? && NoHeader(lines))
    decreases |lines|
  {
    if lines != [] {
      var n := |lines| - 1;
      ScanUnbound(lines[..n], g, start);
      assert lines[..n + 1] == lines;
      forall j | j < n
        ensures Orphan(lines[..n], j) <==> Orphan(lines, j)
      {
        OrphanPrefix(lines, n, j);
      }
      assert NoHeader(lines) <==> NoHeader(lines[..n]) && !IsHeader(lines[n]);
      assert Orphan(lines, n) <==> !IsHeader(lines[n]) && NoHeader(lines[..n]);
      assert (exists j :: Orphan(lines, j)) <==> (exists j :: Orphan(lines[..n], j)) || Orphan(lines, n) by {
        if j :| Orphan(lines, j) {
          if j < n {
            assert Orphan(lines[..n], j);
          }
        }
      }
    }
  }

  /** The names a genome's kept headers contribute to `seq2acc`. */
  function Recorded(lines: seq<string>, g: Target): set<string>
  {
    set k | 0 <= k < |lines| && IsHeader(lines[k]) && Sanitise(lines[k]) !in g.ignoring :: Tagged(Sanitise(lines[k]), g.taxid)
  }

  lemma RecordedSnoc(lines: seq<string>, g: Target)
    requires lines != []
    ensures var n := |lines| - 1;
      Recorded(lines, g) == Recorded(lines[..n], g) +
        (if IsHeader(lines[n]) && Sanitise(lines[n]) !in g.ignoring then {Tagged(Sanitise(lines[n]), g.taxid)} else {})
  {
    var n := |lines| - 1;
    forall k | 0 <= k < n
      ensures lines[..n][k] == lines[k]
    {
    }
  }

  /**
   * After a genome, `seq2acc` holds the names it held before and those of
   * the genome's kept headers; the latter map to the genome's taxid, the
   * others keep their value.
   */
  lemma {:induction false} ScanRecords(lines: seq<string>, g: Target, start: Scan)
    requires ScanLines(lines, g, start).Ok?
    ensures var m := ScanLines(lines, g, start).value.seq2acc;
      (forall name :: name in m <==> name in start.seq2acc || name in Recorded(lines, g))
      && (forall name :: name in Recorded(lines, g) ==> m[name] == g.taxid)
      && (forall name :: name in start.seq2acc && name !in Recorded(lines, g) ==> m[name] == start.seq2acc[name])
    decreases |lines|
  {
    if lines != [] {
      var n := |lines| - 1;
      ScanRecords(lines[..n], g, start);
      RecordedSnoc(lines, g);
    }
  }

  /** A dict's keys listed once each, in insertion order. */
  predicate OrderMatches(m: map<string, nat>, order: seq<string>)
  {
    (forall k :: k in m ==> k in order)
    && (forall k :: k in order ==> k in m)
    && forall i, j :: 0 <= i < j < |order| ==> order[i] != order[j]
  }

  lemma StepKeepsOrder(sc: Scan, line: string, g: Target)
    requires OrderMatches(sc.seq2acc, sc.order) && Step(sc, line, g).Ok?
    ensures OrderMatches(Step(sc, line, g).value.seq2acc, Step(sc, line, g).value.order)
    ensures sc.order <= Step(sc, line, g).value.order
  {
  }

  /** A genome keeps the dict's keys listed once each, and only appends to their order. */
  lemma {:induction false} ScanKeepsOrder(lines: seq<string>, g: Target, start: Scan)
    requires OrderMatches(start.seq2acc, start.order)
    requires ScanLines(lines, g, start).Ok?
    ensures OrderMatches(ScanLines(lines, g, start).value.seq2acc, ScanLines(lines, g, start).value.order)
    ensures start.order <= ScanLines(lines, g, start).value.order
    decreases |lines|
  {
    if lines != [] {
      var n := |lines| - 1;
      ScanKeepsOrder(lines[..n], g, start);
      StepKeepsOrder(ScanLines(lines[..n], g, start).value, lines[n], g);
    }
  }

  /** The number of header lines. */
  function HeaderCount(lines: seq<string>): nat
    decreases |lines|
  {
    if lines == [] then 0
    else HeaderCount(lines[..|lines| - 1]) + (if IsHeader(lines[|lines| - 1]) then 1 else 0)
  }

  /** `headCount` counts every header, kept or ignored. */
  lemma {:induction false} ScanCountsHeaders(lines: seq<string>, g: Target, start: Scan)
    requires ScanLines(lines, g, start).Ok?
    ensures ScanLines(lines, g, start).value.heads == start.heads + HeaderCount(lines)
    decreases |lines|
  {
    if lines != [] {
      ScanCountsHeaders(lines[..|lines| - 1], g, start);
    }
  }

  // ---------------------------------------------------------------------
  // The library of all genomes

  /** One species of `contaminome.yml`, with the domains flattened in file order. */
  datatype Genome = Genome(vulgarname: string, url: string, taxid: nat)

  /**
   * The library directory's `.fna` files by name, with the state the loop
   * carries from one genome to the next.
   */
  datatype Library = Library(files: map<string, seq<string>>, status: Option<bool>, seq2acc: map<string, nat>, order: seq<string>)

  const EmptyLibrary := Library(map[], None, map[], [])

  /** The accessions dropped from a species: its `ignore_chrs` entry, or none. */
  function Ignoring(vulgarname: string): seq<string>
  {
    if vulgarname in IgnoreChrs then IgnoreChrs[vulgarname] else []
  }

  function FnaName(vulgarname: string): string { vulgarname + ".fna" }

  /**
   * One species: skipped when its file already exists, else its
   * downloaded lines are scanned from a fresh file and `headCount`, with
   * `appendStatus` and `seq2acc` carried over.
   */
  function AddGenome(lib: Library, sp: Genome, download: string -> seq<string>): Result<Library>
  {
    var ofile := FnaName(sp.vulgarname);
    if ofile in lib.files then Ok(lib)
    else
      match ScanLines(download(sp.url), Target(Ignoring(sp.vulgarname), sp.taxid), Scan([], lib.status, lib.seq2acc, lib.order, 0))
        case Err(e) => Err(e)
        case Ok(sc) => Ok(Library(lib.files[ofile := sc.out], sc.status, sc.seq2acc, sc.order))
  }

  /** All species in order, from an empty library. */
  function Build(genomes: seq<Genome>, download: string -> seq<string>): Result<Library>
    decreases |genomes|
  {
    if genomes == [] then Ok(EmptyLibrary)
    else match Build(genomes[..|genomes| - 1], download)
      case Err(e) => Err(e)
      case Ok(lib) => AddGenome(lib, genomes[|genomes| - 1], download)
  }

  lemma {:induction false} BuildPrefixErr(genomes: seq<Genome>, download: string -> seq<string>, k: nat)
    requires k <= |genomes| && Build(genomes[..k], download).Err?
    ensures Build(genomes, download) == Build(genomes[..k], download)
    decreases |genomes| - k
  {
    if k < |genomes| {
      assert genomes[..k + 1][..k] == genomes[..k];
      BuildPrefixErr(genomes, download, k + 1);
    } else {
      assert genomes[..k] == genomes;
    }
  }

  /** The download-and-format loop of `main`, over every species. */
  method BuildLibrary(genomes: seq<Genome>, download: string -> seq<string>) returns (r: Result<Library>)
    ensures r == Build(genomes, download)
  {
    var lib := EmptyLibrary;
    for k := 0 to |genomes|
      invariant Build(genomes[..k], download) == Ok(lib)
    {
      assert genomes[..k + 1][..k] == genomes[..k];
      var sp := genomes[k];
      var ignoring := Ignoring(sp.vulgarname);
      var ofile := FnaName(sp.vulgarname);
      if ofile !in lib.files {
        var genome := download(sp.url);
        var scan := WriteGenome(genome, Target(ignoring, sp.taxid), Scan([], lib.status, lib.seq2acc, lib.order, 0));
        if scan.Err? {
          BuildPrefixErr(genomes, download, k + 1);
          return Err(scan.reason);
        }
        lib := Library(lib.files[ofile := scan.value.out], scan.value.status, scan.value.seq2acc, scan.value.order);
      }
    }
    assert genomes[..|genomes|] == genomes;
    r := Ok(lib);
  }

  /** One species adds its file, if missing, and keeps `seq2acc`'s keys listed once each. */
  lemma AddGenomeShape(lib: Library, sp: Genome, download: string -> seq<string>)
    requires OrderMatches(lib.seq2acc, lib.order)
    requires AddGenome(lib, sp, download).Ok?
    ensures AddGenome(lib, sp, download).value.files.Keys == lib.files.Keys + {FnaName(sp.vulgarname)}
    ensures OrderMatches(AddGenome(lib, sp, download).value.seq2acc, AddGenome(lib, sp, download).value.order)
  {
    if FnaName(sp.vulgarname) !in lib.files {
      ScanKeepsOrder(download(sp.url), Target(Ignoring(sp.vulgarname), sp.taxid), Scan([], lib.status, lib.seq2acc, lib.order, 0));
    }
  }

  /** The names of the species' files. */
  function FnaNames(genomes: seq<Genome>): set<string>
  {
    set k | 0 <= k < |genomes| :: FnaName(genomes[k].vulgarname)
  }

  /** The library has one file per distinct vulgar name. */
  lemma {:induction false} BuildFiles(genomes: seq<Genome>, download: string -> seq<string>)
    requires Build(genomes, download).Ok?
    ensures Build(genomes, download).value.files.Keys == FnaNames(genomes)
    ensures OrderMatches(Build(genomes, download).value.seq2acc, Build(genomes, download).value.order)
    decreases |genomes|
  {
    if genomes != [] {
      var n := |genomes| - 1;
      BuildFiles(genomes[..n], download);
      AddGenomeShape(Build(genomes[..n], download).value, genomes[n], download);
      assert FnaNames(genomes) == FnaNames(genomes[..n]) + {FnaName(genomes[n].vulgarname)} by {
        forall k | 0 <= k < n
          ensures genomes[..n][k] == genomes[k]
        {
        }
      }
    }
  }

  /** The `seq2acc` entries in insertion order. */
  function Entries(m: map<string, nat>, order: seq<string>): (es: seq<(string, nat)>)
    requires forall k :: k in order ==> k in m
    ensures |es| == |order|
    ensures forall i :: 0 <= i < |order| ==> es[i] == (order[i], m[order[i]])
    decreases |order|
  {
    if order == [] then [] else Entries(m, order[..|order| - 1]) + [(order[|order| - 1], m[order[|order| - 1]])]
  }

  function MapRow(e: (string, nat)): string { e.0 + "\t" + NatToString(e.1) }

  /** A line of `seqid2taxid.map`: `"{}\t{}\n"`. */
  function MapLine(e: (string, nat)): string { MapRow(e) + "\n" }

  function MapFields(e: (string, nat)): seq<string> { [e.0, NatToString(e.1)] }

  /** The writing of `seqid2taxid.map`: one line per key, in insertion order. */
  method WriteSeqMap(seq2acc: map<string, nat>, order: seq<string>) returns (text: string)
    requires OrderMatches(seq2acc, order)
    ensures text == Render(Entries(seq2acc, order), MapLine)
  {
    text := WriteLines(Entries(seq2acc, order), MapLine);
  }

  /**
   * In `seqid2taxid.map` every recorded name has exactly one line, which
   * splits at its tab into the name and its taxid — as long as no name
   * holds a tab or a newline.
   */
  lemma SeqMapRows(seq2acc: map<string, nat>, order: seq<string>)
    requires OrderMatches(seq2acc, order)
    requires forall k :: k in seq2acc ==> '\t' !in k && '\n' !in k
    ensures var text := Render(Entries(seq2acc, order), MapLine);
      |Split(text, '\n')| == |seq2acc| + 1
      && (forall name :: name in seq2acc ==> exists i :: 0 <= i < |seq2acc| && Split(text, '\n')[i] == MapRow((name, seq2acc[name])))
      && forall i :: 0 <= i < |seq2acc| ==> (
        var fields := Split(Split(text, '\n')[i], '\t');
        |fields| == 2 && fields[0] in seq2acc && fields[1] == NatToString(seq2acc[fields[0]]))
  {
    var es := Entries(seq2acc, order);
    OrderCardinality(seq2acc, order);
    forall i | 0 <= i < |es|
      ensures MapLine(es[i]) == MapRow(es[i]) + "\n" && '\n' !in MapRow(es[i])
      ensures Split(MapRow(es[i]), '\t') == MapFields(es[i])
    {
      MapRowFields(es[i]);
    }
    RenderFields(es, MapLine, MapRow, MapFields);
    forall name | name in seq2acc
      ensures exists i :: 0 <= i < |seq2acc| && Split(Render(es, MapLine), '\n')[i] == MapRow((name, seq2acc[name]))
    {
      var i :| 0 <= i < |order| && order[i] == name;
      assert Split(Render(es, MapLine), '\n')[i] == MapRow(es[i]);
    }
  }

  lemma MapRowFields(e: (string, nat))
    requires '\t' !in e.0 && '\n' !in e.0
    ensures '\n' !in MapRow(e) && Split(MapRow(e), '\t') == MapFields(e)
  {
    DigitsAvoid(e.1, '\t');
    DigitsAvoid(e.1, '\n');
    SplitAtFirstSeparator(e.0, NatToString(e.1), '\t');
    SplitWithoutSeparator(NatToString(e.1), '\t');
    assert MapRow(e) == e.0 + ['\t'] + NatToString(e.1);
  }

  /** Keys listed once each are as many as the dict's keys. */
  lemma OrderCardinality(m: map<string, nat>, order: seq<string>)
    requires OrderMatches(m, order)
    ensures |m| == |order|
  {
    var keys := set i | 0 <= i < |order| :: order[i];
    assert m.Keys == keys;
    DistinctCard(order);
  }

  lemma {:induction false} DistinctCard(order: seq<string>)
    requires forall i, j :: 0 <= i < j < |order| ==> order[i] != order[j]
    ensures |set i | 0 <= i < |order| :: order[i]| == |order|
    decreases |order|
  {
    if order != [] {
      var n := |order| - 1;
      DistinctCard(order[..n]);
      var front := set i | 0 <= i < n :: order[..n][i];
      assert (set i | 0 <= i < |order| :: order[i]) == front + {order[n]};
      assert order[n] !in front;
    }
  }
}
