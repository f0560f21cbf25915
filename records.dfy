// The already-parsed records the pipeline works on: the run's read layout
// (`seqRecipe`, built from RunInfo.xml or RunParameters.json), sample-sheet
// rows, and the per-output-folder entries of `ssDic`.
module Records {
  import opened Wrappers
  import opened Text

  /** The first element of a `seqRecipe` value: 'Y' for a read, 'I' for an index read. */
  datatype ReadKind = Y | I

  /** A `seqRecipe` value `[kind, cycles]`. */
  datatype ReadSpec = ReadSpec(kind: ReadKind, cycles: nat)

  /** `seqRecipe`: an insertion-ordered dict from 'Read1', 'Index1', ... to reads. */
  type SeqRecipe = seq<(string, ReadSpec)>

  function KindText(k: ReadKind): string
  {
    match k
    case Y => "Y"
    case I => "I"
  }

  /** Python `seqRecipe[key]`, `None` for the KeyError. */
  function Lookup(recipe: SeqRecipe, key: string): (r: Option<ReadSpec>)
    ensures r.Some? <==> exists i :: 0 <= i < |recipe| && recipe[i].0 == key
    ensures r.Some? ==> exists i :: 0 <= i < |recipe| && recipe[i] == (key, r.value)
  {
    if |recipe| == 0 then None
    else if recipe[0].0 == key then Some(recipe[0].1)
    else Lookup(recipe[1..], key)
  }

  /**
   * The `Lane` cell: an integer after `astype({'Lane': 'int32'})`, or the
   * text '1,2,…' written over it when the run is not split per lane.
   */
  datatype Lane = LaneNo(n: int) | LaneText(text: string)

  /**
   * One sample-sheet row. An absent cell (pandas NaN) is `None`; the
   * cells of a column the sheet does not have are `None` as well.
   */
  datatype Row = Row(
    lane: Lane,
    sampleId: string,
    sampleName: string,
    project: string,
    index: Option<string>,
    index2: Option<string>,
    indexType: Option<string>,
    description: Option<string>)

  /** Which of the optional columns the sheet has. */
  datatype Columns = Columns(lane: bool, index: bool, index2: bool, indexType: bool, description: bool)

  datatype Sheet = Sheet(cols: Columns, rows: seq<Row>)

  /** The `mismatch` entry: BarcodeMismatchesIndex1 and, if set, BarcodeMismatchesIndex2. */
  datatype Mismatch = Mismatch(index1: nat, index2: Option<nat>)

  /**
   * The keys `prepConvert` adds to an `ssDic` entry: mask, dualIx, PE,
   * convertOpts and mismatch. The mask can become `None` when a hand-edited
   * demux sheet without an OverrideCycles line replaces it.
   */
  datatype Prep = Prep(
    mask: Option<string>,
    dualIx: bool,
    pe: bool,
    convertOpts: seq<string>,
    mismatch: Mismatch)

  /**
   * One `ssDic` entry: the output folder name (its key), its sample sheet,
   * the keys `prepConvert` adds (absent when it skipped the folder), and
   * the `P5RC` flag `demux` sets.
   */
  datatype OutLane = OutLane(name: string, sheet: Sheet, prep: Option<Prep>, p5rc: Option<bool>)

  /** The index column of a sheet, as the pandas series `df['index']`. */
  function IndexCells(rows: seq<Row>): (cells: seq<Option<string>>)
    ensures |cells| == |rows|
    ensures forall i :: 0 <= i < |rows| ==> cells[i] == rows[i].index
  {
    seq(|rows|, i requires 0 <= i < |rows| => rows[i].index)
  }

  /** The index2 column of a sheet, as the pandas series `df['index2']`. */
  function Index2Cells(rows: seq<Row>): (cells: seq<Option<string>>)
    ensures |cells| == |rows|
    ensures forall i :: 0 <= i < |rows| ==> cells[i] == rows[i].index2
  {
    seq(|rows|, i requires 0 <= i < |rows| => rows[i].index2)
  }
}
