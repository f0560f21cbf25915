# dissectBCL, modelled in Dafny

dissectBCL takes a finished sequencing run, Illumina or Aviti, and
turns it into per-project fastq folders. It reads the run's layout from
RunInfo.xml or RunParameters.json and splits the sample sheet into output
folders, one per lane or one for all lanes. For each folder it derives
the OverrideCycles mask and the barcode mismatch tolerances, then writes
a demultiplexing sheet and runs bcl-convert. Stage marker files let a
rerun resume where the previous run stopped. After demultiplexing it
renames the fastq files after the samples and runs the QC tools. It
ships finished projects to their PIs and reports to the LIMS (Parkour)
by mail. Separate tools diagnose lost barcodes, release projects, mail
users and build the contaminant database.

The model covers the decisions behind those steps. Each Dafny module
corresponds to one source file:

| module | models |
|---|---|
| `Wrappers`, `Text`, `Records` | Option/Result, the Python string operations used, and the parsed records: read layout, sample-sheet rows, `ssDic` entries |
| `RunDir` | the output directory as state: folders, marker files, sheets written, tools launched, mails sent |
| `MaskSyntax` | the grammar of OverrideCycles masks, so that lemmas can state how many cycles a mask covers |
| `Misc` | src/dissectBCL/misc.py: `hamming`, `joinLis`, `lenMask`, `umlautDestroyer`, the report strings, `fetchLatestSeqDir` |
| `Demux` | src/dissectBCL/demux.py: `hamming2Mismatch`, `misMatcher`, `detMask` |
| `DemuxSheet` | src/dissectBCL/demux.py: `writeDemuxSheet` and `readDemuxSheet`, with their round trip |
| `DemuxRun` | src/dissectBCL/demux.py: `prepConvert`, the `demux` stage with its markers, resume and retry, and the read counts of `parseStats` |
| `FlowcellSheet` | src/dissectBCL/flowcell.py `sampleSheetClass`: `decideSplit` and `parseSS` |
| `FlowcellRun` | src/dissectBCL/flowcell.py `flowCellClass`: the run-layout parsers, the sequencer, `validateRunCompletion` and the stages `prepConvert`, `demux`, `demux_aviti` and `postmux` |
| `ClassesSheet` | src/dissectBCL/classes.py: the older `decideSplit` and `parseSS`, and `spaceGood` |
| `LegacyClasses`, `PreFQ`, `LegacyDemux`, `LegacyPostmux` | the first version of the package under dissectBCL/ |
| `Postmux` | src/dissectBCL/postmux.py: renaming, the fastq ending check, pool sizes, batch verdicts, the md5 listing, `moveOptDup` |
| `FakeNews` | src/dissectBCL/fakeNews.py: the flow cell IDs of the LIMS calls, the flattening of the LIMS answer, `mailHome`, `shipFiles`, `fexUpload` |
| `Diagnose` | src/wd40/diagnose.py: `revC`, `parseSS`, `parseUnd`, `crapMatcher` |
| `Release` | src/wd40/release.py: `fetchLatestSeqDir`, `fetchFolders`, the release walk, what `rel` posts |
| `EmailFinished` | src/tools/emailProjectFinished.py: project IDs and PI, the sequencing directory, the mail |
| `Contaminome` | src/tools/prep_contaminome.py: the taxonomy dumps, the BLAST-hit-to-BED conversion, the FASTA header loop, seqid2taxid.map |

The model treats external effects as data:

- The file system is a value: a set of folders and marker names, plus the sheets written.
- External tools are exit codes, supplied as an input sequence indexed by invocation.
- HTTP answers and directory listings are parameters.
- A Python exception or `sys.exit` becomes an `Err` that carries the reason.
- Where the source mutates an object, the model uses classes: the flow cell, the sample sheet, the output directory, the frame `crapMatcher` edits and the lane folder of `moveOptDup`.
- Loops become methods with invariants, each proved against a specification function.

## Model

| member | source | states |
|---|---|---|
| Misc.Hamming | src/dissectBCL/misc.py:180-194 | the loop's count is the number of differing positions over the shorter barcode, and 0 when either cell is missing (NaN/None) |
| Misc.DistanceSymmetricBounded | src/dissectBCL/misc.py:180-194 | the distance is symmetric and never exceeds the shorter barcode's length |
| Misc.DistanceZeroIff | src/dissectBCL/misc.py:188-194 | two present barcodes are at distance 0 exactly when one is a prefix of the other |
| Misc.JoinLisSplit | src/dissectBCL/misc.py:197-202 | splitting a `joinLis` result on its one-character separator gives back the `str` of every element, in order |
| Misc.ReadToken | src/dissectBCL/misc.py:197-202 | `joinLis` of a read `[kind, cycles]` parses as the single segment (kind, cycles) |
| Misc.LenMask | src/dissectBCL/misc.py:205-213 | the token parses as the barcode segment (`I`, or `Y` on Aviti) of the index length, followed by an `N` segment of the remaining cycles when some remain; it holds no ';' |
| Misc.LenMaskCoversRecipe | src/dissectBCL/misc.py:205-213 | with the index no longer than the read, the token's segments add up to exactly the sequenced cycles |
| Misc.UmlautDestroyerClean | src/dissectBCL/misc.py:389-424 | the sanitised name holds no space, no apostrophe and none of the replaced accented letters |
| Misc.UmlautDestroyerIdempotent | src/dissectBCL/misc.py:389-424 | sanitising a sanitised name changes nothing |
| Misc.FormatSeqRecipe | src/dissectBCL/misc.py:318-330 | "Unknown" for an empty recipe, otherwise the `key:cycles` entries in recipe order joined by "; " (the trailing separator cut off) |
| Misc.FormatMisMatches | src/dissectBCL/misc.py:333-345 | the `key:value` entries in dict order joined by ", ", and "" for an empty dict |
| Misc.RetBCstrMatchesHeader | src/dissectBCL/misc.py:256-271 | a row's barcode string has as many tab-separated fields as the header of the same row, and they are the `str` of index (and index2) |
| Misc.FetchLatestSeqDir | src/dissectBCL/misc.py:370-386 | the result is `sequencing_data<n>` for the largest number n found after 'sequencing_data' among the matching names, or plain `sequencing_data` when there is none; a remainder that is not an integer raises ValueError, and only then |
| Misc.MismatchesSymmetric | src/dissectBCL/misc.py:190-194 | counting mismatches over a common prefix does not depend on the order of the sequences |
| Misc.MismatchesBounded | src/dissectBCL/misc.py:190-194 | the mismatches over k positions are at most k |
| Misc.MismatchesZero | src/dissectBCL/misc.py:190-194 | no mismatch over k positions exactly when the first k characters agree |
| Demux.Hamming2Mismatch | src/dissectBCL/demux.py:14-20 | the tolerance is at most 2 |
| Demux.Hamming2MismatchMonotone | src/dissectBCL/demux.py:14-20 | a larger minimal distance never gives a smaller tolerance |
| Demux.ToleranceSeparates | src/dissectBCL/demux.py:14-20 | for every distance d >= 1 twice the tolerance is below d, so no read lies within the tolerance of two barcodes |
| Demux.MismatchesTriangle | src/dissectBCL/misc.py:190-194 | mismatch counts obey the triangle inequality |
| Demux.SeqMin | src/dissectBCL/demux.py:32 | Python `min` of a non-empty list is an element and below every element |
| Demux.PairDistances | src/dissectBCL/demux.py:29-31 | the loop appends the distance of every pair of `combinations(P7s, 2)`, in that order |
| Demux.MisMatcher | src/dissectBCL/demux.py:23-38 | the method computes the dict that MisMatch specifies (see the two lemmas below) |
| Demux.MisMatchKeys | src/dissectBCL/demux.py:28-38 | it succeeds iff there are two index cells and, when some index2 cell is present, two index2 cells (otherwise `min` of an empty list raises); the index2 key is set exactly when an index2 cell is present; each tolerance is `hamming2Mismatch` of that series' minimal pairwise distance |
| Demux.MisMatchSeparates | src/dissectBCL/demux.py:23-38 | when no two index barcodes are at distance 0, twice the index-1 tolerance is below every pair's distance |
| Demux.MinLength | src/dissectBCL/demux.py:56-60 | `str.len().min()` is NaN iff no cell is present, and otherwise the length of some present cell and at most every present cell's length |
| Demux.NugenIndexToken | src/dissectBCL/demux.py:82-88 | the NuGEN index-1 token parses as `I<minP7>` followed by `U<rest>` when cycles remain after the shortest index |
| Demux.DetMaskNeeds | src/dissectBCL/demux.py:56-99 | a mask is only produced when the sheet has index and indexType columns (and a Description column outside NuGEN) and the recipe has Read1 and Index1 |
| Demux.DetMaskDescriptionFirst | src/dissectBCL/demux.py:98-104 | outside NuGEN a sheet without a Description column raises that KeyError before Read1 is looked up |
| Demux.DetMaskAsWritten | src/dissectBCL/demux.py:41-136 | as written, a mask comes back only for a NuGEN sheet without an index2 column, and it is the corrected mask |
| Demux.DetMaskLenMaskRaises | src/dissectBCL/demux.py:91-136 | a sheet that reaches the branch choice gets a mask exactly when it is NuGEN without index2; every scATAC and general sheet, and a NuGEN sheet with index2 and an Index2 read, raise the `lenMask` TypeError |
| Demux.CycleToken | src/dissectBCL/demux.py:110-138 | the `U<n>` and `N<n>` tokens read back as that single segment |
| Demux.DetMaskFlags | src/dissectBCL/demux.py:51-143 | PE is whether Read2 was sequenced; dualIx is the index2 column's presence for NuGEN, false for scATAC and "some index2 cell present" otherwise; the UMI convert options go with the two special kits only, and minP5/minP7 are returned only in the general case |
| Demux.DetMaskCoversRecipe | src/dissectBCL/demux.py:51-143 | when the shortest barcodes fit their reads, the mask's tokens cover Read1, Index1, Index2 (left out only by a NuGEN sheet without an index2 column) and Read2 with their full cycle counts, in that order |
| Demux.PairwiseHas | src/dissectBCL/demux.py:30-31 | every pair of distinct samples contributes its distance |
| Demux.PairwiseHasPair | src/dissectBCL/demux.py:30-31 | the distance of a pair is listed once its first cell is among those combined |
| Demux.PairwiseOnly | src/dissectBCL/demux.py:30-31 | every distance collected comes from a pair of distinct samples |
| Demux.AllPairsMin | src/dissectBCL/demux.py:30-32 | the minimum over the pairs is the smallest distance between two samples |
| Demux.NugenCovers | src/dissectBCL/demux.py:73-98 | the NuGEN mask's cycles add up to the run's recipe |
| Demux.ScAtacCovers | src/dissectBCL/demux.py:99-122 | the scATAC mask's cycles add up to the run's recipe, index 2 included |
| Demux.GeneralCovers | src/dissectBCL/demux.py:123-143 | the general mask's cycles add up to the run's recipe |
| DemuxRun.Cut | src/dissectBCL/demux.py:172-184 | cutting one index cell to `n` characters keeps a missing cell missing and yields a prefix of length min(len, n) |
| DemuxRun.PrepEntry | src/dissectBCL/demux.py:161-190 | a prepared folder keeps its name and its number of sample rows and now carries mask, dualIx, PE, options and tolerances |
| DemuxRun.PrepConvert | src/dissectBCL/demux.py:148-192 | the entries of `ssDic` become those of the folder-by-folder preparation, an error is returned exactly when one folder raised, and the rest of the sample sheet object is unchanged |
| DemuxRun.PrepOne | src/dissectBCL/demux.py:161-190 | one iteration of the preparation loop computes the prepared entry of its folder |
| DemuxRun.PrepFromNames | src/dissectBCL/demux.py:151-190 | preparing from any position on keeps every folder's name at its place |
| DemuxRun.PrepFromUntouched | src/dissectBCL/demux.py:151-160 | folders before the start position and folders carrying `bclconvert.done` are left exactly as they were |
| DemuxRun.PrepFromPrepares | src/dissectBCL/demux.py:151-190 | when nothing raises, every folder from the start position on without the marker holds its own prepared entry |
| DemuxRun.PrepAllKeeps | src/dissectBCL/demux.py:148-192 | the whole preparation keeps folder names and order and leaves converted folders untouched |
| DemuxRun.PrepAllPrepares | src/dissectBCL/demux.py:148-192 | when the whole preparation raises nothing, every unconverted folder holds its prepared entry |
| DemuxRun.PrepEntryCuts | src/dissectBCL/demux.py:171-190 | in the general (non-NuGEN, non-scATAC) case every present index is cut to exactly the shortest index length, as a prefix of itself, and the tolerances are computed from the cut indices |
| DemuxRun.PrepEntryParts | src/dissectBCL/demux.py:161-190 | a prepared entry is the cut sheet of `detMask`'s lengths together with the tolerances of that cut sheet |
| DemuxRun.TruncateCuts | src/dissectBCL/demux.py:172-177 | cutting to the shortest index length `m` leaves every present index a prefix of length exactly `m` |
| DemuxRun.WriteDemuxSheet | src/dissectBCL/demux.py:195-293 | an unprepared entry raises KeyError 'mismatch' and changes nothing; otherwise dualIx is settled in the entry and the folder's demux sheet is written with exactly the lines of the sheet renderer, leaving markers, launches and mails alone |
| DemuxRun.BclOpts | src/dissectBCL/demux.py:452-464 | the command line has 14 arguments, or 16 ending in `--no-lane-splitting true` without lane splitting, starts with the configured binary and points at the folder's demux sheet with the thread counts in place |
| DemuxRun.ConvertSkipsMarked | src/dissectBCL/demux.py:447-450 | a folder that already has `bclconvert.done` is not converted again and nothing changes |
| DemuxRun.ConvertRetriesOnce | src/dissectBCL/demux.py:452-515 | bcl-convert is launched once, or twice exactly when the first exit code is -6, with the same arguments; the marker is touched exactly when the last exit code is 0, otherwise one mail with that exit code is sent and the run stops |
| DemuxRun.RunBclConvert | src/dissectBCL/demux.py:467-515 | the launch-and-retry code changes the output directory exactly as the conversion step describes and returns its outcome |
| DemuxRun.Reconcile | src/dissectBCL/demux.py:426-446 | taking a manual demux sheet in keeps the folder's name and prepared fields, replaces only the mask and matches the sample table against the sheet's table |
| DemuxRun.ResumeRaises | src/dissectBCL/demux.py:426-446 | for a folder already converted, preparation skips it, so the code as written raises when it compares the missing dualIx, while any successful run agrees with the guarded reconciliation |
| DemuxRun.SheetStep | src/dissectBCL/demux.py:413-446 | the demux sheet step keeps the folder's name and never touches markers, launches or folders |
| DemuxRun.DemuxFolder | src/dissectBCL/demux.py:403-520 | one folder's step keeps the number and names of all entries |
| DemuxRun.ConvertFolder | src/dissectBCL/demux.py:447-520 | the conversion and statistics step keeps the number and names of all entries |
| DemuxRun.DemuxFolderMarkers | src/dissectBCL/demux.py:403-520 | one folder's step keeps every marker, adds at most its own `bclconvert.done` and only after a launch that exited 0, never relaunches a converted folder, and leaves the folder existing |
| DemuxRun.ConvertFolderMarkers | src/dissectBCL/demux.py:447-520 | the conversion part adds at most the folder's own marker, only after an exit 0, and creates no folder |
| DemuxRun.DemuxMarkers | src/dissectBCL/demux.py:401-521 | the whole `demux` keeps every marker and only adds `bclconvert.done` markers of its own output folders |
| DemuxRun.ReadFolderSheet | src/dissectBCL/demux.py:426 | reading a folder's demux sheet gives the parse of the lines stored there |
| DemuxRun.SheetStepAt | src/dissectBCL/demux.py:413-446 | on error nothing changes; otherwise entry `k` and the output directory become what the sheet step describes |
| DemuxRun.DemuxStepIs | src/dissectBCL/demux.py:403-520 | the composed folder step is the loop body of `demux` |
| DemuxRun.DemuxOne | src/dissectBCL/demux.py:403-520 | one iteration changes entries and output directory exactly as the folder step does |
| DemuxRun.ConvertAt | src/dissectBCL/demux.py:447-520 | the conversion and statistics part changes entries and output directory as the conversion step does |
| DemuxRun.DemuxLoop | src/dissectBCL/demux.py:403-520 | the loop visits every folder in `ssDic` order and stops at the first failure, with the state of the folder-by-folder run |
| DemuxRun.RunDemux | src/dissectBCL/demux.py:401-521 | `demux` leaves entries and output directory in the state of the folder-by-folder run and returns its outcome |
| DemuxRun.MuxReads | src/dissectBCL/demux.py:372-378 | the read table has a key exactly for each SampleID present in the statistics rows, and each value is the sum of that sample's '# Reads' |
| DemuxRun.ReadsOfAbsent | src/dissectBCL/demux.py:372-378 | a sample absent from the statistics rows sums to zero reads |
| RunDir.PathJoinInjective | src/dissectBCL/demux.py:406 | two folder names joined to the same base directory give the same path exactly when they are the same name |
| RunDir.OutputDir.constructor | src/dissectBCL/demux.py:406-408 | an output directory starts with the given folders, markers and sheets and no launches or mails |
| RunDir.EachFolderMarkers | src/dissectBCL/demux.py:403-520 | a per-folder loop whose step only adds markers of the folder at hand keeps every marker and only adds markers of the folders it visits |
| MaskSyntax.ParseRender | src/dissectBCL/demux.py:80-143 | every OverrideCycles token built from operation letters and cycle counts parses back to the same segments |
| MaskSyntax.RenderHasNoSemicolon | src/dissectBCL/demux.py:97 | a rendered read token holds no ';', so joining tokens with ';' keeps the reads apart |
| DemuxSheet.SettledPrep | src/dissectBCL/demux.py:207-217 | dualIx stays set exactly when it was set and an index-2 tolerance exists, and nothing else in the entry changes |
| DemuxSheet.RowValues | src/dissectBCL/demux.py:229-290 | a data line has one value per column of the header chosen by dualIx and lane splitting |
| DemuxSheet.RowLines | src/dissectBCL/demux.py:229-290 | one data line per sample row, in order, each the row's values joined by ',' |
| DemuxSheet.ReadDemuxSheetLoop | src/dissectBCL/demux.py:296-336 | the line loop and table construction of `readDemuxSheet` give the parse the specification function describes |
| DemuxSheet.MaxLen | src/dissectBCL/demux.py:321-324 | the widest split line bounds every other and is reached by one of them |
| DemuxSheet.Pad | src/dissectBCL/demux.py:321-324 | a short row is padded with missing cells to the width of the table |
| DemuxSheet.ToleranceLinesInert | src/dissectBCL/demux.py:198-217 | the header and tolerance lines written before the mask neither set the mask nor open the data section when read back |
| DemuxSheet.MaskLineReads | src/dissectBCL/demux.py:218 | the OverrideCycles line reads back, through `readDemuxSheet`'s replacements, as the mask text it was written with, and does not open the data section |
| DemuxSheet.HeaderReads | src/dissectBCL/demux.py:224-278 | each of the four column header lines splits on ',' into exactly its columns |
| DemuxSheet.DataMarkerReads | src/dissectBCL/demux.py:224 | both data section markers open the data section when read back |
| DemuxSheet.DataColumnsPlain | src/dissectBCL/demux.py:226-278 | every header has at least two plain column names, starting with Lane or Sample_ID |
| DemuxSheet.RowLineReads | src/dissectBCL/demux.py:229-290 | a data line of a plain row splits back on ',' into the text of each written value |
| DemuxSheet.RowLinesRead | src/dissectBCL/demux.py:229-290 | all data lines split back into the rendered values of their rows, in order |
| DemuxSheet.ReadSettings | src/dissectBCL/demux.py:305-320 | reading everything written before the data section leaves only the mask behind and opens the data section |
| DemuxSheet.ReadDataSection | src/dissectBCL/demux.py:316-317 | inside the data section the header and every data line are kept, split on ',' |
| DemuxSheet.FrameOfFullRows | src/dissectBCL/demux.py:321-324 | a header and rows of as many cells become a table with those columns and every cell present |
| DemuxSheet.ReadOfDataSection | src/dissectBCL/demux.py:321-336 | once the loop has kept the header and the data lines, the result is the mask, the table of cells, and dualIx exactly when index2 is a column |
| DemuxSheet.ReadSheetLines | src/dissectBCL/demux.py:305-320 | the line loop over a written sheet ends in the data section with the mask and the data cells |
| DemuxSheet.WriteReadRoundTrip | src/dissectBCL/demux.py:195-336 | reading a written demux sheet gives back the mask text, a table with the written columns and one row of cells per sample, and the dualIx that writing settled |
| FlowcellSheet.AnyPair | src/dissectBCL/flowcell.py:565-590 | the flag loop is set exactly when some pair of rows is related |
| FlowcellSheet.CountLanes | src/dissectBCL/flowcell.py:592 | the count is the number of distinct lanes of the sheet |
| FlowcellSheet.MoreThanOne | src/dissectBCL/flowcell.py:566-571 | more than one unique value exactly when two different values occur |
| FlowcellSheet.SampleOnTwoLanesIff | src/dissectBCL/flowcell.py:562-575 | the pairwise test holds exactly when some sample other than PhiX has more than one unique lane |
| FlowcellSheet.LaneNames | src/dissectBCL/flowcell.py:710-712 | one lane name per lane of the run |
| FlowcellSheet.RowsOfLane | src/dissectBCL/flowcell.py:704 | the rows kept are exactly the sheet's rows on that lane |
| FlowcellSheet.Sanitised | src/dissectBCL/flowcell.py:653-660 | sanitising project and sample names keeps one row per row |
| FlowcellSheet.SplitEntries | src/dissectBCL/flowcell.py:667-706 | a split run gets one entry per lane of the run |
| FlowcellSheet.FirstPresent | src/dissectBCL/flowcell.py:735 | the 'first' aggregation gives a cell of the group, and a present one exactly when the group has one |
| FlowcellSheet.Group | src/dissectBCL/flowcell.py:736-738 | a group holds exactly the rows of its Sample_ID |
| FlowcellSheet.Ids | src/dissectBCL/flowcell.py:736-738 | the group keys are the sheet's Sample_IDs, each exactly once, in sorted order as `groupby` gives them |
| FlowcellSheet.InsertId | src/dissectBCL/flowcell.py:736-738 | adding a key to sorted distinct keys keeps them sorted and holds exactly the old keys and the new one |
| FlowcellSheet.Collapse | src/dissectBCL/flowcell.py:728-739 | the collapsed sheet has one row per Sample_ID |
| FlowcellSheet.WithLane | src/dissectBCL/flowcell.py:742 | setting the Lane column changes that cell of every row and nothing else |
| FlowcellSheet.LaneKeyInjective | src/dissectBCL/flowcell.py:668 | different lanes give different output folder keys |
| FlowcellSheet.SplitEntriesByLane | src/dissectBCL/flowcell.py:666-708 | a split run gets one folder per lane 1..n named after its lane, all names different, each holding exactly the rows listed on its lane |
| FlowcellSheet.CollapseIds | src/dissectBCL/flowcell.py:736-738 | the k-th collapsed row belongs to the k-th group key, so the collapsed rows come in increasing Sample_ID order |
| FlowcellSheet.MergedEntryRows | src/dissectBCL/flowcell.py:709-743 | an unsplit run gets one folder named after all lanes whose rows all carry the lanes joined by ','; without LIMS data every row is kept in place, with it there is one row per Sample_ID, in increasing Sample_ID order, and no sample is lost |
| FlowcellSheet.CollapsedWithLane | src/dissectBCL/flowcell.py:736-742 | the collapsed rows with the merged lane set hold each Sample_ID once, in increasing order, and the same Sample_IDs as the sheet |
| FlowcellSheet.KeyedRows | src/dissectBCL/flowcell.py:736-738 | rows keyed one by one by the group keys are distinct, sorted and cover the sheet's Sample_IDs |
| FlowcellSheet.LaneEntries | src/dissectBCL/flowcell.py:667-706 | the lane loop builds exactly the per-lane entries |
| FlowcellSheet.SampleSheet.constructor | src/dissectBCL/flowcell.py:897-905 | a new sample sheet object holds the flow cell name and lane count and no entries yet |
| FlowcellSheet.SampleSheet.DecideSplit | src/dissectBCL/flowcell.py:525-629 | `decideSplit` gives the split decision of the specification: no split for a sample or project on two lanes or fewer listed lanes than the run has, then overridden to a split when two samples clash on their indices; a sheet without Lane or index raises |
| FlowcellSheet.SampleSheet.Settle | src/dissectBCL/flowcell.py:663-745 | after the split decision the object holds that decision and the entries built from it, and the full sheet is dropped; a raised error is passed on |
| FlowcellSheet.SampleSheet.ParseSS | src/dissectBCL/flowcell.py:632-745 | `parseSS` fails exactly as the specification does (no Lane column, a non-integer lane, a failed split decision) and otherwise leaves the split status and entries it describes |
| FlowcellRun.CycleCount | src/dissectBCL/flowcell.py:77-81 | a cycle count read from NumCycles is the integer value of its text |
| FlowcellRun.ParseRunInfo | src/dissectBCL/flowcell.py:58-89 | the element loop of `parseRunInfo` gives the parse the specification function describes, errors included |
| FlowcellRun.ScanErrPersists | src/dissectBCL/flowcell.py:73-88 | once an element raises, the rest of the document changes nothing |
| FlowcellRun.RecipeFollowsSnoc | src/dissectBCL/flowcell.py:74-82 | one more Read element keeps the earlier keys and is keyed 'Index<n>' or 'Read<n>' by the count of its own kind |
| FlowcellRun.VisitShape | src/dissectBCL/flowcell.py:74-88 | a Read element appends one read of kind 'I' or 'Y' with its cycle count and bumps its own counter; other elements leave recipe and counters alone |
| FlowcellRun.ScanRecipe | src/dissectBCL/flowcell.py:70-88 | the recipe has one entry per Read element in document order, keyed and typed by its index flag, and the counters stand one above the reads of each kind |
| FlowcellRun.CountGrows | src/dissectBCL/flowcell.py:78-82 | each read of a kind raises that kind's counter by one |
| FlowcellRun.ReadKeysDistinct | src/dissectBCL/flowcell.py:76-81 | different reads get different keys, so no dictionary assignment overwrites an earlier read |
| FlowcellRun.ParseRunInfoShape | src/dissectBCL/flowcell.py:58-89 | a successful parse saw FlowcellLayout, Instrument and Flowcell elements and its recipe has one distinct key per Read element |
| FlowcellRun.ScanAssigned | src/dissectBCL/flowcell.py:83-88 | lanes, instrument and flowcell ID are only set by an element of their own tag |
| FlowcellRun.AvitiRecipe | src/dissectBCL/flowcell.py:108-114 | the Aviti recipe starts with Read1 of the R1 cycles |
| FlowcellRun.ParseRunInfoAviti | src/dissectBCL/flowcell.py:92-122 | the parse succeeds exactly when Cycles with R1, AnalysisLanes, InstrumentName and FlowcellID are present; then two lanes exactly for "1+2", one otherwise |
| FlowcellRun.AvitiRecipeReads | src/dissectBCL/flowcell.py:108-114 | looking a key up in the Aviti recipe gives Read1 from R1 and Read2, Index1, Index2 exactly when R2, I1, I2 are present, and nothing else |
| FlowcellRun.SequencerOf | src/dissectBCL/flowcell.py:446-461 | the sequencer is NovaSeq, NextSeq or MiSeq exactly for the letters A, N, M opening the second '_' field of the run name, and a KeyError otherwise |
| FlowcellRun.LastStatusIsLast | src/dissectBCL/flowcell.py:133-135 | the status is the text of the last CompletionStatus element, and unset when there is none |
| FlowcellRun.ValidateRunCompletion | src/dissectBCL/flowcell.py:125-139 | non-MiSeq runs count as completed; a MiSeq run reports its last CompletionStatus and raises without one |
| FlowcellRun.CompletionNeverRead | src/dissectBCL/flowcell.py:130 | as written no sequencer name the letter map yields equals 'Miseq', so every Illumina run counts as completed; the corrected check reports a MiSeq run's own status |
| FlowcellRun.FailedMiSeqRun | src/dissectBCL/flowcell.py:125-139 | a MiSeq run folder whose status file says Failed is taken for completed as written and reported Failed by the corrected check |
| FlowcellRun.TruncateIndex2 | src/dissectBCL/flowcell.py:160-162 | cutting index2 to a length no longer than any index2 leaves every index2 exactly that long |
| FlowcellRun.SwappedParts | src/dissectBCL/flowcell.py:152-162 | as written the sheet is cut with the two minimum lengths exchanged, which gets through only when the sheet has an index2 column or no positive minP7 |
| FlowcellRun.SwappedSingleIndexRaises | src/dissectBCL/flowcell.py:158-161 | as written a general single-index sheet with a positive minimum index length raises the KeyError 'index2' |
| FlowcellRun.SwappedCutShortensIndex2 | src/dissectBCL/flowcell.py:160-162 | as written, when the shortest index is shorter than the shortest index2, every index2 is cut to the index length, shorter than the index2 length the mask announces |
| FlowcellRun.PrepEntryCutsIndex2 | src/dissectBCL/flowcell.py:160-162 | with the cuts the right way round every index2 ends at exactly the shortest index2 length |
| FlowcellRun.FlowCell.PrepConvert | src/dissectBCL/flowcell.py:142-167 | every folder is prepared, with the cuts the right way round, and 'premux' is recorded as 0 exactly when nothing raised |
| FlowcellRun.FcConvert | src/dissectBCL/flowcell.py:208-272 | the bcl-convert part of a folder keeps the number and names of all entries |
| FlowcellRun.FcDemuxFolder | src/dissectBCL/flowcell.py:186-272 | one folder of `demux` keeps the number and names of all entries |
| FlowcellRun.FcCompareFirst | src/dissectBCL/flowcell.py:189-205 | a folder that already holds a demux sheet is first compared with its entry: a comparison that raises ends the folder with that error after only making it, otherwise bcl-convert runs on the compared entry |
| FlowcellRun.FcConvertMarkers | src/dissectBCL/flowcell.py:208-269 | a converted folder launches nothing; otherwise the first launch uses the folder's command line with half the threads, the marker is added exactly when it exits 0, and a non-zero exit leaves exactly that one launch and stops the run |
| FlowcellRun.FcDemuxFolderMarkers | src/dissectBCL/flowcell.py:186-272 | one folder makes its directory, keeps every marker, adds at most its own `bclconvert.done` and only after an exit 0 |
| FlowcellRun.FcDemuxStepIs | src/dissectBCL/flowcell.py:186-272 | the composed folder step is the loop body of `demux` |
| FlowcellRun.FcDemuxMarkers | src/dissectBCL/flowcell.py:170-273 | `demux` keeps every marker and adds only markers of its own folders: `bclconvert.done` on a completed run, `run.failed` otherwise |
| FlowcellRun.FailedRun | src/dissectBCL/flowcell.py:172-183 | the failed-run branch as intended makes every folder, marks each `run.failed` and sends one mail, launching nothing |
| FlowcellRun.FailedRunMarksNothing | src/dissectBCL/flowcell.py:175 | as written the first folder's `mkdir(exists_ok=True)` raises, so nothing is marked; the intended branch marks every folder |
| FlowcellRun.FlowCell.Demux | src/dissectBCL/flowcell.py:170-273 | `demux` changes entries and output directory as the folder-by-folder run (or the failed-run branch) describes and records 'demux' as 0 only after a completed loop |
| FlowcellRun.FcDemuxOne | src/dissectBCL/flowcell.py:186-272 | one iteration changes entries and output directory exactly as the folder step does |
| FlowcellRun.FcConvertAt | src/dissectBCL/flowcell.py:208-272 | the bcl-convert part for folder `k` changes state exactly as the conversion step does |
| FlowcellRun.FcDemuxLoop | src/dissectBCL/flowcell.py:186-272 | the loop visits every folder in order and stops at the first failure |
| FlowcellRun.AvitiStopsAtFirstFolder | src/dissectBCL/flowcell.py:289-350 | on a completed Aviti run the first folder always ends in an exception (the `parseStats` call passes a keyword it does not take), with its marker touched exactly when bases2fastq ran and exited 0 |
| FlowcellRun.Projects | src/dissectBCL/flowcell.py:362 | the project list holds every project of the sheet once, in order of first appearance |
| FlowcellRun.ToolsFrom | src/dissectBCL/flowcell.py:374-390 | the tool runs touch no marker and, when they succeed, launch one batch per remaining project |
| FlowcellRun.ToolsFromOk | src/dissectBCL/flowcell.py:374-390 | the tool runs succeed exactly when every remaining project's batch does |
| FlowcellRun.PostmuxFolder | src/dissectBCL/flowcell.py:355-391 | a folder of `postmux` leaves the entries alone |
| FlowcellRun.NameRows | src/dissectBCL/flowcell.py:360-371 | the frame handed to `renameProject` pairs every row's Sample_ID with its Sample_Name |
| FlowcellRun.RenameFromOk | src/dissectBCL/flowcell.py:364-373 | renaming a folder's projects gets through exactly when `renameProject` succeeds for every project, under `Samples` on Aviti |
| FlowcellRun.RenameAt | src/dissectBCL/flowcell.py:364-373 | the renaming loop calls `renameProject` project by project and reports the first failure, or nothing to do once renamed.done is there |
| FlowcellRun.RenameProjectOf | src/dissectBCL/flowcell.py:367-371 | `renameProject` on one project's folder, under `Samples` on Aviti, gives that project's renaming outcome |
| FlowcellRun.PostmuxFolderMarkers | src/dissectBCL/flowcell.py:355-391 | afterwards `renamed.done` is there exactly when it was before or every project was renamed, and a failed renaming changes nothing and fails; `postmux.done` is there exactly when it was before or, renamed, every project's tools succeeded; the folder succeeds exactly when renamed and `postmux.done` was there or the tools succeeded; a folder that had `postmux.done` launches nothing, otherwise one launch per project |
| FlowcellRun.PostmuxMarkers | src/dissectBCL/flowcell.py:353-392 | `postmux` adds only `renamed.done` and `postmux.done` markers of its own folders |
| FlowcellRun.FlowCell.Postmux | src/dissectBCL/flowcell.py:353-392 | `postmux` renames and runs the tools as the folder-by-folder run describes (project folders under `Samples` on Aviti) and records 'postmux' as 0 only when it completes |
| FlowcellRun.PostmuxLoop | src/dissectBCL/flowcell.py:355-391 | the loop visits every folder in order until the first failure |
| FlowcellRun.PostmuxAt | src/dissectBCL/flowcell.py:356-391 | one iteration renames and runs the tools as the folder step does, and a failed renaming changes nothing |
| FlowcellRun.FlowCell.constructor | src/dissectBCL/flowcell.py:445-495 | a flow cell holds its name, sequencer, completion status, the recipe, lanes, instrument and flow cell ID of its run info, its sample sheet and no exit statuses |
| ClassesSheet.NameRepeatsIff | src/dissectBCL/classes.py:159 | the pairwise row test holds exactly when some Sample_Name is counted more than once |
| ClassesSheet.NameCountAtLeastTwo | src/dissectBCL/classes.py:159 | a name on two different rows is counted at least twice |
| ClassesSheet.NameCountPositive | src/dissectBCL/classes.py:159 | a name on some row is counted |
| ClassesSheet.NameCountTwoRows | src/dissectBCL/classes.py:159 | a name counted more than once sits on two different rows |
| ClassesSheet.NameCountRow | src/dissectBCL/classes.py:159 | a counted name sits on some row |
| ClassesSheet.RepeatedName | src/dissectBCL/classes.py:159 | the scan finds a repeated name exactly when some Sample_Name occurs twice |
| ClassesSheet.RowsNotLanes | src/dissectBCL/classes.py:159-163 | this test counts rows, not lanes: one sample listed twice on the same lane forbids the split here, while the later flow cell module's lane-based test allows it |
| ClassesSheet.NoBlanksClean | src/dissectBCL/classes.py:239 | removing spaces leaves none, keeps a name without spaces, and is idempotent |
| ClassesSheet.ProjectsWithoutBlanks | src/dissectBCL/classes.py:239 | every row's Sample_Project loses its spaces and nothing else changes |
| ClassesSheet.ParseSSEntries | src/dissectBCL/classes.py:218-303 | no entry holds a project name with a space; a split run has one entry per lane named after it, an unsplit run one entry named after all lanes |
| ClassesSheet.MergedProjects | src/dissectBCL/classes.py:286-298 | collapsing samples keeps project names free of spaces |
| ClassesSheet.SampleSheet.constructor | src/dissectBCL/classes.py:309-313 | a new sample sheet object holds the flow cell name and lane count and no entries yet |
| ClassesSheet.SampleSheet.DecideSplit | src/dissectBCL/classes.py:143-215 | `decideSplit` gives the split decision of the specification, including the KeyError and unbound-variable errors for missing columns |
| ClassesSheet.SampleSheet.ParseSS | src/dissectBCL/classes.py:218-303 | `parseSS` fails exactly as the specification does and otherwise leaves the split status and the entries it describes, with the full sheet dropped |
| ClassesSheet.SpaceGood | src/dissectBCL/classes.py:363-369 | more than 5000 is fine, strictly between 1000 and 5000 is tight, and everything else (1000 and 5000 included) is danger |
| LegacyClasses.ParseRunInfo | dissectBCL/classes.py:37-64 | the element loop of the first `parseRunInfo` gives the parse the specification function describes, errors included |
| LegacyClasses.ScanErrPersists | dissectBCL/classes.py:50-63 | once an element raises, the rest of the document changes nothing |
| LegacyClasses.VisitDic | dissectBCL/classes.py:51-57 | a loop turn changes the read dictionary only at a complete read's key |
| LegacyClasses.ReadDicKeys | dissectBCL/classes.py:49-63 | the dictionary has exactly one key 'Read<Number>' per read Number, whatever the read's type |
| LegacyClasses.ReadDicLast | dissectBCL/classes.py:56-57 | a Number given twice keeps the later read's entry |
| LegacyClasses.EntryTypes | dissectBCL/classes.py:52-55 | a read's type is 'Index' exactly when IsIndexedRead is 'Y', and 'Read' otherwise |
| LegacyClasses.LegacyAgreesUntilOverride | dissectBCL/classes.py:96-122 | the early-return `decideSplit` splits exactly when no name repeats, no project spans two lanes and enough lanes are listed, and whenever it splits the later version splits too |
| PreFQ.CycleList | dissectBCL/preFQ.py:3-13 | one entry per kept read |
| PreFQ.KeptReads | dissectBCL/preFQ.py:6-12 | only Read and Index reads are kept |
| PreFQ.CycleOverwrite | dissectBCL/preFQ.py:3-13 | the loop builds exactly the list of entries the specification function describes |
| PreFQ.MisMatcher | dissectBCL/preFQ.py:28-32 | `misMatcher` of this version returns the read-length list and nothing else |
| PreFQ.EntryOfKept | dissectBCL/preFQ.py:7-12 | a read gets an entry exactly when it is kept, and the entry is its letter, a space and its cycles |
| PreFQ.CycleListFollows | dissectBCL/preFQ.py:3-13 | the i-th entry is the i-th kept read's letter ('Y' for reads and for index reads of 16 cycles or more, 'I' otherwise), a space and its cycles |
| PreFQ.EntryReadsBack | dissectBCL/preFQ.py:17 | the field after the space of an entry is the read's cycles, which `int()` recovers |
| PreFQ.DetMaskOf | dissectBCL/preFQ.py:15-24 | `detMask` rewrites at most entries 1 and 2 and keeps the list's length |
| PreFQ.DetMask | dissectBCL/preFQ.py:15-24 | the in-place rewrite of the array leaves it and the outcome as the specification function describes |
| PreFQ.RewriteIsLenMask | dissectBCL/preFQ.py:18-24 | an entry is rewritten only when its cycles exceed the shortest index, into an index segment of the shortest length followed by a skip of the rest, together the sequenced cycles |
| PreFQ.DetMaskOnCycleList | dissectBCL/preFQ.py:16-19 | on a list `cycleOverwrite` made, the index entry is rewritten from the second kept read's cycles exactly when they exceed the shortest index, and kept otherwise |
| LegacyDemux.Index2Tolerance | dissectBCL/demux.py:29-34 | the index-2 tolerance is at most 2 |
| LegacyDemux.Index2ToleranceDiffers | dissectBCL/demux.py:19-34 | the index-2 thresholds agree with the index-1 ones except at distance 4, are never lower, and grow with the distance |
| LegacyDemux.MisMatcher | dissectBCL/demux.py:10-35 | the `hammings` loops compute exactly the tolerances the specification function describes |
| LegacyDemux.MisMatchKeys | dissectBCL/demux.py:10-35 | `misMatcher` fails (min of an empty list) on fewer than two barcodes in a series it looks at, sets the index-2 tolerance exactly when the index2 series is not empty, and each tolerance is its thresholds' value at the smallest pairwise distance |
| LegacyDemux.MisMatchMissingIndex2 | dissectBCL/demux.py:25-34 | an index2 series of missing cells only gets tolerance 0 |
| LegacyDemux.DetMaskFlags | dissectBCL/demux.py:38-131 | dualIx is whether the sheet has an index2 column, PE whether Read2 was sequenced, and the UMI options go with a row naming the NuGEN kit and nothing else |
| LegacyDemux.MissingTypeSelectsNugen | dissectBCL/demux.py:63-69 | as written an empty indexType cell makes the NuGEN test truthy, so the sheet gets the NuGEN UMI options; the corrected test gives it none |
| LegacyDemux.NugenAgrees | dissectBCL/demux.py:65-89 | on a NuGEN sheet this version and the later one agree on success, mask, dualIx and options |
| LegacyDemux.GeneralAgrees | dissectBCL/demux.py:114-131 | on a sheet naming neither kit, with a barcode in any index2 column, both versions agree on success, mask and dualIx |
| LegacyDemux.GeneralMaskAgrees | dissectBCL/demux.py:114-131 | the general branches of the two versions agree when an index2 column comes with a minimum |
| LegacyDemux.PrepEntry | dissectBCL/demux.py:138-151 | a prepared folder keeps its name and its untruncated sheet and carries the prepared fields |
| LegacyDemux.PrepFrom | dissectBCL/demux.py:137-151 | preparation from any position keeps the number of folders |
| LegacyDemux.PrepConvert | dissectBCL/demux.py:134-152 | the entries of `ssDic` become those of the folder-by-folder preparation, an error exactly when one raised, and the rest of the sample sheet object is unchanged |
| LegacyDemux.PrepOne | dissectBCL/demux.py:138-151 | one iteration computes the prepared entry of its folder |
| LegacyDemux.PrepFromKeeps | dissectBCL/demux.py:137-151 | every folder keeps its name and sample sheet |
| LegacyDemux.PrepFromUntouched | dissectBCL/demux.py:137-151 | the folders before the start position are unchanged |
| LegacyDemux.PrepFromPrepares | dissectBCL/demux.py:137-151 | when nothing raises, every folder from the start position on holds its prepared entry |
| LegacyDemux.PrepConvertPrepares | dissectBCL/demux.py:134-152 | `prepConvert` keeps folders, order and sample sheets, and when it raises nothing every folder holds `detMask` and `misMatcher`'s results for its sheet |
| LegacyDemux.SheetLines | dissectBCL/demux.py:155-248 | the writer succeeds exactly when the folder was prepared and, with dualIx set, an index-2 tolerance exists |
| LegacyDemux.SheetLinesKeepDualIx | dissectBCL/demux.py:162-172 | this writer leaves dualIx as it was and writes the index-2 tolerance line exactly when dualIx is set |
| LegacyDemux.PreparedSheetWrites | dissectBCL/demux.py:134-172 | a folder `prepConvert` prepared can always be written: the KeyError cannot follow a successful preparation |
| LegacyDemux.BclOpts | dissectBCL/demux.py:277-286 | the command line has 14 arguments, 20 threads of each kind, the configured binary and the folder's demux sheet, and no lane-splitting option |
| LegacyDemux.Launches | dissectBCL/demux.py:253-295 | one command line per folder, in order |
| LegacyDemux.DemuxFolderOnce | dissectBCL/demux.py:253-300 | one folder touches no marker and sends no mail, launches once when its sheet is there or can be written, and succeeds exactly when that launch exits 0; an exit of -6 is not retried |
| LegacyDemux.FolderStepIs | dissectBCL/demux.py:253-300 | the folder step keeps markers and mails and launches at most once |
| LegacyDemux.DemuxFromKeeps | dissectBCL/demux.py:253-300 | the loop touches no marker or mail and launches at most once per folder |
| LegacyDemux.DemuxFromLaunches | dissectBCL/demux.py:253-300 | on success every folder was launched exactly once, in order, and every launch exited 0 |
| LegacyDemux.DemuxOnce | dissectBCL/demux.py:251-300 | `demux` of this version reads and touches no marker and mails nothing; on success each folder was launched exactly once, in order, with exit 0 |
| LegacyDemux.Demux | dissectBCL/demux.py:251-300 | the loop changes the output directory as the folder-by-folder run describes |
| LegacyDemux.DemuxOne | dissectBCL/demux.py:254-300 | one iteration changes the output directory as the folder step does |
| Postmux.Positions | src/dissectBCL/postmux.py:27 | the rows selected for an ID are exactly its rows, in sheet order |
| Postmux.MatchIDtoName | src/dissectBCL/postmux.py:17-48 | an ID absent from Sample_ID exits; a name returned is the name of every row of the ID, and a missing name is returned only for an ID on a single row |
| Postmux.MatchIDtoNameFinds | src/dissectBCL/postmux.py:27-48 | an ID whose rows all carry the same name gets that name, unless it is missing on several rows |
| Postmux.MatchIDtoNameConflict | src/dissectBCL/postmux.py:29-37 | two rows of the ID with different names end in the misspelt logging call, which raises |
| Postmux.MatchAt | src/dissectBCL/postmux.py:63-71 | a match of the renaming pattern is never empty and ends inside the text |
| Postmux.CollapseCopies | src/dissectBCL/postmux.py:65 | where no match starts, `re.sub` copies the text |
| Postmux.MatchAtBcl | src/dissectBCL/postmux.py:63-71 | the pattern matches a bcl-convert suffix whole and captures its read group |
| Postmux.MatchStartsUnderscoreS | src/dissectBCL/postmux.py:63 | a match starts with `_S` |
| Postmux.NoMatchWithoutUnderscoreS | src/dissectBCL/postmux.py:63 | without `_S` at a position no match starts there |
| Postmux.CollapseOneMatch | src/dissectBCL/postmux.py:65 | with a single match only it is replaced by `_` and the read group |
| Postmux.CollapseBclName | src/dissectBCL/postmux.py:61-71 | on a bcl-convert fastq name the sample number, lane and chunk collapse to `_` and the read group, and the rest is kept |
| Postmux.RenamePattern | src/dissectBCL/postmux.py:61-70 | the pattern takes up to four sample digits, and a lane part exactly when lanes are split |
| Postmux.RenameFq | src/dissectBCL/postmux.py:51-73 | a file whose sample ID is in no row exits; a new name is made only for an ID with a row that names it |
| Postmux.RenameFqBclName | src/dissectBCL/postmux.py:51-73 | `<id>_S<n>_[L<lll>_]<read>_<ccc><ext>` of a sample named `name` moves to projectFolder/Sample_<id>/<name>_<read><ext>, for sample numbers of up to four digits |
| Postmux.SampleIdOf | src/dissectBCL/postmux.py:54 | the sample ID of `<id>_...` is `<id>` |
| Postmux.ReplaceIdHead | src/dissectBCL/postmux.py:62 | the ID at the front, and nowhere else, becomes the name |
| Postmux.RenameFqNanName | src/dissectBCL/postmux.py:56-68 | a sample whose single row has no name cannot be renamed: the replacement is not a string |
| Postmux.RFind | src/dissectBCL/postmux.py:94 | the last position of a character, or -1 when it is absent |
| Postmux.StemSuffix | src/dissectBCL/postmux.py:94-97 | a folder name is its stem followed by its suffix |
| Postmux.Without | src/dissectBCL/postmux.py:91 | dropping the `Samples` parts never lengthens the path |
| Postmux.ProjectTargetOf | src/dissectBCL/postmux.py:88-98 | `<proj>` under `parent` (Illumina) or `parent/Samples` (Aviti) moves to `parent/Project_<proj>` |
| Postmux.FolderSplit | src/dissectBCL/postmux.py:91 | the parts of the project folder are the parent's, maybe `Samples`, then the project |
| Postmux.MoveEach | src/dissectBCL/postmux.py:84-86 | each listed file moves to its new name in order until a name cannot be made, and then the failure is reported |
| Postmux.RenameProject | src/dissectBCL/postmux.py:76-98 | every fastq file moves to its `renamefq` path in listing order; a failing lookup stops before the folder moves; otherwise the folder moves to its `Project_` name; the result is `RenameOutcome` of the listing |
| Postmux.RenameOutcomeOk | src/dissectBCL/postmux.py:76-98 | a project's renaming succeeds exactly when every fastq file's new name is found and the folder has a `Project_` target |
| Postmux.RenameOutcomeSkip | src/dissectBCL/postmux.py:84-86 | files already moved do not change the renaming's outcome |
| Postmux.ValidateFqEndsAsWritten | src/dissectBCL/postmux.py:109-110 | as written the membership test on the path object raises for the first file found, so only an empty listing passes |
| Postmux.Malformed | src/dissectBCL/postmux.py:108-115 | at most one flagged stem per file |
| Postmux.MalformedNone | src/dissectBCL/postmux.py:108-116 | nothing is flagged exactly when every checked (non-Undetermined) fastq stem ends in R1, R2, I1 or I2 |
| Postmux.MalformedFrom | src/dissectBCL/postmux.py:108-115 | every flagged stem is the stem of a checked file with an improper ending |
| Postmux.ValidateFqEnds | src/dissectBCL/postmux.py:101-126 | with the test on the path's text, the check passes exactly when every checked file ends properly, and otherwise exits |
| Postmux.ValidateFqEndsDiverge | src/dissectBCL/postmux.py:109-110 | properly named fastq files pass the corrected check but stop the run as written |
| Postmux.FastqcPool | src/dissectBCL/postmux.py:142 | at least one FastQC instance, and threads // 2 of them when there are two threads or more |
| Postmux.ClumpPool | src/dissectBCL/postmux.py:207 | at least one clumpify instance, and threads // 10 of them from ten threads on |
| Postmux.ClumpThreads | src/dissectBCL/postmux.py:208-211 | clumpify gets ten threads, or all of them when fewer |
| Postmux.KrakenPool | src/dissectBCL/postmux.py:301 | at least one kraken instance, and threads // 5 of them from five threads on |
| Postmux.KrakenThreads | src/dissectBCL/postmux.py:302-305 | kraken gets five threads, or all of them when fewer |
| Postmux.ClumpFits | src/dissectBCL/postmux.py:207-211 | clumpify's instances never ask for more threads than configured and leave fewer than ten idle |
| Postmux.KrakenFits | src/dissectBCL/postmux.py:301-305 | kraken's instances never ask for more threads than configured and leave fewer than five idle |
| Postmux.FastqcFits | src/dissectBCL/postmux.py:142-160 | FastQC's instances at two threads each never ask for more than configured and leave at most one idle |
| Postmux.CountOf | src/dissectBCL/postmux.py:169 | a count never exceeds the length |
| Postmux.CountOfAll | src/dissectBCL/postmux.py:169 | the count of a value is the length exactly when every element is that value |
| Postmux.BatchVerdict | src/dissectBCL/postmux.py:165-179 | a pool passes exactly when every job returned the success code, and otherwise exits |
| Postmux.ClumpVerdict | src/dissectBCL/postmux.py:274 | clumpify fails when either of a job's two steps fails |
| Postmux.InsertByName | src/dissectBCL/postmux.py:371 | inserting keeps every entry and adds the new one |
| Postmux.InsertSorted | src/dissectBCL/postmux.py:371 | inserting into a list ordered by name keeps it ordered |
| Postmux.SortByNameSpec | src/dissectBCL/postmux.py:371 | the md5 listing is ordered by name and is a permutation of the sums computed |
| Postmux.Md5TextLines | src/dissectBCL/postmux.py:370-372 | without tabs or newlines in names and digests, each line of md5sums.txt reads back as its entry |
| Postmux.Md5Sums | src/dissectBCL/postmux.py:365-372 | md5sums.txt is written exactly when it does not exist, with one line per sum ordered by name |
| Postmux.LaneFolder.MoveOptDup | src/dissectBCL/postmux.py:348-356 | every duplicate report not already under a FASTQC path is renamed into the FASTQC_ folder of its project, in listing order |
| Postmux.OptDupShape | src/dissectBCL/postmux.py:353-355 | `lane/x1/x2/x3_duplicate.txt` moves to `lane/FASTQC_x1/x2/x3_duplicate.txt` |
| Postmux.OptDupRerun | src/dissectBCL/postmux.py:352-355 | a moved report is under a FASTQC path, so a rerun leaves it where it is |
| Postmux.LaneFolder.constructor | src/dissectBCL/postmux.py:348-351 | a lane folder starts with exactly the files listed in it |
| LegacyPostmux.MatchIDtoName | dissectBCL/postmux.py:10-24 | an ID in no row fails on the empty array, and otherwise the name returned is that of every row of the ID |
| LegacyPostmux.MatchIDtoNameAgrees | dissectBCL/postmux.py:10-24 | where the earlier lookup finds a name, the later version finds the same one |
| LegacyPostmux.Lookup | dissectBCL/postmux.py:11-24 | an ID whose rows all carry the same name gets that name |
| LegacyPostmux.RenameFq | dissectBCL/postmux.py:27-45 | a file whose sample ID (before the first `_` of its name) is in no row fails |
| LegacyPostmux.RenameFqOf | dissectBCL/postmux.py:27-45 | the new path is projectFolder/Sample_<id>/ followed by the name with the ID replaced and the pattern collapsed |
| LegacyPostmux.RenameFqBclName | dissectBCL/postmux.py:27-45 | `dir/<id>_S<n>_L<lll>_<read>_<ccc><ext>` with a one- or two-digit sample number moves to projectFolder/Sample_<id>/<name>_<read><ext> |
| LegacyPostmux.FileNameOf | dissectBCL/postmux.py:28 | the last `/` field of `dir/<id><rest>` is `<id><rest>` |
| LegacyPostmux.NoMatchAtSample | dissectBCL/postmux.py:38-42 | the two-digit pattern matches nowhere at a three-digit sample number |
| LegacyPostmux.CollapseKeepsSample100 | dissectBCL/postmux.py:38-42 | from sample 100 on, the sample number, lane, read and chunk all stay in the renamed file |
| LegacyPostmux.ReplaceWhole | dissectBCL/postmux.py:67 | replacing a text in itself gives the replacement |
| LegacyPostmux.ProjectTargetOf | dissectBCL/postmux.py:63-68 | a project whose name does not occur in its parent path moves to parent/Project_<proj> |
| LegacyPostmux.ProjectTargetRenamesParent | dissectBCL/postmux.py:63-68 | `<proj>/<proj>` would move to `Project_<proj>/Project_<proj>`: the parent name is replaced too |
| LegacyPostmux.LaterProjectTargetKeepsParent | src/dissectBCL/postmux.py:88-98 | the later version moves `<proj>/<proj>` to `<proj>/Project_<proj>`, keeping the parent |
| LegacyPostmux.RenameProject | dissectBCL/postmux.py:48-68 | each fastq file moves to its renamed path in glob order; a failing lookup stops the run; otherwise the folder moves to its `Project_` name |
| FakeNews.DashTail | src/dissectBCL/fakeNews.py:45-46 | the part of a flowcell ID after its `-` holds no `-` |
| FakeNews.DashTailAvoids | src/dissectBCL/fakeNews.py:45-46 | cutting after the `-` introduces no character the ID did not hold |
| FakeNews.DashTailOf | src/dissectBCL/fakeNews.py:45-46 | the tail of `head-tail` is `tail` |
| FakeNews.PullFid | src/dissectBCL/fakeNews.py:41-46 | the LIMS query ID fails only for an Illumina run name with fewer than four `_` fields; it never holds `_`, and for Illumina never `-` |
| FakeNews.PushFid | src/dissectBCL/fakeNews.py:155-158 | the reported ID holds no `-` for Illumina and no `_` for Aviti |
| FakeNews.PullPushAgree | src/dissectBCL/fakeNews.py:41-46 | the ID pulled from an Illumina run folder `date_instrument_run_<slot><flowcell>` is the ID pushed from the run's flowcell |
| FakeNews.PullPushAgreeAviti | src/dissectBCL/fakeNews.py:197-199 | for Aviti pull and push both use the last `_` field of the run name |
| FakeNews.StripJunk | src/dissectBCL/fakeNews.py:107-109 | a cleaned description is no longer than the original and holds none of the removed characters |
| FakeNews.StripJunkClean | src/dissectBCL/fakeNews.py:107-109 | a description without those characters stays as it is, so cleaning is idempotent |
| FakeNews.SampleRow | src/dissectBCL/fakeNews.py:80-87 | every sample of every project in the LIMS answer gives a row |
| FakeNews.RowSample | src/dissectBCL/fakeNews.py:80-87 | every row comes from one sample of one project |
| FakeNews.RowsCount | src/dissectBCL/fakeNews.py:80-87 | there are as many rows as samples in the answer |
| FakeNews.RowClean | src/dissectBCL/fakeNews.py:80-110 | every row's project and sample name hold no space and no umlaut, and its description is clean |
| FakeNews.PullParkour | src/dissectBCL/fakeNews.py:28-117 | a run name too short for the ID fails first, a status other than 200 exits, an answer without samples fails on the column names, and otherwise the rows are the flattened answer |
| FakeNews.Flatten | src/dissectBCL/fakeNews.py:80-87 | the nested loop builds exactly the flattened rows, project by project and sample by sample |
| FakeNews.MailHome | src/dissectBCL/fakeNews.py:233-256 | the mail comes from the configured sender, goes to the core address or the finishedTo list, and always has a recipient |
| FakeNews.MailHomeHeader | src/dissectBCL/fakeNews.py:238-256 | the envelope recipients, joined with `, `, are the To header |
| FakeNews.MailHomeReaches | src/dissectBCL/fakeNews.py:250-255 | a finishedTo written as a `, `-list reaches exactly those addresses |
| FakeNews.MailHomeSubject | src/dissectBCL/fakeNews.py:235 | the subject is the configured tag, the package version, then the caller's subject |
| FakeNews.PiOf | src/dissectBCL/fakeNews.py:268-270 | the PI holds no `_` and no upper-case letter |
| FakeNews.PiOfPlain | src/dissectBCL/fakeNews.py:268-270 | a lower-case last field is the PI as it stands |
| FakeNews.PiOfCabezas | src/dissectBCL/fakeNews.py:268-270 | a last field lower-casing to cabezas-wallscheid gives the PI cabezas |
| FakeNews.FexTarball | src/dissectBCL/misc.py:595 | the tarball name is the lane and the project joined by `_`, with `.tar` |
| FakeNews.FexUpload | src/dissectBCL/misc.py:589-609 | the status is Replaced exactly when the tarball is among the listed entries, and Uploaded otherwise |
| FakeNews.FexUploadListed | src/dissectBCL/misc.py:598-606 | a listing naming the tarball makes the upload a replacement |
| FakeNews.ShipProject | src/dissectBCL/fakeNews.py:264-318 | an internal project reports Copied or Replaced with the free space; any other project is ignored by configuration or uploaded |
| FakeNews.ShipReplacedIff | src/dissectBCL/fakeNews.py:277-294 | an internal project is Replaced exactly when its FASTQC or project destination already existed |
| FakeNews.FillShipDic | src/dissectBCL/fakeNews.py:264-318 | the loop fails exactly when some project fails, with the first failure; otherwise every project maps to its status |
| FakeNews.ShipFiles | src/dissectBCL/fakeNews.py:259-320 | the lane's shipping fails exactly when some project's copy fails, with the first failure; otherwise every project maps to its shipping status |
| Diagnose.ComplementInvolutive | src/wd40/diagnose.py:105-106 | complementing a base twice gives it back, except an RNA `U`, which comes back as `T` |
| Diagnose.RevC | src/wd40/diagnose.py:105-106 | the reverse complement has the sequence's length |
| Diagnose.RevCInvolutive | src/wd40/diagnose.py:105-106 | reverse complementing twice gives a sequence without `U` back |
| Diagnose.RevCConcat | src/wd40/diagnose.py:105-106 | the reverse complement of a concatenation is the halves' reverse complements, swapped |
| Diagnose.FirstWinsFirst | src/wd40/diagnose.py:79-80 | a key is in the dictionary exactly when some entry carries it, and its value is that of its first entry |
| Diagnose.SheetEntry | src/wd40/diagnose.py:77-80 | a `22L` line's entry holds its fields after the ID, the project given the `Project_` prefix |
| Diagnose.SheetEntries | src/wd40/diagnose.py:75-80 | there are no more entries than lines |
| Diagnose.SheetEntriesFrom | src/wd40/diagnose.py:75-80 | every entry comes from a `22L` line and every `22L` line gives one |
| Diagnose.ParseSS | src/wd40/diagnose.py:71-83 | without convert nothing is read; with it, a `22L` line with fewer than three fields is the IndexError, and otherwise every ID maps to its first line's entry |
| Diagnose.Candidates | src/wd40/diagnose.py:113-119 | every candidate is a barcode whose count rounds depth/count to 1 or lies above the depth |
| Diagnose.CandidatesComplete | src/wd40/diagnose.py:113-119 | every barcode that passes the test is among the candidates |
| Diagnose.ParseUnd | src/wd40/diagnose.py:109-120 | a barcode counted zero times is the ZeroDivisionError; otherwise each candidate maps to its first count over the lanes |
| Diagnose.ScanLane | src/wd40/diagnose.py:114-119 | one lane's scan extends the candidates of the barcodes seen before it, or fails on a zero count |
| Diagnose.FoundAll | src/wd40/diagnose.py:114-119 | the dict the inner loop builds, barcode by barcode, is the first-wins dict of the candidates among all barcodes seen so far |
| Diagnose.BarcodesGrow | src/wd40/diagnose.py:113-114 | the barcodes of the first lanes are a prefix of all barcodes |
| Diagnose.SampleFrame.constructor | src/wd40/diagnose.py:123 | a sample frame starts with the given rows and read counts |
| Diagnose.CandidatePair | src/wd40/diagnose.py:128-131 | a combination without `+` is the IndexError |
| Diagnose.CandidatePairs | src/wd40/diagnose.py:126-131 | the list fails exactly when some combination lacks `+`, and otherwise splits each one in order |
| Diagnose.SplitCandidates | src/wd40/diagnose.py:126-131 | the `candNes` loop computes the split list, or its first failure |
| Diagnose.CandidatePairsErr | src/wd40/diagnose.py:127-131 | once a prefix fails the whole list fails with it |
| Diagnose.CandidatePairsFirstErr | src/wd40/diagnose.py:127-131 | a failing list fails with the IndexError |
| Diagnose.FailingLast | src/wd40/diagnose.py:132-137 | a name is a failure exactly when one of its rows is below depth, with the indices of its last such row |
| Diagnose.FailingSamples | src/wd40/diagnose.py:132-137 | the `samplesDic` loop builds exactly the failures |
| Diagnose.LastFit | src/wd40/diagnose.py:140-146 | no fit exactly when no candidate holds both the index and the reverse complemented index2; otherwise the last candidate that does |
| Diagnose.FitFor | src/wd40/diagnose.py:140-146 | the inner loop leaves the last fitting candidate |
| Diagnose.UpdatesFit | src/wd40/diagnose.py:138-146 | a failed sample is updated exactly when some candidate fits it, and then to a fitting candidate |
| Diagnose.MatchFailures | src/wd40/diagnose.py:138-146 | the `updateDic` loop builds exactly the updates |
| Diagnose.Retagged | src/wd40/diagnose.py:148-154 | retagging keeps the rows and their names |
| Diagnose.RetaggedOnlyFailing | src/wd40/diagnose.py:132-154 | only rows of a name with a row below depth change, and then to a candidate pair |
| Diagnose.Retag | src/wd40/diagnose.py:147-154 | every row of an updated name gets that name's pair in place, and the read counts stay |
| Diagnose.CrapMatcher | src/wd40/diagnose.py:123-156 | a candidate without `+` or a frame without read counts fails and changes nothing; otherwise the failed samples that fit a candidate are retagged in place, the read counts are dropped and the number of updated names is returned |
| Release.LastDigit | src/wd40/release.py:17-21 | `int(seqDir[-1])` reads a number exactly when the name ends in a digit |
| Release.TrailingDigits | src/wd40/release.py:16-23 | the trailing digits are all digits and no longer than the name |
| Release.TrailingDigitsSuffix | src/wd40/release.py:16-23 | the trailing digits end the name and no digit comes before them |
| Release.TrailingNumber | src/wd40/release.py:17-21 | the whole trailing number is read exactly when the name ends in a digit |
| Release.LatestNumber | src/wd40/release.py:15-23 | the maximum is at least every number read off a match, and is 0 or one of them |
| Release.FetchLatestSeqDir | src/wd40/release.py:10-24 | the only match is returned as it is; otherwise the postfix followed by the largest number read off the matches (0 when none) |
| Release.LastDigitPicksNine | src/wd40/release.py:18 | reading only the last character, sequencing_data9 beats sequencing_data10 |
| Release.TrailingDigitsOf | src/wd40/release.py:16-23 | the digits after a non-digit are exactly the trailing digits |
| Release.TrailingNumberPicksTen | src/wd40/release.py:16-23 | reading the whole trailing number, sequencing_data10 is the newest |
| Release.First6 | src/wd40/release.py:33 | `FID[:6]` is a prefix of at most six characters |
| Release.ReleasePi | src/wd40/release.py:41-43 | the PI holds no `_` and no upper-case letter |
| Release.ReleasePiAgrees | src/wd40/release.py:159-164 | the PI `rel` derives with `replace` is the one `fetchFolders` derives, unless cabezas-wallscheid sits inside a longer last field |
| Release.Target | src/wd40/release.py:47-59 | the group is the PI with `grp`, and the flow cell, project, FASTQC and Analysis folders lie under the newest sequencing directory |
| Release.FoldersIff | src/wd40/release.py:39-68 | a project is released exactly when its PI is listed and its flow cell folder exists in the PI's newest sequencing directory, and then its entry is its target |
| Release.FetchFolders | src/wd40/release.py:27-68 | a flow cell folder whose absolute path's last component does not start with a six-character integer exits; otherwise exactly the released projects map to their targets |
| Release.FlowcellIDTrailingSlash | src/wd40/release.py:27-28 | a trailing `/` on the flow cell path does not change the flow cell ID |
| Release.FlowcellIDDot | src/wd40/release.py:27-28 | `./` names the same flow cell as the absolute working directory |
| Release.NormSnoc | src/wd40/release.py:27 | normalising one more component is one more step of `normpath` |
| Release.NormPlain | src/wd40/release.py:27 | normalising a plain absolute path keeps all its components |
| Release.AbsOfPlain | src/wd40/release.py:27 | a plain absolute path is its own absolute path |
| Release.DefaultFlowcellIsCwd | src/wd40/wd40.py:86 | run from `/d1/…/dn` with the default path `./`, the flow cell ID is `dn` |
| Release.Touched | src/wd40/release.py:99-117 | the walk touches directories and non-link files only |
| Release.CountsCoverTouched | src/wd40/release.py:99-117 | every touched entry is counted once, as changed or as failed |
| Release.ReleaseRights | src/wd40/release.py:95-125 | an empty walk is the ZeroDivisionError; otherwise the rate divides the changed entries by all touched ones |
| Release.ReleaseFolder | src/wd40/release.py:71-92 | the project and FASTQC rates, then the Analysis rate exactly when that folder exists; a walk that touches nothing fails |
| Release.Tarball | src/wd40/release.py:178-179 | a project path without `/` cannot be unpacked into lane and project |
| Release.TargetTarball | src/wd40/release.py:178-179 | a released project's tarball is the one the fex upload of the lane sends |
| Release.FilepathsPayload | src/wd40/release.py:159-183 | a listed PI posts the folder and its MultiQC report; otherwise without fex nothing is posted, and with fex only a listed tarball |
| Release.ReleasedPostsFolder | src/wd40/release.py:141-183 | every project fetchFolders releases posts its folder, never a tarball |
| Release.PutFilepathsURL | src/wd40/release.py:187-191 | a project name without `_` has no request ID |
| Release.PutFilepathsURLOf | src/wd40/release.py:187-191 | `Project_<id>_<rest>` posts to the put_filepaths endpoint of request `<id>` |
| EmailFinished.ProjectHasUnderscore | src/tools/emailProjectFinished.py:33-34 | a name passing the `Project_` assertion has a second `_` field, so `split("_")[1]` cannot fail |
| EmailFinished.ProjectID | src/tools/emailProjectFinished.py:34 | a project's request ID holds no `_` |
| EmailFinished.ProjectIDOf | src/tools/emailProjectFinished.py:33-34 | `Project_<id>_<rest>` passes the assertion and has the ID `<id>` |
| EmailFinished.ProjectPI | src/tools/emailProjectFinished.py:36 | the PI holds no `_`, no `-` and no upper-case letter |
| EmailFinished.ProjectPIOf | src/tools/emailProjectFinished.py:36 | of a compound surname `<surname>-<rest>` only the lower-cased first part is kept |
| EmailFinished.JoinIDsRecovers | src/tools/emailProjectFinished.py:50-53 | of several IDs the text ends in ` and ` and the last ID, and the part before it splits on `, ` into the other IDs |
| EmailFinished.ProjectIDs | src/tools/emailProjectFinished.py:30-34 | one ID per project |
| EmailFinished.SeqDirOfMatch | src/tools/emailProjectFinished.py:41-48 | no match (the IndexError) or a first match without `/` fails |
| EmailFinished.SeqDirOfMatchOf | src/tools/emailProjectFinished.py:41-48 | the first match `<dir>/<seqDir>/<flowcell>` gives `<seqDir>` |
| EmailFinished.GetProjectIDs | src/tools/emailProjectFinished.py:29-53 | a project without the `Project_` prefix fails the assertion; otherwise the joined IDs and the sequencing directory found for the last project's PI, or that lookup's failure; the result is the `ProjectIDsOf` that `Finished` uses |
| EmailFinished.FlowCellOf | src/tools/emailProjectFinished.py:56-57 | the flow cell is one path component |
| EmailFinished.FlowCellOfPath | src/tools/emailProjectFinished.py:56-57 | the flow cell is the last component of the working directory |
| EmailFinished.FirstMissing | src/tools/emailProjectFinished.py:134-136 | no project is missing exactly when all exist; otherwise the first missing one |
| EmailFinished.Announcement | src/tools/emailProjectFinished.py:157-162 | the announcement starts with a space after the word project(s) |
| EmailFinished.Recipient | src/tools/emailProjectFinished.py:139-143 | a recipient given by name and address is used as given |
| EmailFinished.Finished | src/tools/emailProjectFinished.py:60-209 | a missing project folder exits naming the first one; a mail is composed only with a sender and the IDs, with the subject of the first project, the sender's address, the core in Bcc, a Cc exactly when one was given, and the given recipient; its addressee is the recipient's address and its text the content written for the recipient's first name and the looked-up IDs and directory; once the checks pass, the mail is composed exactly when that lookup succeeds |
| EmailFinished.PluralPrefix | src/tools/emailProjectFinished.py:155-156 | the plural opening is a prefix of a text only when the `s` was added |
| EmailFinished.ContentPlural | src/tools/emailProjectFinished.py:151-156 | the text says projects exactly when more than one project is given |
| EmailFinished.ContentNamesFlowCell | src/tools/emailProjectFinished.py:164 | the text names the flow cell folder |
| EmailFinished.ContentGreets | src/tools/emailProjectFinished.py:151-153 | the text opens by greeting the recipient's first name |
| EmailFinished.ContentQuotesComment | src/tools/emailProjectFinished.py:178-183 | a comment that names no file appears between '===' lines |
| EmailFinished.ConcatAt | src/tools/emailProjectFinished.py:151-192 | the text appended piece by piece holds each piece between the pieces before and after it |
| EmailFinished.ScriptNeverSends | src/tools/emailProjectFinished.py:212-215 | as written the script calls `main` with an argument it does not take, so no mail is sent even where the mail would be composed |
| Contaminome.WriteLines | src/tools/prep_contaminome.py:91-98 | the write loop produces the rendered lines in order |
| Contaminome.Rows | src/tools/prep_contaminome.py:91-109 | one row per taxon, in order |
| Contaminome.RenderSplit | src/tools/prep_contaminome.py:91-109 | rendered newline-terminated rows split back into the rows |
| Contaminome.DumpNode | src/tools/prep_contaminome.py:89-98 | nodes.dmp holds one node line per taxon, in order |
| Contaminome.DumpName | src/tools/prep_contaminome.py:101-109 | names.dmp holds one name line per taxon, in order |
| Contaminome.DigitsAvoid | src/tools/prep_contaminome.py:93-96 | a rendered number holds no character other than digits |
| Contaminome.NoNewline | src/tools/prep_contaminome.py:93 | tab-joined fields without newlines make a single line |
| Contaminome.NodeRowFields | src/tools/prep_contaminome.py:93-97 | a node row splits on tabs into its taxid, parent, rank and separators |
| Contaminome.NameRowFields | src/tools/prep_contaminome.py:105-108 | a name row splits on tabs into its taxid, name and separators |
| Contaminome.RenderFields | src/tools/prep_contaminome.py:91-109 | every line of a dump splits on tabs into its item's fields |
| Contaminome.DumpNodeRows | src/tools/prep_contaminome.py:89-98 | nodes.dmp reads back, line by line and field by field, as the taxa's node fields |
| Contaminome.DumpNameRows | src/tools/prep_contaminome.py:101-109 | names.dmp reads back, line by line and field by field, as the taxa's name fields |
| Contaminome.Token | src/tools/prep_contaminome.py:146 | a word is a whitespace-free prefix ending at whitespace or the end |
| Contaminome.StripLeftShape | src/tools/prep_contaminome.py:146 | stripping never lengthens a line and leaves no leading whitespace |
| Contaminome.Words | src/tools/prep_contaminome.py:146 | `split()` gives non-empty whitespace-free words |
| Contaminome.TokenStops | src/tools/prep_contaminome.py:146 | a word followed by whitespace is read whole |
| Contaminome.WordsAfterSpace | src/tools/prep_contaminome.py:146 | leading whitespace adds no word |
| Contaminome.WordsCons | src/tools/prep_contaminome.py:146 | a word followed by whitespace is the first word |
| Contaminome.WordsOfColumns | src/tools/prep_contaminome.py:146 | a tab-separated BLAST line splits back into its columns |
| Contaminome.BedOfSpec | src/tools/prep_contaminome.py:146-154 | a hit with fewer than ten columns or a non-integer ninth or tenth column fails; otherwise the subject and the two positions, lower first |
| Contaminome.BedOfColumns | src/tools/prep_contaminome.py:146-154 | a hit whose ninth column is above its tenth gives them swapped, and otherwise in order |
| Contaminome.ParseAllErr | src/tools/prep_contaminome.py:144-154 | reading the hits fails exactly when some line fails |
| Contaminome.ParseAllOk | src/tools/prep_contaminome.py:144-154 | read hits give one row per line, each that line's row |
| Contaminome.ParseAllPrefixErr | src/tools/prep_contaminome.py:144-154 | once a prefix of the hits fails the whole file fails with it |
| Contaminome.BedRowsSpec | src/tools/prep_contaminome.py:143-154 | the bed rows fail exactly when some hit fails, and otherwise are one per hit |
| Contaminome.Mask | src/tools/prep_contaminome.py:143-159 | the bed file is one row per hit, or the failure of the first bad hit |
| Contaminome.BedRowFields | src/tools/prep_contaminome.py:157-158 | a bed row is one line of three tab-separated fields |
| Contaminome.BedFileRows | src/tools/prep_contaminome.py:143-159 | the bed file reads back as one row per hit, each with a start no greater than its end |
| Contaminome.SanitiseAvoids | src/tools/prep_contaminome.py:259-272 | a sanitised header holds no `>`, pipe, `:`, `-` or space |
| Contaminome.StripRightAfter | src/tools/prep_contaminome.py:259 | stripping the right end stops at a non-space character |
| Contaminome.StripRightPrefix | src/tools/prep_contaminome.py:259 | stripping the right end gives a prefix |
| Contaminome.KeepHead | src/tools/prep_contaminome.py:259-272 | removing a space-free pattern leaves a clean first word alone |
| Contaminome.ContainsFirst | src/tools/prep_contaminome.py:264 | a text containing a pattern contains its first character |
| Contaminome.ScrubKeepsHead | src/tools/prep_contaminome.py:259-272 | the removals leave a clean first word alone |
| Contaminome.ScrubMarker | src/tools/prep_contaminome.py:260 | the `>` marker is removed |
| Contaminome.StripHeader | src/tools/prep_contaminome.py:259 | stripping a header keeps its accession |
| Contaminome.SplitHead | src/tools/prep_contaminome.py:272 | the first space field is the word before the first space |
| Contaminome.SanitiseHeader | src/tools/prep_contaminome.py:259-272 | `>acc description` with a clean accession sanitises to the accession |
| Contaminome.HumanMitoIgnored | src/tools/prep_contaminome.py:274-277 | the human mitochondrial chromosome's header is among those ignored for human |
| Contaminome.TaggedFields | src/tools/prep_contaminome.py:279-282 | a tagged header splits at its pipe characters into the accession, `kraken:taxid` and the taxid |
| Contaminome.TaggedInjective | src/tools/prep_contaminome.py:279-282 | two tagged headers are equal only for the same accession and taxid |
| Contaminome.WriteGenome | src/tools/prep_contaminome.py:254-289 | the line loop computes the scan of the genome's lines |
| Contaminome.ScanPrefixErr | src/tools/prep_contaminome.py:256-289 | once a prefix of the lines fails the scan fails with it |
| Contaminome.ScanSnoc | src/tools/prep_contaminome.py:256-289 | scanning one more line is one more step |
| Contaminome.SuppressedRun | src/tools/prep_contaminome.py:274-289 | an ignored header and the lines up to the next header write nothing and record nothing |
| Contaminome.KeptRun | src/tools/prep_contaminome.py:278-289 | a kept header writes its tagged name and its stripped sequence lines, and records the name with the genome's taxid |
| Contaminome.OrphanPrefix | src/tools/prep_contaminome.py:288 | a sequence line before any header is one in every longer list too |
| Contaminome.ScanUnbound | src/tools/prep_contaminome.py:288 | the scan fails (the unbound appendStatus) exactly when no header has been seen yet and a sequence line comes before any header |
| Contaminome.RecordedSnoc | src/tools/prep_contaminome.py:278-286 | one more line records its tagged name exactly when it is a kept header |
| Contaminome.ScanRecords | src/tools/prep_contaminome.py:284-286 | after a scan the map holds the earlier names and the recorded ones, the recorded ones with the genome's taxid, the others unchanged |
| Contaminome.StepKeepsOrder | src/tools/prep_contaminome.py:284-286 | a step keeps the map's insertion order in step with its keys, and only extends it |
| Contaminome.ScanKeepsOrder | src/tools/prep_contaminome.py:284-286 | a scan keeps the map's insertion order in step with its keys, and only extends it |
| Contaminome.ScanCountsHeaders | src/tools/prep_contaminome.py:257-258 | the header count grows by the number of header lines |
| Contaminome.BuildPrefixErr | src/tools/prep_contaminome.py:233-289 | once a prefix of the genomes fails the build fails with it |
| Contaminome.BuildLibrary | src/tools/prep_contaminome.py:231-289 | the genome loop computes the library build |
| Contaminome.AddGenomeShape | src/tools/prep_contaminome.py:244-289 | adding a genome adds its `.fna` file and keeps the insertion order in step |
| Contaminome.BuildFiles | src/tools/prep_contaminome.py:231-289 | a built library holds exactly one `.fna` per genome and its map's order matches its keys |
| Contaminome.Entries | src/tools/prep_contaminome.py:292-295 | the map's entries in insertion order |
| Contaminome.WriteSeqMap | src/tools/prep_contaminome.py:290-295 | seqid2taxid.map holds one line per entry in insertion order |
| Contaminome.SeqMapRows | src/tools/prep_contaminome.py:290-295 | seqid2taxid.map has one line per name, every name has its line, and each line splits into a name of the map and its taxid |
| Contaminome.MapRowFields | src/tools/prep_contaminome.py:293-294 | a map row is one line of a name and a taxid |
| Contaminome.OrderCardinality | src/tools/prep_contaminome.py:284-295 | the insertion order lists each key once |
| Contaminome.DistinctCard | src/tools/prep_contaminome.py:292 | distinct names are as many as their list |

## Left out

- SMTP delivery, LIMS HTTP calls and `requests.post`: the answers (status code, JSON, contact details) are parameters, and the mail is a value.
- External tools: the exit codes of bcl-convert, bases2fastq, FastQC, clumpify, kraken2, MultiQC, fexsend, makeblastdb, blastn, bedtools and kraken2-build are an input sequence, and their outputs are parameters. Command lines are modelled only where a decision depends on them, such as `--no-lane-splitting`.
- File-system effects: globbing, mkdir, copytree, rmtree, chmod, move, md5 computation and file reading. Directory listings and existing paths are parameters. The output directory is a value of folders, marker names, written sheets, launches and mails.
- `RunDir.PathJoin` models `os.path.join` for a second argument that is a relative path, which is how the pipeline uses it.
- `multiprocessing.Pool`: only the pool sizes and the verdict over the returned codes are modelled, and the codes come in listing order.
- Logging and printing: no message is modelled, except where a misspelt logging call raises (src/dissectBCL/postmux.py:32, `logging.cricital`).
- Floating point: quality and Q30 averages in `parseStats`, `pushParkour` percentages, `matchOptdupsReqs`, `gatherFinalMetrics` and `retMean_perc_Q` are left out.
- `DemuxRun.MuxReads`: `parseStats` is modelled only as the sum of '# Reads' per sample.
- Diagnose.Candidates: `np.round(depth/count) == 1` is stated exactly over the integers, as count < 2·depth < 3·count. The ties at exactly .5 fall outside that range, as numpy's round-half-to-even also leaves them. A zero count is never a candidate: there the division fails before the test, which ScanLane reports as ZeroCount.
- `Release.ReleaseRights`: the success rate is returned as the pair (changed, total) rather than a float. The group check only prints, and it is left out.
- The miSeq requested-depth override in `parseSS` (src/dissectBCL/flowcell.py:681-700) uses floating-point ratios and is left out. The rows keep their requested depth.
- Report rendering: `drHouseClass.prepMail` HTML, `greeter` (clock and random choice), `multiQC_yaml` and `organiseLogs` are not modelled.
- pandas and numpy: the frames are sequences of rows. NaN cells are `None`.
  - A numpy index-length column with nulls would print as a float ("I8.0"). The model keeps lengths as integers.
  - The identity of several NaN names in `set()` is modelled as equality.
- Python `int()` is modelled for an optional sign followed by digits. Its whitespace and underscore forms are not. `str.lower()` is modelled on ASCII letters only.
- `lenMask` takes an Aviti flag in src/dissectBCL/misc.py:205, and src/dissectBCL/demux.py:91, :107, :130 and :136 call it with two arguments. As written, every scATAC sheet, every general sheet and every NuGEN sheet with an index2 column raises that TypeError, and only a NuGEN sheet without index2 gets a mask (`Demux.DetMaskAsWritten`, `Demux.DetMaskLenMaskRaises`, see Findings). The rest of the model uses `Demux.DetMask`, which passes `aviti = false`, the Illumina token these calls evidently mean. The members below follow it.
- Demux.DetMaskFlags: states the flags of the corrected `DetMask`; as written, only a NuGEN sheet without index2 reaches them.
- Demux.DetMaskCoversRecipe: states the cycles of the corrected mask; as written, only a NuGEN sheet without index2 has a mask.
- Demux.NugenCovers: the NuGEN mask with an index2 token, which as written raises the `lenMask` TypeError.
- Demux.ScAtacCovers: the scATAC mask, which as written always raises the `lenMask` TypeError.
- Demux.GeneralCovers: the general mask, which as written always raises the `lenMask` TypeError.
- DemuxRun.PrepEntry: prepares a folder with the corrected `DetMask`; as written, the folders named above stop `prepConvert` with the `lenMask` TypeError.
- DemuxRun.PrepConvert: the same as DemuxRun.PrepEntry above.
- DemuxRun.PrepOne: the same as DemuxRun.PrepEntry above.
- DemuxRun.PrepFromPrepares: the same as DemuxRun.PrepEntry above.
- DemuxRun.PrepAllPrepares: the same as DemuxRun.PrepEntry above.
- DemuxRun.PrepEntryCuts: the same as DemuxRun.PrepEntry above.
- DemuxRun.PrepEntryParts: the same as DemuxRun.PrepEntry above.
- The legacy dissectBCL/misc.py `lenMask` is not part of this model; `LegacyDemux` builds its tokens with the later `Misc.LenMask` for Illumina.
- `matchingSheets`, `evalMiSeqP5`, `compareDemuxSheet` and `writeDemuxSheetAviti` are not part of this model. `evalMiSeqP5` is the `evalP5` parameter and `compareDemuxSheet` the `compare` parameter of `FlowcellRun.FcDemuxFolder` and the members that call it; the comparison may raise or change the entry, but not its folder name. The P5 reverse-complement rerun is modelled only as setting the P5RC flag.
- `misMatcher` does not drop null barcodes: `hamming` returns 0 for a NaN, so a null index makes the minimum distance 0. The project's description says nulls are ignored; the model follows the code.
- `detMask` sets dualIx when an index2 column exists and its shortest length is not NaN, so one non-null cell is enough. The project's description asks that every sample carry index2; the model follows the code.
- The MiSeq P5 branch of src/dissectBCL/flowcell.py `demux` calls `readDemuxSheet(..., what=...)`. The `readDemuxSheet` of src/dissectBCL/demux.py takes no such keyword, so the model ends that branch with the TypeError (`FlowcellRun.FcConvert`).
- `demux_aviti` passes `mode=` to `parseStats`, which takes no such keyword. `FlowcellRun.AvitiStopsAtFirstFolder` models the resulting stop; bases2fastq's statistics are not modelled.
- Postmux.MatchIDtoNameConflict: the conflicting-names branch calls `logging.cricital`, which does not exist, so it raises an AttributeError before its `sys.exit(1)`. The model reports that exception.
- The legacy `flowCellClass.__init__` and `filesExist` (dissectBCL/classes.py) are directory plumbing and are not modelled.
- The legacy postmux's `qcs` and `postmux` (dissectBCL/postmux.py:70-141) build tool command lines and run them, and are not modelled.
- src/wd40/diagnose.py `diagnose`, `grabZipCount` and `barDiag.__init__` read zip and FastQC files, and are not modelled.
- Release: `rel` is modelled per project (`Release.FilepathsPayload`, `Release.PutFilepathsURL`, `Release.ReleaseFolder`). The loop that posts over HTTP is not.
- FakeNews: `pushParkour` is modelled only for the flow cell ID it reports under. Its lane metrics are floating point. `sendMqcReports` and `stripRights` are file operations.
- `FakeNews.ShipFiles` is modelled over a list of project folder names. The free-space string is a parameter of the environment.
- Contaminome: downloading and gunzipping genomes, `makeblastdb`/`blastn`/`bedtools maskfasta` and `kraken2-build` are left out. The genome lines, the BLAST hits and the taxonomy tables are inputs.
- Contaminome.SanitiseAvoids: the contract does not claim that `gnluv` is absent from a sanitised header. The removals can create a new `gnluv`: removing `gnluv` from `gngnluvluv`, or `-` from `gn-luv`, leaves one. A header `> chr1` sanitises to the empty name, because of the space after `>`.
- The test expectations tied to other versions of the code (a 4-value `readDemuxSheet`, a 4-argument `detMask`, a recipe without an index) are not taken as properties of the modelled code.
- DemuxRun.SheetStep: on a resumed folder it takes the mask from the sheet read back (`Reconcile`). It does not raise the KeyError of the code as written; `DemuxRun.ReconcileAsWritten` and `DemuxRun.ResumeRaises` state that behaviour (see Findings).
- DemuxRun.DemuxFolder: the same as DemuxRun.SheetStep above.
- DemuxRun.DemuxFolderMarkers: the same as DemuxRun.SheetStep above.
- DemuxRun.DemuxMarkers: the same as DemuxRun.SheetStep above.
- DemuxRun.SheetStepAt: the same as DemuxRun.SheetStep above.
- DemuxRun.DemuxStepIs: the same as DemuxRun.SheetStep above.
- DemuxRun.DemuxOne: the same as DemuxRun.SheetStep above.
- DemuxRun.DemuxLoop: the same as DemuxRun.SheetStep above.
- DemuxRun.RunDemux: the same as DemuxRun.SheetStep above.
- FlowcellRun.FlowCell.PrepConvert: builds masks with the corrected `Demux.DetMask`, so it does not raise the `lenMask` TypeError of src/dissectBCL/flowcell.py:153 (see the `lenMask` line above). It cuts index to minP7 and index2 to minP5. It does not apply the swapped cuts of src/dissectBCL/flowcell.py:160-162; `FlowcellRun.PrepEntrySwapped` models those (see Findings).
- FlowcellRun.FcDemuxAll: a failed run makes and marks its folders (`FailedRun`). It does not stop at the `mkdir(exists_ok=True)` TypeError; `FlowcellRun.FailedRunAsWritten` models that stop (see Findings).
- FlowcellRun.FcDemuxMarkers: the same as FlowcellRun.FcDemuxAll above.
- FlowcellRun.FlowCell.Demux: the same as FlowcellRun.FcDemuxAll above.
- LegacyDemux.PrepEntry: the NuGEN branch is chosen only by rows naming the kit (`DetMask`). A NaN indexType does not select it here; `LegacyDemux.DetMaskAsWritten` models that selection (see Findings).
- LegacyDemux.PrepConvert: the same as LegacyDemux.PrepEntry above.
- LegacyDemux.PrepOne: the same as LegacyDemux.PrepEntry above.
- LegacyDemux.PrepFromPrepares: the same as LegacyDemux.PrepEntry above.
- LegacyDemux.PrepConvertPrepares: the same as LegacyDemux.PrepEntry above.
- Release.SeqFolderOf: the newest sequencing_data directory is picked by its whole trailing number (`TrailingNumber`). It does not pick by the last digit as src/wd40/release.py:18 does; `Release.LastDigitPicksNine` states that behaviour (see Findings).
- Release.Folders: the same as Release.SeqFolderOf above.
- Release.FoldersIff: the same as Release.SeqFolderOf above.
- Release.FetchFolders: the same as Release.SeqFolderOf above.
- FlowcellRun.CycleCount: rejects a negative NumCycles, which Python's `int()` accepts. Cycle counts are natural numbers throughout the model's recipes.
- Release.FlowcellID: `os.path.normpath` keeps a leading `//` as two slashes; the model treats it as one.
- Diagnose.CrapMatcher: sample rows always carry index and index2 fields, so the KeyError of a frame without either column is not modelled.
- FakeNews.PullParkour: the notice mailed home before exiting on a status other than 200 is not modelled (mail is an effect; the exit is).

## Findings

| source | as written | input that shows it | evidently intended | confidence | as-written member | corrected member |
|---|---|---|---|---|---|---|
| src/wd40/release.py:18 | the newest sequencing_data directory is chosen by `int(seqDir[-1])`, the last character only | matches sequencing_data9 and sequencing_data10 give sequencing_data9 | the whole trailing number, giving sequencing_data10 | not executed | Release.LastDigitPicksNine | Release.TrailingNumberPicksTen |
| src/tools/emailProjectFinished.py:215 | `main(sys.argv[1:])` calls a `main` that takes no arguments | any command line | `main()` parses `sys.argv` itself, and the mail is composed | not executed | EmailFinished.ScriptNeverSends | EmailFinished.Finished |
| src/dissectBCL/flowcell.py:160-162 | index2 is cut to minP7 and index to minP5, swapped | a dual-index sheet whose index1 is 8 long and index2 10 long: every index2 is cut to 8 while the mask asks for 10 | index cut to minP7, index2 to minP5, as src/dissectBCL/demux.py:172-177 does | not executed | FlowcellRun.SwappedCutShortensIndex2 | FlowcellRun.PrepEntryCutsIndex2 |
| src/dissectBCL/demux.py:426-446 | on a resumed run (bclconvert.done present) `prepConvert` skipped the folder, so `ssDic[outLane]['dualIx']` raises a KeyError | any folder with bclconvert.done and a demuxSheet.csv | the entry's mask and dualIx are taken from the sheet read back | not executed | DemuxRun.ResumeRaises | DemuxRun.Reconcile |
| dissectBCL/demux.py:63-69 | the NuGEN test `any(str.contains('NuGEN'))` counts a NaN indexType as a match | a sheet with one empty indexType cell and no NuGEN kit | only rows naming the NuGEN Ovation SoLo kit select the NuGEN branch | not executed | LegacyDemux.MissingTypeSelectsNugen | LegacyDemux.DetMaskFlags |
| src/dissectBCL/postmux.py:110 | `'Undetermined' not in f` tests membership in a Path object, which raises a TypeError | any folder holding a fastq file | the test on the file name, which flags only badly ended names | not executed | Postmux.ValidateFqEndsDiverge | Postmux.ValidateFqEnds |
| dissectBCL/postmux.py:38-42 | the pattern `_S[0-9]?[0-9]_` allows at most two sample digits | 24L002006_S100_L001_R1_001.fastq.gz keeps its sample, lane and chunk in the new name | every sample number is collapsed, as the later pattern does for up to four digits | not executed | LegacyPostmux.CollapseKeepsSample100 | Postmux.RenameFqBclName |
| dissectBCL/postmux.py:64-68 | the project folder is renamed by `str.replace` on the whole path | a project folder `P/P` becomes `Project_P/Project_P`, under a parent that does not exist | only the last path component is renamed | not executed | LegacyPostmux.ProjectTargetRenamesParent | LegacyPostmux.LaterProjectTargetKeepsParent |
| src/dissectBCL/flowcell.py:130 | the sequencer is compared with 'Miseq', which `__init__` never produces (it writes 'MiSeq') | a MiSeq run whose CompletionStatus is Failed is reported as SuccessfullyCompleted | MiSeq runs report the CompletionStatus they recorded | not executed | FlowcellRun.FailedMiSeqRun | FlowcellRun.ValidateRunCompletion |
| src/dissectBCL/flowcell.py:175 | a failed run calls `mkdir(exists_ok=True)`, a keyword `Path.mkdir` does not take | any run whose completion status is not SuccessfullyCompleted | each output folder is made (`exist_ok=True`) and marked failed, and the mail is sent | not executed | FlowcellRun.FailedRunMarksNothing | FlowcellRun.FailedRun |
| src/dissectBCL/demux.py:91-136 | `lenMask(recipe, minl)` is called at :91, :107, :130 and :136 without the `aviti` argument that src/dissectBCL/misc.py:205 requires | any general sheet, e.g. one with index, indexType and Description columns and no NuGEN or scATAC row | each call passes `aviti=False` and returns the Illumina `I<min>N<rest>` token | not executed | Demux.DetMaskLenMaskRaises | Demux.DetMaskCoversRecipe |
