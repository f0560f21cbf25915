// dissectBCL/postmux.py, the earlier layout of the package: naming the
// fastq files after the samples (`matchIDtoName`, `renamefq`) and renaming
// the project folder (`renameProject`). The fastq-name pattern and the
// path string arithmetic differ from the later src/dissectBCL/postmux.py,
// which the Postmux module models; its pattern machinery is reused here.
module LegacyPostmux {
  import opened Wrappers
  import opened Text
  import RunDir
  import Later = Postmux

  /** `name[0]` of an empty numpy array. */
  const NoRows := "IndexError: index 0 is out of bounds for axis 0 with size 0"

  /** The root logger has no `cricital` method. */
  const RootCricital := "AttributeError: 'RootLogger' object has no attribute 'cricital'"

  /**
   * `matchIDtoName(ID, ssdf)`: the first name of the ID's rows; several
   * rows must agree on it (a disagreement reaches the misspelt logging
   * call); an ID without rows fails on the empty array.
   */
  function MatchIDtoName(id: string, rows: seq<Later.NameRow>): (r: Result<Option<string>>)
    ensures (forall i :: 0 <= i < |rows| ==> rows[i].sampleId != id) <==> r == Err(NoRows)
    ensures r.Ok? ==> forall i :: 0 <= i < |rows| && rows[i].sampleId == id ==> rows[i].sampleName == r.value
  {
    var p := Later.Positions(rows, id, 0);
    if |p| == 0 then
      Err(NoRows)
    else if |p| > 1 && exists k :: 0 <= k < |p| && rows[p[k]].sampleName != rows[p[0]].sampleName then
      Err(RootCricital)
    else
      Ok(rows[p[0]].sampleName)
  }

  /**
   * Where the earlier lookup finds a name, the later one finds the same:
   * the later version only adds the checks for a missing ID and a
   * missing name.
   */
  lemma MatchIDtoNameAgrees(id: string, rows: seq<Later.NameRow>)
    requires MatchIDtoName(id, rows).Ok? && MatchIDtoName(id, rows).value.Some?
    ensures Later.MatchIDtoName(id, rows) == MatchIDtoName(id, rows)
  {
    var p := Later.Positions(rows, id, 0);
    assert |p| > 0;
  }

  /** `_S[0-9]?[0-9]_+L[0-9][0-9][0-9]_+([IR][123])+_[0-9][0-9][0-9]`: one or two sample digits. */
  const LegacyPattern := Later.Pattern(2, true)

  /**
   * `renamefq(fqFile, projectFolder, ssdf)`: the file's name (after the
   * last `/`) is renamed like the later version with the two-digit
   * pattern, under projectFolder/Sample_<id>.
   */
  function RenameFq(fqFile: string, projectFolder: string, rows: seq<Later.NameRow>): (r: Result<string>)
    ensures (forall i :: 0 <= i < |rows| ==> rows[i].sampleId != Split(LastField(fqFile, '/'), '_')[0]) ==> r == Err(NoRows)
  {
    var oldName := LastField(fqFile, '/');
    var id := Split(oldName, '_')[0];
    match MatchIDtoName(id, rows)
    case Err(e) => Err(e)
    case Ok(None) => Err(Later.NanName)
    case Ok(Some(name)) =>
      var newName := Later.Collapse(ReplaceAll(oldName, id, name), LegacyPattern);
      Ok(RunDir.PathJoin(RunDir.PathJoin(projectFolder, "Sample_" + id), newName))
  }

  /**
   * A bcl2fastq file `dir/<id>_S<n>_L<lll>_<read>_<ccc><ext>` with a one-
   * or two-digit sample number moves to projectFolder/Sample_<id>/<name>_<read><ext>.
   */
  lemma RenameFqBclName(dir: string, id: string, n: string, lane: string, read: string, chunk: string, ext: string,
                        projectFolder: string, rows: seq<Later.NameRow>, i: nat, name: string)
    requires id != [] && '_' !in id && '/' !in id && '/' !in ext
    requires Later.BclParts(LegacyPattern, n, Some(lane), read, chunk)
    requires !Contains(Later.BclSuffix(n, Some(lane), read, chunk) + ext, id)
    requires Later.NoUnderscoreS(name) && Later.NoUnderscoreS(ext)
    requires i < |rows| && rows[i] == Later.NameRow(id, Some(name))
    requires forall j :: 0 <= j < |rows| && rows[j].sampleId == id ==> rows[j].sampleName == Some(name)
    ensures RenameFq(dir + "/" + id + Later.BclSuffix(n, Some(lane), read, chunk) + ext, projectFolder, rows)
      == Ok(RunDir.PathJoin(RunDir.PathJoin(projectFolder, "Sample_" + id), name + "_" + read + ext))
  {
    var m := Later.BclSuffix(n, Some(lane), read, chunk);
    var rest := m + ext;
    var oldName := id + rest;
    var fqFile := dir + "/" + id + m + ext;
    BclNoSlash(n, lane, read, chunk);
    FileNameOf(dir, id, m, ext);
    Later.SampleIdOf(id, rest);
    Lookup(id, rows, i, name);
    RenameFqOf(fqFile, projectFolder, rows, oldName, id, name);
    Later.ReplaceIdHead(id, rest, name);
    assert name + rest == name + m + ext;
    Later.CollapseBclName(name, LegacyPattern, n, Some(lane), read, chunk, ext);
  }

  lemma RenameFqOf(fqFile: string, projectFolder: string, rows: seq<Later.NameRow>, oldName: string, id: string, name: string)
    requires LastField(fqFile, '/') == oldName && Split(oldName, '_')[0] == id
    requires MatchIDtoName(id, rows) == Ok(Some(name))
    ensures RenameFq(fqFile, projectFolder, rows)
      == Ok(RunDir.PathJoin(RunDir.PathJoin(projectFolder, "Sample_" + id), Later.Collapse(ReplaceAll(oldName, id, name), LegacyPattern)))
  {
  }

  /** A bcl suffix holds no `/`. */
  lemma BclNoSlash(n: string, lane: string, read: string, chunk: string)
    requires AllDigits(n) && AllDigits(lane) && Later.ReadGroup(read) && AllDigits(chunk)
    ensures '/' !in Later.BclSuffix(n, Some(lane), read, chunk)
  {
    assert '/' !in n && '/' !in lane && '/' !in chunk && '/' !in read;
    assert Later.BclSuffix(n, Some(lane), read, chunk) == "_S" + n + "_" + ("L" + lane + "_") + read + "_" + chunk;
  }

  lemma FileNameOf(dir: string, id: string, m: string, ext: string)
    requires '/' !in id && '/' !in m && '/' !in ext
    ensures LastField(dir + "/" + id + m + ext, '/') == id + (m + ext)
  {
    assert dir + "/" + id + m + ext == dir + "/" + (id + (m + ext));
    FileName(dir, id + (m + ext));
  }

  /** The file name of `dir/name` is `name`. */
  lemma FileName(dir: string, name: string)
    requires '/' !in name
    ensures LastField(dir + "/" + name, '/') == name
  {
    assert dir + "/" + name == dir + ['/'] + name;
    SplitLastAfter(dir, '/', name);
    SplitWithoutSeparator(name, '/');
  }

  /** An ID whose rows all carry the same name gets it. */
  lemma Lookup(id: string, rows: seq<Later.NameRow>, i: nat, name: string)
    requires i < |rows| && rows[i] == Later.NameRow(id, Some(name))
    requires forall j :: 0 <= j < |rows| && rows[j].sampleId == id ==> rows[j].sampleName == Some(name)
    ensures MatchIDtoName(id, rows) == Ok(Some(name))
  {
    Later.MatchIDtoNameFinds(id, rows, i, Some(name));
  }

  /**
   * The earlier pattern allows at most two sample digits: from sample 100
   * on, `_S<n>_L<lll>_<read>_<ccc>` stays in the name. A three-digit
   * sample number, lane, read and chunk all stay.
   */
  lemma CollapseKeepsSample100(w: string, n: string, lane: string, read: string, chunk: string, ext: string)
    requires |n| == 3 && AllDigits(n)
    requires |lane| == 3 && AllDigits(lane) && Later.ReadGroup(read) && |chunk| == 3 && AllDigits(chunk)
    requires Later.NoUnderscoreS(w) && Later.NoUnderscoreS(ext)
    ensures Later.Collapse(w + Later.BclSuffix(n, Some(lane), read, chunk) + ext, LegacyPattern)
      == w + Later.BclSuffix(n, Some(lane), read, chunk) + ext
  {
    NoMatchAtSample(w, n, lane, read, chunk, ext);
    SuffixTail(w, n, lane, read, chunk, ext);
    Later.BclSuffixHead(n, Some(lane), read, chunk);
    CollapseUnmatched(w, Later.BclSuffix(n, Some(lane), read, chunk), ext);
  }

  /** A name with no match before, at or after the `_` that starts `m` is left as it is. */
  lemma CollapseUnmatched(w: string, m: string, ext: string)
    requires |m| > 0 && m[0] == '_'
    requires Later.NoUnderscoreS(w) && Later.NoUnderscoreS((w + m + ext)[|w| + 1..])
    requires Later.MatchAt(w + m + ext, |w|, LegacyPattern).None?
    ensures Later.Collapse(w + m + ext, LegacyPattern) == w + m + ext
  {
    var s := w + m + ext;
    assert s[..|w|] == w && s[|w|] == '_';
    Later.NoMatchBefore(s, |w|, LegacyPattern);
    Later.NoMatchAfter(s, |w| + 1, LegacyPattern);
    assert forall i :: 0 <= i < |s| ==> Later.MatchAt(s, i, LegacyPattern).None?;
    Later.CollapseCopies(s, 0, |s|, LegacyPattern);
    assert s[0..|s|] == s;
  }

  /** Three sample digits are one too many for the earlier pattern. */
  lemma NoMatchAtSample(w: string, n: string, lane: string, read: string, chunk: string, ext: string)
    requires |n| == 3 && AllDigits(n)
    ensures Later.MatchAt(w + Later.BclSuffix(n, Some(lane), read, chunk) + ext, |w|, LegacyPattern).None?
  {
    var s := w + Later.BclSuffix(n, Some(lane), read, chunk) + ext;
    var b := "_" + Later.LanePart(Some(lane)) + read + "_" + chunk + ext;
    assert s == (w + "_S") + n + b;
    Later.DigitRunIs(w + "_S", n, b);
  }

  /** After the `_` that starts the suffix, no `_S` follows. */
  lemma SuffixTail(w: string, n: string, lane: string, read: string, chunk: string, ext: string)
    requires AllDigits(n) && AllDigits(lane) && Later.ReadGroup(read) && |chunk| == 3 && AllDigits(chunk)
    requires Later.NoUnderscoreS(ext)
    ensures Later.NoUnderscoreS((w + Later.BclSuffix(n, Some(lane), read, chunk) + ext)[|w| + 1..])
  {
    SuffixTailShape(w, n, lane, read, chunk, ext);
    TailFree(n, lane, read, chunk, ext);
  }

  lemma SuffixTailShape(w: string, n: string, lane: string, read: string, chunk: string, ext: string)
    ensures (w + Later.BclSuffix(n, Some(lane), read, chunk) + ext)[|w| + 1..]
      == "S" + n + ("_" + (("L" + lane + "_") + (read + ("_" + (chunk + ext)))))
  {
    var t := "S" + n + ("_" + (("L" + lane + "_") + (read + ("_" + (chunk + ext)))));
    assert "_S" == "_" + "S";
    assert Later.BclSuffix(n, Some(lane), read, chunk) + ext == "_" + t;
    assert w + Later.BclSuffix(n, Some(lane), read, chunk) + ext == (w + "_") + t;
  }

  lemma TailFree(n: string, lane: string, read: string, chunk: string, ext: string)
    requires AllDigits(n) && AllDigits(lane) && Later.ReadGroup(read) && |chunk| == 3 && AllDigits(chunk)
    requires Later.NoUnderscoreS(ext)
    ensures Later.NoUnderscoreS("S" + n + ("_" + (("L" + lane + "_") + (read + ("_" + (chunk + ext))))))
  {
    var x1 := chunk + ext;
    NoUnderscoreIn(chunk);
    NoUnderscoreSAppend(chunk, ext);
    var x2 := "_" + x1;
    NoUnderscoreSAppend("_", x1);
    var x3 := read + x2;
    NoUnderscoreIn(read);
    NoUnderscoreSAppend(read, x2);
    var lp := "L" + lane + "_";
    NoUnderscoreIn("L" + lane);
    NoUnderscoreSAppend("L" + lane, "_");
    NoUnderscoreSAppend(lp, x3);
    var x5 := "_" + (lp + x3);
    NoUnderscoreSAppend("_", lp + x3);
    NoUnderscoreIn("S" + n);
    NoUnderscoreSAppend("S" + n, x5);
  }

  /** Text without `_` holds no `_S`. */
  lemma NoUnderscoreIn(x: string)
    requires forall i :: 0 <= i < |x| ==> x[i] != '_'
    ensures Later.NoUnderscoreS(x)
  {
  }

  /** Two texts without `_S` make none when joined, unless the first ends in `_` and the second starts with `S`. */
  lemma NoUnderscoreSAppend(a: string, b: string)
    requires Later.NoUnderscoreS(a) && Later.NoUnderscoreS(b)
    requires |a| > 0 && |b| > 0 ==> !(a[|a| - 1] == '_' && b[0] == 'S')
    ensures Later.NoUnderscoreS(a + b)
  {
    var s := a + b;
    forall i | 0 <= i < |s| - 1
      ensures !(s[i] == '_' && s[i + 1] == 'S')
    {
      if i + 1 < |a| {
        assert s[i] == a[i] && s[i + 1] == a[i + 1];
      } else if i >= |a| {
        assert s[i] == b[i - |a|] && s[i + 1] == b[i - |a| + 1];
      }
    }
  }

  /**
   * `renameProject`'s new folder: every occurrence of the folder's last
   * component in the whole path is replaced by `Project_` and it.
   */
  function ProjectTarget(folder: string): string
  {
    var projID := LastField(folder, '/');
    ReplaceAll(folder, projID, "Project_" + projID)
  }

  /** A project whose name is not in the parent path gets `Project_` in front of its name only. */
  lemma ProjectTargetOf(parent: string, proj: string)
    requires proj != "" && '/' !in proj && !Contains(parent, proj)
    ensures ProjectTarget(parent + "/" + proj) == parent + "/" + ("Project_" + proj)
  {
    var rep := "Project_" + proj;
    FileName(parent, proj);
    assert parent + "/" + proj == parent + ['/'] + proj;
    ReplaceAllAround(parent, '/', proj, proj, rep);
    ReplaceAllAbsent(parent, proj, rep);
    ReplaceWhole(proj, rep);
  }

  lemma ReplaceWhole(pat: string, rep: string)
    requires pat != []
    ensures ReplaceAll(pat, pat, rep) == rep
  {
    ReplaceAllHead(pat, "", rep);
    assert pat + "" == pat;
  }

  /**
   * A project folder named like its parent, `<proj>/<proj>`, becomes
   * `Project_<proj>/Project_<proj>`: the parent is renamed too, so the move
   * targets a folder that does not exist.
   */
  lemma ProjectTargetRenamesParent(proj: string)
    requires proj != "" && '/' !in proj
    ensures ProjectTarget(proj + "/" + proj) == ("Project_" + proj) + "/" + ("Project_" + proj)
  {
    var rep := "Project_" + proj;
    FileName(proj, proj);
    assert proj + "/" + proj == proj + ['/'] + proj;
    ReplaceAllAround(proj, '/', proj, proj, rep);
    ReplaceWhole(proj, rep);
  }

  /** The later version renames only the last component of the same folder. */
  lemma LaterProjectTargetKeepsParent(proj: string)
    requires proj != "" && proj != "Samples" && '/' !in proj && '.' !in proj
    ensures Later.ProjectTarget(proj + "/" + proj) == Ok(proj + "/" + ("Project_" + proj))
  {
    SplitWithoutSeparator(proj, '/');
    Later.ProjectTargetOf(proj, proj, false);
  }

  /**
   * `renameProject(projectFolder, ssdf)`: every `*fastq.gz` of the folder
   * (the glob's names, in its order) moves to its `renamefq` path, then
   * the folder moves to its `Project_` name. A failing lookup stops the
   * run after the moves already made.
   */
  method RenameProject(folder: string, fqNames: seq<string>, rows: seq<Later.NameRow>)
    returns (moves: seq<(string, string)>, r: Result<string>)
    ensures |moves| <= |fqNames|
    ensures forall k :: 0 <= k < |moves| ==>
      moves[k].0 == RunDir.PathJoin(folder, fqNames[k]) && RenameFq(moves[k].0, folder, rows) == Ok(moves[k].1)
    ensures |moves| < |fqNames| ==>
      r == RenameFq(RunDir.PathJoin(folder, fqNames[|moves|]), folder, rows) && r.Err?
    ensures |moves| == |fqNames| ==> r == Ok(ProjectTarget(folder))
  {
    var failure;
    moves, failure := Later.MoveEach(folder, fqNames, name => RenameFq(RunDir.PathJoin(folder, name), folder, rows));
    if failure.Some? {
      return moves, failure.value;
    }
    r := Ok(ProjectTarget(folder));
  }
}
