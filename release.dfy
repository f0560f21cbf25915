// Releasing a flow cell's projects to their PIs (src/wd40/release.py):
// the PI's newest sequencing_data directory, the folders of each released
// project, the permission walk's success rates and what is posted back to
// Parkour.
module Release {
  import opened Wrappers
  import opened Text
  import RunDir
  import FakeNews

  const BadFlowcell := "SystemExit: First 6 digits of flowcellpath don't convert to an int. Exiting."
  const ZeroRate := "ZeroDivisionError: division by zero"
  const TooFewParts := "ValueError: not enough values to unpack (expected 2, got 1)"
  const ListIndexError := "IndexError: list index out of range"

  // ------------------------------------------------------- fetchLatestSeqDir

  /**
   * `int(seqDir[-1])`: the digit a matched directory ends in, None for the
   * ValueError of any other last character. Glob results are never empty;
   * an empty name also gives None.
   */
  function LastDigit(m: string): (d: Option<nat>)
    ensures d.Some? <==> m != "" && IsDigit(m[|m| - 1])
  {
    if m != "" && IsDigit(m[|m| - 1]) then Some(DigitValue(m[|m| - 1])) else None
  }

  /** The longest run of digits a name ends in. */
  function TrailingDigits(m: string): (t: string)
    ensures AllDigits(t) && |t| <= |m|
    decreases |m|
  {
    if m != "" && IsDigit(m[|m| - 1]) then TrailingDigits(m[..|m| - 1]) + [m[|m| - 1]] else ""
  }

  /** The trailing digits are a suffix of the name with no digit before them. */
  lemma {:induction false} TrailingDigitsSuffix(m: string)
    ensures m[|m| - |TrailingDigits(m)|..] == TrailingDigits(m)
    ensures |TrailingDigits(m)| == |m| || !IsDigit(m[|m| - |TrailingDigits(m)| - 1])
    decreases |m|
  {
    if m != "" && IsDigit(m[|m| - 1]) {
      var n := |m| - 1;
      TrailingDigitsSuffix(m[..n]);
      var t := TrailingDigits(m[..n]);
      assert m[|m| - |t| - 1..] == m[..n][n - |t|..] + [m[n]];
    }
  }

  /** The number a name ends in, None when it does not end in a digit. */
  function TrailingNumber(m: string): (n: Option<nat>)
    ensures n.Some? <==> m != "" && IsDigit(m[|m| - 1])
  {
    var t := TrailingDigits(m);
    if t == "" then None else Some(DigitsValue(t))
  }

  /** The largest number `number` reads off the matches, 0 when it reads none. */
  function LatestNumber(matches: seq<string>, number: string -> Option<nat>): (n: nat)
    ensures forall i :: 0 <= i < |matches| && number(matches[i]).Some? ==> number(matches[i]).value <= n
    ensures n == 0 || exists i :: 0 <= i < |matches| && number(matches[i]) == Some(n)
    decreases |matches|
  {
    if matches == [] then 0
    else
      var k := |matches| - 1;
      var m := LatestNumber(matches[..k], number);
      assert forall i :: 0 <= i < k ==> matches[..k][i] == matches[i];
      var d := number(matches[k]);
      if d.Some? && d.value > m then d.value else m
  }

  /** `<pref>/<PI>/<postfix><n>`. */
  function SeqDirPath(pref: string, pi: string, postfix: string, n: nat): string
  {
    RunDir.PathJoin(RunDir.PathJoin(pref, pi), postfix + NatToString(n))
  }

  /** The directory `fetchLatestSeqDir` settles on, reading each match's number with `number`. */
  function LatestSeqDir(pref: string, pi: string, postfix: string, matches: seq<string>, number: string -> Option<nat>): string
  {
    if |matches| == 1 then matches[0] else SeqDirPath(pref, pi, postfix, LatestNumber(matches, number))
  }

  /**
   * `fetchLatestSeqDir` over the glob matches of `<pref>/<PI>/<postfix>*`:
   * the only match, or the running maximum of the numbers read off the
   * matches (those without one skipped) appended to the postfix. As
   * written, `number` is `LastDigit`; the model releases with `TrailingNumber`.
   */
  method FetchLatestSeqDir(pref: string, pi: string, postfix: string, matches: seq<string>, number: string -> Option<nat>)
    returns (seqFolder: string)
    ensures |matches| == 1 ==> seqFolder == matches[0]
    ensures |matches| != 1 ==> exists n :: (seqFolder == SeqDirPath(pref, pi, postfix, n)
      && (forall i :: 0 <= i < |matches| && number(matches[i]).Some? ==> number(matches[i]).value <= n)
      && (n == 0 || exists i :: 0 <= i < |matches| && number(matches[i]) == Some(n)))
    ensures seqFolder == LatestSeqDir(pref, pi, postfix, matches, number)
  {
    if |matches| == 1 {
      return matches[0];
    }
    var maxFolder := 0;
    var k := 0;
    while k < |matches|
      invariant 0 <= k <= |matches|
      invariant maxFolder == LatestNumber(matches[..k], number)
    {
      assert matches[..k + 1][..k] == matches[..k];
      var seqInt := number(matches[k]);
      if seqInt.Some? && seqInt.value > maxFolder {
        maxFolder := seqInt.value;
      }
      k := k + 1;
    }
    assert matches[..k] == matches;
    seqFolder := SeqDirPath(pref, pi, postfix, maxFolder);
  }

  /** Reading only the last character, 'sequencing_data10' loses to 'sequencing_data9'. */
  lemma LastDigitPicksNine(dir: string)
    ensures LatestNumber([dir + "9", dir + "10"], LastDigit) == 9
  {
    assert LastDigit(dir + "9") == Some(9);
    assert LastDigit(dir + "10") == Some(0);
    assert [dir + "9", dir + "10"][..1] == [dir + "9"];
  }

  /** A run of digits after a non-digit is exactly what the name ends in. */
  lemma {:induction false} TrailingDigitsOf(dir: string, digits: string)
    requires AllDigits(digits)
    requires dir == "" || !IsDigit(dir[|dir| - 1])
    ensures TrailingDigits(dir + digits) == digits
    decreases |digits|
  {
    if digits != "" {
      var n := |digits| - 1;
      TrailingDigitsOf(dir, digits[..n]);
      assert (dir + digits)[..|dir| + n] == dir + digits[..n];
      assert digits[..n] + [digits[n]] == digits;
    }
  }

  /** A name ending in digits after a non-digit reads as their value. */
  lemma TrailingNumberOf(dir: string, digits: string)
    requires digits != "" && AllDigits(digits)
    requires dir == "" || !IsDigit(dir[|dir| - 1])
    ensures TrailingNumber(dir + digits) == Some(DigitsValue(digits))
  {
    TrailingDigitsOf(dir, digits);
  }

  /** Of two matches with numbers, the larger number wins. */
  lemma LatestOfTwo(a: string, b: string, number: string -> Option<nat>, x: nat, y: nat)
    requires number(a) == Some(x) && number(b) == Some(y)
    ensures LatestNumber([a, b], number) == if y > x then y else x
  {
    assert [a, b][..1] == [a];
    assert [a][..0] == [];
  }

  /** Reading the whole trailing number, 'sequencing_data10' is the newest. */
  lemma TrailingNumberPicksTen(dir: string)
    requires dir == "" || !IsDigit(dir[|dir| - 1])
    ensures LatestNumber([dir + "9", dir + "10"], TrailingNumber) == 10
  {
    assert DigitsValue("9") == 9 by {
      assert "9"[..0] == "";
    }
    assert DigitsValue("10") == 10 by {
      assert "10"[..1] == "1" && "1"[..0] == "";
    }
    TrailingNumberOf(dir, "9");
    TrailingNumberOf(dir, "10");
    LatestOfTwo(dir + "9", dir + "10", TrailingNumber, 9, 10);
  }

  // ------------------------------------------------------------ fetchFolders

  /** `os.path.join(os.getcwd(), path)` unless the path is absolute. */
  function FullPath(cwd: string, path: string): string
  {
    if |path| > 0 && path[0] == '/' then path else cwd + "/" + path
  }

  /** One component of `os.path.normpath`: empty and `.` components vanish, `..` drops the one before (none above the root). */
  function NormStep(acc: seq<string>, part: string): seq<string>
  {
    if part == "" || part == "." then acc
    else if part == ".." then (if acc == [] then [] else acc[..|acc| - 1])
    else acc + [part]
  }

  /** The components `os.path.normpath` keeps of an absolute path split at '/'. */
  function Norm(parts: seq<string>): seq<string>
    decreases |parts|
  {
    if parts == [] then [] else NormStep(Norm(parts[..|parts| - 1]), parts[|parts| - 1])
  }

  /** The components of `os.path.abspath(path)`, with `cwd` the working directory. */
  function AbsComponents(cwd: string, path: string): seq<string>
  {
    Norm(Split(FullPath(cwd, path), '/'))
  }

  /**
   * The flow cell folder's name: `os.path.abspath(flowcellPath).split("/")[-1]`,
   * the last component of the normalised path, empty for the root.
   */
  function FlowcellID(cwd: string, flowcellPath: string): string
  {
    LastOr(AbsComponents(cwd, flowcellPath))
  }

  /** The last component, or "" when there is none. */
  function LastOr(c: seq<string>): string
  {
    if c == [] then "" else c[|c| - 1]
  }

  lemma NormSnoc(parts: seq<string>, part: string)
    ensures Norm(parts + [part]) == NormStep(Norm(parts), part)
  {
    assert (parts + [part])[..|parts|] == parts;
  }

  /** A trailing '/' does not change the flow cell folder. */
  lemma FlowcellIDTrailingSlash(cwd: string, path: string)
    requires path != ""
    ensures FlowcellID(cwd, path + "/") == FlowcellID(cwd, path)
  {
    var f := FullPath(cwd, path);
    assert FullPath(cwd, path + "/") == f + ['/'] + "";
    SplitConcat(f, '/', "");
    NormSnoc(Split(f, '/'), "");
  }

  /** `./`, the default argument of `wd40 rel`, is the working directory. */
  lemma FlowcellIDDot(cwd: string)
    requires cwd != "" && cwd[0] == '/'
    ensures FlowcellID(cwd, "./") == FlowcellID(cwd, cwd)
  {
    assert FullPath(cwd, "./") == cwd + ['/'] + "./";
    SplitConcat(cwd, '/', "./");
    assert "./" == "." + ['/'] + "";
    SplitConcat(".", '/', "");
    SplitWithoutSeparator(".", '/');
    var ps := Split(cwd, '/');
    assert ps + Split("./", '/') == ps + ["."] + [""];
    NormSnoc(ps + ["."], "");
    NormSnoc(ps, ".");
  }

  /** A component that `normpath` keeps as it is. */
  predicate PlainComponent(d: string)
  {
    d != "" && d != "." && d != ".." && '/' !in d
  }

  /** Normalising the components of a plain absolute path keeps them all. */
  lemma {:induction false} NormPlain(dirs: seq<string>)
    requires forall i :: 0 <= i < |dirs| ==> PlainComponent(dirs[i])
    ensures Norm([""] + dirs) == dirs
    decreases |dirs|
  {
    if dirs == [] {
      assert Norm([""]) == NormStep(Norm([]), "") by { NormSnoc([], ""); }
    } else {
      var n := |dirs| - 1;
      NormPlain(dirs[..n]);
      assert [""] + dirs == ([""] + dirs[..n]) + [dirs[n]];
      NormSnoc([""] + dirs[..n], dirs[n]);
      assert dirs[..n] + [dirs[n]] == dirs;
    }
  }

  /** Run from `/d1/…/dn` without an argument, `wd40 rel` takes `dn` as the flow cell ID. */
  lemma DefaultFlowcellIsCwd(dirs: seq<string>)
    requires |dirs| > 0 && forall i :: 0 <= i < |dirs| ==> PlainComponent(dirs[i])
    ensures FlowcellID("/" + Join(dirs, "/"), "./") == dirs[|dirs| - 1]
  {
    var cwd := "/" + Join(dirs, "/");
    FlowcellIDDot(cwd);
    AbsOfPlain(dirs, Join(dirs, "/"), cwd);
  }

  /** A plain absolute path is its own absolute path. */
  lemma AbsOfPlain(dirs: seq<string>, j: string, cwd: string)
    requires |dirs| > 0 && forall i :: 0 <= i < |dirs| ==> PlainComponent(dirs[i])
    requires j == Join(dirs, "/") && cwd == "/" + j
    ensures AbsComponents(cwd, cwd) == dirs
  {
    assert FullPath(cwd, cwd) == "" + ['/'] + j;
    SplitConcat("", '/', j);
    SplitJoin(dirs, '/');
    NormPlain(dirs);
  }

  /** Python `FID[:6]`. */
  function First6(fid: string): (r: string)
    ensures |r| <= 6 && r <= fid
  {
    if |fid| <= 6 then fid else fid[..6]
  }

  /** The PI of a project folder: its last '_' field lowercased, 'cabezas-wallscheid' read as 'cabezas'. */
  function ReleasePi(proj: string): (pi: string)
    ensures '_' !in pi && NoUpper(pi)
  {
    var low := Lower(LastField(proj, '_'));
    LowerAvoids(LastField(proj, '_'), '_');
    if low == "cabezas-wallscheid" then "cabezas" else low
  }

  /**
   * `rel` derives the PI with `replace` instead of an equality test; the two
   * agree unless 'cabezas-wallscheid' sits inside a longer last field.
   */
  lemma ReleasePiAgrees(proj: string)
    requires var low := Lower(LastField(proj, '_'));
      low == "cabezas-wallscheid" || !Contains(low, "cabezas-wallscheid")
    ensures ReleasePi(proj) == FakeNews.PiOf(proj)
  {
    var low := Lower(LastField(proj, '_'));
    if low == "cabezas-wallscheid" {
      ReplaceAllHead("cabezas-wallscheid", "", "cabezas");
      assert "cabezas-wallscheid" + "" == "cabezas-wallscheid";
    } else {
      ReplaceAllAbsent(low, "cabezas-wallscheid", "cabezas");
    }
  }

  /** A released project's group and its four folders under `<seqFolder>/<FID>`. */
  datatype ReleaseTarget = ReleaseTarget(grp: string, flowcellF: string, projectF: string, fastqcF: string, analysisF: string)

  function Target(seqFolder: string, fid: string, proj: string, pi: string): (t: ReleaseTarget)
    ensures t.grp == pi + "grp" && t.flowcellF == RunDir.PathJoin(seqFolder, fid)
    ensures t.projectF == RunDir.PathJoin(t.flowcellF, proj)
    ensures t.fastqcF == RunDir.PathJoin(t.flowcellF, "FASTQC_" + proj)
    ensures t.analysisF == RunDir.PathJoin(t.flowcellF, "Analysis_" + ReplaceAll(proj, "Project_", ""))
  {
    var flowcellF := RunDir.PathJoin(seqFolder, fid);
    ReleaseTarget(pi + "grp", flowcellF, RunDir.PathJoin(flowcellF, proj),
      RunDir.PathJoin(flowcellF, "FASTQC_" + proj),
      RunDir.PathJoin(flowcellF, "Analysis_" + ReplaceAll(proj, "Project_", "")))
  }

  /** The configuration and file system `fetchFolders` consults. */
  datatype ReleaseEnv = ReleaseEnv(
    piList: string,                    // config Internals/PIs, a string: `in` is a substring test
    prefix: string,                    // config Dirs/piDir
    postfix: string,                   // config Internals/seqDir
    globs: string -> seq<string>,      // a PI's matches of <prefix>/<PI>/<postfix>*
    existing: set<string>)             // the paths that exist

  /** The sequencing_data directory a PI's projects go to. */
  function SeqFolderOf(env: ReleaseEnv, pi: string): string
  {
    LatestSeqDir(env.prefix, pi, env.postfix, env.globs(pi), TrailingNumber)
  }

  predicate Released(env: ReleaseEnv, fid: string, proj: string)
  {
    Contains(env.piList, ReleasePi(proj)) && RunDir.PathJoin(SeqFolderOf(env, ReleasePi(proj)), fid) in env.existing
  }

  /** `projDic` after the project folders in glob order. */
  function Folders(env: ReleaseEnv, fid: string, projects: seq<string>): map<string, ReleaseTarget>
    decreases |projects|
  {
    if projects == [] then map[]
    else
      var n := |projects| - 1;
      var front := Folders(env, fid, projects[..n]);
      var proj := projects[n];
      if Released(env, fid, proj) then front[proj := Target(SeqFolderOf(env, ReleasePi(proj)), fid, proj, ReleasePi(proj))]
      else front
  }

  /**
   * A project is released iff its PI is listed and its flow cell folder
   * exists under the PI's newest sequencing_data directory; its entry is
   * the group and the four folders there.
   */
  lemma {:induction false} FoldersIff(env: ReleaseEnv, fid: string, projects: seq<string>, proj: string)
    ensures proj in Folders(env, fid, projects) <==> proj in projects && Released(env, fid, proj)
    ensures proj in Folders(env, fid, projects) ==>
      Folders(env, fid, projects)[proj] == Target(SeqFolderOf(env, ReleasePi(proj)), fid, proj, ReleasePi(proj))
    decreases |projects|
  {
    if projects != [] {
      var n := |projects| - 1;
      var front, last := projects[..n], projects[n];
      FoldersIff(env, fid, front, proj);
      InLast(projects, proj);
      FoldersSnoc(Folders(env, fid, front), Folders(env, fid, projects), last,
        Target(SeqFolderOf(env, ReleasePi(last)), fid, last, ReleasePi(last)), Released(env, fid, last), proj);
    }
  }

  lemma InLast<T>(xs: seq<T>, x: T)
    requires xs != []
    ensures x in xs <==> x in xs[..|xs| - 1] || x == xs[|xs| - 1]
  {
    assert xs == xs[..|xs| - 1] + [xs[|xs| - 1]];
  }

  /** One more project: its entry is added when it is released, and no other entry changes. */
  lemma FoldersSnoc(front: map<string, ReleaseTarget>, all: map<string, ReleaseTarget>, last: string, t: ReleaseTarget, released: bool, proj: string)
    requires all == if released then front[last := t] else front
    ensures proj in all <==> proj in front || (proj == last && released)
    ensures proj in all && proj != last ==> all[proj] == front[proj]
    ensures proj in all && proj == last && released ==> all[proj] == t
  {
  }

  /**
   * `fetchFolders`: exits unless the first six characters of the flow cell
   * folder's name parse as an integer; otherwise the released projects.
   */
  method FetchFolders(env: ReleaseEnv, cwd: string, flowcellPath: string, projects: seq<string>)
    returns (r: Result<map<string, ReleaseTarget>>)
    ensures r.Err? <==> ParseInt(First6(FlowcellID(cwd, flowcellPath))).None?
    ensures r.Err? ==> r.reason == BadFlowcell
    ensures r.Ok? ==> r.value == Folders(env, FlowcellID(cwd, flowcellPath), projects)
  {
    var fid := FlowcellID(cwd, flowcellPath);
    if ParseInt(First6(fid)).None? {
      return Err(BadFlowcell);
    }
    var projDic: map<string, ReleaseTarget> := map[];
    var k := 0;
    while k < |projects|
      invariant 0 <= k <= |projects|
      invariant projDic == Folders(env, fid, projects[..k])
    {
      assert projects[..k + 1][..k] == projects[..k];
      var proj := projects[k];
      var pi := ReleasePi(proj);
      if Contains(env.piList, pi) {
        var seqFolder := FetchLatestSeqDir(env.prefix, pi, env.postfix, env.globs(pi), TrailingNumber);
        if RunDir.PathJoin(seqFolder, fid) in env.existing {
          projDic := projDic[proj := Target(seqFolder, fid, proj, pi)];
        }
      }
      k := k + 1;
    }
    assert projects[..k] == projects;
    r := Ok(projDic);
  }

  // ----------------------------------------------------- release_rights/folder

  /** What `os.walk` meets under a folder: a directory, or a file that may be a symlink. */
  datatype WalkItem = Subdir(chmodOk: bool) | File(isLink: bool, chmodOk: bool)

  /** The share of changed entries, `changed / (changed + failed)`, kept exact. */
  datatype Rate = Rate(changed: nat, total: nat)

  function Changed(items: seq<WalkItem>): nat
    decreases |items|
  {
    if items == [] then 0
    else
      var it := items[|items| - 1];
      Changed(items[..|items| - 1]) + (if (it.Subdir? || !it.isLink) && it.chmodOk then 1 else 0)
  }

  function Failed(items: seq<WalkItem>): nat
    decreases |items|
  {
    if items == [] then 0
    else
      var it := items[|items| - 1];
      Failed(items[..|items| - 1]) + (if (it.Subdir? || !it.isLink) && !it.chmodOk then 1 else 0)
  }

  /** The entries the walk touches: every directory and every file that is not a symlink. */
  function Touched(items: seq<WalkItem>): (r: seq<WalkItem>)
    ensures |r| <= |items|
    ensures forall i :: 0 <= i < |r| ==> r[i] in items && (r[i].Subdir? || !r[i].isLink)
    decreases |items|
  {
    if items == [] then []
    else
      var it := items[|items| - 1];
      var front := Touched(items[..|items| - 1]);
      if it.Subdir? || !it.isLink then front + [it] else front
  }

  /** Every touched entry is counted once, as changed or as failed. */
  lemma {:induction false} CountsCoverTouched(items: seq<WalkItem>)
    ensures Changed(items) + Failed(items) == |Touched(items)|
    decreases |items|
  {
    if items != [] {
      CountsCoverTouched(items[..|items| - 1]);
    }
  }

  /**
   * `release_rights`: chmod every directory and every non-symlink file,
   * counting successes and permission errors; the rate divides by their
   * sum, the ZeroDivisionError when the walk touched nothing.
   */
  method ReleaseRights(items: seq<WalkItem>) returns (r: Result<Rate>)
    ensures r.Err? <==> Touched(items) == []
    ensures r.Err? ==> r.reason == ZeroRate
    ensures r.Ok? ==> r.value.total == |Touched(items)| && r.value.changed == Changed(items) && r.value.changed <= r.value.total
  {
    var changed := 0;
    var failed := 0;
    var k := 0;
    while k < |items|
      invariant 0 <= k <= |items|
      invariant changed == Changed(items[..k]) && failed == Failed(items[..k])
    {
      assert items[..k + 1][..k] == items[..k];
      var it := items[k];
      if it.Subdir? || !it.isLink {
        if it.chmodOk {
          changed := changed + 1;
        } else {
          failed := failed + 1;
        }
      }
      k := k + 1;
    }
    assert items[..k] == items;
    CountsCoverTouched(items);
    if changed + failed == 0 {
      return Err(ZeroRate);
    }
    r := Ok(Rate(changed, changed + failed));
  }

  /**
   * `release_folder`: the project and FASTQC folders' rates, then the
   * analysis folder's when it exists; the first failing walk raises.
   */
  method ReleaseFolder(target: ReleaseTarget, walk: string -> seq<WalkItem>, existing: set<string>) returns (r: Result<seq<Rate>>)
    ensures r.Ok? ==> (|r.value| == 3 <==> target.analysisF in existing) && 2 <= |r.value| <= 3
    ensures r.Err? <==> (Touched(walk(target.projectF)) == [] || Touched(walk(target.fastqcF)) == []
      || (target.analysisF in existing && Touched(walk(target.analysisF)) == []))
    ensures r.Ok? ==> r.value[0].total == |Touched(walk(target.projectF))| && r.value[1].total == |Touched(walk(target.fastqcF))|
  {
    var project := ReleaseRights(walk(target.projectF));
    if project.Err? {
      return Err(project.reason);
    }
    var fqc := ReleaseRights(walk(target.fastqcF));
    if fqc.Err? {
      return Err(fqc.reason);
    }
    if target.analysisF in existing {
      var analysis := ReleaseRights(walk(target.analysisF));
      if analysis.Err? {
        return Err(analysis.reason);
      }
      return Ok([project.value, fqc.value, analysis.value]);
    }
    r := Ok([project.value, fqc.value]);
  }

  // --------------------------------------------------------------------- rel

  /** `tar_lane, tar_proj = path.split('/')[-2:]` and the tarball named after them. */
  function Tarball(projectF: string): (r: Result<string>)
    ensures r.Err? <==> '/' !in projectF
  {
    var parts := Split(projectF, '/');
    if |parts| < 2 then
      (if '/' in projectF then SplitAtLeastTwo(projectF, '/'); Err(TooFewParts) else Err(TooFewParts))
    else
      assert '/' in projectF by {
        if '/' !in projectF {
          SplitWithoutSeparator(projectF, '/');
        }
      }
      Ok(FakeNews.FexTarball(parts[|parts| - 2], parts[|parts| - 1]))
  }

  /** A released project's folder ends in `<FID>/<project>`: its tarball is the one fex shipping uploads. */
  lemma TargetTarball(seqFolder: string, fid: string, proj: string, pi: string)
    requires fid != "" && '/' !in fid && '/' !in proj
    ensures LastField(Target(seqFolder, fid, proj, pi).projectF, '/') == proj
    ensures Tarball(Target(seqFolder, fid, proj, pi).projectF) == Ok(FakeNews.FexTarball(fid, proj))
  {
    var projectF := Target(seqFolder, fid, proj, pi).projectF;
    var tail := fid + "/" + proj;
    SplitAtFirstSeparator(fid, proj, '/');
    SplitWithoutSeparator(proj, '/');
    assert Split(tail, '/') == [fid, proj];
    var front := ProjectPath(seqFolder, fid, proj);
    if seqFolder != "" {
      SplitConcat(front, '/', tail);
    }
    var parts := Split(projectF, '/');
    assert parts[|parts| - 2..] == [fid, proj];
  }

  /** The project folder is the flow cell name and the project under the PI's folder. */
  lemma ProjectPath(seqFolder: string, fid: string, proj: string) returns (front: string)
    requires fid != "" && '/' !in fid
    ensures seqFolder == "" ==> RunDir.PathJoin(RunDir.PathJoin(seqFolder, fid), proj) == fid + "/" + proj
    ensures seqFolder != "" ==> RunDir.PathJoin(RunDir.PathJoin(seqFolder, fid), proj) == front + ['/'] + (fid + "/" + proj)
  {
    var flowcellF := RunDir.PathJoin(seqFolder, fid);
    assert flowcellF[|flowcellF| - 1] == fid[|fid| - 1] != '/';
    assert RunDir.PathJoin(flowcellF, proj) == flowcellF + "/" + proj;
    front := if seqFolder != "" && seqFolder[|seqFolder| - 1] == '/' then seqFolder[..|seqFolder| - 1] else seqFolder;
    if seqFolder != "" {
      assert flowcellF == front + ['/'] + fid;
      assert flowcellF + "/" + proj == front + ['/'] + (fid + "/" + proj);
    } else {
      assert flowcellF == fid;
    }
  }

  /** The file paths posted to Parkour for a project. */
  datatype Payload = Payload(data: string, metadata: Option<string>)

  /**
   * What `rel` posts for a released project: its folder and MultiQC report
   * when the PI is listed, else with fex the tarball when fex lists it,
   * else nothing.
   */
  function FilepathsPayload(piList: string, fexBool: bool, projectF: string, fexListing: string): (r: Result<Option<Payload>>)
    ensures Contains(piList, FakeNews.PiOf(LastField(projectF, '/'))) ==>
      r == Ok(Some(Payload(projectF, Some(projectF + "/multiqc_report.html"))))
    ensures !Contains(piList, FakeNews.PiOf(LastField(projectF, '/'))) && !fexBool ==> r == Ok(None)
    ensures r.Ok? && r.value.Some? && r.value.value.metadata.None? ==>
      Tarball(projectF) == Ok(r.value.value.data)
      && r.value.value.data in Split(ReplaceAll(fexListing, "\n", " "), ' ')
  {
    if Contains(piList, FakeNews.PiOf(LastField(projectF, '/'))) then
      Ok(Some(Payload(projectF, Some(projectF + "/multiqc_report.html"))))
    else if fexBool then
      match Tarball(projectF)
      case Err(e) => Err(e)
      case Ok(tarBall) =>
        if tarBall in Split(ReplaceAll(fexListing, "\n", " "), ' ') then Ok(Some(Payload(tarBall, None))) else Ok(None)
    else Ok(None)
  }

  /**
   * Every project `fetchFolders` releases has a listed PI, so (when both
   * ways of reading the PI agree) `rel` always posts its folder, never a
   * fex tarball.
   */
  lemma ReleasedPostsFolder(env: ReleaseEnv, fid: string, projects: seq<string>, proj: string, fexBool: bool, fexListing: string)
    requires fid != "" && '/' !in fid && '/' !in proj
    requires proj in Folders(env, fid, projects)
    requires var low := Lower(LastField(proj, '_'));
      low == "cabezas-wallscheid" || !Contains(low, "cabezas-wallscheid")
    ensures var projectF := Folders(env, fid, projects)[proj].projectF;
      FilepathsPayload(env.piList, fexBool, projectF, fexListing) == Ok(Some(Payload(projectF, Some(projectF + "/multiqc_report.html"))))
  {
    FoldersIff(env, fid, projects, proj);
    TargetTarball(SeqFolderOf(env, ReleasePi(proj)), fid, proj, ReleasePi(proj));
    ReleasePiAgrees(proj);
  }

  /** The Parkour endpoint for a project: its second '_' field is the request ID. */
  function PutFilepathsURL(parkourURL: string, proj: string): (r: Result<string>)
    ensures r.Err? <==> '_' !in proj
  {
    match Field(proj, '_', 1)
    case None =>
      (if '_' in proj then SplitAtLeastTwo(proj, '_'); Err(ListIndexError) else Err(ListIndexError))
    case Some(id) =>
      assert '_' in proj by {
        if '_' !in proj {
          SplitWithoutSeparator(proj, '_');
        }
      }
      Ok(parkourURL + "/api/requests/" + id + "/put_filepaths/")
  }

  lemma PutFilepathsURLOf(parkourURL: string, id: string, rest: string)
    requires '_' !in id
    ensures PutFilepathsURL(parkourURL, "Project_" + id + "_" + rest) == Ok(parkourURL + "/api/requests/" + id + "/put_filepaths/")
  {
    var proj := "Project_" + id + "_" + rest;
    assert proj == "Project" + "_" + (id + "_" + rest);
    SplitAtFirstSeparator("Project", id + "_" + rest, '_');
    SplitAtFirstSeparator(id, rest, '_');
  }
}
