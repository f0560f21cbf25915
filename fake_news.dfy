// The exchange with the LIMS (Parkour), the notification mail and the
// shipping of finished projects (src/dissectBCL/fakeNews.py). The HTTP
// answer, the directory state, the copy outcomes and the `fexsend`
// listing are parameters; only the decisions taken on them are modelled.
module FakeNews {
  import opened Wrappers
  import opened Text
  import RunDir
  import Misc

  const FieldIndexError := "IndexError: list index out of range"
  const PullFailed := "SystemExit: Parkour pull failed"
  const NoColumns := "ValueError: Length mismatch: Expected axis has 0 elements, new values have 8 elements"

  // ------------------------------------------------------------- flowcell IDs

  /** Python `fid.split('-')[1]` when `fid` holds a '-', `fid` itself otherwise. */
  function DashTail(fid: string): (r: string)
    ensures '-' !in r
  {
    if '-' in fid then
      SplitAtLeastTwo(fid, '-');
      Split(fid, '-')[1]
    else fid
  }

  /** The tail keeps out every character the ID keeps out. */
  lemma DashTailAvoids(fid: string, d: char)
    requires d !in fid
    ensures d !in DashTail(fid)
  {
    if '-' in fid {
      SplitAvoids(fid, '-', d);
      SplitAtLeastTwo(fid, '-');
    }
  }

  /** The tail of `head-tail` is `tail`. */
  lemma DashTailOf(head: string, tail: string)
    requires '-' !in head && '-' !in tail
    ensures DashTail(head + "-" + tail) == tail
  {
    SplitAtFirstSeparator(head, tail, '-');
    SplitWithoutSeparator(tail, '-');
    assert (head + "-" + tail)[|head|] == '-';
  }

  /**
   * The flowcell ID `pullParkour` asks the LIMS for. For Aviti it is the
   * last '_' field of the run folder name. For Illumina it is the fourth
   * '_' field without its first character (the flowcell slot), cut to the
   * part after '-' when there is one; fewer than four fields is the
   * IndexError.
   */
  function PullFid(flowcellID: string, aviti: bool): (r: Result<string>)
    ensures r.Err? <==> !aviti && |Split(flowcellID, '_')| < 4
    ensures r.Ok? ==> '_' !in r.value
    ensures r.Ok? && !aviti ==> '-' !in r.value
  {
    if aviti then Ok(LastField(flowcellID, '_'))
    else
      match Field(flowcellID, '_', 3)
      case None => Err(FieldIndexError)
      case Some(f) =>
        var cut := if f == "" then "" else f[1..];
        assert '_' !in cut by {
          if f != "" {
            assert forall i :: 0 <= i < |cut| ==> cut[i] == f[i + 1];
          }
        }
        DashTailAvoids(cut, '_');
        Ok(DashTail(cut))
  }

  /**
   * The flowcell ID `pushParkour` reports under: the Illumina RunInfo
   * flowcell ID cut after its '-', or for Aviti the last '_' field of the
   * run name.
   */
  function PushFid(flowcellID: string, aviti: bool): (r: string)
    ensures aviti ==> '_' !in r
    ensures !aviti ==> '-' !in r
  {
    if aviti then LastField(flowcellID, '_') else DashTail(flowcellID)
  }

  /** An Illumina run folder: date_instrument_run_<slot><flowcell>. */
  function IlluminaRunName(date: string, instrument: string, run: string, slot: char, flowcell: string): string
  {
    Join([date, instrument, run, [slot] + flowcell], "_")
  }

  /**
   * Pull and push agree: the ID pulled from the run folder name is the ID
   * pushed from RunInfo's flowcell ID (for Aviti both read the run name).
   */
  lemma {:induction false} PullPushAgree(date: string, instrument: string, run: string, slot: char, flowcell: string)
    requires '_' !in date && '_' !in instrument && '_' !in run && slot != '_' && '_' !in flowcell
    ensures PullFid(IlluminaRunName(date, instrument, run, slot, flowcell), false) == Ok(PushFid(flowcell, false))
  {
    var parts := [date, instrument, run, [slot] + flowcell];
    SplitJoin(parts, '_');
    assert ([slot] + flowcell)[1..] == flowcell;
  }

  lemma PullPushAgreeAviti(runName: string)
    ensures PullFid(runName, true) == Ok(PushFid(runName, true))
  {
  }

  // --------------------------------------------------------------- LIMS rows

  /** A sample as the LIMS lists it: [name, libType, protocol, genome, indexType, depth]. */
  datatype LimsSample = LimsSample(name: string, libType: string, protocol: string,
                                   genome: string, indexType: string, depth: int)

  /** The LIMS answer: project to sample ID to sample, in the order the JSON lists them. */
  type LimsAnswer = seq<(string, seq<(string, LimsSample)>)>

  /** A row of the frame `pullParkour` returns. */
  datatype ParkourRow = ParkourRow(project: string, sampleID: string, sampleName: string,
                                   libraryType: string, description: string, organism: string,
                                   indexType: string, reqDepth: int)

  /** What the description clean-up removes: 'â', '€', '™' and ','. */
  const DescriptionJunk: set<char> := {'\U{00E2}', '\U{20AC}', '\U{2122}', ','}

  /** The description with every `DescriptionJunk` character removed. */
  function StripJunk(s: string): (r: string)
    ensures |r| <= |s|
    ensures forall i :: 0 <= i < |r| ==> r[i] !in DescriptionJunk
    decreases |s|
  {
    if s == [] then []
    else (if s[0] in DescriptionJunk then [] else [s[0]]) + StripJunk(s[1..])
  }

  /** A description without junk is kept as it is, so cleaning twice is cleaning once. */
  lemma {:induction false} StripJunkClean(s: string)
    requires forall i :: 0 <= i < |s| ==> s[i] !in DescriptionJunk
    ensures StripJunk(s) == s
    decreases |s|
  {
    if s != [] {
      StripJunkClean(s[1..]);
      assert s == [s[0]] + s[1..];
    }
  }

  /** One sample's row: names sanitised, the depth asked for in millions scaled to reads. */
  function Row(project: string, id: string, s: LimsSample): ParkourRow
  {
    ParkourRow(Misc.UmlautDestroyer(project), id, Misc.UmlautDestroyer(s.name), s.libType,
               StripJunk(s.protocol), s.genome, s.indexType, s.depth * 1000000)
  }

  /** How one sample of one project becomes a row. */
  type RowOf = (string, string, LimsSample) -> ParkourRow

  function ProjectRows(project: string, samples: seq<(string, LimsSample)>, row: RowOf): seq<ParkourRow>
  {
    seq(|samples|, j requires 0 <= j < |samples| => row(project, samples[j].0, samples[j].1))
  }

  /** The flattened answer, project by project, sample by sample. */
  function Rows(answer: LimsAnswer, row: RowOf): seq<ParkourRow>
    decreases |answer|
  {
    if answer == [] then []
    else Rows(answer[..|answer| - 1], row) + ProjectRows(answer[|answer| - 1].0, answer[|answer| - 1].1, row)
  }

  lemma RowsSnoc(answer: LimsAnswer, p: nat, row: RowOf)
    requires p < |answer|
    ensures Rows(answer[..p + 1], row) == Rows(answer[..p], row) + ProjectRows(answer[p].0, answer[p].1, row)
  {
    assert answer[..p + 1][..p] == answer[..p];
  }

  lemma ProjectRowsSnoc(project: string, samples: seq<(string, LimsSample)>, j: nat, row: RowOf)
    requires j < |samples|
    ensures ProjectRows(project, samples[..j + 1], row)
      == ProjectRows(project, samples[..j], row) + [row(project, samples[j].0, samples[j].1)]
  {
  }

  /** Every sample of every project gives a row. */
  lemma {:induction false} SampleRow(answer: LimsAnswer, p: nat, j: nat, row: RowOf)
    requires p < |answer| && j < |answer[p].1|
    ensures row(answer[p].0, answer[p].1[j].0, answer[p].1[j].1) in Rows(answer, row)
    decreases |answer|
  {
    var n := |answer| - 1;
    if p == n {
      assert ProjectRows(answer[n].0, answer[n].1, row)[j] == row(answer[p].0, answer[p].1[j].0, answer[p].1[j].1);
    } else {
      SampleRow(answer[..n], p, j, row);
      assert answer[..n][p] == answer[p];
    }
  }

  /** Every row comes from one sample of one project. */
  lemma {:induction false} RowSample(answer: LimsAnswer, r: ParkourRow, row: RowOf)
    requires r in Rows(answer, row)
    ensures exists p, j :: 0 <= p < |answer| && 0 <= j < |answer[p].1|
                           && r == row(answer[p].0, answer[p].1[j].0, answer[p].1[j].1)
    decreases |answer|
  {
    var n := |answer| - 1;
    var last := ProjectRows(answer[n].0, answer[n].1, row);
    if r in last {
      var j :| 0 <= j < |last| && last[j] == r;
      assert r == row(answer[n].0, answer[n].1[j].0, answer[n].1[j].1);
    } else {
      RowSample(answer[..n], r, row);
      var p, j :| 0 <= p < n && 0 <= j < |answer[..n][p].1|
        && r == row(answer[..n][p].0, answer[..n][p].1[j].0, answer[..n][p].1[j].1);
      assert answer[..n][p] == answer[p];
    }
  }

  /** The number of samples the answer lists. */
  function SampleCount(answer: LimsAnswer): nat
    decreases |answer|
  {
    if answer == [] then 0 else SampleCount(answer[..|answer| - 1]) + |answer[|answer| - 1].1|
  }

  lemma {:induction false} RowsCount(answer: LimsAnswer, row: RowOf)
    ensures |Rows(answer, row)| == SampleCount(answer)
    decreases |answer|
  {
    if answer != [] {
      RowsCount(answer[..|answer| - 1], row);
    }
  }

  /** Every row's names are sanitised and its description is clean. */
  lemma RowClean(project: string, id: string, s: LimsSample)
    ensures ' ' !in Row(project, id, s).project && ' ' !in Row(project, id, s).sampleName
    ensures forall k :: 0 <= k < |Misc.Umlauts| ==>
      Misc.Umlauts[k].0 !in Row(project, id, s).project && Misc.Umlauts[k].0 !in Row(project, id, s).sampleName
    ensures StripJunk(Row(project, id, s).description) == Row(project, id, s).description
  {
    Misc.UmlautDestroyerClean(project);
    Misc.UmlautDestroyerClean(s.name);
    StripJunkClean(StripJunk(s.protocol));
  }

  /**
   * `pullParkour` on the LIMS answer: the flowcell ID is computed first
   * (its IndexError), a status other than 200 exits, and an answer with no
   * samples fails when the eight column names are set on an empty frame.
   */
  method PullParkour(flowcellID: string, aviti: bool, status: int, answer: LimsAnswer)
    returns (r: Result<seq<ParkourRow>>)
    ensures PullFid(flowcellID, aviti).Err? ==> r == Err(FieldIndexError)
    ensures PullFid(flowcellID, aviti).Ok? && status != 200 ==> r == Err(PullFailed)
    ensures PullFid(flowcellID, aviti).Ok? && status == 200 ==>
      r == (if SampleCount(answer) == 0 then Err(NoColumns) else Ok(Rows(answer, Row)))
  {
    var fid := PullFid(flowcellID, aviti);
    if fid.Err? {
      return Err(FieldIndexError);
    }
    if status != 200 {
      return Err(PullFailed);
    }
    var flatLis := Flatten(answer, Row);
    RowsCount(answer, Row);
    if flatLis == [] {
      return Err(NoColumns);
    }
    r := Ok(flatLis);
  }

  /** The nested loop that flattens the answer into `flatLis`. */
  method Flatten(answer: LimsAnswer, row: RowOf) returns (flatLis: seq<ParkourRow>)
    ensures flatLis == Rows(answer, row)
  {
    flatLis := [];
    var p := 0;
    while p < |answer|
      invariant 0 <= p <= |answer|
      invariant flatLis == Rows(answer[..p], row)
    {
      var project := answer[p].0;
      var samples := answer[p].1;
      var j := 0;
      while j < |samples|
        invariant 0 <= j <= |samples|
        invariant flatLis == Rows(answer[..p], row) + ProjectRows(project, samples[..j], row)
      {
        flatLis := flatLis + [row(project, samples[j].0, samples[j].1)];
        ProjectRowsSnoc(project, samples, j, row);
        j := j + 1;
      }
      assert samples[..j] == samples;
      RowsSnoc(answer, p, row);
      p := p + 1;
    }
    assert answer[..p] == answer;
  }

  // -------------------------------------------------------------------- mail

  /** The `communication` section of the configuration. */
  datatype Communication = Communication(subject: string, fromAddress: string, bioinfoCore: string,
                                         finishedTo: string, host: string)

  /** The message `mailHome` hands to SMTP: headers, envelope recipients and body. */
  datatype Mail = Mail(subject: string, sender: string, to: string, recipients: seq<string>, html: string)

  /**
   * `mailHome`: the subject is prefixed with the configured tag and the
   * package version; a mail to the core goes to the core address, any
   * other to `finishedTo` split on ', '.
   */
  function MailHome(subject: string, html: string, comm: Communication, version: string, toCore: bool): (m: Mail)
    ensures m.sender == comm.fromAddress && m.html == html
    ensures m.to == (if toCore then comm.bioinfoCore else comm.finishedTo)
    ensures |m.recipients| > 0
  {
    var to := if toCore then comm.bioinfoCore else comm.finishedTo;
    Mail("[" + comm.subject + "] [" + version + "] " + subject, comm.fromAddress, to,
         if toCore then [comm.bioinfoCore] else SplitOn(comm.finishedTo, ", "), html)
  }

  /** The envelope recipients, joined as the header lists them, are the To header. */
  lemma MailHomeHeader(subject: string, html: string, comm: Communication, version: string, toCore: bool)
    ensures Join(MailHome(subject, html, comm, version, toCore).recipients, ", ") == MailHome(subject, html, comm, version, toCore).to
  {
    if !toCore {
      JoinSplitOn(comm.finishedTo, ", ");
    }
  }

  /** A `finishedTo` written as a ', '-list of addresses reaches exactly those addresses. */
  lemma MailHomeReaches(subject: string, html: string, comm: Communication, version: string, addresses: seq<string>)
    requires |addresses| > 0 && comm.finishedTo == Join(addresses, ", ")
    requires forall i :: 0 <= i < |addresses| ==> ',' !in addresses[i]
    ensures MailHome(subject, html, comm, version, false).recipients == addresses
  {
    SplitOnJoin(addresses, ", ");
  }

  /** The subject keeps the caller's subject at its end, after the tag and the version. */
  lemma MailHomeSubject(subject: string, html: string, comm: Communication, version: string, toCore: bool)
    ensures MailHome(subject, html, comm, version, toCore).subject
      == "[" + comm.subject + "] [" + version + "] " + subject
  {
  }

  // --------------------------------------------------------------- shipping

  /**
   * The PI a project belongs to: its last '_' field, lowercased, with
   * 'cabezas-wallscheid' shortened to 'cabezas'.
   */
  function PiOf(project: string): (pi: string)
    ensures '_' !in pi && NoUpper(pi)
  {
    var low := Lower(LastField(project, '_'));
    LowerAvoids(LastField(project, '_'), '_');
    Shorten(low, "cabezas-wallscheid", "cabezas")
  }

  /** `low.replace(pat, rep)`, which keeps a lower-case '_'-free name so. */
  function Shorten(low: string, pat: string, rep: string): (r: string)
    requires '_' !in low && NoUpper(low) && '_' !in rep && NoUpper(rep)
    ensures '_' !in r && NoUpper(r)
  {
    ReplaceAllAvoids(low, pat, rep, '_');
    ReplaceAllNoUpper(low, pat, rep);
    ReplaceAll(low, pat, rep)
  }

  /** A lower-case last field is the PI as it stands. */
  lemma PiOfPlain(head: string, pi: string)
    requires '_' !in pi && NoUpper(pi) && !Contains(pi, "cabezas-wallscheid")
    ensures PiOf(head + "_" + pi) == pi
  {
    SplitLastAfter(head, '_', pi);
    SplitWithoutSeparator(pi, '_');
    assert Lower(pi) == pi;
    ReplaceAllAbsent(pi, "cabezas-wallscheid", "cabezas");
  }

  lemma LowerCabezas()
    ensures Lower("Cabezas-Wallscheid") == "cabezas-wallscheid"
  {
  }

  /** A last field that lowercases to 'cabezas-wallscheid' gives the PI 'cabezas'. */
  lemma PiOfCabezas(head: string, name: string)
    requires '_' !in name && Lower(name) == "cabezas-wallscheid"
    ensures PiOf(head + "_" + name) == "cabezas"
  {
    SplitLastAfter(head, '_', name);
    SplitWithoutSeparator(name, '_');
    ReplaceAllHead("cabezas-wallscheid", "", "cabezas");
    assert "cabezas-wallscheid" + "" == "cabezas-wallscheid";
  }

  /** The FASTQC folder that goes with a project folder. */
  function FqcName(project: string): string
  {
    ReplaceAll(project, "Project_", "FASTQC_Project_")
  }

  /** The tarball `fexUpload` sends: '<lane>_<project>.tar'. */
  function FexTarball(outLane: string, project: string): (t: string)
    ensures |t| == |outLane| + |project| + 5
  {
    outLane + "_" + project + ".tar"
  }

  /**
   * `fexUpload`'s status: 'Replaced' when the tarball is among the
   * space-separated entries `fexsend -l` lists, 'Uploaded' otherwise.
   */
  function FexUpload(outLane: string, project: string, listing: string): (status: string)
    ensures status == "Replaced" <==> FexTarball(outLane, project) in Split(ReplaceAll(listing, "\n", " "), ' ')
    ensures status == "Uploaded" || status == "Replaced"
  {
    if FexTarball(outLane, project) in Split(ReplaceAll(listing, "\n", " "), ' ') then "Replaced" else "Uploaded"
  }

  /** A listing naming the tarball among its entries makes the upload a replacement. */
  lemma FexUploadListed(outLane: string, project: string, entries: seq<string>)
    requires FexTarball(outLane, project) in entries
    requires forall i :: 0 <= i < |entries| ==> ' ' !in entries[i] && '\n' !in entries[i]
    ensures FexUpload(outLane, project, Join(entries, " ")) == "Replaced"
  {
    JoinAvoids(entries, " ", '\n');
    ReplaceCharAbsent(Join(entries, " "), '\n', " ");
    SplitJoin(entries, ' ');
  }

  lemma {:induction false} JoinAvoids(parts: seq<string>, sep: string, d: char)
    requires d !in sep
    requires forall i :: 0 <= i < |parts| ==> d !in parts[i]
    ensures d !in Join(parts, sep)
    decreases |parts|
  {
    if |parts| > 1 {
      JoinAvoids(parts[1..], sep, d);
    }
  }

  const Copied := "Copied"
  const Replaced := "Replaced"
  const IgnoredByConfig := "Ignored( by config)"
  const NotShipped := "No"
  /** `sys.exit()` after a copy that raised OSError. */
  const CopyExit := "SystemExit"

  /** A `shipDic` value: a status word, or [replaceStatus, '<n>GB free']. */
  datatype ShipStatus = Word(word: string) | Pair(replaceStatus: string, space: string)

  /**
   * What shipping sees. `pis` is the configured PI list as text (it is
   * searched with `in`), `latest` the directory `fetchLatestSeqDir` picks
   * for a PI (or its error), `present` the paths that exist before
   * shipping, `failing` the destinations whose copy raises OSError, `free`
   * the free gigabytes at a destination, `listing` what `fexsend -l` prints.
   */
  datatype ShipEnv = ShipEnv(pis: string, fex: bool, latest: string -> Result<string>,
                             present: set<string>, failing: set<string>, free: string -> nat,
                             listing: string)

  predicate Internal(env: ShipEnv, project: string)
  {
    Contains(env.pis, PiOf(project))
  }

  /**
   * One project's shipping. An internal PI's FASTQC folder and project
   * folder are copied under <latest seq dir>/<lane>, 'Replaced' if either
   * destination existed, 'Copied' otherwise; a failed copy exits. Other
   * projects are ignored when fex is off and uploaded otherwise.
   */
  function ShipProject(env: ShipEnv, outLane: string, project: string): (r: Result<ShipStatus>)
    ensures r.Ok? && Internal(env, project) ==> r.value.Pair? && r.value.replaceStatus in {Copied, Replaced}
    ensures r.Ok? && !Internal(env, project) ==> r.value.Word? && r.value.word != NotShipped
  {
    if Internal(env, project) then
      match env.latest(PiOf(project))
      case Err(e) => Err(e)
      case Ok(seqDir) =>
        var base := RunDir.PathJoin(seqDir, outLane);
        var fqcDest := RunDir.PathJoin(base, FqcName(project));
        var projectDest := RunDir.PathJoin(base, project);
        if fqcDest in env.failing || projectDest in env.failing then Err(CopyExit)
        else
          var replaced := fqcDest in env.present || projectDest in env.present + {fqcDest};
          Ok(Pair(if replaced then Replaced else Copied, NatToString(env.free(base)) + "GB free"))
    else if !env.fex then Ok(Word(IgnoredByConfig))
    else Ok(Word(FexUpload(outLane, project, env.listing)))
  }

  /** An internal project is reported 'Replaced' exactly when a destination was already there. */
  lemma ShipReplacedIff(env: ShipEnv, outLane: string, project: string, seqDir: string)
    requires Internal(env, project) && env.latest(PiOf(project)) == Ok(seqDir)
    requires ShipProject(env, outLane, project).Ok?
    ensures ShipProject(env, outLane, project).value.replaceStatus == Replaced <==>
      (RunDir.PathJoin(RunDir.PathJoin(seqDir, outLane), FqcName(project)) in env.present
       || RunDir.PathJoin(RunDir.PathJoin(seqDir, outLane), project) in env.present
       || FqcName(project) == project)
  {
    RunDir.PathJoinInjective(RunDir.PathJoin(seqDir, outLane), FqcName(project), project);
  }

  /**
   * `shipFiles` over the project folders of a lane: each project first
   * gets 'No', then its status; the first failed copy or failed directory
   * choice ends the run.
   */
  method ShipFiles(env: ShipEnv, outLane: string, projects: seq<string>)
    returns (r: Result<map<string, ShipStatus>>)
    ensures r.Err? <==> exists k :: 0 <= k < |projects| && ShipProject(env, outLane, projects[k]).Err?
    ensures r.Err? ==> exists k :: (0 <= k < |projects| && ShipProject(env, outLane, projects[k]) == Err(r.reason)
                                    && forall i :: 0 <= i < k ==> ShipProject(env, outLane, projects[i]).Ok?)
    ensures r.Ok? ==> r.value.Keys == set p | p in projects
    ensures r.Ok? ==> forall p :: p in r.value ==> Ok(r.value[p]) == ShipProject(env, outLane, p)
  {
    r := FillShipDic(projects, p => ShipProject(env, outLane, p));
  }

  /** The `shipDic` loop for any per-project step. */
  method FillShipDic(projects: seq<string>, ship: string -> Result<ShipStatus>)
    returns (r: Result<map<string, ShipStatus>>)
    ensures r.Err? <==> exists k :: 0 <= k < |projects| && ship(projects[k]).Err?
    ensures r.Err? ==> exists k :: (0 <= k < |projects| && ship(projects[k]) == Err(r.reason)
                                    && forall i :: 0 <= i < k ==> ship(projects[i]).Ok?)
    ensures r.Ok? ==> r.value.Keys == set p | p in projects
    ensures r.Ok? ==> forall p :: p in r.value ==> Ok(r.value[p]) == ship(p)
  {
    var shipDic: map<string, ShipStatus> := map[];
    var k := 0;
    while k < |projects|
      invariant 0 <= k <= |projects|
      invariant forall i :: 0 <= i < k ==> ship(projects[i]).Ok?
      invariant shipDic.Keys == set p | p in projects[..k]
      invariant forall p :: p in shipDic ==> Ok(shipDic[p]) == ship(p)
    {
      var project := projects[k];
      shipDic := shipDic[project := Word(NotShipped)];
      var status := ship(project);
      if status.Err? {
        return Err(status.reason);
      }
      shipDic := shipDic[project := status.value];
      assert projects[..k + 1] == projects[..k] + [project];
      k := k + 1;
    }
    assert projects[..k] == projects;
    r := Ok(shipDic);
  }
}
