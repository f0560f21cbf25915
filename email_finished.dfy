// The "your project is finished" mail (src/tools/emailProjectFinished.py):
// project IDs and PI from the project folder names, the sequencing_data
// directory holding the flow cell, and the message composed from them.
module EmailFinished {
  import opened Wrappers
  import opened Text

  const AssertionFailed := "AssertionError"
  const UnboundPI := "UnboundLocalError: cannot access local variable 'PI' where it is not associated with a value"
  const ListIndexError := "IndexError: list index out of range"
  const UnknownUser := "SystemExit: User is not known or does not have an email!\n"
  const UnknownSender := "SystemExit: Sender is not known or does not have an email!\n"
  const MainArity := "TypeError: main() takes 0 positional arguments but 1 was given"

  // The message's fixed wording.
  const Hi := "Hi "
  const YourSamples := ",\n\nYour sequencing samples for project"
  const AreFinished := " are finished and the results are now available in your group's "
  const Directory := " directory"
  const UnderThe := " under the "
  const Folder := " folder.\n"
  const QualityGood := "The overall sequencing quality for these samples was good."
  const AnalysisAvailable := "\nAn automated partial analysis (https://doi.org/10.1093/bioinformatics/btz436) is available in the same location. \n"
    + "If you would like completed analysis in a semi-automated fashion, please request that using our online portal: http://snakequest.ie-freiburg.mpg.de .\n"
  const Rule := "\n===\n"
  // The source's line continuation keeps eight spaces before the line break.
  const AnyQuestions := "\nPlease let me know if you have any other questions,        \n"
  const SignatureRule := "\n--\n"

  // ------------------------------------------------------------ getProjectIDs

  predicate IsProject(p: string) { "Project_" <= p }

  lemma ProjectHasUnderscore(p: string)
    requires IsProject(p)
    ensures '_' in p && |Split(p, '_')| >= 2
  {
    assert p[7] == '_';
    SplitAtLeastTwo(p, '_');
  }

  /** `p.split("_")[1]`: the request ID of a project folder. */
  function ProjectID(p: string): (id: string)
    requires IsProject(p)
    ensures '_' !in id
  {
    ProjectHasUnderscore(p);
    Split(p, '_')[1]
  }

  /** The ID is the field after 'Project_', whatever follows it. */
  lemma ProjectIDOf(id: string, rest: string)
    requires '_' !in id
    ensures IsProject("Project_" + id + "_" + rest) && ProjectID("Project_" + id + "_" + rest) == id
  {
    var p := "Project_" + id + "_" + rest;
    assert p == "Project" + "_" + (id + "_" + rest);
    assert p[..8] == "Project_";
    SplitAtFirstSeparator("Project", id + "_" + rest, '_');
    SplitAtFirstSeparator(id, rest, '_');
  }

  /** `p.split("_")[-1].split("-")[0].lower()`: a compound surname's first part. */
  function ProjectPI(p: string): (pi: string)
    ensures '_' !in pi && '-' !in pi && NoUpper(pi)
  {
    var surname := Split(LastField(p, '_'), '-')[0];
    SplitAvoids(LastField(p, '_'), '-', '_');
    LowerAvoids(surname, '_');
    LowerAvoids(surname, '-');
    Lower(surname)
  }

  /** The PI is the lower-cased surname before the first '-' of the last field. */
  lemma ProjectPIOf(head: string, surname: string, rest: string)
    requires '_' !in surname && '-' !in surname && '_' !in rest
    ensures ProjectPI(head + "_" + surname + "-" + rest) == Lower(surname)
  {
    var last := surname + "-" + rest;
    assert head + "_" + surname + "-" + rest == head + "_" + last;
    SplitLastAfter(head, '_', last);
    SplitWithoutSeparator(last, '_');
    SplitAtFirstSeparator(surname, rest, '-');
  }

  /** The IDs as the mail names them: one alone, several as 'a, b and c'. */
  function JoinIDs(ids: seq<string>): string
    requires |ids| > 0
  {
    if |ids| == 1 then ids[0] else Join(ids[..|ids| - 1], ", ") + " and " + ids[|ids| - 1]
  }

  /**
   * Reading the joined IDs back: the text after the final ' and ' is the
   * last ID, and the text before it splits on ', ' into the others.
   */
  lemma JoinIDsRecovers(ids: seq<string>)
    requires |ids| >= 2
    requires forall i :: 0 <= i < |ids| ==> ',' !in ids[i]
    ensures var t := JoinIDs(ids);
      var k := |t| - |ids[|ids| - 1]| - 5;
      0 <= k && t[k..k + 5] == " and " && t[k + 5..] == ids[|ids| - 1] && SplitOn(t[..k], ", ") == ids[..|ids| - 1]
  {
    var n := |ids| - 1;
    var front := Join(ids[..n], ", ");
    var t := JoinIDs(ids);
    assert t == front + " and " + ids[n];
    var k := |front|;
    assert t[..k] == front && t[k..k + 5] == " and " && t[k + 5..] == ids[n];
    SplitOnJoin(ids[..n], ", ");
  }

  /** The folder names' request IDs in order. */
  function ProjectIDs(projects: seq<string>): (ids: seq<string>)
    requires forall i :: 0 <= i < |projects| ==> IsProject(projects[i])
    ensures |ids| == |projects|
  {
    seq(|projects|, i requires 0 <= i < |projects| => ProjectID(projects[i]))
  }

  /** `glob(...)[0].split('/')[-2]`: the sequencing_data directory of the first match. */
  function SeqDirOfMatch(matches: seq<string>): (r: Result<string>)
    ensures r.Err? <==> matches == [] || '/' !in matches[0]
  {
    if matches == [] then Err(ListIndexError)
    else
      var parts := Split(matches[0], '/');
      if |parts| < 2 then
        (if '/' in matches[0] then SplitAtLeastTwo(matches[0], '/'); Err(ListIndexError) else Err(ListIndexError))
      else
        assert '/' in matches[0] by {
          if '/' !in matches[0] {
            SplitWithoutSeparator(matches[0], '/');
          }
        }
        Ok(parts[|parts| - 2])
  }

  /** A match `<dir>/<seqDir>/<flowcell>` names `<seqDir>`. */
  lemma SeqDirOfMatchOf(dir: string, seqDir: string, flowcell: string, more: seq<string>)
    requires '/' !in seqDir && '/' !in flowcell
    ensures SeqDirOfMatch([dir + "/" + seqDir + "/" + flowcell] + more) == Ok(seqDir)
  {
    var tail := seqDir + "/" + flowcell;
    assert dir + "/" + seqDir + "/" + flowcell == dir + "/" + tail;
    SplitConcat(dir, '/', tail);
    SplitAtFirstSeparator(seqDir, flowcell, '/');
    SplitWithoutSeparator(flowcell, '/');
  }

  /** What `getProjectIDs` returns, as `GetProjectIDs` computes it folder by folder. */
  function ProjectIDsOf(projects: seq<string>, matchesOf: string -> seq<string>): Result<(string, string)>
  {
    if exists i :: 0 <= i < |projects| && !IsProject(projects[i]) then Err(AssertionFailed)
    else if projects == [] then Err(UnboundPI)
    else
      match SeqDirOfMatch(matchesOf(ProjectPI(projects[|projects| - 1])))
      case Err(e) => Err(e)
      case Ok(seqdir) => Ok((JoinIDs(ProjectIDs(projects)), seqdir))
  }

  /**
   * `getProjectIDs`: every folder must start 'Project_' (else the
   * AssertionError of the first that does not); the IDs joined for the
   * mail and the sequencing_data directory that holds the flow cell under
   * the last project's PI, `matchesOf(PI)` being that glob's matches.
   */
  method GetProjectIDs(projects: seq<string>, matchesOf: string -> seq<string>) returns (r: Result<(string, string)>)
    ensures (exists i :: 0 <= i < |projects| && !IsProject(projects[i])) ==> r == Err(AssertionFailed)
    ensures (forall i :: 0 <= i < |projects| ==> IsProject(projects[i])) ==>
      if projects == [] then r == Err(UnboundPI)
      else
        var seqdir := SeqDirOfMatch(matchesOf(ProjectPI(projects[|projects| - 1])));
        (seqdir.Err? ==> r == Err(seqdir.reason))
        && (seqdir.Ok? ==> r == Ok((JoinIDs(ProjectIDs(projects)), seqdir.value)))
    ensures r == ProjectIDsOf(projects, matchesOf)
  {
    var ids: seq<string> := [];
    var pi: Option<string> := None;
    var k := 0;
    while k < |projects|
      invariant 0 <= k <= |projects|
      invariant forall i :: 0 <= i < k ==> IsProject(projects[i])
      invariant ids == ProjectIDs(projects[..k])
      invariant pi == if k == 0 then None else Some(ProjectPI(projects[k - 1]))
    {
      var p := projects[k];
      if !IsProject(p) {
        return Err(AssertionFailed);
      }
      ids := ids + [ProjectID(p)];
      pi := Some(ProjectPI(p));
      k := k + 1;
    }
    assert projects[..k] == projects;
    if pi.None? {
      return Err(UnboundPI);
    }
    var seqdir := SeqDirOfMatch(matchesOf(pi.value));
    if seqdir.Err? {
      return Err(seqdir.reason);
    }
    r := Ok((JoinIDs(ids), seqdir.value));
  }

  /** `os.path.split(os.getcwd())[-1]`: the flow cell is the working directory's name. */
  function FlowCellOf(cwd: string): (r: string)
    ensures '/' !in r
  {
    LastField(cwd, '/')
  }

  lemma FlowCellOfPath(parent: string, name: string)
    requires '/' !in name
    ensures FlowCellOf(parent + "/" + name) == name
  {
    SplitLastAfter(parent, '/', name);
    SplitWithoutSeparator(name, '/');
  }

  // -------------------------------------------------------------------- main

  /** The command line; an empty string stands for an option not given. */
  datatype FinishedArgs = FinishedArgs(
    projects: seq<string>, notGood: bool, analysis: bool, cc: seq<string>, comment: string,
    fromPerson: string, fromEmail: string, fromSignature: string, toEmail: string, toName: string)

  /** What the script finds around it: folders, files, the Parkour contact and the config. */
  datatype FinishedEnv = FinishedEnv(
    existing: set<string>,                  // paths that exist
    files: map<string, string>,             // readable files and their contents
    contact: string -> Result<(string, string)>,  // Parkour's first name and email for a request ID
    matchesOf: string -> seq<string>,       // <piDir>/<PI>/<seqDir>*/<flowcell> matches
    cwd: string,
    bioinfoCore: string)

  datatype FinishedMail = FinishedMail(subject: string, from: string, to: string, cc: Option<string>, bcc: string, content: string)

  /** The first project folder that does not exist. */
  function FirstMissing(projects: seq<string>, existing: set<string>): (r: Option<nat>)
    ensures r.None? <==> forall i :: 0 <= i < |projects| ==> projects[i] in existing
    ensures r.Some? ==>
      r.value < |projects| && projects[r.value] !in existing && forall i :: 0 <= i < r.value ==> projects[i] in existing
    decreases |projects|
  {
    if projects == [] then None
    else if projects[0] !in existing then Some(0)
    else
      match FirstMissing(projects[1..], existing)
      case None =>
        assert forall i :: 1 <= i < |projects| ==> projects[i] == projects[1..][i - 1];
        None
      case Some(k) =>
        assert forall i :: 1 <= i <= k + 1 ==> projects[i] == projects[1..][i - 1];
        Some(k + 1)
  }

  /** The opening through the project list: 'project' or 'projects' as there are one or several. */
  function Opening(firstName: string, several: bool): string
  {
    Hi + firstName + YourSamples + (if several then "s" else "")
  }

  /** The text of pieces appended one after the other. */
  function Concat(parts: seq<string>): string
    decreases |parts|
  {
    if parts == [] then "" else parts[0] + Concat(parts[1..])
  }

  /** The pieces `main` appends to the message with `+=`, in order. */
  function Pieces(args: FinishedArgs, env: FinishedEnv, firstName: string, ids: string, seqdir: string): seq<string>
  {
    [Opening(firstName, |args.projects| > 1), Announcement(ids, seqdir), Location(env.cwd),
     QualityNote(args.notGood), AnalysisNote(args.analysis), CommentBlock(args.comment, env.files),
     SignOff(args.fromPerson), Signature(args.fromSignature, env.files)]
  }

  /** The message body. */
  function Content(args: FinishedArgs, env: FinishedEnv, firstName: string, ids: string, seqdir: string): string
  {
    Concat(Pieces(args, env, firstName, ids, seqdir))
  }

  /** The IDs and the group's directory; it opens with a space after 'project(s)'. */
  function Announcement(ids: string, seqdir: string): (a: string)
    ensures |a| > 0 && a[0] == ' '
  {
    " " + ids + AreFinished + seqdir + Directory
  }

  function Location(cwd: string): string
  {
    UnderThe + FlowCellOf(cwd) + Folder
  }

  function QualityNote(notGood: bool): string
  {
    if notGood then "" else QualityGood
  }

  function AnalysisNote(analysis: bool): string
  {
    if analysis then
      AnalysisAvailable
    else ""
  }

  /** The comment between '===' lines: the file's text when the comment names a file, else the comment itself. */
  function CommentBlock(comment: string, files: map<string, string>): string
  {
    if comment == "" then ""
    else Rule + (if comment in files then files[comment] else comment) + Rule
  }

  /** The sign-off. */
  function SignOff(fromPerson: string): string
  {
    AnyQuestions + fromPerson + "\n"
  }

  function Signature(fromSignature: string, files: map<string, string>): string
  {
    if fromSignature != "" && fromSignature in files then SignatureRule + files[fromSignature] else ""
  }

  /** The addressee: the names given on the command line, else Parkour's contact of the first project. */
  function Recipient(args: FinishedArgs, env: FinishedEnv): (r: Result<(string, string)>)
    requires args.projects != []
    ensures args.toEmail != "" && args.toName != "" ==> r == Ok((args.toName, args.toEmail))
  {
    if args.toEmail == "" || args.toName == "" then
      match Field(args.projects[0], '_', 1)
      case None => Err(ListIndexError)
      case Some(id) => env.contact(id)
    else Ok((args.toName, args.toEmail))
  }

  /**
   * What `main` would send: checks that every project folder exists, that
   * the addressee and the sender are known, then composes the mail to the
   * first project's user, copied to the --cc addresses and blind-copied to
   * the core; the project IDs and the group's directory are looked up
   * while the text is written, after those checks.
   */
  function Finished(args: FinishedArgs, env: FinishedEnv): (r: Result<FinishedMail>)
    requires args.projects != []
    ensures FirstMissing(args.projects, env.existing).Some? ==>
      r == Err("SystemExit: Project folder " + args.projects[FirstMissing(args.projects, env.existing).value] + " not found.")
    ensures r.Ok? ==>
      FirstMissing(args.projects, env.existing).None? && args.fromPerson != "" && args.fromEmail != ""
      && r.value.subject == "Sequencing samples ready - " + args.projects[0]
      && r.value.from == args.fromEmail && r.value.bcc == env.bioinfoCore
      && (r.value.cc.Some? <==> args.cc != []) && r.value.to != ""
    ensures r.Ok? ==>
      var ids := ProjectIDsOf(args.projects, env.matchesOf);
      var who := Recipient(args, env);
      ids.Ok? && who.Ok? && who.value.0 != "" && r.value.to == who.value.1
      && r.value.content == Content(args, env, who.value.0, ids.value.0, ids.value.1)
    ensures r.Ok? && args.toEmail != "" && args.toName != "" ==> r.value.to == args.toEmail
    ensures (FirstMissing(args.projects, env.existing).None? && Recipient(args, env).Ok?
             && Recipient(args, env).value.0 != "" && Recipient(args, env).value.1 != ""
             && args.fromPerson != "" && args.fromEmail != "")
      ==> (r.Ok? <==> ProjectIDsOf(args.projects, env.matchesOf).Ok?)
  {
    match FirstMissing(args.projects, env.existing)
    case Some(k) => Err("SystemExit: Project folder " + args.projects[k] + " not found.")
    case None =>
      match Recipient(args, env)
      case Err(e) => Err(e)
      case Ok((firstName, email)) =>
        if firstName == "" || email == "" then Err(UnknownUser)
        else if args.fromPerson == "" || args.fromEmail == "" then Err(UnknownSender)
        else
          match ProjectIDsOf(args.projects, env.matchesOf)
          case Err(e) => Err(e)
          case Ok((ids, seqdir)) =>
            Ok(Compose(args, env, firstName, email, ids, seqdir))
  }

  /** The mail itself, once every check has passed. */
  function Compose(args: FinishedArgs, env: FinishedEnv, firstName: string, email: string, ids: string, seqdir: string): (m: FinishedMail)
    requires args.projects != []
  {
    FinishedMail("Sequencing samples ready - " + args.projects[0], args.fromEmail, email,
      if args.cc != [] then Some(Join(args.cc, ", ")) else None, env.bioinfoCore,
      Content(args, env, firstName, ids, seqdir))
  }

  lemma PluralPrefix(o: string, rest: string)
    ensures o + "s" <= o + "s" + rest
    ensures rest != [] && rest[0] != 's' ==> !(o + "s" <= o + rest)
  {
    if rest != [] && rest[0] != 's' {
      assert (o + rest)[|o|] != (o + "s")[|o|];
    }
  }

  /** The mail says 'projects' exactly when several projects are finished. */
  lemma ContentPlural(args: FinishedArgs, env: FinishedEnv, firstName: string, ids: string, seqdir: string)
    ensures Opening(firstName, true) <= Content(args, env, firstName, ids, seqdir) <==> |args.projects| > 1
  {
    var ps := Pieces(args, env, firstName, ids, seqdir);
    var rest := Concat(ps[1..]);
    assert rest == ps[1] + Concat(ps[2..]);
    var o := Opening(firstName, false);
    assert Opening(firstName, true) == o + "s";
    PluralPrefix(o, rest);
    if |args.projects| > 1 {
      assert Content(args, env, firstName, ids, seqdir) == o + "s" + rest;
    } else {
      assert Content(args, env, firstName, ids, seqdir) == o + rest;
    }
  }

  /** The mail names the flow cell folder the working directory is. */
  lemma ContentNamesFlowCell(args: FinishedArgs, env: FinishedEnv, firstName: string, ids: string, seqdir: string)
    ensures Contains(Content(args, env, firstName, ids, seqdir), UnderThe + FlowCellOf(env.cwd) + Folder)
  {
    var ps := Pieces(args, env, firstName, ids, seqdir);
    assert Concat(ps) == ps[0] + Concat(ps[1..]);
    assert Concat(ps[1..]) == ps[1] + Concat(ps[2..]);
    assert Concat(ps[2..]) == ps[2] + Concat(ps[3..]);
    assert Concat(ps) == (ps[0] + ps[1]) + ps[2] + Concat(ps[3..]);
    ContainsMiddle(ps[0] + ps[1], ps[2], Concat(ps[3..]));
  }

  /** The mail greets the addressee by first name. */
  lemma ContentGreets(args: FinishedArgs, env: FinishedEnv, firstName: string, ids: string, seqdir: string)
    ensures Hi + firstName + YourSamples <= Content(args, env, firstName, ids, seqdir)
  {
    var ps := Pieces(args, env, firstName, ids, seqdir);
    assert Concat(ps) == ps[0] + Concat(ps[1..]);
    assert ps[0] == Hi + firstName + YourSamples + (if |args.projects| > 1 then "s" else "");
  }

  /** The text of pieces holds each piece between the text of those before and after it. */
  lemma {:induction false} ConcatAt(ps: seq<string>, k: nat)
    requires k < |ps|
    ensures Concat(ps) == Concat(ps[..k]) + ps[k] + Concat(ps[k + 1..])
    decreases k
  {
    if k == 0 {
      assert ps[..0] == [];
    } else {
      ConcatAt(ps[1..], k - 1);
      assert ps[1..][..k - 1] == ps[1..k] && ps[1..][k - 1] == ps[k] && ps[1..][k..] == ps[k + 1..];
      assert ps[..k][1..] == ps[1..k];
    }
  }

  /** A comment that names no file is quoted between '===' lines. */
  lemma ContentQuotesComment(args: FinishedArgs, env: FinishedEnv, firstName: string, ids: string, seqdir: string)
    requires args.comment != "" && args.comment !in env.files
    ensures Contains(Content(args, env, firstName, ids, seqdir), Rule + args.comment + Rule)
  {
    var ps := Pieces(args, env, firstName, ids, seqdir);
    assert ps[5] == Rule + args.comment + Rule;
    ConcatAt(ps, 5);
    ContainsMiddle(Concat(ps[..5]), ps[5], Concat(ps[6..]));
  }

  /**
   * The script as written calls `main(sys.argv[1:])`, but `main` takes no
   * arguments: every run stops with a TypeError before any check or mail.
   */
  function ScriptAsWritten(argv: seq<string>): Result<FinishedMail>
  {
    Err(MainArity)
  }

  /**
   * Run as `python emailProjectFinished.py ...`, no command line gets the
   * script as written to send anything, whereas `Finished` sends for valid ones.
   */
  lemma ScriptNeverSends(argv: seq<string>, args: FinishedArgs, env: FinishedEnv)
    requires args.projects != [] && forall i :: 0 <= i < |args.projects| ==> args.projects[i] in env.existing
    requires args.toEmail != "" && args.toName != "" && args.fromPerson != "" && args.fromEmail != ""
    requires ProjectIDsOf(args.projects, env.matchesOf).Ok?
    ensures ScriptAsWritten(argv).Err?
    ensures Finished(args, env).Ok?
  {
  }
}
