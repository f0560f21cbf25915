// The output directory of a flow cell as the pipeline sees it: the folders
// it has made, the stage marker files it has touched, the demux sheets it
// has written, the external tool runs it has launched and the mails it has
// sent (subject, message). Every stage reads and extends this state.
module RunDir {
  import opened Wrappers
  import opened Records

  /** A marker file: (output folder, file name), e.g. ("FC_lanes_1", "bclconvert.done"). */
  type Marker = (string, string)

  const BclConvertDone := "bclconvert.done"
  const PostmuxDone := "postmux.done"
  const RenamedDone := "renamed.done"
  const CommunicationDone := "communication.done"

  /** `os.path.join(a, b)` for a relative `b`. */
  function PathJoin(a: string, b: string): string
  {
    if a == "" || a[|a| - 1] == '/' then a + b else a + "/" + b
  }

  /** Two names joined to the same directory are the same path only if they are the same name. */
  lemma PathJoinInjective(dir: string, a: string, b: string)
    ensures PathJoin(dir, a) == PathJoin(dir, b) <==> a == b
  {
    var prefix := if dir == "" || dir[|dir| - 1] == '/' then dir else dir + "/";
    if PathJoin(dir, a) == PathJoin(dir, b) {
      assert a == (prefix + a)[|prefix|..];
      assert b == (prefix + b)[|prefix|..];
    }
  }

  /** The output directory, updated in place by the stages. */
  class OutputDir {
    var folders: set<string>
    var markers: set<Marker>
    var sheets: map<string, seq<string>>
    var launches: seq<seq<string>>
    var mails: seq<(string, string)>

    constructor(folders: set<string>, markers: set<Marker>, sheets: map<string, seq<string>>)
      ensures this.folders == folders && this.markers == markers && this.sheets == sheets
      ensures launches == [] && mails == []
    {
      this.folders := folders;
      this.markers := markers;
      this.sheets := sheets;
      launches := [];
      mails := [];
    }

    function State(): DirState
      reads this
    {
      DirState(folders, markers, sheets, launches, mails)
    }
  }

  /** A snapshot of an `OutputDir`, for the functions that specify the stages. */
  datatype DirState = DirState(
    folders: set<string>,
    markers: set<Marker>,
    sheets: map<string, seq<string>>,
    launches: seq<seq<string>>,
    mails: seq<(string, string)>)

  /** The state a stage works on: the entries of `ssDic`, in order, and the output directory. */
  datatype Stage = Stage(entries: seq<OutLane>, dir: DirState)

  /**
   * The `for outLane in ssDic` loop of a stage: `step` on folders `k`,
   * `k + 1`, ... (`n` of them); an exception in one folder ends the loop.
   */
  function EachFolder(st: Stage, k: nat, n: nat, step: (Stage, nat) -> (Stage, Result<()>)): (Stage, Result<()>)
    decreases n
  {
    if n == 0 then (st, Ok(()))
    else
      var r := step(st, k);
      if r.1.Err? then r else EachFolder(r.0, k + 1, n - 1, step)
  }

  /** The folders from `k` on. */
  function FoldersFrom(entries: seq<OutLane>, k: nat): set<string>
  {
    set j | k <= j < |entries| :: entries[j].name
  }

  /** No marker is removed, and every new one is one of `names` in one of `folders`. */
  predicate NewMarkersWithin(before: set<Marker>, after: set<Marker>, folders: set<string>, names: set<string>)
  {
    && before <= after
    && forall mk :: mk in after && mk !in before ==> mk.0 in folders && mk.1 in names
  }

  /** A folder step keeps the entries' folders and adds only markers of the folder it works on. */
  predicate StepMarks(step: (Stage, nat) -> (Stage, Result<()>), s: Stage, j: nat, names: set<string>)
  {
    var s1 := step(s, j).0;
    && |s1.entries| == |s.entries|
    && (forall i :: 0 <= i < |s.entries| ==> s1.entries[i].name == s.entries[i].name)
    && NewMarkersWithin(s.dir.markers, s1.dir.markers, if j < |s.entries| then {s.entries[j].name} else {}, names)
  }

  lemma FoldersFromLater(a: seq<OutLane>, b: seq<OutLane>, k: nat)
    requires |a| == |b| && forall j :: 0 <= j < |a| ==> a[j].name == b[j].name
    ensures FoldersFrom(b, k + 1) <= FoldersFrom(a, k)
  {
    forall f | f in FoldersFrom(b, k + 1)
      ensures f in FoldersFrom(a, k)
    {
      var j :| k + 1 <= j < |b| && b[j].name == f;
      assert a[j].name == f;
    }
  }

  /**
   * A stage whose folder step adds only markers of the folder it works on
   * keeps every marker and adds only markers of the folders it visits.
   */
  lemma {:induction false} EachFolderMarkers(st: Stage, k: nat, n: nat, step: (Stage, nat) -> (Stage, Result<()>), names: set<string>)
    requires forall s: Stage, j: nat :: StepMarks(step, s, j, names)
    ensures NewMarkersWithin(st.dir.markers, EachFolder(st, k, n, step).0.dir.markers, FoldersFrom(st.entries, k), names)
    decreases n
  {
    if n > 0 {
      var r := step(st, k);
      assert StepMarks(step, st, k, names);
      if r.1.Ok? {
        EachFolderMarkers(r.0, k + 1, n - 1, step, names);
        FoldersFromLater(st.entries, r.0.entries, k);
        var last := EachFolder(r.0, k + 1, n - 1, step).0;
        forall mk | mk in last.dir.markers && mk !in st.dir.markers
          ensures mk.0 in FoldersFrom(st.entries, k) && mk.1 in names
        {
          if mk in r.0.dir.markers {
            assert k < |st.entries| && mk.0 == st.entries[k].name;
          }
        }
      } else {
        forall mk | mk in r.0.dir.markers && mk !in st.dir.markers
          ensures mk.0 in FoldersFrom(st.entries, k)
        {
          assert k < |st.entries| && mk.0 == st.entries[k].name;
        }
      }
    }
  }
}
