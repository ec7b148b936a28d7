/**
 * `install_package` (`crates/openvhost-pkg/src/install.rs`), `install_dir` (`layout.rs`) and the unix `current`
 * swap, for any number of processes. Every filesystem call is one step; a failure or a crash is possible before
 * each of them. The directory an install works in is its own staging directory (module `Staging`).
 */
module Install {
  import opened Prelude

  type Bytes = seq<bv8>
  type Tree = map<string, Bytes>

  datatype Format = TarGz | Zip

  /** SHA-256 and archive extraction, left uninterpreted. */
  datatype World = World(sha: Bytes -> string, extract: (Format, Bytes) -> Option<Tree>)

  datatype Series = Series(name: string, major: string)

  /** One entry of a major directory. */
  datatype Place = Place(series: Series, child: string)

  datatype Entry = DirOf(tree: Tree) | LinkTo(version: string)

  datatype Req = Req(series: Series, version: string, format: Format, pinned: string)

  datatype Error = AlreadyInstalled | HashMismatch | BadArchive | LinkRefused | Io

  datatype PC =
    | Queued
    | Entered
    | Staged
    | Verified
    | Extracted
    | DestChecked
    | Renamed
    | LinkChecked
    | Done
    | Failed(error: Error)
    | Crashed

  /** `archive` and `staged` are the contents of the staging directory; `placed` remembers a successful rename. */
  datatype Job = Job(process: nat, req: Req, pc: PC, archive: Bytes, staged: Tree, placed: bool)

  /** `taken` holds the processes whose one permit is out. `placedBy` is history. */
  datatype State = State(fs: map<Place, Entry>, jobs: seq<Job>, taken: set<nat>, dead: set<nat>,
                         placedBy: map<Place, nat>)

  const EMPTY := State(map[], [], {}, {}, map[])

  datatype Act =
    | Request(process: nat, req: Req)
    | Acquire(i: nat)
    | CheckAbsent(i: nat)
    | Fetch(i: nat, chunk: Bytes)
    | Verify(i: nat)
    | ExtractSome(i: nat, partial: Tree)
    | Extract(i: nat)
    | CheckDest(i: nat)
    | Rename(i: nat)
    | CheckLink(i: nat)
    | SwapLink(i: nat)
    | Fail(i: nat)
    | Crash(process: nat)

  function VersionDir(r: Req): Place {
    Place(r.series, r.version)
  }

  function Current(series: Series): Place {
    Place(series, "current")
  }

  predicate IsDir(fs: map<Place, Entry>, p: Place) {
    p in fs && fs[p].DirOf?
  }

  /** `Path::exists` follows a link. */
  predicate Exists(fs: map<Place, Entry>, p: Place) {
    p in fs && (fs[p].DirOf? || IsDir(fs, Place(p.series, fs[p].version)))
  }

  /** Between taking the permit and giving it back. */
  predicate Active(pc: PC) {
    !pc.Queued? && !pc.Done? && !pc.Failed? && !pc.Crashed?
  }

  predicate JobAt(s: State, i: nat, pc: PC) {
    i < |s.jobs| && s.jobs[i].pc == pc
  }

  predicate Can(s: State, a: Act) {
    match a
    case Request(process, _) => process !in s.dead
    case Acquire(i) => JobAt(s, i, Queued) && s.jobs[i].process !in s.taken
    case CheckAbsent(i) => JobAt(s, i, Entered)
    case Fetch(i, _) => JobAt(s, i, Staged)
    case Verify(i) => JobAt(s, i, Staged)
    case ExtractSome(i, _) => JobAt(s, i, Verified)
    case Extract(i) => JobAt(s, i, Verified)
    case CheckDest(i) => JobAt(s, i, Extracted)
    case Rename(i) => JobAt(s, i, DestChecked)
    case CheckLink(i) => JobAt(s, i, Renamed)
    case SwapLink(i) => JobAt(s, i, LinkChecked)
    case Fail(i) => i < |s.jobs| && Active(s.jobs[i].pc)
    case Crash(process) => process !in s.dead
  }

  function With(s: State, i: nat, job: Job): State
    requires i < |s.jobs|
  {
    s.(jobs := s.jobs[i := job])
  }

  function Step(s: State, i: nat, pc: PC): State
    requires i < |s.jobs|
  {
    With(s, i, s.jobs[i].(pc := pc))
  }

  /** Finished one way or the other: the permit goes back. */
  function End(s: State, i: nat, pc: PC): State
    requires i < |s.jobs|
  {
    Step(s, i, pc).(taken := s.taken - {s.jobs[i].process})
  }

  function DoExtract(w: World, s: State, i: nat): State
    requires i < |s.jobs|
  {
    match w.extract(s.jobs[i].req.format, s.jobs[i].archive)
    case None => End(s, i, Failed(BadArchive))
    case Some(tree) => With(s, i, s.jobs[i].(pc := Extracted, staged := tree))
  }

  /** `rename(2)` of a directory: it replaces nothing but an empty directory. */
  function DoRename(s: State, i: nat): State
    requires i < |s.jobs|
  {
    var p := VersionDir(s.jobs[i].req);
    if p !in s.fs || s.fs[p] == DirOf(map[]) then
      With(s, i, s.jobs[i].(pc := Renamed, placed := true)).
      (fs := s.fs[p := DirOf(s.jobs[i].staged)], placedBy := s.placedBy[p := i])
    else
      End(s, i, Failed(if s.fs[p].DirOf? then AlreadyInstalled else Io))
  }

  /** The rename of the temporary link: over a link or nothing, never over a directory. */
  function DoSwapLink(s: State, i: nat): State
    requires i < |s.jobs|
  {
    var p := Current(s.jobs[i].req.series);
    if IsDir(s.fs, p) then End(s, i, Failed(Io))
    else End(s, i, Done).(fs := s.fs[p := LinkTo(s.jobs[i].req.version)])
  }

  function CrashedJob(j: Job, process: nat): Job {
    if j.process == process && (Active(j.pc) || j.pc.Queued?) then j.(pc := Crashed) else j
  }

  function DoCrash(s: State, process: nat): State {
    s.(jobs := seq(|s.jobs|, i requires 0 <= i < |s.jobs| => CrashedJob(s.jobs[i], process)), dead := s.dead + {process})
  }

  function Do(w: World, s: State, a: Act): State
    requires Can(s, a)
  {
    match a
    case Request(process, req) => s.(jobs := s.jobs + [Job(process, req, Queued, [], map[], false)])
    case Acquire(i) => Step(s, i, Entered).(taken := s.taken + {s.jobs[i].process})
    case CheckAbsent(i) =>
      if Exists(s.fs, VersionDir(s.jobs[i].req)) then End(s, i, Failed(AlreadyInstalled)) else Step(s, i, Staged)
    case Fetch(i, chunk) => With(s, i, s.jobs[i].(archive := s.jobs[i].archive + chunk))
    case Verify(i) =>
      if w.sha(s.jobs[i].archive) == s.jobs[i].req.pinned then Step(s, i, Verified)
      else End(s, i, Failed(HashMismatch))
    case ExtractSome(i, partial) => With(s, i, s.jobs[i].(staged := partial))
    case Extract(i) => DoExtract(w, s, i)
    case CheckDest(i) =>
      if Exists(s.fs, VersionDir(s.jobs[i].req)) then End(s, i, Failed(AlreadyInstalled)) else Step(s, i, DestChecked)
    case Rename(i) => DoRename(s, i)
    case CheckLink(i) =>
      if IsDir(s.fs, Current(s.jobs[i].req.series)) then End(s, i, Failed(LinkRefused)) else Step(s, i, LinkChecked)
    case SwapLink(i) => DoSwapLink(s, i)
    case Fail(i) => End(s, i, Failed(Io))
    case Crash(process) => DoCrash(s, process)
  }

  ghost function ExecFrom(w: World, s: State, acts: seq<Act>): Option<State>
    decreases |acts|
  {
    if acts == [] then Some(s)
    else if !Can(s, acts[0]) then None
    else ExecFrom(w, Do(w, s, acts[0]), acts[1..])
  }

  ghost predicate Reached(w: World, s: State) {
    exists acts :: ExecFrom(w, EMPTY, acts) == Some(s)
  }

  // ---- what every step keeps ----

  /** The staged tree is the whole extraction of bytes of the pinned digest. */
  predicate Complete(w: World, j: Job) {
    w.sha(j.archive) == j.req.pinned && w.extract(j.req.format, j.archive) == Some(j.staged)
  }

  predicate JobOk(w: World, j: Job) {
    && (j.pc.Verified? ==> w.sha(j.archive) == j.req.pinned)
    && (j.pc.Extracted? || j.pc.DestChecked? || j.placed ==> Complete(w, j))
    && (j.pc.Renamed? || j.pc.LinkChecked? || j.pc.Done? ==> j.placed)
    && (j.placed ==> j.pc.Renamed? || j.pc.LinkChecked? || j.pc.Done? || j.pc.Failed? || j.pc.Crashed?)
    && (j.pc.Failed? ==> BlameOk(w, j, j.pc.error))
  }

  /** What a reported failure says about the install it ended. */
  predicate BlameOk(w: World, j: Job, error: Error) {
    match error
    case HashMismatch => !j.placed && w.sha(j.archive) != j.req.pinned
    case BadArchive => !j.placed && w.sha(j.archive) == j.req.pinned && w.extract(j.req.format, j.archive).None?
    case AlreadyInstalled => !j.placed
    case LinkRefused => j.placed
    case Io => true
  }

  /** Every directory is some placed job's complete tree; every link is a `current` that names a directory. */
  predicate EntryOk(s: State, p: Place)
    requires p in s.fs
  {
    match s.fs[p]
    case DirOf(tree) =>
      && p in s.placedBy && s.placedBy[p] < |s.jobs|
      && s.jobs[s.placedBy[p]].placed
      && VersionDir(s.jobs[s.placedBy[p]].req) == p
      && s.jobs[s.placedBy[p]].staged == tree
    case LinkTo(version) => p.child == "current" && IsDir(s.fs, Place(p.series, version))
  }

  /** A placed job's directory is there, with its own tree unless that was empty; a finished one's `current` is a link. */
  predicate PlacedOk(s: State, i: nat)
    requires i < |s.jobs|
  {
    var p := VersionDir(s.jobs[i].req);
    && (s.jobs[i].placed ==> IsDir(s.fs, p) && (s.jobs[i].staged != map[] ==> p in s.placedBy && s.placedBy[p] == i))
    && (s.jobs[i].pc.Done? ==>
          Current(s.jobs[i].req.series) in s.fs && s.fs[Current(s.jobs[i].req.series)].LinkTo?)
  }

  predicate Together(a: Job, b: Job) {
    Active(a.pc) && Active(b.pc) && a.process == b.process
  }

  predicate PermitOk(s: State, i: nat)
    requires i < |s.jobs|
  {
    && (Active(s.jobs[i].pc) ==> s.jobs[i].process in s.taken)
    && (Active(s.jobs[i].pc) || s.jobs[i].pc.Queued? ==> s.jobs[i].process !in s.dead)
    && forall j :: 0 <= j < |s.jobs| && Together(s.jobs[i], s.jobs[j]) ==> j == i
  }

  predicate Holds(s: State, i: nat, process: nat) {
    i < |s.jobs| && Active(s.jobs[i].pc) && s.jobs[i].process == process
  }

  /** A permit that is out is out for an install still under way. */
  ghost predicate ReturnsOk(s: State) {
    forall p :: p in s.taken && p !in s.dead ==> exists i: nat :: Holds(s, i, p)
  }

  ghost predicate JobsOk(w: World, s: State) {
    forall i :: 0 <= i < |s.jobs| ==> JobOk(w, s.jobs[i])
  }

  ghost predicate EntriesOk(s: State) {
    forall p :: p in s.fs ==> EntryOk(s, p)
  }

  ghost predicate PlacementsOk(s: State) {
    forall i :: 0 <= i < |s.jobs| ==> PlacedOk(s, i)
  }

  /** The filesystem half of the invariant. */
  ghost predicate FilesOk(s: State) {
    EntriesOk(s) && PlacementsOk(s)
  }

  ghost predicate PermitsOk(s: State) {
    forall i :: 0 <= i < |s.jobs| ==> PermitOk(s, i)
  }

  ghost predicate Inv(w: World, s: State) {
    JobsOk(w, s) && FilesOk(s) && PermitsOk(s) && ReturnsOk(s)
  }

  /** `s'` is `s` after job `i` moved: no other job changed, and the permit went with it. */
  predicate Moved(s: State, s': State, i: nat) {
    && i < |s.jobs| == |s'.jobs|
    && s'.dead == s.dead
    && s'.jobs == s.jobs[i := s'.jobs[i]]
    && s'.jobs[i].process == s.jobs[i].process
    && s'.jobs[i].req == s.jobs[i].req
    && var p := s.jobs[i].process;
       match (Active(s.jobs[i].pc), Active(s'.jobs[i].pc))
       case (true, true) => s'.taken == s.taken
       case (true, false) => !s'.jobs[i].pc.Queued? && s'.taken == s.taken - {p}
       case (false, true) => s.jobs[i].pc.Queued? && p !in s.taken && s'.taken == s.taken + {p}
       case (false, false) => false
  }

  predicate Writes(a: Act) {
    a.Rename? || a.SwapLink?
  }

  lemma WritersMove(s: State, i: nat)
    ensures Can(s, Rename(i)) ==> Moved(s, DoRename(s, i), i)
    ensures Can(s, SwapLink(i)) ==> Moved(s, DoSwapLink(s, i), i)
  {
  }

  lemma EachMoves(w: World, s: State, a: Act)
    requires Can(s, a) && !a.Request? && !a.Crash?
    ensures Moved(s, Do(w, s, a), a.i)
  {
    if Writes(a) {
      WritersMove(s, a.i);
    }
  }

  /** Once placed, a job's request, archive and tree are settled. */
  lemma PlacedIsFinal(w: World, s: State, a: Act, i: nat)
    requires JobsOk(w, s) && Can(s, a) && i < |s.jobs|
    ensures i < |Do(w, s, a).jobs|
    ensures Do(w, s, a).jobs[i].req == s.jobs[i].req
    ensures s.jobs[i].placed ==>
              Do(w, s, a).jobs[i] == s.jobs[i].(pc := Do(w, s, a).jobs[i].pc)
  {
    if !a.Request? && !a.Crash? {
      EachMoves(w, s, a);
      assert JobOk(w, s.jobs[a.i]);
    }
  }

  lemma OwnJobOk(w: World, s: State, a: Act)
    requires JobsOk(w, s) && Can(s, a) && !a.Request? && !a.Crash?
    ensures a.i < |Do(w, s, a).jobs| && JobOk(w, Do(w, s, a).jobs[a.i])
  {
    assert JobOk(w, s.jobs[a.i]);
  }

  lemma KeepsJobsOk(w: World, s: State, a: Act)
    requires JobsOk(w, s) && Can(s, a)
    ensures JobsOk(w, Do(w, s, a))
  {
    var s' := Do(w, s, a);
    if !a.Request? && !a.Crash? {
      EachMoves(w, s, a);
      OwnJobOk(w, s, a);
    }
    forall i | 0 <= i < |s'.jobs| ensures JobOk(w, s'.jobs[i]) {
      assert i < |s.jobs| ==> JobOk(w, s.jobs[i]);
    }
  }

  lemma OthersLeavePlaced(w: World, s: State, a: Act)
    requires Can(s, a) && !Writes(a) && !a.Request? && !a.Crash?
    ensures a.i < |Do(w, s, a).jobs| && Do(w, s, a).jobs[a.i].placed == s.jobs[a.i].placed
  {
  }

  lemma OthersLeaveFs(w: World, s: State, a: Act)
    requires Can(s, a) && !Writes(a)
    ensures Do(w, s, a).fs == s.fs && Do(w, s, a).placedBy == s.placedBy
  {
  }

  lemma OthersLeaveFiles(w: World, s: State, a: Act)
    requires Can(s, a) && !Writes(a)
    ensures Do(w, s, a).fs == s.fs && Do(w, s, a).placedBy == s.placedBy
    ensures forall i :: 0 <= i < |s.jobs| ==> i < |Do(w, s, a).jobs| && Do(w, s, a).jobs[i].placed == s.jobs[i].placed
    ensures forall i :: |s.jobs| <= i < |Do(w, s, a).jobs| ==> !Do(w, s, a).jobs[i].placed
  {
    OthersLeaveFs(w, s, a);
    if !a.Request? && !a.Crash? {
      EachMoves(w, s, a);
      OthersLeavePlaced(w, s, a);
    }
  }

  lemma OthersKeepFiles(w: World, s: State, a: Act)
    requires JobsOk(w, s) && FilesOk(s) && Can(s, a) && !Writes(a)
    ensures FilesOk(Do(w, s, a))
  {
    var s' := Do(w, s, a);
    OthersLeaveFiles(w, s, a);
    forall p | p in s'.fs ensures EntryOk(s', p) {
      assert EntryOk(s, p);
      if s.fs[p].DirOf? {
        PlacedIsFinal(w, s, a, s.placedBy[p]);
      }
    }
    forall i | 0 <= i < |s'.jobs| ensures PlacedOk(s', i) {
      if i < |s.jobs| {
        assert PlacedOk(s, i);
        PlacedIsFinal(w, s, a, i);
      }
    }
  }

  lemma RenameKeepsEntries(w: World, s: State, i: nat)
    requires JobsOk(w, s) && FilesOk(s) && Can(s, Rename(i))
    ensures EntriesOk(DoRename(s, i))
  {
    var s' := DoRename(s, i);
    assert JobOk(w, s.jobs[i]);
    forall p | p in s'.fs ensures EntryOk(s', p) {
      assert p in s.fs ==> EntryOk(s, p);
    }
  }

  lemma RenameKeepsPlacement(w: World, s: State, i: nat, j: nat)
    requires JobsOk(w, s) && FilesOk(s) && Can(s, Rename(i)) && j < |s.jobs|
    ensures PlacedOk(DoRename(s, i), j)
  {
    var own := VersionDir(s.jobs[i].req);
    assert PlacedOk(s, j) && JobOk(w, s.jobs[i]);
    if own in s.fs {
      assert EntryOk(s, own);
    }
    if j != i {
      assert DoRename(s, i).jobs[j] == s.jobs[j];
    }
  }

  lemma RenameKeepsPlacements(w: World, s: State, i: nat)
    requires JobsOk(w, s) && FilesOk(s) && Can(s, Rename(i))
    ensures PlacementsOk(DoRename(s, i))
  {
    forall j | 0 <= j < |DoRename(s, i).jobs| ensures PlacedOk(DoRename(s, i), j) {
      RenameKeepsPlacement(w, s, i, j);
    }
  }

  lemma SwapKeepsEntries(w: World, s: State, i: nat)
    requires JobsOk(w, s) && FilesOk(s) && Can(s, SwapLink(i))
    ensures EntriesOk(DoSwapLink(s, i))
  {
    var s' := DoSwapLink(s, i);
    assert JobOk(w, s.jobs[i]) && PlacedOk(s, i);
    forall p | p in s'.fs ensures EntryOk(s', p) {
      assert p in s.fs ==> EntryOk(s, p);
    }
  }

  lemma SwapKeepsPlacements(w: World, s: State, i: nat)
    requires JobsOk(w, s) && FilesOk(s) && Can(s, SwapLink(i))
    ensures PlacementsOk(DoSwapLink(s, i))
  {
    var s' := DoSwapLink(s, i);
    forall j | 0 <= j < |s'.jobs| ensures PlacedOk(s', j) {
      assert PlacedOk(s, j);
    }
  }

  lemma KeepsFilesOk(w: World, s: State, a: Act)
    requires JobsOk(w, s) && FilesOk(s) && Can(s, a)
    ensures FilesOk(Do(w, s, a))
  {
    match a
    case Rename(i) =>
      RenameKeepsEntries(w, s, i);
      RenameKeepsPlacements(w, s, i);
    case SwapLink(i) =>
      SwapKeepsEntries(w, s, i);
      SwapKeepsPlacements(w, s, i);
    case _ => OthersKeepFiles(w, s, a);
  }

  lemma MovedKeepsPermits(s: State, s': State, i: nat)
    requires PermitsOk(s) && Moved(s, s', i)
    ensures PermitsOk(s')
  {
    assert PermitOk(s, i);
    forall k | 0 <= k < |s'.jobs| ensures PermitOk(s', k) {
      assert PermitOk(s, k);
      forall j | 0 <= j < |s'.jobs| && Together(s'.jobs[k], s'.jobs[j]) ensures j == k {
        assert PermitOk(s, j);
        if k != i && j != i {
          assert Together(s.jobs[k], s.jobs[j]);
        } else if k != j {
          assert Active(s.jobs[i].pc) ==> Together(s.jobs[k], s.jobs[j]);
        }
      }
    }
  }

  lemma MovedKeepsReturns(s: State, s': State, i: nat)
    requires ReturnsOk(s) && Moved(s, s', i)
    ensures ReturnsOk(s')
  {
    forall p | p in s'.taken && p !in s'.dead ensures exists k: nat :: Holds(s', k, p) {
      if Active(s'.jobs[i].pc) && p == s'.jobs[i].process {
        assert Holds(s', i, p);
      } else {
        var k: nat :| Holds(s, k, p);
        assert Holds(s', k, p);
      }
    }
  }

  lemma KeepsReturnsOk(w: World, s: State, a: Act)
    requires ReturnsOk(s) && Can(s, a)
    ensures ReturnsOk(Do(w, s, a))
  {
    var s' := Do(w, s, a);
    if !a.Request? && !a.Crash? {
      EachMoves(w, s, a);
      MovedKeepsReturns(s, s', a.i);
    } else {
      forall p | p in s'.taken && p !in s'.dead ensures exists k: nat :: Holds(s', k, p) {
        var k: nat :| Holds(s, k, p);
        assert Holds(s', k, p);
      }
    }
  }

  lemma KeepsPermitsOk(w: World, s: State, a: Act)
    requires PermitsOk(s) && Can(s, a)
    ensures PermitsOk(Do(w, s, a))
  {
    var s' := Do(w, s, a);
    if !a.Request? && !a.Crash? {
      EachMoves(w, s, a);
      MovedKeepsPermits(s, s', a.i);
    } else {
      forall k | 0 <= k < |s'.jobs| ensures PermitOk(s', k) {
        assert k < |s.jobs| ==> PermitOk(s, k);
        forall j | 0 <= j < |s'.jobs| && Together(s'.jobs[k], s'.jobs[j]) ensures j == k {
          assert j < |s.jobs| && k < |s.jobs| && Together(s.jobs[k], s.jobs[j]);
        }
      }
    }
  }

  lemma StepKeepsInv(w: World, s: State, a: Act)
    requires Inv(w, s) && Can(s, a)
    ensures Inv(w, Do(w, s, a))
  {
    KeepsJobsOk(w, s, a);
    KeepsFilesOk(w, s, a);
    KeepsPermitsOk(w, s, a);
    KeepsReturnsOk(w, s, a);
  }

  lemma {:induction false} RunKeepsInv(w: World, s: State, acts: seq<Act>)
    requires Inv(w, s) && ExecFrom(w, s, acts).Some?
    ensures Inv(w, ExecFrom(w, s, acts).value)
    decreases |acts|
  {
    if acts != [] {
      StepKeepsInv(w, s, acts[0]);
      RunKeepsInv(w, Do(w, s, acts[0]), acts[1..]);
    }
  }

  lemma ReachedInv(w: World, s: State)
    requires Reached(w, s)
    ensures Inv(w, s)
  {
    var acts :| ExecFrom(w, EMPTY, acts) == Some(s);
    RunKeepsInv(w, EMPTY, acts);
  }

  // ---- what an install leaves behind ----

  /** A directory that exists is the whole extraction of bytes of the digest pinned by a request for it. */
  lemma VersionDirsAreComplete(w: World, s: State, p: Place)
    requires Reached(w, s) && IsDir(s.fs, p)
    ensures exists i :: 0 <= i < |s.jobs| && VersionDir(s.jobs[i].req) == p && Complete(w, s.jobs[i])
                        && s.fs[p] == DirOf(s.jobs[i].staged)
  {
    ReachedInv(w, s);
    assert EntryOk(s, p);
    assert JobOk(w, s.jobs[s.placedBy[p]]);
  }

  /** A link is a `current` and names a directory beside it. */
  lemma CurrentNamesADir(w: World, s: State, p: Place)
    requires Reached(w, s) && p in s.fs && s.fs[p].LinkTo?
    ensures p == Current(p.series) && IsDir(s.fs, Place(p.series, s.fs[p].version))
  {
    ReachedInv(w, s);
    assert EntryOk(s, p);
  }

  /** `current` is a directory instead of a link exactly when version "current" itself was installed. */
  lemma CurrentIsDirIff(w: World, s: State, series: Series)
    requires Reached(w, s)
    ensures IsDir(s.fs, Current(series))
            <==> exists i :: 0 <= i < |s.jobs| && s.jobs[i].placed && VersionDir(s.jobs[i].req) == Current(series)
  {
    ReachedInv(w, s);
    if IsDir(s.fs, Current(series)) {
      assert EntryOk(s, Current(series));
    }
    forall i | 0 <= i < |s.jobs| && s.jobs[i].placed && VersionDir(s.jobs[i].req) == Current(series)
      ensures IsDir(s.fs, Current(series))
    {
      assert PlacedOk(s, i);
    }
  }

  /** What is at `p`, if anything. */
  function At(fs: map<Place, Entry>, p: Place): Option<Entry> {
    if p in fs then Some(fs[p]) else None
  }

  /** One step touches only the job's own version directory, absent or empty before, and its own `current`. */
  lemma StepTouchesOwnPlaces(w: World, s: State, a: Act, p: Place)
    requires Can(s, a)
    requires At(s.fs, p) != At(Do(w, s, a).fs, p)
    ensures
      || (a.Rename? && p == VersionDir(s.jobs[a.i].req) && (p !in s.fs || s.fs[p] == DirOf(map[]))
          && Do(w, s, a).jobs[a.i].placed)
      || (a.SwapLink? && p == Current(s.jobs[a.i].req.series) && !IsDir(s.fs, p) && Do(w, s, a).jobs[a.i].pc.Done?)
  {
    if !Writes(a) {
      OthersLeaveFiles(w, s, a);
    }
  }

  lemma DirStays(w: World, s: State, a: Act, p: Place)
    requires Can(s, a) && IsDir(s.fs, p) && s.fs[p].tree != map[]
    ensures At(Do(w, s, a).fs, p) == At(s.fs, p)
  {
    if At(s.fs, p) != At(Do(w, s, a).fs, p) {
      StepTouchesOwnPlaces(w, s, a, p);
    }
  }

  /** Nothing any process does, finished, failed or crashed, changes a non-empty version directory. */
  lemma {:induction false} VersionDirsNeverChange(w: World, s: State, acts: seq<Act>, p: Place)
    requires IsDir(s.fs, p) && s.fs[p].tree != map[]
    requires ExecFrom(w, s, acts).Some?
    ensures IsDir(ExecFrom(w, s, acts).value.fs, p) && ExecFrom(w, s, acts).value.fs[p] == s.fs[p]
    decreases |acts|
  {
    if acts != [] {
      DirStays(w, s, acts[0], p);
      VersionDirsNeverChange(w, Do(w, s, acts[0]), acts[1..], p);
    }
  }

  /** Job `i` renamed its tree onto `p`, or swapped the `current` at `p`, in the steps from `s` to `t`. */
  predicate WrittenBy(s: State, t: State, p: Place, i: nat) {
    && i < |t.jobs|
    && (|| (t.jobs[i].placed && !(i < |s.jobs| && s.jobs[i].placed) && VersionDir(t.jobs[i].req) == p)
        || (t.jobs[i].pc.Done? && !(i < |s.jobs| && s.jobs[i].pc.Done?) && Current(t.jobs[i].req.series) == p))
  }

  /** Over any run: what changed at `p` was done by a job that, in that run, got past its rename or finished. */
  lemma {:induction false} ChangesComeFromFinishers(w: World, s: State, acts: seq<Act>, p: Place)
    requires Inv(w, s) && ExecFrom(w, s, acts).Some?
    requires At(s.fs, p) != At(ExecFrom(w, s, acts).value.fs, p)
    ensures exists i: nat :: WrittenBy(s, ExecFrom(w, s, acts).value, p, i)
    decreases |acts|
  {
    var next := Do(w, s, acts[0]);
    var t := ExecFrom(w, s, acts).value;
    StepKeepsInv(w, s, acts[0]);
    if At(s.fs, p) != At(next.fs, p) {
      StepTouchesOwnPlaces(w, s, acts[0], p);
      var i := acts[0].i;
      assert JobOk(w, s.jobs[i]);
      FinishedStays(w, next, acts[1..], i);
      assert WrittenBy(s, t, p, i);
    } else {
      ChangesComeFromFinishers(w, next, acts[1..], p);
      var i: nat :| WrittenBy(next, t, p, i);
      if i < |s.jobs| {
        PlacedIsFinal(w, s, acts[0], i);
        if s.jobs[i].pc.Done? {
          DoneStays(w, s, acts[0], i);
        }
      }
      assert WrittenBy(s, t, p, i);
    }
  }

  lemma DoneStays(w: World, s: State, a: Act, i: nat)
    requires Can(s, a) && i < |s.jobs| && s.jobs[i].pc.Done?
    ensures i < |Do(w, s, a).jobs| && Do(w, s, a).jobs[i] == s.jobs[i]
  {
    if !a.Request? && !a.Crash? {
      EachMoves(w, s, a);
    }
  }

  lemma {:induction false} FinishedStays(w: World, s: State, acts: seq<Act>, i: nat)
    requires Inv(w, s) && i < |s.jobs| && ExecFrom(w, s, acts).Some?
    ensures var t := ExecFrom(w, s, acts).value;
            && i < |t.jobs|
            && t.jobs[i].req == s.jobs[i].req
            && (s.jobs[i].placed ==> t.jobs[i].placed)
            && (s.jobs[i].pc.Done? ==> t.jobs[i].pc.Done?)
    decreases |acts|
  {
    if acts != [] {
      StepKeepsInv(w, s, acts[0]);
      PlacedIsFinal(w, s, acts[0], i);
      if s.jobs[i].pc.Done? {
        DoneStays(w, s, acts[0], i);
      }
      FinishedStays(w, Do(w, s, acts[0]), acts[1..], i);
    }
  }

  /** Two installs of the same version, of any digests, never both put a non-empty tree in place. */
  lemma AtMostOneWins(w: World, s: State, i: nat, j: nat)
    requires Reached(w, s) && i < |s.jobs| && j < |s.jobs|
    requires s.jobs[i].placed && s.jobs[j].placed && VersionDir(s.jobs[i].req) == VersionDir(s.jobs[j].req)
    requires s.jobs[i].staged != map[] && s.jobs[j].staged != map[]
    ensures i == j
  {
    ReachedInv(w, s);
    assert PlacedOk(s, i) && PlacedOk(s, j);
  }

  /**
   * A reported success stays true: the version directory holds the complete tree of this request, or, if that was
   * empty, of another for the same version; and `current` is a link to a directory of the series.
   */
  lemma DoneIsInstalled(w: World, s: State, i: nat)
    requires Reached(w, s) && i < |s.jobs| && s.jobs[i].pc.Done?
    ensures Complete(w, s.jobs[i]) && IsDir(s.fs, VersionDir(s.jobs[i].req))
    ensures s.jobs[i].staged != map[] ==> s.fs[VersionDir(s.jobs[i].req)] == DirOf(s.jobs[i].staged)
    ensures exists j :: 0 <= j < |s.jobs| && VersionDir(s.jobs[j].req) == VersionDir(s.jobs[i].req)
                        && Complete(w, s.jobs[j]) && s.fs[VersionDir(s.jobs[i].req)] == DirOf(s.jobs[j].staged)
    ensures var p := Current(s.jobs[i].req.series);
            p in s.fs && s.fs[p].LinkTo? && IsDir(s.fs, Place(p.series, s.fs[p].version))
  {
    ReachedInv(w, s);
    assert JobOk(w, s.jobs[i]) && PlacedOk(s, i) && EntryOk(s, VersionDir(s.jobs[i].req));
    VersionDirsAreComplete(w, s, VersionDir(s.jobs[i].req));
    CurrentNamesADir(w, s, Current(s.jobs[i].req.series));
  }

  /** At most one install is past its permit in any one process, and a permit is out only while one is. */
  lemma OneInstallPerProcess(w: World, s: State, process: nat)
    requires Reached(w, s)
    ensures forall i: nat, j: nat :: Holds(s, i, process) && Holds(s, j, process) ==> i == j
    ensures process !in s.dead ==> (process in s.taken <==> exists i: nat :: Holds(s, i, process))
  {
    ReachedInv(w, s);
    forall i: nat, j: nat | Holds(s, i, process) && Holds(s, j, process) ensures i == j {
      assert PermitOk(s, i) && Together(s.jobs[i], s.jobs[j]);
    }
    forall i: nat | Holds(s, i, process) ensures process in s.taken {
      assert PermitOk(s, i);
    }
  }

  lemma DoneOnlyBySwap(w: World, s: State, a: Act, i: nat)
    requires Can(s, a) && i < |Do(w, s, a).jobs| && Do(w, s, a).jobs[i].pc.Done?
    ensures i < |s.jobs|
    ensures s.jobs[i].pc.Done? || (a == SwapLink(i) && !IsDir(s.fs, Current(s.jobs[i].req.series)))
  {
    if !a.Request? && !a.Crash? {
      EachMoves(w, s, a);
    }
  }

  /** A directory is never turned into anything else. */
  lemma DirStaysDir(w: World, s: State, a: Act, p: Place)
    requires Can(s, a) && IsDir(s.fs, p)
    ensures IsDir(Do(w, s, a).fs, p)
  {
    if At(s.fs, p) != At(Do(w, s, a).fs, p) {
      StepTouchesOwnPlaces(w, s, a, p);
    }
  }

  /** Once `current` is a directory, no later install of the series can ever succeed. */
  lemma {:induction false} CurrentVersionJamsSeries(w: World, s: State, acts: seq<Act>, i: nat)
    requires Inv(w, s) && ExecFrom(w, s, acts).Some?
    requires i < |ExecFrom(w, s, acts).value.jobs| && ExecFrom(w, s, acts).value.jobs[i].pc.Done?
    requires IsDir(s.fs, Current(ExecFrom(w, s, acts).value.jobs[i].req.series))
    ensures i < |s.jobs| && s.jobs[i].pc.Done?
    decreases |acts|
  {
    if acts != [] {
      var next := Do(w, s, acts[0]);
      StepKeepsInv(w, s, acts[0]);
      DirStaysDir(w, s, acts[0], Current(ExecFrom(w, s, acts).value.jobs[i].req.series));
      CurrentVersionJamsSeries(w, next, acts[1..], i);
      FinishedStays(w, next, acts[1..], i);
      DoneOnlyBySwap(w, s, acts[0], i);
      PlacedIsFinal(w, s, acts[0], i);
    }
  }

  /** A run in which no job got past its rename leaves every version directory and every `current` as it was. */
  lemma UnfinishedLeavesFilesAlone(w: World, s: State, acts: seq<Act>)
    requires Reached(w, s) && ExecFrom(w, s, acts).Some?
    requires var t := ExecFrom(w, s, acts).value;
             forall i: nat :: i < |t.jobs| && t.jobs[i].placed ==> i < |s.jobs| && s.jobs[i].placed && s.jobs[i] == t.jobs[i]
    ensures ExecFrom(w, s, acts).value.fs == s.fs
  {
    ReachedInv(w, s);
    RunKeepsInv(w, s, acts);
    var t := ExecFrom(w, s, acts).value;
    forall p ensures At(s.fs, p) == At(t.fs, p) {
      forall i: nat ensures !WrittenBy(s, t, p, i) {
        assert i < |t.jobs| ==> JobOk(w, t.jobs[i]);
      }
      if At(s.fs, p) != At(t.fs, p) {
        ChangesComeFromFinishers(w, s, acts, p);
      }
    }
    SameEverywhere(s.fs, t.fs);
  }

  lemma SameEverywhere(a: map<Place, Entry>, b: map<Place, Entry>)
    requires forall p :: At(a, p) == At(b, p)
    ensures a == b
  {
    forall p ensures p in a <==> p in b {
      assert At(a, p) == At(b, p);
    }
    forall p | p in a ensures a[p] == b[p] {
      assert At(a, p) == At(b, p);
    }
  }

  /** What each failure of job `i` is reported for, and nothing else, when step `a` takes it to `pc`. */
  predicate FailsFor(w: World, s: State, a: Act, i: nat, pc: PC)
    requires i < |s.jobs|
  {
    var j, p := s.jobs[i], VersionDir(s.jobs[i].req);
    && (pc == Failed(HashMismatch) <==> a == Verify(i) && w.sha(j.archive) != j.req.pinned)
    && (pc == Failed(BadArchive) <==> a == Extract(i) && w.extract(j.req.format, j.archive) == None)
    && (pc == Failed(AlreadyInstalled) <==>
          || ((a == CheckAbsent(i) || a == CheckDest(i)) && p in s.fs)
          || (a == Rename(i) && p in s.fs && s.fs[p].DirOf? && s.fs[p].tree != map[]))
    && (pc == Failed(LinkRefused) <==> a == CheckLink(i) && IsDir(s.fs, Current(j.req.series)))
  }

  /** At every step of a reached state. */
  lemma FailureIff(w: World, s: State, a: Act, i: nat)
    requires Reached(w, s) && Can(s, a) && i < |s.jobs| && !s.jobs[i].pc.Failed?
    ensures i < |Do(w, s, a).jobs| && FailsFor(w, s, a, i, Do(w, s, a).jobs[i].pc)
  {
    ReachedInv(w, s);
    if a.Request? || a.Crash? || a.i != i {
      OthersNeverFail(w, s, a, i);
    } else {
      ExistsIffThere(s, VersionDir(s.jobs[i].req));
      OwnFailure(w, s, a);
    }
  }

  lemma ExistsIffThere(s: State, p: Place)
    requires EntriesOk(s)
    ensures Exists(s.fs, p) <==> p in s.fs
  {
    if p in s.fs {
      assert EntryOk(s, p);
    }
  }

  lemma OthersNeverFail(w: World, s: State, a: Act, i: nat)
    requires Can(s, a) && i < |s.jobs| && !s.jobs[i].pc.Failed? && (a.Request? || a.Crash? || a.i != i)
    ensures i < |Do(w, s, a).jobs| && !Do(w, s, a).jobs[i].pc.Failed?
  {
    if !a.Request? && !a.Crash? {
      EachMoves(w, s, a);
    }
  }

  lemma OwnFailure(w: World, s: State, a: Act)
    requires Can(s, a) && !a.Request? && !a.Crash?
    requires Exists(s.fs, VersionDir(s.jobs[a.i].req)) <==> VersionDir(s.jobs[a.i].req) in s.fs
    ensures FailsFor(w, s, a, a.i, Do(w, s, a).jobs[a.i].pc)
  {
    if Writes(a) {
      WriterFailure(w, s, a);
    }
  }

  lemma WriterFailure(w: World, s: State, a: Act)
    requires Can(s, a) && Writes(a)
    ensures FailsFor(w, s, a, a.i, Do(w, s, a).jobs[a.i].pc)
  {
  }

  /** And what it means afterwards: a hash mismatch is one, a bad archive has the pinned hash and does not extract. */
  lemma FailureMeans(w: World, s: State, i: nat)
    requires Reached(w, s) && i < |s.jobs| && s.jobs[i].pc.Failed?
    ensures var j := s.jobs[i];
            && (j.pc.error.HashMismatch? ==> w.sha(j.archive) != j.req.pinned)
            && (j.pc.error.BadArchive? ==>
                  w.sha(j.archive) == j.req.pinned && w.extract(j.req.format, j.archive).None?)
            && (j.pc.error.HashMismatch? || j.pc.error.BadArchive? || j.pc.error.AlreadyInstalled? ==> !j.placed)
            && (j.pc.error.LinkRefused? ==> j.placed && IsDir(s.fs, VersionDir(j.req)))
  {
    ReachedInv(w, s);
    assert JobOk(w, s.jobs[i]) && PlacedOk(s, i);
  }

  /** Success is reported exactly when `current` has just come to name this install's own, complete directory. */
  lemma SuccessIffCurrentNamesOwn(w: World, s: State, i: nat)
    requires Reached(w, s) && Can(s, SwapLink(i))
    ensures var t := Do(w, s, SwapLink(i));
            var r := s.jobs[i].req;
            && (t.jobs[i].pc.Done? <==> At(t.fs, Current(r.series)) == Some(LinkTo(r.version)))
            && (t.jobs[i].pc.Done? ==> IsDir(t.fs, VersionDir(r)) && VersionDir(r) != Current(r.series))
            && Complete(w, t.jobs[i])
  {
    ReachedInv(w, s);
    assert JobOk(w, s.jobs[i]) && PlacedOk(s, i);
  }

  // ---- what an install can do when left alone ----

  lemma {:induction false} Then(w: World, s: State, acts: seq<Act>, a: Act)
    requires ExecFrom(w, s, acts).Some? && Can(ExecFrom(w, s, acts).value, a)
    ensures ExecFrom(w, s, acts + [a]) == Some(Do(w, ExecFrom(w, s, acts).value, a))
    decreases |acts|
  {
    if acts == [] {
      assert (acts + [a])[1..] == [] && (acts + [a])[0] == a;
      assert ExecFrom(w, Do(w, s, a), []) == Some(Do(w, s, a));
    } else {
      assert (acts + [a])[1..] == acts[1..] + [a];
      Then(w, Do(w, s, acts[0]), acts[1..], a);
    }
  }

  /** The permit is free, nothing is in the way, and the bytes served are the pinned archive of `tree`. */
  predicate Installable(w: World, s: State, process: nat, req: Req, bytes: Bytes, tree: Tree) {
    && process !in s.dead && process !in s.taken
    && VersionDir(req) !in s.fs
    && w.sha(bytes) == req.pinned
    && w.extract(req.format, bytes) == Some(tree)
  }

  function Ready(s: State, process: nat, req: Req, bytes: Bytes, tree: Tree): State {
    s.(jobs := s.jobs + [Job(process, req, DestChecked, bytes, tree, false)], taken := s.taken + {process})
  }

  lemma Fetched(w: World, s: State, process: nat, req: Req, bytes: Bytes, tree: Tree) returns (acts: seq<Act>)
    requires Installable(w, s, process, req, bytes, tree)
    ensures ExecFrom(w, s, acts) ==
            Some(s.(jobs := s.jobs + [Job(process, req, Staged, bytes, map[], false)], taken := s.taken + {process}))
  {
    var i := |s.jobs|;
    acts := [];
    Then(w, s, acts, Request(process, req));
    acts := acts + [Request(process, req)];
    Then(w, s, acts, Acquire(i));
    acts := acts + [Acquire(i)];
    Then(w, s, acts, CheckAbsent(i));
    acts := acts + [CheckAbsent(i)];
    Then(w, s, acts, Fetch(i, bytes));
    acts := acts + [Fetch(i, bytes)];
    var t := ExecFrom(w, s, acts).value;
    assert t.jobs == s.jobs + [Job(process, req, Staged, [] + bytes, map[], false)];
    assert [] + bytes == bytes;
  }

  lemma MadeReady(w: World, s: State, process: nat, req: Req, bytes: Bytes, tree: Tree) returns (acts: seq<Act>)
    requires Installable(w, s, process, req, bytes, tree)
    ensures ExecFrom(w, s, acts) == Some(Ready(s, process, req, bytes, tree))
  {
    var i := |s.jobs|;
    acts := Fetched(w, s, process, req, bytes, tree);
    Then(w, s, acts, Verify(i));
    acts := acts + [Verify(i)];
    Then(w, s, acts, Extract(i));
    acts := acts + [Extract(i)];
    Then(w, s, acts, CheckDest(i));
    acts := acts + [CheckDest(i)];
    var t := ExecFrom(w, s, acts).value;
    assert t.jobs == s.jobs + [Job(process, req, DestChecked, bytes, tree, false)];
  }

  /** Undisturbed, an install adds its version directory, points `current` at it, and changes nothing else. */
  lemma InstallCanSucceed(w: World, s: State, process: nat, req: Req, bytes: Bytes, tree: Tree)
    returns (acts: seq<Act>)
    requires Installable(w, s, process, req, bytes, tree)
    requires !IsDir(s.fs, Current(req.series)) && req.version != "current"
    ensures ExecFrom(w, s, acts).Some?
    ensures var t := ExecFrom(w, s, acts).value;
            && t.fs == s.fs[VersionDir(req) := DirOf(tree)][Current(req.series) := LinkTo(req.version)]
            && t.taken == s.taken
            && |t.jobs| == |s.jobs| + 1 && t.jobs[..|s.jobs|] == s.jobs && t.jobs[|s.jobs|].pc == Done
  {
    var i := |s.jobs|;
    acts := MadeReady(w, s, process, req, bytes, tree);
    Then(w, s, acts, Rename(i));
    acts := acts + [Rename(i)];
    Then(w, s, acts, CheckLink(i));
    acts := acts + [CheckLink(i)];
    Then(w, s, acts, SwapLink(i));
    acts := acts + [SwapLink(i)];
    assert s.taken + {process} - {process} == s.taken;
  }

  /** An install of version "current" gets as far as its rename, and is then refused its link. */
  lemma CurrentCanBeInstalled(w: World, s: State, process: nat, req: Req, bytes: Bytes, tree: Tree)
    returns (acts: seq<Act>)
    requires Installable(w, s, process, req, bytes, tree) && req.version == "current"
    ensures ExecFrom(w, s, acts).Some?
    ensures var t := ExecFrom(w, s, acts).value;
            && t.fs == s.fs[Current(req.series) := DirOf(tree)]
            && |t.jobs| == |s.jobs| + 1 && t.jobs[|s.jobs|].pc == Failed(LinkRefused) && t.jobs[|s.jobs|].placed
  {
    var i := |s.jobs|;
    acts := MadeReady(w, s, process, req, bytes, tree);
    Then(w, s, acts, Rename(i));
    acts := acts + [Rename(i)];
    Then(w, s, acts, CheckLink(i));
    acts := acts + [CheckLink(i)];
  }

  /** Two racing installs of one version, each of its own pinned archive, the first of them empty. */
  lemma EmptyTreeCanBeReplaced(w: World, a: Req, b: Req, first: Bytes, second: Bytes, tree: Tree)
    returns (before: seq<Act>)
    requires VersionDir(a) == VersionDir(b) && w.sha(first) == a.pinned && w.sha(second) == b.pinned
    requires w.extract(a.format, first) == Some(map[]) && w.extract(b.format, second) == Some(tree) && tree != map[]
    ensures ExecFrom(w, EMPTY, before).Some?
    ensures var s := ExecFrom(w, EMPTY, before).value;
            && At(s.fs, VersionDir(a)) == Some(DirOf(map[]))
            && Can(s, Rename(1))
            && At(Do(w, s, Rename(1)).fs, VersionDir(a)) == Some(DirOf(tree))
  {
    var one := MadeReady(w, EMPTY, 0, a, first, map[]);
    var s1 := Ready(EMPTY, 0, a, first, map[]);
    var two := MadeReady(w, s1, 1, b, second, tree);
    ExecFromConcat(w, EMPTY, one, two);
    Then(w, EMPTY, one + two, Rename(0));
    before := one + two + [Rename(0)];
  }

  /**
   * Exactly which installed trees are safe for ever: the non-empty ones, as soon as there is an archive that extracts
   * to nothing and one that extracts to something.
   */
  lemma ImmutableIffNonEmpty(w: World, t: Tree, format: Format, first: Bytes, second: Bytes)
    requires w.extract(format, first) == Some(map[])
    requires w.extract(format, second).Some? && w.extract(format, second).value != map[]
    ensures (forall s, acts, p :: Reached(w, s) && At(s.fs, p) == Some(DirOf(t)) && ExecFrom(w, s, acts).Some? ==>
                                    At(ExecFrom(w, s, acts).value.fs, p) == Some(DirOf(t)))
            <==> t != map[]
  {
    if t != map[] {
      forall s, acts, p | Reached(w, s) && At(s.fs, p) == Some(DirOf(t)) && ExecFrom(w, s, acts).Some?
        ensures At(ExecFrom(w, s, acts).value.fs, p) == Some(DirOf(t))
      {
        VersionDirsNeverChange(w, s, acts, p);
      }
    } else {
      var series := Series("mysql", "8.4");
      var a := Req(series, "8.4.1", format, w.sha(first));
      var b := Req(series, "8.4.1", format, w.sha(second));
      var before := EmptyTreeCanBeReplaced(w, a, b, first, second, w.extract(format, second).value);
      var s := ExecFrom(w, EMPTY, before).value;
      assert Reached(w, s);
      Then(w, s, [], Rename(1));
      assert [] + [Rename(1)] == [Rename(1)];
      assert At(ExecFrom(w, s, [Rename(1)]).value.fs, VersionDir(a)) != Some(DirOf(t));
    }
  }

  lemma {:induction false} ExecFromConcat(w: World, s: State, first: seq<Act>, second: seq<Act>)
    requires ExecFrom(w, s, first).Some?
    ensures ExecFrom(w, s, first + second) == ExecFrom(w, ExecFrom(w, s, first).value, second)
    decreases |first|
  {
    if first == [] {
      assert first + second == second;
    } else {
      assert (first + second)[1..] == first[1..] + second;
      ExecFromConcat(w, Do(w, s, first[0]), first[1..], second);
    }
  }
}
