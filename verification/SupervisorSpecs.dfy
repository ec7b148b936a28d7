/** Every run is of what was last registered: from `register` through `start` to the task (`supervisor.rs`). */
module SupervisorSpecs {
  import opened Prelude
  import opened Events
  import opened ServiceTask
  import opened SupervisorCore
  import opened SupervisorSystem
  import opened SupervisorInvariant

  /** Step `i` registers `id` with `spec`, and takes effect: the id is not live there. */
  ghost predicate RegistersAt(acts: seq<Act>, i: nat, id: Id, spec: Spec) {
    && i < |acts| && acts[i] == Register(id, spec)
    && Exec(acts[..i]).Some? && !Exec(acts[..i]).value.t.Live(id)
  }

  /** Of the registrations of `id` that took effect before step `n`, that at step `i` is the last; it gave `spec`. */
  ghost predicate LastBefore(acts: seq<Act>, n: nat, i: nat, id: Id, spec: Spec) {
    && i < n && RegistersAt(acts, i, id, spec)
    && forall j: nat, other :: i < j < n ==> !RegistersAt(acts, j, id, other)
  }

  /** Step `n` starts run `r`. */
  ghost predicate StartsAt(acts: seq<Act>, n: nat, r: nat, id: Id) {
    && n < |acts| && acts[n] == Start(id)
    && Exec(acts[..n]).Some? && |Exec(acts[..n]).value.runs| == r
    && Exec(acts[..n + 1]).Some? && |Exec(acts[..n + 1]).value.runs| == r + 1
  }

  ghost predicate RegisteredAs(acts: seq<Act>, n: nat, id: Id, spec: Spec) {
    exists i: nat :: LastBefore(acts, n, i, id, spec)
  }

  // ---- what one step does to specifications ----

  /** What every entry is registered with. */
  function Specs(t: Tables): map<Id, Spec> {
    map id | id in t.entries :: t.entries[id].spec
  }

  lemma BlocksKeepSpecs(t: Tables, id: Id)
    requires id in t.entries ==> t.entries[id].flag < |t.flags|
    ensures Specs(StartLocked(t, id)) == Specs(t)
    ensures Specs(StopLocked(t, id)) == Specs(t)
    ensures forall state :: Specs(SetStateLocked(t, id, state)) == Specs(t)
    ensures forall pid :: Specs(SetPidLocked(t, id, pid)) == Specs(t)
  {
  }

  lemma PushKeepsSpecs(t: Tables, id: Id, source: Which, line: string)
    ensures Specs(PushLogLocked(t, id, source, line)) == Specs(t)
  {
  }

  /** The runs are those of before, each with its id and specification. */
  ghost predicate SameRuns(s: Sys, s': Sys) {
    |s'.runs| == |s.runs| && forall r :: 0 <= r < |s.runs| ==> s'.runs[r].id == s.runs[r].id && s'.runs[r].spec == s.runs[r].spec
  }

  lemma TaskKeepsSpec(run: Run, mv: TaskMove, now: nat)
    requires CanTask(run, mv, now)
    ensures Tasked(run, mv, now).id == run.id && Tasked(run, mv, now).spec == run.spec
  {
  }

  lemma WithinRunKeeps(s: Sys, a: Act)
    requires Can(s, a) && WithinRun(a)
    ensures Specs(Do(s, a).t) == Specs(s.t) && SameRuns(s, Do(s, a))
  {
    WithinRunFrame(s, a);
    if a.Task? {
      TaskKeepsSpec(s.runs[a.r], a.mv, s.now);
    }
  }

  lemma TaskWritesKeep(s: Sys, a: Act)
    requires Can(s, a) && !ByCaller(a) && !WithinRun(a)
    ensures Specs(Do(s, a).t) == Specs(s.t) && SameRuns(s, Do(s, a))
  {
    var id := s.runs[a.r].id;
    match a
    case RunningWritten(_) => SetStateKeepsSpecs(s.t, id, Running);
    case TerminalWritten(r) => SetStateKeepsSpecs(s.t, id, s.runs[r].pc.state);
    case LinePushed(r, text) => PushKeepsSpecs(s.t, id, LogSource(s.runs[r].pc), LogText(s.runs[r].pc, text));
    case LineRead(r, which) =>
      var p := PipeOf(s.runs[r].io, which);
      PushKeepsSpecs(s.t, id, which, p.written[p.read]);
    case _ =>
  }

  lemma SetStateKeepsSpecs(t: Tables, id: Id, state: ServiceState)
    ensures Specs(SetStateLocked(t, id, state)) == Specs(t)
  {
  }

  lemma CallersKeep(s: Sys, a: Act)
    requires Can(s, a) && ByCaller(a) && !a.Register? && !a.Unregister? && !a.Start?
    ensures Specs(Do(s, a).t) == Specs(s.t) && SameRuns(s, Do(s, a))
  {
    match a
    case Stop(id) => BlocksKeepSpecs(s.t, id);
    case StopLogged(k) => PushKeepsSpecs(s.t, s.stops[k].id, Stdout, "supervisor: stop requested by user");
    case _ =>
  }

  lemma OthersKeep(s: Sys, a: Act)
    requires Can(s, a) && !a.Register? && !a.Unregister? && !a.Start?
    ensures Specs(Do(s, a).t) == Specs(s.t) && SameRuns(s, Do(s, a))
  {
    if ByCaller(a) {
      CallersKeep(s, a);
    } else if WithinRun(a) {
      WithinRunKeeps(s, a);
    } else {
      TaskWritesKeep(s, a);
    }
  }

  /** An entry keeps its specification unless a registration that takes effect replaces it. */
  lemma EntryKeepsSpec(s: Sys, a: Act, id: Id)
    requires Can(s, a) && id in Do(s, a).t.entries
    ensures if a.Register? && a.id == id && !s.t.Live(id) then Do(s, a).t.entries[id].spec == a.spec
            else id in s.t.entries && Do(s, a).t.entries[id].spec == s.t.entries[id].spec
  {
    if a.Start? {
      BlocksKeepSpecs(s.t, a.id);
      assert Specs(Do(s, a).t) == Specs(s.t);
    } else if !a.Register? && !a.Unregister? {
      OthersKeep(s, a);
    }
    assert id in Specs(s.t) ==> Specs(s.t)[id] == s.t.entries[id].spec;
    assert Specs(Do(s, a).t)[id] == Do(s, a).t.entries[id].spec;
  }

  /** A run keeps its specification, and a new run gets that of its entry. */
  lemma RunKeepsSpec(s: Sys, a: Act, r: nat)
    requires Can(s, a) && r < |Do(s, a).runs|
    ensures if r < |s.runs| then Do(s, a).runs[r].id == s.runs[r].id && Do(s, a).runs[r].spec == s.runs[r].spec
            else && r == |s.runs| && |Do(s, a).runs| == r + 1 && a.Start? && a.id in s.t.entries
                 && Do(s, a).runs[r].id == a.id && Do(s, a).runs[r].spec == s.t.entries[a.id].spec
  {
    if !a.Register? && !a.Unregister? && !a.Start? {
      OthersKeep(s, a);
    }
  }

  // ---- over whole runs ----

  /** Whether a step registers, or starts, is told by the steps up to it. */
  lemma SameAtPrefix(acts: seq<Act>, m: nat, i: nat, id: Id, spec: Spec, r: nat)
    requires i < m <= |acts|
    ensures RegistersAt(acts[..m], i, id, spec) == RegistersAt(acts, i, id, spec)
    ensures StartsAt(acts[..m], i, r, id) == StartsAt(acts, i, r, id)
  {
    assert acts[..m][..i] == acts[..i] && acts[..m][..i + 1] == acts[..i + 1];
  }

  lemma RegisteredAtPrefix(acts: seq<Act>, m: nat, n: nat, id: Id, spec: Spec)
    requires n <= m <= |acts|
    ensures RegisteredAs(acts[..m], n, id, spec) == RegisteredAs(acts, n, id, spec)
  {
    forall i: nat ensures LastBefore(acts[..m], n, i, id, spec) == LastBefore(acts, n, i, id, spec) {
      if i < n {
        SameAtPrefix(acts, m, i, id, spec, 0);
        forall j: nat, other | i < j < n ensures RegistersAt(acts[..m], j, id, other) == RegistersAt(acts, j, id, other) {
          SameAtPrefix(acts, m, j, id, other, 0);
        }
      }
    }
  }

  /** An entry holds the specification of the last registration of its id that took effect. */
  lemma {:induction false} EntriesAreRegistered(acts: seq<Act>, s: Sys, id: Id)
    requires Reached(acts, s) && id in s.t.entries
    ensures RegisteredAs(acts, |acts|, id, s.t.entries[id].spec)
  {
    var n := |acts| - 1;
    var init, a := acts[..n], acts[n];
    var before := Exec(init).value;
    EntryKeepsSpec(before, a, id);
    if a.Register? && a.id == id && !before.t.Live(id) {
      assert LastBefore(acts, |acts|, n, id, a.spec);
    } else {
      EntriesAreRegistered(init, before, id);
      RegisteredAtPrefix(acts, n, n, id, s.t.entries[id].spec);
      StillRegistered(acts, n, id, s.t.entries[id].spec);
    }
  }

  /** A step that registers nothing under `id`, or finds it live, leaves the last registration the last. */
  lemma StillRegistered(acts: seq<Act>, n: nat, id: Id, spec: Spec)
    requires |acts| == n + 1 && RegisteredAs(acts, n, id, spec)
    requires forall other :: !RegistersAt(acts, n, id, other)
    ensures RegisteredAs(acts, n + 1, id, spec)
  {
    var i: nat :| LastBefore(acts, n, i, id, spec);
    forall j: nat, other | i < j < n + 1 ensures !RegistersAt(acts, j, id, other) {
      assert j < n ==> !RegistersAt(acts, j, id, other);
    }
    assert LastBefore(acts, n + 1, i, id, spec);
  }

  /**
   * Every run was started by one `start` of its id, and is of the service last registered under that id before it: it
   * becomes ready by that registration's rule, is stopped with its grace, and spawns its command.
   */
  lemma {:induction false} RunsAreOfTheirSpec(acts: seq<Act>, s: Sys, r: nat)
    requires Reached(acts, s) && r < |s.runs|
    ensures exists n: nat :: StartsAt(acts, n, r, s.runs[r].id) && RegisteredAs(acts, n, s.runs[r].id, s.runs[r].spec)
  {
    var last := |acts| - 1;
    var init, a := acts[..last], acts[last];
    var before := Exec(init).value;
    RunKeepsSpec(before, a, r);
    var id, spec := s.runs[r].id, s.runs[r].spec;
    assert acts[..|acts|] == acts;
    if r < |before.runs| {
      RunsAreOfTheirSpec(init, before, r);
      var n: nat :| StartsAt(init, n, r, id) && RegisteredAs(init, n, id, spec);
      SameAtPrefix(acts, last, n, id, spec, r);
      RegisteredAtPrefix(acts, last, n, id, spec);
    } else {
      EntriesAreRegistered(init, before, id);
      RegisteredAtPrefix(acts, last, last, id, spec);
      assert StartsAt(acts, last, r, id);
    }
  }
}
