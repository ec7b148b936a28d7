/**
 * The supervisor's locked tables (`crates/openvhost-proc/src/supervisor.rs`): one function per block that runs under
 * the `entries` mutex, and the class whose methods run those blocks and broadcast.
 */
module SupervisorCore {
  import opened Prelude
  import opened Events
  import opened LogRing
  import opened ServiceTask

  datatype ProcError = NotFound(id: Id) | NotTerminal(id: Id, state: string)

  /**
   * One registered service. `flag` names the shared stop flag made at registration, `control` the channel of the
   * latest start. History: `pushed` holds every line since registration, `errSinceStart` every stderr line since the
   * latest start.
   */
  datatype Entry = Entry(
    spec: Spec, state: ServiceState, pid: Option<nat>, logs: seq<string>, stderrTail: seq<string>,
    flag: nat, control: Option<nat>, pushed: seq<string>, errSinceStart: seq<string>)

  /** A stop flag and the id it was made for. */
  datatype Flag = Flag(owner: Id, raised: bool)

  /** `nextRun` numbers the control channels, one per start. */
  datatype Tables = Tables(entries: map<Id, Entry>, flags: seq<Flag>, nextRun: nat)
  {
    predicate Live(id: Id) {
      id in entries && entries[id].state.Live()
    }
  }

  const NO_TABLES := Tables(map[], [], 0)

  /** The rows `snapshot` reports. */
  function Rows(t: Tables): Table {
    map id | id in t.entries :: t.entries[id].state
  }

  /** What `snapshot` lists for one service. */
  datatype ServiceRow =
    ServiceRow(id: Id, displayName: string, endpoint: Option<string>, pid: Option<nat>, state: ServiceState)

  /** The row of an entry. */
  function ListedAs(id: Id, e: Entry): ServiceRow {
    ServiceRow(id, e.spec.displayName, e.spec.endpoint, e.pid, e.state)
  }

  /** The order of strings: by characters, a proper prefix first. */
  predicate Before(a: string, b: string) {
    |b| > 0 && (|a| == 0 || a[0] < b[0] || (a[0] == b[0] && Before(a[1..], b[1..])))
  }

  lemma {:induction false} BeforeTransitive(a: string, b: string, c: string)
    requires Before(a, b) && Before(b, c)
    ensures Before(a, c)
  {
    if |a| > 0 && a[0] == b[0] && b[0] == c[0] {
      BeforeTransitive(a[1..], b[1..], c[1..]);
    }
  }

  lemma {:induction false} BeforeTotal(a: string, b: string)
    ensures Before(a, b) || a == b || Before(b, a)
    ensures !(Before(a, b) && Before(b, a)) && !Before(a, a)
  {
    if |a| > 0 {
      BeforeTotal(a[1..], a[1..]);
    }
    if |a| > 0 && |b| > 0 && a[0] == b[0] {
      BeforeTotal(a[1..], b[1..]);
      assert a == [a[0]] + a[1..] && b == [b[0]] + b[1..];
    }
  }

  ghost predicate SortedById(rows: seq<ServiceRow>) {
    forall i, j :: 0 <= i < j < |rows| ==> Before(rows[i].id, rows[j].id)
  }

  function Insert(rows: seq<ServiceRow>, x: ServiceRow): seq<ServiceRow> {
    if |rows| == 0 || Before(x.id, rows[0].id) then [x] + rows
    else [rows[0]] + Insert(rows[1..], x)
  }

  lemma {:induction false} InsertSorted(rows: seq<ServiceRow>, x: ServiceRow)
    requires SortedById(rows) && forall r :: r in rows ==> r.id != x.id
    ensures SortedById(Insert(rows, x)) && forall r :: r in Insert(rows, x) <==> r == x || r in rows
  {
    if |rows| > 0 {
      if Before(x.id, rows[0].id) {
        forall j | 1 <= j < |rows| ensures Before(x.id, rows[j].id) {
          BeforeTransitive(x.id, rows[0].id, rows[j].id);
        }
      } else {
        BeforeTotal(x.id, rows[0].id);
        InsertSorted(rows[1..], x);
        assert rows == [rows[0]] + rows[1..];
        var rest := Insert(rows[1..], x);
        forall j | 0 <= j < |rest| ensures Before(rows[0].id, rest[j].id) {
          assert rest[j] in rest;
        }
      }
    }
  }

  /** A list of rows in order of their ids is determined by what it lists. */
  lemma {:induction false} SortedUnique(a: seq<ServiceRow>, b: seq<ServiceRow>)
    requires SortedById(a) && SortedById(b) && forall r :: r in a <==> r in b
    ensures a == b
  {
    assert |a| > 0 ==> a[0] in b;
    assert |b| > 0 ==> b[0] in a;
    if |a| > 0 {
      var i :| 0 <= i < |b| && b[i] == a[0];
      var j :| 0 <= j < |a| && a[j] == b[0];
      BeforeTotal(a[0].id, b[0].id);
      assert i == 0 && j == 0;
      forall r ensures r in a[1..] <==> r in b[1..] {
        BeforeTotal(r.id, r.id);
        assert r in a <==> r == a[0] || r in a[1..];
        assert r in b <==> r == b[0] || r in b[1..];
      }
      SortedUnique(a[1..], b[1..]);
      assert a == [a[0]] + a[1..] && b == [b[0]] + b[1..];
    }
  }

  function CheckTerminal(id: Id, state: ServiceState): Result<(), ProcError> {
    match state
    case Stopped => Ok(())
    case Failed(_, _) => Ok(())
    case Starting => Result.Err(NotTerminal(id, "starting"))
    case Running => Result.Err(NotTerminal(id, "running"))
  }

  function RegisterLocked(t: Tables, id: Id, spec: Spec): Tables {
    if t.Live(id) then t
    else t.(entries := t.entries[id := Entry(spec, Stopped, None, [], [], |t.flags|, None, [], [])],
            flags := t.flags + [Flag(id, false)])
  }

  function UnregisterLocked(t: Tables, id: Id): Tables {
    if id !in t.entries || t.Live(id) then t else t.(entries := t.entries - {id})
  }

  function StartLocked(t: Tables, id: Id): Tables
    requires id in t.entries ==> t.entries[id].flag < |t.flags|
  {
    if id !in t.entries || t.Live(id) then t
    else
      var e := t.entries[id];
      Tables(t.entries[id := e.(state := Starting, stderrTail := [], errSinceStart := [], control := Some(t.nextRun))],
             t.flags[e.flag := t.flags[e.flag].(raised := false)],
             t.nextRun + 1)
  }

  function StopLocked(t: Tables, id: Id): Tables
    requires id in t.entries ==> t.entries[id].flag < |t.flags|
  {
    if !t.Live(id) then t
    else
      var f := t.entries[id].flag;
      t.(flags := t.flags[f := t.flags[f].(raised := true)])
  }

  function SetStateLocked(t: Tables, id: Id, state: ServiceState): Tables {
    if id !in t.entries then t
    else
      var e := t.entries[id].(state := state);
      t.(entries := t.entries[id := if state.Live() then e else e.(pid := None, control := None)])
  }

  function SetPidLocked(t: Tables, id: Id, pid: Option<nat>): Tables {
    if id !in t.entries then t else t.(entries := t.entries[id := t.entries[id].(pid := pid)])
  }

  function PushLine(e: Entry, source: Which, line: string): Entry {
    var logged := e.(logs := Pushed(e.logs, RING_CAPACITY, line), pushed := e.pushed + [line]);
    match source
    case Stdout => logged
    case Stderr =>
      logged.(stderrTail := Pushed(e.stderrTail, STDERR_TAIL, line), errSinceStart := e.errSinceStart + [line])
  }

  function PushLogLocked(t: Tables, id: Id, source: Which, line: string): Tables {
    if id !in t.entries then t else t.(entries := t.entries[id := PushLine(t.entries[id], source, line)])
  }

  function StartLine(prior: ServiceState): string {
    var name := match prior case Stopped => "Stopped" case Failed(_, _) => "Failed" case _ => "?";
    "supervisor: state " + name + " → Starting (requested by user)"
  }

  /** The bounded stores are the newest part of their histories, and each flag index belongs to its id. */
  ghost predicate EntryShapeOk(t: Tables, id: Id)
    requires id in t.entries
  {
    var e := t.entries[id];
    && e.logs == LastN(e.pushed, RING_CAPACITY)
    && e.stderrTail == LastN(e.errSinceStart, STDERR_TAIL)
    && e.flag < |t.flags| && t.flags[e.flag].owner == id
    && (!e.state.Live() ==> e.control.None? && e.pid.None?)
    && (e.state.Live() ==> e.control.Some? && e.control.value < t.nextRun)
  }

  ghost predicate TablesOk(t: Tables) {
    forall id :: id in t.entries ==> EntryShapeOk(t, id)
  }

  /** Pushing one line keeps both windows equal to the newest part of their histories. */
  lemma PushLineKeepsWindows(e: Entry, source: Which, line: string)
    requires e.logs == LastN(e.pushed, RING_CAPACITY)
    requires e.stderrTail == LastN(e.errSinceStart, STDERR_TAIL)
    ensures var x := PushLine(e, source, line);
            x.logs == LastN(x.pushed, RING_CAPACITY) && x.stderrTail == LastN(x.errSinceStart, STDERR_TAIL)
  {
    LastNSnoc(e.pushed, line, RING_CAPACITY);
    LastNSnoc(e.errSinceStart, line, STDERR_TAIL);
  }

  lemma PushKeepsTables(t: Tables, id: Id, source: Which, line: string)
    requires TablesOk(t)
    ensures TablesOk(PushLogLocked(t, id, source, line))
  {
    if id in t.entries {
      PushLineKeepsWindows(t.entries[id], source, line);
    }
  }

  lemma RegisterRows(t: Tables, id: Id, spec: Spec)
    requires !t.Live(id)
    ensures Rows(RegisterLocked(t, id, spec)) == Observe(Rows(t), Registered(id))
  {
  }

  lemma CallerBlocksKeepTables(t: Tables, id: Id, spec: Spec)
    requires TablesOk(t)
    ensures TablesOk(RegisterLocked(t, id, spec)) && TablesOk(UnregisterLocked(t, id))
    ensures TablesOk(StartLocked(t, id)) && TablesOk(StopLocked(t, id))
  {
  }

  /** Every locked block keeps the tables consistent. */
  lemma LockedBlocksKeepTables(t: Tables, id: Id, spec: Spec, pid: nat, source: Which, line: string)
    requires TablesOk(t)
    ensures TablesOk(RegisterLocked(t, id, spec)) && TablesOk(UnregisterLocked(t, id))
    ensures TablesOk(StartLocked(t, id)) && TablesOk(StopLocked(t, id))
    ensures t.Live(id) ==> TablesOk(SetPidLocked(t, id, Some(pid)))
    ensures TablesOk(PushLogLocked(t, id, source, line))
  {
    CallerBlocksKeepTables(t, id, spec);
    PushKeepsTables(t, id, source, line);
  }

  lemma SetStateKeepsTables(t: Tables, id: Id, state: ServiceState)
    requires TablesOk(t) && t.Live(id)
    ensures TablesOk(SetStateLocked(t, id, state))
  {
  }

  /** Only the entry of `id` and its own flag may differ. */
  ghost predicate Untouched(t: Tables, t': Tables, id: Id) {
    && t'.entries.Keys == t.entries.Keys
    && (forall i :: i in t.entries && i != id ==> t'.entries[i] == t.entries[i])
    && |t'.flags| == |t.flags|
    && (forall f :: 0 <= f < |t.flags| && t.flags[f].owner != id ==> t'.flags[f] == t.flags[f])
  }

  /** What a start changes, and that it changes nothing else. */
  ghost predicate Started(t: Tables, t': Tables, id: Id)
    requires id in t.entries
  {
    var prior := if t.entries[id].state.Failed? then "Failed" else "Stopped";
    var line := "supervisor: state " + prior + " → Starting (requested by user)";
    && Untouched(t, t', id) && t'.nextRun == t.nextRun + 1
    && t.entries[id].flag < |t'.flags| && !t'.flags[t.entries[id].flag].raised
    && t'.entries[id] == t.entries[id].(
         state := Starting, control := Some(t.nextRun), stderrTail := [], errSinceStart := [],
         logs := LastN(t.entries[id].pushed + [line], 2000), pushed := t.entries[id].pushed + [line])
  }

  lemma StartKeepsTables(t: Tables, id: Id)
    requires TablesOk(t)
    ensures id in t.entries ==> t.entries[id].flag < |t.flags|
    ensures TablesOk(StartLocked(t, id))
  {
  }

  lemma StartIsStarted(t: Tables, id: Id)
    requires TablesOk(t) && id in t.entries && !t.Live(id)
    ensures Started(t, PushLogLocked(StartLocked(t, id), id, Stdout, StartLine(t.entries[id].state)), id)
  {
    assert EntryShapeOk(t, id);
    LastNSnoc(t.entries[id].pushed, StartLine(t.entries[id].state), RING_CAPACITY);
  }

  /** The supervisor object. `sent` is everything broadcast so far; the mutex is what lets a method run unseen. */
  class Supervisor {
    var entries: map<Id, Entry>
    var flags: seq<Flag>
    var nextRun: nat
    var sent: seq<Event>

    ghost function View(): Tables
      reads this
    {
      Tables(entries, flags, nextRun)
    }

    ghost predicate Valid()
      reads this
    {
      TablesOk(View())
    }

    constructor ()
      ensures Valid() && View() == NO_TABLES && sent == []
    {
      entries, flags, nextRun, sent := map[], [], 0, [];
    }

    method Register(id: Id, spec: Spec)
      requires Valid()
      modifies this
      ensures Valid() && View() == RegisterLocked(old(View()), id, spec)
      ensures old(View()).Live(id) ==> View() == old(View()) && sent == old(sent)
      ensures !old(View()).Live(id) ==>
                && entries == old(entries)[id := Entry(spec, Stopped, None, [], [], |old(flags)|, None, [], [])]
                && flags == old(flags) + [Flag(id, false)] && nextRun == old(nextRun)
                && sent == old(sent) + [Registered(id)] && Rows(View()) == Observe(Rows(old(View())), Registered(id))
    {
      if id in entries && entries[id].state.Live() {
        return;
      }
      entries := entries[id := Entry(spec, Stopped, None, [], [], |flags|, None, [], [])];
      flags := flags + [Flag(id, false)];
      sent := sent + [Registered(id)];
      assert View() == RegisterLocked(old(View()), id, spec);
      CallerBlocksKeepTables(old(View()), id, spec);
      RegisterRows(old(View()), id, spec);
    }

    method Unregister(id: Id) returns (r: Result<(), ProcError>)
      requires Valid()
      modifies this
      ensures Valid() && View() == UnregisterLocked(old(View()), id)
      ensures r.Err? ==> View() == old(View()) && sent == old(sent)
      ensures r.Ok? <==> id in old(entries) && !old(View()).Live(id)
      ensures r.Ok? ==>
                && entries == old(entries) - {id} && flags == old(flags) && nextRun == old(nextRun)
                && sent == old(sent) + [Unregistered(id)]
      ensures id !in old(entries) ==> r == Result.Err(NotFound(id))
      ensures id in old(entries) && old(View()).Live(id) ==>
                r == Result.Err(NotTerminal(id, if old(entries)[id].state.Running? then "running" else "starting"))
    {
      if id !in entries {
        return Result.Err(NotFound(id));
      }
      var verdict := CheckTerminal(id, entries[id].state);
      if verdict.Err? {
        return verdict;
      }
      entries := entries - {id};
      sent := sent + [Unregistered(id)];
      r := Ok(());
    }

    /** Returns the task to spawn, if this call started one. */
    method Start(id: Id) returns (r: Result<Option<Run>, ProcError>)
      requires Valid()
      modifies this
      ensures Valid()
      ensures r == Result.Err(NotFound(id)) <==> id !in old(entries)
      ensures !(r.Ok? && r.value.Some?) ==> View() == old(View()) && sent == old(sent)
      ensures r.Ok? && r.value.Some? <==> id in old(entries) && !old(View()).Live(id)
      ensures r.Ok? && r.value.Some? ==>
                && id in entries && r.value.value == NewRun(id, entries[id].flag, entries[id].spec)
                && sent == old(sent) + [StateChanged(id, Starting), Log(id)]
                && View() ==
                   PushLogLocked(StartLocked(old(View()), id), id, Stdout, StartLine(old(entries)[id].state))
                && Started(old(View()), View(), id)
    {
      if id !in entries {
        return Result.Err(NotFound(id));
      }
      var e := entries[id];
      if e.state.Live() {
        return Ok(None);
      }
      var prior := e.state;
      flags := flags[e.flag := flags[e.flag].(raised := false)];
      e := e.(state := Starting, stderrTail := [], errSinceStart := [], control := Some(nextRun));
      entries := entries[id := e];
      nextRun := nextRun + 1;
      StartKeepsTables(old(View()), id);
      assert View() == StartLocked(old(View()), id);
      StartIsStarted(old(View()), id);
      EmitState(id, Starting);
      PushLog(id, Stdout, StartLine(prior));
      r := Ok(Some(NewRun(id, e.flag, e.spec)));
    }

    /** Returns the control channel to send on, if this call was accepted. */
    method Stop(id: Id) returns (r: Result<Option<nat>, ProcError>)
      requires Valid()
      modifies this
      ensures Valid()
      ensures r == Result.Err(NotFound(id)) <==> id !in old(entries)
      ensures !(r.Ok? && r.value.Some?) ==> View() == old(View()) && sent == old(sent)
      ensures r.Ok? && r.value.Some? <==> old(View()).Live(id)
      ensures r.Ok? && r.value.Some? ==>
                && id in entries && r.value == old(entries)[id].control
                && entries[id].flag < |flags| && flags[entries[id].flag].raised
                && sent == old(sent) + [Log(id)]
                && View() == PushLogLocked(StopLocked(old(View()), id), id, Stdout, "supervisor: stop requested by user")
                && Untouched(old(View()), View(), id) && nextRun == old(nextRun)
                && entries[id] == old(entries)[id].(
                     logs := LastN(old(entries)[id].pushed + ["supervisor: stop requested by user"], 2000),
                     pushed := old(entries)[id].pushed + ["supervisor: stop requested by user"])
    {
      if id !in entries {
        return Result.Err(NotFound(id));
      }
      var e := entries[id];
      if !e.state.Live() {
        return Ok(None);
      }
      flags := flags[e.flag := flags[e.flag].(raised := true)];
      CallerBlocksKeepTables(old(View()), id, e.spec);
      PushLog(id, Stdout, "supervisor: stop requested by user");
      r := Ok(e.control);
    }

    method SetState(id: Id, state: ServiceState)
      modifies this
      ensures View() == SetStateLocked(old(View()), id, state)
      ensures Untouched(old(View()), View(), id) && flags == old(flags) && nextRun == old(nextRun)
      ensures id in old(entries) ==>
                && id in entries
                && entries[id] == (if state.Starting? || state.Running? then old(entries)[id].(state := state)
                                   else old(entries)[id].(state := state, pid := None, control := None))
      ensures sent == old(sent) + [StateChanged(id, state)]
      ensures old(Valid() && View().Live(id)) ==> Valid()
      ensures id in old(entries) ==> Rows(View()) == Observe(Rows(old(View())), StateChanged(id, state))
    {
      if Valid() && View().Live(id) {
        SetStateKeepsTables(View(), id, state);
      }
      if id in entries {
        var e := entries[id].(state := state);
        if !state.Live() {
          e := e.(pid := None, control := None);
        }
        entries := entries[id := e];
      }
      EmitState(id, state);
    }

    method EmitState(id: Id, state: ServiceState)
      modifies this`sent
      ensures sent == old(sent) + [StateChanged(id, state)]
    {
      sent := sent + [StateChanged(id, state)];
    }

    method SetPid(id: Id, pid: Option<nat>)
      modifies this`entries
      ensures View() == SetPidLocked(old(View()), id, pid)
      ensures Untouched(old(View()), View(), id) && flags == old(flags)
      ensures id in old(entries) ==> id in entries && entries[id] == old(entries)[id].(pid := pid)
      ensures Rows(View()) == Rows(old(View()))
      ensures old(Valid() && View().Live(id)) ==> Valid()
    {
      if id in entries {
        entries := entries[id := entries[id].(pid := pid)];
      }
    }

    method PushLog(id: Id, source: Which, line: string)
      requires Valid()
      modifies this`entries, this`sent
      ensures Valid() && View() == PushLogLocked(old(View()), id, source, line)
      ensures sent == old(sent) + [Log(id)]
      ensures id in entries ==> entries[id].logs == LastN(old(entries)[id].pushed + [line], RING_CAPACITY)
      ensures id in entries && source.Stderr? ==>
                entries[id].stderrTail == LastN(old(entries)[id].errSinceStart + [line], STDERR_TAIL)
    {
      PushKeepsTables(View(), id, source, line);
      if id in entries {
        var e := entries[id];
        if |e.logs| == RING_CAPACITY && |e.logs| > 0 {
          e := e.(logs := e.logs[1..]);
        }
        e := e.(logs := e.logs + [line], pushed := e.pushed + [line]);
        if source.Stderr? {
          if |e.stderrTail| == STDERR_TAIL {
            e := e.(stderrTail := e.stderrTail[1..]);
          }
          e := e.(stderrTail := e.stderrTail + [line], errSinceStart := e.errSinceStart + [line]);
        }
        assert e == PushLine(entries[id], source, line);
        entries := entries[id := e];
        assert EntryShapeOk(View(), id);
      }
      sent := sent + [Log(id)];
    }

    /** One row for each registered service, with its state and pid, in order of ids. */
    method Snapshot() returns (rows: seq<ServiceRow>)
      ensures SortedById(rows)
      ensures forall r :: r in rows <==>
                && r.id in entries && r.displayName == entries[r.id].spec.displayName
                && r.endpoint == entries[r.id].spec.endpoint && r.pid == entries[r.id].pid
                && r.state == entries[r.id].state
    {
      rows := [];
      var todo := entries.Keys;
      while todo != {}
        invariant todo <= entries.Keys && SortedById(rows)
        invariant forall r :: r in rows <==>
                    r.id in entries.Keys - todo && r == ListedAs(r.id, entries[r.id])
        decreases |todo|
      {
        var id :| id in todo;
        var row := ListedAs(id, entries[id]);
        InsertSorted(rows, row);
        rows := Insert(rows, row);
        todo := todo - {id};
      }
    }

    method StderrTailSnapshot(id: Id) returns (tail: seq<string>)
      requires Valid()
      ensures tail == if id in entries then LastN(entries[id].errSinceStart, STDERR_TAIL) else []
    {
      tail := if id in entries then entries[id].stderrTail else [];
    }
  }
}
