/**
 * Staging directories, their locks and the sweeper (`crates/openvhost-pkg/src/layout.rs`), for any number of
 * processes. Every system call is one step, and each actor may crash before any of its steps.
 */
module Staging {
  import opened Prelude

  /** A directory name; a fresh one is never reused. */
  type Name = nat

  /** 24 hours, in seconds. */
  const STALE_AFTER: nat := 24 * 60 * 60

  datatype Holder = ByStaging | BySweep(k: nat)

  datatype LockFile = NoFile | Free | Held(holder: Holder)

  datatype Dir = Dir(mtime: nat, lock: LockFile)

  /** The life of one `Staging`: made, lock file opened, lock taken, then dropped or crashed. */
  datatype Phase = Made | Opened | Live(lockedAt: nat) | Dropping | Gone | Crashed

  datatype Owner = Owner(born: nat, phase: Phase)

  /** What one sweep is doing with one entry. `locked`: it opened the entry's lock file and took the lock. */
  datatype SweepPC =
    | Next
    | FoundStale(name: Name)
    | LockOpened(name: Name)
    | WillRemove(name: Name, locked: bool)
    | Finished
    | Killed

  /**
   * One call of `sweep_stale`. `todo` is what its directory listing still has to yield. `due`, `unopened` and
   * `contended` are history: the crashed directories that were stale when it began, those whose lock file it
   * could not open, and those whose lock it found held.
   */
  datatype Sweep = Sweep(startedAt: nat, todo: set<Name>, pc: SweepPC, due: set<Name>, unopened: set<Name>,
                         contended: set<Name>)

  /** `owners` remembers every staging directory ever made. */
  datatype State = State(dirs: map<Name, Dir>, owners: map<Name, Owner>, sweeps: seq<Sweep>, now: nat)

  const EMPTY := State(map[], map[], [], 0)

  datatype Act =
    // creating, using and dropping
    | MakeDir(n: Name)
    | OpenLock(n: Name)
    | TakeLock(n: Name)
    | Write(n: Name)
    | BeginDrop(n: Name)
    | UnlinkLock(n: Name)
    | EndDrop(n: Name)
    | Crash(n: Name)
    // sweeping
    | BeginSweep
    | Visit(k: nat, n: Name)
    | OpenSweepLock(k: nat)
    | OpenSweepLockFails(k: nat)
    | TrySweepLock(k: nat)
    | RemoveDir(k: nat)
    | FinishSweep(k: nat)
    | KillSweep(k: nat)
    // time
    | Tick(d: nat)

  predicate IsLive(s: State, n: Name) {
    n in s.owners && s.owners[n].phase.Live?
  }

  predicate InPhase(s: State, n: Name, phase: Phase) {
    n in s.owners && s.owners[n].phase == phase
  }

  /** `age > STALE_AFTER`, and never when the clock went backwards. */
  predicate IsStale(d: Dir, now: nat) {
    d.mtime + STALE_AFTER < now
  }

  predicate SweepAt(s: State, k: nat) {
    k < |s.sweeps|
  }

  predicate Can(s: State, a: Act) {
    match a
    case MakeDir(n) => n !in s.owners && n !in s.dirs
    case OpenLock(n) => InPhase(s, n, Made) && n in s.dirs
    case TakeLock(n) => InPhase(s, n, Opened) && (n in s.dirs ==> s.dirs[n].lock.Free?)
    case Write(n) => IsLive(s, n) && n in s.dirs
    case BeginDrop(n) => InPhase(s, n, Made) || InPhase(s, n, Opened) || IsLive(s, n)
    case UnlinkLock(n) => InPhase(s, n, Dropping) && n in s.dirs
    case EndDrop(n) => InPhase(s, n, Dropping)
    case Crash(n) => InPhase(s, n, Made) || InPhase(s, n, Opened) || InPhase(s, n, Dropping) || IsLive(s, n)
    case BeginSweep => true
    case Visit(k, n) => SweepAt(s, k) && s.sweeps[k].pc.Next? && (n in s.sweeps[k].todo || n in s.dirs)
    case OpenSweepLock(k) => SweepAt(s, k) && s.sweeps[k].pc.FoundStale?
    case OpenSweepLockFails(k) => SweepAt(s, k) && s.sweeps[k].pc.FoundStale?
    case TrySweepLock(k) => SweepAt(s, k) && s.sweeps[k].pc.LockOpened?
    case RemoveDir(k) => SweepAt(s, k) && s.sweeps[k].pc.WillRemove?
    case FinishSweep(k) => SweepAt(s, k) && s.sweeps[k].pc.Next? && s.sweeps[k].todo == {}
    case KillSweep(k) => SweepAt(s, k) && !s.sweeps[k].pc.Finished?
    case Tick(_) => true
  }

  function WithPhase(s: State, n: Name, phase: Phase): State
    requires n in s.owners
  {
    s.(owners := s.owners[n := s.owners[n].(phase := phase)])
  }

  /** Does nothing to the directory listing when the directory is gone: the lock is then on an orphaned file. */
  function WithLock(s: State, n: Name, lock: LockFile): State {
    if n in s.dirs then s.(dirs := s.dirs[n := s.dirs[n].(lock := lock)]) else s
  }

  function WithSweep(s: State, k: nat, sweep: Sweep): State
    requires k < |s.sweeps|
  {
    s.(sweeps := s.sweeps[k := sweep])
  }

  function WithPC(s: State, k: nat, pc: SweepPC): State
    requires k < |s.sweeps|
  {
    WithSweep(s, k, s.sweeps[k].(pc := pc))
  }

  /** The operating system drops the locks of a dead holder. */
  function Released(s: State, n: Name, holder: Holder): State {
    if n in s.dirs && s.dirs[n].lock == Held(holder) then WithLock(s, n, Free) else s
  }

  /** Opening with `create(true)` makes the lock file, which touches the directory, unless it is there. */
  function DoOpenLock(s: State, n: Name): State
    requires n in s.owners && n in s.dirs
  {
    WithPhase(if s.dirs[n].lock.NoFile? then s.(dirs := s.dirs[n := Dir(s.now, Free)]) else s, n, Opened)
  }

  function CrashedAndStale(s: State): set<Name> {
    set n | n in s.dirs && InPhase(s, n, Crashed) && IsStale(s.dirs[n], s.now)
  }

  function DoVisit(s: State, k: nat, n: Name): State
    requires SweepAt(s, k)
  {
    var sweep := s.sweeps[k].(todo := s.sweeps[k].todo - {n});
    WithSweep(s, k, sweep.(pc := if n in s.dirs && IsStale(s.dirs[n], sweep.startedAt) then FoundStale(n) else Next))
  }

  function DoOpenSweepLock(s: State, k: nat): State
    requires Can(s, OpenSweepLock(k))
  {
    var n := s.sweeps[k].pc.name;
    WithPC(s, k, if n in s.dirs && !s.dirs[n].lock.NoFile? then LockOpened(n) else WillRemove(n, false))
  }

  function DoTrySweepLock(s: State, k: nat): State
    requires Can(s, TrySweepLock(k))
  {
    var n := s.sweeps[k].pc.name;
    if n in s.dirs && s.dirs[n].lock.Held? then
      WithSweep(s, k, s.sweeps[k].(pc := Next, contended := s.sweeps[k].contended + {n}))
    else if n in s.dirs && s.dirs[n].lock.Free? then
      WithPC(WithLock(s, n, Held(BySweep(k))), k, WillRemove(n, true))
    else
      WithPC(s, k, WillRemove(n, true))
  }

  function DoKillSweep(s: State, k: nat): State
    requires SweepAt(s, k)
  {
    WithPC(if s.sweeps[k].pc.WillRemove? then Released(s, s.sweeps[k].pc.name, BySweep(k)) else s, k, Killed)
  }

  function Do(s: State, a: Act): State
    requires Can(s, a)
  {
    match a
    case MakeDir(n) => s.(dirs := s.dirs[n := Dir(s.now, NoFile)], owners := s.owners[n := Owner(s.now, Made)])
    case OpenLock(n) => DoOpenLock(s, n)
    case TakeLock(n) => WithPhase(WithLock(s, n, Held(ByStaging)), n, Live(s.now))
    case Write(n) => s.(dirs := s.dirs[n := s.dirs[n].(mtime := s.now)])
    case BeginDrop(n) => WithPhase(s, n, Dropping)
    case UnlinkLock(n) => WithLock(s, n, NoFile)
    case EndDrop(n) => WithPhase(s.(dirs := s.dirs - {n}), n, Gone)
    case Crash(n) => WithPhase(Released(s, n, ByStaging), n, Crashed)
    case BeginSweep => s.(sweeps := s.sweeps + [Sweep(s.now, s.dirs.Keys, Next, CrashedAndStale(s), {}, {})])
    case Visit(k, n) => DoVisit(s, k, n)
    case OpenSweepLock(k) => DoOpenSweepLock(s, k)
    case OpenSweepLockFails(k) =>
      WithSweep(s, k, s.sweeps[k].(pc := Next, unopened := s.sweeps[k].unopened + {s.sweeps[k].pc.name}))
    case TrySweepLock(k) => DoTrySweepLock(s, k)
    case RemoveDir(k) => WithPC(s.(dirs := s.dirs - {s.sweeps[k].pc.name}), k, Next)
    case FinishSweep(k) => WithPC(s, k, Finished)
    case KillSweep(k) => DoKillSweep(s, k)
    case Tick(d) => s.(now := s.now + d)
  }

  ghost function ExecFrom(s: State, acts: seq<Act>): Option<State>
    decreases |acts|
  {
    if acts == [] then Some(s)
    else if !Can(s, acts[0]) then None
    else ExecFrom(Do(s, acts[0]), acts[1..])
  }

  ghost predicate Reached(s: State) {
    exists acts :: ExecFrom(EMPTY, acts) == Some(s)
  }

  // ---- what every step keeps ----

  /** `n` was made more than 24 hours ago. */
  ghost predicate Aged(s: State, n: Name) {
    n in s.owners && s.owners[n].born + STALE_AFTER < s.now
  }

  /** The staging holds its lock, and took it within 24 hours of making its directory. */
  predicate LockedInTime(o: Owner) {
    o.phase.Live? && o.phase.lockedAt <= o.born + STALE_AFTER
  }

  /** A sweep eyes only aged directories, and is about to remove only one that no timely staging holds. */
  ghost predicate SweepAged(s: State, sweep: Sweep) {
    && sweep.startedAt <= s.now
    && match sweep.pc
       case FoundStale(n) => Aged(s, n)
       case LockOpened(n) => Aged(s, n)
       case WillRemove(n, _) => Aged(s, n) && !LockedInTime(s.owners[n])
       case Finished => sweep.todo == {}
       case _ => true
  }

  predicate AtName(pc: SweepPC, n: Name) {
    (pc.FoundStale? || pc.LockOpened? || pc.WillRemove?) && pc.name == n
  }

  /** A crashed directory that was due stays due until it is gone or the sweep has an excuse for it. */
  ghost predicate DueOk(s: State, sweep: Sweep, n: Name) {
    && InPhase(s, n, Crashed)
    && (n in s.dirs ==>
          && IsStale(s.dirs[n], sweep.startedAt)
          && (n in sweep.todo || AtName(sweep.pc, n) || n in sweep.unopened || n in sweep.contended
              || sweep.pc.Killed?))
  }

  ghost predicate DirOk(s: State, n: Name)
    requires n in s.dirs
  {
    var d := s.dirs[n];
    && n in s.owners
    && s.owners[n].born <= d.mtime <= s.now
    && (d.lock == Held(ByStaging) ==> s.owners[n].phase.Live? || s.owners[n].phase.Dropping?)
    && (d.lock.Held? && d.lock.holder.BySweep? ==>
          d.lock.holder.k < |s.sweeps| && s.sweeps[d.lock.holder.k].pc == WillRemove(n, true))
  }

  ghost predicate OwnerOk(s: State, n: Name)
    requires n in s.owners
  {
    var o := s.owners[n];
    && o.born <= s.now
    && ((o.phase.Made? || o.phase.Opened?) && s.now <= o.born + STALE_AFTER ==> n in s.dirs)
    && (LockedInTime(o) ==> n in s.dirs && s.dirs[n].lock == Held(ByStaging))
    && (o.phase.Live? && n in s.dirs ==> s.dirs[n].lock == Held(ByStaging))
    && (o.phase.Gone? ==> n !in s.dirs)
  }

  /** The owner of `n` is dropping it or dead. */
  predicate Leaving(s: State, n: Name) {
    InPhase(s, n, Dropping) || InPhase(s, n, Crashed)
  }

  /** A sweep that took the lock of a directory has it until the directory is gone, unless its owner is leaving it. */
  ghost predicate Excludes(s: State, k: nat)
    requires k < |s.sweeps|
  {
    match s.sweeps[k].pc
    case LockOpened(n) => n in s.dirs && s.dirs[n].lock.NoFile? ==> Leaving(s, n)
    case WillRemove(n, locked) => locked && n in s.dirs ==> s.dirs[n].lock == Held(BySweep(k)) || Leaving(s, n)
    case _ => true
  }

  ghost predicate SweepsExclude(s: State) {
    forall k :: 0 <= k < |s.sweeps| ==> Excludes(s, k)
  }

  ghost predicate SweepsAged(s: State) {
    forall k :: 0 <= k < |s.sweeps| ==> SweepAged(s, s.sweeps[k])
  }

  ghost predicate DueKept(s: State) {
    forall k, n :: 0 <= k < |s.sweeps| && n in s.sweeps[k].due ==> DueOk(s, s.sweeps[k], n)
  }

  ghost predicate DirsOk(s: State) {
    forall n :: n in s.dirs ==> DirOk(s, n)
  }

  ghost predicate OwnersOk(s: State) {
    forall n :: n in s.owners ==> OwnerOk(s, n)
  }

  ghost predicate Inv(s: State) {
    SweepsAged(s) && DueKept(s) && DirsOk(s) && OwnersOk(s) && SweepsExclude(s)
  }

  predicate ByOwner(a: Act) {
    a.MakeDir? || a.OpenLock? || a.TakeLock? || a.Write? || a.BeginDrop? || a.UnlinkLock? || a.EndDrop? || a.Crash?
  }

  lemma SweeperKeepsAged(s: State, a: Act)
    requires Inv(s) && Can(s, a) && (a.Visit? || a.OpenSweepLock? || a.TrySweepLock?)
    ensures SweepAged(Do(s, a), Do(s, a).sweeps[a.k])
  {
    assert SweepAged(s, s.sweeps[a.k]);
    match a
    case Visit(_, n) => assert n in s.dirs ==> DirOk(s, n);
    case OpenSweepLock(j) => assert OwnerOk(s, s.sweeps[j].pc.name);
    case TrySweepLock(j) => assert OwnerOk(s, s.sweeps[j].pc.name);
  }

  lemma OwnerKeepsSweep(s: State, a: Act, sweep: Sweep)
    requires OwnersOk(s) && Can(s, a) && (ByOwner(a) || a.Tick?) && SweepAged(s, sweep)
    ensures SweepAged(Do(s, a), sweep)
  {
  }

  lemma KeepsSweepsAged(s: State, a: Act)
    requires Inv(s) && Can(s, a)
    ensures SweepsAged(Do(s, a))
  {
    var s' := Do(s, a);
    if a.Visit? || a.OpenSweepLock? || a.TrySweepLock? {
      SweeperKeepsAged(s, a);
    }
    forall k | 0 <= k < |s'.sweeps| ensures SweepAged(s', s'.sweeps[k]) {
      if k < |s.sweeps| {
        assert SweepAged(s, s.sweeps[k]);
        if ByOwner(a) || a.Tick? {
          OwnerKeepsSweep(s, a, s.sweeps[k]);
        }
      }
    }
  }

  lemma OwnerKeepsDue(s: State, a: Act, sweep: Sweep, n: Name)
    requires Can(s, a) && (ByOwner(a) || a.Tick?) && DueOk(s, sweep, n)
    ensures DueOk(Do(s, a), sweep, n)
  {
  }

  lemma SweeperKeepsDue(s: State, a: Act, k: nat, n: Name)
    requires Can(s, a) && !ByOwner(a) && !a.Tick? && k < |s.sweeps| && DueOk(s, s.sweeps[k], n)
    ensures DueOk(Do(s, a), Do(s, a).sweeps[k], n)
  {
  }

  lemma KeepsDueKept(s: State, a: Act)
    requires Inv(s) && Can(s, a)
    ensures DueKept(Do(s, a))
  {
    var s' := Do(s, a);
    forall k, n | 0 <= k < |s'.sweeps| && n in s'.sweeps[k].due ensures DueOk(s', s'.sweeps[k], n) {
      if k < |s.sweeps| {
        assert DueOk(s, s.sweeps[k], n);
        if ByOwner(a) || a.Tick? {
          OwnerKeepsDue(s, a, s.sweeps[k], n);
        } else {
          SweeperKeepsDue(s, a, k, n);
        }
      }
    }
  }

  lemma OwnerKeepsDirsOk(s: State, a: Act)
    requires Inv(s) && Can(s, a) && ByOwner(a)
    ensures DirsOk(Do(s, a))
  {
    var s' := Do(s, a);
    forall n | n in s'.dirs ensures DirOk(s', n) {
      assert n in s.dirs ==> DirOk(s, n);
    }
  }

  lemma KeepsDirsOk(s: State, a: Act)
    requires Inv(s) && Can(s, a)
    ensures DirsOk(Do(s, a))
  {
    if ByOwner(a) {
      OwnerKeepsDirsOk(s, a);
    } else {
      SweeperKeepsDirsOk(s, a);
    }
  }

  lemma SweeperKeepsDirsOk(s: State, a: Act)
    requires Inv(s) && Can(s, a) && !ByOwner(a)
    ensures DirsOk(Do(s, a))
  {
    var s' := Do(s, a);
    forall n | n in s'.dirs ensures DirOk(s', n) {
      assert DirOk(s, n);
      SweeperKeepsDir(s, a, n);
    }
  }

  lemma SweeperKeepsDir(s: State, a: Act, n: Name)
    requires Can(s, a) && !ByOwner(a) && n in s.dirs && DirOk(s, n) && n in Do(s, a).dirs
    ensures DirOk(Do(s, a), n)
  {
  }

  lemma KeepsOwnersOk(s: State, a: Act)
    requires Inv(s) && Can(s, a)
    ensures OwnersOk(Do(s, a))
  {
    var s' := Do(s, a);
    forall n | n in s'.owners ensures OwnerOk(s', n) {
      if ByOwner(a) {
        OwnerKeepsOwner(s, a, n);
      } else {
        assert OwnerOk(s, n);
        if a.RemoveDir? {
          assert SweepAged(s, s.sweeps[a.k]);
        }
      }
    }
  }

  lemma OwnerKeepsOwner(s: State, a: Act, n: Name)
    requires Inv(s) && Can(s, a) && ByOwner(a) && n in Do(s, a).owners
    ensures OwnerOk(Do(s, a), n)
  {
    assert n in s.owners ==> OwnerOk(s, n);
  }

  lemma KeepsSweepsExclude(s: State, a: Act)
    requires Inv(s) && Can(s, a)
    ensures SweepsExclude(Do(s, a))
  {
    var s' := Do(s, a);
    forall k | 0 <= k < |s'.sweeps| ensures Excludes(s', k) {
      if k < |s.sweeps| {
        assert Excludes(s, k) && SweepAged(s, s.sweeps[k]);
        if ByOwner(a) {
          OwnerKeepsExcludes(s, a, k);
        }
      }
    }
  }

  lemma OwnerKeepsExcludes(s: State, a: Act, k: nat)
    requires Can(s, a) && ByOwner(a) && k < |s.sweeps| && Excludes(s, k) && SweepAged(s, s.sweeps[k])
    ensures Excludes(Do(s, a), k)
  {
  }

  lemma StepKeepsInv(s: State, a: Act)
    requires Inv(s) && Can(s, a)
    ensures Inv(Do(s, a))
  {
    KeepsSweepsAged(s, a);
    KeepsDueKept(s, a);
    KeepsDirsOk(s, a);
    KeepsOwnersOk(s, a);
    KeepsSweepsExclude(s, a);
  }

  lemma {:induction false} RunKeepsInv(s: State, acts: seq<Act>)
    requires Inv(s) && ExecFrom(s, acts).Some?
    ensures Inv(ExecFrom(s, acts).value)
    decreases |acts|
  {
    if acts != [] {
      StepKeepsInv(s, acts[0]);
      RunKeepsInv(Do(s, acts[0]), acts[1..]);
    }
  }

  lemma ReachedInv(s: State)
    requires Reached(s)
    ensures Inv(s)
  {
    var acts :| ExecFrom(EMPTY, acts) == Some(s);
    RunKeepsInv(EMPTY, acts);
  }

  lemma {:induction false} ExecFromConcat(s: State, first: seq<Act>, second: seq<Act>)
    requires ExecFrom(s, first).Some?
    ensures ExecFrom(s, first + second) == ExecFrom(ExecFrom(s, first).value, second)
    decreases |first|
  {
    if first == [] {
      assert first + second == second;
    } else {
      assert (first + second)[1..] == first[1..] + second;
      ExecFromConcat(Do(s, first[0]), first[1..], second);
    }
  }

  // ---- live directories are spared, crashed ones are not ----

  /** Only its own drop, or a sweep more than 24 hours after it was made, ever removes a directory. */
  lemma RemovalsAreJustified(s: State, a: Act, n: Name)
    requires Reached(s) && Can(s, a) && n in s.dirs && n !in Do(s, a).dirs
    ensures
      || (a == EndDrop(n) && InPhase(s, n, Dropping))
      || (a.RemoveDir? && s.sweeps[a.k].pc.name == n && Aged(s, n) && !LockedInTime(s.owners[n]))
  {
    ReachedInv(s);
    if a.RemoveDir? {
      assert SweepAged(s, s.sweeps[a.k]);
    }
  }

  /** A staging that took its lock within 24 hours keeps directory and lock for as long as it lives. */
  lemma SweepSparesLive(s: State, n: Name)
    requires Reached(s) && n in s.owners && LockedInTime(s.owners[n])
    ensures n in s.dirs && s.dirs[n].lock == Held(ByStaging)
  {
    ReachedInv(s);
    assert OwnerOk(s, n);
  }

  /** The directory of a live staging is only ever taken by a sweep that saw no lock file in it. */
  lemma LiveIsTakenOnlyUnlocked(s: State, k: nat)
    requires Reached(s) && Can(s, RemoveDir(k)) && IsLive(s, s.sweeps[k].pc.name) && s.sweeps[k].pc.name in s.dirs
    ensures !s.sweeps[k].pc.locked && s.dirs[s.sweeps[k].pc.name].lock == Held(ByStaging)
  {
    ReachedInv(s);
    assert OwnerOk(s, s.sweeps[k].pc.name) && Excludes(s, k);
  }

  /** Two parties never hold one lock: not two sweeps, and not a sweep and a live staging. */
  lemma LocksExclude(s: State, j: nat, k: nat)
    requires Reached(s) && j < |s.sweeps| && k < |s.sweeps|
    requires s.sweeps[j].pc.WillRemove? && s.sweeps[j].pc.locked && s.sweeps[j].pc.name in s.dirs
    requires s.sweeps[k].pc == s.sweeps[j].pc && !Leaving(s, s.sweeps[j].pc.name)
    ensures j == k && !IsLive(s, s.sweeps[j].pc.name)
  {
    ReachedInv(s);
    assert Excludes(s, j) && Excludes(s, k) && DirOk(s, s.sweeps[j].pc.name) && OwnerOk(s, s.sweeps[j].pc.name);
  }

  /** A staging that was dropped has left nothing behind. */
  lemma DroppedIsGone(s: State, n: Name)
    requires Reached(s) && InPhase(s, n, Gone)
    ensures n !in s.dirs
  {
    ReachedInv(s);
    assert OwnerOk(s, n);
  }

  /** Made, eyed by a sweep `d` seconds later, then locked, then removed under a live `Staging`. */
  function SlowCreate(d: nat): seq<Act> {
    [MakeDir(0), Tick(d), BeginSweep, Visit(0, 0)] + [OpenSweepLock(0), OpenLock(0), TakeLock(0), RemoveDir(0)]
  }

  /** The eight steps, four at a time. */
  lemma SlowCreateIsSwept(d: nat)
    requires d > STALE_AFTER
    ensures ExecFrom(EMPTY, SlowCreate(d)).Some?
    ensures var s := ExecFrom(EMPTY, SlowCreate(d)).value; IsLive(s, 0) && s.owners[0] == Owner(0, Live(d)) && 0 !in s.dirs
  {
    MadeThenEyed(d);
    EyedThenRemoved(d);
    ExecFromConcat(EMPTY, [MakeDir(0), Tick(d), BeginSweep, Visit(0, 0)],
                   [OpenSweepLock(0), OpenLock(0), TakeLock(0), RemoveDir(0)]);
  }

  function Eyed(d: nat): State {
    State(map[0 := Dir(0, NoFile)], map[0 := Owner(0, Made)], [Sweep(d, {}, FoundStale(0), {}, {}, {})], d)
  }

  lemma MadeThenEyed(d: nat)
    requires d > STALE_AFTER
    ensures ExecFrom(EMPTY, [MakeDir(0), Tick(d), BeginSweep, Visit(0, 0)]) == Some(Eyed(d))
  {
    var ticked := Do(Do(EMPTY, MakeDir(0)), Tick(d));
    assert ticked == State(map[0 := Dir(0, NoFile)], map[0 := Owner(0, Made)], [], d);
    assert CrashedAndStale(ticked) == {} && ticked.dirs.Keys == {0};
    assert Do(ticked, BeginSweep).sweeps == [Sweep(d, {0}, Next, {}, {}, {})];
    var none: set<Name> := {0} - {0};
    assert none == {};
    assert DoVisit(Do(ticked, BeginSweep), 0, 0).sweeps == [Sweep(d, none, FoundStale(0), {}, {}, {})];
    Four(EMPTY, MakeDir(0), Tick(d), BeginSweep, Visit(0, 0));
  }

  lemma EyedThenRemoved(d: nat)
    ensures ExecFrom(Eyed(d), [OpenSweepLock(0), OpenLock(0), TakeLock(0), RemoveDir(0)]).Some?
    ensures var s := ExecFrom(Eyed(d), [OpenSweepLock(0), OpenLock(0), TakeLock(0), RemoveDir(0)]).value;
            s.owners == map[0 := Owner(0, Live(d))] && s.dirs == map[]
  {
    var looked := Do(Eyed(d), OpenSweepLock(0));
    assert looked.sweeps == [Sweep(d, {}, WillRemove(0, false), {}, {}, {})];
    var live := Do(Do(looked, OpenLock(0)), TakeLock(0));
    assert live.owners == map[0 := Owner(0, Live(d))];
    Four(Eyed(d), OpenSweepLock(0), OpenLock(0), TakeLock(0), RemoveDir(0));
  }

  lemma Four(s: State, a: Act, b: Act, c: Act, d: Act)
    requires Can(s, a) && Can(Do(s, a), b) && Can(Do(Do(s, a), b), c) && Can(Do(Do(Do(s, a), b), c), d)
    ensures ExecFrom(s, [a, b, c, d]) == Some(Do(Do(Do(Do(s, a), b), c), d))
  {
    assert [a, b, c, d][1..] == [b, c, d];
    assert [b, c, d][1..] == [c, d];
    assert [c, d][1..] == [d];
    assert [d][1..] == [];
    var s3 := Do(Do(Do(s, a), b), c);
    assert ExecFrom(s3, [d]) == ExecFrom(Do(s3, d), []);
    assert ExecFrom(Do(Do(s, a), b), [c, d]) == ExecFrom(s3, [d]);
    assert ExecFrom(Do(s, a), [b, c, d]) == ExecFrom(Do(Do(s, a), b), [c, d]);
  }

  /** No sweep can take the directory of a live staging, exactly when locking it took at most 24 hours. */
  lemma SparedIffLockedInTime(d: nat)
    ensures (forall s, n :: Reached(s) && IsLive(s, n) && s.owners[n].phase.lockedAt == s.owners[n].born + d
                            ==> n in s.dirs)
            <==> d <= 86400
  {
    if d <= STALE_AFTER {
      forall s, n | Reached(s) && IsLive(s, n) && s.owners[n].phase.lockedAt == s.owners[n].born + d
        ensures n in s.dirs
      {
        SweepSparesLive(s, n);
      }
    } else {
      SlowCreateIsSwept(d);
      var s := ExecFrom(EMPTY, SlowCreate(d)).value;
      assert Reached(s) && IsLive(s, 0);
    }
  }

  lemma {:induction false} DuePersists(s: State, acts: seq<Act>, k: nat)
    requires SweepAt(s, k) && ExecFrom(s, acts).Some?
    ensures var t := ExecFrom(s, acts).value; SweepAt(t, k) && t.sweeps[k].due == s.sweeps[k].due
    decreases |acts|
  {
    if acts != [] {
      DuePersists(Do(s, acts[0]), acts[1..], k);
    }
  }

  /**
   * Whatever everyone else does meanwhile, a sweep begun when `n` is crashed and stale has removed it by the time
   * it ends, unless it could not open the lock file or found the lock held.
   */
  lemma CrashedIsSwept(s: State, acts: seq<Act>, n: Name)
    requires Reached(s) && InPhase(s, n, Crashed) && n in s.dirs && s.dirs[n].mtime + 86400 < s.now
    requires ExecFrom(Do(s, BeginSweep), acts).Some?
    ensures var t := ExecFrom(Do(s, BeginSweep), acts).value;
            var k := |s.sweeps|;
            && SweepAt(t, k)
            && (t.sweeps[k].pc.Finished? && n !in t.sweeps[k].unopened && n !in t.sweeps[k].contended
                ==> n !in t.dirs)
  {
    ReachedInv(s);
    var begun := Do(s, BeginSweep);
    var k := |s.sweeps|;
    assert n in begun.sweeps[k].due;
    StepKeepsInv(s, BeginSweep);
    RunKeepsInv(begun, acts);
    DuePersists(begun, acts, k);
    assert DueOk(ExecFrom(begun, acts).value, ExecFrom(begun, acts).value.sweeps[k], n);
  }

  /** Making a directory, making its lock file and writing into it touch it. */
  predicate Touches(s: State, a: Act, n: Name) {
    a == MakeDir(n) || a == Write(n) || (a == OpenLock(n) && n in s.dirs && s.dirs[n].lock.NoFile?)
  }

  /** `n` was touched at `at` or later, and sweep `k`, if it began in time, is not looking at it. */
  ghost predicate Fresh(s: State, n: Name, at: nat, k: nat) {
    && n in s.owners && at <= s.now
    && (n in s.dirs ==> at <= s.dirs[n].mtime)
    && (k < |s.sweeps| && s.sweeps[k].startedAt <= at + STALE_AFTER ==> !AtName(s.sweeps[k].pc, n))
  }

  lemma OwnerKeepsFresh(s: State, a: Act, n: Name, at: nat, k: nat)
    requires Fresh(s, n, at, k) && Can(s, a) && ByOwner(a)
    ensures Fresh(Do(s, a), n, at, k)
  {
  }

  lemma SweeperKeepsFresh(s: State, a: Act, n: Name, at: nat, k: nat)
    requires Fresh(s, n, at, k) && Can(s, a) && !ByOwner(a)
    ensures Fresh(Do(s, a), n, at, k)
  {
  }

  lemma {:induction false} StaysFresh(s: State, acts: seq<Act>, n: Name, at: nat, k: nat)
    requires Fresh(s, n, at, k) && ExecFrom(s, acts).Some?
    ensures Fresh(ExecFrom(s, acts).value, n, at, k)
    decreases |acts|
  {
    if acts != [] {
      if ByOwner(acts[0]) {
        OwnerKeepsFresh(s, acts[0], n, at, k);
      } else {
        SweeperKeepsFresh(s, acts[0], n, at, k);
      }
      StaysFresh(Do(s, acts[0]), acts[1..], n, at, k);
    }
  }

  /**
   * A directory that was touched is left alone, locked or not, by every sweep that begins afterwards and within
   * 24 hours: it never even looks at the lock.
   */
  lemma TouchedIsSpared(s: State, a: Act, n: Name, acts: seq<Act>, k: nat)
    requires Reached(s) && Can(s, a) && Touches(s, a, n) && ExecFrom(Do(s, a), acts).Some?
    requires var t := ExecFrom(Do(s, a), acts).value;
             |s.sweeps| <= k < |t.sweeps| && t.sweeps[k].startedAt <= s.now + 86400
    ensures !AtName(ExecFrom(Do(s, a), acts).value.sweeps[k].pc, n)
  {
    ReachedInv(s);
    StaysFresh(Do(s, a), acts, n, s.now, k);
  }

  /** The lock of a crashed staging is held only by another sweep that is about to remove the directory itself. */
  lemma ContendedMeansAnotherSweep(s: State, k: nat)
    requires Reached(s) && Can(s, TrySweepLock(k))
    requires InPhase(s, s.sweeps[k].pc.name, Crashed)
    requires Do(s, TrySweepLock(k)).sweeps[k].contended != s.sweeps[k].contended
    ensures exists j :: 0 <= j < |s.sweeps| && j != k && s.sweeps[j].pc == WillRemove(s.sweeps[k].pc.name, true)
  {
    ReachedInv(s);
    var n := s.sweeps[k].pc.name;
    assert DirOk(s, n);
    assert s.sweeps[s.dirs[n].lock.holder.k].pc == WillRemove(n, true);
  }

  // ---- one sweep on its own ----

  /** No lock file, or one that opens and is not held. */
  predicate Unlocked(d: Dir, openable: bool) {
    d.lock.NoFile? || (openable && d.lock.Free?)
  }

  function Swept(dirs: map<Name, Dir>, listing: seq<Name>, unopenable: set<Name>, now: nat): map<Name, Dir> {
    map n | n in dirs && !(n in listing && IsStale(dirs[n], now) && Unlocked(dirs[n], n !in unopenable)) :: dirs[n]
  }

  /** The staging root, with no one else at work in it. */
  class StagingRoot {
    var dirs: map<Name, Dir>

    constructor (dirs: map<Name, Dir>)
      ensures this.dirs == dirs
    {
      this.dirs := dirs;
    }

    method RemoveIfUnlocked(n: Name, openable: bool)
      requires n in dirs
      modifies this
      ensures dirs == if Unlocked(old(dirs)[n], openable) then old(dirs) - {n} else old(dirs)
    {
      match dirs[n].lock
      case NoFile => dirs := dirs - {n};
      case Free => if openable { dirs := dirs - {n}; }
      case Held(_) =>
    }

    /** Removes exactly the listed directories that are stale and not locked, and skips what it cannot open. */
    method SweepStale(listing: seq<Name>, unopenable: set<Name>, now: nat)
      modifies this
      ensures dirs == Swept(old(dirs), listing, unopenable, now)
    {
      for i := 0 to |listing|
        invariant dirs == Swept(old(dirs), listing[..i], unopenable, now)
      {
        var n := listing[i];
        assert listing[..i + 1] == listing[..i] + [n];
        if n in dirs && IsStale(dirs[n], now) {
          RemoveIfUnlocked(n, n !in unopenable);
        }
      }
      assert listing[..|listing|] == listing;
    }
  }

  /** The steps of one undisturbed sweep over one entry. */
  function EntryActs(s: State, k: nat, n: Name, unopenable: set<Name>): seq<Act> {
    if n !in s.dirs || !SweepAt(s, k) then []
    else if !IsStale(s.dirs[n], s.sweeps[k].startedAt) then [Visit(k, n)]
    else if s.dirs[n].lock.NoFile? then [Visit(k, n), OpenSweepLock(k)] + [RemoveDir(k)]
    else if n in unopenable then [Visit(k, n), OpenSweepLockFails(k)]
    else if s.dirs[n].lock.Held? then [Visit(k, n), OpenSweepLock(k)] + [TrySweepLock(k)]
    else [Visit(k, n), OpenSweepLock(k)] + [TrySweepLock(k), RemoveDir(k)]
  }

  ghost predicate BetweenEntries(s: State, k: nat, now: nat) {
    SweepAt(s, k) && s.sweeps[k].pc.Next? && s.sweeps[k].startedAt == now
  }

  lemma One(s: State, a: Act)
    requires Can(s, a)
    ensures ExecFrom(s, [a]) == Some(Do(s, a))
  {
    assert [a][1..] == [];
    assert ExecFrom(s, [a]) == ExecFrom(Do(s, a), []);
  }

  lemma Two(s: State, a: Act, b: Act)
    requires Can(s, a) && Can(Do(s, a), b)
    ensures ExecFrom(s, [a, b]) == Some(Do(Do(s, a), b))
  {
    assert [a, b][1..] == [b];
    One(Do(s, a), b);
    assert ExecFrom(s, [a, b]) == ExecFrom(Do(s, a), [b]);
  }

  lemma EntryAlone(s: State, k: nat, n: Name, unopenable: set<Name>, now: nat)
    requires BetweenEntries(s, k, now)
    ensures ExecFrom(s, EntryActs(s, k, n, unopenable)).Some?
    ensures var t := ExecFrom(s, EntryActs(s, k, n, unopenable)).value;
            BetweenEntries(t, k, now) && t.dirs == Swept(s.dirs, [n], unopenable, now)
  {
    if n in s.dirs {
      One(s, Visit(k, n));
      if IsStale(s.dirs[n], now) {
        if n in unopenable && !s.dirs[n].lock.NoFile? {
          Two(s, Visit(k, n), OpenSweepLockFails(k));
        } else {
          LookedAtAlone(s, k, n, unopenable, now);
        }
      }
    }
  }

  lemma LookedAtAlone(s: State, k: nat, n: Name, unopenable: set<Name>, now: nat)
    requires BetweenEntries(s, k, now) && n in s.dirs && IsStale(s.dirs[n], now)
    requires s.dirs[n].lock.NoFile? || n !in unopenable
    ensures ExecFrom(s, EntryActs(s, k, n, unopenable)).Some?
    ensures var t := ExecFrom(s, EntryActs(s, k, n, unopenable)).value;
            BetweenEntries(t, k, now) && t.dirs == Swept(s.dirs, [n], unopenable, now)
  {
    Two(s, Visit(k, n), OpenSweepLock(k));
    var looked := Do(Do(s, Visit(k, n)), OpenSweepLock(k));
    assert looked.dirs == s.dirs && SweepAt(looked, k) && looked.sweeps[k].startedAt == now;
    match s.dirs[n].lock
    case NoFile =>
      One(looked, RemoveDir(k));
      ExecFromConcat(s, [Visit(k, n), OpenSweepLock(k)], [RemoveDir(k)]);
    case Held(_) =>
      One(looked, TrySweepLock(k));
      ExecFromConcat(s, [Visit(k, n), OpenSweepLock(k)], [TrySweepLock(k)]);
    case Free =>
      LockedThenRemoved(looked, k, n);
      ExecFromConcat(s, [Visit(k, n), OpenSweepLock(k)], [TrySweepLock(k), RemoveDir(k)]);
  }

  lemma LockedThenRemoved(s: State, k: nat, n: Name)
    requires SweepAt(s, k) && s.sweeps[k].pc == LockOpened(n) && n in s.dirs && s.dirs[n].lock.Free?
    ensures ExecFrom(s, [TrySweepLock(k), RemoveDir(k)]).Some?
    ensures var t := ExecFrom(s, [TrySweepLock(k), RemoveDir(k)]).value;
            BetweenEntries(t, k, s.sweeps[k].startedAt) && t.dirs == s.dirs - {n}
  {
    Two(s, TrySweepLock(k), RemoveDir(k));
  }

  /** Left alone, the steps of a sweep leave exactly what the loop of `SweepStale` leaves. */
  lemma {:induction false} UndisturbedSweep(s: State, k: nat, listing: seq<Name>, unopenable: set<Name>, now: nat)
    returns (acts: seq<Act>)
    requires BetweenEntries(s, k, now)
    ensures ExecFrom(s, acts).Some?
    ensures var t := ExecFrom(s, acts).value;
            BetweenEntries(t, k, now) && t.dirs == Swept(s.dirs, listing, unopenable, now)
    decreases |listing|
  {
    if listing == [] {
      acts := [];
    } else {
      var first := EntryActs(s, k, listing[0], unopenable);
      EntryAlone(s, k, listing[0], unopenable, now);
      var t := ExecFrom(s, first).value;
      var rest := UndisturbedSweep(t, k, listing[1..], unopenable, now);
      ExecFromConcat(s, first, rest);
      acts := first + rest;
      assert listing == [listing[0]] + listing[1..];
    }
  }
}
