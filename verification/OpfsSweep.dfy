/**
 Tabs sharing one origin-private file system.  Each tab holds a shared lock named after its directory; a sweep runs
 under one exclusive lock, asks which lock names are held or wanted, and removes every other directory.  Tabs and
 their tasks interleave at every await.

 The lock manager is the browser's: an exclusive lock excludes every other holder of the name, and a request whose
 name begins with a hyphen is rejected (the `request()` method of the W3C Web Locks API).  What a closing tab was about to remove
 is either removed by then or never.
 */
module OpfsSweep {
  import opened Bytes

  type Name = string
  type TabId = nat
  type TaskId = nat

  const OPFS_LOCK_NAME: Name := "X_TbN9q4-pZ"

  predicate OpaqueChar(c: char) {
    'A' <= c <= 'Z' || 'a' <= c <= 'z' || '0' <= c <= '9' || c == '_' || c == '-'
  }

  /** The names a sweep takes for session directories: 11 base64url characters. */
  predicate Opaque(n: Name) {
    |n| == 11 && forall i | 0 <= i < |n| :: OpaqueChar(n[i])
  }

  /** The names the browser accepts for a lock. */
  predicate Lockable(n: Name) {
    !(|n| > 0 && n[0] == '-')
  }

  datatype Kind = Boot(dir: Name) | Bfcache | Purge(dir: Name)

  datatype Pc =
    | Start
    | AwaitLiveness
    | AwaitLock
    | Locked
    | Sweeping(live: set<Name>)
    | Removing(live: set<Name>, target: Name)
    | Done(enabled: bool)

  datatype Task = Task(tab: TabId, kind: Kind, pc: Pc)

  /** A tab: the directories it has asked a lock for, and the liveness locks it holds or waits for. */
  datatype Tab = Tab(marked: set<Name>, held: set<Name>, pending: set<Name>)

  datatype World = World(
    tabs: map<TabId, Tab>,
    tasks: map<TaskId, Task>,
    used: set<TaskId>,
    dirs: set<Name>,
    holder: Option<TaskId>)

  predicate InCritical(pc: Pc) {
    pc.Locked? || pc.Sweeping? || pc.Removing?
  }

  function Moved(w: World, id: TaskId, pc: Pc): World
    requires id in w.tasks
  {
    w.(tasks := w.tasks[id := w.tasks[id].(pc := pc)])
  }

  /** `holdDirLivenessLock`: ask once per directory; a rejected request counts as acquired. */
  function HoldLiveness(w: World, id: TaskId): World
    requires id in w.tasks && w.tasks[id].kind.Boot? && w.tasks[id].tab in w.tabs
  {
    var t := w.tasks[id].tab;
    var dir := w.tasks[id].kind.dir;
    var tab := w.tabs[t];
    if dir in tab.marked then Moved(w, id, AwaitLock)
    else if !Lockable(dir) then
      Moved(w.(tabs := w.tabs[t := tab.(marked := tab.marked + {dir})]), id, AwaitLock)
    else
      Moved(w.(tabs := w.tabs[t := tab.(marked := tab.marked + {dir}, pending := tab.pending + {dir})]),
            id, AwaitLiveness)
  }

  /** `queryLiveLockNames`: every lock name some tab holds or waits for. */
  function LiveLockNames(w: World): set<Name> {
    (set t, n | t in w.tabs && n in w.tabs[t].held + w.tabs[t].pending :: n) +
    (if w.holder.Some? then {OPFS_LOCK_NAME} else {})
  }

  predicate Doomed(kind: Kind, live: set<Name>, n: Name) {
    Opaque(n) && kind != Boot(n) && n !in live
  }

  function Release(w: World, id: TaskId): World {
    if w.holder == Some(id) then w.(holder := None) else w
  }

  /** The locks and tasks of a closing tab go; a removal it had under way has happened or never will. */
  function CloseTab(w: World, t: TabId, removed: bool): World
    requires t in w.tabs
  {
    var tasks := map id | id in w.tasks && w.tasks[id].tab != t :: w.tasks[id];
    var critical := w.holder.Some? && w.holder.value in w.tasks && w.tasks[w.holder.value].tab == t;
    var dirs :=
      if critical && w.tasks[w.holder.value].pc.Removing? && removed
      then w.dirs - {w.tasks[w.holder.value].pc.target}
      else if critical && w.tasks[w.holder.value].pc.Locked? && w.tasks[w.holder.value].kind.Purge? && removed
      then w.dirs - {w.tasks[w.holder.value].kind.dir}
      else w.dirs;
    World(w.tabs - {t}, tasks, w.used, dirs, if critical then None else w.holder)
  }

  datatype Event =
    | OpenTab(tab: TabId)
    | Close(tab: TabId, removed: bool)
    | StartTask(id: TaskId, tab: TabId, kind: Kind)
    | Begin(id: TaskId)
    | GrantLiveness(tab: TabId, name: Name)
    | Resume(id: TaskId)
    | GrantLock(id: TaskId)
    | Query(id: TaskId)
    | Entry(id: TaskId, name: Name)
    | Removed(id: TaskId, ok: bool)
    | PurgeRemoved(id: TaskId, ok: bool)
    | Finish(id: TaskId)
    | Fail(id: TaskId)

  predicate At(w: World, id: TaskId) {
    id in w.tasks && w.tasks[id].tab in w.tabs
  }

  function Step(w: World, ev: Event): World {
    match ev
    case OpenTab(t) => if t in w.tabs then w else w.(tabs := w.tabs[t := Tab({}, {}, {})])
    case Close(t, removed) => if t in w.tabs then CloseTab(w, t, removed) else w
    case StartTask(id, t, kind) =>
      if t !in w.tabs || id in w.used then w
      else w.(tasks := w.tasks[id := Task(t, kind, Start)], used := w.used + {id})
    case Begin(id) =>
      if !At(w, id) || w.tasks[id].pc != Start then w
      else if w.tasks[id].kind.Boot? then HoldLiveness(w, id)
      else Moved(w, id, AwaitLock)
    case GrantLiveness(t, n) =>
      if t !in w.tabs || n !in w.tabs[t].pending || (n == OPFS_LOCK_NAME && w.holder.Some?) then w
      else
        var tab := w.tabs[t];
        w.(tabs := w.tabs[t := tab.(held := tab.held + {n}, pending := tab.pending - {n})])
    case Resume(id) =>
      if At(w, id) && w.tasks[id].pc == AwaitLiveness && w.tasks[id].kind.Boot? &&
         w.tasks[id].kind.dir in w.tabs[w.tasks[id].tab].held
      then Moved(w, id, AwaitLock) else w
    case GrantLock(id) =>
      if At(w, id) && w.tasks[id].pc == AwaitLock && w.holder.None? &&
         (forall t | t in w.tabs :: OPFS_LOCK_NAME !in w.tabs[t].held)
      then Moved(w, id, Locked).(holder := Some(id)) else w
    case Query(id) =>
      if At(w, id) && w.tasks[id].pc == Locked && !w.tasks[id].kind.Purge?
      then Moved(w, id, Sweeping(LiveLockNames(w))) else w
    case Entry(id, n) =>
      if At(w, id) && w.tasks[id].pc.Sweeping? && Doomed(w.tasks[id].kind, w.tasks[id].pc.live, n)
      then Moved(w, id, Removing(w.tasks[id].pc.live, n)) else w
    case Removed(id, ok) =>
      if At(w, id) && w.tasks[id].pc.Removing? then
        Moved(w, id, Sweeping(w.tasks[id].pc.live))
          .(dirs := if ok then w.dirs - {w.tasks[id].pc.target} else w.dirs)
      else w
    case PurgeRemoved(id, ok) =>
      if At(w, id) && w.tasks[id].pc == Locked && w.tasks[id].kind.Purge? then
        Release(Moved(w, id, Done(true)), id).(dirs := if ok then w.dirs - {w.tasks[id].kind.dir} else w.dirs)
      else w
    case Finish(id) =>
      if At(w, id) && w.tasks[id].pc.Sweeping? then
        Release(Moved(w, id, Done(true)), id)
          .(dirs := if w.tasks[id].kind.Boot? then w.dirs + {w.tasks[id].kind.dir} else w.dirs)
      else w
    case Fail(id) =>
      if At(w, id) && (w.tasks[id].pc == AwaitLock || w.tasks[id].pc == Locked || w.tasks[id].pc.Sweeping?)
      then Release(Moved(w, id, Done(false)), id) else w
  }

  const Empty := World(map[], map[], {}, {}, None)

  function RunFrom(w: World, events: seq<Event>): World {
    if events == [] then w else Step(RunFrom(w, events[..|events| - 1]), events[|events| - 1])
  }

  function Run(dirs: set<Name>, events: seq<Event>): World {
    RunFrom(Empty.(dirs := dirs), events)
  }

  // ---- the invariant ----------------------------------------------------------------------------------------

  /** A directory once asked for stays locked, or queued for, while the tab lives. */
  ghost predicate TabOk(tab: Tab) {
    forall n | n in tab.marked :: Lockable(n) ==> n in tab.held || n in tab.pending
  }

  ghost predicate TaskOk(task: Task, tabs: map<TabId, Tab>) {
    && task.tab in tabs
    && (task.kind.Boot? && task.pc != Start ==> task.kind.dir in tabs[task.tab].marked)
    && (task.pc.Removing? ==> Doomed(task.kind, task.pc.live, task.pc.target))
    && (task.pc.Sweeping? || task.pc.Removing? ==> !task.kind.Purge?)
  }

  /** A boot that has had the exclusive lock: from here on its directory counts as live. */
  predicate Guards(task: Task, dir: Name) {
    task.kind == Boot(dir) && Lockable(dir) && (InCritical(task.pc) || task.pc == Done(true))
  }

  /** A sweep in progress knows about `dir`. */
  predicate Spares(task: Task, dir: Name) {
    (task.pc.Sweeping? || task.pc.Removing?) ==> dir in task.pc.live || task.kind == Boot(dir)
  }

  ghost predicate SparesGuarded(tasks: map<TaskId, Task>) {
    forall b, h, dir | b in tasks && h in tasks && Guards(tasks[b], dir) :: Spares(tasks[h], dir)
  }

  ghost predicate Inv(w: World) {
    && (forall t | t in w.tabs :: TabOk(w.tabs[t]))
    && (forall id | id in w.tasks :: TaskOk(w.tasks[id], w.tabs) && id in w.used)
    && (forall id | id in w.tasks :: InCritical(w.tasks[id].pc) <==> w.holder == Some(id))
    && (w.holder.Some? ==> w.holder.value in w.tasks)
    && SparesGuarded(w.tasks)
  }

  /** Moving one task on keeps the sweeps informed if its own step does. */
  lemma MoveSpares(tasks: map<TaskId, Task>, id: TaskId, pc: Pc)
    requires id in tasks && SparesGuarded(tasks)
    requires forall dir, h | h in tasks && Guards(tasks[id].(pc := pc), dir) && !Guards(tasks[id], dir) ::
      Spares(tasks[h], dir) && Spares(tasks[id].(pc := pc), dir)
    requires forall dir, b | b in tasks && Guards(tasks[b], dir) :: Spares(tasks[id].(pc := pc), dir)
    ensures SparesGuarded(tasks[id := tasks[id].(pc := pc)])
  {}

  lemma BeginKeeps(w: World, id: TaskId)
    requires Inv(w)
    ensures Inv(Step(w, Begin(id)))
  {
    if At(w, id) && w.tasks[id].pc == Start {
      MoveSpares(w.tasks, id, AwaitLock);
      MoveSpares(w.tasks, id, AwaitLiveness);
      assert TaskOk(w.tasks[id], w.tabs);
    }
  }

  lemma GrantLockKeeps(w: World, id: TaskId)
    requires Inv(w)
    ensures Inv(Step(w, GrantLock(id)))
  {
    if At(w, id) && w.tasks[id].pc == AwaitLock && w.holder.None? {
      MoveSpares(w.tasks, id, Locked);
    }
  }

  /** What a query returns covers every guarded directory. */
  lemma QueryCovers(w: World, b: TaskId, dir: Name)
    requires Inv(w) && b in w.tasks && Guards(w.tasks[b], dir)
    ensures dir in LiveLockNames(w)
  {
    var t := w.tasks[b].tab;
    assert TaskOk(w.tasks[b], w.tabs) && TabOk(w.tabs[t]);
    assert dir in w.tabs[t].held + w.tabs[t].pending;
  }

  lemma QueryKeeps(w: World, id: TaskId)
    requires Inv(w)
    ensures Inv(Step(w, Query(id)))
  {
    if At(w, id) && w.tasks[id].pc == Locked && !w.tasks[id].kind.Purge? {
      var live := LiveLockNames(w);
      forall dir, b | b in w.tasks && Guards(w.tasks[b], dir)
        ensures Spares(w.tasks[id].(pc := Sweeping(live)), dir)
      {
        QueryCovers(w, b, dir);
      }
      MoveSpares(w.tasks, id, Sweeping(live));
      assert TaskOk(w.tasks[id], w.tabs);
    }
  }

  lemma EntryKeeps(w: World, id: TaskId, n: Name)
    requires Inv(w)
    ensures Inv(Step(w, Entry(id, n)))
  {
    if At(w, id) && w.tasks[id].pc.Sweeping? && Doomed(w.tasks[id].kind, w.tasks[id].pc.live, n) {
      assert forall dir | Spares(w.tasks[id], dir) :: Spares(w.tasks[id].(pc := Removing(w.tasks[id].pc.live, n)), dir);
      MoveSpares(w.tasks, id, Removing(w.tasks[id].pc.live, n));
      assert TaskOk(w.tasks[id], w.tabs);
    }
  }

  lemma RemovedKeeps(w: World, id: TaskId, ok: bool)
    requires Inv(w)
    ensures Inv(Step(w, Removed(id, ok)))
  {
    if At(w, id) && w.tasks[id].pc.Removing? {
      assert forall dir | Spares(w.tasks[id], dir) :: Spares(w.tasks[id].(pc := Sweeping(w.tasks[id].pc.live)), dir);
      MoveSpares(w.tasks, id, Sweeping(w.tasks[id].pc.live));
      assert TaskOk(w.tasks[id], w.tabs);
    }
  }

  lemma DoneKeeps(w: World, id: TaskId, enabled: bool, dirs: set<Name>)
    requires Inv(w) && id in w.tasks
    requires enabled ==> InCritical(w.tasks[id].pc)
    requires w.tasks[id].pc != Start
    ensures Inv(Release(Moved(w, id, Done(enabled)), id).(dirs := dirs))
  {
    MoveSpares(w.tasks, id, Done(enabled));
    assert TaskOk(w.tasks[id], w.tabs);
  }

  lemma GrantLivenessKeeps(w: World, t: TabId, n: Name)
    requires Inv(w)
    ensures Inv(Step(w, GrantLiveness(t, n)))
  {
    var w' := Step(w, GrantLiveness(t, n));
    forall id | id in w'.tasks
      ensures TaskOk(w'.tasks[id], w'.tabs)
    {
      assert TaskOk(w.tasks[id], w.tabs);
    }
  }

  lemma TabsKeep(w: World, t: TabId, removed: bool, id: TaskId, kind: Kind)
    requires Inv(w)
    ensures Inv(Step(w, OpenTab(t)))
    ensures Inv(Step(w, Close(t, removed)))
    ensures Inv(Step(w, StartTask(id, t, kind)))
  {
    forall id' | id' in w.tasks
      ensures TaskOk(w.tasks[id'], w.tabs) && id' in w.used
    {}
  }

  lemma ResumeKeeps(w: World, id: TaskId)
    requires Inv(w)
    ensures Inv(Step(w, Resume(id)))
  {
    if At(w, id) && w.tasks[id].pc == AwaitLiveness {
      MoveSpares(w.tasks, id, AwaitLock);
      assert TaskOk(w.tasks[id], w.tabs);
    }
  }

  lemma StepKeeps(w: World, ev: Event)
    requires Inv(w)
    ensures Inv(Step(w, ev))
  {
    match ev
    case OpenTab(t) => TabsKeep(w, t, true, 0, Bfcache);
    case Close(t, removed) => TabsKeep(w, t, removed, 0, Bfcache);
    case StartTask(id, t, kind) => TabsKeep(w, t, true, id, kind);
    case Begin(id) => BeginKeeps(w, id);
    case GrantLiveness(t, n) => GrantLivenessKeeps(w, t, n);
    case Resume(id) => ResumeKeeps(w, id);
    case GrantLock(id) => GrantLockKeeps(w, id);
    case Query(id) => QueryKeeps(w, id);
    case Entry(id, n) => EntryKeeps(w, id, n);
    case Removed(id, ok) => RemovedKeeps(w, id, ok);
    case PurgeRemoved(id, ok) =>
      if At(w, id) && w.tasks[id].pc == Locked && w.tasks[id].kind.Purge? {
        DoneKeeps(w, id, true, if ok then w.dirs - {w.tasks[id].kind.dir} else w.dirs);
      }
    case Finish(id) =>
      if At(w, id) && w.tasks[id].pc.Sweeping? {
        DoneKeeps(w, id, true, if w.tasks[id].kind.Boot? then w.dirs + {w.tasks[id].kind.dir} else w.dirs);
      }
    case Fail(id) =>
      if At(w, id) && (w.tasks[id].pc == AwaitLock || w.tasks[id].pc == Locked || w.tasks[id].pc.Sweeping?) {
        DoneKeeps(w, id, false, w.dirs);
      }
  }

  lemma {:induction false} RunKept(w: World, events: seq<Event>)
    requires Inv(w)
    ensures Inv(RunFrom(w, events))
  {
    if events != [] {
      RunKept(w, events[..|events| - 1]);
      StepKeeps(RunFrom(w, events[..|events| - 1]), events[|events| - 1]);
    }
  }

  // ---- a live tab keeps its directory -------------------------------------------------------------------------

  /** Boot task `b` has returned enabled for `dir`, and its tab is still alive. */
  predicate Enabled(w: World, b: TaskId, dir: Name) {
    b in w.tasks && w.tasks[b].kind == Boot(dir) && w.tasks[b].pc == Done(true)
  }

  /** The step is one at which a purge of `dir` itself may take effect. */
  predicate PurgesDir(w: World, ev: Event, dir: Name) {
    && w.holder.Some? && w.holder.value in w.tasks && w.tasks[w.holder.value].kind == Purge(dir)
    && (ev.PurgeRemoved? || ev.Close?)
  }

  /** No sweep, of whatever tab and wherever it stands, removes the directory of a tab that was enabled. */
  lemma OnlyAPurgeRemoves(w: World, ev: Event, b: TaskId, dir: Name)
    requires Inv(w) && Enabled(w, b, dir) && Lockable(dir)
    requires dir in w.dirs && !PurgesDir(w, ev, dir)
    ensures dir in Step(w, ev).dirs
  {
    assert Guards(w.tasks[b], dir);
    if w.holder.Some? {
      assert TaskOk(w.tasks[w.holder.value], w.tabs) && Spares(w.tasks[w.holder.value], dir);
    }
  }

  lemma EnabledBefore(w: World, ev: Event, b: TaskId, dir: Name)
    requires Inv(w) && b in w.used && b in Step(w, ev).tasks
    ensures b in w.tasks && (Enabled(w, b, dir) ==> Enabled(Step(w, ev), b, dir))
  {}

  lemma {:induction false} StaysEnabled(w: World, events: seq<Event>, b: TaskId, dir: Name)
    requires Inv(w) && Enabled(w, b, dir) && b in RunFrom(w, events).tasks
    ensures Enabled(RunFrom(w, events), b, dir)
    ensures events != [] ==> b in RunFrom(w, events[..|events| - 1]).tasks
  {
    if events != [] {
      hide Step, Inv;
      var n := |events| - 1;
      RunKept(w, events[..n]);
      UsedIn(w, b);
      UsedGrows(w, events[..n]);
      EnabledBefore(RunFrom(w, events[..n]), events[n], b, dir);
      StaysEnabled(w, events[..n], b, dir);
    }
  }

  lemma UsedIn(w: World, b: TaskId)
    requires Inv(w) && b in w.tasks
    ensures b in w.used
  {}

  lemma {:induction false} UsedGrows(w: World, events: seq<Event>)
    ensures w.used <= RunFrom(w, events).used
  {
    if events != [] {
      UsedGrows(w, events[..|events| - 1]);
    }
  }

  lemma {:induction false} SurvivesFrom(w: World, events: seq<Event>, b: TaskId, dir: Name)
    requires Inv(w) && Enabled(w, b, dir) && Lockable(dir) && dir in w.dirs
    requires forall k | 0 <= k < |events| :: !PurgesDir(RunFrom(w, events[..k]), events[k], dir)
    requires b in RunFrom(w, events).tasks
    ensures dir in RunFrom(w, events).dirs
  {
    if events != [] {
      var n := |events| - 1;
      forall k | 0 <= k < n
        ensures !PurgesDir(RunFrom(w, events[..n][..k]), events[..n][k], dir)
      {
        assert events[..n][..k] == events[..k];
      }
      StaysEnabled(w, events, b, dir);
      SurvivesFrom(w, events[..n], b, dir);
      RunKept(w, events[..n]);
      StaysEnabled(w, events[..n], b, dir);
      OnlyAPurgeRemoves(RunFrom(w, events[..n]), events[n], b, dir);
    }
  }

  lemma FinishEnables(w: World, b: TaskId, dir: Name)
    requires Inv(w) && b in w.tasks && w.tasks[b].kind == Boot(dir) && w.tasks[b].pc.Sweeping?
    ensures Enabled(Step(w, Finish(b)), b, dir) && dir in Step(w, Finish(b)).dirs
  {
    assert TaskOk(w.tasks[b], w.tabs);
  }

  /**
   Whatever the tabs do and however their awaits interleave: from the step at which a boot sweep returns enabled
   for a directory with a lockable name, that directory exists for as long as the tab lives, unless it is purged by
   name (which only tabs of the same room do).
   */
  lemma LiveDirectorySurvives(dirs: set<Name>, before: seq<Event>, b: TaskId, dir: Name, after: seq<Event>)
    requires var w := Run(dirs, before);
      b in w.tasks && w.tasks[b].kind == Boot(dir) && w.tasks[b].pc.Sweeping? && Lockable(dir)
    requires var w := Step(Run(dirs, before), Finish(b));
      && (forall k | 0 <= k < |after| :: !PurgesDir(RunFrom(w, after[..k]), after[k], dir))
      && b in RunFrom(w, after).tasks
    ensures var w := Step(Run(dirs, before), Finish(b));
      Enabled(w, b, dir) && dir in RunFrom(w, after).dirs
  {
    RunKept(Empty.(dirs := dirs), before);
    StepKeeps(Run(dirs, before), Finish(b));
    FinishEnables(Run(dirs, before), b, dir);
    hide Step, Inv;
    SurvivesFrom(Step(Run(dirs, before), Finish(b)), after, b, dir);
  }

  // ---- and a name that cannot be locked ---------------------------------------------------------------------

  /** Tab 0 boots for `dir`, then tab 1 sweeps. */
  function SweptLive(dir: Name): seq<Event> {
    BootAlone(dir) + [StartTask(1, 1, Bfcache), Begin(1), GrantLock(1), Query(1), Entry(1, dir), Removed(1, true)]
  }

  function BootAlone(dir: Name): seq<Event> {
    [OpenTab(0), OpenTab(1), StartTask(0, 0, Boot(dir)), Begin(0), GrantLock(0), Query(0), Finish(0)]
  }

  /** Two tabs; tab 0 has asked for a lock it cannot get. */
  function Refused(dir: Name, pc: Pc, holder: Option<TaskId>): World {
    World(map[0 := Tab({dir}, {}, {}), 1 := Tab({}, {}, {})], map[0 := Task(0, Boot(dir), pc)], {0}, {}, holder)
  }

  /** The world after `BootAlone`, when the name cannot be locked. */
  function Booted(dir: Name): World {
    Refused(dir, Done(true), None).(dirs := {dir})
  }

  lemma RunTwo(w: World, a: Event, b: Event)
    ensures RunFrom(w, [a, b]) == Step(Step(w, a), b)
  {
    assert [a, b][..1] == [a] && [a][..0] == [];
    assert RunFrom(w, [a]) == Step(w, a);
  }

  lemma {:induction false} RunSplits(w: World, before: seq<Event>, after: seq<Event>)
    ensures RunFrom(w, before + after) == RunFrom(RunFrom(w, before), after)
  {
    if after == [] {
      assert before + after == before;
    } else {
      RunSplits(w, before, after[..|after| - 1]);
      assert (before + after)[..|before + after| - 1] == before + after[..|after| - 1];
    }
  }

  lemma BootBegins(dir: Name)
    requires !Lockable(dir)
    ensures
      var w1 := World(map[0 := Tab({}, {}, {}), 1 := Tab({}, {}, {})], map[], {}, {}, None);
      && Step(Step(Empty, OpenTab(0)), OpenTab(1)) == w1
      && Step(Step(w1, StartTask(0, 0, Boot(dir))), Begin(0)) == Refused(dir, AwaitLock, None)
  {
    var w1 := World(map[0 := Tab({}, {}, {}), 1 := Tab({}, {}, {})], map[], {}, {}, None);
    var w2 := Step(w1, StartTask(0, 0, Boot(dir)));
    assert w2 == w1.(tasks := map[0 := Task(0, Boot(dir), Start)], used := {0});
    var tab: Tab := w2.tabs[0];
    assert tab.marked + {dir} == {dir};
    assert w2.tabs[0 := Tab({dir}, {}, {})] == map[0 := Tab({dir}, {}, {}), 1 := Tab({}, {}, {})];
    assert w2.tasks[0 := Task(0, Boot(dir), AwaitLock)] == map[0 := Task(0, Boot(dir), AwaitLock)];
  }

  lemma BootAsks(dir: Name)
    ensures Step(Step(Refused(dir, AwaitLock, None), GrantLock(0)), Query(0)) ==
      Refused(dir, Sweeping(LiveLockNames(Refused(dir, Locked, Some(0)))), Some(0))
  {
    hide LiveLockNames;
    assert Step(Refused(dir, AwaitLock, None), GrantLock(0)) == Refused(dir, Locked, Some(0));
  }

  lemma BootFinishes(dir: Name, live: set<Name>)
    ensures Step(Refused(dir, Sweeping(live), Some(0)), Finish(0)) == Booted(dir)
  {
    assert Step(Refused(dir, Sweeping(live), Some(0)), Finish(0)).dirs == {dir};
  }

  lemma BootAloneRuns(dir: Name)
    requires !Lockable(dir)
    ensures Run({}, BootAlone(dir)) == Booted(dir)
  {
    BootBegins(dir);
    BootAsks(dir);
    BootFinishes(dir, LiveLockNames(Refused(dir, Locked, Some(0))));
    hide Step, Refused, Booted, LiveLockNames;
    var es := BootAlone(dir);
    var w1 := World(map[0 := Tab({}, {}, {}), 1 := Tab({}, {}, {})], map[], {}, {}, None);
    RunTwo(Empty, es[0], es[1]);
    RunTwo(w1, es[2], es[3]);
    RunTwo(Refused(dir, AwaitLock, None), es[4], es[5]);
    var four := [es[0], es[1]] + [es[2], es[3]];
    RunSplits(Empty, [es[0], es[1]], [es[2], es[3]]);
    RunSplits(Empty, four, [es[4], es[5]]);
    assert es[..6] == four + [es[4], es[5]];
    assert Empty == Empty.(dirs := {});
  }

  /** The sweeping tab next to the booted one. */
  function BesideBooted(dir: Name, pc: Pc, holder: Option<TaskId>): World {
    var w := Booted(dir);
    w.(tasks := w.tasks[1 := Task(1, Bfcache, pc)], used := {0, 1}, holder := holder)
  }

  lemma OtherTabStarts(dir: Name)
    ensures Step(Step(Booted(dir), StartTask(1, 1, Bfcache)), Begin(1)) == BesideBooted(dir, AwaitLock, None)
  {
    assert Step(Booted(dir), StartTask(1, 1, Bfcache)) == BesideBooted(dir, Start, None);
  }

  lemma OtherTabAsks(dir: Name)
    ensures Step(Step(BesideBooted(dir, AwaitLock, None), GrantLock(1)), Query(1)) ==
      BesideBooted(dir, Sweeping({OPFS_LOCK_NAME}), Some(1))
  {
    var locked := BesideBooted(dir, Locked, Some(1));
    assert Step(BesideBooted(dir, AwaitLock, None), GrantLock(1)) == locked;
    assert LiveLockNames(locked) == {OPFS_LOCK_NAME};
  }

  lemma OtherTabRemoves(dir: Name)
    requires Opaque(dir) && !Lockable(dir)
    ensures var sweeping := BesideBooted(dir, Sweeping({OPFS_LOCK_NAME}), Some(1));
      Step(Step(sweeping, Entry(1, dir)), Removed(1, true)) == sweeping.(dirs := {})
  {
    var removing := BesideBooted(dir, Removing({OPFS_LOCK_NAME}, dir), Some(1));
    assert dir[0] == '-' && OPFS_LOCK_NAME[0] == 'X';
    assert Step(BesideBooted(dir, Sweeping({OPFS_LOCK_NAME}), Some(1)), Entry(1, dir)) == removing;
    assert Step(removing, Removed(1, true)).dirs == {};
  }

  /**
   For every session directory whose name begins with a hyphen the promise fails: another tab's sweep removes it
   although its tab was enabled and lives.
   */
  lemma HyphenDirectoryIsSwept(dir: Name)
    requires Opaque(dir) && !Lockable(dir)
    ensures var w := Run({}, BootAlone(dir));
      Enabled(w, 0, dir) && dir in w.dirs
    ensures var w := Run({}, SweptLive(dir));
      Enabled(w, 0, dir) && 0 in w.tabs && dir !in w.dirs
  {
    BootAloneRuns(dir);
    OtherTabStarts(dir);
    OtherTabAsks(dir);
    OtherTabRemoves(dir);
    hide Step, LiveLockNames, BootAlone, Run;
    var sweeping := BesideBooted(dir, Sweeping({OPFS_LOCK_NAME}), Some(1));
    SixSteps(Booted(dir), StartTask(1, 1, Bfcache), Begin(1), GrantLock(1), Query(1), Entry(1, dir), Removed(1, true));
    RunAppends(BootAlone(dir),
               [StartTask(1, 1, Bfcache), Begin(1), GrantLock(1), Query(1), Entry(1, dir), Removed(1, true)]);
    assert Run({}, SweptLive(dir)) == sweeping.(dirs := {});
  }

  lemma RunAppends(before: seq<Event>, after: seq<Event>)
    ensures Run({}, before + after) == RunFrom(Run({}, before), after)
  {
    RunSplits(Empty.(dirs := {}), before, after);
  }

  lemma SixSteps(w: World, a: Event, b: Event, c: Event, d: Event, e: Event, f: Event)
    ensures RunFrom(w, [a, b, c, d, e, f]) == Step(Step(Step(Step(Step(Step(w, a), b), c), d), e), f)
  {
    hide Step;
    RunTwo(w, a, b);
    RunTwo(RunFrom(w, [a, b]), c, d);
    RunTwo(RunFrom(RunFrom(w, [a, b]), [c, d]), e, f);
    RunSplits(w, [a, b], [c, d]);
    RunSplits(w, [a, b] + [c, d], [e, f]);
    assert [a, b, c, d, e, f] == [a, b] + [c, d] + [e, f];
  }

  // ---- the loops --------------------------------------------------------------------------------------------

  datatype LockInfo = LockInfo(name: Option<Name>)

  /** The names a lock query reports, held or pending; entries without a name are skipped. */
  method QueryLiveLockNames(held: seq<LockInfo>, pending: seq<LockInfo>) returns (names: set<Name>)
    ensures forall n :: n in names <==> LockInfo(Some(n)) in held || LockInfo(Some(n)) in pending
  {
    names := {};
    var all := held + pending;
    for i := 0 to |all|
      invariant forall n :: n in names <==> LockInfo(Some(n)) in all[..i]
    {
      if all[i].name.Some? {
        names := names + {all[i].name.value};
      }
    }
    assert all[..|all|] == all;
  }

  /** The steps one sweep takes over a listing of the root directory when every removal succeeds. */
  function SweepSteps(id: TaskId, entries: seq<Name>): seq<Event> {
    if entries == [] then []
    else
      SweepSteps(id, entries[..|entries| - 1]) + [Entry(id, entries[|entries| - 1]), Removed(id, true)]
  }

  /** The sweep's loop: of the listed directories exactly the doomed ones go. */
  method SweepRoot(root: set<Name>, entries: seq<Name>, kind: Kind, live: set<Name>) returns (dirs: set<Name>)
    ensures dirs == root - DoomedOf(entries, kind, live)
  {
    dirs := root;
    for i := 0 to |entries|
      invariant dirs == root - DoomedOf(entries[..i], kind, live)
    {
      if Opaque(entries[i]) && kind != Boot(entries[i]) && entries[i] !in live {
        dirs := dirs - {entries[i]};
      }
    }
    assert entries[..|entries|] == entries;
  }

  /** Two steps of the sweep remove the entry they look at if it is doomed, and change nothing else. */
  lemma EntrySwept(w: World, id: TaskId, n: Name)
    requires At(w, id) && w.tasks[id].pc.Sweeping?
    ensures RunFrom(w, [Entry(id, n), Removed(id, true)]) ==
      w.(dirs := w.dirs - if Doomed(w.tasks[id].kind, w.tasks[id].pc.live, n) then {n} else {})
  {
    RunTwo(w, Entry(id, n), Removed(id, true));
    hide RunFrom;
    assert w.tasks[id := w.tasks[id]] == w.tasks;
  }

  function DoomedOf(entries: seq<Name>, kind: Kind, live: set<Name>): set<Name> {
    set n | n in entries && Doomed(kind, live, n)
  }

  lemma DoomedGrows(entries: seq<Name>, n: Name, kind: Kind, live: set<Name>)
    ensures DoomedOf(entries + [n], kind, live)
            == DoomedOf(entries, kind, live) + if Doomed(kind, live, n) then {n} else {}
  {
    hide Doomed;
  }

  /** The loop, run without interference, is those steps. */
  lemma {:induction false} SweepStepsRemoveTheDoomed(w: World, id: TaskId, entries: seq<Name>)
    requires At(w, id) && w.tasks[id].pc.Sweeping?
    ensures RunFrom(w, SweepSteps(id, entries)) ==
      w.(dirs := w.dirs - DoomedOf(entries, w.tasks[id].kind, w.tasks[id].pc.live))
  {
    hide RunFrom, Doomed;
    var kind, live := w.tasks[id].kind, w.tasks[id].pc.live;
    if entries == [] {
      NothingSwept(w, kind, live);
    } else {
      var k := |entries| - 1;
      var n := entries[k];
      SweepStepsRemoveTheDoomed(w, id, entries[..k]);
      RunSplits(w, SweepSteps(id, entries[..k]), [Entry(id, n), Removed(id, true)]);
      EntrySwept(RunFrom(w, SweepSteps(id, entries[..k])), id, n);
      DoomedGrows(entries[..k], n, kind, live);
      assert entries[..k] + [n] == entries;
    }
  }

  lemma NothingSwept(w: World, kind: Kind, live: set<Name>)
    ensures RunFrom(w, []) == w.(dirs := w.dirs - DoomedOf([], kind, live))
  {
  }

  // ---- what a task achieves when nothing interferes -----------------------------------------------------------

  /** Nobody is inside the exclusive lock or holds its name. */
  predicate LockFree(w: World) {
    w.holder.None? && forall t | t in w.tabs :: OPFS_LOCK_NAME !in w.tabs[t].held
  }

  /** Some tab holds or waits for a lock of this name. */
  ghost predicate Wanted(w: World, n: Name) {
    exists t :: t in w.tabs && n in w.tabs[t].held + w.tabs[t].pending
  }

  /** The listed session directories that no tab holds or wants, other than `dir`. */
  ghost function Dead(w: World, entries: seq<Name>, dir: Option<Name>): set<Name> {
    set n | n in entries && Opaque(n) && dir != Some(n) && n != OPFS_LOCK_NAME && !Wanted(w, n)
  }

  lemma RunOne(w: World, ev: Event)
    ensures RunFrom(w, [ev]) == Step(w, ev)
  {
    assert [ev][..0] == [];
  }

  /** A new tab boots for `dir` with its own liveness lock granted at once. */
  function BootSteps(t: TabId, id: TaskId, dir: Name): seq<Event> {
    [OpenTab(t), StartTask(id, t, Boot(dir)), Begin(id), GrantLiveness(t, dir), Resume(id), GrantLock(id)]
  }

  lemma BootAsksNow(w: World, t: TabId, id: TaskId, dir: Name)
    requires t !in w.tabs && id !in w.used && Lockable(dir)
    ensures Step(Step(Step(w, OpenTab(t)), StartTask(id, t, Boot(dir))), Begin(id)) ==
      w.(tabs := w.tabs[t := Tab({dir}, {}, {dir})], tasks := w.tasks[id := Task(t, Boot(dir), AwaitLiveness)],
         used := w.used + {id})
  {
    var w1 := Step(w, OpenTab(t));
    assert w1 == w.(tabs := w.tabs[t := Tab({}, {}, {})]);
    var w2 := Step(w1, StartTask(id, t, Boot(dir)));
    assert w2 == w1.(tasks := w.tasks[id := Task(t, Boot(dir), Start)], used := w.used + {id});
    assert {} + {dir} == {dir};
    assert Step(w2, Begin(id)) == w2.(tabs := w.tabs[t := Tab({dir}, {}, {dir})],
                                      tasks := w.tasks[id := Task(t, Boot(dir), AwaitLiveness)]);
  }

  lemma BootIsGranted(w: World, w3: World, t: TabId, id: TaskId, dir: Name)
    requires LockFree(w) && t !in w.tabs && id !in w.tasks && dir != OPFS_LOCK_NAME
    requires w3 == w.(tabs := w.tabs[t := Tab({dir}, {}, {dir})],
                      tasks := w.tasks[id := Task(t, Boot(dir), AwaitLiveness)], used := w.used + {id})
    ensures Step(Step(Step(w3, GrantLiveness(t, dir)), Resume(id)), GrantLock(id)) ==
      w.(tabs := w.tabs[t := Tab({dir}, {dir}, {})], tasks := w.tasks[id := Task(t, Boot(dir), Locked)],
         used := w.used + {id}, holder := Some(id))
  {
    var w4 := Step(w3, GrantLiveness(t, dir));
    assert {} + {dir} == {dir} && {dir} - {dir} == {};
    assert w4 == w3.(tabs := w.tabs[t := Tab({dir}, {dir}, {})]);
    var w5 := Step(w4, Resume(id));
    assert w5 == w4.(tasks := w.tasks[id := Task(t, Boot(dir), AwaitLock)]);
    assert Step(w5, GrantLock(id)) == w5.(tasks := w.tasks[id := Task(t, Boot(dir), Locked)], holder := Some(id));
  }

  lemma BootLocks(w: World, t: TabId, id: TaskId, dir: Name)
    requires LockFree(w) && t !in w.tabs && id !in w.used && id !in w.tasks
    requires Lockable(dir) && dir != OPFS_LOCK_NAME
    ensures RunFrom(w, BootSteps(t, id, dir)) ==
      w.(tabs := w.tabs[t := Tab({dir}, {dir}, {})], tasks := w.tasks[id := Task(t, Boot(dir), Locked)],
         used := w.used + {id}, holder := Some(id))
  {
    BootAsksNow(w, t, id, dir);
    BootIsGranted(w, Step(Step(Step(w, OpenTab(t)), StartTask(id, t, Boot(dir))), Begin(id)), t, id, dir);
    hide RunFrom, Step;
    SixSteps(w, OpenTab(t), StartTask(id, t, Boot(dir)), Begin(id), GrantLiveness(t, dir), Resume(id), GrantLock(id));
  }

  lemma LiveNames(w: World, w': World, t: TabId, dir: Name)
    requires t !in w.tabs && w'.tabs == w.tabs[t := Tab({dir}, {dir}, {})] && w'.holder.Some?
    ensures forall n :: n in LiveLockNames(w') <==> Wanted(w, n) || n == dir || n == OPFS_LOCK_NAME
  {
    forall n | Wanted(w, n)
      ensures n in LiveLockNames(w')
    {
      var u :| u in w.tabs && n in w.tabs[u].held + w.tabs[u].pending;
      assert w'.tabs[u] == w.tabs[u];
    }
    assert dir in w'.tabs[t].held + w'.tabs[t].pending;
  }

  /**
   From any state in which the exclusive lock is free, a tab that opens and boots for a lockable name (other than the
   sweep's own) gets through: it ends enabled with its directory there, and of the other directories exactly the
   listed session directories that no tab holds or wants are gone.
   */
  lemma ABootGetsThrough(w: World, t: TabId, id: TaskId, dir: Name, entries: seq<Name>)
    requires LockFree(w) && t !in w.tabs && id !in w.used && id !in w.tasks
    requires Lockable(dir) && dir != OPFS_LOCK_NAME
    ensures var w' := RunFrom(w, BootSteps(t, id, dir) + [Query(id)] + SweepSteps(id, entries) + [Finish(id)]);
      && Enabled(w', id, dir) && t in w'.tabs && LockFree(w')
      && w'.dirs == w.dirs - Dead(w, entries, Some(dir)) + {dir}
  {
    BootLocks(w, t, id, dir);
    var locked := RunFrom(w, BootSteps(t, id, dir));
    LiveNames(w, locked, t, dir);
    DoomedAreDead(w, entries, dir, LiveLockNames(locked));
    BootSweeps(w, locked, t, id, dir, entries);
    RunSplits(w, BootSteps(t, id, dir), [Query(id)]);
    RunSplits(w, BootSteps(t, id, dir) + [Query(id)], SweepSteps(id, entries));
    RunSplits(w, BootSteps(t, id, dir) + [Query(id)] + SweepSteps(id, entries), [Finish(id)]);
    hide RunFrom, DoomedOf, LiveLockNames;
  }

  /** From the lock on: the names are asked for, the doomed go, the directory is made and the lock released. */
  lemma BootSweeps(w: World, locked: World, t: TabId, id: TaskId, dir: Name, entries: seq<Name>)
    requires LockFree(w) && t !in w.tabs && dir != OPFS_LOCK_NAME
    requires locked == w.(tabs := w.tabs[t := Tab({dir}, {dir}, {})], tasks := w.tasks[id := Task(t, Boot(dir), Locked)],
                          used := w.used + {id}, holder := Some(id))
    ensures var w' := RunFrom(RunFrom(RunFrom(locked, [Query(id)]), SweepSteps(id, entries)), [Finish(id)]);
      && Enabled(w', id, dir) && t in w'.tabs && LockFree(w')
      && w'.dirs == w.dirs - DoomedOf(entries, Boot(dir), LiveLockNames(locked)) + {dir}
  {
    var live := LiveLockNames(locked);
    hide LiveLockNames, DoomedOf;
    RunOne(locked, Query(id));
    var sweeping := Moved(locked, id, Sweeping(live));
    SweepStepsRemoveTheDoomed(sweeping, id, entries);
    var swept := sweeping.(dirs := w.dirs - DoomedOf(entries, Boot(dir), live));
    RunOne(swept, Finish(id));
    hide RunFrom;
  }

  lemma DoomedAreDead(w: World, entries: seq<Name>, dir: Name, live: set<Name>)
    requires forall n :: n in live <==> Wanted(w, n) || n == dir || n == OPFS_LOCK_NAME
    ensures DoomedOf(entries, Boot(dir), live) == Dead(w, entries, Some(dir))
  {
    hide Wanted, Opaque;
  }

  /**
   From any state in which the exclusive lock is free, a purge by a tab that is there gets through: the directory is
   gone, every other one is where it was, and the lock is free again.
   */
  lemma APurgeGetsThrough(w: World, t: TabId, id: TaskId, dir: Name)
    requires LockFree(w) && t in w.tabs && id !in w.used && id !in w.tasks
    ensures var w' := RunFrom(w, [StartTask(id, t, Purge(dir)), Begin(id)] + [GrantLock(id), PurgeRemoved(id, true)]);
      w'.dirs == w.dirs - {dir} && LockFree(w') && w'.tabs == w.tabs
  {
    var start := [StartTask(id, t, Purge(dir)), Begin(id)];
    var waiting := w.(tasks := w.tasks[id := Task(t, Purge(dir), AwaitLock)], used := w.used + {id});
    PurgeWaits(w, t, id, dir);
    PurgeRemoves(waiting, t, id, dir);
    RunTwo(w, start[0], start[1]);
    RunTwo(waiting, GrantLock(id), PurgeRemoved(id, true));
    hide RunFrom, Step, LockFree;
    RunSplits(w, start, [GrantLock(id), PurgeRemoved(id, true)]);
  }

  lemma PurgeWaits(w: World, t: TabId, id: TaskId, dir: Name)
    requires t in w.tabs && id !in w.used
    ensures Step(Step(w, StartTask(id, t, Purge(dir))), Begin(id))
            == w.(tasks := w.tasks[id := Task(t, Purge(dir), AwaitLock)], used := w.used + {id})
  {
    assert w.tasks[id := Task(t, Purge(dir), Start)][id := Task(t, Purge(dir), AwaitLock)]
           == w.tasks[id := Task(t, Purge(dir), AwaitLock)];
  }

  lemma PurgeRemoves(w: World, t: TabId, id: TaskId, dir: Name)
    requires LockFree(w) && t in w.tabs && id in w.tasks && w.tasks[id] == Task(t, Purge(dir), AwaitLock)
    ensures var w' := Step(Step(w, GrantLock(id)), PurgeRemoved(id, true));
      w'.dirs == w.dirs - {dir} && LockFree(w') && w'.tabs == w.tabs
  {
    assert Step(w, GrantLock(id)) == w.(tasks := w.tasks[id := Task(t, Purge(dir), Locked)], holder := Some(id));
  }
}
