/**
 What every run of the service keeps: the pool's bounds, no two runs of one nas at a
 time, who is dispatched, and how many transactions are open.
 */
module CycleSafety {
  import opened Text
  import opened Address
  import opened Sift
  import opened Billing
  import opened BillingSafety
  import opened World
  import opened Loaders
  import opened Cycle
  import D = Database

  // ---- the invariant

  type Tasks = map<D.NasIp, Task>

  predicate Holds(pc: TaskPc) {
    pc.Born? || pc.Running? || pc.Recovering? || pc.Releasing?
  }

  /** The tasks that have a slot. */
  function Holders(tasks: Tasks): set<D.NasIp> {
    set nas | nas in tasks && Holds(tasks[nas].pc)
  }

  function Unfinished(tasks: Tasks): set<D.NasIp> {
    set nas | nas in tasks && !tasks[nas].pc.Ended?
  }

  /** The slot that pool.Go has taken for a task that does not exist yet. */
  function Claimed(phase: Phase): nat {
    if AtGo(phase, AddOne) || AtGo(phase, Spawn) then 1 else 0
  }

  function Announced(phase: Phase): nat {
    if AtGo(phase, Spawn) then 1 else 0
  }

  ghost predicate PoolOk(c: Config, phase: Phase, sem: nat, wg: int, tasks: Tasks) {
    && sem == |Holders(tasks)| + Claimed(phase)
    && wg == |Unfinished(tasks)| + Announced(phase)
    && sem <= Slots(c)
  }

  /** A transaction is only ever open while its run is under way or its panic is being handled. */
  ghost predicate TaskOk(w: World, nas: D.NasIp, task: Task) {
    && nas in w.sites
    && (task.tx.AfterTx? ==> task.pc.Running? || task.pc.Recovering?)
    && (task.tx.InTx? ==> task.pc.Running? && AtWork(w, nas) && UsesTx(w.sites[nas].worker.pc))
  }

  ghost predicate TasksOk(w: World, tasks: Tasks) {
    forall nas | nas in tasks :: TaskOk(w, nas, tasks[nas])
  }

  /** Every run under way belongs to a running task of this cycle, unless the process was killed. */
  ghost predicate NoStray(w: World, phase: Phase, tasks: Tasks) {
    phase.Down? || forall nas | nas in w.sites :: AtWork(w, nas) ==> AtPc(tasks, nas, Running)
  }

  predicate IsLoading(phase: Phase) {
    phase.ReadingDirs? || phase.Draining? || phase.Collecting?
  }

  predicate IsPooling(phase: Phase) {
    phase.Dispatching? || phase.Waiting?
  }

  ghost predicate PhaseOk(phase: Phase, chans: Loader<Traffic.ChannelMap>, sess: Loader<Sessions>, tasks: Tasks) {
    && (IsLoading(phase) ==> tasks == map[])
    && (!IsLoading(phase) ==> chans.pc.Finished? && sess.pc.Finished?)
    && (!IsPooling(phase) ==> Unfinished(tasks) == {})
    && (IsPooling(phase) ==> chans.result.Some? && sess.result.Some?)
    && (sess.result.Some? ==> Grouped(sess.result.value))
  }

  function KnownTo(sess: Loader<Sessions>): set<D.NasIp> {
    if sess.result.Some? then sess.result.value.Keys else {}
  }

  /** The names that have sessions, in order. */
  function KnownOf(names: seq<D.NasIp>, known: set<D.NasIp>): seq<D.NasIp> {
    if names == [] then []
    else
      var nas := names[|names| - 1];
      KnownOf(names[..|names| - 1], known) + if nas in known then [nas] else []
  }

  /** The dispatched nas are the known ones of a prefix of the directories, of all of them unless cancelled. */
  ghost predicate IsPrefix(dirs: seq<D.NasIp>, known: set<D.NasIp>, dispatched: seq<D.NasIp>, cancelled: bool) {
    exists k: nat | k <= |dirs| :: dispatched == KnownOf(dirs[..k], known) && (!cancelled ==> k == |dirs|)
  }

  ghost predicate DispatchOk(phase: Phase, dirs: seq<D.NasIp>, known: set<D.NasIp>,
                             dispatched: seq<D.NasIp>, cancelled: bool) {
    && NoDup(dirs)
    && match phase
       case Dispatching(rest, at) =>
         && |rest| <= |dirs| && rest == dirs[|dirs| - |rest|..]
         && dispatched == KnownOf(dirs[..|dirs| - |rest|], known)
         && (!at.CheckCtx? ==> rest != [] && rest[0] in known)
       case Waiting => IsPrefix(dirs, known, dispatched, cancelled)
       case Resting => dispatched == [] || IsPrefix(dirs, known, dispatched, cancelled)
       case Stopped => true
       case _ => dispatched == []
  }

  /** Each dispatched nas has a task, and each task that got going has begun one run. */
  ghost predicate BegunOk(tasks: Tasks, dispatched: seq<D.NasIp>, begun: seq<D.NasIp>) {
    && tasks.Keys == SetOf(dispatched)
    && NoDup(begun)
    && forall nas: D.NasIp :: nas in begun <==> nas in tasks && !tasks[nas].pc.Born?
  }

  ghost predicate DirsOk(w: World, dirs: seq<D.NasIp>) {
    forall nas | nas in dirs :: nas in w.sites
  }

  /** Every nas bills its own sessions only. */
  ghost predicate OwnJobs(w: World) {
    forall nas | nas in w.sites ::
      && (AtWork(w, nas) ==> OwnJob(nas, w.sites[nas].worker.job))
      && forall b | b in w.sites[nas].ledger :: OwnJob(nas, b.job)
  }

  ghost predicate ServiceInv(c: Config, s: System) {
    && AllInv(c.net, s.world) && OwnJobs(s.world)
    && PoolOk(c, s.phase, s.sem, s.wg, s.tasks)
    && TasksOk(s.world, s.tasks) && NoStray(s.world, s.phase, s.tasks)
    && PhaseOk(s.phase, s.channelLoader, s.sessionLoader, s.tasks)
    && DispatchOk(s.phase, s.dirs, KnownTo(s.sessionLoader), s.dispatched, s.cancelled)
    && BegunOk(s.tasks, s.dispatched, s.begun) && DirsOk(s.world, s.dirs)
  }

  /** The service has just been started over sites in their initial states. */
  ghost predicate ServiceInit(c: Config, s: System) {
    && (forall nas | nas in s.world.sites :: Init(View(s.world, nas)))
    && s == System(s.world, Resting, false, IDLE_CHANNELS, IDLE_SESSIONS, 0, 0, map[], [], [], [])
  }

  lemma ServiceInitInv(c: Config, s: System)
    requires ServiceInit(c, s)
    ensures ServiceInv(c, s)
  {
    hide Init, Inv;
    forall nas | nas in s.world.sites
      ensures Inv(c.net, View(s.world, nas))
      ensures !AtWork(s.world, nas) && s.world.sites[nas].ledger == []
    {
      InitInv(c.net, View(s.world, nas));
      InitIdle(View(s.world, nas));
    }
  }

  lemma InitIdle(s: State)
    requires Init(s)
    ensures s.worker.Idle? && s.ledger == []
  {
    hide NamesOk, IdsOk;
  }

  // ---- the pool

  function One(b: bool): nat { if b then 1 else 0 }

  /** How the two counts change when a task is put in or moved. */
  lemma Recount(tasks: Tasks, nas: D.NasIp, task: Task)
    ensures |Holders(tasks[nas := task])| ==
            |Holders(tasks)| - One(nas in Holders(tasks)) + One(Holds(task.pc))
    ensures |Unfinished(tasks[nas := task])| ==
            |Unfinished(tasks)| - One(nas in Unfinished(tasks)) + One(!task.pc.Ended?)
  {
    hide Holders, Unfinished;
    Recollect(tasks, nas, task);
    Swap(Holders(tasks), nas, Holds(task.pc));
    Swap(Unfinished(tasks), nas, !task.pc.Ended?);
  }

  function With(names: set<D.NasIp>, nas: D.NasIp, present: bool): set<D.NasIp> {
    if present then names - {nas} + {nas} else names - {nas}
  }

  lemma Recollect(tasks: Tasks, nas: D.NasIp, task: Task)
    ensures Holders(tasks[nas := task]) == With(Holders(tasks), nas, Holds(task.pc))
    ensures Unfinished(tasks[nas := task]) == With(Unfinished(tasks), nas, !task.pc.Ended?)
  {
  }

  lemma Swap(names: set<D.NasIp>, nas: D.NasIp, present: bool)
    ensures |With(names, nas, present)| == |names| - One(nas in names) + One(present)
  {
    if nas !in names {
      assert names - {nas} == names;
    }
  }

  /** From which task an action moves it, and that it changes nothing else of the cycle. */
  lemma MoveMeans(c: Config, s: System, a: Action)
    requires CanAct(c, s, a) && MovesTask(a)
    ensures a.nas in s.tasks && MoveFrom(s.tasks[a.nas], a)
    ensures TasksAfter(c, s, a) == s.tasks[a.nas := TaskAfter(s.tasks[a.nas], a)]
    ensures PhaseAfter(c, s, a) == s.phase
    ensures ChannelLoaderAfter(s, a) == s.channelLoader && SessionLoaderAfter(s, a) == s.sessionLoader
  {
    hide CanStep, AtWork, UsesTx;
  }

  predicate MoveFrom(task: Task, a: Action) {
    match a
    case TaskStarted(_) => task.pc.Born?
    case TxOpened(_) => task.pc.Running? && task.tx.NoTx?
    case TaskStep(_, _) => task.pc.Running? && !task.tx.AfterTx?
    case TaskPanicked(_) => task.pc.Running?
    case TxClosed(_) => task.tx.AfterTx?
    case TaskReturned(_) => task.pc.Running? && task.tx.NoTx?
    case Recovered(_) => task.pc.Recovering? && task.tx.NoTx?
    case Released(_) => task.pc.Releasing?
    case Signed(_) => task.pc.Signing?
    case _ => false
  }

  lemma PoolKept(c: Config, s: System, a: Action)
    requires ServiceInv(c, s) && CanAct(c, s, a)
    ensures PoolOk(c, PhaseAfter(c, s, a), SemAfter(c, s, a), WgAfter(s, a), TasksAfter(c, s, a))
  {
    hide AllInv, OwnJobs, TasksOk, NoStray, CanAct, Holders, Unfinished, IsPrefix, KnownOf, TasksAfter, PhaseAfter;
    if MovesTask(a) {
      MoveKeepsPool(c, s, a);
    } else {
      Otherwise(c, s, a);
      if a.Spawned? {
        FreshTask(c, s);
      }
      OtherKeepsPool(c, s, a);
    }
  }

  lemma OtherKeepsPool(c: Config, s: System, a: Action)
    requires CanAct(c, s, a) && !MovesTask(a) && (a.Spawned? ==> s.phase.rest[0] !in s.tasks)
    requires PoolOk(c, s.phase, s.sem, s.wg, s.tasks)
    ensures PoolOk(c, PhaseAfter(c, s, a), SemAfter(c, s, a), WgAfter(s, a), TasksAfter(c, s, a))
  {
    hide RunCan, CanStep, Holders, Unfinished;
    if a.Spawned? {
      Recount(s.tasks, s.phase.rest[0], Task(Born, NoTx));
      NotCounted(s.tasks, s.phase.rest[0]);
    } else if a.Tick? || a.Crashed? || a.Restarted? {
      NoTasks();
    }
  }

  lemma NotCounted(tasks: Tasks, nas: D.NasIp)
    requires nas !in tasks
    ensures nas !in Holders(tasks) && nas !in Unfinished(tasks)
  {
  }

  lemma NoTasks()
    ensures Holders(map[]) == {} && Unfinished(map[]) == {}
  {
  }

  lemma MoveKeepsPool(c: Config, s: System, a: Action)
    requires PoolOk(c, s.phase, s.sem, s.wg, s.tasks) && TasksOk(s.world, s.tasks) && CanAct(c, s, a) && MovesTask(a)
    ensures PoolOk(c, PhaseAfter(c, s, a), SemAfter(c, s, a), WgAfter(s, a), TasksAfter(c, s, a))
  {
    hide CanAct, AtWork, TasksAfter, PhaseAfter;
    MoveMeans(c, s, a);
    Recount(s.tasks, a.nas, TaskAfter(s.tasks[a.nas], a));
  }

  lemma {:induction false} KnownOfHas(names: seq<D.NasIp>, known: set<D.NasIp>, nas: D.NasIp)
    ensures nas in KnownOf(names, known) <==> nas in names && nas in known
  {
    if names == [] {
    } else {
      var k := |names| - 1;
      KnownOfHas(names[..k], known, nas);
      assert names == names[..k] + [names[k]];
    }
  }

  /** A directory is dispatched at most once. */
  lemma FreshTask(c: Config, s: System)
    requires AtGo(s.phase, Spawn)
    requires DispatchOk(s.phase, s.dirs, KnownTo(s.sessionLoader), s.dispatched, s.cancelled)
    requires s.tasks.Keys == SetOf(s.dispatched)
    ensures s.phase.rest[0] !in s.tasks && s.phase.rest[0] in s.dirs
  {
    hide IsPrefix, KnownOf;
    var k := |s.dirs| - |s.phase.rest|;
    assert s.phase.rest[0] == s.dirs[k];
    KnownOfHas(s.dirs[..k], KnownTo(s.sessionLoader), s.phase.rest[0]);
  }

  // ---- tasks and runs

  lemma WorkedSites(c: Config, s: System, a: Action, nas: D.NasIp)
    ensures Worked(c, s.world, Emits(s, a)).sites.Keys == s.world.sites.Keys
    ensures nas in s.world.sites && (Emits(s, a) == [] || Emits(s, a)[0].nas != nas) ==>
              Worked(c, s.world, Emits(s, a)).sites[nas] == s.world.sites[nas]
  {
    hide Emits, Apply, CanTake;
  }

  /** Who is at work after the events that start, stop or do not touch a run. */
  lemma WorkedBusy(c: Config, w: World, nas: D.NasIp, ev: Event)
    requires CanStep(w, Act(nas, ev))
    ensures ev.Abort? ==> !AtWork(Worked(c, w, [Act(nas, ev)]), nas)
    ensures ev.Arrive? ==> Worked(c, w, [Act(nas, ev)]).sites[nas].worker == w.sites[nas].worker
  {
    hide Decide;
  }

  lemma CanAbort(w: World, nas: D.NasIp, cause: Cause)
    requires AtWork(w, nas) && !cause.Obstructed?
    ensures CanStep(w, Act(nas, Abort(cause)))
  {
  }

  lemma TasksKept(c: Config, s: System, a: Action)
    requires ServiceInv(c, s) && CanAct(c, s, a)
    ensures TasksOk(Worked(c, s.world, Emits(s, a)), TasksAfter(c, s, a))
  {
    hide AllInv, OwnJobs, CanAct, Worked, PoolOk, Emits, TasksAfter, PhaseAfter, TaskOk, Unfinished, PhaseOk;
    var v, tasks := Worked(c, s.world, Emits(s, a)), TasksAfter(c, s, a);
    if MovesTask(a) {
      hide DispatchOk;
      MoveMeans(c, s, a);
      forall nas | nas in tasks
        ensures TaskOk(v, nas, tasks[nas])
      {
        if nas == a.nas {
          MovedTaskOk(c, s, a);
        } else {
          OtherActs(s, a, nas);
          HasSite(s.world, nas, s.tasks[nas]);
          WorkedSites(c, s, a, nas);
          SameTaskOk(s.world, v, nas, s.tasks[nas]);
        }
      }
    } else {
      Otherwise(c, s, a);
      OthersStay(c, s, a);
      if a.Spawned? {
        FreshTask(c, s);
        NewTaskOk(v, s.phase.rest[0]);
      }
      forall nas | nas in tasks && nas in s.tasks
        ensures TaskOk(v, nas, tasks[nas])
      {
        HasSite(s.world, nas, s.tasks[nas]);
        if a.Killed? && nas == a.nas {
          EndedTaskOk(c, s, v, nas);
        } else {
          SameTaskOk(s.world, v, nas, s.tasks[nas]);
        }
      }
    }
  }

  lemma OtherActs(s: System, a: Action, nas: D.NasIp)
    requires MovesTask(a) && nas != a.nas
    ensures Emits(s, a) == [] || Emits(s, a)[0].nas != nas
  {
  }

  lemma HasSite(w: World, nas: D.NasIp, task: Task)
    requires TaskOk(w, nas, task)
    ensures nas in w.sites
  {
  }

  lemma SameTaskOk(w: World, v: World, nas: D.NasIp, task: Task)
    requires TaskOk(w, nas, task) && nas in v.sites
    requires w.sites[nas].worker == v.sites[nas].worker
    ensures TaskOk(v, nas, task)
  {
  }

  lemma EndedTaskOk(c: Config, s: System, v: World, nas: D.NasIp)
    requires PhaseOk(s.phase, s.channelLoader, s.sessionLoader, s.tasks) && s.phase.Down?
    requires nas in s.tasks && TaskOk(s.world, nas, s.tasks[nas]) && nas in v.sites
    ensures TaskOk(v, nas, s.tasks[nas])
  {
    assert nas !in Unfinished(s.tasks);
  }

  lemma NewTaskOk(w: World, nas: D.NasIp)
    requires nas in w.sites
    ensures TaskOk(w, nas, Task(Born, NoTx))
  {
  }

  lemma MovedTaskOk(c: Config, s: System, a: Action)
    requires CanAct(c, s, a) && MovesTask(a) && a.nas in s.tasks && TaskOk(s.world, a.nas, s.tasks[a.nas])
    ensures TaskOk(Worked(c, s.world, Emits(s, a)), a.nas, TaskAfter(s.tasks[a.nas], a))
  {
    hide Worked, CanAct, AtWork, UsesTx;
    MoveMeans(c, s, a);
    WorkedSites(c, s, a, a.nas);
    if a.TxOpened? {
      OpenMeans(c, s, a);
    }
    if Emits(s, a) == [] {
      SameWork(s.world, Worked(c, s.world, Emits(s, a)), a.nas);
    }
  }

  lemma OpenMeans(c: Config, s: System, a: Action)
    requires CanAct(c, s, a) && a.TxOpened?
    ensures AtWork(s.world, a.nas) && UsesTx(s.world.sites[a.nas].worker.pc)
  {
  }

  /** What the actions that move no task do to the tasks. */
  lemma Otherwise(c: Config, s: System, a: Action)
    requires CanAct(c, s, a) && !MovesTask(a)
    ensures TasksAfter(c, s, a) ==
            if a.Tick? || a.Crashed? || a.Restarted? then map[]
            else if a.Spawned? then s.tasks[s.phase.rest[0] := Task(Born, NoTx)] else s.tasks
    ensures a.Tick? ==> s.phase.Resting?
    ensures a.Spawned? ==> AtGo(s.phase, Spawn)
    ensures a.Restarted? ==> s.phase.Stopped? || forall nas | nas in s.world.sites :: !AtWork(s.world, nas)
    ensures PhaseAfter(c, s, a).Down? <==> a.Crashed? || (s.phase.Down? && !a.Restarted?)
  {
    hide LoaderCan, TaskCan, CanStep;
  }

  lemma NoStrayKept(c: Config, s: System, a: Action)
    requires ServiceInv(c, s) && CanAct(c, s, a)
    ensures NoStray(Worked(c, s.world, Emits(s, a)), PhaseAfter(c, s, a), TasksAfter(c, s, a))
  {
    hide AllInv, OwnJobs, CanAct, IsPrefix, KnownOf, Worked, PoolOk, TasksOk, Emits, TasksAfter, PhaseAfter;
    if MovesTask(a) {
      MoveLeavesNoStray(c, s, a);
    } else {
      Otherwise(c, s, a);
      if !PhaseAfter(c, s, a).Down? {
        if a.Spawned? {
          FreshTask(c, s);
        }
        OthersStay(c, s, a);
        if a.Tick? || s.phase.Stopped? {
          NoneRunning(s.tasks);
        }
      }
    }
  }

  lemma NoneRunning(tasks: Tasks)
    requires Unfinished(tasks) == {}
    ensures forall nas :: !AtPc(tasks, nas, Running)
  {
    forall nas
      ensures !AtPc(tasks, nas, Running)
    {
      assert nas !in Unfinished(tasks);
    }
  }

  /** An action that moves no task leaves every run where it is, but for a killed one. */
  lemma OthersStay(c: Config, s: System, a: Action)
    requires CanAct(c, s, a) && !MovesTask(a)
    ensures Worked(c, s.world, Emits(s, a)).sites.Keys == s.world.sites.Keys
    ensures forall nas | nas in s.world.sites && !(a.Killed? && nas == a.nas) ::
              Worked(c, s.world, Emits(s, a)).sites[nas].worker == s.world.sites[nas].worker
    ensures a.Killed? ==> s.phase.Down?
  {
    hide RunCan, CanStep, Worked;
    WorkedSites(c, s, a, "");
    forall nas | nas in s.world.sites && !(a.Killed? && nas == a.nas)
      ensures Worked(c, s.world, Emits(s, a)).sites[nas].worker == s.world.sites[nas].worker
    {
      WorkedSites(c, s, a, nas);
      if a.Arrived? {
        WorkedBusy(c, s.world, a.nas, Arrive(a.name, a.file));
      }
    }
  }

  lemma MoveLeavesNoStray(c: Config, s: System, a: Action)
    requires CanAct(c, s, a) && MovesTask(a)
    requires NoStray(s.world, s.phase, s.tasks) && TasksOk(s.world, s.tasks)
    ensures NoStray(Worked(c, s.world, Emits(s, a)), PhaseAfter(c, s, a), TasksAfter(c, s, a))
  {
    hide CanAct, Worked, TasksAfter, PhaseAfter, AtWork, UsesTx;
    var v, tasks := Worked(c, s.world, Emits(s, a)), TasksAfter(c, s, a);
    MoveMeans(c, s, a);
    if !s.phase.Down? {
      forall nas | nas in v.sites && AtWork(v, nas)
        ensures AtPc(tasks, nas, Running)
      {
        WorkedSites(c, s, a, nas);
        if nas == a.nas {
          MovedWorker(c, s, a);
        } else {
          SameWork(s.world, v, nas);
        }
      }
    }
  }

  lemma SameWork(w: World, v: World, nas: D.NasIp)
    requires w.sites.Keys == v.sites.Keys && nas in w.sites && w.sites[nas] == v.sites[nas]
    ensures AtWork(w, nas) == AtWork(v, nas)
  {
  }

  /** Most moves of a task are none of the protocol's business. */
  lemma SilentMove(c: Config, s: System, a: Action)
    requires MovesTask(a) && !a.TaskStarted? && !a.TaskStep? && !a.TaskPanicked?
    ensures Worked(c, s.world, Emits(s, a)) == s.world
  {
  }

  /** A task that is not running after the move has no run under way, if it had none unless running. */
  lemma MovedWorker(c: Config, s: System, a: Action)
    requires CanAct(c, s, a) && MovesTask(a) && a.nas in s.tasks && a.nas in s.world.sites
    requires AtWork(s.world, a.nas) ==> s.tasks[a.nas].pc.Running?
    ensures AtWork(Worked(c, s.world, Emits(s, a)), a.nas) ==> TaskAfter(s.tasks[a.nas], a).pc.Running?
  {
    hide Worked, CanAct, UsesTx;
    MoveMeans(c, s, a);
    if a.TaskPanicked? {
      if AtWork(s.world, a.nas) {
        CanAbort(s.world, a.nas, Panic);
        WorkedBusy(c, s.world, a.nas, Abort(Panic));
      } else {
        NothingWorked(c, s.world);
      }
    } else if !a.TaskStarted? && !a.TaskStep? {
      SilentMove(c, s, a);
      if a.TaskReturned? {
        ReturnMeans(c, s, a);
      }
    }
  }

  lemma ReturnMeans(c: Config, s: System, a: Action)
    requires CanAct(c, s, a) && a.TaskReturned?
    ensures !AtWork(s.world, a.nas)
  {
  }

  lemma NothingWorked(c: Config, w: World)
    ensures Worked(c, w, []) == w
  {
  }

  // ---- phases and dispatch

  /** Tasks move only while the pool is at work. */
  lemma MoveIsPooling(c: Config, s: System, a: Action)
    requires CanAct(c, s, a) && MovesTask(a)
    requires PhaseOk(s.phase, s.channelLoader, s.sessionLoader, s.tasks) && TasksOk(s.world, s.tasks)
    ensures IsPooling(s.phase)
  {
    hide CanAct, AtWork;
    MoveMeans(c, s, a);
    assert TaskOk(s.world, a.nas, s.tasks[a.nas]);
    assert a.nas in Unfinished(s.tasks);
  }

  lemma PhaseKept(c: Config, s: System, a: Action)
    requires ServiceInv(c, s) && CanAct(c, s, a)
    ensures PhaseOk(PhaseAfter(c, s, a), ChannelLoaderAfter(s, a), SessionLoaderAfter(s, a), TasksAfter(c, s, a))
  {
    hide AllInv, OwnJobs, CanAct, DispatchOk, BegunOk, NoStray, Unfinished, Holders, TaskOk, TasksAfter, PhaseAfter,
         ChannelLoaderAfter, SessionLoaderAfter;
    if MovesTask(a) {
      hide PoolOk;
      MoveIsPooling(c, s, a);
      MoveMeans(c, s, a);
    } else {
      OtherKeepsPhase(c, s, a);
    }
  }

  lemma OtherKeepsPhase(c: Config, s: System, a: Action)
    requires CanAct(c, s, a) && !MovesTask(a)
    requires PhaseOk(s.phase, s.channelLoader, s.sessionLoader, s.tasks) && PoolOk(c, s.phase, s.sem, s.wg, s.tasks)
    ensures PhaseOk(PhaseAfter(c, s, a), ChannelLoaderAfter(s, a), SessionLoaderAfter(s, a), TasksAfter(c, s, a))
  {
    hide RunCan, CanStep, Unfinished, Holders, TasksAfter;
    NoTasks();
    Otherwise(c, s, a);
  }

  /** One directory further. */
  lemma Advance(dirs: seq<D.NasIp>, rest: seq<D.NasIp>, known: set<D.NasIp>)
    requires 0 < |rest| <= |dirs| && rest == dirs[|dirs| - |rest|..]
    ensures rest[1..] == dirs[|dirs| - |rest[1..]|..]
    ensures KnownOf(dirs[..|dirs| - |rest[1..]|], known) ==
            KnownOf(dirs[..|dirs| - |rest|], known) + if rest[0] in known then [rest[0]] else []
  {
    var k := |dirs| - |rest|;
    assert dirs[..k + 1][..k] == dirs[..k];
    assert dirs[..k + 1][k] == rest[0];
  }

  lemma PrefixMeans(dirs: seq<D.NasIp>, k: nat, known: set<D.NasIp>, cancelled: bool)
    requires k <= |dirs| && (!cancelled ==> k == |dirs|)
    ensures IsPrefix(dirs, known, KnownOf(dirs[..k], known), cancelled)
  {
  }

  /** The steps of pool.Go and the loop around it. */
  predicate IsGo(a: Action) {
    a.UnknownSkipped? || a.CtxChecked? || a.Acquired? || a.SelectedDone? || a.Added? || a.Spawned? || a.AllDispatched?
  }

  lemma GoKeepsDispatch(c: Config, s: System, a: Action)
    requires CanAct(c, s, a) && IsGo(a)
    requires DispatchOk(s.phase, s.dirs, KnownTo(s.sessionLoader), s.dispatched, s.cancelled)
    ensures DispatchOk(PhaseAfter(c, s, a), s.dirs, KnownTo(s.sessionLoader),
                       if a.Spawned? then s.dispatched + [s.phase.rest[0]] else s.dispatched, s.cancelled)
  {
    hide KnownOf, IsPrefix, CanAct, NoDup, PhaseAfter;
    GoMeans(c, s, a);
    var known := KnownTo(s.sessionLoader);
    if PhaseAfter(c, s, a).Waiting? {
      PrefixMeans(s.dirs, |s.dirs| - |s.phase.rest|, known, s.cancelled);
    } else {
      Advance(s.dirs, s.phase.rest, known);
      assert s.dispatched + [] == s.dispatched;
    }
  }

  /** When the steps of pool.Go are possible. */
  lemma GoMeans(c: Config, s: System, a: Action)
    requires CanAct(c, s, a) && IsGo(a)
    ensures s.phase.Dispatching?
    ensures if a.AllDispatched? then s.phase.rest == [] else s.phase.rest != []
    ensures a.UnknownSkipped? ==> s.phase.rest[0] !in KnownTo(s.sessionLoader)
    ensures a.CtxChecked? ==> s.phase.rest[0] in KnownTo(s.sessionLoader)
    ensures a.Acquired? || a.Added? || a.Spawned? ==> !s.phase.at.CheckCtx?
    ensures PhaseAfter(c, s, a).Waiting? ==> !a.Spawned? && (s.cancelled || s.phase.rest == [])
    ensures a.SelectedDone? || a.AllDispatched? ==> PhaseAfter(c, s, a).Waiting?
    ensures !PhaseAfter(c, s, a).Waiting? ==>
              && s.phase.rest != [] && PhaseAfter(c, s, a).Dispatching?
              && (if a.UnknownSkipped? || a.Spawned?
                  then PhaseAfter(c, s, a) == Dispatching(s.phase.rest[1..], CheckCtx)
                  else PhaseAfter(c, s, a).rest == s.phase.rest)
  {
    hide CanStep, LoaderCan, TaskCan;
  }

  lemma DispatchKept(c: Config, s: System, a: Action)
    requires ServiceInv(c, s) && CanAct(c, s, a)
    ensures var t := Next(c, s, a);
            DispatchOk(t.phase, t.dirs, KnownTo(t.sessionLoader), t.dispatched, t.cancelled)
  {
    hide AllInv, OwnJobs, CanAct, BegunOk, NoStray, TasksOk, PoolOk, Worked, TasksAfter, PhaseAfter, Emits;
    if MovesTask(a) {
      hide DispatchOk;
      MoveMeans(c, s, a);
    } else if IsGo(a) {
      hide DispatchOk;
      GoKeepsDispatch(c, s, a);
    } else {
      OtherKeepsDispatch(c, s, a);
    }
  }

  lemma OtherKeepsDispatch(c: Config, s: System, a: Action)
    requires CanAct(c, s, a) && !MovesTask(a) && !IsGo(a)
    requires DispatchOk(s.phase, s.dirs, KnownTo(s.sessionLoader), s.dispatched, s.cancelled)
    requires PhaseOk(s.phase, s.channelLoader, s.sessionLoader, s.tasks)
    ensures var t := Next(c, s, a);
            DispatchOk(t.phase, t.dirs, KnownTo(t.sessionLoader), t.dispatched, t.cancelled)
  {
    hide RunCan, CanStep, Worked, TasksAfter, KnownOf, Emits, IsPrefix, NoDup, Grouped, Unfinished;
    NoDirs();
    if a.Collected? {
      assert s.dirs[0..] == s.dirs && s.dirs[..0] == [];
      NoneKnown(KnownTo(s.sessionLoader));
    } else if a.Cancel? {
      PrefixCancelled(s.dirs, KnownTo(s.sessionLoader), s.dispatched, s.cancelled);
    } else if a.WaitOver? {
      assert s.phase.Waiting?;
    }
  }

  lemma NoDirs()
    ensures NoDup([])
  {
  }

  lemma PrefixCancelled(dirs: seq<D.NasIp>, known: set<D.NasIp>, dispatched: seq<D.NasIp>, cancelled: bool)
    ensures IsPrefix(dirs, known, dispatched, cancelled) ==> IsPrefix(dirs, known, dispatched, true)
  {
    hide KnownOf;
  }

  lemma NoneKnown(known: set<D.NasIp>)
    ensures KnownOf([], known) == []
  {
  }

  lemma BegunKept(c: Config, s: System, a: Action)
    requires ServiceInv(c, s) && CanAct(c, s, a)
    ensures var t := Next(c, s, a); BegunOk(t.tasks, t.dispatched, t.begun)
  {
    hide AllInv, OwnJobs, DispatchOk, NoStray, TasksOk, PoolOk, PhaseOk, Worked, CanAct, TasksAfter, Emits;
    if MovesTask(a) {
      MoveKeepsBegun(c, s, a);
    } else {
      Otherwise(c, s, a);
      if a.Spawned? {
        FreshTask(c, s);
        SetOfSnoc(s.dispatched, s.phase.rest[0]);
      }
    }
  }

  lemma MoveKeepsBegun(c: Config, s: System, a: Action)
    requires BegunOk(s.tasks, s.dispatched, s.begun) && TasksOk(s.world, s.tasks) && CanAct(c, s, a) && MovesTask(a)
    ensures BegunOk(TasksAfter(c, s, a), s.dispatched, if a.TaskStarted? then s.begun + [a.nas] else s.begun)
  {
    hide CanAct, TasksAfter, AtWork, UsesTx;
    MoveMeans(c, s, a);
    assert TaskOk(s.world, a.nas, s.tasks[a.nas]);
    assert TasksAfter(c, s, a).Keys == s.tasks.Keys;
    assert a.TaskStarted? <==> s.tasks[a.nas].pc.Born?;
  }

  lemma SetOfSnoc(names: seq<D.NasIp>, nas: D.NasIp)
    ensures SetOf(names + [nas]) == SetOf(names) + {nas}
  {
    assert forall i | 0 <= i < |names| :: (names + [nas])[i] == names[i];
    assert (names + [nas])[|names|] == nas;
  }

  // ---- whose rows

  /** A run keeps its job to its end, and bills with it. */
  lemma JobKept(net: Net, s: State, ev: Event)
    requires CanTake(s, ev)
    ensures var t := Apply(net, s, ev);
            && (t.worker.Busy? ==> if ev.Begin? then t.worker.job == ev.job
                else s.worker.Busy? && t.worker.job == s.worker.job)
            && (t.ledger == s.ledger ||
                (s.worker.Busy? && exists b: Batch :: b.job == s.worker.job && t.ledger == s.ledger + [b]))
  {
    hide Decide, Scannable, IsFlowName, FateOf, FlowNames, Listing;
    if ev.Decided? {
      DecideJob(net, s);
    } else if ev.Committed? || ev.CommitFailed? {
      var b := Batch(s.worker.job, s.worker.pc.files, s.worker.pc.rows);
      assert b.job == s.worker.job;
    }
  }

  lemma DecideJob(net: Net, s: State)
    requires s.worker.Busy? && s.worker.pc.Read?
    ensures Decide(net, s).ledger == s.ledger
    ensures Decide(net, s).worker.Busy? ==> Decide(net, s).worker.job == s.worker.job
  {
    hide Decide;
    DecideCases(net, s);
  }

  lemma OwnKept(c: Config, s: System, a: Action)
    requires ServiceInv(c, s) && CanAct(c, s, a)
    ensures OwnJobs(Worked(c, s.world, Emits(s, a)))
  {
    hide AllInv, TasksOk, NoStray, PoolOk, DispatchOk, BegunOk, CanAct, Apply, CanTake, OwnJob;
    var acts := Emits(s, a);
    if acts != [] && CanStep(s.world, acts[0]) {
      var nas, ev := acts[0].nas, acts[0].ev;
      JobKept(c.net, View(s.world, nas), ev);
      if ev.Begin? {
        OwnBegin(c, s, a);
      }
    }
  }

  /** A run is begun with all the sessions the loader has for its nas, at least one, and with the channels. */
  lemma OwnBegin(c: Config, s: System, a: Action)
    requires CanAct(c, s, a) && Emits(s, a) != [] && Emits(s, a)[0].ev.Begin?
    requires s.sessionLoader.result.Some? ==> Grouped(s.sessionLoader.result.value)
    ensures a.TaskStarted? && s.sessionLoader.result.Some? && s.channelLoader.result.Some?
    ensures a.nas in s.sessionLoader.result.value
    ensures Emits(s, a) ==
            [Act(a.nas, Begin(Job(s.sessionLoader.result.value[a.nas], s.channelLoader.result.value)))]
    ensures OwnJob(Emits(s, a)[0].nas, Emits(s, a)[0].ev.job) && Emits(s, a)[0].ev.job.sessions != []
  {
    hide CanStep;
  }

  // ---- every run of the service keeps the invariant

  lemma WorldKept(c: Config, s: System, a: Action)
    requires AllInv(c.net, s.world) && DirsOk(s.world, s.dirs) && CanAct(c, s, a)
    ensures AllInv(c.net, Next(c, s, a).world) && DirsOk(Next(c, s, a).world, Next(c, s, a).dirs)
  {
    hide AllInv, CanStep, Step, TaskCan, LoaderCan, TasksAfter, PhaseAfter, Emits;
    var acts := Emits(s, a);
    WorkedSites(c, s, a, "");
    if acts != [] && CanStep(s.world, acts[0]) {
      StepKeepsAll(c.net, s.world, acts[0]);
    }
  }

  lemma ServiceKept(c: Config, s: System, a: Action)
    requires ServiceInv(c, s) && CanAct(c, s, a)
    ensures ServiceInv(c, Next(c, s, a))
  {
    hide *;
    PoolKept(c, s, a);
    TasksKept(c, s, a);
    NoStrayKept(c, s, a);
    PhaseKept(c, s, a);
    DispatchKept(c, s, a);
    BegunKept(c, s, a);
    OwnKept(c, s, a);
    InvParts(c, s);
    WorldKept(c, s, a);
    InvFromParts(c, s, a);
  }

  lemma InvParts(c: Config, s: System)
    requires ServiceInv(c, s)
    ensures AllInv(c.net, s.world) && DirsOk(s.world, s.dirs)
  {
    hide AllInv, DirsOk;
  }

  lemma InvFromParts(c: Config, s: System, a: Action)
    requires CanAct(c, s, a)
    requires PoolOk(c, PhaseAfter(c, s, a), SemAfter(c, s, a), WgAfter(s, a), TasksAfter(c, s, a))
    requires TasksOk(Worked(c, s.world, Emits(s, a)), TasksAfter(c, s, a))
    requires NoStray(Worked(c, s.world, Emits(s, a)), PhaseAfter(c, s, a), TasksAfter(c, s, a))
    requires PhaseOk(PhaseAfter(c, s, a), ChannelLoaderAfter(s, a), SessionLoaderAfter(s, a), TasksAfter(c, s, a))
    requires var t := Next(c, s, a); DispatchOk(t.phase, t.dirs, KnownTo(t.sessionLoader), t.dispatched, t.cancelled)
    requires var t := Next(c, s, a); BegunOk(t.tasks, t.dispatched, t.begun)
    requires OwnJobs(Worked(c, s.world, Emits(s, a)))
    requires AllInv(c.net, Next(c, s, a).world) && DirsOk(Next(c, s, a).world, Next(c, s, a).dirs)
    ensures ServiceInv(c, Next(c, s, a))
  {
    hide CanAct, PoolOk, TasksOk, NoStray, PhaseOk, DispatchOk, BegunOk, OwnJobs, AllInv, DirsOk, Worked, Emits,
         PhaseAfter, SemAfter, WgAfter, TasksAfter, ChannelLoaderAfter, SessionLoaderAfter;
  }

  lemma {:induction false} ServiceRunKeeps(c: Config, s: System, run: seq<Action>)
    requires ServiceInv(c, s)
    ensures ServiceInv(c, AfterRun(c, s, run))
  {
    hide ServiceInv, CanAct, Next;
    if run == [] {
    } else {
      var before, a := run[..|run| - 1], run[|run| - 1];
      ServiceRunKeeps(c, s, before);
      if CanAct(c, AfterRun(c, s, before), a) {
        ServiceKept(c, AfterRun(c, s, before), a);
      }
    }
  }
}
