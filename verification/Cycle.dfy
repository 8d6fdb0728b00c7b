/**
 The service as a transition system: cron, the cycle with its two loaders, the worker
 pool and its tasks, one task for each dispatched nas. Each action is one step of one
 goroutine or of the outside world.
 */
module Cycle {
  import opened Text
  import opened Address
  import opened Traffic
  import opened Sift
  import opened Billing
  import opened World
  import opened Loaders
  import D = Database

  /** Fixed for the life of the service. */
  datatype Config = Config(net: Net, poolSize: int)

  /** The number of slots: a size below one counts as one. */
  function Slots(c: Config): nat {
    if c.poolSize < 1 then 1 else c.poolSize
  }

  datatype LoaderPc = Opening | Loading | Closing | Finished

  /** A loader has sent its result, if any, before it rolls back and closes its channel. */
  datatype Loader<T> = Loader(pc: LoaderPc, result: Option<T>)

  /** A task runs Aggregate, recovers from a panic if there was one, releases its slot
      and tells the wait group, in this order. */
  datatype TaskPc = Born | Running | Recovering | Releasing | Signing | Ended

  /** Whether a task has a transaction: from Start to the deferred Rollback. */
  datatype TxUse = NoTx | InTx | AfterTx

  datatype Task = Task(pc: TaskPc, tx: TxUse)

  /** Inside pool.Go: the context is checked, then a slot or the cancellation is awaited,
      then the wait group is told, then the goroutine starts. */
  datatype GoPc = CheckCtx | Select | AddOne | Spawn

  datatype Phase =
    | Resting
    | ReadingDirs
    | Draining
    | Collecting
    | Dispatching(rest: seq<D.NasIp>, at: GoPc)
    | Waiting
    | Stopped
    | Down

  /** dirs, dispatched and begun are the history of the present cycle. */
  datatype System = System(
    world: World, phase: Phase, cancelled: bool,
    channelLoader: Loader<ChannelMap>, sessionLoader: Loader<Sessions>,
    sem: nat, wg: int, tasks: map<D.NasIp, Task>,
    dirs: seq<D.NasIp>, dispatched: seq<D.NasIp>, begun: seq<D.NasIp>)

  datatype Action =
    | Tick
    | Stop
    | Cancel
    | ChannelsOpened(ok: bool)
    | ChannelsLoaded(channels: Option<ChannelMap>)
    | ChannelsClosed
    | SessionsOpened(ok: bool)
    | SessionsLoaded(sessions: Option<Sessions>)
    | SessionsClosed
    | DirsRead(list: Option<seq<D.NasIp>>)
    | Drained
    | Collected
    | UnknownSkipped
    | CtxChecked
    | Acquired
    | SelectedDone
    | Added
    | Spawned
    | AllDispatched
    | WaitOver
    | TaskStarted(nas: D.NasIp)
    | TxOpened(nas: D.NasIp)
    | TaskStep(nas: D.NasIp, ev: Event)
    | TaskPanicked(nas: D.NasIp)
    | TxClosed(nas: D.NasIp)
    | TaskReturned(nas: D.NasIp)
    | Recovered(nas: D.NasIp)
    | Released(nas: D.NasIp)
    | Signed(nas: D.NasIp)
    | Arrived(nas: D.NasIp, name: Name, file: File)
    | Crashed
    | Killed(nas: D.NasIp)
    | Restarted

  /** The actions a run takes inside a transaction. */
  predicate UsesTx(pc: Pc) {
    pc.LoadCheckpoint? || pc.Save? || pc.ClearCheckpoint?
  }

  predicate AtPc(tasks: map<D.NasIp, Task>, nas: D.NasIp, pc: TaskPc) {
    nas in tasks && tasks[nas].pc == pc
  }

  predicate AtWork(w: World, nas: D.NasIp) {
    nas in w.sites && w.sites[nas].worker.Busy?
  }

  predicate AtGo(phase: Phase, at: GoPc) {
    phase.Dispatching? && phase.rest != [] && phase.at == at
  }

  predicate Known(s: System, nas: D.NasIp) {
    s.sessionLoader.result.Some? && nas in s.sessionLoader.result.value
  }

  predicate LoadersFinished(s: System) {
    s.channelLoader.pc == Finished && s.sessionLoader.pc == Finished
  }

  // ---- when an action is possible

  ghost predicate CanAct(c: Config, s: System, a: Action) {
    match a
    case Tick => s.phase.Resting?
    case Stop => s.phase.Resting? && s.cancelled
    case Cancel => !s.phase.Down?
    case Drained => s.phase.Draining? && LoadersFinished(s)
    case Collected => s.phase.Collecting? && LoadersFinished(s)
    case UnknownSkipped => AtGo(s.phase, CheckCtx) && !Known(s, s.phase.rest[0])
    case CtxChecked => AtGo(s.phase, CheckCtx) && Known(s, s.phase.rest[0])
    case Acquired => AtGo(s.phase, Select) && s.sem < Slots(c)
    case SelectedDone => AtGo(s.phase, Select) && s.cancelled
    case Added => AtGo(s.phase, AddOne)
    case Spawned => AtGo(s.phase, Spawn)
    case AllDispatched => s.phase.Dispatching? && s.phase.rest == [] && s.phase.at.CheckCtx?
    case WaitOver => s.phase.Waiting? && s.wg == 0
    case DirsRead(list) =>
      s.phase.ReadingDirs? &&
      (list.Some? ==> list.value != [] && NoDup(list.value) && forall nas | nas in list.value :: nas in s.world.sites)
    case Arrived(nas, name, file) => CanStep(s.world, Act(nas, Arrive(name, file)))
    case Crashed => !s.phase.Down?
    case Killed(nas) => s.phase.Down? && AtWork(s.world, nas)
    case Restarted => s.phase.Stopped? || (s.phase.Down? && forall nas | nas in s.world.sites :: !AtWork(s.world, nas))
    case _ => LoaderCan(s, a) || TaskCan(s, a)
  }

  ghost predicate LoaderCan(s: System, a: Action) {
    match a
    case ChannelsOpened(_) => s.channelLoader.pc.Opening?
    case ChannelsLoaded(_) => s.channelLoader.pc.Loading?
    case ChannelsClosed => s.channelLoader.pc.Closing?
    case SessionsOpened(_) => s.sessionLoader.pc.Opening?
    case SessionsLoaded(sessions) => s.sessionLoader.pc.Loading? && (sessions.Some? ==> Grouped(sessions.value))
    case SessionsClosed => s.sessionLoader.pc.Closing?
    case _ => false
  }

  /** Releasing a slot waits until there is one to give back. */
  ghost predicate TaskCan(s: System, a: Action) {
    match a
    case TaskStarted(nas) => AtPc(s.tasks, nas, Born)
    case TxOpened(nas) =>
      AtPc(s.tasks, nas, Running) && s.tasks[nas].tx.NoTx? && AtWork(s.world, nas) &&
      UsesTx(s.world.sites[nas].worker.pc)
    case TaskStep(nas, ev) => AtPc(s.tasks, nas, Running) && RunCan(s.world, s.tasks[nas].tx, nas, ev)
    case TaskPanicked(nas) => AtPc(s.tasks, nas, Running)
    case TxClosed(nas) => nas in s.tasks && s.tasks[nas].tx.AfterTx?
    case TaskReturned(nas) => AtPc(s.tasks, nas, Running) && s.tasks[nas].tx.NoTx? && !AtWork(s.world, nas)
    case Recovered(nas) => AtPc(s.tasks, nas, Recovering) && s.tasks[nas].tx.NoTx?
    case Released(nas) => AtPc(s.tasks, nas, Releasing) && s.sem > 0
    case Signed(nas) => AtPc(s.tasks, nas, Signing)
    case _ => false
  }

  /** A run fails or goes on; it goes on inside a transaction exactly where it needs one. */
  ghost predicate RunCan(w: World, tx: TxUse, nas: D.NasIp, ev: Event) {
    && AtWork(w, nas) && CanStep(w, Act(nas, ev)) && !ev.Arrive? && !ev.Begin? && !tx.AfterTx?
    && (if ev.Abort? then ev.cause.IoError? || ev.cause.Obstructed? else tx.InTx? <==> UsesTx(w.sites[nas].worker.pc))
  }

  // ---- what an action does

  /** The event of the protocol that an action is, if any. */
  ghost function Emits(s: System, a: Action): seq<Act> {
    match a
    case TaskStarted(nas) =>
      if Known(s, nas) && s.channelLoader.result.Some?
      then [Act(nas, Begin(Job(s.sessionLoader.result.value[nas], s.channelLoader.result.value)))] else []
    case TaskStep(nas, ev) => [Act(nas, ev)]
    case TaskPanicked(nas) => if AtWork(s.world, nas) then [Act(nas, Abort(Panic))] else []
    case Arrived(nas, name, file) => [Act(nas, Arrive(name, file))]
    case Killed(nas) => [Act(nas, Abort(Crash))]
    case _ => []
  }

  ghost function Worked(c: Config, w: World, acts: seq<Act>): World {
    if acts != [] && CanStep(w, acts[0]) then Step(c.net, w, acts[0]) else w
  }

  function Used(tx: TxUse): TxUse { if tx.InTx? then AfterTx else tx }

  /** The actions of one task. */
  predicate MovesTask(a: Action) {
    a.TaskStarted? || a.TxOpened? || a.TaskStep? || a.TaskPanicked? || a.TxClosed? || a.TaskReturned? ||
    a.Recovered? || a.Released? || a.Signed?
  }

  function TaskAfter(task: Task, a: Action): Task {
    match a
    case TaskStarted(_) => task.(pc := Running)
    case TxOpened(_) => task.(tx := InTx)
    case TaskStep(_, _) => task.(tx := Used(task.tx))
    case TaskPanicked(_) => Task(Recovering, Used(task.tx))
    case TxClosed(_) => task.(tx := NoTx)
    case TaskReturned(_) => task.(pc := Recovering)
    case Recovered(_) => task.(pc := Releasing)
    case Released(_) => task.(pc := Signing)
    case Signed(_) => task.(pc := Ended)
    case _ => task
  }

  ghost function TasksAfter(c: Config, s: System, a: Action): map<D.NasIp, Task>
    requires CanAct(c, s, a)
  {
    if a.Tick? || a.Crashed? || a.Restarted? then map[]
    else if a.Spawned? then s.tasks[s.phase.rest[0] := Task(Born, NoTx)]
    else if MovesTask(a) then s.tasks[a.nas := TaskAfter(s.tasks[a.nas], a)]
    else s.tasks
  }

  ghost function PhaseAfter(c: Config, s: System, a: Action): Phase
    requires CanAct(c, s, a)
  {
    match a
    case Tick => ReadingDirs
    case Stop => Stopped
    case DirsRead(list) => if list.Some? then Collecting else Draining
    case Drained => Resting
    case Collected =>
      if s.channelLoader.result.Some? && s.sessionLoader.result.Some? then Dispatching(s.dirs, CheckCtx) else Resting
    case UnknownSkipped => Dispatching(s.phase.rest[1..], CheckCtx)
    case CtxChecked => if s.cancelled then Waiting else Dispatching(s.phase.rest, Select)
    case Acquired => Dispatching(s.phase.rest, AddOne)
    case SelectedDone => Waiting
    case Added => Dispatching(s.phase.rest, Spawn)
    case Spawned => Dispatching(s.phase.rest[1..], CheckCtx)
    case AllDispatched => Waiting
    case WaitOver => Resting
    case Crashed => Down
    case Restarted => Resting
    case _ => s.phase
  }

  const IDLE_CHANNELS: Loader<ChannelMap> := Loader(Finished, None)
  const IDLE_SESSIONS: Loader<Sessions> := Loader(Finished, None)

  ghost function ChannelLoaderAfter(s: System, a: Action): Loader<ChannelMap> {
    match a
    case Tick => Loader(Opening, None)
    case Crashed => IDLE_CHANNELS
    case Restarted => IDLE_CHANNELS
    case ChannelsOpened(ok) => Loader(if ok then Loading else Finished, None)
    case ChannelsLoaded(channels) => Loader(Closing, channels)
    case ChannelsClosed => s.channelLoader.(pc := Finished)
    case _ => s.channelLoader
  }

  ghost function SessionLoaderAfter(s: System, a: Action): Loader<Sessions> {
    match a
    case Tick => Loader(Opening, None)
    case Crashed => IDLE_SESSIONS
    case Restarted => IDLE_SESSIONS
    case SessionsOpened(ok) => Loader(if ok then Loading else Finished, None)
    case SessionsLoaded(sessions) => Loader(Closing, sessions)
    case SessionsClosed => s.sessionLoader.(pc := Finished)
    case _ => s.sessionLoader
  }

  ghost function SemAfter(c: Config, s: System, a: Action): nat
    requires CanAct(c, s, a)
  {
    match a
    case Tick => 0
    case Crashed => 0
    case Restarted => 0
    case Acquired => s.sem + 1
    case Released(_) => s.sem - 1
    case _ => s.sem
  }

  ghost function WgAfter(s: System, a: Action): int {
    match a
    case Tick => 0
    case Crashed => 0
    case Restarted => 0
    case Added => s.wg + 1
    case Signed(_) => s.wg - 1
    case _ => s.wg
  }

  ghost function Next(c: Config, s: System, a: Action): System
    requires CanAct(c, s, a)
  {
    var anew := a.Tick? || a.Crashed? || a.Restarted?;
    System(
      Worked(c, s.world, Emits(s, a)), PhaseAfter(c, s, a),
      if a.Cancel? then true else if a.Restarted? then false else s.cancelled,
      ChannelLoaderAfter(s, a), SessionLoaderAfter(s, a), SemAfter(c, s, a), WgAfter(s, a), TasksAfter(c, s, a),
      if anew then [] else if a.DirsRead? && a.list.Some? then a.list.value else s.dirs,
      if anew then [] else if a.Spawned? then s.dispatched + [s.phase.rest[0]] else s.dispatched,
      if anew then [] else if a.TaskStarted? then s.begun + [a.nas] else s.begun)
  }

  // ---- runs

  ghost predicate LegalRun(c: Config, s: System, run: seq<Action>) {
    run == [] ||
    (LegalRun(c, s, run[..|run| - 1]) && CanAct(c, AfterRun(c, s, run[..|run| - 1]), run[|run| - 1]))
  }

  ghost function AfterRun(c: Config, s: System, run: seq<Action>): System {
    if run == [] then s
    else
      var t := AfterRun(c, s, run[..|run| - 1]);
      if CanAct(c, t, run[|run| - 1]) then Next(c, t, run[|run| - 1]) else t
  }

  /** The events of the protocol that a run of the service consists of. */
  ghost function Log(c: Config, s: System, run: seq<Action>): seq<Act> {
    if run == [] then []
    else
      var before := run[..|run| - 1];
      Log(c, s, before) + Emits(AfterRun(c, s, before), run[|run| - 1])
  }
}
