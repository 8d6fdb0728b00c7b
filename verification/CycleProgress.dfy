/** A cycle ends: every step of the service brings it closer to its end, and some step is always possible. */
module CycleProgress {
  import opened Text
  import opened Address
  import opened Sums
  import opened Billing
  import opened BillingSafety
  import opened BillingRecovery
  import Traffic
  import opened World
  import opened Loaders
  import opened Cycle
  import opened CycleSafety
  import opened CycleHistory
  import D = Database

  // ---- the measure

  /** Compared from the first number on. */
  datatype Distance = Distance(stage: nat, rest: nat, go: nat, loaders: nat, ranks: int, lefts: int)

  ghost predicate Nearer(d: Distance, e: Distance) {
    d.stage < e.stage || (d.stage == e.stage &&
    (d.rest < e.rest || (d.rest == e.rest &&
    (d.go < e.go || (d.go == e.go &&
    (d.loaders < e.loaders || (d.loaders == e.loaders &&
    (d.ranks < e.ranks || (d.ranks == e.ranks && d.lefts < e.lefts)))))))))
  }

  function Stage(phase: Phase): nat {
    match phase
    case ReadingDirs => 4
    case Draining => 3
    case Collecting => 3
    case Dispatching(_, _) => 2
    case Waiting => 1
    case _ => 0
  }

  function RestLeft(phase: Phase): nat {
    if phase.Dispatching? then |phase.rest| else 0
  }

  function GoLeft(phase: Phase): nat {
    if phase.Dispatching? then (match phase.at case CheckCtx => 3 case Select => 2 case AddOne => 1 case Spawn => 0)
    else 0
  }

  function LoaderLeft<T>(loader: Loader<T>): nat {
    match loader.pc
    case Opening => 3
    case Loading => 2
    case Closing => 1
    case Finished => 0
  }

  /** What a task has before it, in the order of its program counter. */
  function TaskRank(worker: Worker, task: Task): nat {
    match task.pc
    case Born => 50
    case Running => 10 + 3 * Rank(worker) + (match task.tx case NoTx => 1 case InTx => 0 case AfterTx => 2)
    case Recovering => if task.tx.NoTx? then 5 else 6
    case Releasing => 3
    case Signing => 2
    case Ended => 0
  }

  ghost function Ranks(w: World, tasks: Tasks): D.NasIp -> int {
    nas => if nas in tasks && nas in w.sites then TaskRank(w.sites[nas].worker, tasks[nas]) else 0
  }

  ghost function Lefts(w: World): D.NasIp -> int {
    nas => if nas in w.sites then Left(w.sites[nas]) else 0
  }

  ghost function DistanceOf(s: System): Distance {
    Distance(Stage(s.phase), RestLeft(s.phase), GoLeft(s.phase),
             LoaderLeft(s.channelLoader) + LoaderLeft(s.sessionLoader),
             Sum(s.tasks.Keys, Ranks(s.world, s.tasks)), Sum(s.tasks.Keys, Lefts(s.world)))
  }

  /** A step of the service itself: not an arrival, a tick, a signal or a crash. */
  predicate IsOwn(a: Action) {
    !a.Tick? && !a.Stop? && !a.Cancel? && !a.Arrived? && !a.Crashed? && !a.Killed? && !a.Restarted?
  }

  // ---- every step brings the end closer

  lemma RankDown(c: Config, s: System, a: Action)
    requires ServiceInv(c, s) && CanAct(c, s, a) && MovesTask(a)
    requires a.nas in s.world.sites && a.nas in s.tasks
    ensures var v := Worked(c, s.world, Emits(s, a));
      && v.sites.Keys == s.world.sites.Keys
      && var before, after := TaskRank(s.world.sites[a.nas].worker, s.tasks[a.nas]),
                              TaskRank(v.sites[a.nas].worker, TaskAfter(s.tasks[a.nas], a));
         after < before || (after == before && Left(v.sites[a.nas]) < Left(s.world.sites[a.nas]))
  {
    hide ServiceInv, CanAct, Left, Rank, Worked, Emits, UsesTx, AtWork, TaskOk;
    MoveMeans(c, s, a);
    WorkedSites(c, s, a, a.nas);
    RankBounded(Worked(c, s.world, Emits(s, a)).sites[a.nas].worker);
    TxMeans(c, s, a.nas);
    if a.TaskStep? {
      StepCan(c, s, a);
      StepDown(c, s.world, s.tasks[a.nas].tx, a.nas, a.ev);
    } else if !a.TaskStarted? && !a.TaskPanicked? {
      SilentMove(c, s, a);
    }
  }

  lemma TxMeans(c: Config, s: System, nas: D.NasIp)
    requires ServiceInv(c, s) && nas in s.tasks && nas in s.world.sites
    ensures s.tasks[nas].tx.InTx? ==> AtWork(s.world, nas) && UsesTx(s.world.sites[nas].worker.pc)
    ensures s.tasks[nas].tx.AfterTx? ==> s.tasks[nas].pc.Running? || s.tasks[nas].pc.Recovering?
  {
    hide AllInv, OwnJobs, PoolOk, NoStray, PhaseOk, DispatchOk, BegunOk;
    assert TaskOk(s.world, nas, s.tasks[nas]);
  }

  lemma StepCan(c: Config, s: System, a: Action)
    requires CanAct(c, s, a) && a.TaskStep?
    ensures a.nas in s.tasks && RunCan(s.world, s.tasks[a.nas].tx, a.nas, a.ev)
    ensures Emits(s, a) == [Act(a.nas, a.ev)]
  {
    hide RunCan;
  }

  lemma RankBounded(worker: Worker)
    ensures Rank(worker) <= 9
  {
  }

  /** An action of a run brings the run closer, and in a transaction it changes the kind of action. */
  lemma StepDown(c: Config, w: World, tx: TxUse, nas: D.NasIp, ev: Event)
    requires RunCan(w, tx, nas, ev) && (tx.InTx? ==> UsesTx(w.sites[nas].worker.pc))
    ensures var s, t := w.sites[nas], Worked(c, w, [Act(nas, ev)]).sites[nas];
      && (Rank(t.worker) < Rank(s.worker) || (Rank(t.worker) == Rank(s.worker) && Left(t) < Left(s)))
      && (tx.InTx? ==> Rank(t.worker) < Rank(s.worker))
  {
    hide Apply, CanTake, Rank, Left;
    var s := View(w, nas);
    CloserMeans(c.net, s, ev);
    SameLeft(w.sites[nas], {}, D.NamesOf(w.flowBatch, nas));
    SameLeft(Apply(c.net, s, ev), {}, {});
    if tx.InTx? {
      NothingLeft(s);
    }
  }

  lemma SameLeft(s: State, a: set<Name>, b: set<Name>)
    ensures Left(s.(checkpoint := a)) == Left(s) == Left(s.(checkpoint := b))
    ensures s.(checkpoint := a).worker == s.worker
  {
  }

  lemma NothingLeft(s: State)
    requires s.worker.Busy? && UsesTx(s.worker.pc)
    ensures Left(s) == 0
  {
  }

  lemma MoveCloser(c: Config, s: System, a: Action)
    requires ServiceInv(c, s) && CanAct(c, s, a) && MovesTask(a)
    ensures Nearer(DistanceOf(Next(c, s, a)), DistanceOf(s))
  {
    hide ServiceInv, CanAct, Worked, TasksAfter, PhaseAfter, Emits, TaskRank, Left, Sum;
    MoveMeans(c, s, a);
    var v, tasks := Worked(c, s.world, Emits(s, a)), TasksAfter(c, s, a);
    TaskSite(c, s, a.nas);
    RankDown(c, s, a);
    assert tasks.Keys == s.tasks.Keys;
    forall nas | nas in tasks && nas != a.nas
      ensures Ranks(v, tasks)(nas) == Ranks(s.world, s.tasks)(nas)
      ensures Lefts(v)(nas) == Lefts(s.world)(nas)
    {
      OtherActs(s, a, nas);
      WorkedSites(c, s, a, nas);
    }
    SumChange(tasks.Keys, Ranks(s.world, s.tasks), Ranks(v, tasks), a.nas);
    SumChange(tasks.Keys, Lefts(s.world), Lefts(v), a.nas);
  }

  lemma TaskSite(c: Config, s: System, nas: D.NasIp)
    requires ServiceInv(c, s) && nas in s.tasks
    ensures nas in s.world.sites
  {
    hide AllInv, OwnJobs, PoolOk, NoStray, PhaseOk, DispatchOk, BegunOk;
    assert TaskOk(s.world, nas, s.tasks[nas]);
  }

  lemma OwnStepCloser(c: Config, s: System, a: Action)
    requires ServiceInv(c, s) && CanAct(c, s, a) && IsOwn(a)
    ensures Nearer(DistanceOf(Next(c, s, a)), DistanceOf(s))
  {
    hide ServiceInv, CanAct, Nearer, DistanceOf;
    if MovesTask(a) {
      MoveCloser(c, s, a);
    } else if IsGo(a) {
      GoCloser(c, s, a);
    } else {
      LoadCloser(c, s, a);
    }
  }

  lemma GoCloser(c: Config, s: System, a: Action)
    requires CanAct(c, s, a) && IsGo(a)
    ensures Nearer(DistanceOf(Next(c, s, a)), DistanceOf(s))
  {
    hide CanAct, Worked, TasksAfter, Emits, Ranks, Lefts, Sum, PhaseAfter;
    GoOn(c, s, a);
  }

  lemma GoOn(c: Config, s: System, a: Action)
    requires CanAct(c, s, a) && IsGo(a)
    ensures var p, q := PhaseAfter(c, s, a), s.phase;
      || Stage(p) < Stage(q)
      || (Stage(p) == Stage(q) && (RestLeft(p) < RestLeft(q) || (RestLeft(p) == RestLeft(q) && GoLeft(p) < GoLeft(q))))
  {
    hide CanStep, LoaderCan, TaskCan;
  }

  lemma LoadCloser(c: Config, s: System, a: Action)
    requires ServiceInv(c, s) && CanAct(c, s, a) && IsOwn(a) && !MovesTask(a) && !IsGo(a)
    ensures Nearer(DistanceOf(Next(c, s, a)), DistanceOf(s))
  {
    hide AllInv, OwnJobs, PoolOk, NoStray, TasksOk, PhaseOk, DispatchOk, BegunOk, Worked, Emits, RunCan, CanStep,
         Ranks, Lefts, Sum, TaskRank, Left;
    Otherwise(c, s, a);
    LoaderWorld(c, s, a);
  }

  lemma LoaderWorld(c: Config, s: System, a: Action)
    requires IsOwn(a) && !MovesTask(a)
    ensures Worked(c, s.world, Emits(s, a)) == s.world
  {
  }

  /** Arrivals and a cancellation do not push the end away. */
  lemma OutsideStaysAway(c: Config, s: System, a: Action)
    requires CanAct(c, s, a) && (a.Arrived? || a.Cancel?)
    ensures DistanceOf(Next(c, s, a)) == DistanceOf(s)
  {
    hide Worked, CanStep, Sum, TaskRank, Left;
    var v := Worked(c, s.world, Emits(s, a));
    forall nas | nas in s.tasks
      ensures Ranks(v, s.tasks)(nas) == Ranks(s.world, s.tasks)(nas)
      ensures Lefts(v)(nas) == Lefts(s.world)(nas)
    {
      WorkedSites(c, s, a, nas);
      if a.Arrived? && nas == a.nas {
        ArrivalAside(c, s.world, a);
      }
    }
    SumSame(s.tasks.Keys, Ranks(v, s.tasks), Ranks(s.world, s.tasks));
    SumSame(s.tasks.Keys, Lefts(v), Lefts(s.world));
  }

  lemma ArrivalAside(c: Config, w: World, a: Action)
    requires a.Arrived? && CanStep(w, Act(a.nas, Arrive(a.name, a.file)))
    ensures var v := Worked(c, w, [Act(a.nas, Arrive(a.name, a.file))]);
            v.sites[a.nas].worker == w.sites[a.nas].worker && Left(v.sites[a.nas]) == Left(w.sites[a.nas])
  {
  }

  // ---- some step is always possible

  /** In every nas directory the files can be read to their end and none is in the place of tmp. */
  ghost predicate AllPassable(w: World) {
    forall nas | nas in w.sites :: Passable(View(w, nas))
  }

  /** A step of the service that fails: of a run, of a loader or of the listing of the directories. */
  predicate IsFault(a: Action) {
    match a
    case TaskPanicked(_) => true
    case TaskStep(_, ev) => Fault(ev)
    case ChannelsOpened(ok) => !ok
    case SessionsOpened(ok) => !ok
    case ChannelsLoaded(channels) => channels.None?
    case SessionsLoaded(sessions) => sessions.None?
    case DirsRead(list) => list.None?
    case _ => false
  }

  /** What the flow directory and the tables hold when a cycle reads them. */
  datatype Supply = Supply(dirs: seq<D.NasIp>, channels: Traffic.ChannelMap, sessions: Sessions)

  ghost predicate SupplyOk(w: World, supply: Supply) {
    && Grouped(supply.sessions)
    && (w.sites != map[] ==>
          supply.dirs != [] && NoDup(supply.dirs) && forall nas | nas in supply.dirs :: nas in w.sites)
  }

  /** What an action reads is what there is. */
  predicate Reads(a: Action, supply: Supply) {
    match a
    case DirsRead(list) => list == None || list == Some(supply.dirs)
    case ChannelsLoaded(channels) => channels == None || channels == Some(supply.channels)
    case SessionsLoaded(sessions) => sessions == None || sessions == Some(supply.sessions)
    case _ => true
  }

  /** A task that has not ended can move; without a fault, if nothing stands in the way. */
  lemma NextMove(c: Config, s: System, nas: D.NasIp) returns (a: Action)
    requires ServiceInv(c, s) && nas in Unfinished(s.tasks)
    ensures CanAct(c, s, a) && MovesTask(a)
    ensures AllPassable(s.world) ==> !IsFault(a)
  {
    hide ServiceInv, AllPassable, RunCan;
    var task := s.tasks[nas];
    if task.tx.AfterTx? {
      a := TxClosed(nas);
    } else if task.pc.Running? {
      hide CanAct, IsFault;
      a := NextOfRun(c, s, nas);
    } else {
      NotRunning(c, s, nas);
      a := match task.pc
        case Born => TaskStarted(nas)
        case Recovering => Recovered(nas)
        case Releasing => Released(nas)
        case _ => Signed(nas);
    }
  }

  lemma NotRunning(c: Config, s: System, nas: D.NasIp)
    requires ServiceInv(c, s) && nas in s.tasks && !s.tasks[nas].pc.Running? && !s.tasks[nas].tx.AfterTx?
    ensures s.tasks[nas].tx.NoTx?
    ensures s.tasks[nas].pc.Releasing? ==> s.sem > 0
  {
    hide AllInv, OwnJobs, NoStray, PhaseOk, DispatchOk, BegunOk;
    assert TaskOk(s.world, nas, s.tasks[nas]);
    assert s.tasks[nas].pc.Releasing? ==> nas in Holders(s.tasks);
  }

  lemma NextOfRun(c: Config, s: System, nas: D.NasIp) returns (a: Action)
    requires ServiceInv(c, s) && AtPc(s.tasks, nas, Running) && !s.tasks[nas].tx.AfterTx?
    ensures CanAct(c, s, a) && MovesTask(a)
    ensures AllPassable(s.world) ==> !IsFault(a)
  {
    hide ServiceInv, Inv, Passable, CanTake, UsesTx;
    TaskSite(c, s, nas);
    TxMeans(c, s, nas);
    var tx := s.tasks[nas].tx;
    if !AtWork(s.world, nas) {
      a := TaskReturned(nas);
    } else if tx.NoTx? && UsesTx(s.world.sites[nas].worker.pc) {
      a := TxOpened(nas);
    } else if Passable(View(s.world, nas)) {
      SiteInv(c, s, nas);
      var ev := NextAction(c.net, View(s.world, nas));
      a := TaskStep(nas, ev);
    } else {
      CanAbort(s.world, nas, IoError);
      a := TaskStep(nas, Abort(IoError));
    }
  }

  lemma SiteInv(c: Config, s: System, nas: D.NasIp)
    requires ServiceInv(c, s) && nas in s.world.sites
    ensures Inv(c.net, View(s.world, nas))
  {
    hide OwnJobs, PoolOk, NoStray, PhaseOk, DispatchOk, BegunOk, TasksOk, Inv;
  }

  /** No state of a cycle is stuck: whatever the directories and tables hold, some step is possible, and one
      that does not fail, if there is a directory and nothing in the directories stands in the way. */
  lemma NeverStuck(c: Config, s: System, supply: Supply) returns (a: Action)
    requires ServiceInv(c, s) && (IsLoading(s.phase) || IsPooling(s.phase)) && SupplyOk(s.world, supply)
    ensures CanAct(c, s, a) && IsOwn(a) && Reads(a, supply)
    ensures AllPassable(s.world) && s.world.sites != map[] ==> !IsFault(a)
  {
    hide ServiceInv, AllPassable, TaskCan, PoolOk, NoDup, Grouped;
    match s.phase
    case ReadingDirs => a := DirsRead(if s.world.sites == map[] then None else Some(supply.dirs));
    case Draining => a := if LoadersFinished(s) then Drained else NextOfLoaders(s, supply);
    case Collecting => a := if LoadersFinished(s) then Collected else NextOfLoaders(s, supply);
    case Dispatching(rest, at) => a := NextOfGo(c, s, supply);
    case Waiting => a := NextOfWait(c, s, supply);
  }

  lemma NextOfWait(c: Config, s: System, supply: Supply) returns (a: Action)
    requires ServiceInv(c, s) && s.phase.Waiting?
    ensures CanAct(c, s, a) && IsOwn(a) && Reads(a, supply)
    ensures AllPassable(s.world) ==> !IsFault(a)
  {
    hide AllInv, OwnJobs, NoStray, TasksOk, BegunOk, DispatchOk, PhaseOk, AllPassable, Unfinished;
    if s.wg == 0 {
      a := WaitOver;
    } else {
      var nas :| nas in Unfinished(s.tasks);
      hide CanAct, IsFault, ServiceInv;
      a := NextMove(c, s, nas);
    }
  }

  /** A slot that dispatch waits for is held by a task that can move. */
  lemma NextOfGo(c: Config, s: System, supply: Supply) returns (a: Action)
    requires ServiceInv(c, s) && s.phase.Dispatching?
    ensures CanAct(c, s, a) && IsOwn(a) && Reads(a, supply)
    ensures AllPassable(s.world) ==> !IsFault(a)
  {
    hide AllInv, OwnJobs, NoStray, TasksOk, BegunOk, PhaseOk, AllPassable, KnownOf, NoDup, Holders;
    var rest, at := s.phase.rest, s.phase.at;
    if at.Select? && s.sem >= Slots(c) {
      var nas :| nas in Holders(s.tasks);
      HolderUnfinished(s.tasks, nas);
      hide CanAct, IsFault, ServiceInv;
      a := NextMove(c, s, nas);
    } else {
      a := match at
        case CheckCtx => if rest == [] then AllDispatched else if Known(s, rest[0]) then CtxChecked else UnknownSkipped
        case Select => Acquired
        case AddOne => Added
        case Spawn => Spawned;
    }
  }

  lemma HolderUnfinished(tasks: Tasks, nas: D.NasIp)
    requires nas in Holders(tasks)
    ensures nas in Unfinished(tasks)
  {
  }

  function NextOfLoaders(s: System, supply: Supply): Action {
    match s.channelLoader.pc
    case Opening => ChannelsOpened(true)
    case Loading => ChannelsLoaded(Some(supply.channels))
    case Closing => ChannelsClosed
    case Finished =>
      match s.sessionLoader.pc
      case Opening => SessionsOpened(true)
      case Loading => SessionsLoaded(Some(supply.sessions))
      case _ => SessionsClosed
  }

  // ---- the cycle ends

  /** From any state of a cycle, whatever the directories and tables hold, its own steps lead to its end. */
  lemma CycleEnds(c: Config, s: System, supply: Supply) returns (run: seq<Action>)
    requires ServiceInv(c, s) && (IsLoading(s.phase) || IsPooling(s.phase)) && SupplyOk(s.world, supply)
    ensures LegalRun(c, s, run) && forall i | 0 <= i < |run| :: IsOwn(run[i]) && Reads(run[i], supply)
    ensures var t := AfterRun(c, s, run);
      && t.phase.Resting? && t.sem == 0 && OpenTxs(t) == 0
      && forall nas | nas in t.world.sites :: !AtWork(t.world, nas)
  {
    hide *;
    var t := s;
    run := [];
    RunStart(c, s);
    NotNegative(s);
    while IsLoading(t.phase) || IsPooling(t.phase)
      invariant t == AfterRun(c, s, run) && LegalRun(c, s, run) && ServiceInv(c, t) && SupplyOk(t.world, supply)
      invariant InCycle(t.phase) && DistanceOf(t).ranks >= 0 && DistanceOf(t).lefts >= 0
      invariant forall i | 0 <= i < |run| :: IsOwn(run[i]) && Reads(run[i], supply)
      decreases DistanceOf(t).stage, DistanceOf(t).rest, DistanceOf(t).go, DistanceOf(t).loaders,
                DistanceOf(t).ranks, DistanceOf(t).lefts
    {
      var a := NeverStuck(c, t, supply);
      NearerMeans(c, t, a);
      StaysInCycle(c, t, a);
      SupplyStays(c, t, a, supply);
      ServiceKept(c, t, a);
      AfterRunSnoc(c, s, run, a);
      run := run + [a];
      t := Next(c, t, a);
      NotNegative(t);
    }
    EndMeans(c, t);
  }

  lemma SupplyStays(c: Config, s: System, a: Action, supply: Supply)
    requires CanAct(c, s, a) && SupplyOk(s.world, supply)
    ensures Next(c, s, a).world.sites.Keys == s.world.sites.Keys
    ensures SupplyOk(Next(c, s, a).world, supply) && (s.world.sites != map[] ==> Next(c, s, a).world.sites != map[])
  {
    hide CanAct, Worked, Emits, TasksAfter, PhaseAfter, Grouped, NoDup;
    WorkedSites(c, s, a, "");
    var v := Worked(c, s.world, Emits(s, a));
    assert s.world.sites != map[] ==> s.world.sites.Keys != {};
    assert v.sites.Keys != {} ==> v.sites != map[];
    assert v.sites == map[] ==> v.sites.Keys == {};
  }

  predicate InCycle(phase: Phase) {
    IsLoading(phase) || IsPooling(phase) || phase.Resting?
  }

  lemma RunStart(c: Config, s: System)
    ensures AfterRun(c, s, []) == s && LegalRun(c, s, [])
    ensures IsLoading(s.phase) || IsPooling(s.phase) ==> InCycle(s.phase)
  {
  }

  lemma AfterRunSnoc(c: Config, s: System, run: seq<Action>, a: Action)
    requires LegalRun(c, s, run) && CanAct(c, AfterRun(c, s, run), a)
    ensures LegalRun(c, s, run + [a]) && AfterRun(c, s, run + [a]) == Next(c, AfterRun(c, s, run), a)
  {
    hide CanAct, Next;
    assert (run + [a])[..|run|] == run;
  }

  lemma StaysInCycle(c: Config, s: System, a: Action)
    requires CanAct(c, s, a) && IsOwn(a) && InCycle(s.phase)
    ensures InCycle(Next(c, s, a).phase)
  {
    hide Worked, CanStep, RunCan, TasksAfter, Emits;
  }

  lemma {:induction false} SumNotNegative(s: set<D.NasIp>, f: D.NasIp -> int)
    requires forall x | x in s :: f(x) >= 0
    ensures Sum(s, f) >= 0
  {
    if x :| x in s {
      SumTake(s, f, x);
      SumNotNegative(s - {x}, f);
    }
  }

  lemma NotNegative(s: System)
    ensures DistanceOf(s).ranks >= 0 && DistanceOf(s).lefts >= 0
  {
    SumNotNegative(s.tasks.Keys, Ranks(s.world, s.tasks));
    SumNotNegative(s.tasks.Keys, Lefts(s.world));
  }

  lemma NearerMeans(c: Config, s: System, a: Action)
    requires ServiceInv(c, s) && CanAct(c, s, a) && IsOwn(a)
    ensures var d, e := DistanceOf(Next(c, s, a)), DistanceOf(s);
      d.stage < e.stage || (d.stage == e.stage &&
      (d.rest < e.rest || (d.rest == e.rest &&
      (d.go < e.go || (d.go == e.go &&
      (d.loaders < e.loaders || (d.loaders == e.loaders &&
      (d.ranks < e.ranks || (d.ranks == e.ranks && d.lefts < e.lefts)))))))))
  {
    hide ServiceInv, CanAct, Next, DistanceOf;
    OwnStepCloser(c, s, a);
  }

  lemma EndMeans(c: Config, t: System)
    requires ServiceInv(c, t) && InCycle(t.phase) && !IsLoading(t.phase) && !IsPooling(t.phase)
    ensures t.phase.Resting? && t.sem == 0 && OpenTxs(t) == 0
    ensures forall nas | nas in t.world.sites :: !AtWork(t.world, nas)
  {
    hide AllInv, OwnJobs, DispatchOk, BegunOk;
    PoolMeans(c, t);
    AllEnded(t.tasks);
    TxsHold(t.world, t.tasks);
    NoneRunning(t.tasks);
  }

  /** Step i of an endless run: the service's own, an arrival or a cancellation. */
  ghost predicate StepAt(c: Config, f: nat -> System, g: nat -> Action, i: nat) {
    && CanAct(c, f(i), g(i)) && (IsOwn(g(i)) || g(i).Arrived? || g(i).Cancel?)
    && f(i + 1) == Next(c, f(i), g(i))
  }

  /** At i or later there is a step of the service's own. */
  ghost predicate OwnFrom(g: nat -> Action, i: nat) {
    exists j: nat :: i <= j && IsOwn(g(j))
  }

  /** Within one cycle there is no endless run of the service's own steps, even if files keep arriving in between. */
  lemma NoEndlessCycle(c: Config, f: nat -> System, g: nat -> Action)
    requires ServiceInv(c, f(0))
    requires forall i: nat :: OwnFrom(g, i)
    ensures exists i: nat :: !StepAt(c, f, g, i)
  {
    hide StepAt, ServiceInv, IsOwn;
    assert OwnFrom(g, 0);
    var j: nat :| 0 <= j && IsOwn(g(j));
    NotNegative(f(0));
    Descend(c, f, g, 0, j);
  }

  lemma Descend(c: Config, f: nat -> System, g: nat -> Action, i: nat, j: nat)
    requires ServiceInv(c, f(i)) && i <= j && IsOwn(g(j))
    requires DistanceOf(f(i)).ranks >= 0 && DistanceOf(f(i)).lefts >= 0
    requires forall i: nat :: OwnFrom(g, i)
    ensures exists k: nat :: !StepAt(c, f, g, k)
    decreases DistanceOf(f(i)).stage, DistanceOf(f(i)).rest, DistanceOf(f(i)).go, DistanceOf(f(i)).loaders,
              DistanceOf(f(i)).ranks, DistanceOf(f(i)).lefts, j - i
  {
    hide ServiceInv, CanAct, Next, DistanceOf, IsOwn;
    if StepAt(c, f, g, i) {
      ServiceKept(c, f(i), g(i));
      NotNegative(f(i + 1));
      if IsOwn(g(i)) {
        NearerMeans(c, f(i), g(i));
        assert OwnFrom(g, i + 1);
        var k: nat :| i + 1 <= k && IsOwn(g(k));
        Descend(c, f, g, i + 1, k);
      } else {
        OutsideStaysAway(c, f(i), g(i));
        Descend(c, f, g, i + 1, j);
      }
    }
  }

  // ---- a cycle without faults

  /** The loaders have read the supply, or not yet; the directories are those of the supply. */
  ghost predicate Follows(s: System, supply: Supply) {
    && s.channelLoader.result == (if s.channelLoader.pc.Opening? || s.channelLoader.pc.Loading? then None
                                  else Some(supply.channels))
    && s.sessionLoader.result == (if s.sessionLoader.pc.Opening? || s.sessionLoader.pc.Loading? then None
                                  else Some(supply.sessions))
    && !s.phase.Draining? && (!s.phase.ReadingDirs? ==> s.dirs == supply.dirs)
  }

  /** Every nas of the given ones still waits in a ready directory, or its run is on its way to a clean end. */
  ghost predicate Tracked(net: Net, w: World, begun: seq<D.NasIp>, some: set<D.NasIp>) {
    forall nas | nas in some :: nas in w.sites &&
      (if nas in begun then OnTrack(net, View(w, nas)) else Ready(View(w, nas)))
  }

  lemma FollowsKept(c: Config, s: System, a: Action, supply: Supply)
    requires Follows(s, supply) && CanAct(c, s, a) && IsOwn(a) && Reads(a, supply) && !IsFault(a)
    requires InCycle(s.phase) && !s.phase.Resting?
    ensures Follows(Next(c, s, a), supply)
    ensures !s.cancelled ==> !Next(c, s, a).cancelled
    ensures Next(c, s, a).phase.Waiting? ==> s.phase.Waiting? || a.AllDispatched? || s.cancelled
    ensures Next(c, s, a).phase.Resting? ==> s.phase.Waiting?
  {
    hide Worked, Emits, TasksAfter, CanStep, RunCan;
  }

  lemma PassableStep(net: Net, s: State, ev: Event)
    requires Inv(net, s) && CanTake(s, ev) && Passable(s) && !Fault(ev) && !ev.Arrive?
    ensures Passable(Apply(net, s, ev))
  {
    hide Inv, Scannable, IsFlowName, Decide;
    if !ev.Begin? {
      PassableKept(net, s, ev);
    }
  }

  /** An event of the service that is no fault and no arrival. */
  ghost predicate GoodAct(s: System, a: Action) {
    forall i | 0 <= i < |Emits(s, a)| :: !Fault(Emits(s, a)[i].ev) && !Emits(s, a)[i].ev.Arrive?
  }

  lemma OwnActIsGood(s: System, a: Action)
    requires IsOwn(a) && !IsFault(a) && (a.TaskStep? ==> !a.ev.Arrive?)
    ensures GoodAct(s, a)
  {
  }

  lemma NoArrival(c: Config, s: System, a: Action)
    requires CanAct(c, s, a)
    ensures a.TaskStep? ==> !a.ev.Arrive? && !a.ev.Begin?
  {
    hide CanStep, AtWork, UsesTx;
  }

  lemma PassableGoesOn(c: Config, s: System, a: Action)
    requires ServiceInv(c, s) && CanAct(c, s, a) && AllPassable(s.world) && GoodAct(s, a)
    ensures AllPassable(Worked(c, s.world, Emits(s, a)))
  {
    hide ServiceInv, CanAct, Emits, Passable, View, Step, CanStep, Inv, Apply, CanTake, Fault;
    EmitsLegal(c, s, a);
    if Emits(s, a) != [] {
      var act := Emits(s, a)[0];
      CanStepMeans(s.world, act);
      StepView(c.net, s.world, act, act.nas);
      var v := Step(c.net, s.world, act);
      forall nas | nas in v.sites
        ensures Passable(View(v, nas))
      {
        StepView(c.net, s.world, act, nas);
        if act.nas == nas {
          SiteInv(c, s, nas);
          PassableStep(c.net, View(s.world, nas), act.ev);
        }
      }
    }
  }

  /** Who has begun after an action, and whose event it is. */
  lemma ActMeans(c: Config, s: System, a: Action)
    requires ServiceInv(c, s) && CanAct(c, s, a) && IsOwn(a)
    ensures Emits(s, a) != [] ==>
              if a.TaskStarted? then Emits(s, a)[0].nas == a.nas && Emits(s, a)[0].ev.Begin? && a.nas !in s.begun
              else Emits(s, a)[0].nas in s.begun && !Emits(s, a)[0].ev.Begin?
    ensures a.TaskStarted? ==> Emits(s, a) != []
  {
    hide AllInv, OwnJobs, PoolOk, NoStray, TasksOk, PhaseOk, DispatchOk, CanStep, AtWork, NoDup;
    if a.TaskStarted? {
      StartMeans(c, s, a.nas);
    }
  }

  lemma TrackStep(net: Net, s: State, ev: Event)
    requires Inv(net, s) && CanTake(s, ev) && !Fault(ev)
    requires if ev.Begin? then Ready(s) else OnTrack(net, s)
    ensures OnTrack(net, Apply(net, s, ev))
  {
    hide Inv, Decide, IsFlowName, NoFlowIn, Unreadable;
    if !ev.Begin? {
      hide Apply, CanTake, OnTrack;
      StepOnTrack(net, s, ev);
    }
  }

  lemma TrackGoesOn(c: Config, s: System, a: Action, some: set<D.NasIp>)
    requires ServiceInv(c, s) && CanAct(c, s, a) && IsOwn(a) && GoodAct(s, a)
    requires Tracked(c.net, s.world, s.begun, some)
    ensures Tracked(c.net, Worked(c, s.world, Emits(s, a)), if a.TaskStarted? then s.begun + [a.nas] else s.begun, some)
  {
    hide ServiceInv, CanAct, Emits, OnTrack, Ready, View, Step, CanStep, Inv, Apply, CanTake, Fault;
    EmitsLegal(c, s, a);
    ActMeans(c, s, a);
    if Emits(s, a) != [] {
      var act := Emits(s, a)[0];
      CanStepMeans(s.world, act);
      var v := Step(c.net, s.world, act);
      forall nas | nas in some
        ensures nas in v.sites
        ensures if nas in s.begun || (a.TaskStarted? && a.nas == nas) then OnTrack(c.net, View(v, nas))
                else Ready(View(v, nas))
      {
        StepView(c.net, s.world, act, nas);
        if act.nas == nas {
          SiteInv(c, s, nas);
          TrackStep(c.net, View(s.world, nas), act.ev);
        }
      }
    }
  }

  /** Everything that a cycle without faults keeps. */
  ghost predicate GoesWell(c: Config, s: System, supply: Supply, some: set<D.NasIp>) {
    && ServiceInv(c, s) && SupplyOk(s.world, supply) && s.world.sites != map[]
    && InCycle(s.phase) && Follows(s, supply) && !s.cancelled
    && AllPassable(s.world) && Tracked(c.net, s.world, s.begun, some)
  }

  lemma GoesOn(c: Config, s: System, a: Action, supply: Supply, some: set<D.NasIp>)
    requires GoesWell(c, s, supply, some) && !s.phase.Resting?
    requires CanAct(c, s, a) && IsOwn(a) && Reads(a, supply) && !IsFault(a)
    ensures GoesWell(c, Next(c, s, a), supply, some)
    ensures Next(c, s, a).phase.Waiting? ==> s.phase.Waiting? || a.AllDispatched?
    ensures Next(c, s, a).phase.Resting? ==> s.phase.Waiting?
  {
    hide *;
    WellMeans(c, s, supply, some);
    ServiceKept(c, s, a);
    SupplyStays(c, s, a, supply);
    StaysInCycle(c, s, a);
    FollowsKept(c, s, a, supply);
    NoArrival(c, s, a);
    OwnActIsGood(s, a);
    PassableGoesOn(c, s, a);
    TrackGoesOn(c, s, a, some);
    NextWorld(c, s, a);
    WellAgain(c, Next(c, s, a), supply, some);
  }

  lemma NextWorld(c: Config, s: System, a: Action)
    requires CanAct(c, s, a) && IsOwn(a)
    ensures Next(c, s, a).world == Worked(c, s.world, Emits(s, a))
    ensures Next(c, s, a).begun == if a.TaskStarted? then s.begun + [a.nas] else s.begun
  {
    hide CanAct, Worked, Emits, TasksAfter, PhaseAfter;
  }

  lemma WellMeans(c: Config, s: System, supply: Supply, some: set<D.NasIp>)
    requires GoesWell(c, s, supply, some)
    ensures ServiceInv(c, s) && SupplyOk(s.world, supply) && s.world.sites != map[]
    ensures InCycle(s.phase) && Follows(s, supply) && !s.cancelled
    ensures AllPassable(s.world) && Tracked(c.net, s.world, s.begun, some)
    ensures !s.phase.Resting? ==> IsLoading(s.phase) || IsPooling(s.phase)
  {
    hide ServiceInv, SupplyOk, Follows, AllPassable, Tracked;
  }

  lemma WellAgain(c: Config, s: System, supply: Supply, some: set<D.NasIp>)
    requires ServiceInv(c, s) && SupplyOk(s.world, supply) && s.world.sites != map[]
    requires InCycle(s.phase) && Follows(s, supply) && !s.cancelled
    requires AllPassable(s.world) && Tracked(c.net, s.world, s.begun, some)
    ensures GoesWell(c, s, supply, some)
  {
    hide ServiceInv, SupplyOk, Follows, AllPassable, Tracked;
  }

  /** From any reachable state between cycles in which nothing in the directories stands in the way of a run,
      whatever the tables hold: after a tick the service can go through a whole cycle without a fault. It then
      dispatches every directory that has sessions, each of them has run to its end, and those whose directory
      was ready end clean, but for new files that cannot be classified. */
  lemma CycleWithoutFault(c: Config, s: System, supply: Supply) returns (run: seq<Action>)
    requires ServiceInv(c, s) && CanAct(c, s, Tick) && !s.cancelled
    requires SupplyOk(s.world, supply) && s.world.sites != map[] && AllPassable(s.world)
    ensures LegalRun(c, Next(c, s, Tick), run) && AllDispatched in run
    ensures forall i | 0 <= i < |run| :: IsOwn(run[i]) && Reads(run[i], supply) && !IsFault(run[i])
    ensures var t := AfterRun(c, Next(c, s, Tick), run);
      && t.phase.Resting? && t.dispatched == KnownOf(supply.dirs, supply.sessions.Keys)
      && SetOf(t.begun) == SetOf(t.dispatched)
      && forall nas | nas in t.dispatched && nas in s.world.sites && Ready(View(s.world, nas)) ::
           nas in t.world.sites && !AtWork(t.world, nas) &&
           (Clean(View(t.world, nas)) || Unreadable(c.net, View(t.world, nas)))
  {
    hide *;
    var begin := Next(c, s, Tick);
    var some := ReadySites(s.world);
    TickMeans(c, s);
    TickGoesWell(c, s, supply);
    var t := begin;
    run := [];
    RunStart(c, begin);
    WellMeans(c, t, supply, some);
    NotNegative(t);
    while !t.phase.Resting?
      invariant t == AfterRun(c, begin, run) && LegalRun(c, begin, run) && GoesWell(c, t, supply, some)
      invariant DistanceOf(t).ranks >= 0 && DistanceOf(t).lefts >= 0
      invariant t.phase.Waiting? || t.phase.Resting? ==> AllDispatched in run
      invariant t.phase.Resting? ==> Complete(t, supply)
      invariant forall i | 0 <= i < |run| :: IsOwn(run[i]) && Reads(run[i], supply) && !IsFault(run[i])
      decreases DistanceOf(t).stage, DistanceOf(t).rest, DistanceOf(t).go, DistanceOf(t).loaders,
                DistanceOf(t).ranks, DistanceOf(t).lefts
    {
      WellMeans(c, t, supply, some);
      var a := NeverStuck(c, t, supply);
      NearerMeans(c, t, a);
      GoesOn(c, t, a, supply, some);
      LastStep(c, t, a, supply, some);
      AfterRunSnoc(c, begin, run, a);
      run := run + [a];
      t := Next(c, t, a);
      NotNegative(t);
    }
    WellEnd(c, t, supply, some);
    CompleteMeans(t, supply);
    InReadySites(s.world);
  }

  /** Every known directory has been dispatched, and every dispatched nas has begun its run. */
  ghost predicate Complete(s: System, supply: Supply) {
    s.dispatched == KnownOf(supply.dirs, supply.sessions.Keys) && SetOf(s.begun) == SetOf(s.dispatched)
  }

  lemma CompleteMeans(s: System, supply: Supply)
    requires Complete(s, supply)
    ensures s.dispatched == KnownOf(supply.dirs, supply.sessions.Keys) && SetOf(s.begun) == SetOf(s.dispatched)
    ensures forall nas :: nas in s.begun <==> nas in s.dispatched
  {
    hide KnownOf;
    assert forall nas :: nas in SetOf(s.begun) <==> nas in s.begun;
    assert forall nas :: nas in SetOf(s.dispatched) <==> nas in s.dispatched;
  }

  lemma LastStep(c: Config, s: System, a: Action, supply: Supply, some: set<D.NasIp>)
    requires GoesWell(c, s, supply, some) && !s.phase.Resting?
    requires CanAct(c, s, a) && IsOwn(a) && Reads(a, supply) && !IsFault(a)
    ensures Next(c, s, a).phase.Resting? ==> Complete(Next(c, s, a), supply)
  {
    hide *;
    WellMeans(c, s, supply, some);
    FollowsKept(c, s, a, supply);
    if Next(c, s, a).phase.Resting? {
      WaitOverMeans(c, s, a);
      WaitMeans(c, s);
      AllOfThem(c, s, supply);
      CompleteAgain(s, Next(c, s, a), supply);
    }
  }

  lemma CompleteAgain(s: System, t: System, supply: Supply)
    requires s.dispatched == KnownOf(supply.dirs, supply.sessions.Keys) && SetOf(s.begun) == SetOf(s.dispatched)
    requires t.dispatched == s.dispatched && t.begun == s.begun
    ensures Complete(t, supply)
  {
    hide KnownOf;
  }

  lemma WaitOverMeans(c: Config, s: System, a: Action)
    requires CanAct(c, s, a) && IsOwn(a) && s.phase.Waiting? && Next(c, s, a).phase.Resting?
    ensures a == WaitOver && Next(c, s, a).dispatched == s.dispatched && Next(c, s, a).begun == s.begun
  {
    hide Worked, Emits, TasksAfter, CanStep, RunCan;
  }

  lemma AllOfThem(c: Config, s: System, supply: Supply)
    requires ServiceInv(c, s) && Follows(s, supply) && s.phase.Waiting? && !s.cancelled
    ensures s.dispatched == KnownOf(supply.dirs, supply.sessions.Keys)
  {
    hide AllInv, OwnJobs, PoolOk, NoStray, TasksOk, BegunOk, KnownOf, NoDup;
    var k: nat :| k <= |s.dirs| && s.dispatched == KnownOf(s.dirs[..k], KnownTo(s.sessionLoader)) &&
                  (!s.cancelled ==> k == |s.dirs|);
    assert s.dirs[..k] == s.dirs;
  }

  lemma WellEnd(c: Config, t: System, supply: Supply, some: set<D.NasIp>)
    requires GoesWell(c, t, supply, some) && t.phase.Resting?
    ensures forall nas | nas in some && nas in t.begun ::
              nas in t.world.sites && !AtWork(t.world, nas) &&
              (Clean(View(t.world, nas)) || Unreadable(c.net, View(t.world, nas)))
  {
    hide ServiceInv, SupplyOk, Follows, AllPassable, Clean, Unreadable, AtWork;
    EndMeans(c, t);
    forall nas | nas in some && nas in t.begun
      ensures nas in t.world.sites && (Clean(View(t.world, nas)) || Unreadable(c.net, View(t.world, nas)))
    {
      assert OnTrack(c.net, View(t.world, nas));
      IdleView(t.world, nas);
    }
  }

  lemma IdleView(w: World, nas: D.NasIp)
    requires nas in w.sites && !AtWork(w, nas)
    ensures View(w, nas).worker.Idle?
  {
  }

  lemma TickMeans(c: Config, s: System)
    requires CanAct(c, s, Tick)
    ensures s.phase.Resting? && Next(c, s, Tick).phase.ReadingDirs?
  {
  }

  lemma TickGoesWell(c: Config, s: System, supply: Supply)
    requires ServiceInv(c, s) && s.phase.Resting? && !s.cancelled
    requires SupplyOk(s.world, supply) && s.world.sites != map[] && AllPassable(s.world)
    ensures CanAct(c, s, Tick) && GoesWell(c, Next(c, s, Tick), supply, ReadySites(s.world))
  {
    hide ServiceInv, SupplyOk, AllPassable, Ready, OnTrack, View;
    ServiceKept(c, s, Tick);
  }

  ghost function ReadySites(w: World): set<D.NasIp> {
    set nas | nas in w.sites && Ready(View(w, nas))
  }

  lemma InReadySites(w: World)
    ensures forall nas | nas in w.sites && Ready(View(w, nas)) :: nas in ReadySites(w)
  {
    hide Ready, View;
  }
}
