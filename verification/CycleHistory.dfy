/** The main results about whole runs of the service, through any number of cycles, crashes and restarts. */
module CycleHistory {
  import opened Text
  import opened Address
  import opened FlowLine
  import opened Traffic
  import Sums
  import opened Sift
  import opened Billing
  import opened BillingSafety
  import opened BillingHistory
  import opened World
  import opened Loaders
  import opened Cycle
  import opened CycleSafety
  import D = Database

  // ---- the pool

  function RunningTasks(tasks: Tasks): set<D.NasIp> {
    set nas | nas in tasks && tasks[nas].pc.Running?
  }

  /** Transactions of tasks that have not been rolled back or committed and let go. */
  function TaskTxs(tasks: Tasks): set<D.NasIp> {
    set nas | nas in tasks && !tasks[nas].tx.NoTx?
  }

  function LoaderTx<T>(loader: Loader<T>): nat {
    if loader.pc.Loading? || loader.pc.Closing? then 1 else 0
  }

  function OpenTxs(s: System): nat {
    |TaskTxs(s.tasks)| + LoaderTx(s.channelLoader) + LoaderTx(s.sessionLoader)
  }

  lemma FewerOf(a: set<D.NasIp>, b: set<D.NasIp>)
    requires a <= b
    ensures |a| <= |b|
  {
    assert b == a + (b - a);
  }

  /** The tasks that have been spawned and have not given their slot back. */
  function SlotTasks(tasks: Tasks): set<D.NasIp> {
    set nas | nas in tasks && !tasks[nas].pc.Signing? && !tasks[nas].pc.Ended?
  }

  /** Inside pool.Go a task gets a slot exactly when fewer than poolSize tasks (one, if that is below one) hold
      one, so the pool is used to its full size and never beyond. */
  lemma PoolIsFull(c: Config, s: System, run: seq<Action>)
    requires ServiceInit(c, s)
    requires AfterRun(c, s, run).phase.Dispatching? && AfterRun(c, s, run).phase.at.Select?
    ensures var t := AfterRun(c, s, run);
      CanAct(c, t, Acquired) <==> |SlotTasks(t.tasks)| < if c.poolSize < 1 then 1 else c.poolSize
  {
    hide AfterRun, AllInv, OwnJobs, TasksOk, NoStray, BegunOk, IsPrefix;
    ServiceInitInv(c, s);
    ServiceRunKeeps(c, s, run);
    assert SlotTasks(AfterRun(c, s, run).tasks) == Holders(AfterRun(c, s, run).tasks);
  }

  /** In every reachable state at most max(poolSize, 1) tasks run; giving back a slot never blocks
      and Done is never called once too often; outside dispatch and Wait every task of the cycle has
      ended and no slot is held. */
  lemma PoolSafety(c: Config, s: System, run: seq<Action>)
    requires ServiceInit(c, s)
    ensures var t := AfterRun(c, s, run);
      && |RunningTasks(t.tasks)| <= t.sem <= (if c.poolSize < 1 then 1 else c.poolSize)
      && (forall nas | AtPc(t.tasks, nas, Releasing) :: t.sem > 0)
      && (forall nas | AtPc(t.tasks, nas, Signing) :: t.wg > 0)
      && (!IsPooling(t.phase) ==> t.sem == 0 && t.wg == 0 && forall nas | nas in t.tasks :: t.tasks[nas].pc.Ended?)
  {
    hide AfterRun, AllInv, OwnJobs, TasksOk, NoStray, DispatchOk, BegunOk;
    ServiceInitInv(c, s);
    ServiceRunKeeps(c, s, run);
    PoolMeans(c, AfterRun(c, s, run));
  }

  lemma PoolMeans(c: Config, t: System)
    requires ServiceInv(c, t)
    ensures |RunningTasks(t.tasks)| <= |Holders(t.tasks)| <= t.sem <= Slots(c)
    ensures forall nas | AtPc(t.tasks, nas, Releasing) :: t.sem > 0
    ensures forall nas | AtPc(t.tasks, nas, Signing) :: t.wg > 0
    ensures !IsPooling(t.phase) ==> t.sem == 0 && t.wg == 0 && forall nas | nas in t.tasks :: t.tasks[nas].pc.Ended?
  {
    hide AllInv, OwnJobs, TasksOk, NoStray, DispatchOk, BegunOk;
    FewerOf(RunningTasks(t.tasks), Holders(t.tasks));
    forall nas | AtPc(t.tasks, nas, Releasing)
      ensures t.sem > 0
    {
      assert nas in Holders(t.tasks);
    }
    forall nas | AtPc(t.tasks, nas, Signing)
      ensures t.wg > 0
    {
      assert nas in Unfinished(t.tasks);
    }
    if !IsPooling(t.phase) {
      AllEnded(t.tasks);
    }
  }

  lemma AllEnded(tasks: Tasks)
    requires Unfinished(tasks) == {}
    ensures Holders(tasks) == {}
    ensures forall nas | nas in tasks :: tasks[nas].pc.Ended?
  {
    assert forall nas | nas in tasks :: nas !in Unfinished(tasks) ==> tasks[nas].pc.Ended?;
  }

  /** Wait returns only when every task has ended; then no slot is held and no transaction open. */
  lemma WaitMeans(c: Config, t: System)
    requires ServiceInv(c, t) && CanAct(c, t, WaitOver)
    ensures forall nas | nas in t.tasks :: t.tasks[nas] == Task(Ended, NoTx)
    ensures t.sem == 0 && OpenTxs(t) == 0
    ensures SetOf(t.begun) == SetOf(t.dispatched)
  {
    hide AllInv, OwnJobs, NoStray, DispatchOk;
    AllEnded(t.tasks);
    forall nas | nas in t.tasks
      ensures t.tasks[nas] == Task(Ended, NoTx)
    {
      assert TaskOk(t.world, nas, t.tasks[nas]);
    }
    assert TaskTxs(t.tasks) == {};
    assert SetOf(t.begun) == t.tasks.Keys;
  }

  // ---- transactions

  /** At most max(2, poolSize) transactions are open at a time, none between cycles. */
  lemma TxBound(c: Config, s: System, run: seq<Action>)
    requires ServiceInit(c, s)
    ensures var t := AfterRun(c, s, run);
      && OpenTxs(t) <= (if c.poolSize < 2 then 2 else c.poolSize)
      && (t.phase.Resting? || t.phase.Stopped? ==> OpenTxs(t) == 0)
  {
    hide AfterRun, AllInv, OwnJobs, NoStray, DispatchOk, BegunOk, PoolOk, TasksOk;
    ServiceInitInv(c, s);
    ServiceRunKeeps(c, s, run);
    var t := AfterRun(c, s, run);
    PoolMeans(c, t);
    TxsHold(t.world, t.tasks);
    FewerOf(TaskTxs(t.tasks), Holders(t.tasks));
    if !IsPooling(t.phase) {
      AllEnded(t.tasks);
    }
  }

  /** The checkpoint is read, the rows are saved and the checkpoint is cleared in a transaction of the task that is
      open at that moment, one for each of the three. */
  lemma TxNeeded(c: Config, t: System, nas: D.NasIp, ev: Event)
    requires CanAct(c, t, TaskStep(nas, ev))
    requires ev.Loaded? || ev.Committed? || ev.CommitFailed? || ev.Cleared? || ev.ClearFailed?
    ensures t.tasks[nas].tx.InTx? && !Next(c, t, TaskStep(nas, ev)).tasks[nas].tx.InTx?
  {
    hide Step, Apply, Worked;
  }

  /** A task with a transaction has a slot. */
  lemma TxsHold(w: World, tasks: Tasks)
    requires TasksOk(w, tasks)
    ensures TaskTxs(tasks) <= Holders(tasks)
  {
    forall nas | nas in TaskTxs(tasks)
      ensures nas in Holders(tasks)
    {
      assert TaskOk(w, nas, tasks[nas]);
    }
  }

  // ---- one run of a nas at a time

  /** When a task starts its run, in whatever cycle, no other run of that nas is under way. */
  lemma NoOverlap(c: Config, s: System, run: seq<Action>, nas: D.NasIp)
    requires ServiceInit(c, s) && CanAct(c, AfterRun(c, s, run), TaskStarted(nas))
    ensures var t := AfterRun(c, s, run);
      && nas in t.world.sites && !AtWork(t.world, nas) && Known(t, nas)
      && |Emits(t, TaskStarted(nas))| == 1 && CanStep(t.world, Emits(t, TaskStarted(nas))[0])
  {
    hide AfterRun;
    ServiceInitInv(c, s);
    ServiceRunKeeps(c, s, run);
    StartMeans(c, AfterRun(c, s, run), nas);
  }

  lemma StartMeans(c: Config, t: System, nas: D.NasIp)
    requires ServiceInv(c, t) && CanAct(c, t, TaskStarted(nas))
    ensures nas in t.world.sites && !AtWork(t.world, nas) && Known(t, nas)
    ensures |Emits(t, TaskStarted(nas))| == 1 && CanStep(t.world, Emits(t, TaskStarted(nas))[0])
  {
    hide AllInv, OwnJobs, PoolOk, KnownOf, NoDup;
    assert nas in t.tasks && TaskOk(t.world, nas, t.tasks[nas]);
    assert nas in Unfinished(t.tasks);
    assert nas in SetOf(t.dispatched);
    DispatchedKnown(t, nas);
  }

  lemma DispatchedKnown(t: System, nas: D.NasIp)
    requires DispatchOk(t.phase, t.dirs, KnownTo(t.sessionLoader), t.dispatched, t.cancelled)
    requires IsPooling(t.phase) && nas in t.dispatched
    ensures Known(t, nas)
  {
    hide KnownOf, NoDup;
    var known := KnownTo(t.sessionLoader);
    var k: nat :| k <= |t.dirs| && t.dispatched == KnownOf(t.dirs[..k], known);
    KnownOfHas(t.dirs[..k], known, nas);
  }

  // ---- who is dispatched

  /** What has been dispatched once dispatch is over: the nas with sessions among the first k
      directories, all of them unless the context was cancelled; each has begun exactly one run
      by the time the cycle is over. */
  lemma DispatchedPrefix(c: Config, s: System, run: seq<Action>)
    requires ServiceInit(c, s) && AfterRun(c, s, run).phase.Waiting?
    ensures var t := AfterRun(c, s, run);
      && NoDup(t.dirs) && IsPrefix(t.dirs, KnownTo(t.sessionLoader), t.dispatched, t.cancelled)
      && NoDup(t.begun) && SetOf(t.begun) <= SetOf(t.dispatched)
      && (t.wg == 0 ==> SetOf(t.begun) == SetOf(t.dispatched))
  {
    hide AfterRun, AllInv, OwnJobs, NoStray, PoolOk, TasksOk, IsPrefix, NoDup, PhaseOk;
    ServiceInitInv(c, s);
    ServiceRunKeeps(c, s, run);
    var t := AfterRun(c, s, run);
    if t.wg == 0 {
      WaitMeans(c, t);
    }
  }

  /** Cancelled, and no nas past the check of the context. */
  ghost predicate Quiet(s: System) {
    s.cancelled && (s.phase.Dispatching? ==> s.phase.at.CheckCtx?)
  }

  /** From then on, in this cycle and in any later one of this process, nothing is spawned. */
  lemma {:induction false} CancelledSpawnsNothing(c: Config, s: System, run: seq<Action>)
    requires Quiet(s) && LegalRun(c, s, run)
    requires forall i | 0 <= i < |run| :: !run[i].Restarted?
    ensures Quiet(AfterRun(c, s, run))
    ensures forall i | 0 <= i < |run| :: !run[i].Spawned?
  {
    hide CanAct, Next, Quiet;
    if run == [] {
    } else {
      var k := |run| - 1;
      assert forall i | 0 <= i < k :: run[..k][i] == run[i];
      CancelledSpawnsNothing(c, s, run[..k]);
      QuietKept(c, AfterRun(c, s, run[..k]), run[k]);
    }
  }

  lemma QuietKept(c: Config, s: System, a: Action)
    requires Quiet(s) && CanAct(c, s, a) && !a.Restarted?
    ensures Quiet(Next(c, s, a)) && !a.Spawned?
  {
    hide Worked, CanStep, RunCan, TasksAfter, Emits;
  }

  // ---- the service does nothing but run the protocol

  lemma EmitsLegal(c: Config, s: System, a: Action)
    requires ServiceInv(c, s) && CanAct(c, s, a)
    ensures |Emits(s, a)| <= 1
    ensures Emits(s, a) != [] ==> CanStep(s.world, Emits(s, a)[0])
  {
    hide ServiceInv, CanStep, AtWork, Known;
    match a
    case TaskStarted(nas) => StartMeans(c, s, nas);
    case TaskPanicked(nas) =>
      if AtWork(s.world, nas) {
        CanAbort(s.world, nas, Panic);
      }
    case Killed(nas) => CanAbort(s.world, nas, Crash);
    case _ =>
  }

  /** The directories and tables after a run of the service are those its log leads to. */
  lemma {:induction false} ServiceLog(c: Config, s: System, run: seq<Action>)
    requires ServiceInv(c, s) && LegalRun(c, s, run)
    ensures LegalLog(c.net, s.world, Log(c, s, run))
    ensures AfterRun(c, s, run).world == AfterLog(c.net, s.world, Log(c, s, run))
  {
    hide ServiceInv, CanAct, Emits, Step, CanStep;
    if run == [] {
    } else {
      var before, a := run[..|run| - 1], run[|run| - 1];
      ServiceLog(c, s, before);
      ServiceRunKeeps(c, s, before);
      var t := AfterRun(c, s, before);
      var acts := Emits(t, a);
      EmitsLegal(c, t, a);
      if acts == [] {
        assert Log(c, s, before) + acts == Log(c, s, before);
      } else {
        assert acts == [acts[0]];
        AfterLogSnoc(c.net, s.world, Log(c, s, before), acts[0]);
      }
    }
  }

  /** Whatever the service did, in however many cycles and with whatever interleaving of its tasks,
      its directories, checkpoints and chunk rows are those of the same runs and arrivals taken one
      nas after another, in any order of the nas. */
  lemma ServiceSerializable(c: Config, s: System, run: seq<Action>, order: seq<D.NasIp>)
    requires ServiceInit(c, s) && Stripped(s.world) && LegalRun(c, s, run)
    requires NoDup(order) && SetOf(order) == s.world.sites.Keys
    ensures LegalLog(c.net, s.world, Serial(Log(c, s, run), order))
    ensures AfterRun(c, s, run).world == AfterLog(c.net, s.world, Serial(Log(c, s, run), order))
  {
    hide ServiceInit, ServiceInv, LegalRun, AfterRun, Log, LegalLog, AfterLog, Serial, Stripped, NoDup;
    ServiceInitInv(c, s);
    ServiceLog(c, s, run);
    LogNas(c.net, s.world, Log(c, s, run));
    assert forall nas :: nas in SetOf(order) <==> nas in order;
    Serializable(c.net, s.world, Log(c, s, run), order);
  }

  lemma {:induction false} LogNas(net: Net, w: World, log: seq<Act>)
    requires LegalLog(net, w, log)
    ensures forall a | a in log :: a.nas in w.sites
  {
    hide Step, CanTake;
    if log == [] {
    } else {
      var k := |log| - 1;
      LogNas(net, w, log[..k]);
      SiteKeys(net, w, log[..k]);
      assert log == log[..k] + [log[k]];
    }
  }

  // ---- what the service bills

  /** In every reachable state every nas has billed each of its files at most once and as it arrived,
      in a transaction that inserted exactly the rows owed; none of its files is lost; and all rows
      it inserted belong to its own sessions. */
  lemma ServiceBillsRight(c: Config, s: System, run: seq<Action>, nas: D.NasIp)
    requires ServiceInit(c, s) && nas in s.world.sites
    ensures var t := AfterRun(c, s, run).world;
      && nas in t.sites && BilledOnce(t.sites[nas].ledger) && BilledRight(c.net, t.sites[nas].ledger)
      && LedgerGenuine(t.sites[nas].arrived, t.sites[nas].ledger)
      && (forall id | id in t.sites[nas].arrived :: InOnePlace(c.net, View(t, nas), id))
      && (forall b | b in t.sites[nas].ledger :: OwnJob(nas, b.job))
  {
    hide ServiceInit, AfterRun, Inv, BilledOnce, BilledRight, InOnePlace, LedgerGenuine, OwnJob;
    ServiceInitInv(c, s);
    ServiceRunKeeps(c, s, run);
    RunSites(c, s, run);
    var t := AfterRun(c, s, run).world;
    ViewBillsRight(c.net, t, nas);
  }

  lemma ViewBillsRight(net: Net, w: World, nas: D.NasIp)
    requires nas in w.sites && AllInv(net, w)
    ensures BilledOnce(w.sites[nas].ledger) && BilledRight(net, w.sites[nas].ledger)
    ensures LedgerGenuine(w.sites[nas].arrived, w.sites[nas].ledger)
    ensures forall id | id in w.sites[nas].arrived :: InOnePlace(net, View(w, nas), id)
  {
    hide BilledOnce, BilledRight, InOnePlace, LedgerOk, LedgerGenuine, Inv;
    var v := View(w, nas);
    assert Inv(net, v);
    LedgerParts(net, v);
    LedgerMeaning(net, v.ledger);
    forall id | id in v.arrived
      ensures InOnePlace(net, v, id)
    {
      OnePlace(net, v, id);
    }
  }

  lemma {:induction false} RunSites(c: Config, s: System, run: seq<Action>)
    ensures AfterRun(c, s, run).world.sites.Keys == s.world.sites.Keys
  {
    hide CanAct, Emits, Worked;
    if run == [] {
    } else {
      var before, a := run[..|run| - 1], run[|run| - 1];
      RunSites(c, s, before);
      WorkedSites(c, AfterRun(c, s, before), a, "");
    }
  }

  /** The chunk table holds what it held at the start and what the ledgers of all nas hold, no more. */
  lemma ServiceRows(c: Config, s: System, run: seq<Action>, row: Chunk)
    requires ServiceInit(c, s) && LegalRun(c, s, run)
    ensures var t := AfterRun(c, s, run).world; t.chunk[row] == s.world.chunk[row] + Ledgers(t, row)
  {
    hide LegalRun, AfterRun, Log, LegalLog, AfterLog, BilledRows, ServiceInv;
    ServiceInitInv(c, s);
    ServiceLog(c, s, run);
    AfterLogRows(c.net, s.world, Log(c, s, run), row);
    NoLedgers(c, s, row);
  }

  lemma NoLedgers(c: Config, s: System, row: Chunk)
    requires ServiceInit(c, s)
    ensures Ledgers(s.world, row) == 0
  {
    hide Init, Sums.Sum;
    forall nas | nas in s.world.sites
      ensures LedgerCount(s.world, row)(nas) == 0
    {
      InitIdle(View(s.world, nas));
    }
    Sums.SumZero(s.world.sites.Keys, LedgerCount(s.world, row));
  }
}
