/**
 Recovery: from any reachable state a fault-free run ends, and ends clean; a replay
 writes nothing; and what exactly blocks a nas for good.
 */
module BillingRecovery {
  import opened Text
  import opened Address
  import opened FlowLine
  import opened Traffic
  import opened Accumulator
  import opened Billing
  import opened BillingSafety

  predicate Fault(ev: Event) {
    ev.Abort? || ev.CommitFailed? || ev.ClearFailed?
  }

  /** tmp is there and empty, and so is the checkpoint. */
  ghost predicate Clean(s: State) {
    s.tmp == map[] && s.checkpoint == {} && s.tmpExists
  }

  ghost predicate NoFlowIn(net: Net, content: string) {
    forall i | 0 <= i < |Lines(content)| :: !See(net, Lines(content)[i]).Flow?
  }

  /** tmp holds new files and not one line of them can be classified. */
  ghost predicate Unreadable(net: Net, s: State) {
    && (exists n :: n in s.tmp && n !in s.checkpoint)
    && (forall n | n in s.tmp && n !in s.checkpoint :: NoFlowIn(net, s.tmp[n].content))
  }

  /** The nas directory is not empty, and tmp exists or will be made for some flow file. */
  ghost predicate Ready(s: State) {
    s.spool != map[] && (s.tmpExists || exists n :: n in s.spool && IsFlowName(n))
  }

  ghost predicate OnTrack(net: Net, s: State) {
    match s.worker
    case Idle => Clean(s) || Unreadable(net, s)
    case Busy(_, _, pc) =>
      match pc
      case LoadCheckpoint => Ready(s)
      case ListSpool => Ready(s)
      case Move(todo) => s.tmpExists || todo != []
      case _ => true
  }

  // ---- an unrecognised batch

  lemma {:induction false} AllLinesInclude(files: seq<File>, i: nat, line: string)
    requires i < |files| && line in Lines(files[i].content)
    ensures line in AllLines(files)
  {
    hide Lines;
    var k := |files| - 1;
    if i < k {
      assert files[..k][i] == files[i];
      AllLinesInclude(files[..k], i, line);
    }
  }

  lemma UnrecognisedFile(net: Net, files: seq<File>, i: nat)
    requires i < |files| && !AnyFlow(SeeAll(net, AllLines(files)))
    ensures NoFlowIn(net, files[i].content)
  {
    hide Lines, See, AllLines;
    forall j | 0 <= j < |Lines(files[i].content)|
      ensures !See(net, Lines(files[i].content)[j]).Flow?
    {
      AllLinesInclude(files, i, Lines(files[i].content)[j]);
      var k :| 0 <= k < |AllLines(files)| && AllLines(files)[k] == Lines(files[i].content)[j];
      assert !SeeAll(net, AllLines(files))[k].Flow?;
    }
  }

  lemma {:induction false} NewFilesHave(folder: Folder, names: seq<Name>, committed: set<Name>, n: Name)
    returns (i: nat)
    requires n in names && n in folder && n !in committed
    ensures i < |NewFiles(folder, names, committed)| && NewFiles(folder, names, committed)[i] == folder[n]
  {
    var k := |names| - 1;
    if n == names[k] {
      i := |NewFiles(folder, names[..k], committed)|;
    } else {
      assert n in names[..k] by { assert names == names[..k] + [names[k]]; }
      i := NewFilesHave(folder, names[..k], committed, n);
    }
  }

  lemma UnrecognisedBatch(net: Net, folder: Folder, names: seq<Name>, committed: set<Name>)
    requires Listing(names, folder)
    requires !AnyFlow(SeeAll(net, AllLines(NewFiles(folder, names, committed))))
    ensures forall n | n in folder && n !in committed :: NoFlowIn(net, folder[n].content)
  {
    forall n | n in folder && n !in committed
      ensures NoFlowIn(net, folder[n].content)
    {
      assert n in SetOf(names);
      var i := NewFilesHave(folder, names, committed, n);
      UnrecognisedFile(net, NewFiles(folder, names, committed), i);
    }
  }

  lemma UnrecognisedMeans(net: Net, job: Sift.Job, lines: seq<string>)
    ensures Judge(net, job, lines).Unrecognised? <==> !AnyFlow(SeeAll(net, lines))
  {
    var seen := SeeAll(net, lines);
    assert AnyTouch(seen) ==> AnyFlow(seen);
  }

  lemma {:induction false} AllLinesFrom(files: seq<File>, line: string) returns (i: nat)
    requires line in AllLines(files)
    ensures i < |files| && line in Lines(files[i].content)
  {
    hide Lines;
    var k := |files| - 1;
    if line in Lines(files[k].content) {
      i := k;
    } else {
      i := AllLinesFrom(files[..k], line);
      assert files[..k][i] == files[i];
    }
  }

  /** A batch is kept for the next cycle iff not one line of any of its files can be classified. So a file
      nobody can read is swept with the others as soon as one of them has one good line. */
  lemma BatchKept(net: Net, job: Sift.Job, files: seq<File>)
    ensures Judge(net, job, AllLines(files)).Unrecognised? <==>
            forall i | 0 <= i < |files| :: NoFlowIn(net, files[i].content)
  {
    hide Judge, Lines, AllLines, See;
    var lines := AllLines(files);
    UnrecognisedMeans(net, job, lines);
    if AnyFlow(SeeAll(net, lines)) {
      var k :| 0 <= k < |lines| && SeeAll(net, lines)[k].Flow?;
      var i := AllLinesFrom(files, lines[k]);
      var j :| 0 <= j < |Lines(files[i].content)| && Lines(files[i].content)[j] == lines[k];
      assert !NoFlowIn(net, files[i].content);
    } else {
      forall i | 0 <= i < |files|
        ensures NoFlowIn(net, files[i].content)
      {
        UnrecognisedFile(net, files, i);
      }
    }
  }

  // ---- every fault-free run ends clean or unreadable

  lemma DecideOnTrack(net: Net, s: State)
    requires Inv(net, s) && CanTake(s, Decided)
    ensures OnTrack(net, Decide(net, s))
  {
    hide Judge, Inv, NoFlowIn, AllLines, Unreadable;
    var Busy(job, committed, Read(names, todo, files)) := s.worker;
    if !(SetOf(names) <= committed) && Judge(net, job, AllLines(files)).Unrecognised? {
      LeftUnreadable(net, s);
    }
  }

  lemma LeftUnreadable(net: Net, s: State)
    requires Inv(net, s) && CanTake(s, Decided)
    requires !(SetOf(s.worker.pc.names) <= s.worker.committed)
    requires Judge(net, s.worker.job, AllLines(s.worker.pc.files)).Unrecognised?
    ensures Unreadable(net, Stop(s))
  {
    hide Judge, NamesOk, IdsOk, BilledOk, LedgerOk, FatesOk, NoFlowIn, AnyFlow, AllLines, NewFiles;
    var Busy(job, committed, Read(names, todo, files)) := s.worker;
    assert names + todo == names;
    UnrecognisedMeans(net, job, AllLines(files));
    UnrecognisedBatch(net, s.tmp, names, committed);
    var n :| n in SetOf(names) && n !in committed;
    assert n in s.tmp && n !in s.checkpoint;
  }

  lemma ListOnTrack(net: Net, s: State, names: seq<Name>)
    requires Inv(net, s) && CanTake(s, Listed(names)) && OnTrack(net, s)
    ensures OnTrack(net, Apply(net, s, Listed(names)))
  {
    hide Decide, IdsOk, BilledOk, LedgerOk, FatesOk, IsFlowName;
    FlowNamesListing(names, s.spool);
    if !s.tmpExists {
      var n :| n in s.spool && IsFlowName(n);
      assert n in SetOf(FlowNames(names));
    }
  }

  lemma StepOnTrack(net: Net, s: State, ev: Event)
    requires Inv(net, s) && CanTake(s, ev) && OnTrack(net, s)
    requires !Fault(ev) && !ev.Begin?
    ensures OnTrack(net, Apply(net, s, ev))
  {
    hide Inv, Decide, IsFlowName, NoFlowIn, Unreadable, Scannable, FlowNames, FateOf, Listing;
    match ev
    case Decided => DecideOnTrack(net, s);
    case Listed(names) => ListOnTrack(net, s, names);
    case Arrive(name, file) => ArriveOnTrack(net, s, name, file);
    case Cleared => NothingToClear(net, s);
    case _ =>
  }

  lemma ArriveOnTrack(net: Net, s: State, name: Name, file: File)
    requires CanTake(s, Arrive(name, file)) && OnTrack(net, s)
    ensures OnTrack(net, Apply(net, s, Arrive(name, file)))
  {
    hide Decide, IsFlowName, NoFlowIn;
    var spool := s.spool[name := file];
    assert name in spool;
    assert forall n | n in s.spool :: n in spool;
  }

  /** From any state of any history: once a run has begun in a ready directory, whatever fault-free
      events and arrivals follow, when it is over tmp and the checkpoint are empty, unless nothing
      new in tmp can be classified. */
  lemma {:induction false} RunEndsClean(net: Net, s: State, job: Sift.Job, evs: seq<Event>)
    requires Inv(net, s) && s.worker.Idle? && Ready(s) && CanTake(s, Begin(job))
    requires forall i | 0 <= i < |evs| :: !Fault(evs[i]) && !evs[i].Begin?
    ensures var t := After(net, Apply(net, s, Begin(job)), evs);
            Inv(net, t) && OnTrack(net, t) && (t.worker.Idle? ==> Clean(t) || Unreadable(net, t))
  {
    hide Decide, IsFlowName, NoFlowIn, IdsOk, BilledOk, LedgerOk, FatesOk;
    StepKeeps(net, s, Begin(job));
    var s1 := Apply(net, s, Begin(job));
    assert OnTrack(net, s1);
    TrackKept(net, s1, evs);
  }

  lemma {:induction false} TrackKept(net: Net, s: State, evs: seq<Event>)
    requires Inv(net, s) && OnTrack(net, s)
    requires forall i | 0 <= i < |evs| :: !Fault(evs[i]) && !evs[i].Begin?
    ensures Inv(net, After(net, s, evs)) && OnTrack(net, After(net, s, evs))
  {
    hide Inv, Apply, CanTake, OnTrack;
    if evs == [] {
    } else {
      var k := |evs| - 1;
      assert forall i | 0 <= i < k :: evs[..k][i] == evs[i];
      TrackKept(net, s, evs[..k]);
      var t := After(net, s, evs[..k]);
      if CanTake(t, evs[k]) {
        StepKeeps(net, t, evs[k]);
        StepOnTrack(net, t, evs[k]);
      }
    }
  }

  // ---- a fault-free run can always be finished

  /** The line scanner gets through every file that is still to be read. */
  ghost predicate Scans(s: State) {
    && (forall n | n in s.tmp && n !in s.checkpoint :: Scannable(s.tmp[n].content))
    && (forall n | n in s.spool && IsFlowName(n) :: Scannable(s.spool[n].content))
  }

  /** Nothing in the folders stands in the way of a run: no overlong line, and no file in the place of tmp. */
  ghost predicate Passable(s: State) {
    Scans(s) && TMP_NAME !in s.spool
  }

  /** How many kinds of action are still ahead. */
  function Rank(w: Worker): nat {
    match w
    case Idle => 0
    case Busy(_, _, pc) =>
      match pc
      case LoadCheckpoint => 9
      case ListSpool => 8
      case Move(_) => 7
      case Rename(_) => 7
      case Read(_, _, _) => 6
      case Save(_, _, _) => 5
      case Unlink(_) => 4
      case Remake => 3
      case WriteKeep => 2
      case ClearCheckpoint => 1
  }

  /** How many actions of the present kind are still ahead. */
  function Left(s: State): nat {
    match s.worker
    case Idle => 0
    case Busy(_, _, pc) =>
      match pc
      case Move(todo) => 2 * |todo|
      case Rename(todo) => if todo == [] then 0 else 2 * |todo| - 1
      case Read(_, todo, _) => |todo|
      case Unlink(_) => |s.tmp|
      case _ => 0
  }

  ghost predicate Closer(t: State, s: State) {
    Rank(t.worker) < Rank(s.worker) || (Rank(t.worker) == Rank(s.worker) && Left(t) < Left(s))
  }

  /** Every action of a run, failed or not, brings it closer to its end. */
  lemma StepCloser(net: Net, s: State, ev: Event)
    requires CanTake(s, ev) && !ev.Arrive? && !ev.Begin?
    ensures Closer(Apply(net, s, ev), s)
  {
    hide Decide, IsFlowName, FlowNames, FateOf, Scannable;
    if ev.Unlinked? {
      UnlinkCloser(s.tmp, ev.name);
    } else if ev.Decided? {
      DecideCloser(net, s);
    }
  }

  lemma UnlinkCloser(tmp: Folder, name: Name)
    requires name in tmp
    ensures |tmp - {name}| == |tmp| - 1
  {
    assert (tmp - {name}).Keys == tmp.Keys - {name};
    assert |tmp - {name}| == |tmp.Keys| - 1;
  }

  lemma DecideCloser(net: Net, s: State)
    requires s.worker.Busy? && s.worker.pc.Read?
    ensures Rank(Decide(net, s).worker) < Rank(s.worker)
  {
    hide Decide;
    DecideCases(net, s);
  }

  lemma {:induction false} ListFolder(keys: set<Name>) returns (names: seq<Name>)
    ensures NoDup(names) && SetOf(names) == keys
  {
    if n :| n in keys {
      var rest := ListFolder(keys - {n});
      names := rest + [n];
      assert forall i | 0 <= i < |rest| :: rest[i] in SetOf(rest);
      assert SetOf(names) == SetOf(rest) + {n};
    } else {
      names := [];
      assert keys == {};
    }
  }

  /** Some fault-free action is possible at every point of a run. */
  lemma NextAction(net: Net, s: State) returns (ev: Event)
    requires Inv(net, s) && s.worker.Busy? && Passable(s)
    ensures CanTake(s, ev) && !Fault(ev) && !ev.Arrive? && !ev.Begin?
  {
    hide IdsOk, BilledOk, LedgerOk, FatesOk, Judge, IsFlowName, Scannable, Listing, SaveOk, SweepOk, ReadOk;
    var pc := s.worker.pc;
    if pc.Read? {
      ev := NextRead(s);
    } else if pc.Unlink? {
      ev := if n :| n in s.tmp then Unlinked(n) else TmpRemoved;
    } else if pc.ListSpool? || pc.Move? {
      ev := NextListing(s);
    } else {
      ev := match pc
        case LoadCheckpoint => Loaded
        case Rename(_) => Renamed
        case Save(_, _, _) => Committed
        case Remake => TmpMade
        case WriteKeep => KeepWritten
        case _ => Cleared;
    }
  }

  lemma NextListing(s: State) returns (ev: Event)
    requires s.worker.Busy? && (s.worker.pc.ListSpool? || s.worker.pc.Move?)
    ensures CanTake(s, ev) && !Fault(ev) && !ev.Arrive? && !ev.Begin?
  {
    hide Scannable;
    var names := ListFolder(if s.worker.pc.ListSpool? then s.spool.Keys else s.tmp.Keys);
    ev := if s.worker.pc.ListSpool? then Listed(names)
          else if s.worker.pc.todo != [] then TmpEnsured
          else if s.tmpExists then TmpListed(names) else TmpMissing;
  }

  lemma NextRead(s: State) returns (ev: Event)
    requires s.worker.Busy? && s.worker.pc.Read? && Scans(s) && s.worker.committed == s.checkpoint
    requires ReadOk(s.tmp, s.worker.committed, s.worker.pc.names, s.worker.pc.todo, s.worker.pc.files)
    ensures CanTake(s, ev) && !Fault(ev) && !ev.Arrive? && !ev.Begin?
  {
    hide Scannable, IsFlowName, ReadOk, Listing;
    var todo := s.worker.pc.todo;
    if todo == [] {
      ev := Decided;
    } else {
      ReadHead(s.tmp, s.worker.committed, s.worker.pc);
      ev := if todo[0] in s.worker.committed then Skipped else FileRead;
    }
  }

  lemma ReadHead(tmp: Folder, committed: set<Name>, pc: Pc)
    requires pc.Read? && pc.todo != [] && ReadOk(tmp, committed, pc.names, pc.todo, pc.files)
    ensures pc.todo[0] in tmp
  {
    hide NewFiles;
    ReadOn(tmp, pc.names, pc.todo, committed);
  }

  /** Most actions leave the folders and the checkpoint alone. */
  lemma FoldersAlone(net: Net, s: State, ev: Event)
    requires CanTake(s, ev)
    requires !ev.Arrive? && !ev.Renamed? && !ev.Unlinked? && !ev.Committed? && !ev.CommitFailed? &&
             !ev.Cleared? && !ev.ClearFailed?
    ensures Apply(net, s, ev).spool == s.spool && Apply(net, s, ev).tmp == s.tmp
    ensures Apply(net, s, ev).checkpoint == s.checkpoint
  {
    hide Decide, Scannable;
    if ev.Decided? {
      DecideAlone(net, s);
    }
  }

  lemma PassableKept(net: Net, s: State, ev: Event)
    requires Inv(net, s) && CanTake(s, ev) && Passable(s) && !Fault(ev) && !ev.Arrive? && !ev.Begin?
    ensures Passable(Apply(net, s, ev))
  {
    hide IdsOk, BilledOk, LedgerOk, FatesOk, ContentOk, Decide, IsFlowName, Scannable, Listing, FlowNames, NewFiles;
    if ev.Renamed? {
      assert IsFlowName(s.worker.pc.todo[0]);
    } else if !ev.Unlinked? && !ev.Committed? && !ev.Cleared? {
      FoldersAlone(net, s, ev);
    }
  }

  /** A run gives up only where something is in its way, and in a passable directory nothing is, as long as no
      file arrives. */
  lemma {:induction false} NothingInTheWay(net: Net, s: State, evs: seq<Event>)
    requires Inv(net, s) && Passable(s) && Legal(net, s, evs)
    requires forall i | 0 <= i < |evs| :: !Fault(evs[i]) && !evs[i].Arrive? && !evs[i].Begin?
    ensures var t := After(net, s, evs);
      Inv(net, t) && Passable(t) && !CanTake(t, Abort(Obstructed))
  {
    hide Inv, Passable, Apply, CanTake;
    if evs == [] {
      FreeToGo(net, s);
    } else {
      var k := |evs| - 1;
      assert forall i | 0 <= i < k :: evs[..k][i] == evs[i];
      NothingInTheWay(net, s, evs[..k]);
      var t := After(net, s, evs[..k]);
      StepKeeps(net, t, evs[k]);
      PassableKept(net, t, evs[k]);
      FreeToGo(net, Apply(net, t, evs[k]));
    }
  }

  /** Where something is in its way a run can only fail. */
  lemma ObstacleBlocks(s: State, ev: Event)
    requires s.worker.Busy? && InTheWay(s, s.worker.committed, s.worker.pc) && CanTake(s, ev) && !ev.Arrive?
    ensures Fault(ev)
  {
    hide Scannable;
  }

  lemma FreeToGo(net: Net, s: State)
    requires Inv(net, s) && Passable(s)
    ensures !CanTake(s, Abort(Obstructed))
  {
    hide IdsOk, BilledOk, LedgerOk, FatesOk, ContentOk, Scannable, IsFlowName, NamesOk, ReadOk;
  }

  /** From any reachable state a fault-free run ends, and tmp and the checkpoint are then
      empty, unless nothing new in tmp can be classified. */
  lemma Recovery(net: Net, s: State, job: Sift.Job) returns (evs: seq<Event>)
    requires Inv(net, s) && s.worker.Idle? && Ready(s) && CanTake(s, Begin(job)) && Passable(s)
    ensures forall i | 0 <= i < |evs| :: !Fault(evs[i]) && !evs[i].Begin? && !evs[i].Arrive?
    ensures Legal(net, Apply(net, s, Begin(job)), evs)
    ensures var t := After(net, Apply(net, s, Begin(job)), evs);
            t.worker.Idle? && (Clean(t) || Unreadable(net, t))
  {
    hide Inv, Apply, CanTake, Passable, Unreadable, Ready, Closer;
    var s1 := Begun(net, s, job);
    var t := s1;
    evs := [];
    while t.worker.Busy?
      invariant t == After(net, s1, evs) && Legal(net, s1, evs)
      invariant Inv(net, t) && Passable(t)
      invariant forall i | 0 <= i < |evs| :: !Fault(evs[i]) && !evs[i].Begin? && !evs[i].Arrive?
      decreases Rank(t.worker), Left(t)
    {
      var ev := NextAction(net, t);
      StepKeeps(net, t, ev);
      PassableKept(net, t, ev);
      CloserMeans(net, t, ev);
      AfterSnoc(net, s1, evs, ev);
      evs := evs + [ev];
      t := Apply(net, t, ev);
    }
    RunEndsClean(net, s, job, evs);
  }

  lemma Begun(net: Net, s: State, job: Sift.Job) returns (s1: State)
    requires Inv(net, s) && CanTake(s, Begin(job)) && Passable(s)
    ensures s1 == Apply(net, s, Begin(job)) && Inv(net, s1) && Passable(s1)
  {
    hide Inv, Scannable, IsFlowName;
    s1 := Apply(net, s, Begin(job));
    StepKeeps(net, s, Begin(job));
  }

  lemma CloserMeans(net: Net, s: State, ev: Event)
    requires CanTake(s, ev) && !ev.Arrive? && !ev.Begin?
    ensures var t := Apply(net, s, ev);
            Rank(t.worker) < Rank(s.worker) || (Rank(t.worker) == Rank(s.worker) && Left(t) < Left(s))
  {
    hide Apply, CanTake, Rank, Left;
    StepCloser(net, s, ev);
  }

  // ---- replays write nothing

  /** Everything in tmp is already committed and no flow file waits outside. */
  ghost predicate Replaying(s: State) {
    && s.tmp.Keys <= s.checkpoint
    && (forall n | n in s.spool :: !IsFlowName(n))
    && (s.worker.Busy? ==>
          !s.worker.pc.Save? && !s.worker.pc.Rename? && (s.worker.pc.Move? ==> s.worker.pc.todo == []))
  }

  /** Through any failures, panics, crashes and restarts, until the next flow file arrives, nothing is billed. */
  lemma {:induction false} ReplayBillsNothing(net: Net, s: State, evs: seq<Event>)
    requires Inv(net, s) && Replaying(s)
    requires forall i | 0 <= i < |evs| :: !(evs[i].Arrive? && IsFlowName(evs[i].name))
    ensures After(net, s, evs).ledger == s.ledger
    ensures Inv(net, After(net, s, evs)) && Replaying(After(net, s, evs))
  {
    hide Inv, Apply, CanTake, Replaying, IsFlowName;
    if evs == [] {
    } else {
      var k := |evs| - 1;
      assert forall i | 0 <= i < k :: evs[..k][i] == evs[i];
      ReplayBillsNothing(net, s, evs[..k]);
      var t := After(net, s, evs[..k]);
      if CanTake(t, evs[k]) {
        StepKeeps(net, t, evs[k]);
        ReplayStep(net, t, evs[k]);
      }
    }
  }

  lemma ReplayStep(net: Net, s: State, ev: Event)
    requires Inv(net, s) && Replaying(s) && CanTake(s, ev)
    requires !(ev.Arrive? && IsFlowName(ev.name))
    ensures Apply(net, s, ev).ledger == s.ledger && Replaying(Apply(net, s, ev))
  {
    hide Inv, Decide, IsFlowName, Scannable, FlowNames, SetOf, NoDup, FateOf;
    match ev
    case Listed(names) => NoFlowListed(names, s.spool);
    case Decided => ReplayDecide(net, s);
    case Arrive(name, file) => ReplayArrival(s, name, file);
    case Cleared => NothingToClear(net, s);
    case ClearFailed(_) => NothingToClear(net, s);
    case _ =>
  }

  lemma NothingToClear(net: Net, s: State)
    requires Inv(net, s) && s.worker.Busy? && s.worker.pc.ClearCheckpoint?
    ensures s.tmp == map[] && s.tmpExists
  {
    hide NamesOk, IdsOk, BilledOk, LedgerOk, FatesOk;
  }

  lemma ReplayArrival(s: State, name: Name, file: File)
    requires Replaying(s) && !IsFlowName(name)
    ensures forall n | n in s.spool[name := file] :: !IsFlowName(n)
  {
    hide IsFlowName;
  }

  lemma NoFlowListed(names: seq<Name>, spool: Folder)
    requires Listing(names, spool) && forall n | n in spool :: !IsFlowName(n)
    ensures FlowNames(names) == []
  {
    hide IsFlowName;
    FlowNamesListing(names, spool);
    assert SetOf(FlowNames(names)) == {};
    NoNames(FlowNames(names));
  }

  lemma NoNames(xs: seq<Name>)
    ensures SetOf(xs) == {} <==> xs == []
  {
    if xs != [] {
      assert xs[0] in SetOf(xs);
    }
  }

  lemma ReplayDecide(net: Net, s: State)
    requires Inv(net, s) && Replaying(s) && CanTake(s, Decided)
    ensures Decide(net, s) == Goto(s, Unlink(NothingNew))
  {
    hide IdsOk, BilledOk, LedgerOk, FatesOk, Judge, IsFlowName, Scannable;
    assert s.worker.pc.names + s.worker.pc.todo == s.worker.pc.names;
  }

  // ---- an empty directory

  /** The nas directory is empty and no run has got past listing it. */
  ghost predicate NothingWaits(s: State) {
    s.spool == map[] && (s.worker.Busy? ==> s.worker.pc.LoadCheckpoint? || s.worker.pc.ListSpool?)
  }

  /** Until a file arrives, runs put even the cleaning of tmp off: nothing is moved, billed or deleted. */
  lemma {:induction false} EmptyDirDefers(net: Net, s: State, evs: seq<Event>)
    requires NothingWaits(s)
    requires forall i | 0 <= i < |evs| :: !evs[i].Arrive?
    ensures var t := After(net, s, evs);
            NothingWaits(t) && t.tmp == s.tmp && t.tmpExists == s.tmpExists && t.checkpoint == s.checkpoint &&
            t.ledger == s.ledger && t.fate == s.fate
  {
    hide Apply, CanTake, NothingWaits;
    if evs == [] {
    } else {
      var k := |evs| - 1;
      assert forall i | 0 <= i < k :: evs[..k][i] == evs[i];
      EmptyDirDefers(net, s, evs[..k]);
      var t := After(net, s, evs[..k]);
      if CanTake(t, evs[k]) {
        EmptyDirStep(net, t, evs[k]);
      }
    }
  }

  lemma EmptyDirStep(net: Net, s: State, ev: Event)
    requires NothingWaits(s) && CanTake(s, ev) && !ev.Arrive?
    ensures var t := Apply(net, s, ev);
            NothingWaits(t) && t.tmp == s.tmp && t.tmpExists == s.tmpExists && t.checkpoint == s.checkpoint &&
            t.ledger == s.ledger && t.fate == s.fate
  {
    hide Decide, IsFlowName, FlowNames, Scannable, FateOf;
    if ev.Listed? {
      assert SetOf(ev.names) == {};
      NoNames(ev.names);
    }
  }

  // ---- what blocks a nas

  /** No run has got past a file of tmp. */
  predicate TmpAhead(w: Worker, n: Name) {
    match w
    case Idle => true
    case Busy(_, _, pc) =>
      pc.LoadCheckpoint? || pc.ListSpool? || pc.Move? || pc.Rename? || (pc.Read? && n !in pc.names)
  }

  /** No run has listed the nas directory without a file of it. */
  predicate SpoolAhead(w: Worker, n: Name) {
    match w
    case Idle => true
    case Busy(_, _, pc) =>
      pc.LoadCheckpoint? || pc.ListSpool? || ((pc.Move? || pc.Rename?) && n in pc.todo)
  }

  /** A file that is still to be billed has a line the scanner cannot hold, and no run has got past it. */
  ghost predicate Blocked(s: State, n: Name) {
    || (n in s.tmp && n !in s.checkpoint && !Scannable(s.tmp[n].content) && TmpAhead(s.worker, n))
    || (n in s.spool && IsFlowName(n) && !Scannable(s.spool[n].content) && SpoolAhead(s.worker, n))
  }

  /** Between runs, some file blocks the nas unless the scanner gets through all that are to be billed. */
  lemma BlockedAtRest(s: State)
    requires s.worker.Idle?
    ensures Scans(s) <==> !exists n :: Blocked(s, n)
  {
    hide Scannable, IsFlowName;
    if n :| Blocked(s, n) {
      assert !Scans(s);
    }
    if !Scans(s) {
      if n :| n in s.tmp && n !in s.checkpoint && !Scannable(s.tmp[n].content) {
        assert Blocked(s, n);
      } else {
        var m :| m in s.spool && IsFlowName(m) && !Scannable(s.spool[m].content);
        assert Blocked(s, m);
      }
    }
  }

  /** From then on, in every run, this nas bills nothing and deletes nothing, whether the file still waits in
      the nas directory or is in tmp already: it is neither skipped nor read to its end, so no run reaches its
      verdict. */
  lemma {:induction false} OverlongLineBlocks(net: Net, s: State, n: Name, evs: seq<Event>)
    requires Inv(net, s) && Blocked(s, n)
    ensures var t := After(net, s, evs);
            Inv(net, t) && Blocked(t, n) && t.ledger == s.ledger && t.fate == s.fate && t.checkpoint == s.checkpoint
  {
    hide Inv, Apply, CanTake, Blocked;
    if evs == [] {
    } else {
      var k := |evs| - 1;
      OverlongLineBlocks(net, s, n, evs[..k]);
      var t := After(net, s, evs[..k]);
      if CanTake(t, evs[k]) {
        StepKeeps(net, t, evs[k]);
        BlockedStep(net, t, n, evs[k]);
      }
    }
  }

  lemma BlockedStep(net: Net, s: State, n: Name, ev: Event)
    requires Inv(net, s) && Blocked(s, n) && CanTake(s, ev)
    ensures var t := Apply(net, s, ev);
            Blocked(t, n) && t.ledger == s.ledger && t.fate == s.fate && t.checkpoint == s.checkpoint
  {
    hide Inv, Apply, CanTake, IsFlowName, Scannable;
    NotOutside(net, s, n);
    if n in s.tmp {
      BlockedInTmp(net, s, n, ev);
    } else {
      BlockedOutside(net, s, n, ev);
    }
  }

  lemma BlockedInTmp(net: Net, s: State, n: Name, ev: Event)
    requires Inv(net, s) && CanTake(s, ev)
    requires n in s.tmp && n !in s.checkpoint && !Scannable(s.tmp[n].content) && TmpAhead(s.worker, n)
    ensures var t := Apply(net, s, ev);
            Blocked(t, n) && t.ledger == s.ledger && t.fate == s.fate && t.checkpoint == s.checkpoint
  {
    hide Inv, Decide, IsFlowName, Scannable, FlowNames, Listing, SetOf, FateOf, SpoolAhead;
    if s.worker.Busy? && s.worker.pc.Read? {
      StillToRead(net, s, n);
    }
    if ev.Renamed? {
      NotOutside(net, s, s.worker.pc.todo[0]);
    }
  }

  lemma BlockedOutside(net: Net, s: State, n: Name, ev: Event)
    requires Blocked(s, n) && n !in s.tmp && n !in s.checkpoint && CanTake(s, ev)
    ensures var t := Apply(net, s, ev);
            Blocked(t, n) && t.ledger == s.ledger && t.fate == s.fate && t.checkpoint == s.checkpoint
  {
    hide Decide, IsFlowName, Scannable, FlowNames, NoDup, SetOf, FateOf;
    if ev.Listed? {
      ListedNames(ev.names, s.spool, n);
    }
  }

  lemma ListedNames(names: seq<Name>, spool: Folder, n: Name)
    requires Listing(names, spool)
    ensures n in spool && IsFlowName(n) ==> names != [] && n in FlowNames(names)
  {
    hide IsFlowName;
    FlowNamesMeaning(names, n);
    assert n in SetOf(names) <==> n in names;
  }

  /** A name is not in both folders, and what is in the nas directory is not covered. */
  lemma NotOutside(net: Net, s: State, n: Name)
    requires Inv(net, s)
    ensures n in s.tmp ==> n !in s.spool
    ensures n in s.spool ==> n !in s.checkpoint
  {
    hide IdsOk, BilledOk, LedgerOk, FatesOk, WorkerOk, IsFlowName, ContentOk;
  }

  lemma StillToRead(net: Net, s: State, n: Name)
    requires Inv(net, s) && s.worker.Busy? && s.worker.pc.Read? && n in s.tmp && n !in s.checkpoint
    ensures s.worker.committed == s.checkpoint
    ensures n in s.worker.pc.names || n in s.worker.pc.todo
  {
    hide NamesOk, IdsOk, BilledOk, LedgerOk, FatesOk, NewFiles, NoDup, ContentOk;
    var Read(names, todo, files) := s.worker.pc;
    assert n in SetOf(names + todo);
  }

  /** While a file blocks the run, no fault-free step ends it. */
  lemma BlockedGoesOn(net: Net, s: State, n: Name, ev: Event)
    requires Inv(net, s) && OnTrack(net, s) && Blocked(s, n) && s.worker.Busy?
    requires CanTake(s, ev) && !Fault(ev) && !ev.Begin?
    ensures Apply(net, s, ev).worker.Busy?
  {
    hide Inv, Decide, IsFlowName, Scannable, FlowNames, FateOf;
    if s.worker.pc.Read? && n in s.tmp {
      StillToRead(net, s, n);
    }
    if ev.Listed? {
      ListedAny(ev.names, s.spool);
    }
  }

  lemma ListedAny(names: seq<Name>, spool: Folder)
    requires Listing(names, spool) && spool != map[]
    ensures names != []
  {
    var n :| n in spool;
    assert n in SetOf(names);
  }

  lemma {:induction false} BlockedNeverEnds(net: Net, s: State, n: Name, evs: seq<Event>)
    requires Inv(net, s) && OnTrack(net, s) && Blocked(s, n) && s.worker.Busy?
    requires Legal(net, s, evs) && forall i | 0 <= i < |evs| :: !Fault(evs[i]) && !evs[i].Begin?
    ensures var t := After(net, s, evs); Inv(net, t) && OnTrack(net, t) && Blocked(t, n) && t.worker.Busy?
  {
    hide Inv, OnTrack, Blocked, Apply, CanTake;
    if evs == [] {
    } else {
      var k := |evs| - 1;
      assert forall i | 0 <= i < k :: evs[..k][i] == evs[i];
      BlockedNeverEnds(net, s, n, evs[..k]);
      var t := After(net, s, evs[..k]);
      StepKeeps(net, t, evs[k]);
      StepOnTrack(net, t, evs[k]);
      BlockedStep(net, t, n, evs[k]);
      BlockedGoesOn(net, t, n, evs[k]);
    }
  }

  // ---- a file in the place of tmp

  /** While a regular file of the nas directory is called tmp, whatever fails, arrives or restarts, this nas bills
      nothing, deletes nothing and clears nothing, and the file stays: no run gets anything into tmp or out of it. */
  lemma {:induction false} TmpNameBlocks(net: Net, s: State, evs: seq<Event>)
    requires Inv(net, s) && TMP_NAME in s.spool
    ensures var t := After(net, s, evs);
            && Inv(net, t) && TMP_NAME in t.spool
            && t.ledger == s.ledger && t.fate == s.fate && t.checkpoint == s.checkpoint
  {
    hide Inv, Apply, CanTake;
    if evs == [] {
    } else {
      var k := |evs| - 1;
      TmpNameBlocks(net, s, evs[..k]);
      var t := After(net, s, evs[..k]);
      if CanTake(t, evs[k]) {
        StepKeeps(net, t, evs[k]);
        TmpNameStep(net, t, evs[k]);
      }
    }
  }

  lemma TmpNameStep(net: Net, s: State, ev: Event)
    requires Inv(net, s) && TMP_NAME in s.spool && CanTake(s, ev)
    ensures var t := Apply(net, s, ev);
            TMP_NAME in t.spool && t.ledger == s.ledger && t.fate == s.fate && t.checkpoint == s.checkpoint
  {
    hide Inv, Decide, IsFlowName, FlowNames, Scannable, Listing, FateOf;
    TmpNameMeans(net, s);
  }

  /** There is no tmp then, so no run can be where it needs it. */
  lemma TmpNameMeans(net: Net, s: State)
    requires Inv(net, s) && TMP_NAME in s.spool
    ensures !s.tmpExists && s.tmp == map[]
    ensures s.worker.Busy? ==>
              var pc := s.worker.pc;
              pc.LoadCheckpoint? || pc.ListSpool? || pc.Move? || pc.Rename? || pc.Remake?
  {
    hide IdsOk, BilledOk, LedgerOk, FatesOk, ContentOk, IsFlowName;
  }

  /** An initial state with such a file: the directory is ready and its files can be scanned, yet no run can go well. */
  lemma TmpNameExample(net: Net, job: Sift.Job)
    requires job.sessions != []
    ensures var s := TmpNameState();
            Init(s) && Ready(s) && Scans(s) && "tmp" in s.spool && !exists evs :: GoesWell(net, s, job, evs)
  {
    var s := TmpNameState();
    assert "ft-" <= "ft-1"[0..];
    assert IsFlowName("ft-1");
    TmpNameInit(s);
    InitInv(net, s);
    assert "ft-1" in s.spool;
    assert Scannable("") by {
      assert RawLines("") == [];
    }
    RecoveryExactly(net, s, job);
  }

  function TmpNameState(): State {
    State(map["ft-1" := File(0, ""), TMP_NAME := File(1, "")], map[], false, {}, Idle, map[0 := "", 1 := ""], [], map[])
  }

  lemma TmpNameInit(s: State)
    requires s == TmpNameState()
    ensures Init(s)
  {
    assert "ft-1" in s.spool && TMP_NAME in s.spool;
    assert s.spool["ft-1"].id == 0 && s.spool[TMP_NAME].id == 1;
    assert Held(s.spool, 0) && Held(s.spool, 1);
  }

  // ---- no place to move to, nothing to move

  /** tmp is missing, and nothing will make it: its name is taken, or no flow file waits. */
  ghost predicate Stranded(s: State) {
    && !s.tmpExists
    && (TMP_NAME in s.spool || forall n | n in s.spool :: !IsFlowName(n))
    && match s.worker
       case Idle => true
       case Busy(_, _, pc) =>
         || pc.LoadCheckpoint? || pc.ListSpool?
         || (pc.Move? && (TMP_NAME in s.spool || pc.todo == []))
         || (pc.Rename? && TMP_NAME in s.spool)
  }

  lemma {:induction false} StrandedStays(net: Net, s: State, evs: seq<Event>)
    requires Inv(net, s) && Stranded(s)
    requires forall i | 0 <= i < |evs| :: !evs[i].Arrive?
    ensures Inv(net, After(net, s, evs)) && Stranded(After(net, s, evs))
  {
    hide Inv, Apply, CanTake, Stranded;
    if evs == [] {
    } else {
      var k := |evs| - 1;
      assert forall i | 0 <= i < k :: evs[..k][i] == evs[i];
      StrandedStays(net, s, evs[..k]);
      var t := After(net, s, evs[..k]);
      if CanTake(t, evs[k]) {
        StepKeeps(net, t, evs[k]);
        StrandedStep(net, t, evs[k]);
      }
    }
  }

  lemma StrandedStep(net: Net, s: State, ev: Event)
    requires Stranded(s) && CanTake(s, ev) && !ev.Arrive?
    ensures Stranded(Apply(net, s, ev))
  {
    hide Decide, IsFlowName, FlowNames, Scannable, Listing, FateOf;
    if ev.Listed? && TMP_NAME !in s.spool {
      NoFlowListed(ev.names, s.spool);
    }
  }

  lemma StrandedIsNotClean(net: Net, s: State)
    requires Inv(net, s) && Stranded(s)
    ensures !Clean(s) && !Unreadable(net, s)
  {
    hide IdsOk, BilledOk, LedgerOk, FatesOk, ContentOk, IsFlowName, NoFlowIn, WorkerOk;
  }

  // ---- exactly when a run can go well

  /** A run that has begun goes through these events, none of them a fault, and ends clean, but for new
      files that cannot be classified. */
  ghost predicate GoesWell(net: Net, s: State, job: Sift.Job, evs: seq<Event>)
    requires CanTake(s, Begin(job))
  {
    var begun := Apply(net, s, Begin(job));
    var t := After(net, begun, evs);
    && (forall i | 0 <= i < |evs| :: !Fault(evs[i]) && !evs[i].Begin? && !evs[i].Arrive?)
    && Legal(net, begun, evs) && t.worker.Idle? && (Clean(t) || Unreadable(net, t))
  }

  /** With an empty directory everything is as it should be already; else tmp is there or will be made for some
      flow file, no file has its name, and the scanner gets through every file that is to be billed. */
  ghost predicate MayGoWell(net: Net, s: State) {
    if s.spool == map[] then Clean(s) || Unreadable(net, s) else Ready(s) && Passable(s)
  }

  /** From any state between runs: a run can go well iff these conditions hold, which a caller could look up. */
  lemma RecoveryExactly(net: Net, s: State, job: Sift.Job)
    requires Inv(net, s) && s.worker.Idle? && CanTake(s, Begin(job))
    ensures MayGoWell(net, s) <==> exists evs :: GoesWell(net, s, job, evs)
  {
    hide Inv, MayGoWell, GoesWell, CanTake;
    if MayGoWell(net, s) {
      var evs := GoWell(net, s, job);
    }
    if evs :| GoesWell(net, s, job, evs) {
      WentWell(net, s, job, evs);
    }
  }

  lemma GoWell(net: Net, s: State, job: Sift.Job) returns (evs: seq<Event>)
    requires Inv(net, s) && s.worker.Idle? && CanTake(s, Begin(job)) && MayGoWell(net, s)
    ensures GoesWell(net, s, job, evs)
  {
    hide Inv, Passable, Clean, Unreadable, Legal, After, Apply, CanTake;
    if s.spool == map[] {
      evs := LookAndLeave(net, s, job);
    } else {
      evs := Recovery(net, s, job);
    }
  }

  /** The run over an empty directory: it reads the checkpoint, finds no file and ends. */
  lemma LookAndLeave(net: Net, s: State, job: Sift.Job) returns (evs: seq<Event>)
    requires s.worker.Idle? && CanTake(s, Begin(job)) && s.spool == map[] && (Clean(s) || Unreadable(net, s))
    ensures GoesWell(net, s, job, evs)
  {
    hide Decide, Unreadable, IsFlowName, Scannable;
    var begun := Apply(net, s, Begin(job));
    assert Listing([], s.spool) by {
      assert SetOf([]) == {};
    }
    assert After(net, begun, []) == begun && Legal(net, begun, []);
    AfterSnoc(net, begun, [], Loaded);
    AfterSnoc(net, begun, [] + [Loaded], Listed([]));
    evs := [] + [Loaded] + [Listed([])];
    SameEnd(net, s, After(net, begun, evs));
  }

  lemma SameEnd(net: Net, s: State, t: State)
    requires s.tmp == t.tmp && s.tmpExists == t.tmpExists && s.checkpoint == t.checkpoint
    ensures Clean(s) == Clean(t) && Unreadable(net, s) == Unreadable(net, t)
  {
  }

  lemma WentWell(net: Net, s: State, job: Sift.Job, evs: seq<Event>)
    requires Inv(net, s) && s.worker.Idle? && CanTake(s, Begin(job)) && GoesWell(net, s, job, evs)
    ensures MayGoWell(net, s)
  {
    hide Inv, Scans, Clean, Unreadable, Legal, After, Stranded, Blocked, OnTrack, NothingWaits;
    var begun := Apply(net, s, Begin(job));
    StepKeeps(net, s, Begin(job));
    if s.spool == map[] {
      LookedAt(s, begun);
      EmptyDirDefers(net, begun, evs);
      SameEnd(net, s, After(net, begun, evs));
    } else if IsStranded(s) {
      StrandedBegins(net, s, job);
      StrandedStays(net, begun, evs);
      StrandedIsNotClean(net, After(net, begun, evs));
    } else {
      NotStranded(net, s);
      if !Scans(s) {
        BlockedAtRest(s);
        var n :| Blocked(s, n);
        BlockedBegins(net, s, job, n);
        BlockedNeverEnds(net, begun, n, evs);
      }
    }
  }

  ghost predicate IsStranded(s: State) {
    !s.tmpExists && (TMP_NAME in s.spool || forall n | n in s.spool :: !IsFlowName(n))
  }

  lemma LookedAt(s: State, begun: State)
    requires s.spool == map[] && begun.spool == s.spool && begun.worker.Busy? && begun.worker.pc.LoadCheckpoint?
    ensures NothingWaits(begun)
  {
  }

  lemma StrandedBegins(net: Net, s: State, job: Sift.Job)
    requires IsStranded(s) && CanTake(s, Begin(job))
    ensures Stranded(Apply(net, s, Begin(job)))
  {
    hide IsFlowName;
  }

  lemma NotStranded(net: Net, s: State)
    requires Inv(net, s) && s.spool != map[] && !IsStranded(s)
    ensures Ready(s) && TMP_NAME !in s.spool
  {
    hide IdsOk, BilledOk, LedgerOk, FatesOk, ContentOk, WorkerOk, IsFlowName;
  }

  lemma BlockedBegins(net: Net, s: State, job: Sift.Job, n: Name)
    requires Inv(net, s) && s.worker.Idle? && Ready(s) && CanTake(s, Begin(job)) && Blocked(s, n)
    ensures var t := Apply(net, s, Begin(job)); Inv(net, t) && OnTrack(net, t) && Blocked(t, n) && t.worker.Busy?
  {
    hide Inv, Scannable, IsFlowName;
    StepKeeps(net, s, Begin(job));
  }

  // ---- an overlong line

  /** A file of one line as long as the scanner's buffer, in tmp and uncommitted. */
  function LongContent(): string { seq(MAX_TOKEN, _ => 'x') }

  function LongFileState(): State {
    State(map[], map["ft-1" := File(0, LongContent())], true, {}, Idle, map[0 := LongContent()], [], map[])
  }

  /** Such a state is an initial state, and it is blocked. */
  lemma LongFileBlocks()
    ensures Init(LongFileState()) && Blocked(LongFileState(), "ft-1") && !Scans(LongFileState())
  {
    var content := LongContent();
    assert '\n' !in content;
    SplitSingle(content, '\n');
    assert RawLines(content) == [content];
    assert !Scannable(content) by {
      assert |RawLines(content)[0]| == MAX_TOKEN;
    }
    LongFileInit(content);
    assert "ft-1" in LongFileState().tmp;
  }

  lemma LongFileInit(content: string)
    ensures Init(State(map[], map["ft-1" := File(0, content)], true, {}, Idle, map[0 := content], [], map[]))
  {
    var tmp: Folder := map["ft-1" := File(0, content)];
    assert "ft-" <= "ft-1"[0..];
    assert IsFlowName("ft-1");
    assert Held(tmp, 0) by {
      assert "ft-1" in tmp;
    }
  }
}
