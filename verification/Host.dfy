/**
 One nas as a run finds it: its directory, its tmp directory and the database,
 with every I/O action a run performs. Each action may fail, files may arrive and
 other nas may commit before it, and each is recorded as an event of the protocol.
 */
module Host {
  import opened Text
  import opened Address
  import opened FlowLine
  import opened Accumulator
  import opened Sift
  import opened Billing
  import opened BillingSafety
  import opened BillingHistory
  import opened BillingRecovery
  import opened Database

  datatype DirEntry = DirEntry(name: Name, isDir: bool)

  const GIT_KEEP := ".gitkeep"

  /** The names of the entries that are not directories, in order. */
  function FileNames(entries: seq<DirEntry>): seq<Name> {
    if entries == [] then []
    else
      var e := entries[|entries| - 1];
      FileNames(entries[..|entries| - 1]) + if e.isDir then [] else [e.name]
  }

  lemma {:induction false} FileNamesMeaning(entries: seq<DirEntry>, n: Name)
    ensures n in FileNames(entries) <==> DirEntry(n, false) in entries
  {
    if entries == [] {
    } else {
      var k := |entries| - 1;
      FileNamesMeaning(entries[..k], n);
      assert entries == entries[..k] + [entries[k]];
    }
  }

  lemma FileNamesSnoc(entries: seq<DirEntry>, e: DirEntry)
    ensures FileNames(entries + [e]) == FileNames(entries) + if e.isDir then [] else [e.name]
  {
    var all := entries + [e];
    assert all[..|all| - 1] == entries;
  }

  /** Lists a set of entries in some order. */
  method ListEntries(all: set<DirEntry>) returns (entries: seq<DirEntry>)
    ensures NoDup(FileNames(entries))
    ensures SetOf(FileNames(entries)) == set e | e in all && !e.isDir :: e.name
  {
    entries := [];
    var todo := all;
    while todo != {}
      invariant todo <= all
      invariant NoDup(FileNames(entries))
      invariant forall e | e in all :: e in entries <==> e !in todo
      invariant forall e | e in entries :: e in all
    {
      var e :| e in todo;
      FileNamesMeaning(entries, e.name);
      FileNamesSnoc(entries, e);
      assert e.isDir || DirEntry(e.name, false) == e;
      entries := entries + [e];
      todo := todo - {e};
    }
    forall n
      ensures n in FileNames(entries) <==> n in set e | e in all && !e.isDir :: e.name
    {
      FileNamesMeaning(entries, n);
      assert DirEntry(n, false) in all <==> n in set e | e in all && !e.isDir :: e.name;
    }
  }

  method ListFiles(names: set<Name>, dirs: set<Name>) returns (entries: seq<DirEntry>)
    ensures NoDup(FileNames(entries)) && SetOf(FileNames(entries)) == names
  {
    entries := ListEntries((set n | n in names :: DirEntry(n, false)) + (set n | n in dirs :: DirEntry(n, true)));
    var all := (set n | n in names :: DirEntry(n, false)) + (set n | n in dirs :: DirEntry(n, true));
    forall n
      ensures n in names <==> n in set e | e in all && !e.isDir :: e.name
    {
      assert n in names ==> DirEntry(n, false) in all;
    }
  }

  lemma GitKeepIsNoFlow()
    ensures !IsFlowName(GIT_KEEP)
  {
    ContainsHead(GIT_KEEP, "ft-");
  }

  /** A failure that the directories do not explain. */
  predicate IoFault(ev: Event) {
    (ev.Abort? && !ev.cause.Obstructed?) || ev.CommitFailed? || ev.ClearFailed?
  }

  ghost predicate IoFaultSince(trace: seq<Event>, k: nat) {
    exists i | k <= i < |trace| :: IoFault(trace[i])
  }

  /** A run among those events gave up because something was in its way. */
  ghost predicate ObstacleSince(trace: seq<Event>, k: nat) {
    exists i | k <= i < |trace| :: trace[i] == Abort(Obstructed)
  }

  lemma IoFaultSnoc(trace: seq<Event>, ev: Event, k: nat)
    requires k <= |trace|
    ensures IoFaultSince(trace + [ev], k) <==> IoFaultSince(trace, k) || IoFault(ev)
  {
    hide IoFault;
    var all := trace + [ev];
    assert forall i | 0 <= i < |trace| :: all[i] == trace[i];
    assert all[|trace|] == ev;
  }

  /** A fault among the events from position k on. */
  ghost predicate FaultSince(trace: seq<Event>, k: nat) {
    exists i | k <= i < |trace| :: Fault(trace[i])
  }

  class NasHost {
    const net: Net
    const nasIp: string
    const db: Tables
    ghost const rowsBefore: multiset<Chunk>
    var files: Folder
    var subdirs: set<Name>
    var tmp: Folder
    var tmpExists: bool
    var keep: bool
    var usedIds: set<nat>
    ghost var start: State
    ghost var trace: seq<Event>
    ghost var s: State
    ghost var begunAt: nat
    ghost var ready: bool
    var ioFaults: nat
    ghost var faultsAt: nat
    ghost var othersBatch: set<BatchRow>
    ghost var othersChunk: ChunkTable

    /** What is on disk and in the tables is what the protocol state says. */
    ghost predicate Coupled()
      reads this`files, this`tmp, this`tmpExists, this`usedIds, this`s, db`chunk, db`flowBatch
    {
      && files == s.spool && tmp == s.tmp && tmpExists == s.tmpExists && usedIds == s.arrived.Keys
      && TablesHold(s.checkpoint, s.ledger)
    }

    ghost predicate TablesHold(checkpoint: set<Name>, ledger: seq<Batch>)
      reads db`chunk, db`flowBatch
    {
      && NamesOf(db.flowBatch, nasIp) == checkpoint
      && RowsOf(db.chunk, nasIp) == rowsBefore + BilledRows(ledger)
    }

    /** Everything that happened so far is a legal run of the protocol, and s is where it led. */
    ghost predicate Recorded()
      reads this`start, this`trace, this`s, this`begunAt, this`ready
    {
      && Legal(net, start, trace) && s == After(net, start, trace) && Inv(net, s)
      && begunAt <= |trace|
      && (ready && !FaultSince(trace, begunAt) ==> OnTrack(net, s))
    }

    /** What the tables hold of other nas is what those have left there; see OtherNas. */
    ghost predicate OthersKept()
      reads this`othersBatch, this`othersChunk, db`chunk, db`flowBatch
    {
      && WithoutNas(db.flowBatch, nasIp) == othersBatch
      && forall nas: string | nas != nasIp :: RowsOf(db.chunk, nas) == RowsOf(othersChunk, nas)
    }

    /** How often the outside world has made an action or a statement fail. */
    function Faults(): nat
      reads this`ioFaults, db`faults
    {
      ioFaults + db.faults
    }

    /** The present run has recorded a failure the directories do not explain only if there was one. */
    ghost predicate Blameless()
      reads this`trace, this`begunAt, this`faultsAt, this`ioFaults, db`faults
    {
      && begunAt <= |trace| && faultsAt <= Faults()
      && (IoFaultSince(trace, begunAt) ==> faultsAt < Faults())
    }

    ghost predicate Valid()
      reads this, db
    {
      Recorded() && Coupled() && OthersKept() && Blameless()
    }

    ghost function Pc(): Billing.Pc
      reads this`s
      requires s.worker.Busy?
    {
      s.worker.pc
    }

    /** The record only grows, and the present run goes on. */
    twostate predicate Continues()
      reads this
    {
      old(trace) <= trace && start == old(start) && begunAt == old(begunAt) && ready == old(ready) &&
      faultsAt == old(faultsAt)
    }

    /** Before the first run: files in either folder, none of them covered by the checkpoint. */
    constructor (net: Net, nasIp: string, db: Tables, files: Folder, tmp: Folder, tmpExists: bool,
                 arrived: map<nat, string>)
      requires Init(State(files, tmp, tmpExists, NamesOf(db.flowBatch, nasIp), Idle, arrived, [], map[]))
      ensures Valid() && s.worker.Idle? && trace == [] && Init(start)
      ensures this.net == net && this.nasIp == nasIp && this.db == db
      ensures othersBatch == WithoutNas(db.flowBatch, nasIp) && othersChunk == db.chunk
    {
      this.net, this.nasIp, this.db := net, nasIp, db;
      this.files, this.tmp, this.tmpExists, usedIds := files, tmp, tmpExists, arrived.Keys;
      subdirs, keep := {}, false;
      var s0 := State(files, tmp, tmpExists, NamesOf(db.flowBatch, nasIp), Idle, arrived, [], map[]);
      rowsBefore := RowsOf(db.chunk, nasIp);
      start, s, trace, begunAt, ready := s0, s0, [], 0, false;
      ioFaults, faultsAt := 0, 0;
      othersBatch, othersChunk := WithoutNas(db.flowBatch, nasIp), db.chunk;
      new;
      InitInv(net, s0);
    }

    /** Records an event. */
    ghost method Do(ev: Event)
      requires Recorded() && CanTake(s, ev) && !ev.Begin?
      requires Blameless() && (IoFault(ev) ==> faultsAt < Faults())
      modifies this`trace, this`s
      ensures Recorded() && Blameless()
      ensures s == Apply(net, old(s), ev) && trace == old(trace) + [ev]
    {
      hide Inv, OnTrack, Apply, CanTake, Fault, IoFault;
      IoFaultSnoc(trace, ev, begunAt);
      AfterSnoc(net, start, trace, ev);
      StepKeeps(net, s, ev);
      ghost var before := trace;
      if ready && !FaultSince(trace + [ev], begunAt) {
        assert forall i | 0 <= i < |before| :: (before + [ev])[i] == before[i];
        assert (before + [ev])[|before|] == ev;
        StepOnTrack(net, s, ev);
      }
      s := Apply(net, s, ev);
      trace := trace + [ev];
    }

    /** A new run begins. */
    ghost method Begin(job: Job)
      requires Valid() && s.worker.Idle? && job.sessions != []
      modifies this`trace, this`s, this`begunAt, this`ready, this`faultsAt
      ensures Valid() && s.worker == Busy(job, {}, LoadCheckpoint)
      ensures trace == old(trace) + [Event.Begin(job)] && start == old(start)
      ensures begunAt == |trace| && ready == Ready(old(s)) && faultsAt == Faults()
    {
      hide Recorded, OthersKept, Ready, BilledRows, Database.NamesOf;
      RecordBegin(job);
      faultsAt := Faults();
    }

    ghost method RecordBegin(job: Job)
      requires Recorded() && s.worker.Idle? && job.sessions != []
      modifies this`trace, this`s, this`begunAt, this`ready
      ensures Recorded() && s == old(s).(worker := Busy(job, {}, LoadCheckpoint))
      ensures trace == old(trace) + [Event.Begin(job)]
      ensures begunAt == |trace| && ready == Ready(old(s))
    {
      hide Inv, Apply, CanTake, OnTrack, Ready, FaultSince, Legal, After;
      BeginOnTrack(net, s, job);
      AfterSnoc(net, start, trace, Event.Begin(job));
      StepKeeps(net, s, Event.Begin(job));
      ready := Ready(s);
      s := Apply(net, s, Event.Begin(job));
      trace := trace + [Event.Begin(job)];
      begunAt := |trace|;
    }

    /** The rows of this nas in the table are those from before and those of the ledger, no more and no less. */
    lemma RowsAreExact()
      requires Valid()
      ensures RowsOf(db.chunk, nasIp) == rowsBefore + BilledRows(s.ledger)
    {
      hide Recorded, BilledRows, RowsOf;
    }

    lemma EndsOnTrack()
      requires Valid() && s.worker.Idle?
      ensures ready && !FaultSince(trace, begunAt) ==> Clean(s) || Unreadable(net, s)
    {
      hide Inv, Legal, After, Clean, Unreadable, FaultSince, Coupled;
    }

    lemma OthersAreKept()
      requires Valid()
      ensures OthersKept()
    {
      hide Recorded, Coupled, OthersKept;
    }

    /** Whatever this nas has done, the other nas find in both tables what they have left there. */
    lemma OthersFindTheirs(nas: string)
      requires Valid() && nas != nasIp
      ensures Database.NamesOf(db.flowBatch, nas) == Database.NamesOf(othersBatch, nas)
      ensures RowsOf(db.chunk, nas) == RowsOf(othersChunk, nas)
    {
      hide Recorded, Coupled, RowsOf, WithoutNas, Database.NamesOf;
      RowsOfOneNas(db.flowBatch, nasIp, {}, nas);
    }

    /** A run fails only if the outside world made something fail or something was in its way. */
    lemma FailsForAReason()
      requires Valid()
      ensures FaultSince(trace, begunAt) ==> faultsAt < Faults() || ObstacleSince(trace, begunAt)
    {
      hide Recorded, Coupled, OthersKept;
      if i :| begunAt <= i < |trace| && Fault(trace[i]) {
        assert IoFault(trace[i]) || trace[i] == Abort(Obstructed);
      }
    }

    /** Anything the outside world may do between two actions: files arrive in the nas
        directory, runs of other nas change their own rows and add theirs. */
    method Interfere()
      requires Valid()
      modifies this`files, this`usedIds, this`trace, this`s, this`othersBatch, this`othersChunk, db`chunk, db`flowBatch
      ensures Valid()
      ensures s.worker == old(s.worker) && s.tmp == old(s.tmp) && s.tmpExists == old(s.tmpExists)
      ensures s.checkpoint == old(s.checkpoint) && s.ledger == old(s.ledger) && s.fate == old(s.fate)
      ensures forall n | n in old(s.spool) :: n in s.spool && s.spool[n] == old(s.spool)[n]
      ensures Continues() && keep == old(keep)
      ensures FaultSince(trace, begunAt) <==> FaultSince(old(trace), begunAt)
    {
      hide OthersKept, Blameless, Inv, OnTrack, Ready, IsFlowName, BilledRows, Legal, After, Init;
      var rounds :| 0 <= rounds;
      for i := 0 to rounds
        invariant Valid()
        invariant s.worker == old(s.worker) && s.tmp == old(s.tmp) && s.tmpExists == old(s.tmpExists)
        invariant s.checkpoint == old(s.checkpoint) && s.ledger == old(s.ledger) && s.fate == old(s.fate)
        invariant forall n | n in old(s.spool) :: n in s.spool && s.spool[n] == old(s.spool)[n]
        invariant Continues() && keep == old(keep)
        invariant FaultSince(trace, begunAt) <==> FaultSince(old(trace), begunAt)
      {
        var arrival: bool := *;
        if arrival {
          OneArrival();
        } else {
          OtherNas();
        }
      }
    }

    /** A new file arrives, if the name and the file are new. */
    method OneArrival()
      requires Valid()
      modifies this`files, this`usedIds, this`trace, this`s
      ensures Valid()
      ensures s.worker == old(s.worker) && s.tmp == old(s.tmp) && s.tmpExists == old(s.tmpExists)
      ensures s.checkpoint == old(s.checkpoint) && s.ledger == old(s.ledger) && s.fate == old(s.fate)
      ensures forall n | n in old(s.spool) :: n in s.spool && s.spool[n] == old(s.spool)[n]
      ensures Continues() && keep == old(keep)
      ensures FaultSince(trace, begunAt) <==> FaultSince(old(trace), begunAt)
    {
      hide Recorded, TablesHold, OthersKept, Blameless, Decide, FaultSince;
      var name: string := *;
      var file: File := *;
      if name !in files && name !in tmp && file.id !in usedIds && (nasIp, name) !in db.flowBatch &&
         (name == TMP_NAME ==> !tmpExists) {
        ghost var before := trace;
        UncoveredName(name);
        Do(Arrive(name, file));
        files := files[name := file];
        usedIds := usedIds + {file.id};
        NoNewFault(before, Arrive(name, file), begunAt);
      }
    }

    lemma UncoveredName(name: Name)
      requires Valid() && (nasIp, name) !in db.flowBatch
      ensures name !in s.checkpoint
    {
      hide Recorded, OthersKept, Blameless;
    }

    /** Another nas changes its own rows of the checkpoint and inserts rows of its own. Nothing else
        assigns othersBatch and othersChunk. */
    method OtherNas()
      requires Valid()
      modifies this`othersBatch, this`othersChunk, db`chunk, db`flowBatch
      ensures Valid()
    {
      hide Recorded, BilledRows, RowsOf, AddRows, WithoutNas, RowsFor, Database.NamesOf;
      var nas: string := *;
      var names: set<string> := *;
      var rows: multiset<Chunk> := *;
      if nas != nasIp {
        RowsOfOneNas(db.flowBatch, nas, {}, nasIp);
        RowsOfOneNas(WithoutNas(db.flowBatch, nas), nas, names, nasIp);
        ForeignRows(db.flowBatch, nas, names, nasIp);
        forall n: string
          ensures RowsOf(AddRows(db.chunk, nas, rows), n) == RowsOf(db.chunk, n) + if n == nas then rows else multiset{}
          ensures RowsOf(AddRows(othersChunk, nas, rows), n) ==
                  RowsOf(othersChunk, n) + if n == nas then rows else multiset{}
        {
          RowsOfAdded(db.chunk, nas, rows, n);
          RowsOfAdded(othersChunk, nas, rows, n);
        }
        othersBatch := WithoutNas(othersBatch, nas) + RowsFor(nas, names);
        othersChunk := AddRows(othersChunk, nas, rows);
        db.flowBatch := WithoutNas(db.flowBatch, nas) + RowsFor(nas, names);
        db.chunk := AddRows(db.chunk, nas, rows);
      }
    }

    // ---- the actions of a run

    /** The outside world decides whether an action succeeds. */
    method Attempt() returns (ok: bool)
      requires Valid()
      modifies this`ioFaults
      ensures Valid() && ioFaults == old(ioFaults) + if ok then 0 else 1
      ensures !ok ==> faultsAt < Faults()
    {
      hide Recorded, Coupled, OthersKept, IoFaultSince;
      ok := *;
      ioFaults := ioFaults + if ok then 0 else 1;
    }

    /** Something is in the way of the next action and the run is over. */
    ghost method GiveUp()
      requires Valid() && s.worker.Busy? && InTheWay(s, s.worker.committed, Pc())
      modifies this`trace, this`s
      ensures Valid() && s.worker.Idle? && Continues()
      ensures trace == old(trace) + [Abort(Obstructed)] && s == Stop(old(s))
    {
      hide OthersKept, Blameless, Inv, OnTrack, Decide, Legal, After, BilledRows, Scannable, Blameless;
      Do(Abort(Obstructed));
    }

    /** An action fails and the run is over. */
    ghost method Fail()
      requires Valid() && s.worker.Busy? && faultsAt < Faults()
      modifies this`trace, this`s
      ensures Valid() && s.worker.Idle? && Continues()
      ensures trace == old(trace) + [Abort(IoError)] && s == Stop(old(s))
    {
      hide OthersKept, Blameless, Inv, OnTrack, Decide, Legal, After, BilledRows;
      Do(Abort(IoError));
    }

    lemma HeadInTmp()
      requires Valid() && s.worker.Busy? && Pc().Read? && Pc().todo != []
      ensures Pc().todo[0] in s.tmp
    {
      hide IdsOk, BilledOk, LedgerOk, FatesOk, NamesOk, OnTrack, Legal, After, BilledRows, ReadOk;
      ReadHead(s.tmp, s.worker.committed, s.worker.pc);
    }

    /** The file at the head of the list has been read to its end. */
    ghost method FinishFile()
      requires Valid() && s.worker.Busy? && Pc().Read? && Pc().todo != []
      requires Pc().todo[0] in s.tmp && Pc().todo[0] !in s.worker.committed && Scannable(s.tmp[Pc().todo[0]].content)
      modifies this`trace, this`s
      ensures Valid() && Continues()
      ensures s == old(s).(worker := old(s.worker).(pc := Read(old(Pc()).names + [old(Pc()).todo[0]],
                old(Pc()).todo[1..], old(Pc()).files + [s.tmp[old(Pc()).todo[0]]])))
    {
      hide OthersKept, Blameless, Inv, OnTrack, Decide, Legal, After, BilledRows, IsFlowName, Scannable;
      Do(FileRead);
    }

    /** The file at the head of the list is committed already. */
    ghost method SkipFile()
      requires Valid() && s.worker.Busy? && Pc().Read? && Pc().todo != [] && Pc().todo[0] in s.worker.committed
      modifies this`trace, this`s
      ensures Valid() && Continues()
      ensures s == old(s).(worker := old(s.worker).(pc := Read(old(Pc()).names + [old(Pc()).todo[0]],
                old(Pc()).todo[1..], old(Pc()).files)))
    {
      hide OthersKept, Blameless, Inv, OnTrack, Decide, Legal, After, BilledRows, IsFlowName, Scannable;
      Do(Skipped);
    }

    /** Everything in tmp has been gone through and the verdict is known. */
    ghost method ReachVerdict()
      requires Valid() && s.worker.Busy? && Pc().Read? && Pc().todo == []
      modifies this`trace, this`s
      ensures Valid() && Continues()
      ensures s == Decide(net, old(s))
    {
      hide OthersKept, Blameless, Inv, OnTrack, Decide, Legal, After, BilledRows, IsFlowName;
      Do(Decided);
      DecideAlone(net, old(s));
    }

    method LoadNames() returns (ok: bool, names: set<Name>)
      requires Valid() && s.worker.Busy? && Pc().LoadCheckpoint?
      modifies this`trace, this`s, db`faults
      ensures Valid() && Continues()
      ensures s.worker == if ok then Busy(old(s.worker.job), names, ListSpool) else Idle
    {
      hide Recorded, OthersKept, IoFaultSince, Inv, OnTrack, Decide, Legal, After, BilledRows;
      ghost var session;
      ok, names, session := ReadCheckpoint(db, nasIp);
      if ok {
        Do(Loaded);
      } else {
        Fail();
      }
    }

    method ReadDir() returns (ok: bool, entries: seq<DirEntry>)
      requires Valid() && s.worker.Busy? && Pc().ListSpool?
      modifies this`ioFaults, this`trace, this`s
      ensures Valid() && Continues()
      ensures s.worker == if ok && FileNames(entries) != []
                          then old(s.worker).(pc := Move(FlowNames(FileNames(entries)))) else Idle
      ensures s.spool == old(s.spool) && (ok ==> SetOf(FileNames(entries)) == s.spool.Keys)
      ensures trace == old(trace) + [if ok then Listed(FileNames(entries)) else Abort(IoError)]
      ensures ok <==> ioFaults == old(ioFaults)
    {
      hide TablesHold, Recorded, OthersKept, Blameless, Inv, OnTrack, Decide, BilledRows, IsFlowName, FlowNames,
           FileNames, NoDup, SetOf, RowsOf, Database.NamesOf;
      entries := [];
      ok := Attempt();
      if ok {
        entries := ListFiles(files.Keys, subdirs);
        Do(Listed(FileNames(entries)));
      } else {
        Fail();
      }
    }

    /** Makes tmp; that the name is there already, be it a directory or a file, is no error. */
    method MkdirTmp() returns (ok: bool)
      requires Valid() && s.worker.Busy? && Pc().Move? && Pc().todo != []
      modifies this`tmpExists, this`ioFaults, this`trace, this`s
      ensures Valid() && Continues()
      ensures s.worker == if ok then old(s.worker).(pc := Rename(old(Pc()).todo)) else Idle
    {
      hide TablesHold, Recorded, OthersKept, Blameless, Inv, OnTrack, Decide, BilledRows, IsFlowName, RowsOf,
           Database.NamesOf;
      ok := Attempt();
      if ok {
        Do(TmpEnsured);
        tmpExists := tmpExists || TMP_NAME !in files;
      } else {
        Fail();
      }
    }

    method RenameToTmp(name: Name) returns (ok: bool)
      requires Valid() && s.worker.Busy? && Pc().Rename? && Pc().todo != [] && Pc().todo[0] == name
      modifies this`files, this`tmp, this`ioFaults, this`trace, this`s
      ensures Valid() && Continues()
      ensures s.worker == if ok then old(s.worker).(pc := Move(old(Pc()).todo[1..])) else Idle
    {
      hide Recorded, TablesHold, OthersKept, Blameless;
      ok := Attempt();
      if !ok {
        Fail();
      } else if !tmpExists {
        GiveUp();
        ok := false;
      } else {
        MoveHead(name);
      }
    }

    method MoveHead(name: Name)
      requires Valid() && s.worker.Busy? && Pc().Rename? && Pc().todo != [] && Pc().todo[0] == name && tmpExists
      modifies this`files, this`tmp, this`trace, this`s
      ensures Valid() && Continues()
      ensures s.worker == old(s.worker).(pc := Move(old(Pc()).todo[1..]))
    {
      hide Recorded, TablesHold, OthersKept, Blameless, Apply, CanTake;
      HeadOutside();
      RenamedMeans(net, s);
      Do(Renamed);
      tmp := tmp[name := files[name]];
      files := files - {name};
    }

    lemma HeadOutside()
      requires Valid() && s.worker.Busy? && Pc().Rename? && Pc().todo != []
      ensures Pc().todo[0] in s.spool
    {
      hide Coupled, OthersKept, Blameless, Inv, OnTrack, Legal, After;
      RenameHead(net, s);
    }

    method ReadTmpDir() returns (ok: bool, entries: seq<DirEntry>)
      requires Valid() && s.worker.Busy? && Pc().Move? && Pc().todo == []
      modifies this`ioFaults, this`trace, this`s
      ensures Valid() && Continues()
      ensures s.worker == if ok then old(s.worker).(pc := Read([], FlowNames(FileNames(entries)), [])) else Idle
    {
      hide TablesHold, Recorded, OthersKept, Blameless, BilledRows, FlowNames, FileNames, Listing, NoDup, SetOf;
      entries := [];
      if !tmpExists {
        Do(TmpMissing);
        return false, entries;
      }
      ok := Attempt();
      if ok {
        entries := ListFiles(tmp.Keys + (if keep then {GIT_KEEP} else {}), {});
        FlowEntries(entries, keep);
        Do(TmpListed(FlowNames(FileNames(entries))));
      } else {
        Fail();
      }
    }

    /** The flow names in tmp are all of tmp but the keep file. */
    lemma FlowEntries(entries: seq<DirEntry>, keep: bool)
      requires Valid()
      requires NoDup(FileNames(entries))
      requires SetOf(FileNames(entries)) == tmp.Keys + if keep then {GIT_KEEP} else {}
      ensures Listing(FlowNames(FileNames(entries)), s.tmp)
      ensures FlowNames(FlowNames(FileNames(entries))) == FlowNames(FileNames(entries))
    {
      hide IdsOk, BilledOk, LedgerOk, FatesOk, WorkerOk, OnTrack, Legal, After, BilledRows, IsFlowName;
      var names := FileNames(entries);
      GitKeepIsNoFlow();
      FlowNamesNoDup(names);
      forall n
        ensures n in FlowNames(names) <==> n in s.tmp
      {
        FlowNamesMeaning(names, n);
        assert n in names <==> n in SetOf(names);
      }
      assert SetOf(FlowNames(names)) == s.tmp.Keys;
      FlowNamesAgain(names);
    }

    method OpenFile(name: Name) returns (ok: bool, content: string)
      requires Valid() && s.worker.Busy? && Pc().Read? && name in s.tmp
      modifies this`ioFaults, this`trace, this`s
      ensures Valid() && Continues()
      ensures s.worker == if ok then old(s.worker) else Idle
      ensures s.tmp == old(s.tmp) && content == s.tmp[name].content
    {
      hide TablesHold, Recorded, OthersKept, Blameless, Inv, OnTrack, Decide, BilledRows, IsFlowName, RowsOf,
           Database.NamesOf;
      content := tmp[name].content;
      ok := Attempt();
      if !ok {
        Fail();
      }
    }

    /** The read behind one step of the scanner. */
    method ReadMore() returns (ok: bool)
      requires Valid() && s.worker.Busy? && Pc().Read?
      modifies this`ioFaults, this`trace, this`s
      ensures Valid() && Continues()
      ensures s.worker == if ok then old(s.worker) else Idle
      ensures s.tmp == old(s.tmp)
    {
      hide TablesHold, Recorded, OthersKept, Blameless, Inv, OnTrack, Decide, BilledRows, IsFlowName, RowsOf,
           Database.NamesOf;
      ok := Attempt();
      if !ok {
        Fail();
      }
    }

    /** Deletes one file of tmp. */
    method UnlinkOne(name: Name) returns (ok: bool)
      requires Valid() && s.worker.Busy? && Pc().Unlink? && name in tmp
      modifies this`tmp, this`ioFaults, this`trace, this`s
      ensures Valid() && Continues()
      ensures s.worker == if ok then old(s.worker) else Idle
      ensures ok ==> tmp.Keys == old(tmp).Keys - {name}
    {
      hide TablesHold, Recorded, OthersKept, Blameless, BilledRows, RowsOf, Database.NamesOf, Apply, CanTake, FateOf;
      ok := Attempt();
      if ok {
        UnlinkedMeans(net, s, name);
        Do(Unlinked(name));
        tmp := tmp - {name};
      } else {
        Fail();
      }
    }

    /** Deletes the files of tmp one by one in some order, then tmp; may stop anywhere. */
    method RemoveAll() returns (ok: bool)
      requires Valid() && s.worker.Busy? && Pc().Unlink?
      modifies this, db
      ensures Valid() && Continues()
      ensures s.worker == if ok then old(s.worker).(pc := Remake) else Idle
    {
      hide Recorded, OthersKept, Blameless, Decide, BilledRows, FateOf;
      while tmp != map[]
        invariant Valid() && Continues() && s.worker == old(s.worker)
        decreases tmp.Keys
      {
        var name :| name in tmp;
        Interfere();
        ok := UnlinkOne(name);
        if !ok {
          return;
        }
      }
      Interfere();
      ok := RemoveTmpDir();
    }

    method RemoveTmpDir() returns (ok: bool)
      requires Valid() && s.worker.Busy? && Pc().Unlink? && tmp == map[]
      modifies this`tmpExists, this`keep, this`ioFaults, this`trace, this`s
      ensures Valid() && Continues()
      ensures s.worker == if ok then old(s.worker).(pc := Remake) else Idle
    {
      hide TablesHold, Recorded, OthersKept, Blameless, BilledRows, RowsOf, Database.NamesOf, Apply, CanTake, FateOf;
      ok := Attempt();
      if ok {
        TmpRemovedMeans(net, s);
        Do(TmpRemoved);
        tmpExists, keep := false, false;
      } else {
        Fail();
      }
    }

    /** Saves rows and names in one transaction: every row and every name is added once, or nothing at all,
        and nothing else changes in either table. A failed commit may have taken effect all the same. */
    method SaveRows(chunkList: seq<Chunk>, fileNameList: seq<Name>) returns (ok: bool, ghost applied: bool)
      requires Valid() && s.worker.Busy? && Pc().Save?
      requires fileNameList == Pc().names && multiset(chunkList) == Pc().rows
      modifies this`trace, this`s, db
      ensures Valid() && Continues() && (ok ==> applied)
      ensures s.worker == if ok then old(s.worker).(pc := Unlink(AfterCommit)) else Idle
      ensures s.ledger ==
              if applied then old(s.ledger) + [Batch(old(s.worker.job), old(Pc()).files, old(Pc()).rows)]
              else old(s.ledger)
      ensures if applied then Added(old(db.chunk), db.chunk, nasIp, multiset(chunkList)) else db.chunk == old(db.chunk)
      ensures db.flowBatch ==
              if applied then old(db.flowBatch) + RowsFor(nasIp, SetOf(fileNameList)) else old(db.flowBatch)
    {
      hide Recorded, BilledRows, Added, NamesOf, RowsFor, WithoutNas, RowsOf, SetOf, IoFaultSince;
      RowsOfOneNas(db.flowBatch, nasIp, SetOf(fileNameList), nasIp);
      OwnRowsApart(db.flowBatch, nasIp, SetOf(fileNameList));
      var err;
      ghost var session;
      ghost var before := db.chunk;
      err, applied, session := SaveChunkListWithCheckpoint(db, nasIp, chunkList, fileNameList);
      if applied {
        OwnRowsAdded(before, db.chunk, nasIp, multiset(chunkList));
      }
      ok := err == SessionError.NoError;
      BilledRowsSnoc(s.ledger, Batch(s.worker.job, Pc().files, Pc().rows));
      RecordSave(ok, applied);
    }

    /** A save as the protocol sees it. */
    ghost method RecordSave(ok: bool, applied: bool)
      requires Recorded() && Blameless() && (!ok ==> faultsAt < Faults())
      requires s.worker.Busy? && Pc().Save? && (ok ==> applied)
      modifies this`trace, this`s
      ensures Recorded() && Blameless() && Continues()
      ensures s.spool == old(s.spool) && s.tmp == old(s.tmp) && s.tmpExists == old(s.tmpExists)
      ensures s.arrived == old(s.arrived)
      ensures s.worker == if ok then old(s.worker).(pc := Unlink(AfterCommit)) else Idle
      ensures s.checkpoint == if applied then old(s.checkpoint) + SetOf(old(Pc()).names) else old(s.checkpoint)
      ensures s.ledger ==
              if applied then old(s.ledger) + [Batch(old(s.worker.job), old(Pc()).files, old(Pc()).rows)]
              else old(s.ledger)
    {
      hide Recorded, OthersKept, Blameless, Inv, OnTrack, Decide;
      if ok {
        Do(Committed);
      } else if applied {
        Do(CommitFailed(true));
      } else {
        Do(Abort(IoError));
      }
    }

    /** Removes the rows of this nas from the checkpoint, all or none, and changes nothing else in either
        table. A failed commit may have taken effect all the same. */
    method ClearRows() returns (ok: bool, ghost applied: bool)
      requires Valid() && s.worker.Busy? && Pc().ClearCheckpoint?
      modifies this`trace, this`s, db
      ensures Valid() && Continues() && s.worker.Idle? && (ok ==> applied)
      ensures s.checkpoint == if applied then {} else old(s.checkpoint)
      ensures db.flowBatch == if applied then WithoutNas(old(db.flowBatch), nasIp) else old(db.flowBatch)
      ensures db.chunk == old(db.chunk)
    {
      hide Recorded, BilledRows, NamesOf, WithoutNas, RowsOf;
      RowsOfOneNas(db.flowBatch, nasIp, {}, nasIp);
      OwnRowsApart(db.flowBatch, nasIp, {});
      var err;
      ghost var reached, session;
      err, reached, applied, session := Database.ClearCheckpoint(db, nasIp);
      ok := err == SessionError.NoError;
      RecordClear(ok, applied);
    }

    /** A clearing of the checkpoint as the protocol sees it. */
    ghost method RecordClear(ok: bool, applied: bool)
      requires Recorded() && Blameless() && (!ok ==> faultsAt < Faults())
      requires s.worker.Busy? && Pc().ClearCheckpoint? && (ok ==> applied)
      modifies this`trace, this`s
      ensures Recorded() && Blameless() && Continues()
      ensures s == Stop(if applied then old(s).(checkpoint := {}) else old(s))
    {
      hide Recorded, OthersKept, Blameless, Inv, OnTrack, Decide;
      if ok {
        Do(Cleared);
      } else if applied {
        Do(ClearFailed(true));
      } else {
        Do(Abort(IoError));
      }
    }

    method RemakeTmp() returns (ok: bool)
      requires Valid() && s.worker.Busy? && Pc().Remake?
      modifies this`tmpExists, this`ioFaults, this`trace, this`s
      ensures Valid() && Continues()
      ensures s.worker == if ok then old(s.worker).(pc := WriteKeep) else Idle
    {
      hide TablesHold, Recorded, OthersKept, Blameless, BilledRows, RowsOf, Database.NamesOf, Apply, CanTake, FateOf;
      ok := Attempt();
      if ok && TMP_NAME in files {
        GiveUp();
        return false;
      }
      if ok {
        TmpMadeMeans(net, s);
        Do(TmpMade);
        tmpExists := true;
      } else {
        Fail();
      }
    }

    method WriteKeepFile() returns (ok: bool)
      requires Valid() && s.worker.Busy? && Pc().WriteKeep?
      modifies this`keep, this`ioFaults, this`trace, this`s
      ensures Valid() && Continues()
      ensures s.worker == if ok then old(s.worker).(pc := Billing.ClearCheckpoint) else Idle
      ensures ok ==> keep
    {
      hide TablesHold, Recorded, OthersKept, Blameless, Inv, OnTrack, Decide, BilledRows, IsFlowName, RowsOf,
           Database.NamesOf;
      ok := Attempt();
      if ok {
        Do(KeepWritten);
        keep := true;
      } else {
        Fail();
      }
    }
  }

  lemma OwnRowsAdded(before: ChunkTable, after: ChunkTable, nas: string, rows: multiset<Chunk>)
    requires Added(before, after, nas, rows)
    ensures RowsOf(after, nas) == RowsOf(before, nas) + rows
    ensures forall n: string | n != nas :: RowsOf(after, n) == RowsOf(before, n)
  {
    hide RowsOf;
    forall n: string | n != nas
      ensures RowsOf(after, n) == RowsOf(before, n)
    {
      assert RowsOf(after, n) == RowsOf(before, n) + multiset{};
    }
    assert RowsOf(after, nas) == RowsOf(before, nas) + if nas == nas then rows else multiset{};
  }

  lemma BeginOnTrack(net: Net, s: State, job: Job)
    requires s.worker.Idle? && job.sessions != []
    ensures CanTake(s, Event.Begin(job))
    ensures Apply(net, s, Event.Begin(job)) == s.(worker := Busy(job, {}, LoadCheckpoint))
    ensures Ready(s) ==> OnTrack(net, Apply(net, s, Event.Begin(job)))
  {
    hide IsFlowName;
  }

  // ---- single events of a run, spelled out

  lemma RenamedMeans(net: Net, s: State)
    requires s.worker.Busy? && s.worker.pc.Rename? && s.worker.pc.todo != [] && s.worker.pc.todo[0] in s.spool
    requires s.tmpExists
    ensures CanTake(s, Renamed)
    ensures var todo := s.worker.pc.todo;
      Apply(net, s, Renamed) ==
      Goto(s.(spool := s.spool - {todo[0]}, tmp := s.tmp[todo[0] := s.spool[todo[0]]]), Move(todo[1..]))
  {
    hide Goto;
  }

  lemma UnlinkedMeans(net: Net, s: State, name: Name)
    requires s.worker.Busy? && s.worker.pc.Unlink? && name in s.tmp
    ensures CanTake(s, Unlinked(name))
    ensures Apply(net, s, Unlinked(name)) ==
            s.(tmp := s.tmp - {name}, fate := s.fate[s.tmp[name].id := FateOf(s, s.tmp[name])])
  {
    hide FateOf;
  }

  lemma TmpRemovedMeans(net: Net, s: State)
    requires s.worker.Busy? && s.worker.pc.Unlink? && s.tmp == map[]
    ensures CanTake(s, TmpRemoved) && Apply(net, s, TmpRemoved) == Goto(s.(tmpExists := false), Remake)
  {
    hide Goto;
  }

  lemma TmpMadeMeans(net: Net, s: State)
    requires s.worker.Busy? && s.worker.pc.Remake? && TMP_NAME !in s.spool
    ensures CanTake(s, TmpMade) && Apply(net, s, TmpMade) == Goto(s.(tmpExists := true), WriteKeep)
  {
    hide Goto;
  }

  lemma RenameHead(net: Net, s: State)
    requires Inv(net, s) && s.worker.Busy? && s.worker.pc.Rename? && s.worker.pc.todo != []
    ensures s.worker.pc.todo[0] in s.spool
  {
    hide IdsOk, BilledOk, LedgerOk, FatesOk, IsFlowName;
  }

  lemma NoNewFault(trace: seq<Event>, ev: Event, k: nat)
    requires !Fault(ev)
    ensures FaultSince(trace + [ev], k) <==> FaultSince(trace, k)
  {
    hide Fault;
    var all := trace + [ev];
    assert forall i | 0 <= i < |trace| :: all[i] == trace[i];
  }

  lemma {:induction false} FlowNamesAgain(names: seq<Name>)
    ensures FlowNames(FlowNames(names)) == FlowNames(names)
  {
    hide IsFlowName;
    if names == [] {
    } else {
      var k := |names| - 1;
      var rest := FlowNames(names[..k]);
      FlowNamesAgain(names[..k]);
      if IsFlowName(names[k]) {
        assert (rest + [names[k]])[..|rest|] == rest;
      } else {
        assert rest + [] == rest;
      }
    }
  }
}
