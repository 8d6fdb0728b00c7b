/**
 What every run of the billing protocol keeps: no file is billed twice, none is
 lost, every ledger entry holds exactly the rows its files owe.
 */
module BillingSafety {
  import opened Text
  import opened Address
  import opened Sift
  import opened Billing

  // ---- the invariant

  // The parts name the fields they depend on, so that a step carries over what it leaves alone.

  ghost predicate NamesOk(spool: Folder, tmp: Folder, tmpExists: bool, checkpoint: set<Name>) {
    && (forall n | n in tmp :: IsFlowName(n))
    && (if tmpExists then TMP_NAME !in spool else tmp == map[])
    && (forall n | n in spool :: n !in tmp && n !in checkpoint)
  }

  /** Different names hold different files. */
  ghost predicate Apart(folder: Folder) {
    forall m, n | m in folder && n in folder && folder[m].id == folder[n].id :: m == n
  }

  ghost predicate Held(folder: Folder, id: nat) {
    exists n :: n in folder && folder[n].id == id
  }

  /** Every file that arrived is in one folder or has a fate, and in no two places. */
  ghost predicate IdsOk(spool: Folder, tmp: Folder, arrived: set<nat>, fates: set<nat>) {
    && Apart(spool) && Apart(tmp)
    && (forall m, n | m in spool && n in tmp :: spool[m].id != tmp[n].id)
    && (forall n | n in spool :: spool[n].id in arrived && spool[n].id !in fates)
    && (forall n | n in tmp :: tmp[n].id in arrived && tmp[n].id !in fates)
    && fates <= arrived
    && (forall id | id in arrived :: Held(spool, id) || Held(tmp, id) || id in fates)
  }

  /** A file in tmp is billed exactly when the checkpoint has its name. */
  ghost predicate BilledOk(spool: Folder, tmp: Folder, checkpoint: set<Name>, arrived: set<nat>, billed: set<nat>) {
    && billed <= arrived
    && (forall n | n in spool :: spool[n].id !in billed)
    && (forall n | n in tmp :: tmp[n].id in billed <==> n in checkpoint)
  }

  ghost predicate DistinctFiles(files: seq<File>) {
    forall i, j | 0 <= i < j < |files| :: files[i].id != files[j].id
  }

  ghost predicate BatchOk(net: Net, b: Batch) {
    DistinctFiles(b.files) && Judge(net, b.job, AllLines(b.files)) == Owed(b.rows)
  }

  ghost predicate LedgerOk(net: Net, ledger: seq<Batch>) {
    ledger == [] ||
    (var k := |ledger| - 1;
     LedgerOk(net, ledger[..k]) && BatchOk(net, ledger[k]) && FileIds(ledger[k].files) !! BilledIds(ledger[..k]))
  }

  ghost predicate FateOk(net: Net, billed: set<nat>, id: nat, fate: Fate) {
    match fate
    case Billed => id in billed
    case WithoutRows(job, files) =>
      id !in billed && id in FileIds(files) && Judge(net, job, AllLines(files)) == NothingOwed
    case Lost => false
  }

  ghost predicate FatesOk(net: Net, billed: set<nat>, fate: map<nat, Fate>) {
    forall id | id in fate :: FateOk(net, billed, id, fate[id])
  }

  ghost predicate SweepOk(net: Net, tmp: Folder, checkpoint: set<Name>, job: Job, why: Sweep) {
    match why
    case AfterNoData(files) =>
      && Judge(net, job, AllLines(files)) == NothingOwed
      && forall n | n in tmp :: n in checkpoint || tmp[n].id in FileIds(files)
    case _ => tmp.Keys <= checkpoint
  }

  ghost predicate TodoOk(spool: Folder, todo: seq<Name>) {
    NoDup(todo) && forall i | 0 <= i < |todo| :: todo[i] in spool && IsFlowName(todo[i])
  }

  ghost predicate ReadOk(tmp: Folder, committed: set<Name>, names: seq<Name>, todo: seq<Name>, files: seq<File>) {
    Listing(names + todo, tmp) && files == NewFiles(tmp, names, committed)
  }

  ghost predicate SaveOk(net: Net, tmp: Folder, committed: set<Name>, job: Job, pc: Pc)
    requires pc.Save?
  {
    && Listing(pc.names, tmp) && pc.files == NewFiles(tmp, pc.names, committed)
    && Judge(net, job, AllLines(pc.files)) == Owed(pc.rows)
  }

  ghost predicate PcOk(net: Net, spool: Folder, tmp: Folder, tmpExists: bool, checkpoint: set<Name>,
                       job: Job, committed: set<Name>, pc: Pc) {
    match pc
    case LoadCheckpoint => true
    case ListSpool => committed == checkpoint
    case Move(todo) => committed == checkpoint && TodoOk(spool, todo)
    case Rename(todo) => committed == checkpoint && TodoOk(spool, todo) && todo != [] &&
                         (tmpExists || TMP_NAME in spool)
    case Read(names, todo, files) => committed == checkpoint && ReadOk(tmp, committed, names, todo, files) && tmpExists
    case Save(names, files, rows) => committed == checkpoint && SaveOk(net, tmp, committed, job, pc) && tmpExists
    case Unlink(why) => SweepOk(net, tmp, checkpoint, job, why) && tmpExists
    case Remake => tmp == map[] && !tmpExists
    case WriteKeep => tmp == map[] && tmpExists
    case ClearCheckpoint => tmp == map[] && tmpExists
  }

  ghost predicate WorkerOk(net: Net, s: State) {
    match s.worker
    case Idle => true
    case Busy(job, committed, pc) =>
      job.sessions != [] && PcOk(net, s.spool, s.tmp, s.tmpExists, s.checkpoint, job, committed, pc)
  }

  ghost predicate Core(net: Net, s: State) {
    && NamesOk(s.spool, s.tmp, s.tmpExists, s.checkpoint)
    && IdsOk(s.spool, s.tmp, s.arrived.Keys, s.fate.Keys)
    && BilledOk(s.spool, s.tmp, s.checkpoint, s.arrived.Keys, BilledIds(s.ledger))
    && LedgerOk(net, s.ledger)
    && FatesOk(net, BilledIds(s.ledger), s.fate)
    && WorkerOk(net, s)
  }

  // ---- contents

  /** A file that arrived, with the content it arrived with. */
  ghost predicate Genuine(arrived: map<nat, string>, f: File) {
    f.id in arrived && arrived[f.id] == f.content
  }

  ghost predicate AllGenuine(arrived: map<nat, string>, files: seq<File>) {
    forall i | 0 <= i < |files| :: Genuine(arrived, files[i])
  }

  ghost predicate FolderGenuine(arrived: map<nat, string>, folder: Folder) {
    forall n | n in folder :: Genuine(arrived, folder[n])
  }

  ghost predicate LedgerGenuine(arrived: map<nat, string>, ledger: seq<Batch>) {
    forall i | 0 <= i < |ledger| :: AllGenuine(arrived, ledger[i].files)
  }

  ghost predicate FatesGenuine(arrived: map<nat, string>, fate: map<nat, Fate>) {
    forall id | id in fate && fate[id].WithoutRows? :: AllGenuine(arrived, fate[id].files)
  }

  /** The files the present run has read and still works on. */
  function FilesOf(w: Worker): seq<File> {
    match w
    case Idle => []
    case Busy(_, _, pc) =>
      match pc
      case Read(_, _, files) => files
      case Save(_, files, _) => files
      case Unlink(AfterNoData(files)) => files
      case _ => []
  }

  /** No file is ever changed on its way: what lies in a folder, what a run has read, what was
      billed and what was deleted unbilled is what arrived. */
  ghost predicate ContentOk(s: State) {
    && FolderGenuine(s.arrived, s.spool) && FolderGenuine(s.arrived, s.tmp)
    && LedgerGenuine(s.arrived, s.ledger) && FatesGenuine(s.arrived, s.fate)
    && AllGenuine(s.arrived, FilesOf(s.worker))
  }

  ghost predicate Inv(net: Net, s: State) {
    Core(net, s) && ContentOk(s)
  }

  /** Before the first run: nothing billed or deleted yet, files of either folder not
      covered by whatever the checkpoint holds. */
  ghost predicate Init(s: State) {
    && s.worker == Idle && s.ledger == [] && s.fate == map[]
    && NamesOk(s.spool, s.tmp, s.tmpExists, s.checkpoint)
    && IdsOk(s.spool, s.tmp, s.arrived.Keys, s.fate.Keys)
    && FolderGenuine(s.arrived, s.spool) && FolderGenuine(s.arrived, s.tmp)
    && (forall n | n in s.tmp :: n !in s.checkpoint)
  }

  lemma InitInv(net: Net, s: State)
    requires Init(s)
    ensures Inv(net, s)
  {
  }

  // ---- sequences of names and files

  lemma {:induction false} FileIdsMeaning(files: seq<File>, id: nat)
    ensures id in FileIds(files) <==> exists i | 0 <= i < |files| :: files[i].id == id
  {
    if files == [] {
    } else {
      var k := |files| - 1;
      FileIdsMeaning(files[..k], id);
      assert forall i | 0 <= i < k :: files[..k][i] == files[i];
    }
  }

  /** NewFiles picks exactly the uncovered files. */
  lemma {:induction false} NewFilesMeaning(folder: Folder, names: seq<Name>, committed: set<Name>, id: nat)
    ensures id in FileIds(NewFiles(folder, names, committed)) <==>
            exists i | 0 <= i < |names| :: names[i] in folder && names[i] !in committed && folder[names[i]].id == id
  {
    if names == [] {
    } else {
      var k := |names| - 1;
      NewFilesMeaning(folder, names[..k], committed, id);
      assert forall i | 0 <= i < k :: names[..k][i] == names[i];
      var rest := NewFiles(folder, names[..k], committed);
      if names[k] in folder && names[k] !in committed {
        assert (rest + [folder[names[k]]])[..|rest|] == rest;
      } else {
        assert rest + [] == rest;
      }
    }
  }

  lemma {:induction false} NewFilesDistinct(folder: Folder, names: seq<Name>, committed: set<Name>)
    requires Apart(folder) && NoDup(names)
    ensures DistinctFiles(NewFiles(folder, names, committed))
  {
    if names == [] {
    } else {
      var k := |names| - 1;
      NewFilesDistinct(folder, names[..k], committed);
      if names[k] in folder && names[k] !in committed {
        var rest, f := NewFiles(folder, names[..k], committed), folder[names[k]];
        NewFilesMeaning(folder, names[..k], committed, f.id);
        FileIdsMeaning(rest, f.id);
        assert forall i | 0 <= i < k :: names[..k][i] == names[i] && names[i] != names[k];
        assert f.id !in FileIds(rest);
      }
    }
  }

  lemma NewFilesSnoc(folder: Folder, names: seq<Name>, n: Name, committed: set<Name>)
    ensures NewFiles(folder, names + [n], committed) ==
            NewFiles(folder, names, committed) + if n in folder && n !in committed then [folder[n]] else []
  {
    var all := names + [n];
    assert all[..|all| - 1] == names;
  }

  lemma {:induction false} FlowNamesMeaning(names: seq<Name>, n: Name)
    ensures n in FlowNames(names) <==> n in names && IsFlowName(n)
  {
    if names == [] {
    } else {
      var k := |names| - 1;
      FlowNamesMeaning(names[..k], n);
      assert names == names[..k] + [names[k]];
    }
  }

  lemma {:induction false} FlowNamesNoDup(names: seq<Name>)
    requires NoDup(names)
    ensures NoDup(FlowNames(names))
  {
    if names == [] {
    } else {
      var k := |names| - 1;
      FlowNamesNoDup(names[..k]);
      FlowNamesMeaning(names[..k], names[k]);
      assert names[k] !in names[..k];
    }
  }

  lemma FlowNamesListing(names: seq<Name>, folder: Folder)
    requires Listing(names, folder)
    ensures NoDup(FlowNames(names))
    ensures SetOf(FlowNames(names)) == set n | n in folder && IsFlowName(n)
  {
    FlowNamesNoDup(names);
    forall n
      ensures n in FlowNames(names) <==> n in folder && IsFlowName(n)
    {
      FlowNamesMeaning(names, n);
      assert n in names <==> n in SetOf(names);
    }
  }

  lemma LedgerSnoc(net: Net, ledger: seq<Batch>, b: Batch)
    ensures BilledIds(ledger + [b]) == BilledIds(ledger) + FileIds(b.files)
    ensures LedgerOk(net, ledger) && BatchOk(net, b) && FileIds(b.files) !! BilledIds(ledger) ==>
              LedgerOk(net, ledger + [b])
  {
    var all := ledger + [b];
    assert all[..|all| - 1] == ledger;
  }

  // ---- every step keeps the invariant

  lemma GotoKeeps(net: Net, s: State, pc: Pc)
    requires Core(net, s) && s.worker.Busy?
    requires PcOk(net, s.spool, s.tmp, s.tmpExists, s.checkpoint, s.worker.job, s.worker.committed, pc)
    ensures Core(net, Goto(s, pc))
  {
    hide NamesOk, IdsOk, BilledOk, LedgerOk, FatesOk, PcOk;
  }

  lemma StopKeeps(net: Net, s: State)
    requires Core(net, s)
    ensures Core(net, Stop(s))
  {
    hide NamesOk, IdsOk, BilledOk, LedgerOk, FatesOk, PcOk;
  }

  lemma StepKeepsCore(net: Net, s: State, ev: Event)
    requires Core(net, s) && CanTake(s, ev)
    ensures Core(net, Apply(net, s, ev))
  {
    hide *;
    if ev.Listed? || ev.TmpListed? || ev.Skipped? || ev.FileRead? {
      ReadStepKeeps(net, s, ev);
    } else if ev.Arrive? || ev.Renamed? || ev.Unlinked? || ev.Decided? {
      FileStepKeeps(net, s, ev);
    } else {
      PlainStepKeeps(net, s, ev);
    }
  }

  lemma FileStepKeeps(net: Net, s: State, ev: Event)
    requires Core(net, s) && CanTake(s, ev)
    requires ev.Arrive? || ev.Renamed? || ev.Unlinked? || ev.Decided?
    ensures Core(net, Apply(net, s, ev))
  {
    hide *;
    match ev
    case Arrive(name, file) => ArriveKeeps(net, s, name, file);
    case Renamed => RenameKeeps(net, s);
    case Unlinked(name) => UnlinkKeeps(net, s, name);
    case Decided => DecideKeeps(net, s);
  }

  lemma ReadStepKeeps(net: Net, s: State, ev: Event)
    requires Core(net, s) && CanTake(s, ev)
    requires ev.Listed? || ev.TmpListed? || ev.Skipped? || ev.FileRead?
    ensures Core(net, Apply(net, s, ev))
  {
    hide *;
    match ev
    case Listed(names) => ListKeeps(net, s, names);
    case TmpListed(names) => TmpListKeeps(net, s, names);
    case Skipped => SkipKeeps(net, s);
    case FileRead => ReadKeeps(net, s);
  }

  lemma PlainStepKeeps(net: Net, s: State, ev: Event)
    requires Core(net, s) && CanTake(s, ev)
    requires !ev.Arrive? && !ev.Listed? && !ev.TmpListed? && !ev.Renamed? && !ev.Skipped? && !ev.FileRead? &&
             !ev.Decided? && !ev.Unlinked?
    ensures Core(net, Apply(net, s, ev))
  {
    hide *;
    if ev.Committed? || ev.CommitFailed? {
      SaveStepKeeps(net, s, ev);
    } else if ev.Cleared? || ev.ClearFailed? {
      ClearStepKeeps(net, s, ev);
    } else if ev.Begin? || ev.Abort? || ev.Loaded? || ev.TmpMissing? {
      WorkerStepKeeps(net, s, ev);
    } else {
      TmpStepKeeps(net, s, ev);
    }
  }

  /** Only the worker moves. */
  lemma WorkerStepKeeps(net: Net, s: State, ev: Event)
    requires Core(net, s) && CanTake(s, ev)
    requires ev.Begin? || ev.Abort? || ev.Loaded? || ev.TmpMissing?
    ensures Core(net, Apply(net, s, ev))
  {
    hide Judge, NamesOk, IdsOk, LedgerOk, FatesOk, BilledOk, SaveOk, ReadOk, TodoOk, SweepOk;
  }

  /** Only the worker and the tmp directory itself move. */
  lemma TmpStepKeeps(net: Net, s: State, ev: Event)
    requires Core(net, s) && CanTake(s, ev)
    requires ev.TmpEnsured? || ev.TmpRemoved? || ev.TmpMade? || ev.KeepWritten?
    ensures Core(net, Apply(net, s, ev))
  {
    hide Judge, IdsOk, LedgerOk, FatesOk, BilledOk, IsFlowName, SaveOk, ReadOk, TodoOk, SweepOk;
  }

  lemma SaveStepKeeps(net: Net, s: State, ev: Event)
    requires Core(net, s) && CanTake(s, ev) && (ev.Committed? || ev.CommitFailed?)
    ensures Core(net, Apply(net, s, ev))
  {
    hide Decide, Judge, NamesOk, IdsOk, BilledOk, LedgerOk, FatesOk, SaveOk, BilledIds;
    SavedKeeps(net, s);
  }

  /** With tmp empty the checkpoint is not needed. */
  lemma ClearStepKeeps(net: Net, s: State, ev: Event)
    requires Core(net, s) && CanTake(s, ev) && (ev.Cleared? || ev.ClearFailed?)
    ensures Core(net, Apply(net, s, ev))
  {
    hide Decide, Judge, IdsOk, LedgerOk, FatesOk, IsFlowName, BilledIds;
  }

  /** A verdict either ends the run or sends it on to a save or a sweep; it changes nothing else. */
  lemma DecideCases(net: Net, t: State)
    requires t.worker.Busy? && t.worker.pc.Read?
    ensures var u := Decide(net, t);
      var Read(names, _, files) := t.worker.pc;
      || u == Stop(t) || u == Goto(t, Unlink(NothingNew)) || u == Goto(t, Unlink(AfterNoData(files)))
      || exists rows :: u == Goto(t, Save(names, files, rows))
  {
    hide Judge, AllLines, SetOf, Goto, Stop;
    var Busy(job, committed, Read(names, todo, files)) := t.worker;
    if !(SetOf(names) <= committed) {
      match Judge(net, job, AllLines(files))
      case Unrecognised =>
      case NothingOwed =>
      case Owed(rows) => assert Decide(net, t) == Goto(t, Save(names, files, rows));
    }
  }

  /** Deciding only moves the worker. */
  lemma DecideAlone(net: Net, t: State)
    requires t.worker.Busy? && t.worker.pc.Read?
    ensures Decide(net, t) == t.(worker := Decide(net, t).worker)
  {
    hide Decide;
    DecideCases(net, t);
  }

  lemma DecideKeepsFiles(net: Net, s: State)
    requires s.worker.Busy? && s.worker.pc.Read?
    ensures FilesOf(Decide(net, s).worker) == s.worker.pc.files || FilesOf(Decide(net, s).worker) == []
  {
    hide Decide;
    DecideCases(net, s);
  }

  /** After the saving transaction everything in tmp is billed and covered. */
  lemma SavedKeeps(net: Net, s: State)
    requires Core(net, s) && s.worker.Busy? && s.worker.pc.Save?
    ensures Saved(s).checkpoint == s.checkpoint + s.tmp.Keys
    ensures Core(net, Stop(Saved(s)))
  {
    hide Judge, IsFlowName, IdsOk, BilledOk, LedgerOk, FatesOk, BatchOk, SaveOk, BilledIds;
    var Busy(job, committed, Save(names, files, rows)) := s.worker;
    var before, ids := BilledIds(s.ledger), FileIds(files);
    SaveIsBatch(net, s);
    BillAll(s.spool, s.tmp, s.checkpoint, s.arrived.Keys, s.fate.Keys, before, names);
    LedgerSnoc(net, s.ledger, Batch(job, files, rows));
    FatesKept(net, before, ids, s.fate);
  }

  lemma SaveIsBatch(net: Net, s: State)
    requires s.worker.Busy? && s.worker.pc.Save? && IdsOk(s.spool, s.tmp, s.arrived.Keys, s.fate.Keys)
    requires SaveOk(net, s.tmp, s.worker.committed, s.worker.job, s.worker.pc)
    ensures BatchOk(net, Batch(s.worker.job, s.worker.pc.files, s.worker.pc.rows))
    ensures Listing(s.worker.pc.names, s.tmp) && SetOf(s.worker.pc.names) == s.tmp.Keys
    ensures s.worker.pc.files == NewFiles(s.tmp, s.worker.pc.names, s.worker.committed)
  {
    hide Judge;
    NewFilesDistinct(s.tmp, s.worker.pc.names, s.worker.committed);
  }

  /** Billing the uncovered files of tmp touches no file outside tmp and none billed before. */
  lemma BillAll(spool: Folder, tmp: Folder, checkpoint: set<Name>, arrived: set<nat>, fates: set<nat>,
                billed: set<nat>, names: seq<Name>)
    requires IdsOk(spool, tmp, arrived, fates) && BilledOk(spool, tmp, checkpoint, arrived, billed)
    requires Listing(names, tmp)
    ensures var ids := FileIds(NewFiles(tmp, names, checkpoint));
            && BilledOk(spool, tmp, checkpoint + tmp.Keys, arrived, billed + ids)
            && ids !! billed && ids !! fates
  {
    NewIds(tmp, names, checkpoint);
  }

  lemma FatesKept(net: Net, billed: set<nat>, ids: set<nat>, fate: map<nat, Fate>)
    requires FatesOk(net, billed, fate) && ids !! fate.Keys
    ensures FatesOk(net, billed + ids, fate)
  {
    forall id | id in fate
      ensures FateOk(net, billed + ids, id, fate[id])
    {
      assert FateOk(net, billed, id, fate[id]);
    }
  }

  lemma NewIds(folder: Folder, names: seq<Name>, committed: set<Name>)
    requires Listing(names, folder)
    ensures forall id: nat :: id in FileIds(NewFiles(folder, names, committed)) <==>
              exists n :: n in folder && n !in committed && folder[n].id == id
  {
    forall id: nat
      ensures id in FileIds(NewFiles(folder, names, committed)) <==>
              exists n :: n in folder && n !in committed && folder[n].id == id
    {
      NewFilesMeaning(folder, names, committed, id);
      assert forall n :: n in SetOf(names) <==> n in folder;
    }
  }

  lemma ArriveKeeps(net: Net, s: State, name: Name, file: File)
    requires Core(net, s) && CanTake(s, Arrive(name, file))
    ensures Core(net, Apply(net, s, Arrive(name, file)))
  {
    hide Decide, Judge, IdsOk, LedgerOk, FatesOk, IsFlowName;
    ArriveIds(s.spool, s.tmp, s.arrived.Keys, s.fate.Keys, name, file);
    assert s.arrived[file.id := file.content].Keys == s.arrived.Keys + {file.id};
    var spool := s.spool[name := file];
    assert forall n | n in spool :: n == name || n in s.spool;
    assert forall n | n in s.spool :: n in spool && spool[n] == s.spool[n];
  }

  lemma ArriveIds(spool: Folder, tmp: Folder, arrived: set<nat>, fates: set<nat>, name: Name, file: File)
    requires IdsOk(spool, tmp, arrived, fates) && name !in spool && file.id !in arrived
    ensures IdsOk(spool[name := file], tmp, arrived + {file.id}, fates)
  {
    forall id | id in arrived + {file.id}
      ensures Held(spool[name := file], id) || Held(tmp, id) || id in fates
    {
      if id == file.id {
        assert name in spool[name := file];
      } else if Held(spool, id) {
        var n :| n in spool && spool[n].id == id;
        assert n in spool[name := file];
      }
    }
  }

  lemma ListKeeps(net: Net, s: State, names: seq<Name>)
    requires Core(net, s) && CanTake(s, Listed(names))
    ensures Core(net, Apply(net, s, Listed(names)))
  {
    hide Decide, Judge, IdsOk, BilledOk, LedgerOk, FatesOk;
    FlowNamesListing(names, s.spool);
    var flow := FlowNames(names);
    assert forall i | 0 <= i < |flow| :: flow[i] in SetOf(flow);
    if names == [] {
      StopKeeps(net, s);
    } else {
      GotoKeeps(net, s, Move(flow));
    }
  }

  lemma TmpListKeeps(net: Net, s: State, names: seq<Name>)
    requires Core(net, s) && CanTake(s, TmpListed(names))
    ensures Core(net, Apply(net, s, TmpListed(names)))
  {
    hide Decide, Judge, IdsOk, BilledOk, LedgerOk, FatesOk, IsFlowName, FlowNames, NewFiles, Listing, NoDup;
    ListingOfTmp(s.tmp, names);
    NothingRead(s.tmp, s.worker.committed);
    assert [] + FlowNames(names) == FlowNames(names);
    GotoKeeps(net, s, Read([], FlowNames(names), []));
  }

  lemma NothingRead(tmp: Folder, committed: set<Name>)
    ensures NewFiles(tmp, [], committed) == []
  {
  }

  /** tmp holds flow files only. */
  lemma ListingOfTmp(tmp: Folder, names: seq<Name>)
    requires Listing(names, tmp) && forall n | n in tmp :: IsFlowName(n)
    ensures Listing(FlowNames(names), tmp)
  {
    hide IsFlowName, FlowNames;
    FlowNamesListing(names, tmp);
    assert (set n | n in tmp && IsFlowName(n)) == tmp.Keys;
  }

  lemma RenameKeeps(net: Net, s: State)
    requires Core(net, s) && CanTake(s, Renamed)
    ensures Core(net, Apply(net, s, Renamed))
  {
    hide Decide, Judge, IdsOk, LedgerOk, FatesOk;
    var todo := s.worker.pc.todo;
    RenameIds(s.spool, s.tmp, s.arrived.Keys, s.fate.Keys, todo[0]);
    TodoRest(s.spool, todo);
    assert IsFlowName(todo[0]);
  }

  lemma TodoRest(spool: Folder, todo: seq<Name>)
    requires TodoOk(spool, todo) && todo != []
    ensures TodoOk(spool - {todo[0]}, todo[1..])
  {
    assert forall i | 0 <= i < |todo[1..]| :: todo[1..][i] == todo[i + 1] && todo[0] != todo[i + 1];
  }

  lemma RenameIds(spool: Folder, tmp: Folder, arrived: set<nat>, fates: set<nat>, n: Name)
    requires IdsOk(spool, tmp, arrived, fates) && n in spool && n !in tmp
    ensures IdsOk(spool - {n}, tmp[n := spool[n]], arrived, fates)
  {
    forall id | id in arrived
      ensures Held(spool - {n}, id) || Held(tmp[n := spool[n]], id) || id in fates
    {
      if Held(spool, id) {
        var m :| m in spool && spool[m].id == id;
        assert if m == n then n in tmp[n := spool[n]] else m in spool - {n};
      } else if Held(tmp, id) {
        var m :| m in tmp && tmp[m].id == id;
        assert m in tmp[n := spool[n]];
      }
    }
  }

  lemma ReadOn(folder: Folder, names: seq<Name>, todo: seq<Name>, committed: set<Name>)
    requires Listing(names + todo, folder) && todo != []
    ensures todo[0] in folder
    ensures Listing((names + [todo[0]]) + todo[1..], folder)
    ensures NewFiles(folder, names + [todo[0]], committed) ==
            NewFiles(folder, names, committed) + if todo[0] in committed then [] else [folder[todo[0]]]
  {
    assert (names + todo)[|names|] in SetOf(names + todo);
    assert (names + [todo[0]]) + todo[1..] == names + todo;
    NewFilesSnoc(folder, names, todo[0], committed);
  }

  lemma SkipKeeps(net: Net, s: State)
    requires Core(net, s) && CanTake(s, Skipped)
    ensures Core(net, Apply(net, s, Skipped))
  {
    hide Decide, Judge, IdsOk, BilledOk, LedgerOk, FatesOk;
    var Busy(job, committed, Read(names, todo, files)) := s.worker;
    ReadOn(s.tmp, names, todo, committed);
    assert files + [] == files;
    GotoKeeps(net, s, Read(names + [todo[0]], todo[1..], files));
  }

  lemma ReadKeeps(net: Net, s: State)
    requires Core(net, s) && CanTake(s, FileRead)
    ensures Core(net, Apply(net, s, FileRead))
  {
    hide Decide, Judge, IdsOk, BilledOk, LedgerOk, FatesOk;
    var Busy(job, committed, Read(names, todo, files)) := s.worker;
    ReadOn(s.tmp, names, todo, committed);
    GotoKeeps(net, s, Read(names + [todo[0]], todo[1..], files + [s.tmp[todo[0]]]));
  }

  lemma DecideKeeps(net: Net, s: State)
    requires Core(net, s) && CanTake(s, Decided)
    ensures Core(net, Apply(net, s, Decided))
  {
    hide Judge, IdsOk, BilledOk, LedgerOk, FatesOk, IsFlowName, AllLines;
    var Busy(job, committed, Read(names, todo, files)) := s.worker;
    assert names + todo == names;
    if SetOf(names) <= committed {
      GotoKeeps(net, s, Unlink(NothingNew));
    } else {
      match Judge(net, job, AllLines(files))
      case Unrecognised => StopKeeps(net, s);
      case Owed(rows) => GotoKeeps(net, s, Save(names, files, rows));
      case NothingOwed =>
        NewFilesCover(s.tmp, names, committed);
        GotoKeeps(net, s, Unlink(AfterNoData(files)));
    }
  }

  lemma NewFilesCover(folder: Folder, names: seq<Name>, committed: set<Name>)
    requires Listing(names, folder)
    ensures forall n | n in folder :: n in committed || folder[n].id in FileIds(NewFiles(folder, names, committed))
  {
    forall n | n in folder
      ensures n in committed || folder[n].id in FileIds(NewFiles(folder, names, committed))
    {
      assert n in SetOf(names);
      NewFilesMeaning(folder, names, committed, folder[n].id);
    }
  }

  lemma UnlinkKeeps(net: Net, s: State, name: Name)
    requires Core(net, s) && CanTake(s, Unlinked(name))
    ensures Core(net, Apply(net, s, Unlinked(name)))
  {
    hide Decide, Judge, IdsOk, LedgerOk, FatesOk, IsFlowName;
    var file := s.tmp[name];
    var t := Apply(net, s, Unlinked(name));
    UnlinkIds(s.spool, s.tmp, s.arrived.Keys, s.fate.Keys, name);
    assert t.fate.Keys == s.fate.Keys + {file.id};
    FateAdded(net, s, file, name);
    assert SweepOk(net, t.tmp, t.checkpoint, s.worker.job, s.worker.pc.why);
  }

  lemma FateAdded(net: Net, s: State, file: File, name: Name)
    requires s.worker.Busy? && s.worker.pc.Unlink? && name in s.tmp && s.tmp[name] == file
    requires SweepOk(net, s.tmp, s.checkpoint, s.worker.job, s.worker.pc.why)
    requires BilledOk(s.spool, s.tmp, s.checkpoint, s.arrived.Keys, BilledIds(s.ledger))
    requires FatesOk(net, BilledIds(s.ledger), s.fate)
    ensures FatesOk(net, BilledIds(s.ledger), s.fate[file.id := FateOf(s, file)])
  {
    var billed := BilledIds(s.ledger);
    assert file.id in billed <==> name in s.checkpoint;
    assert FateOk(net, billed, file.id, FateOf(s, file));
  }

  lemma UnlinkIds(spool: Folder, tmp: Folder, arrived: set<nat>, fates: set<nat>, name: Name)
    requires IdsOk(spool, tmp, arrived, fates) && name in tmp
    ensures IdsOk(spool, tmp - {name}, arrived, fates + {tmp[name].id})
  {
    forall id | id in arrived
      ensures Held(spool, id) || Held(tmp - {name}, id) || id in fates + {tmp[name].id}
    {
      if Held(tmp, id) && id != tmp[name].id {
        var m :| m in tmp && tmp[m].id == id;
        assert m in tmp - {name};
      }
    }
  }

  // ---- no step changes a file

  /** A new id leaves every file that arrived before genuine. */
  lemma ArrivalsGrow(s: State, id: nat, content: string)
    requires ContentOk(s) && id !in s.arrived
    ensures ContentOk(s.(arrived := s.arrived[id := content]))
  {
    var arrived := s.arrived[id := content];
    assert forall f | Genuine(s.arrived, f) :: Genuine(arrived, f);
  }

  lemma ArriveKeepsContent(net: Net, s: State, name: Name, file: File)
    requires ContentOk(s) && CanTake(s, Arrive(name, file))
    ensures ContentOk(Apply(net, s, Arrive(name, file)))
  {
    hide LedgerGenuine, FatesGenuine, AllGenuine;
    ArrivalsGrow(s, file.id, file.content);
    var t := Apply(net, s, Arrive(name, file));
    assert Genuine(t.arrived, file);
    assert forall n | n in t.spool :: n == name || (n in s.spool && t.spool[n] == s.spool[n]);
  }

  lemma GenuineSnoc(arrived: map<nat, string>, files: seq<File>, f: File)
    requires AllGenuine(arrived, files) && Genuine(arrived, f)
    ensures AllGenuine(arrived, files + [f])
  {
  }

  lemma LedgerGenuineSnoc(arrived: map<nat, string>, ledger: seq<Batch>, b: Batch)
    requires LedgerGenuine(arrived, ledger) && AllGenuine(arrived, b.files)
    ensures LedgerGenuine(arrived, ledger + [b])
  {
    hide AllGenuine;
  }

  lemma FolderStepContent(net: Net, s: State, ev: Event)
    requires ContentOk(s) && CanTake(s, ev) && (ev.Renamed? || ev.Unlinked?)
    ensures ContentOk(Apply(net, s, ev))
  {
    hide Genuine, AllGenuine, LedgerGenuine, Scannable, IsFlowName, BilledIds, FileIds;
    if ev.Unlinked? {
      assert AllGenuine(s.arrived, FilesOf(s.worker));
    }
  }

  lemma StepKeepsContent(net: Net, s: State, ev: Event)
    requires ContentOk(s) && CanTake(s, ev)
    ensures ContentOk(Apply(net, s, ev))
  {
    if ev.Arrive? {
      ArriveKeepsContent(net, s, ev.name, ev.file);
    } else if ev.Renamed? || ev.Unlinked? {
      FolderStepContent(net, s, ev);
    } else if ev.Committed? || ev.CommitFailed? {
      SaveStepContent(net, s, ev);
    } else {
      WorkStepContent(net, s, ev);
    }
  }

  lemma SaveStepContent(net: Net, s: State, ev: Event)
    requires ContentOk(s) && CanTake(s, ev) && (ev.Committed? || ev.CommitFailed?)
    ensures ContentOk(Apply(net, s, ev))
  {
    hide Genuine, LedgerGenuine, FatesGenuine, AllGenuine;
    NoFilesGenuine(s.arrived);
    LedgerGenuineSnoc(s.arrived, s.ledger, Batch(s.worker.job, s.worker.pc.files, s.worker.pc.rows));
  }

  lemma WorkStepContent(net: Net, s: State, ev: Event)
    requires ContentOk(s) && CanTake(s, ev)
    requires !ev.Arrive? && !ev.Renamed? && !ev.Unlinked? && !ev.Committed? && !ev.CommitFailed?
    ensures ContentOk(Apply(net, s, ev))
  {
    hide Decide, Genuine, LedgerGenuine, FatesGenuine, Scannable, IsFlowName, FlowNames, Listing, AllGenuine;
    NoFilesGenuine(s.arrived);
    if ev.Decided? {
      DecideAlone(net, s);
      DecideKeepsFiles(net, s);
    } else if ev.FileRead? {
      GenuineSnoc(s.arrived, s.worker.pc.files, s.tmp[s.worker.pc.todo[0]]);
    }
  }

  lemma NoFilesGenuine(arrived: map<nat, string>)
    ensures AllGenuine(arrived, [])
  {
  }

  lemma StepKeeps(net: Net, s: State, ev: Event)
    requires Inv(net, s) && CanTake(s, ev)
    ensures Inv(net, Apply(net, s, ev))
  {
    hide Core, ContentOk, Apply, CanTake;
    StepKeepsCore(net, s, ev);
    StepKeepsContent(net, s, ev);
  }

  // ---- the files of a batch, by content

  lemma {:induction false} NewFilesHas(folder: Folder, names: seq<Name>, committed: set<Name>, f: File)
    ensures f in NewFiles(folder, names, committed) <==>
            exists i | 0 <= i < |names| :: names[i] in folder && names[i] !in committed && folder[names[i]] == f
  {
    if names == [] {
    } else {
      var k := |names| - 1;
      NewFilesHas(folder, names[..k], committed, f);
      assert forall i | 0 <= i < k :: names[..k][i] == names[i];
    }
  }

  /** Exactly the uncovered files, contents included. */
  ghost predicate IsUncovered(files: seq<File>, folder: Folder, committed: set<Name>) {
    forall f :: f in files <==> exists n :: n in folder && n !in committed && folder[n] == f
  }

  lemma NewFilesExact(folder: Folder, names: seq<Name>, committed: set<Name>)
    requires Listing(names, folder)
    ensures IsUncovered(NewFiles(folder, names, committed), folder, committed)
  {
    hide NewFiles;
    forall f
      ensures f in NewFiles(folder, names, committed) <==> exists n :: n in folder && n !in committed && folder[n] == f
    {
      NewFilesHas(folder, names, committed, f);
      assert forall n :: n in SetOf(names) <==> n in folder;
    }
  }
}
