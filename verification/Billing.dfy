/**
 The billing protocol of one nas as a transition system. Each event is one I/O
 action of a run (or the arrival of a file); the event carries what the outside
 world chose. The process may stop between any two events.

 A regular file may be called tmp. Making tmp then finds the name taken and goes on, as if
 the directory were there; whatever needs the directory fails.

 Assumptions: rename and commit are atomic; an arriving file is new, and its name
 is used neither in the nas directory, nor in tmp, nor in the checkpoint.
 */
module Billing {
  import opened Text
  import opened Address
  import opened FlowLine
  import opened Traffic
  import opened Accumulator
  import opened Sift

  type Name = string

  /** The id tells files apart for good; names may be used again later. */
  datatype File = File(id: nat, content: string)

  type Folder = map<Name, File>

  /** The directory inside the nas directory that files are moved to; a file may have this name instead. */
  const TMP_NAME := "tmp"

  predicate IsFlowName(n: Name) { Contains(n, "ft-") }

  /** A flow file is one with the three characters somewhere in its name. */
  lemma FlowNameExactly(n: Name)
    ensures IsFlowName(n) <==> exists i | 0 <= i < |n| - 2 :: n[i] == 'f' && n[i + 1] == 't' && n[i + 2] == '-'
  {
    if IsFlowName(n) {
      var i :| 0 <= i <= |n| && "ft-" <= n[i..];
      assert n[i] == n[i..][0] && n[i + 1] == n[i..][1] && n[i + 2] == n[i..][2];
    }
    if i :| 0 <= i < |n| - 2 && n[i] == 'f' && n[i + 1] == 't' && n[i + 2] == '-' {
      assert n[i..i + 3] == "ft-" && n[i..][..3] == n[i..i + 3];
      assert "ft-" <= n[i..];
    }
  }

  /** A file still being written as tmp-n is kept apart only if n itself has no "ft-" in it:
      the mark is looked for anywhere in the name, not at its start. */
  lemma UnfinishedNameTaken(n: Name)
    ensures IsFlowName("tmp-" + n) <==> IsFlowName(n)
    ensures IsFlowName("tmp-ft-1") && !("ft-" <= "tmp-ft-1")
  {
    hide IsFlowName;
    PrefixTaken(n);
    PrefixTaken("ft-1");
    assert "tmp-" + "ft-1" == "tmp-ft-1";
    assert "ft-1"[0] == 'f' && "ft-1"[1] == 't' && "ft-1"[2] == '-';
    FlowNameExactly("ft-1");
    assert "tmp-ft-1"[0] != "ft-"[0];
  }

  lemma PrefixTaken(n: Name)
    ensures IsFlowName("tmp-" + n) <==> IsFlowName(n)
  {
    hide IsFlowName;
    var name := "tmp-" + n;
    FlowNameExactly(name);
    FlowNameExactly(n);
    assert name[0] == 't' && name[1] == 'm' && name[2] == 'p' && name[3] == '-';
    assert forall i | 4 <= i < |name| :: name[i] == n[i - 4];
    if IsFlowName(n) {
      var i :| 0 <= i < |n| - 2 && n[i] == 'f' && n[i + 1] == 't' && n[i + 2] == '-';
      assert name[i + 4] == 'f' && name[i + 5] == 't' && name[i + 6] == '-';
    }
  }

  function FlowNames(names: seq<Name>): seq<Name> {
    if names == [] then []
    else
      var n := names[|names| - 1];
      FlowNames(names[..|names| - 1]) + if IsFlowName(n) then [n] else []
  }

  // ---- the verdict on a batch of files

  datatype Verdict = Unrecognised | NothingOwed | Owed(rows: multiset<Chunk>)

  function AllLines(files: seq<File>): seq<string> {
    if files == [] then [] else AllLines(files[..|files| - 1]) + Lines(files[|files| - 1].content)
  }

  /** The lines of a batch are those of each of its files, one file after another. */
  lemma {:induction false} AllLinesExactly(files: seq<File>, i: nat)
    requires i < |files|
    ensures AllLines([]) == []
    ensures AllLines(files) == AllLines(files[..i]) + Lines(files[i].content) + AllLines(files[i + 1..])
  {
    hide Lines;
    var k := |files| - 1;
    if i < k {
      AllLinesExactly(files[..k], i);
      assert files[..k][..i] == files[..i] && files[..k][i] == files[i];
      assert files[i + 1..][..k - i - 1] == files[..k][i + 1..];
    } else {
      assert files[i + 1..] == [];
    }
  }

  function Judge(net: Net, job: Job, lines: seq<string>): Verdict {
    var seen := SeeAll(net, lines);
    match StatusOf(seen)
    case InternalError => Unrecognised
    case NoData => NothingOwed
    case Fine => var rows := RowsOwed(job, seen); if rows == multiset{} then NothingOwed else Owed(rows)
  }

  // ---- state

  /** One committed transaction: the files it covers and the rows it inserted. */
  datatype Batch = Batch(job: Job, files: seq<File>, rows: multiset<Chunk>)

  /** Why a deleted file was deleted. */
  datatype Fate = Billed | WithoutRows(job: Job, files: seq<File>) | Lost

  /** Why tmp is being swept. */
  datatype Sweep = AfterCommit | NothingNew | AfterNoData(files: seq<File>)

  /** The next I/O action of a run. */
  datatype Pc =
    | LoadCheckpoint
    | ListSpool
    | Move(todo: seq<Name>)
    | Rename(todo: seq<Name>)
    | Read(names: seq<Name>, todo: seq<Name>, files: seq<File>)
    | Save(names: seq<Name>, files: seq<File>, rows: multiset<Chunk>)
    | Unlink(why: Sweep)
    | Remake
    | WriteKeep
    | ClearCheckpoint

  datatype Worker = Idle | Busy(job: Job, committed: set<Name>, pc: Pc)

  /** spool is the nas directory itself. The ledger, the fates and the arrivals (the content each
      file arrived with, by its id) are history. */
  datatype State = State(
    spool: Folder, tmp: Folder, tmpExists: bool, checkpoint: set<Name>, worker: Worker,
    arrived: map<nat, string>, ledger: seq<Batch>, fate: map<nat, Fate>)

  /** Obstructed is a failure that the directories as they are make certain, see InTheWay. */
  datatype Cause = IoError | Panic | Crash | Obstructed

  datatype Event =
    | Arrive(name: Name, file: File)
    | Begin(job: Job)
    | Abort(cause: Cause)
    | Loaded
    | Listed(names: seq<Name>)
    | TmpEnsured
    | Renamed
    | TmpListed(names: seq<Name>)
    | TmpMissing
    | Skipped
    | FileRead
    | Decided
    | Committed
    | CommitFailed(applied: bool)
    | Unlinked(name: Name)
    | TmpRemoved
    | TmpMade
    | KeepWritten
    | Cleared
    | ClearFailed(applied: bool)

  ghost predicate NoDup(xs: seq<Name>) {
    forall i, j | 0 <= i < j < |xs| :: xs[i] != xs[j]
  }

  ghost predicate Listing(names: seq<Name>, folder: Folder) {
    NoDup(names) && SetOf(names) == folder.Keys
  }

  function FileIds(files: seq<File>): set<nat> {
    if files == [] then {} else FileIds(files[..|files| - 1]) + {files[|files| - 1].id}
  }

  function BilledIds(ledger: seq<Batch>): set<nat> {
    if ledger == [] then {} else BilledIds(ledger[..|ledger| - 1]) + FileIds(ledger[|ledger| - 1].files)
  }

  /** The files among names that the checkpoint does not cover, in order. */
  function NewFiles(folder: Folder, names: seq<Name>, committed: set<Name>): seq<File> {
    if names == [] then []
    else
      var n := names[|names| - 1];
      NewFiles(folder, names[..|names| - 1], committed) +
      if n in folder && n !in committed then [folder[n]] else []
  }

  // ---- steps

  ghost predicate CanTake(s: State, ev: Event) {
    match ev
    case Arrive(name, file) =>
      name !in s.spool && name !in s.tmp && name !in s.checkpoint && file.id !in s.arrived &&
      (name == TMP_NAME ==> !s.tmpExists)
    case Begin(job) => s.worker.Idle? && job.sessions != []
    case _ => s.worker.Busy? && CanTakeAt(s, s.worker.committed, s.worker.pc, ev)
  }

  /** The next action cannot succeed: there is no tmp to move to, the file at the head of the list has a line the
      scanner cannot hold, or a file has taken the name of tmp. */
  predicate InTheWay(s: State, committed: set<Name>, pc: Pc) {
    match pc
    case Rename(_) => !s.tmpExists
    case Read(_, todo, _) =>
      todo != [] && todo[0] !in committed && todo[0] in s.tmp && !Scannable(s.tmp[todo[0]].content)
    case Remake => TMP_NAME in s.spool
    case _ => false
  }

  ghost predicate CanTakeAt(s: State, committed: set<Name>, pc: Pc, ev: Event) {
    match ev
    case Abort(cause) => cause.Obstructed? ==> InTheWay(s, committed, pc)
    case Loaded => pc.LoadCheckpoint?
    case Listed(names) => pc.ListSpool? && Listing(names, s.spool)
    case TmpEnsured => pc.Move? && pc.todo != []
    case Renamed => pc.Rename? && pc.todo != [] && pc.todo[0] in s.spool && s.tmpExists
    case TmpListed(names) => pc.Move? && pc.todo == [] && s.tmpExists && Listing(names, s.tmp)
    case TmpMissing => pc.Move? && pc.todo == [] && !s.tmpExists
    case Skipped => pc.Read? && pc.todo != [] && pc.todo[0] in committed
    case FileRead =>
      pc.Read? && pc.todo != [] && pc.todo[0] !in committed && pc.todo[0] in s.tmp &&
      Scannable(s.tmp[pc.todo[0]].content)
    case Decided => pc.Read? && pc.todo == []
    case Committed => pc.Save?
    case CommitFailed(_) => pc.Save?
    case Unlinked(name) => pc.Unlink? && name in s.tmp
    case TmpRemoved => pc.Unlink? && s.tmp == map[]
    case TmpMade => pc.Remake? && TMP_NAME !in s.spool
    case KeepWritten => pc.WriteKeep?
    case Cleared => pc.ClearCheckpoint?
    case ClearFailed(_) => pc.ClearCheckpoint?
    case _ => false
  }

  function Goto(s: State, pc: Pc): State
    requires s.worker.Busy?
  {
    s.(worker := s.worker.(pc := pc))
  }

  function Stop(s: State): State { s.(worker := Idle) }

  /** The effect of the transaction that saves the rows and the whole list of names in tmp. */
  function Saved(s: State): State
    requires s.worker.Busy? && s.worker.pc.Save?
  {
    var pc := s.worker.pc;
    s.(checkpoint := s.checkpoint + SetOf(pc.names),
       ledger := s.ledger + [Batch(s.worker.job, pc.files, pc.rows)])
  }

  /** A deleted file was billed, or belonged to a batch that owed no rows, or is lost. */
  function FateOf(s: State, file: File): Fate
    requires s.worker.Busy? && s.worker.pc.Unlink?
  {
    if file.id in BilledIds(s.ledger) then Billed
    else
      match s.worker.pc.why
      case AfterNoData(files) => if file.id in FileIds(files) then WithoutRows(s.worker.job, files) else Lost
      case _ => Lost
  }

  function Decide(net: Net, s: State): State
    requires s.worker.Busy? && s.worker.pc.Read?
  {
    var Busy(job, committed, pc) := s.worker;
    if SetOf(pc.names) <= committed then Goto(s, Unlink(NothingNew))
    else
      match Judge(net, job, AllLines(pc.files))
      case Unrecognised => Stop(s)
      case NothingOwed => Goto(s, Unlink(AfterNoData(pc.files)))
      case Owed(rows) => Goto(s, Save(pc.names, pc.files, rows))
  }

  ghost function Apply(net: Net, s: State, ev: Event): State
    requires CanTake(s, ev)
  {
    match ev
    case Arrive(name, file) => s.(spool := s.spool[name := file], arrived := s.arrived[file.id := file.content])
    case Begin(job) => s.(worker := Busy(job, {}, LoadCheckpoint))
    case Abort(_) => Stop(s)
    case Loaded => s.(worker := Busy(s.worker.job, s.checkpoint, ListSpool))
    case Listed(names) => if names == [] then Stop(s) else Goto(s, Move(FlowNames(names)))
    case TmpEnsured => Goto(s.(tmpExists := s.tmpExists || TMP_NAME !in s.spool), Rename(s.worker.pc.todo))
    case Renamed =>
      var todo := s.worker.pc.todo;
      Goto(s.(spool := s.spool - {todo[0]}, tmp := s.tmp[todo[0] := s.spool[todo[0]]]), Move(todo[1..]))
    case TmpListed(names) => Goto(s, Read([], FlowNames(names), []))
    case TmpMissing => Stop(s)
    case Skipped =>
      var pc := s.worker.pc;
      Goto(s, Read(pc.names + [pc.todo[0]], pc.todo[1..], pc.files))
    case FileRead =>
      var pc := s.worker.pc;
      Goto(s, Read(pc.names + [pc.todo[0]], pc.todo[1..], pc.files + [s.tmp[pc.todo[0]]]))
    case Decided => Decide(net, s)
    case Committed => Goto(Saved(s), Unlink(AfterCommit))
    case CommitFailed(applied) => Stop(if applied then Saved(s) else s)
    case Unlinked(name) => s.(tmp := s.tmp - {name}, fate := s.fate[s.tmp[name].id := FateOf(s, s.tmp[name])])
    case TmpRemoved => Goto(s.(tmpExists := false), Remake)
    case TmpMade => Goto(s.(tmpExists := true), WriteKeep)
    case KeepWritten => Goto(s, ClearCheckpoint)
    case Cleared => Stop(s.(checkpoint := {}))
    case ClearFailed(applied) => Stop(if applied then s.(checkpoint := {}) else s)
  }

  // ---- runs

  ghost predicate Legal(net: Net, s: State, evs: seq<Event>) {
    evs == [] ||
    (Legal(net, s, evs[..|evs| - 1]) && CanTake(After(net, s, evs[..|evs| - 1]), evs[|evs| - 1]))
  }

  /** The state after the events; an event that is not enabled changes nothing. */
  ghost function After(net: Net, s: State, evs: seq<Event>): State {
    if evs == [] then s
    else
      var t := After(net, s, evs[..|evs| - 1]);
      if CanTake(t, evs[|evs| - 1]) then Apply(net, t, evs[|evs| - 1]) else t
  }

  lemma AfterSnoc(net: Net, s: State, evs: seq<Event>, ev: Event)
    requires CanTake(After(net, s, evs), ev)
    ensures After(net, s, evs + [ev]) == Apply(net, After(net, s, evs), ev)
    ensures Legal(net, s, evs) ==> Legal(net, s, evs + [ev])
  {
    var all := evs + [ev];
    assert all[..|all| - 1] == evs;
  }
}
