/**
 The main results about whole runs of the billing protocol, from the invariant.
 A run may contain any arrivals, failures, panics, crashes and restarts.
 */
module BillingHistory {
  import opened Text
  import opened Address
  import opened FlowLine
  import opened Traffic
  import opened Sums
  import opened Accumulator
  import opened Sift
  import opened Billing
  import opened BillingSafety

  lemma {:induction false} RunKeeps(net: Net, s: State, evs: seq<Event>)
    requires Inv(net, s)
    ensures Inv(net, After(net, s, evs))
  {
    hide Inv, Apply, CanTake;
    if evs == [] {
    } else {
      var before := evs[..|evs| - 1];
      RunKeeps(net, s, before);
      if CanTake(After(net, s, before), evs[|evs| - 1]) {
        StepKeeps(net, After(net, s, before), evs[|evs| - 1]);
      }
    }
  }

  // ---- one commit

  /** The scanner got through every file the run has read. */
  ghost predicate ReadThrough(s: State) {
    forall f | f in FilesOf(s.worker) :: Scannable(f.content)
  }

  lemma StepReadsThrough(net: Net, s: State, ev: Event)
    requires ReadThrough(s) && CanTake(s, ev)
    ensures ReadThrough(Apply(net, s, ev))
  {
    hide Decide, Scannable, IsFlowName, FlowNames, Listing, FateOf;
    if ev.Decided? {
      DecideKeepsFiles(net, s);
    }
  }

  lemma {:induction false} RunReadsThrough(net: Net, s: State, evs: seq<Event>)
    requires ReadThrough(s)
    ensures ReadThrough(After(net, s, evs))
  {
    hide Apply, CanTake, ReadThrough;
    if evs == [] {
    } else {
      var before := evs[..|evs| - 1];
      RunReadsThrough(net, s, before);
      if CanTake(After(net, s, before), evs[|evs| - 1]) {
        StepReadsThrough(net, After(net, s, before), evs[|evs| - 1]);
      }
    }
  }

  /** What a transaction about to be committed holds, in any run: the rows owed by all the lines of exactly
      the files in tmp that the checkpoint does not cover, each as it arrived, each once and each read to its
      end; with it the checkpoint comes to cover all of tmp. */
  lemma CommitIsExact(net: Net, s: State, evs: seq<Event>)
    requires Init(s) && CanTake(After(net, s, evs), Committed)
    ensures var t := After(net, s, evs);
      var files := t.worker.pc.files;
      && t.worker.pc.rows == RowsOwed(t.worker.job, SeeAll(net, AllLines(files)))
      && IsUncovered(files, t.tmp, t.checkpoint) && DistinctFiles(files) && AllGenuine(t.arrived, files)
      && (forall f | f in files :: Scannable(f.content))
      && Saved(t).checkpoint == t.checkpoint + t.tmp.Keys
  {
    InitInv(net, s);
    RunKeeps(net, s, evs);
    InitIdleReads(s);
    RunReadsThrough(net, s, evs);
    SaveMeans(net, After(net, s, evs));
  }

  lemma InitIdleReads(s: State)
    requires Init(s)
    ensures ReadThrough(s)
  {
    hide NamesOk, IdsOk;
  }

  lemma SaveMeans(net: Net, t: State)
    requires Inv(net, t) && CanTake(t, Committed) && ReadThrough(t)
    ensures var files := t.worker.pc.files;
      && t.worker.pc.rows == RowsOwed(t.worker.job, SeeAll(net, AllLines(files)))
      && IsUncovered(files, t.tmp, t.checkpoint) && DistinctFiles(files) && AllGenuine(t.arrived, files)
      && (forall f | f in files :: Scannable(f.content))
      && Saved(t).checkpoint == t.checkpoint + t.tmp.Keys
  {
    hide IdsOk, BilledOk, LedgerOk, FatesOk, NamesOk, Listing, NewFiles, Judge, AllLines, Scannable, RowsOwed, FileIds,
         IsUncovered, AllGenuine, FolderGenuine, LedgerGenuine, FatesGenuine;
    SaveIsBatch(net, t);
    OwedMeans(net, t.worker.job, AllLines(t.worker.pc.files), t.worker.pc.rows);
    NewFilesExact(t.tmp, t.worker.pc.names, t.worker.committed);
  }

  /** The batch a verdict is passed on, in any run: exactly the files in tmp that the checkpoint does not
      cover, each as it arrived. An unrecognised batch ends the run there, and nothing is deleted. */
  lemma VerdictIsExact(net: Net, s: State, evs: seq<Event>)
    requires Init(s) && CanTake(After(net, s, evs), Decided)
    ensures var t := After(net, s, evs);
      var Busy(job, _, Read(_, _, files)) := t.worker;
      && IsUncovered(files, t.tmp, t.checkpoint) && DistinctFiles(files) && AllGenuine(t.arrived, files)
      && (t.tmp.Keys <= t.checkpoint ==> Decide(net, t) == Goto(t, Unlink(NothingNew)))
      && (!(t.tmp.Keys <= t.checkpoint) && StatusOf(SeeAll(net, AllLines(files))) == InternalError ==>
            Decide(net, t) == Stop(t))
  {
    InitInv(net, s);
    RunKeeps(net, s, evs);
    VerdictMeans(net, After(net, s, evs));
  }

  lemma VerdictMeans(net: Net, t: State)
    requires Inv(net, t) && CanTake(t, Decided)
    ensures var Busy(job, _, Read(_, _, files)) := t.worker;
      && IsUncovered(files, t.tmp, t.checkpoint) && DistinctFiles(files) && AllGenuine(t.arrived, files)
      && (t.tmp.Keys <= t.checkpoint ==> Decide(net, t) == Goto(t, Unlink(NothingNew)))
      && (!(t.tmp.Keys <= t.checkpoint) && StatusOf(SeeAll(net, AllLines(files))) == InternalError ==>
            Decide(net, t) == Stop(t))
  {
    hide IdsOk, BilledOk, LedgerOk, FatesOk, NamesOk, NewFiles, AllLines, FileIds, StatusOf, SeeAll, RowsOwed,
         IsUncovered, AllGenuine, FolderGenuine, LedgerGenuine, FatesGenuine;
    var Busy(job, committed, Read(names, todo, files)) := t.worker;
    assert names + todo == names;
    NewFilesExact(t.tmp, names, committed);
    NewFilesOnce(net, t);
  }

  lemma NewFilesOnce(net: Net, t: State)
    requires Inv(net, t) && t.worker.Busy? && t.worker.pc.Read? && t.worker.pc.todo == []
    ensures DistinctFiles(t.worker.pc.files)
  {
    hide BilledOk, LedgerOk, FatesOk, NamesOk, ContentOk;
    var Busy(job, committed, Read(names, todo, files)) := t.worker;
    assert names + todo == names;
    NewFilesDistinct(t.tmp, names, committed);
  }

  lemma OwedMeans(net: Net, job: Job, lines: seq<string>, rows: multiset<Chunk>)
    requires Judge(net, job, lines) == Owed(rows)
    ensures rows == RowsOwed(job, SeeAll(net, lines))
  {
    hide RowsOwed, SeeAll;
  }

  // ---- at most once

  /** No file is in two transactions, and none twice in one. */
  ghost predicate BilledOnce(ledger: seq<Batch>) {
    && (forall i, j | 0 <= i < j < |ledger| :: FileIds(ledger[i].files) !! FileIds(ledger[j].files))
    && (forall i | 0 <= i < |ledger| :: DistinctFiles(ledger[i].files))
  }

  /** Every transaction inserted exactly the rows its files owe. */
  ghost predicate BilledRight(net: Net, ledger: seq<Batch>) {
    forall i | 0 <= i < |ledger| ::
      ledger[i].rows == RowsOwed(ledger[i].job, SeeAll(net, AllLines(ledger[i].files)))
  }

  lemma LedgerMeaning(net: Net, ledger: seq<Batch>)
    requires LedgerOk(net, ledger)
    ensures BilledOnce(ledger) && BilledRight(net, ledger)
  {
    hide LedgerOk, FileIds, RowsOwed, SeeAll, AllLines;
    assert BilledOnce(ledger) by {
      forall i | 0 <= i < |ledger|
        ensures DistinctFiles(ledger[i].files)
      {
        BatchAt(net, ledger, i);
      }
      forall i, j | 0 <= i < j < |ledger|
        ensures FileIds(ledger[i].files) !! FileIds(ledger[j].files)
      {
        BatchesApart(net, ledger, i, j);
      }
    }
    assert BilledRight(net, ledger) by {
      forall i | 0 <= i < |ledger|
        ensures ledger[i].rows == RowsOwed(ledger[i].job, SeeAll(net, AllLines(ledger[i].files)))
      {
        BatchAt(net, ledger, i);
      }
    }
  }

  lemma {:induction false} BatchAt(net: Net, ledger: seq<Batch>, i: nat)
    requires LedgerOk(net, ledger) && i < |ledger|
    ensures DistinctFiles(ledger[i].files)
    ensures ledger[i].rows == RowsOwed(ledger[i].job, SeeAll(net, AllLines(ledger[i].files)))
  {
    hide BatchOk, RowsOwed, DistinctFiles, SeeAll, AllLines, FileIds, BilledIds;
    var k := |ledger| - 1;
    if i < k {
      BatchAt(net, ledger[..k], i);
      assert ledger[..k][i] == ledger[i];
    } else {
      BatchMeaning(net, ledger[k]);
    }
  }

  lemma {:induction false} BatchesApart(net: Net, ledger: seq<Batch>, i: nat, j: nat)
    requires LedgerOk(net, ledger) && i < j < |ledger|
    ensures FileIds(ledger[i].files) !! FileIds(ledger[j].files)
  {
    hide BatchOk;
    var k := |ledger| - 1;
    assert ledger[..k][i] == ledger[i];
    if j < k {
      BatchesApart(net, ledger[..k], i, j);
      assert ledger[..k][j] == ledger[j];
    } else {
      BilledIncludes(ledger[..k], i);
    }
  }

  lemma BatchMeaning(net: Net, b: Batch)
    requires BatchOk(net, b)
    ensures DistinctFiles(b.files) && b.rows == RowsOwed(b.job, SeeAll(net, AllLines(b.files)))
  {
  }

  lemma {:induction false} BilledIncludes(ledger: seq<Batch>, i: nat)
    requires i < |ledger|
    ensures FileIds(ledger[i].files) <= BilledIds(ledger)
  {
    var k := |ledger| - 1;
    if i < k {
      BilledIncludes(ledger[..k], i);
    }
  }

  /** At-most-once billing over every run, every commit right, and every billed file as it arrived. */
  lemma AtMostOnce(net: Net, s: State, evs: seq<Event>)
    requires Init(s)
    ensures BilledOnce(After(net, s, evs).ledger)
    ensures BilledRight(net, After(net, s, evs).ledger)
    ensures LedgerGenuine(After(net, s, evs).arrived, After(net, s, evs).ledger)
  {
    hide BilledOnce, BilledRight, LedgerGenuine;
    InitInv(net, s);
    RunKeeps(net, s, evs);
    LedgerParts(net, After(net, s, evs));
    LedgerMeaning(net, After(net, s, evs).ledger);
  }

  lemma LedgerParts(net: Net, t: State)
    requires Inv(net, t)
    ensures LedgerOk(net, t.ledger) && LedgerGenuine(t.arrived, t.ledger)
  {
    hide NamesOk, IdsOk, BilledOk, FatesOk, WorkerOk, LedgerOk, LedgerGenuine;
  }

  // ---- no silent loss

  datatype Place = InSpool | InTmpNew | InTmpBilled | DeletedBilled | DeletedWithoutRows

  /** The file that arrived under this id. */
  function Arrival(s: State, id: nat): File
    requires id in s.arrived
  {
    File(id, s.arrived[id])
  }

  ghost predicate Within(folder: Folder, f: File) {
    exists n :: n in folder && folder[n] == f
  }

  /** Some committed transaction covers this file. */
  ghost predicate InLedger(ledger: seq<Batch>, f: File) {
    exists i | 0 <= i < |ledger| :: f in ledger[i].files
  }

  /** Deleted by the sweep of a batch with this very file in it, recognised and owing no rows. */
  ghost predicate SweptWithoutRows(net: Net, fate: Fate, f: File) {
    fate.WithoutRows? && f in fate.files && Judge(net, fate.job, AllLines(fate.files)) == NothingOwed
  }

  ghost predicate At(net: Net, s: State, id: nat, place: Place)
    requires id in s.arrived
  {
    var f := Arrival(s, id);
    match place
    case InSpool => Within(s.spool, f) && id !in s.fate && !InLedger(s.ledger, f)
    case InTmpNew => Within(s.tmp, f) && id !in s.fate && !InLedger(s.ledger, f)
    case InTmpBilled => Within(s.tmp, f) && id !in s.fate && InLedger(s.ledger, f)
    case DeletedBilled => id in s.fate && s.fate[id].Billed? && InLedger(s.ledger, f)
    case DeletedWithoutRows => id in s.fate && !InLedger(s.ledger, f) && SweptWithoutRows(net, s.fate[id], f)
  }

  ghost predicate InOnePlace(net: Net, s: State, id: nat)
    requires id in s.arrived
  {
    exists place :: At(net, s, id, place) && forall other :: At(net, s, id, other) ==> other == place
  }

  /** Each file that ever arrived, contents included, is in exactly one place; a file deleted unbilled
      was in the batch its run swept, and that batch was recognised and owed no rows. */
  lemma NoSilentLoss(net: Net, s: State, evs: seq<Event>, id: nat)
    requires Init(s) && id in After(net, s, evs).arrived
    ensures InOnePlace(net, After(net, s, evs), id)
  {
    InitInv(net, s);
    RunKeeps(net, s, evs);
    var t := After(net, s, evs);
    OnePlace(net, t, id);
  }

  lemma OnePlace(net: Net, t: State, id: nat)
    requires Inv(net, t) && id in t.arrived
    ensures InOnePlace(net, t, id)
  {
    hide Inv, Within, InLedger, Held, SweptWithoutRows;
    PlacesApart(net, t, id);
    WhereHeld(net, t, id);
    if id in t.fate {
      FateMeans(net, t, id);
    }
    var f := Arrival(t, id);
    var billed := InLedger(t.ledger, f);
    var place := if Within(t.spool, f) then InSpool
                 else if Within(t.tmp, f) then (if billed then InTmpBilled else InTmpNew)
                 else if billed then DeletedBilled else DeletedWithoutRows;
    assert At(net, t, id, place);
    assert forall other :: At(net, t, id, other) ==> other == place;
  }

  /** A file is billed exactly when its id is. */
  lemma InLedgerMeans(arrived: map<nat, string>, ledger: seq<Batch>, id: nat)
    requires LedgerGenuine(arrived, ledger) && id in arrived
    ensures InLedger(ledger, File(id, arrived[id])) <==> id in BilledIds(ledger)
  {
    hide AllGenuine;
    if id in BilledIds(ledger) {
      var i := BilledIn(ledger, id);
      ListedAsArrived(arrived, ledger[i].files, id);
    }
    if InLedger(ledger, File(id, arrived[id])) {
      var i :| 0 <= i < |ledger| && File(id, arrived[id]) in ledger[i].files;
      BilledIncludes(ledger, i);
      var k :| 0 <= k < |ledger[i].files| && ledger[i].files[k] == File(id, arrived[id]);
      FileIdsMeaning(ledger[i].files, id);
    }
  }

  lemma {:induction false} BilledIn(ledger: seq<Batch>, id: nat) returns (i: nat)
    requires id in BilledIds(ledger)
    ensures i < |ledger| && id in FileIds(ledger[i].files)
  {
    var k := |ledger| - 1;
    if id in FileIds(ledger[k].files) {
      i := k;
    } else {
      i := BilledIn(ledger[..k], id);
    }
  }

  /** Among genuine files the one with an id is the one that arrived under it. */
  lemma ListedAsArrived(arrived: map<nat, string>, files: seq<File>, id: nat)
    requires AllGenuine(arrived, files) && id in FileIds(files)
    ensures id in arrived && File(id, arrived[id]) in files
  {
    FileIdsMeaning(files, id);
    var k :| 0 <= k < |files| && files[k].id == id;
    assert Genuine(arrived, files[k]);
  }

  lemma HeldAsArrived(arrived: map<nat, string>, folder: Folder, id: nat)
    requires FolderGenuine(arrived, folder) && id in arrived
    ensures Held(folder, id) <==> Within(folder, File(id, arrived[id]))
  {
    if Held(folder, id) {
      var n :| n in folder && folder[n].id == id;
      assert folder[n] == File(id, arrived[id]);
    }
  }

  lemma WhereHeld(net: Net, t: State, id: nat)
    requires Inv(net, t) && id in t.arrived
    ensures Held(t.spool, id) <==> Within(t.spool, Arrival(t, id))
    ensures Held(t.tmp, id) <==> Within(t.tmp, Arrival(t, id))
    ensures InLedger(t.ledger, Arrival(t, id)) <==> id in BilledIds(t.ledger)
  {
    hide Core, Within, InLedger, Held, FolderGenuine, LedgerGenuine, FatesGenuine, AllGenuine;
    HeldAsArrived(t.arrived, t.spool, id);
    HeldAsArrived(t.arrived, t.tmp, id);
    InLedgerMeans(t.arrived, t.ledger, id);
  }

  lemma PlacesApart(net: Net, t: State, id: nat)
    requires Inv(net, t) && id in t.arrived
    ensures Held(t.spool, id) ==> !Held(t.tmp, id) && id !in t.fate && id !in BilledIds(t.ledger)
    ensures Held(t.tmp, id) ==> id !in t.fate
    ensures Held(t.spool, id) || Held(t.tmp, id) || id in t.fate
  {
    hide NamesOk, LedgerOk, FatesOk, WorkerOk, ContentOk, BilledIds;
  }

  lemma FateMeans(net: Net, t: State, id: nat)
    requires Inv(net, t) && id in t.arrived && id in t.fate
    ensures if t.fate[id].Billed? then id in BilledIds(t.ledger)
            else id !in BilledIds(t.ledger) && SweptWithoutRows(net, t.fate[id], Arrival(t, id))
  {
    hide NamesOk, IdsOk, BilledOk, LedgerOk, WorkerOk, Judge, AllGenuine, FolderGenuine, LedgerGenuine;
    assert FateOk(net, BilledIds(t.ledger), id, t.fate[id]);
    if t.fate[id].WithoutRows? {
      ListedAsArrived(t.arrived, t.fate[id].files, id);
    }
  }

  /** Whenever a run is about to delete a file of tmp, in any history, that file is covered and was billed,
      or it is in the batch the run has just read, and that batch was recognised and owed no rows. So no
      unrecognised batch and no failed stream ever leads to a deletion. */
  lemma DeletionIsJustified(net: Net, s: State, evs: seq<Event>, n: Name)
    requires Init(s) && CanTake(After(net, s, evs), Unlinked(n))
    ensures var t := After(net, s, evs);
      var f, why := t.tmp[n], t.worker.pc.why;
      && Genuine(t.arrived, f)
      && if n in t.checkpoint then InLedger(t.ledger, f)
         else
           && why.AfterNoData? && f in why.files && AllGenuine(t.arrived, why.files)
           && Judge(net, t.worker.job, AllLines(why.files)) == NothingOwed
           && StatusOf(SeeAll(net, AllLines(why.files))) != InternalError
  {
    InitInv(net, s);
    RunKeeps(net, s, evs);
    SweepMeans(net, After(net, s, evs), n);
  }

  lemma SweepMeans(net: Net, t: State, n: Name)
    requires Inv(net, t) && CanTake(t, Unlinked(n))
    ensures var f, why := t.tmp[n], t.worker.pc.why;
      && Genuine(t.arrived, f)
      && if n in t.checkpoint then InLedger(t.ledger, f)
         else
           && why.AfterNoData? && f in why.files && AllGenuine(t.arrived, why.files)
           && Judge(net, t.worker.job, AllLines(why.files)) == NothingOwed
           && StatusOf(SeeAll(net, AllLines(why.files))) != InternalError
  {
    hide NamesOk, IdsOk, LedgerOk, FatesOk, AllLines, InLedger, StatusOf, SeeAll, RowsOwed, AllGenuine, LedgerGenuine,
         FatesGenuine, BilledIds, FileIds;
    var f := t.tmp[n];
    assert Genuine(t.arrived, f);
    if n in t.checkpoint {
      InLedgerMeans(t.arrived, t.ledger, f.id);
    } else {
      ListedAsArrived(t.arrived, t.worker.pc.why.files, f.id);
    }
  }

  // ---- history is never rewritten

  ghost predicate Extends(s: State, t: State) {
    && s.ledger <= t.ledger
    && (forall id | id in s.arrived :: id in t.arrived && t.arrived[id] == s.arrived[id])
    && forall id | id in s.fate :: id in t.fate && t.fate[id] == s.fate[id]
  }

  /** A commit and a deletion are final: no later event of any run takes them back. */
  lemma {:induction false} HistoryGrows(net: Net, s: State, evs: seq<Event>)
    requires Inv(net, s)
    ensures Extends(s, After(net, s, evs))
  {
    if evs == [] {
    } else {
      var before, ev := evs[..|evs| - 1], evs[|evs| - 1];
      HistoryGrows(net, s, before);
      RunKeeps(net, s, before);
      var t := After(net, s, before);
      if CanTake(t, ev) {
        StepGrows(net, t, ev);
      }
    }
  }

  lemma StepGrows(net: Net, t: State, ev: Event)
    requires CanTake(t, ev)
    requires IdsOk(t.spool, t.tmp, t.arrived.Keys, t.fate.Keys)
    ensures Extends(t, Apply(net, t, ev))
  {
    hide Decide;
    if ev.Unlinked? {
      assert t.tmp[ev.name].id !in t.fate;
    } else if !ev.Arrive? && !ev.Committed? && !ev.CommitFailed? {
      HistoryAlone(net, t, ev);
    }
  }

  lemma HistoryAlone(net: Net, t: State, ev: Event)
    requires CanTake(t, ev)
    requires !ev.Arrive? && !ev.Committed? && !ev.CommitFailed? && !ev.Unlinked?
    ensures var u := Apply(net, t, ev); u.ledger == t.ledger && u.arrived == t.arrived && u.fate == t.fate
  {
    hide Decide;
    if ev.Decided? {
      DecideAlone(net, t);
    }
  }

  // ---- what all transactions together billed

  function BilledLines(ledger: seq<Batch>): seq<string> {
    if ledger == [] then []
    else BilledLines(ledger[..|ledger| - 1]) + AllLines(ledger[|ledger| - 1].files)
  }

  function BilledRows(ledger: seq<Batch>): multiset<Chunk> {
    if ledger == [] then multiset{} else BilledRows(ledger[..|ledger| - 1]) + ledger[|ledger| - 1].rows
  }

  lemma BilledRowsSnoc(ledger: seq<Batch>, b: Batch)
    ensures BilledRows(ledger + [b]) == BilledRows(ledger) + b.rows
  {
    var all := ledger + [b];
    assert all[..|all| - 1] == ledger;
  }

  /** One direction of the rows of one session and channel. */
  function RowFor(sessId: int, c: ChannelId, up: bool): Chunk -> int {
    (row: Chunk) =>
      if row.sessId == sessId && row.channelId == c.id then (if up then row.upload else row.download) else 0
  }

  lemma SessionShare(sess: OnlineSession, other: OnlineSession, channels: ChannelMap, seen: seq<Seen>,
                     c: ChannelId, up: bool)
    requires c in Enabled(channels)
    requires other == sess || other.sessId != sess.sessId
    ensures MSum(SessionRows(other, channels, seen), RowFor(sess.sessId, c, up)) ==
            if other == sess then Side(Total(seen, sess.ip, c), up) else 0
  {
    var rows := RowSet(other, Enabled(channels), seen);
    MSumOfSet(rows, RowFor(sess.sessId, c, up));
    if other == sess {
      SessionRowsTotal(sess, channels, seen, c, up);
      MSumOfSet(rows, RowSide(c, up));
      SumSame(rows, RowFor(sess.sessId, c, up), RowSide(c, up));
    } else {
      SumZero(rows, RowFor(sess.sessId, c, up));
    }
  }

  lemma SessionsSplit(sessions: seq<OnlineSession>, sess: OnlineSession)
    requires sessions != [] && DistinctIds(sessions)
    requires forall i | 0 <= i < |sessions| :: sessions[i] == sess || sessions[i].sessId != sess.sessId
    ensures var rest, last := sessions[..|sessions| - 1], sessions[|sessions| - 1];
      && DistinctIds(rest) && (last == sess || last.sessId != sess.sessId)
      && (forall i | 0 <= i < |rest| :: rest[i] == sess || rest[i].sessId != sess.sessId)
      && (sess in sessions <==> last == sess || sess in rest) && !(last == sess && sess in rest)
  {
    var rest, last := sessions[..|sessions| - 1], sessions[|sessions| - 1];
    assert forall i | 0 <= i < |rest| :: rest[i] == sessions[i];
    assert sessions == rest + [last];
  }

  /** The rows owed to one session on one channel hold its total. */
  lemma {:induction false} SessionOwed(sessions: seq<OnlineSession>, channels: ChannelMap, seen: seq<Seen>,
                                       sess: OnlineSession, c: ChannelId, up: bool)
    requires c in Enabled(channels) && DistinctIds(sessions)
    requires forall i | 0 <= i < |sessions| :: sessions[i] == sess || sessions[i].sessId != sess.sessId
    ensures MSum(RowsOwedTo(sessions, channels, seen), RowFor(sess.sessId, c, up)) ==
            if sess in sessions then Side(Total(seen, sess.ip, c), up) else 0
  {
    hide Total, SessionRows, RowFor, Side, Enabled, DistinctIds;
    if sessions == [] {
    } else {
      var k := |sessions| - 1;
      var rest, last := sessions[..k], sessions[k];
      SessionsSplit(sessions, sess);
      SessionOwed(rest, channels, seen, sess, c, up);
      MSumUnion(RowsOwedTo(rest, channels, seen), SessionRows(last, channels, seen), RowFor(sess.sessId, c, up));
      SessionShare(sess, last, channels, seen, c, up);
    }
  }

  ghost predicate Serves(job: Job, sess: OnlineSession, c: ChannelId) {
    DistinctIds(job.sessions) && sess in job.sessions && c in Enabled(job.channels)
  }

  /** In every history: while a session stays online and a channel enabled, all the rows ever inserted for
      them add up to the traffic of all the lines of all the billed files, each as it arrived and taken once. */
  lemma LedgerTotal(net: Net, s: State, evs: seq<Event>, sess: OnlineSession, c: ChannelId, up: bool)
    requires Init(s)
    requires forall b | b in After(net, s, evs).ledger :: Serves(b.job, sess, c)
    ensures var t := After(net, s, evs);
      && BilledOnce(t.ledger) && LedgerGenuine(t.arrived, t.ledger)
      && MSum(BilledRows(t.ledger), RowFor(sess.sessId, c, up)) ==
         Side(Total(SeeAll(net, BilledLines(t.ledger)), sess.ip, c), up)
  {
    hide BilledOnce, LedgerGenuine, Serves, BilledRight;
    AtMostOnce(net, s, evs);
    InitInv(net, s);
    RunKeeps(net, s, evs);
    LedgerParts(net, After(net, s, evs));
    LedgerSum(net, After(net, s, evs).ledger, sess, c, up);
  }

  lemma {:induction false} LedgerSum(net: Net, ledger: seq<Batch>, sess: OnlineSession, c: ChannelId, up: bool)
    requires LedgerOk(net, ledger)
    requires forall i | 0 <= i < |ledger| :: Serves(ledger[i].job, sess, c)
    ensures MSum(BilledRows(ledger), RowFor(sess.sessId, c, up)) ==
            Side(Total(SeeAll(net, BilledLines(ledger)), sess.ip, c), up)
  {
    LedgerMeaning(net, ledger);
    if ledger == [] {
    } else {
      var k := |ledger| - 1;
      var rest, last := ledger[..k], ledger[k];
      assert forall i | 0 <= i < k :: rest[i] == ledger[i];
      LedgerSum(net, rest, sess, c, up);
      var seen := SeeAll(net, AllLines(last.files));
      MSumUnion(BilledRows(rest), last.rows, RowFor(sess.sessId, c, up));
      SessionOwedIn(last.job, seen, sess, c, up);
      SeeAllConcat(net, BilledLines(rest), AllLines(last.files));
      TotalConcat(SeeAll(net, BilledLines(rest)), seen, sess.ip, c);
    }
  }

  lemma SessionOwedIn(job: Job, seen: seq<Seen>, sess: OnlineSession, c: ChannelId, up: bool)
    requires Serves(job, sess, c)
    ensures MSum(RowsOwed(job, seen), RowFor(sess.sessId, c, up)) == Side(Total(seen, sess.ip, c), up)
  {
    var k :| 0 <= k < |job.sessions| && job.sessions[k] == sess;
    forall i | 0 <= i < |job.sessions| && i != k
      ensures job.sessions[i].sessId != sess.sessId
    {
    }
    SessionOwed(job.sessions, job.channels, seen, sess, c, up);
  }
}
