/** One run for one nas, from reading the checkpoint to clearing it. */
module Aggregator {
  import opened Text
  import opened Address
  import opened FlowLine
  import opened Traffic
  import opened Cells
  import opened Accumulator
  import opened Sift
  import opened Billing
  import opened BillingSafety
  import opened BillingHistory
  import opened BillingRecovery
  import opened Database
  import opened Host
  import opened Storage

  /** Moves the flow files into tmp one by one, then streams tmp. */
  method PrepareAndStream(h: NasHost, skipFileNames: set<Name>, acc: FlowAccumulator)
    returns (ok: bool, fileNameList: seq<Name>, ghost files: seq<File>)
    requires h.Valid() && h.s.worker.Busy? && h.Pc().ListSpool? && acc.Valid()
    requires skipFileNames == h.s.worker.committed && acc.lines == []
    requires {h, h.db} !! {acc} + acc.Inner()
    modifies h, h.db, acc, acc.Inner()
    ensures h.Valid() && h.Continues() && acc.Valid() && fresh(acc.Inner() - old(acc.Inner()))
    ensures h.s.worker == if ok then old(h.s.worker).(pc := Read(fileNameList, [], files)) else Idle
    ensures ok ==> acc.lines == AllLines(files)
  {
    hide NasHost.Recorded, NasHost.Coupled, NasHost.OthersKept, NasHost.Blameless, FlowAccumulator.Holds, IsFlowName,
         FlowNames;
    ok, fileNameList, files := false, [], [];
    var err, names := ReadFileNamesInFlowDir(h);
    if err != DirError.NoError {
      return;
    }
    ghost var all := FlowNames(names);
    FlowNamesEnds(names);
    assert all[0..] == all;
    for i := 0 to |names|
      modifies h, h.db
      invariant h.Valid() && h.Continues()
      invariant FlowNames(names[..i]) <= all
      invariant h.s.worker == old(h.s.worker).(pc := Move(all[|FlowNames(names[..i])|..]))
    {
      FlowNamesStep(names, i);
      FlowNamesPrefix(names, i + 1);
      if IsFlowName(names[i]) {
        assert all[|FlowNames(names[..i])|] == names[i];
        ok := MoveFlowToTempDir(h, names[i]);
        if !ok {
          return;
        }
      }
    }
    var flowSize;
    ok, fileNameList, flowSize, files := StreamFlow(h, skipFileNames, acc);
  }

  lemma FlowNamesEnds(names: seq<Name>)
    ensures FlowNames(names[..0]) == [] && FlowNames(names[..|names|]) == FlowNames(names)
  {
    assert names[..|names|] == names;
  }

  /** True iff some name is not committed. */
  method HasNewFile(fileNameList: seq<Name>, committed: set<Name>) returns (found: bool)
    ensures found <==> !(SetOf(fileNameList) <= committed)
  {
    for i := 0 to |fileNameList|
      invariant forall k | 0 <= k < i :: fileNameList[k] in committed
    {
      if fileNameList[i] !in committed {
        assert fileNameList[i] in SetOf(fileNameList);
        return true;
      }
    }
    return false;
  }

  /** Deletes the swept files and, only if that succeeded, the checkpoint. */
  method RemoveOldFlow(h: NasHost)
    requires h.Valid() && h.s.worker.Busy? && h.Pc().Unlink?
    modifies h, h.db
    ensures h.Valid() && h.Continues() && h.s.worker.Idle?
  {
    hide NasHost.Recorded, NasHost.Coupled, NasHost.OthersKept, NasHost.Blameless;
    var ok := RemoveOld(h);
    if ok {
      h.Interfere();
      var cleared;
      ghost var applied;
      cleared, applied := h.ClearRows();
    }
  }

  /** The rows the sift makes of the accumulated traffic are the rows the batch owes. */
  method SiftAccumulated(acc: FlowAccumulator, m: map<string, CellTable>, sessionList: seq<OnlineSession>)
    returns (chunkList: seq<Chunk>, status: Status)
    requires acc.Valid() && m == acc.trafficMap && sessionList != []
    ensures multiset(chunkList) == RowsOwed(Job(sessionList, acc.channels), acc.Taken())
    ensures status == if multiset(chunkList) == multiset{} then NoData else Fine
  {
    hide RowsOwedTo, SiftRows, Tally;
    chunkList, status := SiftTraffic(acc.channels, m, sessionList);
    SiftIsOwed(sessionList, acc.channels, acc.Taken());
    assert |multiset(chunkList)| == |chunkList|;
  }

  /** What a run does after the stream. */
  datatype Outcome = Replay | LeftInTmp | NothingToBill | ToSave

  /** When each outcome is the right one. */
  ghost predicate Fits(outcome: Outcome, rows: multiset<Chunk>, job: Job, isReplay: bool, seen: seq<Seen>) {
    match outcome
    case Replay => isReplay
    case LeftInTmp => !isReplay && StatusOf(seen) == InternalError
    case NothingToBill =>
      !isReplay && (StatusOf(seen) == NoData || (StatusOf(seen) == Fine && RowsOwed(job, seen) == multiset{}))
    case ToSave => !isReplay && StatusOf(seen) == Fine && rows == RowsOwed(job, seen) && rows != multiset{}
  }

  /** The verdict of the protocol is that of the code. */
  lemma DecideFits(net: Net, s: State, outcome: Outcome, rows: multiset<Chunk>)
    requires s.worker.Busy? && s.worker.pc.Read?
    requires Fits(outcome, rows, s.worker.job, SetOf(s.worker.pc.names) <= s.worker.committed,
                  SeeAll(net, AllLines(s.worker.pc.files)))
    ensures Decide(net, s) ==
            match outcome
            case Replay => Goto(s, Unlink(NothingNew))
            case LeftInTmp => Stop(s)
            case NothingToBill => Goto(s, Unlink(AfterNoData(s.worker.pc.files)))
            case ToSave => Goto(s, Save(s.worker.pc.names, s.worker.pc.files, rows))
  {
    hide StatusOf, RowsOwed, AllLines, SeeAll;
  }

  /** The verdict on what the accumulator has taken, with the rows if there are any to save. */
  method TakeVerdict(acc: FlowAccumulator, committed: set<Name>, sessionList: seq<OnlineSession>,
                     fileNameList: seq<Name>)
    returns (outcome: Outcome, chunkList: seq<Chunk>)
    requires acc.Valid() && sessionList != []
    ensures Fits(outcome, multiset(chunkList), Job(sessionList, acc.channels), SetOf(fileNameList) <= committed,
                 acc.Taken())
  {
    hide FlowAccumulator.Valid, RowsOwed, StatusOf;
    chunkList := [];
    assert acc.Inner() !! {acc};
    var hasNew := HasNewFile(fileNameList, committed);
    if !hasNew {
      return Replay, chunkList;
    }
    var m, status := acc.Result();
    if status == Fine {
      chunkList, status := SiftAccumulated(acc, m, sessionList);
    }
    outcome := if status == InternalError then LeftInTmp else if status == NoData then NothingToBill else ToSave;
  }

  /** From the end of the stream to the end of the run. */
  method FinishRun(h: NasHost, acc: FlowAccumulator, committed: set<Name>, sessionList: seq<OnlineSession>,
                   fileNameList: seq<Name>, ghost files: seq<File>)
    requires h.Valid() && acc.Valid() && sessionList != []
    requires h.s.worker == Busy(Job(sessionList, acc.channels), committed, Read(fileNameList, [], files))
    requires acc.net == h.net && acc.lines == AllLines(files)
    requires {h, h.db} !! {acc} + acc.Inner()
    modifies h, h.db
    ensures h.Valid() && h.Continues() && h.s.worker.Idle?
  {
    hide NasHost.Valid, FlowAccumulator.Valid, AllLines, Fits, Decide, Added, RowsFor, RowsOf, SetOf, SeeAll;
    var outcome, chunkList := TakeVerdict(acc, committed, sessionList, fileNameList);
    DecideFits(h.net, h.s, outcome, multiset(chunkList));
    h.ReachVerdict();
    match outcome
    case LeftInTmp =>
    case Replay => RemoveOldFlow(h);
    case NothingToBill => RemoveOldFlow(h);
    case ToSave =>
      h.Interfere();
      var ok;
      ghost var applied;
      ok, applied := h.SaveRows(chunkList, fileNameList);
      if ok {
        RemoveOldFlow(h);
      }
  }

  /** One run for a nas. Whatever fails, arrives or is committed elsewhere meanwhile, the record stays a
      legal run of the protocol ending with the worker idle; and if the directory was ready and nothing
      failed, tmp and the checkpoint are empty unless nothing new in tmp can be classified. */
  method Aggregate(h: NasHost, sessionList: seq<OnlineSession>, channelMap: ChannelMap)
    requires h.Valid() && h.s.worker.Idle? && sessionList != []
    modifies h, h.db
    ensures h.Valid() && h.s.worker.Idle?
    ensures h.start == old(h.start) && old(h.trace) < h.trace
    ensures h.trace[|old(h.trace)|] == Event.Begin(Job(sessionList, channelMap))
    ensures RowsOf(h.db.chunk, h.nasIp) == h.rowsBefore + BilledRows(h.s.ledger)
    ensures h.OthersKept()
    ensures Ready(old(h.s)) && !FaultSince(h.trace, |old(h.trace)| + 1) ==> Clean(h.s) || Unreadable(h.net, h.s)
    ensures FaultSince(h.trace, |old(h.trace)| + 1) ==>
              old(h.Faults()) < h.Faults() || ObstacleSince(h.trace, |old(h.trace)| + 1)
  {
    hide NasHost.Valid, NasHost.OthersKept, NasHost.Blameless, FlowAccumulator.Valid, Ready, FaultSince, Clean,
         Unreadable, BilledRows, RowsOf, AllLines;
    ghost var job := Job(sessionList, channelMap);
    h.Begin(job);
    h.Interfere();
    var ok, committed := h.LoadNames();
    if ok {
      var acc := new FlowAccumulator(h.net, channelMap);
      var fileNameList;
      ghost var files;
      ok, fileNameList, files := PrepareAndStream(h, committed, acc);
      if ok {
        FinishRun(h, acc, committed, sessionList, fileNameList, files);
      }
    }
    h.EndsOnTrack();
    h.FailsForAReason();
    h.RowsAreExact();
    h.OthersAreKept();
  }
}
