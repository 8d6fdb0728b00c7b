/** What a run that goes well does with the files, and when a recognised batch is swept without a row. */
module BillingOutcome {
  import opened Text
  import opened Address
  import opened FlowLine
  import opened Traffic
  import opened Accumulator
  import opened Sift
  import opened Billing
  import opened BillingSafety
  import opened BillingHistory
  import opened BillingRecovery

  // ---- no flow file is left outside

  /** No flow file waits in the nas directory but those the run is about to move. */
  ghost predicate Gathered(s: State) {
    match s.worker
    case Idle => NoFlowOutside(s, [])
    case Busy(_, _, pc) =>
      match pc
      case LoadCheckpoint => true
      case ListSpool => true
      case Move(todo) => NoFlowOutside(s, todo)
      case Rename(todo) => NoFlowOutside(s, todo)
      case _ => NoFlowOutside(s, [])
  }

  ghost predicate NoFlowOutside(s: State, todo: seq<Name>) {
    forall n | n in s.spool && IsFlowName(n) :: n in todo
  }

  lemma GatheredStep(net: Net, s: State, ev: Event)
    requires Gathered(s) && s.worker.Busy? && CanTake(s, ev) && !Fault(ev) && !ev.Arrive? && !ev.Begin?
    ensures Gathered(Apply(net, s, ev))
  {
    hide Decide, IsFlowName, FlowNames, Scannable, Listing, FateOf;
    if ev.Listed? {
      GatheredListing(s.spool, ev.names);
    } else if ev.Decided? {
      DecideCases(net, s);
    }
  }

  lemma GatheredListing(spool: Folder, names: seq<Name>)
    requires Listing(names, spool)
    ensures forall n | n in spool && IsFlowName(n) :: names != [] && n in FlowNames(names)
  {
    hide Listing, IsFlowName, FlowNames;
    forall n | n in spool && IsFlowName(n)
      ensures names != [] && n in FlowNames(names)
    {
      ListedNames(names, spool, n);
    }
  }

  lemma {:induction false} GatheredRun(net: Net, s: State, evs: seq<Event>)
    requires Gathered(s) && s.worker.Busy? && Legal(net, s, evs)
    requires forall i | 0 <= i < |evs| :: !Fault(evs[i]) && !evs[i].Begin? && !evs[i].Arrive?
    ensures Gathered(After(net, s, evs))
  {
    hide Gathered, Apply, CanTake;
    if evs == [] {
    } else {
      var k := |evs| - 1;
      assert forall i | 0 <= i < k :: evs[..k][i] == evs[i];
      GatheredRun(net, s, evs[..k]);
      OnlyBusyTakes(After(net, s, evs[..k]), evs[k]);
      GatheredStep(net, After(net, s, evs[..k]), evs[k]);
    }
  }

  lemma OnlyBusyTakes(s: State, ev: Event)
    requires CanTake(s, ev) && !ev.Arrive? && !ev.Begin?
    ensures s.worker.Busy?
  {
    hide CanTakeAt;
  }

  // ---- what becomes of the files

  /** A file that a run beginning now has to deal with: a flow file outside, or an uncovered one in tmp. */
  ghost predicate ToBill(s: State, f: File) {
    || (exists n :: n in s.spool && IsFlowName(n) && s.spool[n] == f)
    || (exists n :: n in s.tmp && n !in s.checkpoint && s.tmp[n] == f)
  }

  /** Billed, or swept with its batch, which was recognised and owed no rows. */
  ghost predicate DealtWith(net: Net, s: State, f: File) {
    InLedger(s.ledger, f) || (f.id in s.fate && SweptWithoutRows(net, s.fate[f.id], f))
  }

  /** Once a run has gone well, from any state of any history, no flow file is left outside, and every file it had to
      deal with has been billed, or swept with a recognised batch that owed no rows, or lies in tmp with a batch not
      one line of which can be classified. */
  lemma GoneWellBills(net: Net, s: State, job: Job, evs: seq<Event>, f: File)
    requires Inv(net, s) && s.worker.Idle? && CanTake(s, Begin(job)) && GoesWell(net, s, job, evs) && ToBill(s, f)
    ensures var t := After(net, Apply(net, s, Begin(job)), evs);
      && (forall n | n in t.spool :: !IsFlowName(n))
      && (DealtWith(net, t, f) || (Unreadable(net, t) && Within(t.tmp, f)))
  {
    hide Inv, Clean, Unreadable, Legal, After, Gathered, ToBill, DealtWith, Within, CanTake, IsFlowName;
    var begun := Apply(net, s, Begin(job));
    var t := After(net, begun, evs);
    StepKeeps(net, s, Begin(job));
    BeginGathers(s, begun);
    GatheredRun(net, begun, evs);
    RunKeeps(net, begun, evs);
    HistoryGrows(net, begun, evs);
    ToBillArrived(net, s, f);
    NoFlowLeft(t);
    SpoolShrinks(net, begun, evs);
    NotOutsideAfter(net, s, t, f);
    ArrivedStays(begun, t, f);
    EndOfFile(net, t, f);
  }

  lemma BeginGathers(s: State, begun: State)
    requires begun.worker.Busy? && begun.worker.pc.LoadCheckpoint?
    ensures Gathered(begun)
  {
  }

  lemma NoFlowLeft(t: State)
    requires Gathered(t) && t.worker.Idle?
    ensures forall n | n in t.spool :: !IsFlowName(n)
  {
    hide IsFlowName;
  }

  /** What a run has to deal with is a file that arrived, under a flow name. */
  lemma ToBillArrived(net: Net, s: State, f: File)
    requires Inv(net, s) && ToBill(s, f)
    ensures Genuine(s.arrived, f)
  {
    hide Core, IsFlowName;
  }

  lemma {:induction false} SpoolShrinks(net: Net, s: State, evs: seq<Event>)
    requires forall i | 0 <= i < |evs| :: !evs[i].Arrive?
    ensures forall n | n in After(net, s, evs).spool :: n in s.spool && After(net, s, evs).spool[n] == s.spool[n]
  {
    hide Apply, CanTake;
    if evs == [] {
    } else {
      var k := |evs| - 1;
      assert forall i | 0 <= i < k :: evs[..k][i] == evs[i];
      SpoolShrinks(net, s, evs[..k]);
      if CanTake(After(net, s, evs[..k]), evs[k]) {
        SpoolStep(net, After(net, s, evs[..k]), evs[k]);
      }
    }
  }

  lemma SpoolStep(net: Net, s: State, ev: Event)
    requires CanTake(s, ev) && !ev.Arrive?
    ensures forall n | n in Apply(net, s, ev).spool :: n in s.spool && Apply(net, s, ev).spool[n] == s.spool[n]
  {
    hide Decide, IsFlowName, FlowNames, Scannable, Listing, FateOf;
    if ev.Decided? {
      DecideAlone(net, s);
    }
  }

  /** A file lies in one place under one name. */
  lemma NotOutsideAfter(net: Net, s: State, t: State, f: File)
    requires Inv(net, s) && ToBill(s, f)
    requires forall n | n in t.spool :: n in s.spool && t.spool[n] == s.spool[n] && !IsFlowName(n)
    ensures !Within(t.spool, f)
  {
    hide BilledOk, LedgerOk, FatesOk, WorkerOk, ContentOk, IsFlowName, NamesOk;
    if m :| m in t.spool && t.spool[m] == f {
      assert s.spool[m].id == f.id;
    }
  }

  lemma ArrivedStays(s: State, t: State, f: File)
    requires Extends(s, t) && Genuine(s.arrived, f)
    ensures Genuine(t.arrived, f)
  {
  }

  lemma EndOfFile(net: Net, t: State, f: File)
    requires Inv(net, t) && Genuine(t.arrived, f) && !Within(t.spool, f) && (Clean(t) || Unreadable(net, t))
    ensures DealtWith(net, t, f) || (Unreadable(net, t) && Within(t.tmp, f))
  {
    hide Inv, Unreadable, InLedger, SweptWithoutRows;
    OnePlace(net, t, f.id);
    assert Arrival(t, f.id) == f;
    var place :| At(net, t, f.id, place);
  }

  // ---- recognised, and no row

  /** With sessions, as every run has them, a batch is recognised and owes no row iff some line is classified and
      none of its records touches the internal network or no channel is enabled. So a batch with traffic of that
      network is swept without a row only if every channel is disabled. */
  lemma NothingOwedExactly(net: Net, job: Job, lines: seq<string>)
    requires job.sessions != []
    ensures var seen := SeeAll(net, lines);
      Judge(net, job, lines) == NothingOwed <==>
      AnyFlow(seen) && (!AnyTouch(seen) || Enabled(job.channels) == {})
  {
    hide SeeAll, Enabled, RowsOwedTo;
    var seen := SeeAll(net, lines);
    assert AnyTouch(seen) ==> AnyFlow(seen);
    RowsOwedSize(job.sessions, job.channels, seen);
    NoRows(RowsOwed(job, seen), |job.sessions|, Enabled(job.channels));
  }

  lemma NoRows(rows: multiset<Chunk>, count: nat, channels: set<ChannelId>)
    requires count > 0 && |rows| == count * |channels|
    ensures rows == multiset{} <==> channels == {}
  {
    if channels != {} {
      var c :| c in channels;
      assert |channels| == |channels - {c}| + 1;
    }
  }
}
