/**
 All nas at once, over the two tables they share. Steps of different nas interleave
 in any way; the order between nas does not matter.
 */
module World {
  import opened Text
  import opened Address
  import opened Sums
  import opened Sift
  import opened Billing
  import opened BillingSafety
  import opened BillingHistory
  import D = Database

  /** A site is the state of one nas; its checkpoint is kept in flow_batch instead. */
  datatype World = World(sites: map<D.NasIp, State>, flowBatch: set<D.BatchRow>, chunk: multiset<Chunk>)

  datatype Act = Act(nas: D.NasIp, ev: Event)

  /** What a run for this nas can see. */
  function View(w: World, nas: D.NasIp): State
    requires nas in w.sites
  {
    w.sites[nas].(checkpoint := D.NamesOf(w.flowBatch, nas))
  }

  /** The saving transaction took effect, whatever it reported. */
  predicate Saves(ev: Event) { ev.Committed? || (ev.CommitFailed? && ev.applied) }

  predicate Clears(ev: Event) { ev.Cleared? || (ev.ClearFailed? && ev.applied) }

  /** The rows an event inserts. */
  function Inserted(s: State, ev: Event): multiset<Chunk> {
    if Saves(ev) && s.worker.Busy? && s.worker.pc.Save? then s.worker.pc.rows else multiset{}
  }

  ghost predicate CanStep(w: World, a: Act) {
    a.nas in w.sites && CanTake(View(w, a.nas), a.ev)
  }

  /** One event of one nas: its own site, its own rows of flow_batch, new rows of chunk. */
  ghost function Step(net: Net, w: World, a: Act): World
    requires CanStep(w, a)
  {
    var s := View(w, a.nas);
    var t := Apply(net, s, a.ev);
    World(w.sites[a.nas := t.(checkpoint := {})],
          D.WithoutNas(w.flowBatch, a.nas) + D.RowsFor(a.nas, t.checkpoint),
          w.chunk + Inserted(s, a.ev))
  }

  ghost predicate LegalLog(net: Net, w: World, log: seq<Act>) {
    log == [] ||
    (LegalLog(net, w, log[..|log| - 1]) && CanStep(AfterLog(net, w, log[..|log| - 1]), log[|log| - 1]))
  }

  ghost function AfterLog(net: Net, w: World, log: seq<Act>): World {
    if log == [] then w
    else
      var v := AfterLog(net, w, log[..|log| - 1]);
      if CanStep(v, log[|log| - 1]) then Step(net, v, log[|log| - 1]) else v
  }

  lemma AfterLogSnoc(net: Net, w: World, log: seq<Act>, a: Act)
    requires CanStep(AfterLog(net, w, log), a)
    ensures AfterLog(net, w, log + [a]) == Step(net, AfterLog(net, w, log), a)
    ensures LegalLog(net, w, log) ==> LegalLog(net, w, log + [a])
  {
    var all := log + [a];
    assert all[..|all| - 1] == log;
  }

  /** The events of one nas, in order. */
  function Of(log: seq<Act>, nas: D.NasIp): seq<Event> {
    if log == [] then []
    else
      var a := log[|log| - 1];
      if a.nas == nas then Of(log[..|log| - 1], nas) + [a.ev] else Of(log[..|log| - 1], nas)
  }

  // ---- a nas sees its own events only

  lemma StepView(net: Net, w: World, a: Act, nas: D.NasIp)
    requires CanStep(w, a) && nas in w.sites
    ensures Step(net, w, a).sites.Keys == w.sites.Keys
    ensures View(Step(net, w, a), nas) == if a.nas == nas then Apply(net, View(w, nas), a.ev) else View(w, nas)
  {
    hide Apply, CanTake;
    var t := Apply(net, View(w, a.nas), a.ev);
    D.RowsOfOneNas(w.flowBatch, a.nas, {}, nas);
    D.RowsOfOneNas(D.WithoutNas(w.flowBatch, a.nas), a.nas, t.checkpoint, nas);
  }

  lemma {:induction false} AfterLogView(net: Net, w: World, log: seq<Act>, nas: D.NasIp)
    requires LegalLog(net, w, log) && nas in w.sites
    ensures AfterLog(net, w, log).sites.Keys == w.sites.Keys
    ensures Legal(net, View(w, nas), Of(log, nas))
    ensures View(AfterLog(net, w, log), nas) == After(net, View(w, nas), Of(log, nas))
  {
    hide Apply, CanTake, View, Step;
    if log == [] {
    } else {
      var before, a := log[..|log| - 1], log[|log| - 1];
      AfterLogView(net, w, before, nas);
      var v := AfterLog(net, w, before);
      StepView(net, v, a, nas);
      if a.nas == nas {
        CanStepMeans(v, a);
        AfterSnoc(net, View(w, nas), Of(before, nas), a.ev);
      }
    }
  }

  lemma CanStepMeans(w: World, a: Act)
    ensures CanStep(w, a) <==> a.nas in w.sites && CanTake(View(w, a.nas), a.ev)
  {
    hide CanTake, View;
  }

  /** A log is legal as soon as the events of each nas by themselves are. */
  lemma {:induction false} LegalByNas(net: Net, w: World, log: seq<Act>)
    requires forall a | a in log :: a.nas in w.sites
    requires forall nas | nas in w.sites :: Legal(net, View(w, nas), Of(log, nas))
    ensures LegalLog(net, w, log)
  {
    hide Apply, CanTake, View, Step, CanStep, After, Legal;
    if log == [] {
    } else {
      var before, a := log[..|log| - 1], log[|log| - 1];
      assert a in log;
      forall nas | nas in w.sites
        ensures Legal(net, View(w, nas), Of(before, nas))
      {
        if a.nas == nas {
          LegalSnoc(net, View(w, nas), Of(before, nas), a.ev);
        }
      }
      assert forall b | b in before :: b in log;
      LegalByNas(net, w, before);
      AfterLogView(net, w, before, a.nas);
      LegalSnoc(net, View(w, a.nas), Of(before, a.nas), a.ev);
      CanStepMeans(AfterLog(net, w, before), a);
    }
  }

  lemma LegalSnoc(net: Net, s: State, evs: seq<Event>, ev: Event)
    requires Legal(net, s, evs + [ev])
    ensures Legal(net, s, evs) && CanTake(After(net, s, evs), ev)
  {
    hide Apply, CanTake;
    assert (evs + [ev])[..|evs|] == evs;
  }

  // ---- the tables

  /** The copies of a row that the ledgers of all nas hold. */
  ghost function LedgerCount(w: World, row: Chunk): D.NasIp -> int {
    nas => if nas in w.sites then BilledRows(w.sites[nas].ledger)[row] else 0
  }

  ghost function Ledgers(w: World, row: Chunk): int {
    Sum(w.sites.Keys, LedgerCount(w, row))
  }

  lemma InsertedIsBilled(net: Net, s: State, ev: Event)
    requires CanTake(s, ev)
    ensures BilledRows(Apply(net, s, ev).ledger) == BilledRows(s.ledger) + Inserted(s, ev)
  {
    hide Decide, BilledRows;
    if ev.Committed? || (ev.CommitFailed? && ev.applied) {
      BilledRowsSnoc(s.ledger, Batch(s.worker.job, s.worker.pc.files, s.worker.pc.rows));
    } else if !ev.Arrive? && !ev.CommitFailed? && !ev.Unlinked? {
      HistoryAlone(net, s, ev);
    }
  }

  /** The checkpoint an event leaves. */
  lemma CheckpointAfter(net: Net, s: State, ev: Event)
    requires CanTake(s, ev)
    ensures Apply(net, s, ev).checkpoint ==
            if Saves(ev) then s.checkpoint + SetOf(s.worker.pc.names)
            else if Clears(ev) then {} else s.checkpoint
  {
    hide Decide, SetOf, Inv, Core;
    if ev.Decided? {
      DecideAlone(net, s);
    }
  }

  lemma RowsSplit(rows: set<D.BatchRow>, nas: D.NasIp)
    ensures D.WithoutNas(rows, nas) + D.RowsFor(nas, D.NamesOf(rows, nas)) == rows
    ensures D.RowsFor(nas, {}) == {}
  {
    forall r: D.BatchRow
      ensures r in D.WithoutNas(rows, nas) + D.RowsFor(nas, D.NamesOf(rows, nas)) <==> r in rows
    {
      if r.0 == nas {
        assert r.1 in D.NamesOf(rows, nas) <==> r in rows;
      }
    }
  }

  lemma RowsJoin(nas: D.NasIp, xs: set<string>, ys: set<string>)
    ensures D.RowsFor(nas, xs + ys) == D.RowsFor(nas, xs) + D.RowsFor(nas, ys)
  {
  }

  /** What the events of a nas do to the shared tables, in the words of the statements that run:
      a save inserts its rows and its names, a clearing deletes the rows of its nas, and nothing
      else touches either table. */
  lemma StepTables(net: Net, w: World, a: Act)
    requires CanStep(w, a)
    ensures Saves(a.ev) ==>
              && Step(net, w, a).flowBatch ==
                 w.flowBatch + D.RowsFor(a.nas, SetOf(w.sites[a.nas].worker.pc.names))
              && Step(net, w, a).chunk == w.chunk + w.sites[a.nas].worker.pc.rows
    ensures Clears(a.ev) ==>
              Step(net, w, a).flowBatch == D.WithoutNas(w.flowBatch, a.nas) && Step(net, w, a).chunk == w.chunk
    ensures !Saves(a.ev) && !Clears(a.ev) ==>
              Step(net, w, a).flowBatch == w.flowBatch && Step(net, w, a).chunk == w.chunk
  {
    hide Apply, SetOf, D.WithoutNas, D.RowsFor, D.NamesOf;
    var s := View(w, a.nas);
    CheckpointAfter(net, s, a.ev);
    RowsSplit(w.flowBatch, a.nas);
    if Saves(a.ev) {
      RowsJoin(a.nas, s.checkpoint, SetOf(s.worker.pc.names));
    }
  }

  /** The chunk table grows by exactly what the ledgers grow by. */
  lemma StepRows(net: Net, w: World, a: Act, row: Chunk)
    requires CanStep(w, a)
    ensures Step(net, w, a).chunk[row] - Ledgers(Step(net, w, a), row) == w.chunk[row] - Ledgers(w, row)
  {
    hide Apply, CanTake, BilledRows, Inserted, Sum;
    var v := Step(net, w, a);
    assert v.sites.Keys == w.sites.Keys;
    InsertedIsBilled(net, View(w, a.nas), a.ev);
    SumChange(w.sites.Keys, LedgerCount(w, row), LedgerCount(v, row), a.nas);
  }

  lemma {:induction false} AfterLogRows(net: Net, w: World, log: seq<Act>, row: Chunk)
    requires LegalLog(net, w, log)
    ensures AfterLog(net, w, log).chunk[row] - Ledgers(AfterLog(net, w, log), row) == w.chunk[row] - Ledgers(w, row)
  {
    hide Step, CanStep, Ledgers;
    if log == [] {
    } else {
      AfterLogRows(net, w, log[..|log| - 1], row);
      StepRows(net, AfterLog(net, w, log[..|log| - 1]), log[|log| - 1], row);
    }
  }

  lemma StepForeign(net: Net, w: World, a: Act, nas: D.NasIp)
    requires CanStep(w, a) && nas !in w.sites
    ensures D.NamesOf(Step(net, w, a).flowBatch, nas) == D.NamesOf(w.flowBatch, nas)
    ensures Step(net, w, a).sites.Keys == w.sites.Keys
  {
    hide Apply, CanTake;
    var t := Apply(net, View(w, a.nas), a.ev);
    D.RowsOfOneNas(w.flowBatch, a.nas, {}, nas);
    D.RowsOfOneNas(D.WithoutNas(w.flowBatch, a.nas), a.nas, t.checkpoint, nas);
  }

  lemma {:induction false} AfterLogForeign(net: Net, w: World, log: seq<Act>, nas: D.NasIp)
    requires LegalLog(net, w, log) && nas !in w.sites
    ensures AfterLog(net, w, log).sites.Keys == w.sites.Keys
    ensures D.NamesOf(AfterLog(net, w, log).flowBatch, nas) == D.NamesOf(w.flowBatch, nas)
  {
    hide Step, CanStep;
    if log == [] {
    } else {
      AfterLogForeign(net, w, log[..|log| - 1], nas);
      StepForeign(net, AfterLog(net, w, log[..|log| - 1]), log[|log| - 1], nas);
    }
  }

  // ---- the order between nas does not matter

  /** No site carries a checkpoint of its own. */
  ghost predicate Stripped(w: World) {
    forall nas | nas in w.sites :: w.sites[nas].checkpoint == {}
  }

  lemma {:induction false} StrippedKept(net: Net, w: World, log: seq<Act>)
    requires Stripped(w)
    ensures Stripped(AfterLog(net, w, log))
  {
    hide Apply, CanTake;
    if log == [] {
    } else {
      StrippedKept(net, w, log[..|log| - 1]);
    }
  }

  lemma SameTables(u: World, v: World)
    requires u.sites.Keys == v.sites.Keys && Stripped(u) && Stripped(v)
    requires forall nas | nas in u.sites :: View(u, nas) == View(v, nas)
    requires forall nas | nas !in u.sites :: D.NamesOf(u.flowBatch, nas) == D.NamesOf(v.flowBatch, nas)
    ensures u.sites == v.sites && u.flowBatch == v.flowBatch
  {
    forall nas | nas in u.sites
      ensures u.sites[nas] == v.sites[nas]
    {
      assert u.sites[nas] == View(u, nas).(checkpoint := {});
      assert v.sites[nas] == View(v, nas).(checkpoint := {});
    }
    forall r: D.BatchRow
      ensures r in u.flowBatch <==> r in v.flowBatch
    {
      assert r in u.flowBatch <==> r.1 in D.NamesOf(u.flowBatch, r.0);
      assert r in v.flowBatch <==> r.1 in D.NamesOf(v.flowBatch, r.0);
      if r.0 in u.sites {
        assert View(u, r.0).checkpoint == View(v, r.0).checkpoint;
      }
    }
  }

  /** A log in which every nas has the same events in the same order is legal too and
      leads to the same directories, the same checkpoints and the same chunk rows. */
  lemma Rearranged(net: Net, w: World, log: seq<Act>, other: seq<Act>)
    requires Stripped(w) && LegalLog(net, w, log)
    requires forall a | a in other :: a.nas in w.sites
    requires forall nas | nas in w.sites :: Of(other, nas) == Of(log, nas)
    ensures LegalLog(net, w, other)
    ensures AfterLog(net, w, other) == AfterLog(net, w, log)
  {
    hide LegalLog, AfterLog, Of, Legal, After, View, Stripped, Ledgers, D.NamesOf;
    forall nas | nas in w.sites
      ensures Legal(net, View(w, nas), Of(other, nas))
    {
      AfterLogView(net, w, log, nas);
    }
    LegalByNas(net, w, other);
    SameEnd(net, w, log, other);
  }

  lemma SameEnd(net: Net, w: World, log: seq<Act>, other: seq<Act>)
    requires Stripped(w) && LegalLog(net, w, log) && LegalLog(net, w, other)
    requires forall nas | nas in w.sites :: Of(other, nas) == Of(log, nas)
    ensures AfterLog(net, w, other) == AfterLog(net, w, log)
  {
    hide LegalLog, AfterLog, Of, Legal, After, View, Stripped, Ledgers, D.NamesOf;
    var u, v := AfterLog(net, w, other), AfterLog(net, w, log);
    StrippedKept(net, w, log);
    StrippedKept(net, w, other);
    SiteKeys(net, w, log);
    SiteKeys(net, w, other);
    forall nas | nas in w.sites
      ensures View(u, nas) == View(v, nas)
    {
      AfterLogView(net, w, log, nas);
      AfterLogView(net, w, other, nas);
    }
    forall nas | nas !in w.sites
      ensures D.NamesOf(u.flowBatch, nas) == D.NamesOf(v.flowBatch, nas)
    {
      AfterLogForeign(net, w, log, nas);
      AfterLogForeign(net, w, other, nas);
    }
    SameTables(u, v);
    forall row: Chunk
      ensures u.chunk[row] == v.chunk[row]
    {
      AfterLogRows(net, w, log, row);
      AfterLogRows(net, w, other, row);
      SameLedgers(u, v, row);
    }
    assert u.chunk == v.chunk;
  }

  lemma {:induction false} SiteKeys(net: Net, w: World, log: seq<Act>)
    ensures AfterLog(net, w, log).sites.Keys == w.sites.Keys
  {
    hide Apply, CanTake;
    if log == [] {
    } else {
      SiteKeys(net, w, log[..|log| - 1]);
    }
  }

  lemma SameLedgers(u: World, v: World, row: Chunk)
    requires u.sites == v.sites
    ensures Ledgers(u, row) == Ledgers(v, row)
  {
    hide BilledRows;
    SumSame(u.sites.Keys, LedgerCount(u, row), LedgerCount(v, row));
  }

  // ---- one nas after another

  function Tagged(nas: D.NasIp, evs: seq<Event>): seq<Act> {
    if evs == [] then [] else Tagged(nas, evs[..|evs| - 1]) + [Act(nas, evs[|evs| - 1])]
  }

  /** The same events, all of the first nas, then all of the second, and so on. */
  function Serial(log: seq<Act>, order: seq<D.NasIp>): seq<Act> {
    if order == [] then []
    else
      var nas := order[|order| - 1];
      Serial(log, order[..|order| - 1]) + Tagged(nas, Of(log, nas))
  }

  lemma {:induction false} OfConcat(xs: seq<Act>, ys: seq<Act>, nas: D.NasIp)
    ensures Of(xs + ys, nas) == Of(xs, nas) + Of(ys, nas)
  {
    if ys == [] {
      assert xs + ys == xs;
    } else {
      var all := xs + ys;
      assert all[..|all| - 1] == xs + ys[..|ys| - 1];
      OfConcat(xs, ys[..|ys| - 1], nas);
    }
  }

  lemma {:induction false} OfTagged(nas: D.NasIp, evs: seq<Event>, other: D.NasIp)
    ensures Of(Tagged(nas, evs), other) == if nas == other then evs else []
  {
    if evs == [] {
    } else {
      var all := Tagged(nas, evs);
      assert all[..|all| - 1] == Tagged(nas, evs[..|evs| - 1]);
      OfTagged(nas, evs[..|evs| - 1], other);
    }
  }

  lemma {:induction false} OfSerial(log: seq<Act>, order: seq<D.NasIp>, nas: D.NasIp)
    requires NoDup(order)
    ensures Of(Serial(log, order), nas) == if nas in order then Of(log, nas) else []
  {
    hide Of, Tagged;
    if order == [] {
      OfNothing(nas);
    } else {
      var k := |order| - 1;
      OfSerial(log, order[..k], nas);
      OfConcat(Serial(log, order[..k]), Tagged(order[k], Of(log, order[k])), nas);
      OfTagged(order[k], Of(log, order[k]), nas);
      assert order == order[..k] + [order[k]];
    }
  }

  lemma OfNothing(nas: D.NasIp)
    ensures Of([], nas) == []
  {
  }

  lemma {:induction false} TaggedNas(nas: D.NasIp, evs: seq<Event>)
    ensures forall a | a in Tagged(nas, evs) :: a.nas == nas
  {
    if evs == [] {
    } else {
      TaggedNas(nas, evs[..|evs| - 1]);
    }
  }

  lemma {:induction false} SerialNas(log: seq<Act>, order: seq<D.NasIp>)
    ensures forall a | a in Serial(log, order) :: a.nas in order
  {
    if order == [] {
    } else {
      var k := |order| - 1;
      SerialNas(log, order[..k]);
      TaggedNas(order[k], Of(log, order[k]));
      assert order == order[..k] + [order[k]];
    }
  }

  lemma {:induction false} OfAbsent(log: seq<Act>, nas: D.NasIp)
    requires forall a | a in log :: a.nas != nas
    ensures Of(log, nas) == []
  {
    if log == [] {
    } else {
      assert log[|log| - 1] in log;
      assert forall a | a in log[..|log| - 1] :: a in log;
      OfAbsent(log[..|log| - 1], nas);
    }
  }

  /** Serializability: any interleaving ends where running the nas one after another ends,
      in whatever order. */
  lemma Serializable(net: Net, w: World, log: seq<Act>, order: seq<D.NasIp>)
    requires Stripped(w) && LegalLog(net, w, log)
    requires NoDup(order) && forall nas | nas in order :: nas in w.sites
    requires forall a | a in log :: a.nas in order
    ensures LegalLog(net, w, Serial(log, order))
    ensures AfterLog(net, w, Serial(log, order)) == AfterLog(net, w, log)
  {
    hide LegalLog, AfterLog, Of, Serial, Stripped;
    SerialNas(log, order);
    forall nas | nas in w.sites
      ensures Of(Serial(log, order), nas) == Of(log, nas)
    {
      OfSerial(log, order, nas);
      if nas !in order {
        OfAbsent(log, nas);
      }
    }
    Rearranged(net, w, log, Serial(log, order));
  }

  // ---- every nas keeps its invariant

  ghost predicate AllInv(net: Net, w: World) {
    forall nas | nas in w.sites :: Inv(net, View(w, nas))
  }

  lemma StepKeepsAll(net: Net, w: World, a: Act)
    requires AllInv(net, w) && CanStep(w, a)
    ensures AllInv(net, Step(net, w, a))
  {
    hide Inv, Apply, CanTake, Step, View;
    var v := Step(net, w, a);
    StepView(net, w, a, a.nas);
    CanStepMeans(w, a);
    forall nas | nas in v.sites
      ensures Inv(net, View(v, nas))
    {
      StepView(net, w, a, nas);
      if a.nas == nas {
        StepKeeps(net, View(w, nas), a.ev);
      }
    }
  }
}
