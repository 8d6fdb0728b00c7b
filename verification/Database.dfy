/**
 The database as two tables with transactions, the session object that guards a
 transaction, and the repository statements run inside one.
 */
module Database {
  import opened Text
  import opened Sift

  type NasIp = string

  /** A row of flow_batch; both fields are the primary key. */
  type BatchRow = (NasIp, string)

  /** The rows of chunk by the nas whose run inserted them; the nas is not a column, only bookkeeping. */
  type ChunkTable = map<NasIp, multiset<Chunk>>

  function RowsOf(table: ChunkTable, nas: NasIp): multiset<Chunk> {
    if nas in table then table[nas] else multiset{}
  }

  function AddRows(table: ChunkTable, nas: NasIp, rows: multiset<Chunk>): ChunkTable {
    table[nas := RowsOf(table, nas) + rows]
  }

  function AddTable(table: ChunkTable, more: ChunkTable): ChunkTable {
    map nas | nas in table.Keys + more.Keys :: RowsOf(table, nas) + RowsOf(more, nas)
  }

  /** After is before with these rows of this nas, no more and no less, and the rows of no other nas. */
  ghost predicate Added(before: ChunkTable, after: ChunkTable, nas: NasIp, rows: multiset<Chunk>) {
    forall n: NasIp :: RowsOf(after, n) == RowsOf(before, n) + if n == nas then rows else multiset{}
  }

  lemma AddedExactly(before: ChunkTable, after: ChunkTable, nas: NasIp, rows: multiset<Chunk>, other: NasIp)
    requires Added(before, after, nas, rows)
    ensures var held := if other in before then before[other] else multiset{};
      (if other in after then after[other] else multiset{}) == if other == nas then held + rows else held
  {
    assert RowsOf(after, other) == RowsOf(before, other) + if other == nas then rows else multiset{};
  }

  lemma AddedNothing(table: ChunkTable, nas: NasIp)
    ensures Added(table, table, nas, multiset{}) && AddTable(table, map[]) == table
  {
  }

  lemma AddedOne(before: ChunkTable, after: ChunkTable, nas: NasIp, rows: seq<Chunk>, row: Chunk)
    requires Added(before, after, nas, multiset(rows))
    ensures Added(before, AddRows(after, nas, multiset{row}), nas, multiset(rows + [row]))
  {
  }

  /** Committing what a fresh transaction has queued adds just that. */
  lemma AddedByCommit(table: ChunkTable, inserted: ChunkTable, nas: NasIp, rows: multiset<Chunk>)
    requires Added(map[], inserted, nas, rows)
    ensures Added(table, AddTable(table, inserted), nas, rows)
  {
    hide RowsOf, AddTable;
    forall n: NasIp
      ensures RowsOf(AddTable(table, inserted), n) == RowsOf(table, n) + if n == nas then rows else multiset{}
    {
      RowsOfSum(table, inserted, n);
      RowsOfNone(n);
    }
  }

  lemma RowsOfSum(table: ChunkTable, more: ChunkTable, nas: NasIp)
    ensures RowsOf(AddTable(table, more), nas) == RowsOf(table, nas) + RowsOf(more, nas)
  {
  }

  lemma RowsOfNone(nas: NasIp)
    ensures RowsOf(map[], nas) == multiset{}
  {
  }

  /** The tables, and how often a statement on them has failed for no reason of the caller's. */
  class Tables {
    var chunk: ChunkTable
    var flowBatch: set<BatchRow>
    var faults: nat

    constructor ()
      ensures chunk == map[] && flowBatch == {} && faults == 0
    {
      chunk, flowBatch, faults := map[], {}, 0;
    }

    /** The outside world decides whether a statement succeeds. */
    method Attempt() returns (ok: bool)
      modifies this`faults
      ensures faults == old(faults) + if ok then 0 else 1
    {
      ok := *;
      faults := faults + if ok then 0 else 1;
    }
  }

  function RowsFor(nas: NasIp, names: set<string>): set<BatchRow> {
    set n | n in names :: (nas, n)
  }

  function NamesOf(rows: set<BatchRow>, nas: NasIp): set<string> {
    set r | r in rows && r.0 == nas :: r.1
  }

  function WithoutNas(rows: set<BatchRow>, nas: NasIp): set<BatchRow> {
    set r | r in rows && r.0 != nas
  }

  /** The rows of a nas and a list of names are the pairs of the two, and those with another nas are the others. */
  lemma RowsExactly(rows: set<BatchRow>, nas: NasIp, list: seq<string>, row: BatchRow)
    ensures row in RowsFor(nas, SetOf(list)) <==> row.0 == nas && row.1 in list
    ensures row in WithoutNas(rows, nas) <==> row in rows && row.0 != nas
    ensures row.1 in NamesOf(rows, row.0) <==> row in rows
  {
    assert row == (row.0, row.1);
  }

  /** Writing and clearing the rows of one nas does what it says and leaves every other nas alone. */
  lemma RowsOfOneNas(rows: set<BatchRow>, nas: NasIp, names: set<string>, other: NasIp)
    ensures NamesOf(rows + RowsFor(nas, names), other) ==
            NamesOf(rows, other) + if other == nas then names else {}
    ensures NamesOf(WithoutNas(rows, nas), other) == if other == nas then {} else NamesOf(rows, other)
  {
    assert forall n | n in names :: (nas, n) in RowsFor(nas, names);
    forall n
      ensures n in NamesOf(rows + RowsFor(nas, names), other) <==>
              n in NamesOf(rows, other) + if other == nas then names else {}
    {
      assert n in NamesOf(rows + RowsFor(nas, names), other) <==> (other, n) in rows + RowsFor(nas, names);
      assert n in NamesOf(rows, other) <==> (other, n) in rows;
    }
    forall n
      ensures n in NamesOf(WithoutNas(rows, nas), other) <==> (other != nas && n in NamesOf(rows, other))
    {
      assert n in NamesOf(WithoutNas(rows, nas), other) <==> (other, n) in WithoutNas(rows, nas);
      assert n in NamesOf(rows, other) <==> (other, n) in rows;
    }
  }

  /** Writing or clearing the rows of one nas leaves the rows of all others as a whole alone. */
  lemma OwnRowsApart(rows: set<BatchRow>, nas: NasIp, names: set<string>)
    ensures WithoutNas(rows + RowsFor(nas, names), nas) == WithoutNas(rows, nas)
    ensures WithoutNas(WithoutNas(rows, nas), nas) == WithoutNas(rows, nas)
  {
  }

  /** Another nas rewrites its rows the same whether own is looked at or not. */
  lemma ForeignRows(rows: set<BatchRow>, nas: NasIp, names: set<string>, own: NasIp)
    requires nas != own
    ensures WithoutNas(WithoutNas(rows, nas) + RowsFor(nas, names), own) ==
            WithoutNas(WithoutNas(rows, own), nas) + RowsFor(nas, names)
  {
  }

  lemma RowsOfAdded(table: ChunkTable, nas: NasIp, rows: multiset<Chunk>, other: NasIp)
    ensures RowsOf(AddRows(table, nas, rows), other) == RowsOf(table, other) + if other == nas then rows else multiset{}
  {
  }

  // ---- transactions

  /** A change to flow_batch that a transaction has queued. */
  datatype Write = Insert(nas: NasIp, name: string) | DeleteNas(nas: NasIp)

  function WriteOne(rows: set<BatchRow>, w: Write): set<BatchRow> {
    match w
    case Insert(nas, name) => rows + {(nas, name)}
    case DeleteNas(nas) => WithoutNas(rows, nas)
  }

  function WriteAll(rows: set<BatchRow>, writes: seq<Write>): set<BatchRow> {
    if writes == [] then rows else WriteOne(WriteAll(rows, writes[..|writes| - 1]), writes[|writes| - 1])
  }

  /** The queued changes of an open transaction; the tables see none of them before the commit. */
  class Tx {
    const db: Tables
    var inserted: ChunkTable
    var writes: seq<Write>

    constructor (db: Tables)
      ensures this.db == db && inserted == map[] && writes == []
    {
      this.db := db;
      inserted, writes := map[], [];
    }

    /** Takes effect as a whole or not at all; on an error the client cannot tell which. */
    method Commit() returns (ok: bool, ghost applied: bool)
      modifies db
      ensures (ok ==> applied) && db.faults == old(db.faults) + if ok then 0 else 1
      ensures db.chunk == if applied then AddTable(old(db.chunk), inserted) else old(db.chunk)
      ensures db.flowBatch == if applied then WriteAll(old(db.flowBatch), writes) else old(db.flowBatch)
    {
      ok := db.Attempt();
      var effect: bool := *;
      applied := ok || effect;
      if ok || effect {
        db.chunk := AddTable(db.chunk, inserted);
        db.flowBatch := WriteAll(db.flowBatch, writes);
      }
    }
  }

  datatype SessionError = NoError | ErrActiveTransaction | ErrNotInit | ErrClosed | DriverError

  /** What init and currentTx say together. */
  datatype Phase = Closed | Dangling | Active

  /** init with a tx is Active; init without one is Dangling; the rest is Closed. */
  class SqlSession {
    const db: Tables
    var init: bool
    var currentTx: Tx?

    ghost predicate Valid()
      reads this
    {
      (currentTx != null ==> init) && (currentTx != null ==> currentTx.db == db)
    }

    ghost function PhaseOf(): Phase
      reads this
    {
      if !init then Closed else if currentTx == null then Dangling else Active
    }

    constructor (db: Tables)
      ensures Valid() && this.db == db && PhaseOf() == Closed
    {
      this.db := db;
      init := false;
      currentTx := null;
    }

    predicate TxIsActive()
      reads this
    {
      init && currentTx != null
    }

    /** Opens a transaction. Only a failed begin leaves the session Dangling. */
    method Start() returns (err: SessionError)
      requires Valid()
      modifies this, db`faults
      ensures Valid() && db.faults == old(db.faults) + if err == DriverError then 1 else 0
      ensures old(PhaseOf()) == Active ==> err == ErrActiveTransaction && currentTx == old(currentTx)
      ensures old(PhaseOf()) != Active ==> err == NoError || err == DriverError
      ensures PhaseOf() == Next(old(PhaseOf()), Call.Start(err == NoError))
      ensures err == NoError ==>
                fresh(currentTx) && currentTx.inserted == map[] && currentTx.writes == []
    {
      if init && currentTx != null {
        return ErrActiveTransaction;
      }
      init := true;
      var begun := db.Attempt();
      if begun {
        currentTx := new Tx(db);
        return NoError;
      }
      currentTx := null;
      return DriverError;
    }

    /** Drops the transaction if there is one; never touches the tables. */
    method Rollback() returns (err: SessionError)
      requires Valid()
      modifies this, db`faults
      ensures Valid() && db.faults == old(db.faults) + if err == DriverError then 1 else 0
      ensures PhaseOf() == Next(old(PhaseOf()), Call.Rollback)
      ensures err == ErrNotInit <==> old(PhaseOf()) == Closed
      ensures err == ErrClosed <==> old(PhaseOf()) == Dangling
      ensures err != ErrActiveTransaction
    {
      if !init {
        return ErrNotInit;
      }
      if currentTx == null {
        return ErrClosed;
      }
      var ok := db.Attempt();
      err := if ok then NoError else DriverError;
      init := false;
      currentTx := null;
    }

    /** Commits the transaction if there is one. The session is closed even when the commit fails. */
    method Commit() returns (err: SessionError, ghost applied: bool)
      requires Valid()
      modifies this, db
      ensures Valid() && db.faults == old(db.faults) + if err == DriverError then 1 else 0
      ensures PhaseOf() == Next(old(PhaseOf()), Call.Commit)
      ensures err == ErrNotInit <==> old(PhaseOf()) == Closed
      ensures err == ErrClosed <==> old(PhaseOf()) == Dangling
      ensures err != ErrActiveTransaction
      ensures err == NoError ==> applied
      ensures !applied ==> db.chunk == old(db.chunk) && db.flowBatch == old(db.flowBatch)
      ensures applied ==>
                && old(currentTx) != null
                && db.chunk == AddTable(old(db.chunk), old(currentTx.inserted))
                && db.flowBatch == WriteAll(old(db.flowBatch), old(currentTx.writes))
    {
      applied := false;
      if !init {
        return ErrNotInit, false;
      }
      if currentTx == null {
        return ErrClosed, false;
      }
      var ok;
      ok, applied := currentTx.Commit();
      err := if ok then NoError else DriverError;
      init := false;
      currentTx := null;
    }
  }

  // ---- the session over any sequence of calls

  datatype Call = Start(begun: bool) | Commit | Rollback

  /** The phase after one call, as the methods of SqlSession promise it. */
  function Next(p: Phase, call: Call): Phase {
    match call
    case Start(begun) => if p == Active then Active else if begun then Active else Dangling
    case _ => if p == Active then Closed else p
  }

  function PhaseAfter(calls: seq<Call>): Phase {
    if calls == [] then Closed else Next(PhaseAfter(calls[..|calls| - 1]), calls[|calls| - 1])
  }

  /** How the last Start that found no transaction open went. */
  function LastStart(calls: seq<Call>): Option<bool> {
    if calls == [] then None
    else
      var rest, last := calls[..|calls| - 1], calls[|calls| - 1];
      if last.Start? && PhaseAfter(rest) != Active then Some(last.begun) else LastStart(rest)
  }

  /** A session is initialised without a transaction exactly when that Start failed to begin one. */
  lemma {:induction false} DanglingMeansFailedStart(calls: seq<Call>)
    ensures PhaseAfter(calls) == Dangling <==> LastStart(calls) == Some(false)
    ensures PhaseAfter(calls) == Active ==> LastStart(calls) == Some(true)
  {
    if calls == [] {
    } else {
      DanglingMeansFailedStart(calls[..|calls| - 1]);
    }
  }

  // ---- statements

  /** Queues the rows of a nas one by one. Stops at the first failing insert, with the rows before it queued. */
  method SaveChunkList(ts: SqlSession, nas: NasIp, chunkList: seq<Chunk>) returns (ok: bool)
    requires ts.Valid() && ts.TxIsActive()
    modifies ts.currentTx`inserted, ts.db`faults
    ensures ts.db.faults == old(ts.db.faults) + if ok then 0 else 1
    ensures ok ==> Added(old(ts.currentTx.inserted), ts.currentTx.inserted, nas, multiset(chunkList))
    ensures exists k | 0 <= k <= |chunkList| ::
              Added(old(ts.currentTx.inserted), ts.currentTx.inserted, nas, multiset(chunkList[..k]))
  {
    hide Added;
    var tx := ts.currentTx;
    assert chunkList[..0] == [];
    AddedNothing(tx.inserted, nas);
    var prepared := ts.db.Attempt();
    if !prepared {
      return false;
    }
    for i := 0 to |chunkList|
      invariant ts.db.faults == old(ts.db.faults)
      invariant Added(old(ts.currentTx.inserted), tx.inserted, nas, multiset(chunkList[..i]))
    {
      var inserted := ts.db.Attempt();
      if !inserted {
        return false;
      }
      AddedOne(old(ts.currentTx.inserted), tx.inserted, nas, chunkList[..i], chunkList[i]);
      tx.inserted := AddRows(tx.inserted, nas, multiset{chunkList[i]});
      assert chunkList[..i + 1] == chunkList[..i] + [chunkList[i]];
    }
    assert chunkList[..|chunkList|] == chunkList;
    return true;
  }

  /** The queued writes of after are those of before and the names of a nas on top. */
  ghost predicate NamesQueued(before: seq<Write>, after: seq<Write>, nas: NasIp, names: set<string>) {
    forall rows :: WriteAll(rows, after) == WriteAll(rows, before) + RowsFor(nas, names)
  }

  lemma InsertQueued(before: seq<Write>, after: seq<Write>, nas: NasIp, names: seq<string>, n: string)
    requires NamesQueued(before, after, nas, SetOf(names))
    ensures NamesQueued(before, after + [Insert(nas, n)], nas, SetOf(names + [n]))
  {
    var more := after + [Insert(nas, n)];
    assert more[..|more| - 1] == after;
    assert SetOf(names + [n]) == SetOf(names) + {n};
    assert RowsFor(nas, SetOf(names + [n])) == RowsFor(nas, SetOf(names)) + {(nas, n)};
  }

  /** Queues the names one by one; a name already there is no error. Stops at the first failing insert,
      with the names before it queued. */
  method SaveFileNames(ts: SqlSession, nas: NasIp, fileNameList: seq<string>) returns (ok: bool)
    requires ts.Valid() && ts.TxIsActive()
    modifies ts.currentTx`writes, ts.db`faults
    ensures ts.db.faults == old(ts.db.faults) + if ok then 0 else 1
    ensures ok ==> NamesQueued(old(ts.currentTx.writes), ts.currentTx.writes, nas, SetOf(fileNameList))
    ensures exists k | 0 <= k <= |fileNameList| ::
              NamesQueued(old(ts.currentTx.writes), ts.currentTx.writes, nas, SetOf(fileNameList[..k]))
  {
    hide NamesQueued;
    var tx := ts.currentTx;
    NoneQueued(tx.writes, nas);
    assert fileNameList[..0] == [];
    if |fileNameList| == 0 {
      assert fileNameList == [];
      return true;
    }
    var prepared := ts.db.Attempt();
    if !prepared {
      return false;
    }
    for i := 0 to |fileNameList|
      invariant ts.db.faults == old(ts.db.faults)
      invariant NamesQueued(old(ts.currentTx.writes), tx.writes, nas, SetOf(fileNameList[..i]))
    {
      var inserted := ts.db.Attempt();
      if !inserted {
        return false;
      }
      InsertQueued(old(ts.currentTx.writes), tx.writes, nas, fileNameList[..i], fileNameList[i]);
      tx.writes := tx.writes + [Insert(nas, fileNameList[i])];
      assert fileNameList[..i + 1] == fileNameList[..i] + [fileNameList[i]];
    }
    assert fileNameList[..|fileNameList|] == fileNameList;
    return true;
  }

  lemma NoneQueued(writes: seq<Write>, nas: NasIp)
    ensures NamesQueued(writes, writes, nas, SetOf([]))
  {
    assert RowsFor(nas, SetOf([])) == {};
  }

  /** After the queued writes no row of the nas is left, and the rows of every other nas are as they would
      have been; nothing is queued on failure. */
  method RemoveByNasIP(ts: SqlSession, nas: NasIp) returns (ok: bool)
    requires ts.Valid() && ts.TxIsActive()
    modifies ts.currentTx`writes, ts.db`faults
    ensures ts.db.faults == old(ts.db.faults) + if ok then 0 else 1
    ensures ok ==> forall rows, other ::
              NamesOf(WriteAll(rows, ts.currentTx.writes), other) ==
              if other == nas then {} else NamesOf(WriteAll(rows, old(ts.currentTx.writes)), other)
    ensures ok ==> forall rows ::
              WriteAll(rows, ts.currentTx.writes) == WithoutNas(WriteAll(rows, old(ts.currentTx.writes)), nas)
    ensures !ok ==> ts.currentTx.writes == old(ts.currentTx.writes)
  {
    ok := ts.db.Attempt();
    if ok {
      var before := ts.currentTx.writes;
      ts.currentTx.writes := before + [DeleteNas(nas)];
      assert ts.currentTx.writes[..|before|] == before;
      forall rows, other
        ensures NamesOf(WriteAll(rows, ts.currentTx.writes), other) ==
                if other == nas then {} else NamesOf(WriteAll(rows, before), other)
      {
        RowsOfOneNas(WriteAll(rows, before), nas, {}, other);
      }
    }
  }

  /** The names stored for the nas; none stored is no error. */
  method LoadCommittedFileNames(ts: SqlSession, nas: NasIp) returns (ok: bool, names: set<string>)
    requires ts.Valid() && ts.TxIsActive()
    modifies ts.db`faults
    ensures ts.db.faults == old(ts.db.faults) + if ok then 0 else 1
    ensures ok ==> names == NamesOf(ts.db.flowBatch, nas)
  {
    names := {};
    ok := ts.db.Attempt();
    if !ok {
      return;
    }
    var rows := set r | r in ts.db.flowBatch && r.0 == nas;
    ghost var all := rows;
    while rows != {}
      invariant rows <= all
      invariant names == set r | r in all && r !in rows :: r.1
    {
      var r :| r in rows;
      names := names + {r.1};
      rows := rows - {r};
    }
    assert names == NamesOf(ts.db.flowBatch, nas);
  }

  // ---- the transactions of one run

  /** Saves the rows and the names in one transaction: both are in the tables afterwards or
      neither is, and no error means both are. */
  method SaveChunkListWithCheckpoint(db: Tables, nas: NasIp, chunkList: seq<Chunk>, fileNameList: seq<string>)
    returns (err: SessionError, ghost applied: bool, ghost session: SqlSession)
    modifies db
    ensures err == NoError ==> applied
    ensures err == NoError <==> db.faults == old(db.faults)
    ensures old(db.faults) <= db.faults
    ensures applied ==> Added(old(db.chunk), db.chunk, nas, multiset(chunkList))
    ensures applied ==> db.flowBatch == old(db.flowBatch) + RowsFor(nas, SetOf(fileNameList))
    ensures !applied ==> db.chunk == old(db.chunk) && db.flowBatch == old(db.flowBatch)
    ensures fresh(session) && !session.TxIsActive()
  {
    hide Added, AddTable;
    var ts := new SqlSession(db);
    session, applied := ts, false;
    err := ts.Start();
    if err != NoError {
      return;
    }
    var ok := SaveChunkList(ts, nas, chunkList);
    if ok {
      ok := SaveFileNames(ts, nas, fileNameList);
    }
    if !ok {
      var _ := ts.Rollback();
      return DriverError, false, ts;
    }
    AddedByCommit(db.chunk, ts.currentTx.inserted, nas, multiset(chunkList));
    ghost var writes := ts.currentTx.writes;
    assert NamesQueued([], writes, nas, SetOf(fileNameList));
    err, applied := ts.Commit();
    assert WriteAll(old(db.flowBatch), []) == old(db.flowBatch);
    var _ := ts.Rollback();
  }

  /** Removes the checkpoint of the nas. */
  method ClearCheckpoint(db: Tables, nas: NasIp)
    returns (err: SessionError, ghost reached: bool, ghost applied: bool, ghost session: SqlSession)
    modifies db
    ensures err == NoError ==> applied
    ensures err == NoError <==> db.faults == old(db.faults)
    ensures old(db.faults) <= db.faults
    ensures applied ==> reached
    ensures db.chunk == old(db.chunk)
    ensures db.flowBatch == if applied then WithoutNas(old(db.flowBatch), nas) else old(db.flowBatch)
    ensures fresh(session) && !session.TxIsActive()
  {
    var ts := new SqlSession(db);
    session, reached, applied := ts, false, false;
    err := ts.Start();
    if err != NoError {
      return;
    }
    var ok := RemoveByNasIP(ts, nas);
    if !ok {
      var _ := ts.Rollback();
      return DriverError, false, false, ts;
    }
    reached := true;
    AddedNothing(db.chunk, nas);
    ghost var tx := ts.currentTx;
    assert tx.writes[..0] == [];
    err, applied := ts.Commit();
    var _ := ts.Rollback();
  }

  /** Reads the checkpoint of the nas in a transaction of its own, which is rolled back. */
  method ReadCheckpoint(db: Tables, nas: NasIp) returns (ok: bool, names: set<string>, ghost session: SqlSession)
    modifies db`faults
    ensures ok ==> names == NamesOf(db.flowBatch, nas)
    ensures !ok ==> old(db.faults) < db.faults
    ensures old(db.faults) <= db.faults
    ensures fresh(session) && !session.TxIsActive()
  {
    var ts := new SqlSession(db);
    session, names := ts, {};
    var err := ts.Start();
    if err != NoError {
      return false, {}, ts;
    }
    ok, names := LoadCommittedFileNames(ts, nas);
    var _ := ts.Rollback();
  }
}
