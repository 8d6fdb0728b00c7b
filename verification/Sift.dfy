/**
 Sessions and chunks: joining the traffic of a nas with its online sessions,
 and the declarative specification of the rows a batch must produce.
 */
module Sift {
  import opened FlowLine
  import opened Sums
  import opened Traffic
  import opened Cells
  import opened Accumulator

  datatype OnlineSession = OnlineSession(sessId: int, ip: string, nasIp: string)

  datatype Chunk = Chunk(sessId: int, channelId: int, download: int, upload: int)

  /** What one run for a nas is given: its sessions and the channels. */
  datatype Job = Job(sessions: seq<OnlineSession>, channels: ChannelMap)

  function ChunkOf(sess: OnlineSession, c: ChannelId, b: Bytes): Chunk {
    Chunk(sess.sessId, c.id, b.download, b.upload)
  }

  /** The rows of one session: one for each cell. */
  function CellRows(sess: OnlineSession, cells: map<ChannelId, Bytes>): multiset<Chunk> {
    multiset(set c | c in cells :: ChunkOf(sess, c, cells[c]))
  }

  /** The cells of an address; an address without traffic has a zero cell on every enabled channel. */
  function CellsFor(channels: ChannelMap, m: TrafficMap, ip: string): map<ChannelId, Bytes> {
    if ip in m then m[ip] else map c | c in Enabled(channels) :: ZERO
  }

  function SiftRows(channels: ChannelMap, m: TrafficMap, sessions: seq<OnlineSession>): multiset<Chunk> {
    if sessions == [] then multiset{}
    else
      var sess := sessions[|sessions| - 1];
      SiftRows(channels, m, sessions[..|sessions| - 1]) + CellRows(sess, CellsFor(channels, m, sess.ip))
  }

  /** What a batch owes: for each session and each enabled channel one row holding the
      bytes of the whole batch for that address on that channel. */
  function RowsOwed(job: Job, seen: seq<Seen>): multiset<Chunk> {
    RowsOwedTo(job.sessions, job.channels, seen)
  }

  function RowsOwedTo(sessions: seq<OnlineSession>, channels: ChannelMap, seen: seq<Seen>): multiset<Chunk> {
    if sessions == [] then multiset{}
    else
      RowsOwedTo(sessions[..|sessions| - 1], channels, seen) + SessionRows(sessions[|sessions| - 1], channels, seen)
  }

  function SessionRows(sess: OnlineSession, channels: ChannelMap, seen: seq<Seen>): multiset<Chunk> {
    multiset(RowSet(sess, Enabled(channels), seen))
  }

  function RowSet(sess: OnlineSession, cs: set<ChannelId>, seen: seq<Seen>): set<Chunk> {
    set c | c in cs :: ChunkOf(sess, c, Total(seen, sess.ip, c))
  }

  /** Sifting accumulated traffic gives exactly the rows owed. */
  lemma {:induction false} SiftIsOwed(sessions: seq<OnlineSession>, channels: ChannelMap, seen: seq<Seen>)
    ensures SiftRows(channels, Tally(channels, seen), sessions) == RowsOwedTo(sessions, channels, seen)
  {
    if sessions == [] {
    } else {
      SiftIsOwed(sessions[..|sessions| - 1], channels, seen);
      SessionSift(sessions[|sessions| - 1], channels, seen);
    }
  }

  lemma SessionSift(sess: OnlineSession, channels: ChannelMap, seen: seq<Seen>)
    ensures CellRows(sess, CellsFor(channels, Tally(channels, seen), sess.ip)) == SessionRows(sess, channels, seen)
  {
    var cells := CellsFor(channels, Tally(channels, seen), sess.ip);
    forall c | c in Enabled(channels)
      ensures c in cells && cells[c] == Total(seen, sess.ip, c)
    {
      if sess.ip !in Touched(seen) { TotalUntouched(seen, sess.ip, c); }
    }
    assert cells.Keys == Enabled(channels);
    assert (set c | c in cells :: ChunkOf(sess, c, cells[c])) == RowSet(sess, Enabled(channels), seen);
  }

  // ---- the sift

  /** Joins the traffic with the sessions, in whatever order each cell table is walked.
      Reports NoData exactly when there is no row, and then looks at the first session. */
  method SiftTraffic(channels: ChannelMap, trafficMap: map<string, CellTable>, sessionList: seq<OnlineSession>)
    returns (chunkList: seq<Chunk>, status: Status)
    requires sessionList != []
    ensures multiset(chunkList) ==
            SiftRows(channels, ViewOf(trafficMap), sessionList)
    ensures status == if chunkList == [] then NoData else Fine
  {
    ghost var m := ViewOf(trafficMap);
    chunkList := [];
    for i := 0 to |sessionList|
      invariant multiset(chunkList) == SiftRows(channels, m, sessionList[..i])
    {
      var sess := sessionList[i];
      var table;
      if sess.ip in trafficMap {
        table := trafficMap[sess.ip];
      } else {
        table := CreateNewEmptyTrafficMap(channels);
      }
      assert table.cells == CellsFor(channels, m, sess.ip);
      var rows := WalkCells(sess, table.cells);
      chunkList := chunkList + rows;
      assert sessionList[..i + 1][..i] == sessionList[..i];
    }
    assert sessionList[..|sessionList|] == sessionList;
    status := if chunkList == [] then NoData else Fine;
  }

  /** One row for each cell, in an arbitrary order. */
  method WalkCells(sess: OnlineSession, cells: map<ChannelId, Bytes>) returns (rows: seq<Chunk>)
    ensures multiset(rows) == CellRows(sess, cells)
  {
    rows := [];
    var keys := cells.Keys;
    ghost var done: set<ChannelId> := {};
    while keys != {}
      invariant keys + done == cells.Keys && keys !! done
      invariant multiset(rows) == multiset(set c | c in done :: ChunkOf(sess, c, cells[c]))
    {
      var c :| c in keys;
      rows := rows + [ChunkOf(sess, c, cells[c])];
      CellRowsGrow(sess, cells, done, c);
      keys := keys - {c};
      done := done + {c};
    }
    assert done == cells.Keys;
    assert (set c | c in done :: ChunkOf(sess, c, cells[c])) == (set c | c in cells :: ChunkOf(sess, c, cells[c]));
  }

  lemma CellRowsGrow(sess: OnlineSession, cells: map<ChannelId, Bytes>, done: set<ChannelId>, c: ChannelId)
    requires done <= cells.Keys && c in cells && c !in done
    ensures multiset(set k | k in done + {c} :: ChunkOf(sess, k, cells[k])) ==
            multiset(set k | k in done :: ChunkOf(sess, k, cells[k])) + multiset{ChunkOf(sess, c, cells[c])}
  {
    var before := set k | k in done :: ChunkOf(sess, k, cells[k]);
    var row := ChunkOf(sess, c, cells[c]);
    assert (set k | k in done + {c} :: ChunkOf(sess, k, cells[k])) == before + {row};
    assert row !in before;
  }

  // ---- what the rows owed look like

  lemma {:induction false} RowSetSize(sess: OnlineSession, cs: set<ChannelId>, seen: seq<Seen>)
    ensures |RowSet(sess, cs, seen)| == |cs|
  {
    if c :| c in cs {
      var rest := RowSet(sess, cs - {c}, seen);
      var row := ChunkOf(sess, c, Total(seen, sess.ip, c));
      RowSetSize(sess, cs - {c}, seen);
      assert RowSet(sess, cs, seen) == rest + {row};
      assert row !in rest;
    } else {
      assert cs == {};
      assert RowSet(sess, cs, seen) == {};
    }
  }

  /** As many rows as sessions times enabled channels. */
  lemma {:induction false} RowsOwedSize(sessions: seq<OnlineSession>, channels: ChannelMap, seen: seq<Seen>)
    ensures |RowsOwedTo(sessions, channels, seen)| == |sessions| * |Enabled(channels)|
  {
    if sessions == [] {
    } else {
      RowsOwedSize(sessions[..|sessions| - 1], channels, seen);
      RowSetSize(sessions[|sessions| - 1], Enabled(channels), seen);
      MulStep(|sessions| - 1, |Enabled(channels)|);
    }
  }

  ghost predicate DistinctIds(sessions: seq<OnlineSession>) {
    forall i, j | 0 <= i < j < |sessions| :: sessions[i].sessId != sessions[j].sessId
  }

  ghost predicate DistinctIps(sessions: seq<OnlineSession>) {
    forall i, j | 0 <= i < j < |sessions| :: sessions[i].ip != sessions[j].ip
  }

  /** A row is owed iff it is that of some session and some channel whose flag is true, with their total. */
  lemma RowOwedExactly(sessions: seq<OnlineSession>, channels: ChannelMap, seen: seq<Seen>, row: Chunk)
    ensures row in RowsOwedTo(sessions, channels, seen) <==>
            exists i, c | 0 <= i < |sessions| && c in channels && channels[c] ::
              && row.sessId == sessions[i].sessId && row.channelId == c.id
              && row.download == Total(seen, sessions[i].ip, c).download
              && row.upload == Total(seen, sessions[i].ip, c).upload
  {
    hide Total, RowsOwedTo;
    RowOwedMeaning(sessions, channels, seen, row);
    assert forall c :: c in Enabled(channels) <==> c in channels && channels[c];
    forall i, c | 0 <= i < |sessions|
      ensures row == ChunkOf(sessions[i], c, Total(seen, sessions[i].ip, c)) <==>
              (row.sessId == sessions[i].sessId && row.channelId == c.id &&
               row.download == Total(seen, sessions[i].ip, c).download &&
               row.upload == Total(seen, sessions[i].ip, c).upload)
    {
    }
  }

  lemma {:induction false} RowOwedMeaning(sessions: seq<OnlineSession>, channels: ChannelMap, seen: seq<Seen>,
                                          row: Chunk)
    ensures row in RowsOwedTo(sessions, channels, seen) <==>
            exists i, c | 0 <= i < |sessions| && c in Enabled(channels) ::
              row == ChunkOf(sessions[i], c, Total(seen, sessions[i].ip, c))
  {
    hide Total, Enabled;
    if sessions == [] {
    } else {
      var k := |sessions| - 1;
      RowOwedMeaning(sessions[..k], channels, seen, row);
      assert forall i | 0 <= i < k :: sessions[..k][i] == sessions[i];
      assert row in SessionRows(sessions[k], channels, seen) <==>
             exists c | c in Enabled(channels) :: row == ChunkOf(sessions[k], c, Total(seen, sessions[k].ip, c));
    }
  }

  /** With unique session ids no row is owed twice, and no two rows share session and channel. */
  lemma {:induction false} RowsOwedOnce(sessions: seq<OnlineSession>, channels: ChannelMap, seen: seq<Seen>,
                                        r1: Chunk, r2: Chunk)
    requires DistinctIds(sessions)
    requires r1 in RowsOwedTo(sessions, channels, seen) && r2 in RowsOwedTo(sessions, channels, seen)
    requires r1.sessId == r2.sessId && r1.channelId == r2.channelId
    ensures r1 == r2
    ensures RowsOwedTo(sessions, channels, seen)[r1] == 1
  {
    RowOwedMeaning(sessions, channels, seen, r1);
    RowOwedMeaning(sessions, channels, seen, r2);
    RowOwedCount(sessions, channels, seen, r1);
  }

  lemma {:induction false} RowOwedCount(sessions: seq<OnlineSession>, channels: ChannelMap, seen: seq<Seen>, row: Chunk)
    requires DistinctIds(sessions)
    ensures RowsOwedTo(sessions, channels, seen)[row] <= 1
  {
    if sessions == [] {
    } else {
      var k := |sessions| - 1;
      RowOwedCount(sessions[..k], channels, seen, row);
      if row in SessionRows(sessions[k], channels, seen) {
        assert row.sessId == sessions[k].sessId;
        RowOwedMeaning(sessions[..k], channels, seen, row);
        assert forall i | 0 <= i < k :: sessions[..k][i] == sessions[i];
        assert row !in RowsOwedTo(sessions[..k], channels, seen);
      }
    }
  }

  // ---- totals of the rows

  function Side(b: Bytes, up: bool): int { if up then b.upload else b.download }

  /** Reads one direction of a row if the row is on channel c. */
  function RowSide(c: ChannelId, up: bool): Chunk -> int {
    (row: Chunk) => if row.channelId == c.id then (if up then row.upload else row.download) else 0
  }

  function IpsOf(sessions: seq<OnlineSession>): set<string> {
    set i | 0 <= i < |sessions| :: sessions[i].ip
  }

  lemma SessionRowsTotal(sess: OnlineSession, channels: ChannelMap, seen: seq<Seen>, c: ChannelId, up: bool)
    requires c in Enabled(channels)
    ensures MSum(SessionRows(sess, channels, seen), RowSide(c, up)) == Side(Total(seen, sess.ip, c), up)
  {
    var rows := RowSet(sess, Enabled(channels), seen);
    var row := ChunkOf(sess, c, Total(seen, sess.ip, c));
    MSumOfSet(rows, RowSide(c, up));
    assert row in rows;
    forall r | r in rows && r != row
      ensures RowSide(c, up)(r) == 0
    {
      var k :| k in Enabled(channels) && r == ChunkOf(sess, k, Total(seen, sess.ip, k));
      assert k != c;
    }
    SumPoint(rows, RowSide(c, up), row);
  }

  /** One direction of the traffic of an address on a channel. */
  function IpShare(seen: seq<Seen>, c: ChannelId, up: bool): string -> int {
    ip => Side(Total(seen, ip, c), up)
  }

  /** The rows of a channel add up to the traffic of exactly the addresses that have a session. */
  lemma {:induction false} RowsOwedTotal(sessions: seq<OnlineSession>, channels: ChannelMap, seen: seq<Seen>,
                                         c: ChannelId, up: bool)
    requires c in Enabled(channels) && DistinctIps(sessions)
    ensures MSum(RowsOwedTo(sessions, channels, seen), RowSide(c, up)) == Sum(IpsOf(sessions), IpShare(seen, c, up))
  {
    hide Total, Sum, MSum, SessionRows, RowSide, Side;
    if sessions == [] {
      NothingOwed(channels, seen, c, up);
    } else {
      var k := |sessions| - 1;
      var rest, sess := sessions[..k], sessions[k];
      IpsSplit(sessions);
      RowsOwedTotal(rest, channels, seen, c, up);
      MSumUnion(RowsOwedTo(rest, channels, seen), SessionRows(sess, channels, seen), RowSide(c, up));
      SessionRowsTotal(sess, channels, seen, c, up);
      SumPut(IpsOf(rest), IpShare(seen, c, up), sess.ip);
    }
  }

  lemma NothingOwed(channels: ChannelMap, seen: seq<Seen>, c: ChannelId, up: bool)
    ensures MSum(RowsOwedTo([], channels, seen), RowSide(c, up)) == 0
    ensures Sum(IpsOf([]), IpShare(seen, c, up)) == 0
  {
    assert IpsOf([]) == {};
  }

  lemma IpsSplit(sessions: seq<OnlineSession>)
    requires sessions != [] && DistinctIps(sessions)
    ensures var k := |sessions| - 1;
      && DistinctIps(sessions[..k])
      && sessions[k].ip !in IpsOf(sessions[..k]) && IpsOf(sessions) == IpsOf(sessions[..k]) + {sessions[k].ip}
  {
    var k := |sessions| - 1;
    var rest := sessions[..k];
    assert forall i | 0 <= i < k :: rest[i] == sessions[i];
    assert sessions[k].ip in IpsOf(sessions);
  }
}
