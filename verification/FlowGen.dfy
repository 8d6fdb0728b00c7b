/** The generator of flow files, as the printer whose output the accumulator reads back. */
module FlowGen {
  import opened Text
  import opened Address
  import opened FlowLine
  import Sift
  import opened Traffic
  import opened Accumulator
  import opened Billing
  import opened BillingRecovery

  const RECORD_COUNT := 100
  const MAX_BYTE_SIZE := 10000

  /** One generated record: to or from a random peer. */
  datatype Generated = Generated(peer: IpAddr, bytes: nat, down: bool)

  function LineOf(net: Net, client: string, g: Generated): string {
    var peer := ShowIP(net, g.peer);
    if g.down then PrintNat(g.bytes) + [','] + client + [','] + peer
    else PrintNat(g.bytes) + [','] + peer + [','] + client
  }

  function Rows(net: Net, client: string, records: seq<Generated>): string {
    if records == [] then "" else LineOf(net, client, records[0]) + ['\n'] + Rows(net, client, records[1..])
  }

  /** The file: the header line, then a line for each record. */
  function Printed(net: Net, client: string, records: seq<Generated>): string {
    FLOW_HEADER + ['\n'] + Rows(net, client, records)
  }

  /** The bytes of the records in one direction. */
  function Bytewise(records: seq<Generated>, down: bool): int {
    if records == [] then 0
    else (if records[0].down == down then records[0].bytes else 0) + Bytewise(records[1..], down)
  }

  ghost predicate Drawn(records: seq<Generated>) {
    forall i | 0 <= i < |records| :: records[i].peer.V4? && records[i].bytes <= MAX_BYTE_SIZE
  }

  lemma {:induction false} RowsSnoc(net: Net, client: string, records: seq<Generated>, g: Generated)
    ensures Rows(net, client, records + [g]) == Rows(net, client, records) + LineOf(net, client, g) + ['\n']
  {
    hide LineOf;
    if records == [] {
      assert [g][1..] == [];
    } else {
      assert (records + [g])[1..] == records[1..] + [g];
      RowsSnoc(net, client, records[1..], g);
    }
  }

  lemma PrintedSnoc(net: Net, client: string, records: seq<Generated>, g: Generated)
    ensures Printed(net, client, records + [g]) == Printed(net, client, records) + (LineOf(net, client, g) + ['\n'])
  {
    hide LineOf, Rows;
    RowsSnoc(net, client, records, g);
  }

  lemma PrintedNone(net: Net, client: string)
    ensures Printed(net, client, []) == FLOW_HEADER + ['\n']
  {
    assert FLOW_HEADER + ['\n'] + "" == FLOW_HEADER + ['\n'];
  }

  lemma {:induction false} BytewiseSnoc(records: seq<Generated>, g: Generated, down: bool)
    ensures Bytewise(records + [g], down) == Bytewise(records, down) + if g.down == down then g.bytes else 0
  {
    if records == [] {
      assert [g][1..] == [];
    } else {
      assert (records + [g])[1..] == records[1..] + [g];
      BytewiseSnoc(records[1..], g, down);
    }
  }

  /** What the random source yields for one record. */
  datatype Draw = Draw(peer: IpAddr, bytes: nat)

  predicate Fair(draws: seq<Draw>) {
    forall i | 0 <= i < |draws| :: draws[i].peer.V4? && 1 <= draws[i].bytes <= MAX_BYTE_SIZE
  }

  /** Every other record is a download, beginning with the first. */
  function RecordsOf(draws: seq<Draw>): (records: seq<Generated>)
    ensures |records| == |draws|
    ensures forall i | 0 <= i < |draws| :: records[i] == Generated(draws[i].peer, draws[i].bytes, i % 2 == 0)
  {
    seq(|draws|, i requires 0 <= i < |draws| => Generated(draws[i].peer, draws[i].bytes, i % 2 == 0))
  }

  lemma RecordsSnoc(draws: seq<Draw>, k: nat)
    requires k < |draws|
    ensures RecordsOf(draws[..k + 1]) ==
            RecordsOf(draws[..k]) + [Generated(draws[k].peer, draws[k].bytes, k % 2 == 0)]
  {
  }

  /** Writes a flow file of the drawn records and returns the bytes of both directions; nothing is
      drawn when the directory cannot be made. */
  method Generate(net: Net, clientIP: string, stamp: string, draws: seq<Draw>)
    returns (ok: bool, fileName: string, flowBytes: string, download: int, upload: int)
    requires |draws| == RECORD_COUNT && Fair(draws)
    ensures ok ==> "ft-" <= fileName && IsFlowName(fileName)
    ensures ok ==> forall i | 0 <= i < 100 :: RecordsOf(draws)[i].down <==> i % 2 == 0
    ensures ok ==> flowBytes == Printed(net, clientIP, RecordsOf(draws))
    ensures ok ==> download == Bytewise(RecordsOf(draws), true) && upload == Bytewise(RecordsOf(draws), false)
    ensures !ok ==> (download == 0 && upload == 0) ||
                    (download == Bytewise(RecordsOf(draws), true) && upload == Bytewise(RecordsOf(draws), false))
  {
    hide PrintNat, ShowIP, Printed, Rows;
    download, upload, fileName, flowBytes := 0, 0, "", "";
    ok := *;
    if !ok {
      return;
    }
    flowBytes := FLOW_HEADER + ['\n'];
    PrintedNone(net, clientIP);
    for i := 0 to RECORD_COUNT
      invariant flowBytes == Printed(net, clientIP, RecordsOf(draws[..i]))
      invariant download == Bytewise(RecordsOf(draws[..i]), true) && upload == Bytewise(RecordsOf(draws[..i]), false)
    {
      var Draw(peer, bytesTransfered) := draws[i];
      ghost var records, g := RecordsOf(draws[..i]), Generated(peer, bytesTransfered, i % 2 == 0);
      RecordsSnoc(draws, i);
      PrintedSnoc(net, clientIP, records, g);
      BytewiseSnoc(records, g, true);
      BytewiseSnoc(records, g, false);
      if i % 2 == 0 {
        download := download + bytesTransfered;
        flowBytes := flowBytes + (PrintNat(bytesTransfered) + [','] + clientIP + [','] + ShowIP(net, peer) + ['\n']);
      } else {
        upload := upload + bytesTransfered;
        flowBytes := flowBytes + (PrintNat(bytesTransfered) + [','] + ShowIP(net, peer) + [','] + clientIP + ['\n']);
      }
    }
    assert draws[..RECORD_COUNT] == draws;
    fileName := "ft-" + stamp;
    assert "ft-" <= fileName[0..];
    ok := *;
  }

  // ---- reading a line back

  /** The characters of addresses and numbers; commas, hash signs and line ends are not among them. */
  predicate Plain(s: string) {
    forall c | c in s :: IsDigit(c) || 'a' <= c <= 'f' || 'A' <= c <= 'F' || c == '.' || c == ':'
  }

  /** The client is a plain address inside the network, the peers lie outside. */
  ghost predicate Placed(net: Net, client: string, ip: IpAddr, records: seq<Generated>) {
    && Plain(client) && |client| <= 45 && ParseIP(net, client) == Some(ip)
    && net.internal(ip) == Some(true)
    && Drawn(records)
    && forall i | 0 <= i < |records| :: net.internal(records[i].peer) == Some(false)
  }

  /** A line of three plain fields is no header and splits into its fields. */
  lemma PlainLine(a: string, b: string, c: string)
    requires Plain(a) && Plain(b) && Plain(c)
    ensures var line := a + [','] + b + [','] + c;
      && !Contains(line, FLOW_HEADER) && Split(line, ',') == [a, b, c]
      && '\n' !in line && DropCR(line) == line
  {
    var line := a + [','] + b + [','] + c;
    SplitThree(a, b, c);
    assert '#' !in line && '\r' !in line;
    ContainsHead(line, FLOW_HEADER);
  }

  /** What the accumulator sees in a generated line. */
  function SeenOf(net: Net, ip: IpAddr, g: Generated): Seen {
    if g.down then Flow(ShowIP(net, ip), ShowIP(net, g.peer), g.bytes, true, false)
    else Flow(ShowIP(net, g.peer), ShowIP(net, ip), g.bytes, false, true)
  }

  lemma LineReadBack(net: Net, client: string, ip: IpAddr, g: Generated)
    requires Placed(net, client, ip, [g])
    ensures var line := LineOf(net, client, g);
      && '\n' !in line && DropCR(line) == line && See(net, line) == SeenOf(net, ip, g)
  {
    hide Contains, ParseIP, ShowIP, Split, DropCR, PrintNat, Atoi;
    var peer := ShowIP(net, g.peer);
    assert [g][0] == g;
    ParseShowV4(net, g.peer);
    AtoiPrintNat(g.bytes);
    if g.down {
      PlainLine(PrintNat(g.bytes), client, peer);
    } else {
      PlainLine(PrintNat(g.bytes), peer, client);
    }
  }

  lemma {:induction false} PrintNatLength(n: nat)
    ensures |PrintNat(n)| <= n + 1
  {
    if n >= 10 {
      PrintNatLength(n / 10);
    }
  }

  lemma LineFits(net: Net, client: string, ip: IpAddr, g: Generated)
    requires Placed(net, client, ip, [g])
    ensures |LineOf(net, client, g)| < MAX_TOKEN
  {
    hide PrintNat;
    assert [g][0] == g;
    var V4(a, b, c, d) := g.peer;
    PrintNatLength(g.bytes);
    PrintNatLength(a);
    PrintNatLength(b);
    PrintNatLength(c);
    PrintNatLength(d);
    ShowV4Length(a, b, c, d);
  }

  lemma ShowV4Length(a: Octet, b: Octet, c: Octet, d: Octet)
    ensures |ShowV4(a, b, c, d)| == |PrintNat(a)| + |PrintNat(b)| + |PrintNat(c)| + |PrintNat(d)| + 3
  {
    hide PrintNat;
    var fields := [PrintNat(a), PrintNat(b), PrintNat(c), PrintNat(d)];
    assert Join(fields, '.') == fields[0] + ['.'] + Join(fields[1..], '.');
    assert Join(fields[1..], '.') == fields[1] + ['.'] + Join(fields[1..][1..], '.');
    assert Join(fields[1..][1..], '.') == fields[2] + ['.'] + fields[3];
  }

  // ---- reading the file back

  function SeenRows(net: Net, ip: IpAddr, records: seq<Generated>): seq<Seen> {
    if records == [] then [] else [SeenOf(net, ip, records[0])] + SeenRows(net, ip, records[1..])
  }

  lemma {:induction false} RowsReadBack(net: Net, client: string, ip: IpAddr, records: seq<Generated>)
    requires Placed(net, client, ip, records)
    ensures SeeAll(net, Lines(Rows(net, client, records))) == SeenRows(net, ip, records)
    ensures Scannable(Rows(net, client, records))
  {
    hide See, LineOf, Lines, Scannable, SeenOf;
    if records == [] {
      NoLines();
    } else {
      var g, rest := records[0], records[1..];
      assert forall i | 0 <= i < |rest| :: rest[i] == records[i + 1];
      RowsReadBack(net, client, ip, rest);
      assert Placed(net, client, ip, [g]);
      LineReadBack(net, client, ip, g);
      LineFits(net, client, ip, g);
      LinesCons(LineOf(net, client, g), Rows(net, client, rest));
      SeeAllConcat(net, [LineOf(net, client, g)], Lines(Rows(net, client, rest)));
      assert SeeAll(net, [LineOf(net, client, g)]) == [SeenOf(net, ip, g)];
    }
  }

  lemma NoLines()
    ensures Lines("") == [] && Scannable("")
  {
  }

  lemma HeaderIgnored(net: Net)
    ensures See(net, FLOW_HEADER) == Ignored
    ensures '\n' !in FLOW_HEADER && DropCR(FLOW_HEADER) == FLOW_HEADER && |FLOW_HEADER| < MAX_TOKEN
  {
    assert FLOW_HEADER <= FLOW_HEADER[0..];
  }

  lemma PrintedReadBack(net: Net, client: string, ip: IpAddr, records: seq<Generated>)
    requires Placed(net, client, ip, records)
    ensures SeeAll(net, Lines(Printed(net, client, records))) == [Ignored] + SeenRows(net, ip, records)
    ensures Scannable(Printed(net, client, records))
  {
    hide See, Rows, Lines, Scannable, SeenRows;
    RowsReadBack(net, client, ip, records);
    HeaderIgnored(net);
    LinesCons(FLOW_HEADER, Rows(net, client, records));
    SeeAllConcat(net, [FLOW_HEADER], Lines(Rows(net, client, records)));
    assert SeeAll(net, [FLOW_HEADER]) == [Ignored];
  }

  /** What the rows add up to, for any address and channel. */
  lemma {:induction false} RowsTotal(net: Net, ip: IpAddr, records: seq<Generated>, key: string, c: ChannelId)
    ensures Total(SeenRows(net, ip, records), key, c) ==
            if key == ShowIP(net, ip) && c == EXTERNAL
            then Bytes(Bytewise(records, true), Bytewise(records, false)) else ZERO
  {
    hide ShowIP;
    if records == [] {
    } else {
      var rest := records[1..];
      RowsTotal(net, ip, rest, key, c);
      TotalConcat([SeenOf(net, ip, records[0])], SeenRows(net, ip, rest), key, c);
      TotalOne(SeenOf(net, ip, records[0]), key, c);
    }
  }

  /** The client's cells: the generator's totals on the external channel, zero on every other. */
  function ClientCells(channels: ChannelMap, records: seq<Generated>): map<ChannelId, Bytes> {
    map c | c in Enabled(channels) ::
      if c == EXTERNAL then Bytes(Bytewise(records, true), Bytewise(records, false)) else ZERO
  }

  lemma SeenTotal(net: Net, ip: IpAddr, records: seq<Generated>, c: ChannelId)
    ensures Total([Ignored] + SeenRows(net, ip, records), ShowIP(net, ip), c) ==
            if c == EXTERNAL then Bytes(Bytewise(records, true), Bytewise(records, false)) else ZERO
  {
    hide *;
    SkipIgnored(SeenRows(net, ip, records), ShowIP(net, ip), c);
    RowsTotal(net, ip, records, ShowIP(net, ip), c);
  }

  lemma SkipIgnored(rows: seq<Seen>, key: string, c: ChannelId)
    ensures Total([Ignored] + rows, key, c) == Total(rows, key, c)
  {
    hide Total;
    TotalConcat([Ignored], rows, key, c);
    TotalOne(Ignored, key, c);
  }

  lemma SeenCells(net: Net, channels: ChannelMap, ip: IpAddr, records: seq<Generated>)
    ensures Row(channels, [Ignored] + SeenRows(net, ip, records), ShowIP(net, ip)) == ClientCells(channels, records)
  {
    hide Total, SeenRows, ShowIP, Bytewise;
    var seen := [Ignored] + SeenRows(net, ip, records);
    var row, cells := Row(channels, seen, ShowIP(net, ip)), ClientCells(channels, records);
    forall c | c in row
      ensures row[c] == cells[c]
    {
      SeenTotal(net, ip, records, c);
    }
    assert row.Keys == cells.Keys;
  }

  /** The traffic the accumulator reports for a generated file is that of the client alone: on the
      external channel exactly the totals the generator returned, zero on every other channel. */
  lemma RoundTrip(net: Net, channels: ChannelMap, client: string, ip: IpAddr, records: seq<Generated>)
    requires Placed(net, client, ip, records)
    ensures Scannable(Printed(net, client, records))
    ensures var seen := SeeAll(net, Lines(Printed(net, client, records)));
      && Tally(channels, seen) ==
           (if records == [] then map[] else map[ShowIP(net, ip) := ClientCells(channels, records)])
      && StatusOf(seen) == (if records == [] then InternalError else Fine)
  {
    hide See, Lines, Printed, ShowIP, Scannable, Row, SeenRows, Placed, StatusOf, Touched, ClientCells;
    PrintedReadBack(net, client, ip, records);
    TouchedRows(net, ip, records);
    SeenCells(net, channels, ip, records);
  }

  /** So the generator's totals are what a session of the client is owed on channel 2 for the file, once, and the
      session is owed nothing else on any channel. */
  lemma ExpectedChunk(net: Net, job: Sift.Job, client: string, ip: IpAddr, records: seq<Generated>,
                      sess: Sift.OnlineSession)
    requires Placed(net, client, ip, records) && records != []
    requires sess in job.sessions && sess.ip == ShowIP(net, ip) && Sift.DistinctIds(job.sessions)
    requires ChannelId(2) in job.channels && job.channels[ChannelId(2)]
    ensures var verdict := Judge(net, job, Lines(Printed(net, client, records)));
      var expected := Sift.Chunk(sess.sessId, 2, Bytewise(records, true), Bytewise(records, false));
      && verdict.Owed? && verdict.rows[expected] == 1
      && forall row | row in verdict.rows && row.sessId == sess.sessId ::
           row == expected || (row.channelId != 2 && row.download == 0 && row.upload == 0)
  {
    hide See, Lines, Printed, ShowIP, Scannable, SeenRows, Placed, StatusOf, Total, Sift.RowsOwedTo, Bytewise;
    var seen := SeeAll(net, Lines(Printed(net, client, records)));
    var expected := Sift.Chunk(sess.sessId, 2, Bytewise(records, true), Bytewise(records, false));
    PrintedReadBack(net, client, ip, records);
    TouchedRows(net, ip, records);
    SeenTotal(net, ip, records, ChannelId(2));
    Sift.RowOwedExactly(job.sessions, job.channels, seen, expected);
    var i :| 0 <= i < |job.sessions| && job.sessions[i] == sess;
    assert ChannelId(2) in job.channels;
    Sift.RowOwedCount(job.sessions, job.channels, seen, expected);
    forall row | row in Sift.RowsOwedTo(job.sessions, job.channels, seen) && row.sessId == sess.sessId
      ensures row == expected || (row.channelId != 2 && row.download == 0 && row.upload == 0)
    {
      Sift.RowOwedExactly(job.sessions, job.channels, seen, row);
      SeenTotal(net, ip, records, ChannelId(row.channelId));
    }
  }

  lemma {:induction false} SeenRowsAt(net: Net, ip: IpAddr, records: seq<Generated>, i: nat)
    requires i < |records|
    ensures |SeenRows(net, ip, records)| == |records| && SeenRows(net, ip, records)[i] == SeenOf(net, ip, records[i])
  {
    hide SeenOf;
    if |records| > 1 {
      SeenRowsAt(net, ip, records[1..], if i == 0 then 0 else i - 1);
    }
  }

  /** Every record touches the client and nothing else. */
  lemma TouchedRows(net: Net, ip: IpAddr, records: seq<Generated>)
    ensures var seen := [Ignored] + SeenRows(net, ip, records);
      && Touched(seen) == (if records == [] then {} else {ShowIP(net, ip)})
      && StatusOf(seen) == (if records == [] then InternalError else Fine)
  {
    hide ShowIP, SeenRows;
    var rows := SeenRows(net, ip, records);
    var seen := [Ignored] + rows;
    if records == [] {
      NoRows(net, ip);
    } else {
      AllSeen(net, ip, records);
      assert seen[1] == rows[0] && seen[1].Flow?;
      assert ShowIP(net, ip) in Ends(seen[1]);
      forall x
        ensures x in Touched(seen) <==> x in {ShowIP(net, ip)}
      {
        TouchedMeaning(seen, x);
        assert forall i | 1 <= i < |seen| :: seen[i] == rows[i - 1];
      }
    }
  }

  lemma AllSeen(net: Net, ip: IpAddr, records: seq<Generated>)
    ensures |SeenRows(net, ip, records)| == |records|
    ensures forall i | 0 <= i < |records| :: SeenRows(net, ip, records)[i] == SeenOf(net, ip, records[i])
  {
    hide SeenOf;
    if records != [] {
      SeenRowsAt(net, ip, records, 0);
    }
    forall i | 0 <= i < |records|
      ensures SeenRows(net, ip, records)[i] == SeenOf(net, ip, records[i])
    {
      SeenRowsAt(net, ip, records, i);
    }
  }

  lemma NoRows(net: Net, ip: IpAddr)
    ensures SeenRows(net, ip, []) == []
    ensures Touched([Ignored]) == {} && StatusOf([Ignored]) == InternalError
  {
    assert [Ignored][..0] == [];
  }

  // ---- a file nobody can read

  const NO_RECORD := "no record"

  lemma OneLine(line: string)
    requires line != "" && '\n' !in line && '\r' !in line
    ensures Lines(line) == [line]
  {
    SplitSingle(line, '\n');
    assert DropCR(line) == line;
    assert RawLines(line) == [line];
  }

  lemma OneField(net: Net, line: string)
    requires ',' !in line
    ensures See(net, line) == Ignored
  {
    hide Contains;
    SplitSingle(line, ',');
  }

  lemma NoRecordIsNoFlow(net: Net)
    ensures NoFlowIn(net, NO_RECORD)
  {
    hide See, Lines;
    OneLine(NO_RECORD);
    OneField(net, NO_RECORD);
  }

  lemma GeneratedIsFlow(net: Net, client: string, ip: IpAddr, records: seq<Generated>)
    requires Placed(net, client, ip, records) && records != []
    ensures !NoFlowIn(net, Printed(net, client, records))
  {
    hide See, Lines, Printed, Placed, SeenOf, SeenRows;
    PrintedReadBack(net, client, ip, records);
    AllSeen(net, ip, records);
    var lines := Lines(Printed(net, client, records));
    var seen := SeeAll(net, lines);
    assert seen[1] == SeenRows(net, ip, records)[0] && seen[1] == See(net, lines[1]);
    SeenIsFlow(net, ip, records[0]);
  }

  lemma SeenIsFlow(net: Net, ip: IpAddr, g: Generated)
    ensures SeenOf(net, ip, g).Flow?
  {
    hide ShowIP;
  }

  /** A batch of two files, one generated and one without a single record: by itself the second would be
      kept for the next cycle, in this batch it is swept. */
  lemma UnreadableFileSwept(net: Net, job: Sift.Job, client: string, ip: IpAddr, records: seq<Generated>)
    requires Placed(net, client, ip, records) && records != []
    ensures var good, bad := File(0, Printed(net, client, records)), File(1, NO_RECORD);
      && Judge(net, job, AllLines([bad])).Unrecognised?
      && !Judge(net, job, AllLines([good, bad])).Unrecognised?
  {
    hide Judge, AllLines, Printed, Placed, NoFlowIn;
    var good, bad := File(0, Printed(net, client, records)), File(1, NO_RECORD);
    NoRecordIsNoFlow(net);
    GeneratedIsFlow(net, client, ip, records);
    BatchKept(net, job, [bad]);
    BatchKept(net, job, [good, bad]);
    assert [good, bad][0] == good;
  }
}
