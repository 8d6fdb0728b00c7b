/**
 The line-by-line accumulator of one nas: a map from address to a mutable cell
 table, updated in place, and the sift that joins the result with the sessions.
 */
module Accumulator {
  import opened Text
  import opened Address
  import opened FlowLine
  import opened Traffic
  import opened Cells

  // ---- what counting one record does to the traffic, as a function on values

  function Put(channels: ChannelMap, m: TrafficMap, ip: string, c: ChannelId, b: Bytes): TrafficMap {
    m[ip := Bump(channels, if ip in m then m[ip] else map[], c, b)]
  }

  lemma PutMeans(channels: ChannelMap, m: TrafficMap, ip: string, c: ChannelId, b: Bytes)
    ensures Put(channels, m, ip, c, b) == m[ip := Bump(channels, if ip in m then m[ip] else map[], c, b)]
  {
  }

  function CountOf(channels: ChannelMap, m: TrafficMap, x: Seen): TrafficMap {
    if !x.Flow? then m
    else if x.srcIn && x.dstIn then
      Put(channels, Put(channels, m, x.src, INTERNAL, Bytes(x.bytes, 0)), x.dst, INTERNAL, Bytes(0, x.bytes))
    else if x.srcIn then Put(channels, m, x.src, EXTERNAL, Bytes(x.bytes, 0))
    else if x.dstIn then Put(channels, m, x.dst, EXTERNAL, Bytes(0, x.bytes))
    else m
  }

  /** Every inner map has exactly the enabled channels as keys. */
  ghost predicate Shaped(channels: ChannelMap, m: TrafficMap) {
    forall ip | ip in m :: m[ip].Keys == Enabled(channels)
  }

  lemma TotalSnoc(seen: seq<Seen>, x: Seen, ip: string, c: ChannelId)
    ensures Total(seen + [x], ip, c) == Total(seen, ip, c).Merge(Share(x, ip, c))
    ensures Touched(seen + [x]) == Touched(seen) + Ends(x)
  {
    var s := seen + [x];
    assert s[..|s| - 1] == seen && s[|s| - 1] == x;
  }

  lemma BumpAt(channels: ChannelMap, cells: map<ChannelId, Bytes>, c: ChannelId, b: Bytes, k: ChannelId)
    requires k in Enabled(channels)
    ensures k in Bump(channels, cells, c, b)
    ensures Bump(channels, cells, c, b)[k] == (if k == c then b else ZERO).Merge(if k in cells then cells[k] else ZERO)
  {
  }

  function Cell(m: TrafficMap, ip: string, c: ChannelId): Bytes {
    if ip in m && c in m[ip] then m[ip][c] else ZERO
  }

  lemma PutAt(channels: ChannelMap, m: TrafficMap, at: string, k: ChannelId, b: Bytes, ip: string, c: ChannelId)
    requires Shaped(channels, m) && c in Enabled(channels)
    ensures Cell(Put(channels, m, at, k, b), ip, c) == Cell(m, ip, c).Merge(if ip == at && c == k then b else ZERO)
  {
    BumpAt(channels, if at in m then m[at] else map[], k, b, c);
  }

  lemma PutShaped(channels: ChannelMap, m: TrafficMap, at: string, k: ChannelId, b: Bytes)
    requires Shaped(channels, m)
    ensures Shaped(channels, Put(channels, m, at, k, b))
    ensures Put(channels, m, at, k, b).Keys == m.Keys + {at}
  {
  }

  /** After counting, every cell has grown by the record's share. */
  lemma CountAt(channels: ChannelMap, m: TrafficMap, x: Seen, ip: string, c: ChannelId)
    requires Shaped(channels, m) && c in Enabled(channels)
    ensures Cell(CountOf(channels, m, x), ip, c) == Cell(m, ip, c).Merge(Share(x, ip, c))
  {
    if x.Flow? && x.srcIn && x.dstIn {
      CountAtBoth(channels, m, x, ip, c);
    } else if x.Flow? && (x.srcIn || x.dstIn) {
      CountAtOne(channels, m, x, ip, c);
    } else {
      assert CountOf(channels, m, x) == m;
    }
  }

  /** A record has been added to the download of its source and to the upload of its destination, each if it lies
      inside, on channel 1 if the other end does too and on channel 2 if not, and no other cell has changed. */
  ghost predicate Counted(channels: ChannelMap, m: TrafficMap, n: TrafficMap, x: Seen)
    requires x.Flow?
  {
    forall ip, c | c in channels && channels[c] ::
      && Cell(n, ip, c).download == Cell(m, ip, c).download +
           (if x.srcIn && ip == x.src && c.id == (if x.dstIn then 1 else 2) then x.bytes else 0)
      && Cell(n, ip, c).upload == Cell(m, ip, c).upload +
           (if x.dstIn && ip == x.dst && c.id == (if x.srcIn then 1 else 2) then x.bytes else 0)
  }

  lemma CountExactly(channels: ChannelMap, m: TrafficMap, x: Seen)
    requires Shaped(channels, m) && x.Flow?
    ensures Counted(channels, m, CountOf(channels, m, x), x)
  {
    hide CountOf, Cell;
    forall ip, c | c in channels && channels[c]
      ensures Cell(CountOf(channels, m, x), ip, c) == Cell(m, ip, c).Merge(Share(x, ip, c))
    {
      CountAt(channels, m, x, ip, c);
    }
  }

  lemma CountAtBoth(channels: ChannelMap, m: TrafficMap, x: Seen, ip: string, c: ChannelId)
    requires Shaped(channels, m) && c in Enabled(channels)
    requires x.Flow? && x.srcIn && x.dstIn
    ensures Cell(CountOf(channels, m, x), ip, c) == Cell(m, ip, c).Merge(Share(x, ip, c))
  {
    PutTwice(channels, m, x.src, x.dst, Bytes(x.bytes, 0), Bytes(0, x.bytes), ip, c);
  }

  lemma PutTwice(channels: ChannelMap, m: TrafficMap, at1: string, at2: string, b1: Bytes, b2: Bytes,
                 ip: string, c: ChannelId)
    requires Shaped(channels, m) && c in Enabled(channels)
    ensures Cell(Put(channels, Put(channels, m, at1, INTERNAL, b1), at2, INTERNAL, b2), ip, c) ==
            Cell(m, ip, c)
            .Merge(if ip == at1 && c == INTERNAL then b1 else ZERO)
            .Merge(if ip == at2 && c == INTERNAL then b2 else ZERO)
  {
    var half := Put(channels, m, at1, INTERNAL, b1);
    PutAt(channels, m, at1, INTERNAL, b1, ip, c);
    PutShaped(channels, m, at1, INTERNAL, b1);
    PutAt(channels, half, at2, INTERNAL, b2, ip, c);
  }

  lemma CountAtOne(channels: ChannelMap, m: TrafficMap, x: Seen, ip: string, c: ChannelId)
    requires Shaped(channels, m) && c in Enabled(channels)
    requires x.Flow? && x.srcIn != x.dstIn
    ensures Cell(CountOf(channels, m, x), ip, c) == Cell(m, ip, c).Merge(Share(x, ip, c))
  {
    if x.srcIn {
      PutAt(channels, m, x.src, EXTERNAL, Bytes(x.bytes, 0), ip, c);
    } else {
      PutAt(channels, m, x.dst, EXTERNAL, Bytes(0, x.bytes), ip, c);
    }
  }

  lemma CountKeys(channels: ChannelMap, m: TrafficMap, x: Seen)
    requires Shaped(channels, m)
    ensures CountOf(channels, m, x).Keys == m.Keys + Ends(x)
    ensures Shaped(channels, CountOf(channels, m, x))
  {
    if x.Flow? && x.srcIn && x.dstIn {
      PutShaped(channels, m, x.src, INTERNAL, Bytes(x.bytes, 0));
    }
  }

  lemma SameCells(channels: ChannelMap, m: TrafficMap, n: TrafficMap)
    requires m.Keys == n.Keys && Shaped(channels, m) && Shaped(channels, n)
    requires forall ip, c | c in Enabled(channels) :: Cell(m, ip, c) == Cell(n, ip, c)
    ensures m == n
  {
    forall ip | ip in m
      ensures m[ip] == n[ip]
    {
      forall c | c in m[ip]
        ensures m[ip][c] == n[ip][c]
      {
        assert Cell(m, ip, c) == Cell(n, ip, c);
      }
    }
  }

  lemma TallyShaped(channels: ChannelMap, seen: seq<Seen>)
    ensures Shaped(channels, Tally(channels, seen))
  {
  }

  lemma TallyAt(channels: ChannelMap, seen: seq<Seen>, ip: string, c: ChannelId)
    requires c in Enabled(channels)
    ensures Cell(Tally(channels, seen), ip, c) == Total(seen, ip, c)
  {
    if ip !in Touched(seen) { TotalUntouched(seen, ip, c); }
  }

  /** Counting a record step by step lands on the declarative sum over one more record. */
  lemma CountIsTally(channels: ChannelMap, seen: seq<Seen>, x: Seen)
    ensures CountOf(channels, Tally(channels, seen), x) == Tally(channels, seen + [x])
  {
    var before, after := Tally(channels, seen), Tally(channels, seen + [x]);
    var counted := CountOf(channels, before, x);
    TotalSnoc(seen, x, "", INTERNAL);
    CountKeys(channels, before, x);
    forall ip, c | c in Enabled(channels)
      ensures Cell(counted, ip, c) == Cell(after, ip, c)
    {
      CountIsTallyAt(channels, seen, x, ip, c);
    }
    SameCells(channels, counted, after);
  }

  lemma CountIsTallyAt(channels: ChannelMap, seen: seq<Seen>, x: Seen, ip: string, c: ChannelId)
    requires c in Enabled(channels)
    ensures Cell(CountOf(channels, Tally(channels, seen), x), ip, c) == Cell(Tally(channels, seen + [x]), ip, c)
  {
    CountAt(channels, Tally(channels, seen), x, ip, c);
    TallyAt(channels, seen, ip, c);
    TallyAt(channels, seen + [x], ip, c);
    TotalSnoc(seen, x, ip, c);
  }

  /** The number of records parsed but not classified. */
  function Unplaced(seen: seq<Seen>): nat {
    if seen == [] then 0
    else Unplaced(seen[..|seen| - 1]) + if seen[|seen| - 1].Unclassified? then 1 else 0
  }

  lemma {:induction false} ClassifiedNone(seen: seq<Seen>)
    ensures Classified(seen) == 0 <==> !AnyFlow(seen)
  {
    if seen == [] {
    } else {
      var k := |seen| - 1;
      ClassifiedNone(seen[..k]);
      assert forall i | 0 <= i < k :: seen[..k][i] == seen[i];
    }
  }

  lemma CountsSnoc(seen: seq<Seen>, x: Seen)
    ensures Classified(seen + [x]) == Classified(seen) + if x.Flow? then 1 else 0
    ensures Unplaced(seen + [x]) == Unplaced(seen) + if x.Unclassified? then 1 else 0
  {
    assert (seen + [x])[..|seen|] == seen;
  }

  lemma IgnoredAddsNothing(channels: ChannelMap, seen: seq<Seen>)
    ensures Tally(channels, seen + [Ignored]) == Tally(channels, seen)
    ensures Classified(seen + [Ignored]) == Classified(seen) && Unplaced(seen + [Ignored]) == Unplaced(seen)
  {
    CountIsTally(channels, seen, Ignored);
    CountsSnoc(seen, Ignored);
  }

  datatype Status = Fine | NoData | InternalError

  /** What the accumulator reports about a batch. */
  function StatusOf(seen: seq<Seen>): Status {
    if AnyTouch(seen) then Fine else if AnyFlow(seen) then NoData else InternalError
  }

  /** Neither the traffic nor the status depends on the order of lines or files. */
  lemma ResultPermuted(channels: ChannelMap, xs: seq<Seen>, ys: seq<Seen>)
    requires multiset(xs) == multiset(ys)
    ensures Tally(channels, xs) == Tally(channels, ys) && StatusOf(xs) == StatusOf(ys)
  {
    hide AnyTouch, AnyFlow, Tally;
    TallyPermuted(channels, xs, ys);
    AnyPermuted(xs, ys);
  }

  // ---- the accumulator

  class FlowAccumulator {
    const net: Net
    const channels: ChannelMap
    var trafficMap: map<string, CellTable>
    var parsedRecords: nat
    var classifyErrCount: nat
    ghost var lines: seq<string>

    ghost function Inner(): set<object>
      reads this`trafficMap
    {
      set ip | ip in trafficMap :: trafficMap[ip]
    }

    /** The inner tables of different addresses are different objects. */
    ghost predicate Separate()
      reads this`trafficMap
    {
      forall i, j | i in trafficMap && j in trafficMap && i != j :: trafficMap[i] != trafficMap[j]
    }

    ghost function View(): TrafficMap
      reads this`trafficMap, Inner()
    {
      ViewOf(trafficMap)
    }

    ghost function Taken(): seq<Seen>
      reads this`lines
    {
      SeeAll(net, lines)
    }

    /** The traffic and the counters stand for the given records. */
    ghost predicate Holds(seen: seq<Seen>)
      reads this`trafficMap, this`parsedRecords, this`classifyErrCount, Inner()
    {
      && View() == Tally(channels, seen)
      && classifyErrCount == Unplaced(seen)
      && parsedRecords == Classified(seen) + Unplaced(seen)
    }

    ghost predicate Valid()
      reads this, Inner()
    {
      Separate() && Holds(Taken())
    }

    constructor (net: Net, channels: ChannelMap)
      ensures Valid() && Inner() == {}
      ensures this.net == net && this.channels == channels && lines == []
    {
      this.net := net;
      this.channels := channels;
      trafficMap := map[];
      parsedRecords := 0;
      classifyErrCount := 0;
      lines := [];
    }

    /** Takes one line. A malformed line is skipped, never an error. */
    method AccumulateLine(line: string)
      requires Valid()
      modifies this, Inner()
      ensures Valid() && fresh(Inner() - old(Inner()))
      ensures lines == old(lines) + [line]
    {
      hide Holds, See, Classify, Tally, Unplaced, Classified;
      var parsed := ReadRecord(line);
      if parsed.None? {
        HoldsIgnored(Taken());
      } else {
        TakeRecord(parsed.value, Taken());
      }
      TakenSnoc(line);
      lines := lines + [line];
    }

    lemma HoldsIgnored(seen: seq<Seen>)
      requires Holds(seen)
      ensures Holds(seen + [Ignored])
    {
      hide Tally, Unplaced, Classified;
      IgnoredAddsNothing(channels, seen);
    }

    lemma TakenSnoc(line: string)
      ensures SeeAll(net, lines + [line]) == Taken() + [See(net, line)]
    {
      SeeAllConcat(net, lines, [line]);
      assert SeeAll(net, [line]) == [See(net, line)];
    }

    /** Looks both ends up and counts the record, or counts a failed lookup. */
    method TakeRecord(record: Record, ghost seen: seq<Seen>)
      requires Separate() && Holds(seen)
      modifies this`trafficMap, this`parsedRecords, this`classifyErrCount, Inner()
      ensures Separate() && fresh(Inner() - old(Inner()))
      ensures Holds(seen + [Classify(net, record)])
    {
      CountIsTally(channels, seen, Classify(net, record));
      CountsSnoc(seen, Classify(net, record));
      TallyShaped(channels, seen);
      parsedRecords := parsedRecords + 1;
      var isSrcInternal := net.internal(record.src);
      var isDstInternal := if isSrcInternal.None? then None else net.internal(record.dst);
      if isDstInternal.None? {
        classifyErrCount := classifyErrCount + 1;
        return;
      }
      Count(record, isSrcInternal.value, isDstInternal.value);
    }

    /** The record the text of a line says, if it says one. */
    method ReadRecord(line: string) returns (r: Option<Record>)
      ensures r.None? ==> See(net, line) == Ignored
      ensures r.Some? ==> See(net, line) == Classify(net, r.value)
      ensures if r.Some? then Says(net, line, r.value) else forall q :: !Says(net, line, q)
    {
      SeeSays(line);
      if Contains(line, FLOW_HEADER) || line == "" {
        SplitSingle("", ',');
        return None;
      }
      var rowArgs := Split(line, ',');
      if |rowArgs| != FIELD_COUNT {
        return None;
      }
      var parsed := ParseRecordSteps(rowArgs[0], rowArgs[1], rowArgs[2]);
      return if parsed.Rejected? then None else Some(parsed.record);
    }

    lemma SeeSays(line: string)
      ensures See(net, line) == Ignored ==> forall q :: !Says(net, line, q)
      ensures See(net, line) != Ignored ==>
                var f := Split(line, ',');
                |f| == 3 && ParseRecord(net, f[0], f[1], f[2]).Parsed? &&
                Says(net, line, ParseRecord(net, f[0], f[1], f[2]).record)
    {
      hide Says, Classify;
      if See(net, line) != Ignored {
        var r := SaysOf(net, line);
      } else {
        forall q
          ensures !Says(net, line, q)
        {
          SeeExactly(net, line, q);
        }
      }
    }

    /** Parsing in the order source, destination, byte count; the first failure decides the error. */
    method ParseRecordSteps(bytes: string, src: string, dst: string) returns (r: ParseResult)
      ensures r == ParseRecord(net, bytes, src, dst)
      ensures r == Rejected(UndefinedIPFormat) <==> ParseIP(net, src).None? || ParseIP(net, dst).None?
      ensures r.Parsed? ==> ParseIP(net, src) == Some(r.record.src) && ParseIP(net, dst) == Some(r.record.dst)
      ensures r.Parsed? ==> Numeral(bytes, r.record.bytes)
      ensures r == Rejected(TrafficByteParse) ==>
                forall n | Numeral(bytes, n) :: n < -9223372036854775808 || 9223372036854775807 < n
    {
      hide ParseIP, Numeral, Atoi;
      forall n {
        AtoiExactly(bytes, n);
      }
      var srcIP := ParseIP(net, src);
      if srcIP.None? {
        return Rejected(UndefinedIPFormat);
      }
      var dstIP := ParseIP(net, dst);
      if dstIP.None? {
        return Rejected(UndefinedIPFormat);
      }
      var n := Atoi(bytes);
      if n.None? {
        return Rejected(TrafficByteParse);
      }
      return Parsed(Record(srcIP.value, dstIP.value, n.value));
    }

    /** The table of one address with b added, in place or new; the tables of other addresses stay. */
    method TableWith(ip: string, b: Bytes, c: ChannelId) returns (r: CellTable)
      requires Separate() && Shaped(channels, View())
      modifies Inner()
      ensures (ip in trafficMap && r == trafficMap[ip]) || fresh(r)
      ensures r.cells == Bump(channels, if ip in old(View()) then old(View())[ip] else map[], c, b)
      ensures forall i | i in trafficMap && i != ip :: trafficMap[i] != r && trafficMap[i].cells == old(View())[i]
    {
      hide Shaped, Bump;
      TableShape(ip);
      var table := if ip in trafficMap then trafficMap[ip] else null;
      r := CountTraffic(table, b, channels, c);
    }

    /** Charges one end of a record. */
    method Charge(ip: string, b: Bytes, c: ChannelId)
      requires Separate() && Shaped(channels, View())
      modifies this`trafficMap, Inner()
      ensures Separate() && Shaped(channels, View()) && fresh(Inner() - old(Inner()))
      ensures View() == Put(channels, old(View()), ip, c, b)
    {
      hide Shaped, Bump, Put, View;
      PutShaped(channels, View(), ip, c, b);
      ghost var before := View();
      ViewKeys();
      var r := TableWith(ip, b, c);
      trafficMap := trafficMap[ip := r];
      ViewIs(before[ip := r.cells]);
      PutMeans(channels, before, ip, c, b);
    }

    lemma ViewKeys()
      ensures View().Keys == trafficMap.Keys
    {
    }

    lemma ViewIs(m: TrafficMap)
      requires m.Keys == trafficMap.Keys && forall i | i in trafficMap :: trafficMap[i].cells == m[i]
      ensures View() == m
    {
    }

    /** What CountTraffic needs to know about the table of one address. */
    lemma TableShape(ip: string)
      requires Shaped(channels, View())
      ensures ip in trafficMap ==> trafficMap[ip].cells == View()[ip] && trafficMap[ip].cells.Keys == Enabled(channels)
    {
    }

    /** Counts a classified record; self-flows and both-sided records charge twice. */
    method Count(record: Record, isSrcInternal: bool, isDstInternal: bool)
      requires Separate() && Shaped(channels, View())
      modifies this`trafficMap, Inner()
      ensures Separate() && fresh(Inner() - old(Inner()))
      ensures View() == CountOf(channels, old(View()),
                Flow(ShowIP(net, record.src), ShowIP(net, record.dst), record.bytes, isSrcInternal, isDstInternal))
      ensures Counted(channels, old(View()), View(),
                Flow(ShowIP(net, record.src), ShowIP(net, record.dst), record.bytes, isSrcInternal, isDstInternal))
    {
      CountExactly(channels, View(),
        Flow(ShowIP(net, record.src), ShowIP(net, record.dst), record.bytes, isSrcInternal, isDstInternal));
      if isSrcInternal && isDstInternal {
        Charge(ShowIP(net, record.src), Bytes(record.bytes, 0), INTERNAL);
        Charge(ShowIP(net, record.dst), Bytes(0, record.bytes), INTERNAL);
      } else if isSrcInternal {
        Charge(ShowIP(net, record.src), Bytes(record.bytes, 0), EXTERNAL);
      } else if isDstInternal {
        Charge(ShowIP(net, record.dst), Bytes(0, record.bytes), EXTERNAL);
      }
    }

    /** Fine iff some classified record touches the internal network, NoData iff some record was
        classified but none touches it, InternalError iff none was classified. */
    method Result() returns (m: map<string, CellTable>, status: Status)
      requires Valid()
      ensures m == trafficMap
      ensures status == StatusOf(Taken())
      ensures status == InternalError <==> forall i | 0 <= i < |lines| :: !Taken()[i].Flow?
      ensures status == Fine <==>
                exists i | 0 <= i < |lines| :: Taken()[i].Flow? && (Taken()[i].srcIn || Taken()[i].dstIn)
    {
      ghost var seen := Taken();
      TouchedEmpty(seen);
      ClassifiedNone(seen);
      assert View().Keys == Touched(seen);
      m, status := trafficMap, Fine;
      if trafficMap == map[] {
        assert View().Keys == {};
        status := if parsedRecords == 0 || classifyErrCount == parsedRecords then InternalError else NoData;
        assert AnyTouch(seen) ==> AnyFlow(seen);
      } else {
        var ip :| ip in trafficMap;
        assert ip in View();
      }
    }
  }
}
