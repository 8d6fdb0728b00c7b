/**
 What one line of a flow file says: nothing, a record whose addresses could not
 be looked up, or a record with both ends placed inside or outside the internal network.
 */
module FlowLine {
  import opened Text
  import opened Address

  const FLOW_HEADER := "#:doctets,srcaddr,dstaddr"
  const FIELD_COUNT := 3

  datatype Record = Record(src: IpAddr, dst: IpAddr, bytes: int)

  datatype Seen =
    | Ignored
    | Unclassified
    | Flow(src: string, dst: string, bytes: int, srcIn: bool, dstIn: bool)

  datatype ParseError = UndefinedIPFormat | TrafficByteParse

  datatype ParseResult = Parsed(record: Record) | Rejected(error: ParseError)

  /** The source address is tried first, then the destination, then the byte count. */
  function ParseRecord(net: Net, bytes: string, src: string, dst: string): ParseResult {
    match (ParseIP(net, src), ParseIP(net, dst), Atoi(bytes))
    case (Some(s), Some(d), Some(n)) => Parsed(Record(s, d, n))
    case (Some(_), Some(_), None) => Rejected(TrafficByteParse)
    case _ => Rejected(UndefinedIPFormat)
  }

  /** Both addresses are looked up, the source first; one failed lookup leaves the record unclassified. */
  function Classify(net: Net, r: Record): Seen {
    match (net.internal(r.src), net.internal(r.dst))
    case (Some(srcIn), Some(dstIn)) =>
      Flow(ShowIP(net, r.src), ShowIP(net, r.dst), r.bytes, srcIn, dstIn)
    case _ => Unclassified
  }

  function See(net: Net, line: string): Seen {
    var fields := Split(line, ',');
    if Contains(line, FLOW_HEADER) || |fields| != FIELD_COUNT then Ignored
    else
      match ParseRecord(net, fields[0], fields[1], fields[2])
      case Parsed(r) => Classify(net, r)
      case Rejected(_) => Ignored
  }

  // ---- what the text of a line says

  /** The text of the line is this record: no header in it, and three fields between two commas, the byte count,
      the source and the destination, each of which can be read. */
  ghost predicate Says(net: Net, line: string, r: Record) {
    && (forall i | 0 <= i <= |line| :: !("#:doctets,srcaddr,dstaddr" <= line[i..]))
    && -9223372036854775808 <= r.bytes <= 9223372036854775807
    && exists bytes: string, src: string, dst: string ::
         && ',' !in bytes && ',' !in src && ',' !in dst && line == bytes + "," + src + "," + dst
         && Numeral(bytes, r.bytes) && ParseIP(net, src) == Some(r.src) && ParseIP(net, dst) == Some(r.dst)
  }

  lemma SplitThree(a: string, b: string, c: string)
    requires ',' !in a && ',' !in b && ',' !in c
    ensures Split(a + [','] + b + [','] + c, ',') == [a, b, c]
  {
    SplitFirst(b, c, ',');
    SplitSingle(c, ',');
    SplitFirst(a, b + [','] + c, ',');
    assert a + [','] + b + [','] + c == a + [','] + (b + [','] + c);
  }

  lemma ThreeFields(line: string)
    requires |Split(line, ',')| == 3
    ensures var f := Split(line, ',');
      line == f[0] + "," + f[1] + "," + f[2] && ',' !in f[0] && ',' !in f[1] && ',' !in f[2]
  {
    var f := Split(line, ',');
    FieldsApart(line, ',');
    JoinSplit(line, ',');
    assert Join(f, ',') == f[0] + [','] + Join(f[1..], ',');
    assert Join(f[1..], ',') == f[1] + [','] + f[2];
  }

  /** A line is passed over iff its text is no record. A record that both lookups can place is taken as it
      stands; one that either lookup fails for is unclassified. */
  lemma SeeExactly(net: Net, line: string, r: Record)
    ensures See(net, line) != Ignored <==> exists q :: Says(net, line, q)
    ensures Says(net, line, r) ==>
              See(net, line) ==
              if net.internal(r.src).None? || net.internal(r.dst).None? then Unclassified
              else Flow(ShowIP(net, r.src), ShowIP(net, r.dst), r.bytes,
                        net.internal(r.src).value, net.internal(r.dst).value)
  {
    hide ShowIP, Says;
    if See(net, line) != Ignored {
      var q := SaysOf(net, line);
    }
    if q :| Says(net, line, q) {
      SaysMeans(net, line, q);
    }
    if Says(net, line, r) {
      SaysMeans(net, line, r);
    }
  }

  lemma SaysMeans(net: Net, line: string, r: Record)
    requires Says(net, line, r)
    ensures See(net, line) == Classify(net, r)
  {
    hide Split, Atoi, ParseIP, Classify, Numeral;
    var bytes: string, src: string, dst: string :| ',' !in bytes && ',' !in src && ',' !in dst &&
      line == bytes + "," + src + "," + dst &&
      Numeral(bytes, r.bytes) && ParseIP(net, src) == Some(r.src) && ParseIP(net, dst) == Some(r.dst);
    SplitThree(bytes, src, dst);
    AtoiExactly(bytes, r.bytes);
    assert !Contains(line, FLOW_HEADER);
  }

  lemma SaysOf(net: Net, line: string) returns (r: Record)
    requires See(net, line) != Ignored
    ensures Says(net, line, r)
    ensures var f := Split(line, ',');
      |f| == 3 && ParseRecord(net, f[0], f[1], f[2]) == Parsed(r)
  {
    hide Split, Atoi, ParseIP, Classify, Numeral;
    var fields := Split(line, ',');
    ThreeFields(line);
    r := ParseRecord(net, fields[0], fields[1], fields[2]).record;
    AtoiExactly(fields[0], r.bytes);
    assert !Contains(line, FLOW_HEADER);
  }

  /** A line says one thing. */
  lemma SaysOnce(net: Net, line: string, q: Record, r: Record)
    requires Says(net, line, q) && Says(net, line, r)
    ensures q == r
  {
    hide Split, Atoi, ParseIP, Numeral;
    var bytes: string, src: string, dst: string :| ',' !in bytes && ',' !in src && ',' !in dst &&
      line == bytes + "," + src + "," + dst &&
      Numeral(bytes, q.bytes) && ParseIP(net, src) == Some(q.src) && ParseIP(net, dst) == Some(q.dst);
    SplitThree(bytes, src, dst);
    AtoiExactly(bytes, q.bytes);
    var bytes': string, src': string, dst': string :| ',' !in bytes' && ',' !in src' && ',' !in dst' &&
      line == bytes' + "," + src' + "," + dst' &&
      Numeral(bytes', r.bytes) && ParseIP(net, src') == Some(r.src) && ParseIP(net, dst') == Some(r.dst);
    SplitThree(bytes', src', dst');
    AtoiExactly(bytes', r.bytes);
    assert [bytes, src, dst] == [bytes', src', dst'];
  }

  function SeeAll(net: Net, lines: seq<string>): (seen: seq<Seen>)
    ensures |seen| == |lines|
  {
    seq(|lines|, i requires 0 <= i < |lines| => See(net, lines[i]))
  }

  lemma SeeAllConcat(net: Net, xs: seq<string>, ys: seq<string>)
    ensures SeeAll(net, xs + ys) == SeeAll(net, xs) + SeeAll(net, ys)
  {
  }
}
