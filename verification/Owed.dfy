/**
 What a batch owes, from the text of its lines and the rows of the channel table to the
 rows it inserts, with the numbers of the channels written out.
 */
module Owed {
  import opened Text
  import opened Address
  import opened FlowLine
  import opened Sums
  import opened Traffic
  import opened Accumulator
  import opened Sift
  import opened Billing
  import opened Loaders
  import opened BillingSafety
  import BillingHistory
  import BillingRecovery
  import BillingOutcome

  // ---- from lines to rows

  /** The line is a record with this address inside the network, as its source if down and as its destination if
      not, and with the other end inside or outside. */
  ghost predicate Exchanges(net: Net, line: string, ip: string, down: bool, otherIn: bool, r: Record) {
    var (here, there) := if down then (r.src, r.dst) else (r.dst, r.src);
    Says(net, line, r) && ip == ShowIP(net, here) &&
    net.internal(here) == Some(true) && net.internal(there) == Some(otherIn)
  }

  /** The bytes a line puts on one side of the account of an address. */
  ghost function Credit(net: Net, ip: string, down: bool, otherIn: bool): string -> int {
    (line: string) =>
      if exists r :: Exchanges(net, line, ip, down, otherIn, r)
      then var r :| Exchanges(net, line, ip, down, otherIn, r); r.bytes
      else 0
  }

  /** The row of a session on a channel: on channel 1 the bytes its address exchanged with the inside of the
      network, on channel 2 those it exchanged with the outside, on any other channel none. */
  ghost predicate RowFor(net: Net, lines: seq<string>, sess: OnlineSession, c: ChannelId, row: Chunk) {
    && row.sessId == sess.sessId && row.channelId == c.id
    && row.download == (if c.id == 1 then SumSeq(lines, Credit(net, sess.ip, true, true))
                        else if c.id == 2 then SumSeq(lines, Credit(net, sess.ip, true, false)) else 0)
    && row.upload == (if c.id == 1 then SumSeq(lines, Credit(net, sess.ip, false, true))
                      else if c.id == 2 then SumSeq(lines, Credit(net, sess.ip, false, false)) else 0)
  }

  /** The rows a batch of lines owes are those of its sessions on the channels whose flag is true. */
  lemma RowOwedByText(net: Net, job: Job, lines: seq<string>, row: Chunk)
    ensures row in RowsOwed(job, SeeAll(net, lines)) <==>
            exists i, c | 0 <= i < |job.sessions| && c in job.channels && job.channels[c] ::
              RowFor(net, lines, job.sessions[i], c, row)
  {
    hide Total, RowFor, SeeAll, RowsOwedTo;
    var seen := SeeAll(net, lines);
    RowOwedExactly(job.sessions, job.channels, seen, row);
    forall i, c | 0 <= i < |job.sessions|
      ensures RowFor(net, lines, job.sessions[i], c, row) <==>
              (row.sessId == job.sessions[i].sessId && row.channelId == c.id &&
               row.download == Total(seen, job.sessions[i].ip, c).download &&
               row.upload == Total(seen, job.sessions[i].ip, c).upload)
    {
      RowForTotal(net, lines, job.sessions[i], c, row);
    }
  }

  lemma RowForTotal(net: Net, lines: seq<string>, sess: OnlineSession, c: ChannelId, row: Chunk)
    ensures var total := Total(SeeAll(net, lines), sess.ip, c);
      RowFor(net, lines, sess, c, row) <==>
      (row.sessId == sess.sessId && row.channelId == c.id &&
       row.download == total.download && row.upload == total.upload)
  {
    hide Total, SeeAll, SumSeq, Credit, FromHere, ToHere;
    TotalExactly(SeeAll(net, lines), sess.ip, c);
    CreditSum(net, lines, sess.ip, c.id == 1);
  }

  lemma CreditSum(net: Net, lines: seq<string>, ip: string, otherIn: bool)
    ensures SumSeq(lines, Credit(net, ip, true, otherIn)) == SumSeq(SeeAll(net, lines), FromHere(ip, otherIn))
    ensures SumSeq(lines, Credit(net, ip, false, otherIn)) == SumSeq(SeeAll(net, lines), ToHere(ip, otherIn))
  {
    hide SumSeq, Credit, FromHere, ToHere, See;
    forall line
      ensures Credit(net, ip, true, otherIn)(line) == FromHere(ip, otherIn)(See(net, line))
      ensures Credit(net, ip, false, otherIn)(line) == ToHere(ip, otherIn)(See(net, line))
    {
      CreditDown(net, line, ip, otherIn);
      CreditUp(net, line, ip, otherIn);
    }
    SumSeqMapped(lines, SeeAll(net, lines), Credit(net, ip, true, otherIn), FromHere(ip, otherIn));
    SumSeqMapped(lines, SeeAll(net, lines), Credit(net, ip, false, otherIn), ToHere(ip, otherIn));
  }

  lemma CreditDown(net: Net, line: string, ip: string, otherIn: bool)
    ensures Credit(net, ip, true, otherIn)(line) == FromHere(ip, otherIn)(See(net, line))
  {
    hide See, ShowIP, Says;
    if r :| Says(net, line, r) {
      SeeExactly(net, line, r);
      OneRecord(net, line, r);
      OneExchange(net, line, ip, true, otherIn, r);
    } else {
      SeeExactly(net, line, NO_ONE);
    }
  }

  lemma CreditUp(net: Net, line: string, ip: string, otherIn: bool)
    ensures Credit(net, ip, false, otherIn)(line) == ToHere(ip, otherIn)(See(net, line))
  {
    hide See, ShowIP, Says;
    if r :| Says(net, line, r) {
      SeeExactly(net, line, r);
      OneRecord(net, line, r);
      OneExchange(net, line, ip, false, otherIn, r);
    } else {
      SeeExactly(net, line, NO_ONE);
    }
  }

  /** A line that is a record is credited by that record or not at all. */
  lemma OneExchange(net: Net, line: string, ip: string, down: bool, otherIn: bool, r: Record)
    requires Says(net, line, r) && forall q :: Says(net, line, q) ==> q == r
    ensures Credit(net, ip, down, otherIn)(line) == if Exchanges(net, line, ip, down, otherIn, r) then r.bytes else 0
  {
    hide Says, ShowIP;
    assert forall q :: Exchanges(net, line, ip, down, otherIn, q) ==> Says(net, line, q);
  }

  const NO_ONE := Record(V4(0, 0, 0, 0), V4(0, 0, 0, 0), 0)

  lemma OneRecord(net: Net, line: string, r: Record)
    requires Says(net, line, r)
    ensures forall q :: Says(net, line, q) ==> q == r
  {
    hide Says;
    forall q | Says(net, line, q)
      ensures q == r
    {
      SaysOnce(net, line, q, r);
    }
  }

  // ---- from files to rows

  /** The bytes all the lines of some files put on one side of the account of an address. */
  ghost function FileCredit(net: Net, ip: string, down: bool, otherIn: bool): File -> int {
    (f: File) => SumSeq(Lines(f.content), Credit(net, ip, down, otherIn))
  }

  ghost predicate FileRowFor(net: Net, files: seq<File>, sess: OnlineSession, c: ChannelId, row: Chunk) {
    && row.sessId == sess.sessId && row.channelId == c.id
    && row.download == (if c.id == 1 then SumSeq(files, FileCredit(net, sess.ip, true, true))
                        else if c.id == 2 then SumSeq(files, FileCredit(net, sess.ip, true, false)) else 0)
    && row.upload == (if c.id == 1 then SumSeq(files, FileCredit(net, sess.ip, false, true))
                      else if c.id == 2 then SumSeq(files, FileCredit(net, sess.ip, false, false)) else 0)
  }

  /** In every history: a transaction about to be committed inserts the rows of the sessions of its job on the
      channels whose flag is true, each with what all the lines of the files that are in tmp and not covered by
      the checkpoint say, every file as it arrived and taken once, and no other row. */
  lemma CommitByText(net: Net, s: State, evs: seq<Event>, row: Chunk)
    requires Init(s) && CanTake(After(net, s, evs), Committed)
    ensures var t := After(net, s, evs);
      var Busy(job, _, Save(_, files, rows)) := t.worker;
      && (forall f :: f in files <==> exists n :: n in t.tmp && n !in t.checkpoint && t.tmp[n] == f)
      && (forall i, j | 0 <= i < j < |files| :: files[i].id != files[j].id)
      && (forall f | f in files :: f.id in t.arrived && t.arrived[f.id] == f.content)
      && (row in rows <==>
            exists i, c | 0 <= i < |job.sessions| && c in job.channels && job.channels[c] ::
              FileRowFor(net, files, job.sessions[i], c, row))
  {
    hide CanTake, Init, After, RowsOwed, SeeAll, AllLines, FileRowFor, RowFor;
    BillingHistory.CommitIsExact(net, s, evs);
    CanCommit(After(net, s, evs));
    var t := After(net, s, evs);
    var Busy(job, _, Save(_, files, rows)) := t.worker;
    RowOwedByText(net, job, AllLines(files), row);
    forall i, c | 0 <= i < |job.sessions|
      ensures RowFor(net, AllLines(files), job.sessions[i], c, row) <==>
              FileRowFor(net, files, job.sessions[i], c, row)
    {
      RowForFiles(net, files, job.sessions[i], c, row);
    }
  }

  lemma CanCommit(t: State)
    requires CanTake(t, Committed)
    ensures t.worker.Busy? && t.worker.pc.Save?
  {
  }

  lemma RowForFiles(net: Net, files: seq<File>, sess: OnlineSession, c: ChannelId, row: Chunk)
    ensures RowFor(net, AllLines(files), sess, c, row) <==> FileRowFor(net, files, sess, c, row)
  {
    hide SumSeq, Credit, FileCredit, AllLines;
    FilesCredited(net, files, sess.ip, true, c.id == 1);
    FilesCredited(net, files, sess.ip, false, c.id == 1);
  }

  lemma {:induction false} FilesCredited(net: Net, files: seq<File>, ip: string, down: bool, otherIn: bool)
    ensures SumSeq(AllLines(files), Credit(net, ip, down, otherIn)) ==
            SumSeq(files, FileCredit(net, ip, down, otherIn))
  {
    hide Credit, Lines;
    if files == [] {
    } else {
      var k := |files| - 1;
      FilesCredited(net, files[..k], ip, down, otherIn);
      SumSeqConcat(AllLines(files[..k]), Lines(files[k].content), Credit(net, ip, down, otherIn));
      SumSeqLast(files, FileCredit(net, ip, down, otherIn));
    }
  }

  // ---- from lines to the verdict

  /** The line is a record both ends of which can be placed. */
  ghost predicate Placeable(net: Net, line: string, r: Record) {
    Says(net, line, r) && net.internal(r.src).Some? && net.internal(r.dst).Some?
  }

  /** The record has an end inside the network. */
  ghost predicate Inside(net: Net, r: Record) {
    net.internal(r.src) == Some(true) || net.internal(r.dst) == Some(true)
  }

  lemma PlaceableSeen(net: Net, line: string)
    ensures See(net, line).Flow? <==> exists r :: Placeable(net, line, r)
    ensures See(net, line).Flow? && (See(net, line).srcIn || See(net, line).dstIn) <==>
            exists r :: Placeable(net, line, r) && Inside(net, r)
  {
    hide See, ShowIP, Says;
    if r :| Says(net, line, r) {
      SeeExactly(net, line, r);
      OneRecord(net, line, r);
      assert Placeable(net, line, r) <==> See(net, line).Flow?;
    } else {
      SeeExactly(net, line, NO_ONE);
    }
  }

  /** A batch is kept for later iff none of its lines is a record that can be placed; and it is swept without a row
      iff some is, but none with an end inside the network, or there is no channel whose flag is true. */
  lemma VerdictByText(net: Net, job: Job, lines: seq<string>)
    requires job.sessions != []
    ensures Judge(net, job, lines) == Unrecognised <==>
            forall i, r | 0 <= i < |lines| :: !Placeable(net, lines[i], r)
    ensures Judge(net, job, lines) == NothingOwed <==>
            && (exists i, r | 0 <= i < |lines| :: Placeable(net, lines[i], r))
            && ((forall i, r | 0 <= i < |lines| && Placeable(net, lines[i], r) :: !Inside(net, r)) ||
                forall c | c in job.channels :: !job.channels[c])
  {
    hide See, Placeable, Inside, Enabled, Judge;
    var seen := SeeAll(net, lines);
    BillingRecovery.UnrecognisedMeans(net, job, lines);
    BillingOutcome.NothingOwedExactly(net, job, lines);
    forall i | 0 <= i < |lines|
      ensures seen[i].Flow? <==> exists r :: Placeable(net, lines[i], r)
      ensures seen[i].Flow? && (seen[i].srcIn || seen[i].dstIn) <==>
              exists r :: Placeable(net, lines[i], r) && Inside(net, r)
    {
      PlaceableSeen(net, lines[i]);
    }
    NoneEnabled(job.channels);
  }

  lemma NoneEnabled(channels: ChannelMap)
    ensures Enabled(channels) == {} <==> forall c | c in channels :: !channels[c]
  {
    if c :| c in channels && channels[c] {
      assert c in Enabled(channels);
    }
  }

  // ---- from the channel table to the rows

  /** The last row of the channel table with this id says that the channel is enabled. */
  ghost predicate LastSaysOn(list: seq<Channel>, id: int) {
    exists j | 0 <= j < |list| ::
      list[j].id.id == id && list[j].enabled && forall k | j < k < |list| :: list[k].id.id != id
  }

  /** With the map the loader makes of the channel table, a session is owed a row on a channel iff the last row
      of the table with the id of that channel says that it is enabled. */
  lemma RowOwedByTable(list: seq<Channel>, channels: ChannelMap, sessions: seq<OnlineSession>, seen: seq<Seen>,
                       row: Chunk)
    requires forall i | 0 <= i < |list| :: list[i].id in channels
    requires forall id | id in channels :: LastFlag(list, id, channels[id])
    ensures row in RowsOwedTo(sessions, channels, seen) <==>
            && LastSaysOn(list, row.channelId)
            && exists i | 0 <= i < |sessions| ::
                 && row.sessId == sessions[i].sessId
                 && row.download == Total(seen, sessions[i].ip, ChannelId(row.channelId)).download
                 && row.upload == Total(seen, sessions[i].ip, ChannelId(row.channelId)).upload
  {
    hide Total, RowsOwedTo, LastFlag, LastSaysOn;
    RowOwedExactly(sessions, channels, seen, row);
    var c := ChannelId(row.channelId);
    LastIsOn(list, channels, c);
    assert forall k: ChannelId :: k.id == row.channelId <==> k == c;
  }

  lemma LastIsOn(list: seq<Channel>, channels: ChannelMap, c: ChannelId)
    requires forall i | 0 <= i < |list| :: list[i].id in channels
    requires forall id | id in channels :: LastFlag(list, id, channels[id])
    ensures LastSaysOn(list, c.id) <==> c in channels && channels[c]
  {
    assert forall j | 0 <= j < |list| :: list[j].id.id == c.id <==> list[j].id == c;
    if c in channels {
      assert LastFlag(list, c, channels[c]);
    }
  }

  // ---- the rows of one channel

  function Downloads(id: int): Chunk -> int { (row: Chunk) => if row.channelId == id then row.download else 0 }

  function Uploads(id: int): Chunk -> int { (row: Chunk) => if row.channelId == id then row.upload else 0 }

  function FromSome(ips: set<string>, dstIn: bool): Seen -> int {
    (x: Seen) => if x.Flow? && x.srcIn && x.dstIn == dstIn && x.src in ips then x.bytes else 0
  }

  function ToSome(ips: set<string>, srcIn: bool): Seen -> int {
    (x: Seen) => if x.Flow? && x.dstIn && x.srcIn == srcIn && x.dst in ips then x.bytes else 0
  }

  /** All the rows with channel id 1 together, and all those with 2, carry exactly the bytes of the records between
      addresses inside, and of those with one end outside, whose inner ends have a session. */
  lemma ChannelSums(sessions: seq<OnlineSession>, channels: ChannelMap, seen: seq<Seen>, id: int)
    requires DistinctIps(sessions) && (id == 1 || id == 2)
    requires ChannelId(id) in channels && channels[ChannelId(id)]
    ensures MSum(RowsOwedTo(sessions, channels, seen), Downloads(id)) ==
            SumSeq(seen, FromSome(IpsOf(sessions), id == 1))
    ensures MSum(RowsOwedTo(sessions, channels, seen), Uploads(id)) ==
            SumSeq(seen, ToSome(IpsOf(sessions), id == 1))
  {
    hide Total, SumSeq, RowsOwedTo, DistinctIps, IpsOf, FromHere, ToHere, FromSome, ToSome, MSum, Sum;
    var c, ips := ChannelId(id), IpsOf(sessions);
    RowsOwedTotal(sessions, channels, seen, c, false);
    RowsOwedTotal(sessions, channels, seen, c, true);
    SidesOf(RowsOwedTo(sessions, channels, seen), id);
    forall ip
      ensures IpShare(seen, c, false)(ip) == SumSeq(seen, FromHere(ip, id == 1))
      ensures IpShare(seen, c, true)(ip) == SumSeq(seen, ToHere(ip, id == 1))
    {
      TotalExactly(seen, ip, c);
    }
    SumSame(ips, IpShare(seen, c, false), ip => SumSeq(seen, FromHere(ip, id == 1)));
    SumSame(ips, IpShare(seen, c, true), ip => SumSeq(seen, ToHere(ip, id == 1)));
    FromAll(seen, ips, id == 1);
    ToAll(seen, ips, id == 1);
  }

  lemma SidesOf(rows: multiset<Chunk>, id: int)
    ensures MSum(rows, RowSide(ChannelId(id), false)) == MSum(rows, Downloads(id))
    ensures MSum(rows, RowSide(ChannelId(id), true)) == MSum(rows, Uploads(id))
  {
    MSumSame(rows, RowSide(ChannelId(id), false), Downloads(id));
    MSumSame(rows, RowSide(ChannelId(id), true), Uploads(id));
  }

  lemma {:induction false} FromAll(seen: seq<Seen>, ips: set<string>, dstIn: bool)
    ensures Sum(ips, ip => SumSeq(seen, FromHere(ip, dstIn))) == SumSeq(seen, FromSome(ips, dstIn))
  {
    if seen == [] {
      SumZero(ips, ip => SumSeq(seen, FromHere(ip, dstIn)));
    } else {
      var x, rest := seen[0], seen[1..];
      FromAll(rest, ips, dstIn);
      SumPlus(ips, ip => FromHere(ip, dstIn)(x), ip => SumSeq(rest, FromHere(ip, dstIn)),
              ip => SumSeq(seen, FromHere(ip, dstIn)));
      if x.Flow? && x.src in ips {
        SumPoint(ips, ip => FromHere(ip, dstIn)(x), x.src);
      } else {
        SumZero(ips, ip => FromHere(ip, dstIn)(x));
      }
    }
  }

  lemma {:induction false} ToAll(seen: seq<Seen>, ips: set<string>, srcIn: bool)
    ensures Sum(ips, ip => SumSeq(seen, ToHere(ip, srcIn))) == SumSeq(seen, ToSome(ips, srcIn))
  {
    if seen == [] {
      SumZero(ips, ip => SumSeq(seen, ToHere(ip, srcIn)));
    } else {
      var x, rest := seen[0], seen[1..];
      ToAll(rest, ips, srcIn);
      SumPlus(ips, ip => ToHere(ip, srcIn)(x), ip => SumSeq(rest, ToHere(ip, srcIn)),
              ip => SumSeq(seen, ToHere(ip, srcIn)));
      if x.Flow? && x.dst in ips {
        SumPoint(ips, ip => ToHere(ip, srcIn)(x), x.dst);
      } else {
        SumZero(ips, ip => ToHere(ip, srcIn)(x));
      }
    }
  }
}
