/**
 Traffic as a declarative sum: which bytes of which record count for which
 address and channel, and what follows for whole batches of lines.
 */
module Traffic {
  import opened FlowLine
  import opened Sums

  datatype ChannelId = ChannelId(id: int)

  const INTERNAL := ChannelId(1)
  const EXTERNAL := ChannelId(2)

  datatype Bytes = Bytes(download: int, upload: int) {
    function Merge(other: Bytes): Bytes {
      Bytes(download + other.download, upload + other.upload)
    }
  }

  const ZERO := Bytes(0, 0)

  type ChannelMap = map<ChannelId, bool>
  type TrafficMap = map<string, map<ChannelId, Bytes>>

  function Enabled(channels: ChannelMap): set<ChannelId> {
    set c | c in channels && channels[c]
  }

  /** What one record contributes to one address on one channel. Each end inside
      the network is charged, on the channel the other end decides. */
  function Share(x: Seen, ip: string, c: ChannelId): Bytes {
    if !x.Flow? then ZERO
    else Bytes(
      if x.srcIn && ip == x.src && c == (if x.dstIn then INTERNAL else EXTERNAL) then x.bytes else 0,
      if x.dstIn && ip == x.dst && c == (if x.srcIn then INTERNAL else EXTERNAL) then x.bytes else 0)
  }

  function Total(seen: seq<Seen>, ip: string, c: ChannelId): Bytes {
    if seen == [] then ZERO
    else Total(seen[..|seen| - 1], ip, c).Merge(Share(seen[|seen| - 1], ip, c))
  }

  // ---- the totals, record by record

  /** The bytes of a record that has this address inside the network as its source. */
  function FromHere(ip: string, dstIn: bool): Seen -> int {
    (x: Seen) => if x.Flow? && x.srcIn && x.dstIn == dstIn && ip == x.src then x.bytes else 0
  }

  /** The bytes of a record that has this address inside the network as its destination. */
  function ToHere(ip: string, srcIn: bool): Seen -> int {
    (x: Seen) => if x.Flow? && x.dstIn && x.srcIn == srcIn && ip == x.dst then x.bytes else 0
  }

  /** Channel 1 holds what an address exchanged with addresses inside, channel 2 what it exchanged with those
      outside; the bytes of the records it is the source of are its download, of those it is the destination of
      its upload. On any other channel there is nothing. */
  lemma {:induction false} TotalExactly(seen: seq<Seen>, ip: string, c: ChannelId)
    ensures Total(seen, ip, c).download ==
            if c.id == 1 then SumSeq(seen, FromHere(ip, true))
            else if c.id == 2 then SumSeq(seen, FromHere(ip, false)) else 0
    ensures Total(seen, ip, c).upload ==
            if c.id == 1 then SumSeq(seen, ToHere(ip, true))
            else if c.id == 2 then SumSeq(seen, ToHere(ip, false)) else 0
  {
    hide Share, FromHere, ToHere, SumSeq;
    if seen == [] {
      NothingSummed(FromHere(ip, c.id == 1));
      NothingSummed(ToHere(ip, c.id == 1));
    } else {
      TotalExactly(seen[..|seen| - 1], ip, c);
      ShareExactly(seen[|seen| - 1], ip, c);
      SumSeqLast(seen, FromHere(ip, c.id == 1));
      SumSeqLast(seen, ToHere(ip, c.id == 1));
    }
  }

  lemma NothingSummed(f: Seen -> int)
    ensures SumSeq([], f) == 0
  {
  }

  lemma ShareExactly(x: Seen, ip: string, c: ChannelId)
    ensures Share(x, ip, c).download == if c.id == 1 || c.id == 2 then FromHere(ip, c.id == 1)(x) else 0
    ensures Share(x, ip, c).upload == if c.id == 1 || c.id == 2 then ToHere(ip, c.id == 1)(x) else 0
  {
  }

  /** The ends of a record that lie inside the network. */
  function Ends(x: Seen): set<string> {
    if !x.Flow? then {} else (if x.srcIn then {x.src} else {}) + (if x.dstIn then {x.dst} else {})
  }

  function Touched(seen: seq<Seen>): set<string> {
    if seen == [] then {} else Touched(seen[..|seen| - 1]) + Ends(seen[|seen| - 1])
  }

  /** The whole traffic of a batch: for every address touched, one cell for each enabled channel. */
  function Tally(channels: ChannelMap, seen: seq<Seen>): TrafficMap {
    map ip | ip in Touched(seen) :: Row(channels, seen, ip)
  }

  function Row(channels: ChannelMap, seen: seq<Seen>, ip: string): map<ChannelId, Bytes> {
    map c | c in Enabled(channels) :: Total(seen, ip, c)
  }

  // ---- concatenation and order

  lemma {:induction false} TotalConcat(xs: seq<Seen>, ys: seq<Seen>, ip: string, c: ChannelId)
    ensures Total(xs + ys, ip, c) == Total(xs, ip, c).Merge(Total(ys, ip, c))
  {
    if ys == [] {
      assert xs + ys == xs;
    } else {
      var k := |ys| - 1;
      assert (xs + ys)[..|xs| + k] == xs + ys[..k];
      TotalConcat(xs, ys[..k], ip, c);
    }
  }

  lemma TotalOne(x: Seen, ip: string, c: ChannelId)
    ensures Total([x], ip, c) == Share(x, ip, c)
  {
    var s := [x];
    assert s[..|s| - 1] == [];
  }

  /** Taking any line out of the middle takes exactly its share out of the total. */
  lemma TotalTakeOut(before: seq<Seen>, x: Seen, after: seq<Seen>, ip: string, c: ChannelId)
    ensures Total(before + [x] + after, ip, c) == Share(x, ip, c).Merge(Total(before + after, ip, c))
  {
    hide Total, Share;
    TotalConcat(before + [x], after, ip, c);
    TotalConcat(before, [x], ip, c);
    TotalOne(x, ip, c);
    TotalConcat(before, after, ip, c);
  }

  lemma FindFirst<T>(xs: seq<T>, ys: seq<T>) returns (before: seq<T>, after: seq<T>)
    requires |xs| > 0 && multiset(xs) == multiset(ys)
    ensures ys == before + [xs[0]] + after
    ensures multiset(xs[1..]) == multiset(before + after)
  {
    assert xs[0] in multiset(ys);
    var i :| 0 <= i < |ys| && ys[i] == xs[0];
    before, after := ys[..i], ys[i + 1..];
    assert ys == before + [xs[0]] + after;
    assert xs == [] + [xs[0]] + xs[1..] && [] + xs[1..] == xs[1..];
    WithoutOne([], xs[0], xs[1..]);
    WithoutOne(before, xs[0], after);
  }

  lemma WithoutOne<T>(before: seq<T>, x: T, after: seq<T>)
    ensures multiset(before + after) == multiset(before + [x] + after) - multiset{x}
  {
  }

  /** The traffic does not depend on the order of lines or files. */
  lemma {:induction false} TotalPermuted(xs: seq<Seen>, ys: seq<Seen>, ip: string, c: ChannelId)
    requires multiset(xs) == multiset(ys)
    ensures Total(xs, ip, c) == Total(ys, ip, c)
  {
    if xs == [] {
      assert |ys| == |multiset(ys)| == 0;
    } else {
      var before, after := FindFirst(xs, ys);
      TotalPermuted(xs[1..], before + after, ip, c);
      TotalTakeOut([], xs[0], xs[1..], ip, c);
      assert [] + [xs[0]] + xs[1..] == xs && [] + xs[1..] == xs[1..];
      TotalTakeOut(before, xs[0], after, ip, c);
    }
  }

  /** The addresses in the tally are the ends of classified records that lie inside. */
  lemma TouchedExactly(seen: seq<Seen>, ip: string)
    ensures ip in Touched(seen) <==>
            exists i | 0 <= i < |seen| ::
              seen[i].Flow? && ((seen[i].srcIn && ip == seen[i].src) || (seen[i].dstIn && ip == seen[i].dst))
  {
    hide Touched;
    TouchedMeaning(seen, ip);
    assert forall x: Seen :: ip in Ends(x) <==>
             x.Flow? && ((x.srcIn && ip == x.src) || (x.dstIn && ip == x.dst));
  }

  lemma {:induction false} TouchedMeaning(seen: seq<Seen>, ip: string)
    ensures ip in Touched(seen) <==> exists i | 0 <= i < |seen| :: ip in Ends(seen[i])
  {
    if seen == [] {
    } else {
      var k := |seen| - 1;
      TouchedMeaning(seen[..k], ip);
      assert forall i | 0 <= i < k :: seen[..k][i] == seen[i];
    }
  }

  lemma TouchedPermuted(xs: seq<Seen>, ys: seq<Seen>)
    requires multiset(xs) == multiset(ys)
    ensures Touched(xs) == Touched(ys)
  {
    forall ip
      ensures ip in Touched(xs) <==> ip in Touched(ys)
    {
      TouchedMeaning(xs, ip);
      TouchedMeaning(ys, ip);
      assert forall i | 0 <= i < |xs| :: xs[i] in multiset(ys);
      assert forall i | 0 <= i < |ys| :: ys[i] in multiset(xs);
    }
  }

  lemma TallyPermuted(channels: ChannelMap, xs: seq<Seen>, ys: seq<Seen>)
    requires multiset(xs) == multiset(ys)
    ensures Tally(channels, xs) == Tally(channels, ys)
  {
    TouchedPermuted(xs, ys);
    forall ip
      ensures Row(channels, xs, ip) == Row(channels, ys, ip)
    {
      forall c { TotalPermuted(xs, ys, ip, c); }
    }
  }

  lemma {:induction false} TouchedConcat(xs: seq<Seen>, ys: seq<Seen>)
    ensures Touched(xs + ys) == Touched(xs) + Touched(ys)
  {
    if ys == [] {
      assert xs + ys == xs;
    } else {
      var k := |ys| - 1;
      assert (xs + ys)[..|xs| + k] == xs + ys[..k];
      TouchedConcat(xs, ys[..k]);
    }
  }

  lemma {:induction false} TotalUntouched(seen: seq<Seen>, ip: string, c: ChannelId)
    requires ip !in Touched(seen)
    ensures Total(seen, ip, c) == ZERO
  {
    if seen == [] {
    } else {
      TotalUntouched(seen[..|seen| - 1], ip, c);
    }
  }

  function MergeRows(r1: map<ChannelId, Bytes>, r2: map<ChannelId, Bytes>): map<ChannelId, Bytes> {
    map c | c in r1.Keys + r2.Keys ::
      (if c in r1 then r1[c] else ZERO).Merge(if c in r2 then r2[c] else ZERO)
  }

  /** Two traffic maps added cell by cell; a missing cell counts as zero. */
  function MergeMaps(m: TrafficMap, n: TrafficMap): TrafficMap {
    map ip | ip in m.Keys + n.Keys ::
      MergeRows(if ip in m then m[ip] else map[], if ip in n then n[ip] else map[])
  }

  /** Accumulating two batches together is accumulating them apart and adding up. */
  lemma TallyConcat(channels: ChannelMap, xs: seq<Seen>, ys: seq<Seen>)
    ensures Tally(channels, xs + ys) == MergeMaps(Tally(channels, xs), Tally(channels, ys))
  {
    TouchedConcat(xs, ys);
    forall ip | ip in Touched(xs) + Touched(ys)
      ensures Row(channels, xs + ys, ip) ==
              MergeRows(if ip in Touched(xs) then Row(channels, xs, ip) else map[],
                        if ip in Touched(ys) then Row(channels, ys, ip) else map[])
    {
      RowConcat(channels, xs, ys, ip);
    }
  }

  lemma RowConcat(channels: ChannelMap, xs: seq<Seen>, ys: seq<Seen>, ip: string)
    requires ip in Touched(xs) + Touched(ys)
    ensures Row(channels, xs + ys, ip) ==
            MergeRows(if ip in Touched(xs) then Row(channels, xs, ip) else map[],
                      if ip in Touched(ys) then Row(channels, ys, ip) else map[])
  {
    forall c: ChannelId
      ensures Total(xs + ys, ip, c) == Total(xs, ip, c).Merge(Total(ys, ip, c))
      ensures ip !in Touched(xs) ==> Total(xs, ip, c) == ZERO
      ensures ip !in Touched(ys) ==> Total(ys, ip, c) == ZERO
    {
      TotalConcat(xs, ys, ip, c);
      if ip !in Touched(xs) { TotalUntouched(xs, ip, c); }
      if ip !in Touched(ys) { TotalUntouched(ys, ip, c); }
    }
  }

  // ---- byte conservation

  /** The bytes of the records with the given ends inside the network. */
  function BytesBetween(seen: seq<Seen>, srcIn: bool, dstIn: bool): int {
    if seen == [] then 0
    else
      var x := seen[|seen| - 1];
      BytesBetween(seen[..|seen| - 1], srcIn, dstIn) +
      if x.Flow? && x.srcIn == srcIn && x.dstIn == dstIn then x.bytes else 0
  }

  /** Summed over every address the two sides of the internal channel both carry the
      internal-to-internal bytes, and each side of the external channel carries one
      kind of one-sided record. Holds over any set covering the touched addresses. */
  lemma {:induction false} Conservation(seen: seq<Seen>, ips: set<string>)
    requires Touched(seen) <= ips
    ensures Sum(ips, ip => Total(seen, ip, INTERNAL).download) == BytesBetween(seen, true, true)
    ensures Sum(ips, ip => Total(seen, ip, INTERNAL).upload) == BytesBetween(seen, true, true)
    ensures Sum(ips, ip => Total(seen, ip, EXTERNAL).download) == BytesBetween(seen, true, false)
    ensures Sum(ips, ip => Total(seen, ip, EXTERNAL).upload) == BytesBetween(seen, false, true)
  {
    ConserveOne(seen, ips, INTERNAL);
    ConserveOne(seen, ips, EXTERNAL);
  }

  lemma {:induction false} ConserveOne(seen: seq<Seen>, ips: set<string>, c: ChannelId)
    requires Touched(seen) <= ips
    requires c == INTERNAL || c == EXTERNAL
    ensures Sum(ips, ip => Total(seen, ip, c).download) == BytesBetween(seen, true, c == INTERNAL)
    ensures Sum(ips, ip => Total(seen, ip, c).upload) == BytesBetween(seen, c == INTERNAL, true)
  {
    if seen == [] {
      SumZero(ips, ip => Total(seen, ip, c).download);
      SumZero(ips, ip => Total(seen, ip, c).upload);
    } else {
      var k := |seen| - 1;
      ConserveOne(seen[..k], ips, c);
      ShareConserved(seen[k], ips, c);
      SumPlus(ips, ip => Total(seen[..k], ip, c).download, ip => Share(seen[k], ip, c).download,
              ip => Total(seen, ip, c).download);
      SumPlus(ips, ip => Total(seen[..k], ip, c).upload, ip => Share(seen[k], ip, c).upload,
              ip => Total(seen, ip, c).upload);
    }
  }

  lemma ShareConserved(x: Seen, ips: set<string>, c: ChannelId)
    requires Ends(x) <= ips
    requires c == INTERNAL || c == EXTERNAL
    ensures Sum(ips, ip => Share(x, ip, c).download) ==
            if x.Flow? && x.srcIn && x.dstIn == (c == INTERNAL) then x.bytes else 0
    ensures Sum(ips, ip => Share(x, ip, c).upload) ==
            if x.Flow? && x.dstIn && x.srcIn == (c == INTERNAL) then x.bytes else 0
  {
    if x.Flow? && x.srcIn {
      SumPoint(ips, ip => Share(x, ip, c).download, x.src);
    } else {
      SumZero(ips, ip => Share(x, ip, c).download);
    }
    if x.Flow? && x.dstIn {
      SumPoint(ips, ip => Share(x, ip, c).upload, x.dst);
    } else {
      SumZero(ips, ip => Share(x, ip, c).upload);
    }
  }

  // ---- bounds

  /** The number of records that were classified. */
  function Classified(seen: seq<Seen>): nat {
    if seen == [] then 0
    else Classified(seen[..|seen| - 1]) + if seen[|seen| - 1].Flow? then 1 else 0
  }

  predicate SizesWithin(seen: seq<Seen>, most: nat) {
    forall i | 0 <= i < |seen| :: seen[i].Flow? ==> 0 <= seen[i].bytes <= most
  }

  /** With record sizes between 0 and most, no counter exceeds most times the records classified. */
  lemma {:induction false} TotalBounded(seen: seq<Seen>, most: nat, ip: string, c: ChannelId)
    requires SizesWithin(seen, most)
    ensures 0 <= Total(seen, ip, c).download <= Classified(seen) * most
    ensures 0 <= Total(seen, ip, c).upload <= Classified(seen) * most
  {
    if seen == [] {
    } else {
      var k := |seen| - 1;
      TotalBounded(seen[..k], most, ip, c);
      ShareBounded(seen[k], most, ip, c);
      MulStep(Classified(seen[..k]), most);
    }
  }

  lemma ShareBounded(x: Seen, most: nat, ip: string, c: ChannelId)
    requires x.Flow? ==> 0 <= x.bytes <= most
    ensures 0 <= Share(x, ip, c).download <= (if x.Flow? then most else 0)
    ensures 0 <= Share(x, ip, c).upload <= (if x.Flow? then most else 0)
  {
  }

  lemma MulStep(n: nat, m: nat)
    ensures (n + 1) * m == n * m + m
  {
  }

  // ---- the verdict on a batch

  predicate AnyFlow(seen: seq<Seen>) {
    exists i | 0 <= i < |seen| :: seen[i].Flow?
  }

  predicate AnyTouch(seen: seq<Seen>) {
    exists i | 0 <= i < |seen| :: seen[i].Flow? && (seen[i].srcIn || seen[i].dstIn)
  }

  lemma {:induction false} TouchedEmpty(seen: seq<Seen>)
    ensures Touched(seen) == {} <==> !AnyTouch(seen)
  {
    if seen == [] {
    } else {
      var k := |seen| - 1;
      TouchedEmpty(seen[..k]);
      assert forall i | 0 <= i < k :: seen[..k][i] == seen[i];
    }
  }

  lemma AnyPermuted(xs: seq<Seen>, ys: seq<Seen>)
    requires multiset(xs) == multiset(ys)
    ensures AnyFlow(xs) <==> AnyFlow(ys)
    ensures AnyTouch(xs) <==> AnyTouch(ys)
  {
    AnyIncluded(xs, ys);
    AnyIncluded(ys, xs);
  }

  lemma AnyIncluded(xs: seq<Seen>, ys: seq<Seen>)
    requires multiset(xs) == multiset(ys)
    ensures AnyFlow(xs) ==> AnyFlow(ys)
    ensures AnyTouch(xs) ==> AnyTouch(ys)
  {
    forall i | 0 <= i < |xs|
      ensures exists j | 0 <= j < |ys| :: ys[j] == xs[i]
    {
      assert xs[i] in multiset(ys);
    }
  }
}
