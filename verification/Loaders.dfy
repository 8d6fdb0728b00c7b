/** What the two loaders of a cycle make of the rows they read. */
module Loaders {
  import opened Text
  import FlowLine
  import opened Traffic
  import opened Sift
  import opened Billing
  import D = Database

  datatype LoadError = NoError | ErrNoData | ErrInternalError | OtherError

  type Sessions = map<D.NasIp, seq<OnlineSession>>

  datatype Channel = Channel(id: ChannelId, enabled: bool)

  // ---- sessions

  /** The sessions of one nas, in order. */
  function GroupOf(list: seq<OnlineSession>, nas: D.NasIp): seq<OnlineSession> {
    if list == [] then []
    else
      var sess := list[|list| - 1];
      GroupOf(list[..|list| - 1], nas) + if nas == sess.nasIp then [sess] else []
  }

  /** The positions in the list from which a group was taken: rising, and all of its nas. */
  ghost predicate TakenFrom(group: seq<OnlineSession>, list: seq<OnlineSession>, nas: D.NasIp, pos: seq<nat>) {
    && |pos| == |group|
    && (forall k | 0 <= k < |pos| :: pos[k] < |list| && group[k] == list[pos[k]])
    && (forall j, k | 0 <= j < k < |pos| :: pos[j] < pos[k])
    && (forall i | 0 <= i < |list| :: nas == list[i].nasIp <==> i in pos)
  }

  /** A group keeps the order, has no session of another nas and leaves none of its own out. */
  lemma {:induction false} GroupPositions(list: seq<OnlineSession>, nas: D.NasIp) returns (pos: seq<nat>)
    ensures TakenFrom(GroupOf(list, nas), list, nas, pos)
  {
    hide TakenFrom;
    if list == [] {
      pos := [];
      NothingTaken(nas);
    } else {
      var k := |list| - 1;
      var rest := GroupPositions(list[..k], nas);
      pos := if nas == list[k].nasIp then rest + [k] else rest;
      assert list[..k] + [list[k]] == list;
      OneMoreTaken(GroupOf(list[..k], nas), list[..k], nas, rest, list[k]);
      assert GroupOf(list[..k], nas) + [] == GroupOf(list[..k], nas);
    }
  }

  lemma NothingTaken(nas: D.NasIp)
    ensures TakenFrom([], [], nas, [])
  {
  }

  lemma OneMoreTaken(group: seq<OnlineSession>, list: seq<OnlineSession>, nas: D.NasIp, pos: seq<nat>,
                     sess: OnlineSession)
    requires TakenFrom(group, list, nas, pos)
    ensures if nas == sess.nasIp then TakenFrom(group + [sess], list + [sess], nas, pos + [|list|])
            else TakenFrom(group, list + [sess], nas, pos)
  {
    var all := list + [sess];
    if nas == sess.nasIp {
      var more := pos + [|list|];
      forall i | 0 <= i < |all|
        ensures nas == all[i].nasIp <==> i in more
      {
        assert i < |list| ==> (nas == list[i].nasIp <==> i in pos);
      }
    } else {
      forall i | 0 <= i < |all|
        ensures nas == all[i].nasIp <==> i in pos
      {
        assert i < |list| ==> (nas == list[i].nasIp <==> i in pos);
      }
    }
  }

  /** Together the groups are the list. */
  lemma {:induction false} GroupsPartition(list: seq<OnlineSession>, nas: D.NasIp, sess: OnlineSession)
    ensures multiset(GroupOf(list, nas))[sess] == if nas == sess.nasIp then multiset(list)[sess] else 0
  {
    if list == [] {
    } else {
      var k := |list| - 1;
      GroupsPartition(list[..k], nas, sess);
      assert list == list[..k] + [list[k]];
    }
  }

  /** Every group there is holds the sessions of its nas, and at least one. */
  ghost predicate Grouped(m: Sessions) {
    forall nas | nas in m :: m[nas] != [] && forall sess | sess in m[nas] :: nas == sess.nasIp
  }

  lemma {:induction false} GroupHas(list: seq<OnlineSession>, nas: D.NasIp, sess: OnlineSession)
    ensures sess in GroupOf(list, nas) <==> sess in list && nas == sess.nasIp
  {
    if list == [] {
    } else {
      var k := |list| - 1;
      GroupHas(list[..k], nas, sess);
      assert list == list[..k] + [list[k]];
    }
  }

  lemma GroupSnoc(list: seq<OnlineSession>, sess: OnlineSession, nas: D.NasIp)
    ensures GroupOf(list + [sess], nas) == GroupOf(list, nas) + if nas == sess.nasIp then [sess] else []
  {
    assert (list + [sess])[..|list|] == list;
  }

  /** Groups the online sessions by nas; there is no map when the rows could not be read. */
  method LoadOnlineSessionMap(sessionList: seq<OnlineSession>, err: LoadError)
    returns (sessionMap: Option<Sessions>, failure: LoadError)
    ensures sessionMap.Some? <==> err == NoError
    ensures failure == match err case NoError => NoError case ErrNoData => ErrNoData case _ => ErrInternalError
    ensures sessionMap.Some? ==>
              && Grouped(sessionMap.value)
              && (forall sess | sess in sessionList :: sess.nasIp in sessionMap.value)
              && (forall nas | nas in sessionMap.value :: sessionMap.value[nas] == GroupOf(sessionList, nas))
  {
    if err != NoError {
      return None, if err == ErrNoData then ErrNoData else ErrInternalError;
    }
    var m: Sessions := map[];
    for i := 0 to |sessionList|
      invariant GroupsOf(m, sessionList[..i])
    {
      var sess := sessionList[i];
      assert sessionList[..i + 1] == sessionList[..i] + [sess];
      GroupsSnoc(m, sessionList[..i], sess);
      m := m[sess.nasIp := (if sess.nasIp in m then m[sess.nasIp] else []) + [sess]];
    }
    assert sessionList[..|sessionList|] == sessionList;
    GroupsAre(m, sessionList);
    return Some(m), NoError;
  }

  /** The map has exactly the non-empty groups of the list. */
  ghost predicate GroupsOf(m: Sessions, list: seq<OnlineSession>) {
    forall nas: D.NasIp :: GroupOf(list, nas) == (if nas in m then m[nas] else []) && (nas in m ==> m[nas] != [])
  }

  lemma GroupsSnoc(m: Sessions, list: seq<OnlineSession>, sess: OnlineSession)
    requires GroupsOf(m, list)
    ensures GroupsOf(m[sess.nasIp := (if sess.nasIp in m then m[sess.nasIp] else []) + [sess]], list + [sess])
  {
    hide GroupOf;
    forall nas
      ensures GroupOf(list + [sess], nas) == GroupOf(list, nas) + if nas == sess.nasIp then [sess] else []
    {
      GroupSnoc(list, sess, nas);
    }
  }

  lemma GroupsAre(m: Sessions, list: seq<OnlineSession>)
    requires GroupsOf(m, list)
    ensures Grouped(m)
    ensures forall sess | sess in list :: sess.nasIp in m
    ensures forall nas | nas in m :: m[nas] == GroupOf(list, nas)
  {
    hide GroupOf;
    forall nas, sess | nas in m && sess in m[nas]
      ensures nas == sess.nasIp
    {
      GroupHas(list, nas, sess);
    }
    forall sess | sess in list
      ensures sess.nasIp in m
    {
      GroupHas(list, sess.nasIp, sess);
    }
  }

  // ---- channels

  /** The flag of the last row with this id. */
  ghost predicate LastFlag(list: seq<Channel>, id: ChannelId, enabled: bool) {
    exists j | 0 <= j < |list| ::
      && list[j] == Channel(id, enabled)
      && forall k | j < k < |list| :: list[k].id != id
  }

  /** The map has the ids of the rows, each with the flag of its last row. */
  method LoadChannelMap(channelList: seq<Channel>, err: LoadError)
    returns (channelMap: Option<ChannelMap>, failure: LoadError)
    ensures channelMap.Some? <==> err == NoError
    ensures failure == match err case NoError => NoError case ErrNoData => ErrNoData case _ => ErrInternalError
    ensures channelMap.Some? ==>
              && (forall i | 0 <= i < |channelList| :: channelList[i].id in channelMap.value)
              && (forall id | id in channelMap.value :: LastFlag(channelList, id, channelMap.value[id]))
  {
    if err != NoError {
      return None, if err == ErrNoData then ErrNoData else ErrInternalError;
    }
    var m: ChannelMap := map[];
    for i := 0 to |channelList|
      invariant forall k | 0 <= k < i :: channelList[k].id in m
      invariant forall id | id in m :: LastFlag(channelList[..i], id, m[id])
    {
      var ch := channelList[i];
      assert channelList[..i + 1] == channelList[..i] + [ch];
      assert channelList[..i + 1][i] == Channel(ch.id, ch.enabled);
      assert LastFlag(channelList[..i + 1], ch.id, ch.enabled);
      forall id | id in m && id != ch.id
        ensures LastFlag(channelList[..i + 1], id, m[id])
      {
        LastFlagSnoc(channelList[..i], ch, id, m[id]);
      }
      m := m[ch.id := ch.enabled];
    }
    assert channelList[..|channelList|] == channelList;
    return Some(m), NoError;
  }

  lemma LastFlagSnoc(list: seq<Channel>, ch: Channel, id: ChannelId, enabled: bool)
    requires LastFlag(list, id, enabled) && ch.id != id
    ensures LastFlag(list + [ch], id, enabled)
  {
    var j :| 0 <= j < |list| && list[j] == Channel(id, enabled) && forall k | j < k < |list| :: list[k].id != id;
    assert (list + [ch])[j] == Channel(id, enabled);
  }

  // ---- whose rows a run inserts

  /** A job holds sessions of this nas only. */
  ghost predicate OwnJob(nas: D.NasIp, job: Job) {
    forall sess | sess in job.sessions :: nas == sess.nasIp
  }

  /** Every row a job owes belongs to one of its sessions and to an enabled channel. */
  lemma {:induction false} RowsAreOwn(sessions: seq<OnlineSession>, channels: ChannelMap, seen: seq<FlowLine.Seen>,
                                      row: Chunk)
    requires row in RowsOwedTo(sessions, channels, seen)
    ensures exists sess | sess in sessions :: row.sessId == sess.sessId
    ensures exists c | c in Enabled(channels) :: row.channelId == c.id
  {
    var k := |sessions| - 1;
    assert sessions == sessions[..k] + [sessions[k]];
    if row in RowsOwedTo(sessions[..k], channels, seen) {
      RowsAreOwn(sessions[..k], channels, seen, row);
      var sess :| sess in sessions[..k] && row.sessId == sess.sessId;
      assert sess in sessions;
    } else {
      assert row in RowSet(sessions[k], Enabled(channels), seen);
      assert sessions[k] in sessions;
    }
  }
}
