/**
 The traffic of one address: a mutable table with one cell for each enabled
 channel, and the step that adds traffic to it.
 */
module Cells {
  import opened Traffic

  /** One inner map: the traffic of one address by channel. It lives on the heap. */
  class CellTable {
    var cells: map<ChannelId, Bytes>

    constructor (cells: map<ChannelId, Bytes>)
      ensures this.cells == cells
    {
      this.cells := cells;
    }
  }

  /** The values behind a map of tables. */
  ghost function ViewOf(m: map<string, CellTable>): TrafficMap
    reads set ip | ip in m :: m[ip]
  {
    map ip | ip in m :: m[ip].cells
  }

  /** Missing cells become zero, then b is added to the cell of c if that channel is enabled. */
  function Bump(channels: ChannelMap, cells: map<ChannelId, Bytes>, c: ChannelId, b: Bytes): map<ChannelId, Bytes> {
    map k | k in Enabled(channels) ::
      (if k == c then b else ZERO).Merge(if k in cells then cells[k] else ZERO)
  }

  /** A cell table with a zero cell for every enabled channel. */
  method CreateNewEmptyTrafficMap(channels: ChannelMap) returns (r: CellTable)
    ensures fresh(r)
    ensures forall c :: c in r.cells <==> c in channels && channels[c]
    ensures forall c | c in r.cells :: r.cells[c] == Bytes(0, 0)
    ensures r.cells == map c | c in Enabled(channels) :: ZERO
  {
    r := new CellTable(map[]);
    var keys := channels.Keys;
    while keys != {}
      invariant keys <= channels.Keys
      invariant r.cells.Keys == Enabled(channels) - keys
      invariant forall c | c in r.cells :: r.cells[c] == ZERO
    {
      var c :| c in keys;
      if channels[c] {
        r.cells := r.cells[c := ZERO];
      }
      keys := keys - {c};
    }
  }

  /** Cells to merge with; an empty table counts as none. */
  function CellsOf(table: CellTable?): map<ChannelId, Bytes>
    reads table
  {
    if table == null then map[] else table.cells
  }

  /** Adds b to the traffic of one address on channel c, in place when the table is in use
      and in a new table otherwise. On tables of the right shape both branches compute Bump. */
  method CountTraffic(table: CellTable?, b: Bytes, channels: ChannelMap, c: ChannelId) returns (r: CellTable)
    modifies table
    ensures if old(CellsOf(table)) != map[] then r == table else fresh(r)
    ensures table != null && r != table ==> table.cells == old(table.cells)
    ensures old(CellsOf(table)) == map[] ==>
              && (forall k :: k in r.cells <==> k in channels && channels[k])
              && forall k | k in r.cells :: r.cells[k] == if k == c then b else Bytes(0, 0)
    ensures old(CellsOf(table)) != map[] && !(c in channels && channels[c]) ==> r.cells == old(table.cells)
    ensures old(CellsOf(table)) != map[] && c in channels && channels[c] ==>
              var was := if c in old(table.cells) then old(table.cells)[c] else Bytes(0, 0);
              r.cells == old(table.cells)[c := Bytes(was.download + b.download, was.upload + b.upload)]
    ensures old(CellsOf(table)) == map[] || old(CellsOf(table)).Keys == Enabled(channels) ==>
              r.cells == Bump(channels, old(CellsOf(table)), c, b)
  {
    var enabled := c in channels && channels[c];
    if table != null && table.cells != map[] {
      if enabled {
        var merged := b.Merge(if c in table.cells then table.cells[c] else ZERO);
        table.cells := table.cells[c := merged];
      }
      return table;
    }
    r := CreateNewEmptyTrafficMap(channels);
    if enabled {
      r.cells := r.cells[c := b];
    }
  }
}
