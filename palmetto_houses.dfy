/**
 * Loading the Palmetto data (src/hooks/usePalmettoHouses.ts): houses,
 * substations and house connections, with the connection-reuse decision
 * and the connected-houses query. Each table read is a `Fetch` value.
 */
module PalmettoHouses {
  import opened Js
  import opened Types
  import opened Seqs
  import opened PalmettoConnections

  /** The outcome of one `select('*')`: rows, a null `data` without an error, or an error. */
  datatype Fetch<T> = Rows(rows: seq<T>) | NoData | Failed

  /**
   * The outcome of the `house_connections` read: the table's rows, a null
   * `data` without an error, or an error.
   */
  datatype TableRead = RowsRead | NullRead | ReadFailed

  /** What the hook returns; `getConnectedHouses` is `ConnectedHouses` over it. */
  datatype PalmettoData = PalmettoData(houses: seq<PalmettoHouse>, substations: seq<SubstationRow>,
                                       connections: seq<HouseConnection>)

  /** The value returned from the `catch` block. */
  const EmptyData := PalmettoData([], [], [])

  /** The ids of the houses connected to substation `sid`, in connection order. */
  function ConnectedIds(connections: seq<HouseConnection>, sid: string): (r: seq<string>)
    ensures forall id :: id in r <==> exists c :: c in connections && c.substationId == sid && c.houseId == id
    decreases |connections|
  {
    if connections == [] then []
    else
      var rest := ConnectedIds(connections[1..], sid);
      assert forall c :: c in connections <==> c == connections[0] || c in connections[1..];
      if connections[0].substationId == sid then [connections[0].houseId] + rest else rest
  }

  /**
   * `getConnectedHouses(sid)`: the houses, in house order, whose id appears
   * in a connection to `sid`; the other houses are left out.
   */
  function ConnectedHouses(data: PalmettoData, sid: string): (r: seq<PalmettoHouse>)
    ensures Subsequence(r, data.houses)
    ensures forall h :: h in r <==>
      h in data.houses && exists c :: c in data.connections && c.substationId == sid && c.houseId == h.id
  {
    KeepConnected(data.houses, ConnectedIds(data.connections, sid))
  }

  /** The houses whose id is one of `ids`, in house order. */
  function KeepConnected(houses: seq<PalmettoHouse>, ids: seq<string>): (r: seq<PalmettoHouse>)
    ensures forall h :: h in r <==> h in houses && h.id in ids
    ensures Subsequence(r, houses)
    decreases |houses|
  {
    if houses == [] then []
    else
      var rest := KeepConnected(houses[1..], ids);
      assert forall h :: h in houses <==> h == houses[0] || h in houses[1..];
      if houses[0].id in ids then [houses[0]] + rest else rest
  }

  /** The houses used: the fetched rows, or the mock houses when there are none. */
  function HousesUsed(houseFetch: Fetch<PalmettoHouse>, mockHouses: seq<PalmettoHouse>): seq<PalmettoHouse> {
    if houseFetch.Rows? && houseFetch.rows != [] then houseFetch.rows else mockHouses
  }

  /**
   * The query function. Any failed read (or reading `length` of a null
   * substation list) ends in the catch block and `EmptyData`. An empty
   * house table is replaced by `mockHouses`. Connections are looked at only
   * when there are both houses and substations: the stored ones are reused
   * when the read returned any, else (an empty table or a null `data`) the
   * assignment runs on the connection table.
   */
  method LoadPalmettoData(houseFetch: Fetch<PalmettoHouse>, mockHouses: seq<PalmettoHouse>,
                          substationFetch: Fetch<SubstationRow>, connectionsRead: TableRead,
                          table: ConnectionTable,
                          dist: (PalmettoHouse, SubstationRow) -> real,
                          upsert: (PalmettoHouse, SubstationRow, real) -> Option<HouseConnection>,
                          deleteFails: bool)
    returns (data: PalmettoData)
    modifies table
    ensures houseFetch.Failed? || substationFetch.Failed? ==> data == EmptyData && table.rows == old(table.rows)
    ensures !houseFetch.Failed? && !substationFetch.Failed? && HousesUsed(houseFetch, mockHouses) == [] ==>
      data == PalmettoData([], if substationFetch.Rows? then substationFetch.rows else [], [])
      && table.rows == old(table.rows)
    ensures !houseFetch.Failed? && HousesUsed(houseFetch, mockHouses) != [] ==>
      var houses := HousesUsed(houseFetch, mockHouses);
      match substationFetch
      case Failed => data == EmptyData && table.rows == old(table.rows)
      case NoData => data == EmptyData && table.rows == old(table.rows)
      case Rows(subs) =>
        if subs == [] then data == PalmettoData(houses, [], []) && table.rows == old(table.rows)
        else if connectionsRead.ReadFailed? then data == EmptyData && table.rows == old(table.rows)
        else if connectionsRead.RowsRead? && old(table.rows) != [] then
          data == PalmettoData(houses, subs, old(table.rows)) && table.rows == old(table.rows)
        else
          data == PalmettoData(houses, subs, Assigned(houses, subs, dist, upsert))
          && table.rows == (if deleteFails then old(table.rows) else KeptByDelete(old(table.rows))) + data.connections
  {
    if houseFetch.Failed? {
      return EmptyData;
    }
    var houses := if houseFetch.Rows? then houseFetch.rows else [];
    if |houses| == 0 {
      houses := mockHouses;
    }
    if substationFetch.Failed? {
      return EmptyData;
    }
    var connections: seq<HouseConnection> := [];
    if |houses| > 0 {
      if substationFetch.NoData? {
        // `substations.length` on null throws
        return EmptyData;
      }
      if |substationFetch.rows| > 0 {
        if connectionsRead.ReadFailed? {
          return EmptyData;
        }
        var existing := if connectionsRead.RowsRead? then table.rows else [];
        if |existing| > 0 {
          connections := existing;
        } else {
          connections := AssignHousesToSubstations(table, houses, substationFetch.rows, dist, upsert, deleteFails);
        }
      }
    }
    var substations := if substationFetch.Rows? then substationFetch.rows else [];
    data := PalmettoData(houses, substations, connections);
  }
}
