/** The driver's vehicle list: joined rows grouped by vehicle, in order of first appearance. */
module VehicleListing {
  import opened Base
  import M = MarketState

  datatype ServiceGrant = ServiceGrant(service: ServiceCode, displayName: string, approvedAt: Time, active: bool)
  datatype Row = Row(vehicle: VehicleId, details: M.VehicleDetails, grant: Option<ServiceGrant>)
  datatype ListedVehicle = ListedVehicle(vehicle: VehicleId, details: M.VehicleDetails, grants: seq<ServiceGrant>)

  predicate Mentions(rows: seq<Row>, v: VehicleId) {
    exists i | 0 <= i < |rows| :: rows[i].vehicle == v
  }

  /** The first row of each vehicle, in row order. */
  function Firsts(rows: seq<Row>): seq<Row> {
    if rows == [] then []
    else
      var n := |rows| - 1;
      Firsts(rows[..n]) + if Mentions(rows[..n], rows[n].vehicle) then [] else [rows[n]]
  }

  function GrantOf(row: Row, v: VehicleId): seq<ServiceGrant> {
    if row.vehicle == v && row.grant.Some? then [row.grant.value] else []
  }

  /** The grants that the rows hold for one vehicle, in row order. */
  function GrantsOf(rows: seq<Row>, v: VehicleId): seq<ServiceGrant> {
    if rows == [] then [] else GrantsOf(rows[..|rows| - 1], v) + GrantOf(rows[|rows| - 1], v)
  }

  function Entry(rows: seq<Row>, first: Row): ListedVehicle {
    ListedVehicle(first.vehicle, first.details, GrantsOf(rows, first.vehicle))
  }

  /** One entry per vehicle in order of first rows, each with all of the vehicle's grants. */
  ghost predicate Groups(rows: seq<Row>, list: seq<ListedVehicle>) {
    && |list| == |Firsts(rows)|
    && forall k | 0 <= k < |list| :: list[k] == Entry(rows, Firsts(rows)[k])
  }

  /** The index map points each vehicle seen so far at its entry. */
  ghost predicate Indexed(rows: seq<Row>, indices: map<VehicleId, nat>) {
    && (forall v: VehicleId :: v in indices <==> Mentions(rows, v))
    && (forall v | v in indices :: indices[v] < |Firsts(rows)| && Firsts(rows)[indices[v]].vehicle == v)
  }

  lemma {:induction false} FirstsMentioned(rows: seq<Row>)
    ensures forall k | 0 <= k < |Firsts(rows)| :: Mentions(rows, Firsts(rows)[k].vehicle)
  {
    if rows != [] {
      FirstsMentioned(rows[..|rows| - 1]);
      MentionsNext(rows, |rows| - 1);
    }
  }

  /** No vehicle is listed twice. */
  lemma {:induction false} FirstsDistinct(rows: seq<Row>)
    ensures forall k, l | 0 <= k < l < |Firsts(rows)| :: Firsts(rows)[k].vehicle != Firsts(rows)[l].vehicle
  {
    if rows != [] {
      FirstsDistinct(rows[..|rows| - 1]);
      FirstsMentioned(rows[..|rows| - 1]);
    }
  }

  /** Each vehicle's first row is listed, after the first rows before it. */
  lemma {:induction false} FirstIsListed(rows: seq<Row>, i: nat)
    requires i < |rows| && !Mentions(rows[..i], rows[i].vehicle)
    ensures |Firsts(rows[..i])| < |Firsts(rows)| && Firsts(rows)[|Firsts(rows[..i])|] == rows[i]
    decreases |rows|
  {
    var n := |rows| - 1;
    if i < n {
      assert rows[..n][..i] == rows[..i];
      FirstIsListed(rows[..n], i);
    }
  }

  /** And there is nothing else in the list. */
  lemma {:induction false} ListedIsFirst(rows: seq<Row>, k: nat)
    requires k < |Firsts(rows)|
    ensures exists i | 0 <= i < |rows| :: rows[i] == Firsts(rows)[k] && !Mentions(rows[..i], rows[i].vehicle)
    decreases |rows|
  {
    var n := |rows| - 1;
    if k < |Firsts(rows[..n])| {
      ListedIsFirst(rows[..n], k);
      var i :| 0 <= i < n && rows[..n][i] == Firsts(rows[..n])[k] && !Mentions(rows[..n][..i], rows[..n][i].vehicle);
      assert rows[..n][..i] == rows[..i];
      assert rows[i] == Firsts(rows)[k];
    } else {
      assert rows[n] == Firsts(rows)[k];
    }
  }

  /** Each of the vehicle's granted rows is listed, right after the grants of the rows before it. */
  lemma {:induction false} GrantIsListed(rows: seq<Row>, v: VehicleId, i: nat)
    requires i < |rows| && rows[i].vehicle == v && rows[i].grant.Some?
    ensures |GrantsOf(rows[..i], v)| < |GrantsOf(rows, v)| && GrantsOf(rows, v)[|GrantsOf(rows[..i], v)|] == rows[i].grant.value
    decreases |rows|
  {
    var n := |rows| - 1;
    if i < n {
      assert rows[..n][..i] == rows[..i];
      GrantIsListed(rows[..n], v, i);
    }
  }

  /** And nothing else: the p-th grant is that of a row of the vehicle with p granted rows of it before. */
  lemma {:induction false} ListedIsGrant(rows: seq<Row>, v: VehicleId, p: nat)
    requires p < |GrantsOf(rows, v)|
    ensures exists i | 0 <= i < |rows| ::
      rows[i].vehicle == v && rows[i].grant == Some(GrantsOf(rows, v)[p]) && |GrantsOf(rows[..i], v)| == p
    decreases |rows|
  {
    var n := |rows| - 1;
    if p < |GrantsOf(rows[..n], v)| {
      ListedIsGrant(rows[..n], v, p);
      var i :| 0 <= i < n && rows[..n][i].vehicle == v && rows[..n][i].grant == Some(GrantsOf(rows[..n], v)[p])
        && |GrantsOf(rows[..n][..i], v)| == p;
      assert rows[..n][..i] == rows[..i];
      assert rows[i].vehicle == v;
    } else {
      assert rows[n].vehicle == v;
    }
  }

  lemma MentionsNext(rows: seq<Row>, n: nat)
    requires n < |rows|
    ensures rows[..n + 1][..n] == rows[..n]
    ensures forall v: VehicleId :: Mentions(rows[..n + 1], v) <==> Mentions(rows[..n], v) || v == rows[n].vehicle
    ensures n + 1 == |rows| ==> forall v: VehicleId :: Mentions(rows, v) <==> Mentions(rows[..n], v) || v == rows[n].vehicle
  {
    assert n + 1 == |rows| ==> rows[..n + 1] == rows;
    forall v: VehicleId
      ensures Mentions(rows[..n + 1], v) <==> Mentions(rows[..n], v) || v == rows[n].vehicle
    {
      assert forall i | 0 <= i < n :: rows[..n + 1][i] == rows[..n][i];
      assert rows[..n + 1][n] == rows[n];
    }
  }

  /** A row of a vehicle not seen before: its entry goes last. */
  lemma NewVehicle(rows: seq<Row>, n: nat, list: seq<ListedVehicle>)
    requires n < |rows| && Groups(rows[..n], list) && !Mentions(rows[..n], rows[n].vehicle)
    ensures Groups(rows[..n + 1], list + [ListedVehicle(rows[n].vehicle, rows[n].details, GrantOf(rows[n], rows[n].vehicle))])
  {
    MentionsNext(rows, n);
    FirstsMentioned(rows[..n]);
    NoGrants(rows[..n], rows[n].vehicle);
  }

  lemma {:induction false} NoGrants(rows: seq<Row>, v: VehicleId)
    requires !Mentions(rows, v)
    ensures GrantsOf(rows, v) == []
  {
    if rows != [] {
      MentionsNext(rows, |rows| - 1);
      NoGrants(rows[..|rows| - 1], v);
    }
  }

  /** A further row of a known vehicle adds its grant to that vehicle's entry and to no other. */
  lemma KnownVehicle(rows: seq<Row>, n: nat, list: seq<ListedVehicle>, k: nat)
    requires n < |rows| && Groups(rows[..n], list) && Mentions(rows[..n], rows[n].vehicle)
    requires k < |list| && list[k].vehicle == rows[n].vehicle
    ensures Groups(rows[..n + 1], list[k := list[k].(grants := list[k].grants + GrantOf(rows[n], rows[n].vehicle))])
  {
    MentionsNext(rows, n);
    FirstsDistinct(rows[..n]);
  }

  method ListVehicles(rows: seq<Row>) returns (list: seq<ListedVehicle>)
    ensures Groups(rows, list)
    ensures |list| == |Firsts(rows)| && forall k | 0 <= k < |list| ::
      && list[k].vehicle == Firsts(rows)[k].vehicle && list[k].details == Firsts(rows)[k].details
      && list[k].grants == GrantsOf(rows, list[k].vehicle)
  {
    list := [];
    var indices: map<VehicleId, nat> := map[];
    for n := 0 to |rows|
      invariant Groups(rows[..n], list) && Indexed(rows[..n], indices)
    {
      var row := rows[n];
      MentionsNext(rows, n);
      ghost var before := list;
      if row.vehicle !in indices {
        NewVehicle(rows, n, list);
        indices := indices[row.vehicle := |list|];
        list := list + [ListedVehicle(row.vehicle, row.details, [])];
      } else {
        KnownVehicle(rows, n, list, indices[row.vehicle]);
      }
      var index := indices[row.vehicle];
      if row.grant.Some? {
        list := list[index := list[index].(grants := list[index].grants + [row.grant.value])];
      } else {
        assert list[index].grants + [] == list[index].grants;
      }
      assert index < |before| ==>
        list == before[index := before[index].(grants := before[index].grants + GrantOf(row, row.vehicle))];
      assert index == |before| ==>
        list == before + [ListedVehicle(row.vehicle, row.details, GrantOf(row, row.vehicle))];
    }
    assert rows[..|rows|] == rows;
  }
}
