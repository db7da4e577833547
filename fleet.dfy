/**
 * The fleet registry of the air-traffic simulator: the immutable airport and
 * request records, the snapshot of a plane's state, the registry set-up
 * (five airports with three planes each) and the destination lookup by id.
 */
module Fleet {

  const NumAirports: nat := 5
  const PlanesPerAirport: nat := 3
  const GridWidth: nat := 10
  const GridHeight: nat := 10
  /** How many flight requests one dispatcher cycle drains at most. */
  const BatchSize: nat := 5

  datatype Option<T> = None | Some(value: T)

  /** An airport: fixed id and fixed grid coordinates. */
  datatype Airport = Airport(id: int, x: int, y: int)

  /**
   * The state of one plane at one instant: its id, its home airport (final in
   * the source), its current position and whether it is claimed.
   */
  datatype PlaneView = PlaneView(id: int, home: Airport, x: int, y: int, inFlight: bool)

  /** A request to fly a plane from `origin` to the airport whose id is `destinationId`. */
  datatype FlightRequest = FlightRequest(origin: Airport, destinationId: int)

  /** The id the set-up loop gives plane `j` of airport `i` (both counted from 0). */
  function PlaneId(i: nat, j: nat): nat
  {
    i * PlanesPerAirport + j + 1
  }

  /**
   * The airports the set-up loop creates from the random coordinates it draws,
   * one pair per airport in creation order.
   */
  function InitialAirports(coords: seq<(int, int)>): (r: seq<Airport>)
    ensures |r| == |coords|
    ensures forall i :: 0 <= i < |r| ==> r[i] == Airport(i + 1, coords[i].0, coords[i].1)
  {
    if coords == [] then []
    else
      var last := |coords| - 1;
      InitialAirports(coords[..last]) + [Airport(last + 1, coords[last].0, coords[last].1)]
  }

  /** The first `n` planes the inner set-up loop creates for airport `a`, which is airport number `i`. */
  function PlanesOf(i: nat, a: Airport, n: nat): (r: seq<PlaneView>)
    ensures |r| == n
    ensures forall j :: 0 <= j < n ==> r[j] == PlaneView(PlaneId(i, j), a, a.x, a.y, false)
  {
    if n == 0 then [] else PlanesOf(i, a, n - 1) + [PlaneView(PlaneId(i, n - 1), a, a.x, a.y, false)]
  }

  /** The plane list after the set-up loops, built airport by airport as they append it. */
  function InitialPlanes(coords: seq<(int, int)>): (r: seq<PlaneView>)
    ensures |r| == PlanesPerAirport * |coords|
  {
    if coords == [] then []
    else
      var last := |coords| - 1;
      InitialPlanes(coords[..last]) + PlanesOf(last, InitialAirports(coords)[last], PlanesPerAirport)
  }

  /**
   * Plane `n` of the set-up (counted from 0) has id `n+1`, belongs to airport
   * `n/3`, starts at that airport's coordinates and is idle.
   */
  lemma {:induction false} InitialPlanesAt(coords: seq<(int, int)>)
    ensures var r := InitialPlanes(coords);
      forall n :: 0 <= n < |r| ==>
        var home := InitialAirports(coords)[n / PlanesPerAirport];
        r[n] == PlaneView(n + 1, home, home.x, home.y, false)
  {
    if coords != [] {
      var last := |coords| - 1;
      var airports := InitialAirports(coords);
      var prefix := InitialPlanes(coords[..last]);
      var r := InitialPlanes(coords);
      InitialPlanesAt(coords[..last]);
      assert InitialAirports(coords[..last]) == airports[..last];
      assert forall n :: 0 <= n < |prefix| ==> n / PlanesPerAirport < last && r[n] == prefix[n];
      assert forall n :: |prefix| <= n < |r| ==>
        n / PlanesPerAirport == last && r[n] == PlanesOf(last, airports[last], PlanesPerAirport)[n - |prefix|];
    }
  }

  /** One more turn of the outer set-up loop appends one airport and its three planes. */
  lemma InitialFleetSnoc(coords: seq<(int, int)>, i: nat)
    requires i < |coords|
    ensures var airport := Airport(i + 1, coords[i].0, coords[i].1);
      InitialAirports(coords[..i + 1]) == InitialAirports(coords[..i]) + [airport] &&
      InitialPlanes(coords[..i + 1]) == InitialPlanes(coords[..i]) + PlanesOf(i, airport, PlanesPerAirport)
  {
    assert coords[..i + 1][..i] == coords[..i];
  }

  /**
   * The position of the first airport whose id is `id`, as the stream
   * filter/findFirst lookup finds it, or None when no airport has that id.
   */
  function FindAirport(airports: seq<Airport>, id: int): (r: Option<nat>)
    ensures r.Some? ==> r.value < |airports| && airports[r.value].id == id
    ensures r.Some? ==> forall m :: 0 <= m < r.value ==> airports[m].id != id
    ensures r.None? <==> forall k :: 0 <= k < |airports| ==> airports[k].id != id
  {
    if airports == [] then None
    else if airports[0].id == id then Some(0)
    else
      match FindAirport(airports[1..], id)
      case None => None
      case Some(k) => Some(k + 1)
  }

  /** Plane `j` of airport `i` gets id `i*3+j+1`, starts at that airport's coordinates and is idle. */
  lemma InitialPlaneLayout(coords: seq<(int, int)>, i: nat, j: nat)
    requires i < |coords| && j < PlanesPerAirport
    ensures i * PlanesPerAirport + j < |InitialPlanes(coords)|
    ensures InitialPlanes(coords)[i * PlanesPerAirport + j]
         == PlaneView(PlaneId(i, j), InitialAirports(coords)[i], coords[i].0, coords[i].1, false)
  {
    var n := i * PlanesPerAirport + j;
    InitialPlanesAt(coords);
    assert n / PlanesPerAirport == i;
  }

  /** The ids carried by a list of planes. */
  function PlaneIds(planes: seq<PlaneView>): set<int>
  {
    set p | p in planes :: p.id
  }

  /** With five airports the plane ids are exactly 1..15, each used once. */
  lemma InitialPlaneIds(coords: seq<(int, int)>)
    requires |coords| == NumAirports
    ensures forall n :: n in PlaneIds(InitialPlanes(coords)) <==> 1 <= n <= NumAirports * PlanesPerAirport
    ensures var planes := InitialPlanes(coords);
      forall m, n :: 0 <= m < n < |planes| ==> planes[m].id != planes[n].id
  {
    var planes := InitialPlanes(coords);
    var ids := PlaneIds(planes);
    InitialPlanesAt(coords);
    forall n | 1 <= n <= NumAirports * PlanesPerAirport
      ensures n in ids
    {
      assert planes[n - 1].id == n;
    }
  }

  /** Coordinates drawn with `nextInt(GRID_WIDTH)` and `nextInt(GRID_HEIGHT)`: one pair per airport, on the grid. */
  predicate DrawnCoordinates(coords: seq<(int, int)>)
  {
    |coords| == NumAirports &&
    forall i :: 0 <= i < |coords| ==> 0 <= coords[i].0 < GridWidth && 0 <= coords[i].1 < GridHeight
  }

  /** From drawn coordinates every airport, and so every plane, starts on the grid. */
  lemma {:induction false} InitialFleetOnGrid(coords: seq<(int, int)>)
    requires DrawnCoordinates(coords)
    ensures forall a :: a in InitialAirports(coords) ==> 0 <= a.x < GridWidth && 0 <= a.y < GridHeight
    ensures forall p :: p in InitialPlanes(coords) ==> 0 <= p.x < GridWidth && 0 <= p.y < GridHeight
  {
    var airports := InitialAirports(coords);
    var planes := InitialPlanes(coords);
    InitialPlanesAt(coords);
    forall p | p in planes ensures 0 <= p.x < GridWidth && 0 <= p.y < GridHeight {
      var n :| 0 <= n < |planes| && planes[n] == p;
      assert p.x == airports[n / PlanesPerAirport].x && p.y == airports[n / PlanesPerAirport].y;
    }
  }

  /** The airport ids are exactly 1..5 in creation order, so the lookup for id `k` finds airport `k-1`. */
  lemma InitialAirportLookup(coords: seq<(int, int)>, id: int)
    requires |coords| == NumAirports
    ensures FindAirport(InitialAirports(coords), id).Some? <==> 1 <= id <= NumAirports
    ensures 1 <= id <= NumAirports ==> FindAirport(InitialAirports(coords), id) == Some(id - 1)
  {
    var airports := InitialAirports(coords);
    if 1 <= id <= NumAirports {
      assert airports[id - 1].id == id;
    }
  }
}
