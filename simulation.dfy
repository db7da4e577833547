/**
 * The simulator object and its planes as the source keeps them: mutable
 * objects whose fields the operations update in place. Each operation of
 * the application object is one atomic step. A flight, a request, a
 * dispatcher turn, an ingestion task, a service turn and the two buttons are
 * proved to move the abstract state `Abs()` exactly as the matching step
 * function of module Dispatch; the set-up and the queue helpers state their
 * new fields directly.
 */
module Simulation {
  import opened Fleet
  import opened Allocation
  import opened Dispatch

  /** A plane: id and home airport are final, position and the in-flight flag change. */
  class Plane {
    const id: int
    const home: Airport
    var x: int
    var y: int
    var inFlight: bool

    constructor (id: int, home: Airport, x: int, y: int)
      ensures this.id == id && this.home == home && this.x == x && this.y == y
      ensures !inFlight
    {
      this.id := id;
      this.home := home;
      this.x := x;
      this.y := y;
      inFlight := false;
    }

    /** The plane's state as a value. */
    function View(): PlaneView
      reads this
    {
      PlaneView(id, home, x, y, inFlight)
    }
  }

  /** A service request as the source queues it: landing airport and the plane object. */
  datatype ServiceRequest = ServiceRequest(airport: Airport, plane: Plane)

  /** The states of a list of planes, in list order. */
  function ViewsOf(ps: seq<Plane>): (r: seq<PlaneView>)
    reads ps
    ensures |r| == |ps|
    ensures forall i :: 0 <= i < |ps| ==> r[i] == ps[i].View()
  {
    if ps == [] then [] else ViewsOf(ps[..|ps| - 1]) + [ps[|ps| - 1].View()]
  }

  /** The states of a list of planes after one plane's state changed and no other did. */
  lemma ViewsAfterUpdate(ps: seq<Plane>, k: nat, before: seq<PlaneView>, v: PlaneView)
    requires k < |ps| && |before| == |ps| && ps[k].View() == v
    requires forall m :: 0 <= m < |ps| && m != k ==> ps[m].View() == before[m]
    ensures ViewsOf(ps) == before[k := v]
  {
  }

  /** Service requests as values: the plane object is named by its (final) id. */
  function TicketsOf(q: seq<ServiceRequest>): (r: seq<ServiceTicket>)
    ensures |r| == |q|
    ensures forall i :: 0 <= i < |q| ==> r[i] == ServiceTicket(q[i].airport, q[i].plane.id)
  {
    if q == [] then [] else TicketsOf(q[..|q| - 1]) + [ServiceTicket(q[|q| - 1].airport, q[|q| - 1].plane.id)]
  }

  class App {
    var airports: seq<Airport>
    var planes: seq<Plane>
    var flightRequestQueue: seq<FlightRequest>
    var serviceRequestQueue: seq<ServiceRequest>
    var inFlight: int
    var undergoingService: int
    var completedTrips: int
    var running: bool

    /** No plane object appears twice in the plane list. */
    ghost predicate Valid()
      reads this
    {
      forall i, j :: 0 <= i < j < |planes| ==> planes[i] != planes[j]
    }

    /** The whole simulator state as a value. */
    ghost function Abs(): World
      reads this, planes
    {
      World(airports, ViewsOf(planes), flightRequestQueue, TicketsOf(serviceRequestQueue),
            inFlight, undergoingService, completedTrips, running)
    }

    /** The request queues, the counters and the flag: what the registry set-up leaves alone. */
    ghost function Untouched(): (seq<FlightRequest>, seq<ServiceRequest>, int, int, int, bool)
      reads this
    {
      (flightRequestQueue, serviceRequestQueue, inFlight, undergoingService, completedTrips, running)
    }

    /**
     * Empty lists, stopped, counters at zero; then the registry set-up from
     * the coordinates it draws: plane ids are then exactly 1..15.
     */
    constructor (coords: seq<(int, int)>)
      requires DrawnCoordinates(coords)
      ensures Valid() && Abs() == InitialWorld(coords)
      ensures fresh(set p | p in planes)
      ensures forall n :: n in PlaneIds(ViewsOf(planes)) <==> 1 <= n <= NumAirports * PlanesPerAirport
    {
      airports := [];
      planes := [];
      flightRequestQueue := [];
      serviceRequestQueue := [];
      inFlight := 0;
      undergoingService := 0;
      completedTrips := 0;
      running := false;
      new;
      InitializeAirportsAndPlanes(coords);
      InitialPlaneIds(coords);
    }

    /**
     * The registry set-up: airport `i` (id `i+1`) at the i-th random
     * coordinate pair, then its three planes.
     */
    method InitializeAirportsAndPlanes(coords: seq<(int, int)>)
      requires Valid() && airports == [] && planes == []
      modifies this
      ensures Valid()
      ensures airports == InitialAirports(coords)
      ensures ViewsOf(planes) == InitialPlanes(coords)
      ensures Untouched() == old(Untouched())
      ensures forall p :: p in planes ==> p in old(planes) || fresh(p)
    {
      for i := 0 to |coords|
        invariant Valid()
        invariant forall p :: p in planes ==> p in old(planes) || fresh(p)
        invariant airports == InitialAirports(coords[..i])
        invariant ViewsOf(planes) == InitialPlanes(coords[..i])
        invariant Untouched() == old(Untouched())
      {
        var (x, y) := coords[i];
        var airport := Airport(i + 1, x, y);
        AddAirport(airport);
        AddPlanesOf(i, airport);
        InitialFleetSnoc(coords, i);
      }
      assert coords[..|coords|] == coords;
    }

    /** `airports.add(airport)`. */
    method AddAirport(airport: Airport)
      modifies this
      ensures airports == old(airports) + [airport]
      ensures planes == old(planes) && ViewsOf(planes) == old(ViewsOf(planes))
      ensures Untouched() == old(Untouched())
    {
      airports := airports + [airport];
    }

    /**
     * The inner set-up loop: plane `j` of airport number `i` gets id
     * `i*3+j+1` and is a new object at the airport's coordinates.
     */
    method AddPlanesOf(i: nat, airport: Airport)
      requires Valid()
      modifies this
      ensures Valid()
      ensures ViewsOf(planes) == old(ViewsOf(planes)) + PlanesOf(i, airport, PlanesPerAirport)
      ensures airports == old(airports)
      ensures Untouched() == old(Untouched())
      ensures old(planes) <= planes
      ensures forall p :: p in planes ==> p in old(planes) || fresh(p)
    {
      ghost var start := ViewsOf(planes);
      for j := 0 to PlanesPerAirport
        invariant Valid()
        invariant old(planes) <= planes
        invariant forall p :: p in planes ==> p in old(planes) || fresh(p)
        invariant ViewsOf(planes) == start + PlanesOf(i, airport, j)
        invariant airports == old(airports) && Untouched() == old(Untouched())
      {
        var plane := AddPlane(PlaneId(i, j), airport);
      }
    }

    /** `planes.add(new Plane(id, airport, x, y))`: a new idle plane at its home airport. */
    method AddPlane(id: int, airport: Airport) returns (plane: Plane)
      requires Valid()
      modifies this
      ensures Valid()
      ensures ViewsOf(planes) == old(ViewsOf(planes)) + [PlaneView(id, airport, airport.x, airport.y, false)]
      ensures fresh(plane) && planes == old(planes) + [plane]
      ensures airports == old(airports)
      ensures Untouched() == old(Untouched())
    {
      ghost var views := ViewsOf(planes);
      plane := new Plane(id, airport, airport.x, airport.y);
      assert ViewsOf(planes) == views;
      planes := planes + [plane];
    }

    /**
     * The scan-and-mark under the plane-list lock: the first plane in list
     * order whose home is `airport` and which is not in flight is marked in
     * flight and returned; null, with nothing changed, when there is none.
     */
    method FindAvailablePlane(airport: Airport) returns (plane: Plane?)
      requires Valid()
      modifies planes
      ensures Valid()
      ensures var slot := FirstAvailable(old(ViewsOf(planes)), airport);
        (plane == null <==> slot.None?) &&
        (slot.Some? ==> slot.value < |planes| && plane == planes[slot.value])
      ensures ViewsOf(planes) == Allocate(old(ViewsOf(planes)), airport).1
      ensures Abs() == old(Abs()).(planes := Allocate(old(Abs()).planes, airport).1)
    {
      var i := 0;
      while i < |planes|
        invariant 0 <= i <= |planes|
        invariant ViewsOf(planes) == old(ViewsOf(planes))
        invariant forall m :: 0 <= m < i ==> !Idle(planes[m].View(), airport)
      {
        if planes[i].home == airport && !planes[i].inFlight {
          ghost var was := ViewsOf(planes);
          FirstAvailableIsFirstIdle(was, airport, i);
          planes[i].inFlight := true;
          plane := planes[i];
          assert ViewsOf(planes) == was[i := was[i].(inFlight := true)];
          return;
        }
        i := i + 1;
      }
      plane := null;
    }

    /**
     * One flight of `plane` (list position `k`) to (targetX, targetY): the
     * in-flight counter goes up, the step loop is left early when `running`
     * is false, otherwise the plane ends at the target, the counter goes
     * down, a trip is counted and the plane is released.
     */
    method MovePlane(plane: Plane, ghost k: nat, targetX: int, targetY: int)
      requires Valid() && k < |planes| && planes[k] == plane
      modifies this, plane
      ensures Valid() && planes == old(planes)
      ensures Abs() == Fly(old(Abs()), k, targetX, targetY)
    {
      ghost var w := Abs();
      inFlight := inFlight + 1;
      if (plane.x != targetX || plane.y != targetY) && !running {
        // the first step check of the movement loop sees the simulation
        // stopped and returns: no landing, no release
      } else {
        plane.x, plane.y := targetX, targetY;
        inFlight, completedTrips := inFlight - 1, completedTrips + 1;
        plane.inFlight := false;
        ViewsAfterUpdate(planes, k, w.planes, w.planes[k].(x := targetX, y := targetY, inFlight := false));
      }
      SameWorld(Abs(), Fly(w, k, targetX, targetY));
    }

    /**
     * One flight request: allocate a plane, resolve the destination id, fly,
     * then queue a service request for the destination and the plane.
     */
    method ProcessFlightRequest(request: FlightRequest)
      requires Valid()
      modifies this, planes
      ensures Valid() && planes == old(planes)
      ensures Abs() == Process(old(Abs()), request)
    {
      ghost var w := Abs();
      var plane := FindAvailablePlane(request.origin);
      if plane != null {
        ghost var k := FirstAvailable(w.planes, request.origin).value;
        var found := FindAirport(airports, request.destinationId);
        if found.Some? {
          var destination := airports[found.value];
          MovePlane(plane, k, destination.x, destination.y);
          PutServiceRequest(ServiceRequest(destination, plane));
        }
      }
    }

    /**
     * `put` on the service-request queue: the request goes to the back. A
     * stopped simulation has interrupted the calling task (`shutdownNow`), so
     * `put` throws, the caller swallows the exception and nothing is queued.
     */
    method PutServiceRequest(request: ServiceRequest)
      requires Valid()
      modifies this
      ensures Valid() && planes == old(planes)
      ensures Abs() == old(Abs()).(serviceQueue := old(Abs()).serviceQueue +
        if running then [ServiceTicket(request.airport, request.plane.id)] else [])
    {
      if running {
        ghost var w := Abs();
        serviceRequestQueue := serviceRequestQueue + [request];
        assert TicketsOf(serviceRequestQueue) == w.serviceQueue + [ServiceTicket(request.airport, request.plane.id)];
        SameWorld(Abs(), w.(serviceQueue := w.serviceQueue + [ServiceTicket(request.airport, request.plane.id)]));
      }
    }

    /** `drainTo(batch, max)` on the flight-request queue. */
    method DrainFlightRequests(max: nat) returns (batch: seq<FlightRequest>)
      modifies this
      ensures (batch, flightRequestQueue) == Drain(old(flightRequestQueue), max)
      ensures airports == old(airports) && planes == old(planes)
      ensures serviceRequestQueue == old(serviceRequestQueue) && running == old(running)
      ensures inFlight == old(inFlight) && undergoingService == old(undergoingService)
      ensures completedTrips == old(completedTrips)
    {
      var n := if |flightRequestQueue| < max then |flightRequestQueue| else max;
      batch := flightRequestQueue[..n];
      flightRequestQueue := flightRequestQueue[n..];
    }

    /**
     * One turn of the flight dispatcher loop: while running, drain up to five
     * requests and process each (here one after the other, in batch order).
     */
    method DispatchCycle() returns (batch: seq<FlightRequest>)
      requires Valid()
      modifies this, planes
      ensures Valid() && planes == old(planes)
      ensures batch == if old(running) then Drain(old(flightRequestQueue), BatchSize).0 else []
      ensures Abs() == Cycle(old(Abs()))
    {
      batch := [];
      if running {
        batch := DrainFlightRequests(BatchSize);
        ghost var drained := Abs();
        var i := 0;
        while i < |batch|
          invariant 0 <= i <= |batch|
          invariant Valid() && planes == old(planes)
          invariant Abs() == ProcessAll(drained, batch[..i])
        {
          ProcessFlightRequest(batch[i]);
          assert batch[..i + 1][..i] == batch[..i];
          i := i + 1;
        }
        assert batch[..i] == batch;
      }
    }

    /**
     * One ingestion task: for each destination id the generator prints, while
     * running, a request from `origin` is put at the back of the queue.
     */
    method IngestRequests(origin: Airport, ids: seq<int>)
      modifies this
      ensures planes == old(planes)
      ensures Abs() == Ingest(old(Abs()), origin, ids)
    {
      var i := 0;
      while i < |ids| && running
        invariant 0 <= i <= |ids|
        invariant !running ==> i == 0
        invariant flightRequestQueue == old(flightRequestQueue) + Requests(origin, ids[..i])
        invariant airports == old(airports) && planes == old(planes)
        invariant serviceRequestQueue == old(serviceRequestQueue) && running == old(running)
        invariant inFlight == old(inFlight) && undergoingService == old(undergoingService)
        invariant completedTrips == old(completedTrips)
      {
        flightRequestQueue := flightRequestQueue + [FlightRequest(origin, ids[i])];
        assert ids[..i + 1][..i] == ids[..i];
        i := i + 1;
      }
      assert running ==> ids[..i] == ids;
    }

    /**
     * Servicing one plane: launch the service process, count the plane as in
     * service, read the one line; the decrement is cleanup that runs on every
     * path, including a failed launch that never incremented.
     */
    method ServicePlane(airport: Airport, plane: Plane, outcome: ServiceOutcome)
      modifies this
      ensures undergoingService == ServiceCount(old(undergoingService), outcome)
      ensures airports == old(airports) && planes == old(planes)
      ensures flightRequestQueue == old(flightRequestQueue) && serviceRequestQueue == old(serviceRequestQueue)
      ensures inFlight == old(inFlight) && completedTrips == old(completedTrips) && running == old(running)
    {
      if !outcome.LaunchFailed? {
        undergoingService := undergoingService + 1;
      }
      undergoingService := undergoingService - 1;
    }

    /** One turn of the service dispatcher: take the oldest service request and service it. */
    method ServeNextRequest(outcome: ServiceOutcome)
      modifies this
      ensures planes == old(planes)
      ensures Abs() == ServeNext(old(Abs()), outcome)
    {
      if running && |serviceRequestQueue| > 0 {
        var request := serviceRequestQueue[0];
        serviceRequestQueue := serviceRequestQueue[1..];
        ServicePlane(request.airport, request.plane, outcome);
      }
    }

    /** The Start button handler: only a stopped simulation is started. */
    method OnStart()
      modifies this
      ensures planes == old(planes)
      ensures Abs() == PressStart(old(Abs()))
    {
      if !running {
        running := true;
      }
    }

    /** The End button handler: only a running simulation is stopped. */
    method OnEnd()
      modifies this
      ensures planes == old(planes)
      ensures Abs() == PressEnd(old(Abs()))
    {
      if running {
        running := false;
        StopSimulation();
      }
    }

    /** Stopping: clear the flag the worker loops poll. */
    method StopSimulation()
      modifies this
      ensures !running
      ensures airports == old(airports) && planes == old(planes)
      ensures flightRequestQueue == old(flightRequestQueue) && serviceRequestQueue == old(serviceRequestQueue)
      ensures inFlight == old(inFlight) && undergoingService == old(undergoingService)
      ensures completedTrips == old(completedTrips)
    {
      running := false;
    }
  }

  /**
   * A run of the application from the window's `start`: the set-up, a press
   * of Start, airport 1's generator printing one valid destination id, and one
   * turn of the flight dispatcher. Plane 1 flies there and lands, and one
   * service request for it waits.
   */
  method RunFirstTrip(coords: seq<(int, int)>, id: int) returns (app: App)
    requires DrawnCoordinates(coords) && 1 <= id <= NumAirports
    ensures app.running && app.flightRequestQueue == []
    ensures app.inFlight == 0 && app.completedTrips == 1 && app.undergoingService == 0
    ensures |app.airports| == NumAirports && |app.planes| == NumAirports * PlanesPerAirport
    ensures TicketsOf(app.serviceRequestQueue) == [ServiceTicket(app.airports[id - 1], 1)]
    ensures var dest := app.airports[id - 1];
      app.planes[0].id == 1 && !app.planes[0].inFlight &&
      app.planes[0].x == dest.x && app.planes[0].y == dest.y
  {
    app := new App(coords);
    app.OnStart();
    app.IngestRequests(app.airports[0], [id]);
    var batch := app.DispatchCycle();
    FirstTrip(coords, id);
    InitialPlaneLayout(coords, 0, 0);
  }
}
