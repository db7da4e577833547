/**
 * The simulator's shared state as one value, and each thing a dispatcher
 * thread or a button does to it as one atomic step: request ingestion, the
 * batched drain of the flight-request queue, processing one flight request
 * (allocate, resolve the destination, fly, hand off a service request),
 * servicing one landed plane, and the start/end buttons.
 */
module Dispatch {
  import opened Fleet
  import opened Allocation

  /** A service request: the airport the plane landed at and the id of the plane. */
  datatype ServiceTicket = ServiceTicket(airport: Airport, planeId: int)

  /** How a run of the external service process ends. */
  datatype ServiceOutcome =
    | Serviced(message: string)   // the process started and its one line was read
    | LaunchFailed                // starting the process threw an I/O error
    | ReadFailed                  // the process started, reading its output threw

  /** Everything the steps read or write: registry, both queues, the three counters, the flag. */
  datatype World = World(
    airports: seq<Airport>,
    planes: seq<PlaneView>,
    flightQueue: seq<FlightRequest>,
    serviceQueue: seq<ServiceTicket>,
    inFlight: int,
    inService: int,
    completedTrips: int,
    running: bool)

  /**
   * Two states that agree field by field are the same state (datatype
   * extensionality, stated once so that the method proofs can use it as a hint).
   */
  lemma SameWorld(a: World, b: World)
    requires a.airports == b.airports && a.planes == b.planes
    requires a.flightQueue == b.flightQueue && a.serviceQueue == b.serviceQueue
    requires a.inFlight == b.inFlight && a.inService == b.inService
    requires a.completedTrips == b.completedTrips && a.running == b.running
    ensures a == b
  {
  }

  /** The state right after set-up: registry filled, queues empty, counters zero, stopped. */
  function InitialWorld(coords: seq<(int, int)>): (r: World)
    ensures |r.airports| == |coords| && |r.planes| == PlanesPerAirport * |r.airports|
    ensures !r.running && r.flightQueue == [] && r.serviceQueue == []
  {
    World(InitialAirports(coords), InitialPlanes(coords), [], [], 0, 0, 0, false)
  }

  /**
   * One flight of plane `k` to the grid point (tx, ty). The in-flight counter
   * goes up first. The step loop runs only when the plane is not already at
   * the target; its first check sees `running` false and returns early,
   * leaving counter, flag and position as they are. Otherwise the plane lands:
   * the counter goes back down, a trip is counted, and the plane is at the
   * target and no longer in flight.
   */
  function Fly(w: World, k: nat, tx: int, ty: int): (r: World)
    requires k < |w.planes|
    ensures r.inFlight + r.completedTrips == w.inFlight + w.completedTrips + 1
    ensures r.completedTrips == w.completedTrips <==> r.inFlight == w.inFlight + 1
    ensures |r.planes| == |w.planes| && r.planes[k].id == w.planes[k].id && r.planes[k].home == w.planes[k].home
    ensures forall j :: 0 <= j < |w.planes| && j != k ==> r.planes[j] == w.planes[j]
    ensures r.airports == w.airports && r.flightQueue == w.flightQueue && r.serviceQueue == w.serviceQueue
    ensures r.inService == w.inService && r.running == w.running
  {
    var p := w.planes[k];
    var launched := w.(inFlight := w.inFlight + 1);
    if (p.x != tx || p.y != ty) && !w.running then launched
    else
      launched.(inFlight := launched.inFlight - 1,
                completedTrips := w.completedTrips + 1,
                planes := w.planes[k := p.(x := tx, y := ty, inFlight := false)])
  }

  /**
   * One flight request: claim a plane first, then look the destination up;
   * an unknown destination ends the request with the plane still claimed.
   * After the flight the service request is put on the service queue. A
   * request that runs while the simulation is stopped belongs to a task the
   * stop has interrupted (`shutdownNow`), so that `put` throws, the exception
   * is swallowed and no service request is queued.
   */
  function Process(w: World, req: FlightRequest): (r: World)
    ensures r.airports == w.airports && r.flightQueue == w.flightQueue
    ensures r.inService == w.inService && r.running == w.running
    ensures |r.planes| == |w.planes|
    ensures !w.running ==> r.serviceQueue == w.serviceQueue
  {
    match FirstAvailable(w.planes, req.origin)
    case None => w
    case Some(k) =>
      var claimed := w.(planes := Allocate(w.planes, req.origin).1);
      match FindAirport(w.airports, req.destinationId)
      case None => claimed
      case Some(d) =>
        var dest := w.airports[d];
        var landed := Fly(claimed, k, dest.x, dest.y);
        if w.running then landed.(serviceQueue := landed.serviceQueue + [ServiceTicket(dest, w.planes[k].id)])
        else landed
  }

  /** Processing a batch of requests one after the other, in batch order. */
  function ProcessAll(w: World, reqs: seq<FlightRequest>): (r: World)
    ensures r.airports == w.airports && r.flightQueue == w.flightQueue
    ensures r.inService == w.inService && r.running == w.running
    ensures |r.planes| == |w.planes|
  {
    if reqs == [] then w
    else Process(ProcessAll(w, reqs[..|reqs| - 1]), reqs[|reqs| - 1])
  }

  /** `drainTo(batch, max)`: the first `max` requests (all, when fewer wait) and the rest. */
  function Drain(q: seq<FlightRequest>, max: nat): (r: (seq<FlightRequest>, seq<FlightRequest>))
    ensures r.0 + r.1 == q
    ensures |r.0| == if |q| < max then |q| else max
  {
    var n := if |q| < max then |q| else max;
    (q[..n], q[n..])
  }

  /** One turn of the flight dispatcher loop: when running, drain a batch and process it. */
  function Cycle(w: World): (r: World)
    ensures r.airports == w.airports && r.running == w.running && r.inService == w.inService
    ensures |r.flightQueue| == if !w.running then |w.flightQueue|
      else if |w.flightQueue| < BatchSize then 0 else |w.flightQueue| - BatchSize
  {
    if !w.running then w
    else
      var (batch, rest) := Drain(w.flightQueue, BatchSize);
      ProcessAll(w.(flightQueue := rest), batch)
  }

  /** The flight requests one ingestion task enqueues for the ids its generator printed. */
  function Requests(origin: Airport, ids: seq<int>): (r: seq<FlightRequest>)
    ensures |r| == |ids|
    ensures forall i :: 0 <= i < |ids| ==> r[i] == FlightRequest(origin, ids[i])
  {
    if ids == [] then []
    else Requests(origin, ids[..|ids| - 1]) + [FlightRequest(origin, ids[|ids| - 1])]
  }

  /** One ingestion task: while running, every id read becomes a request at the back of the queue. */
  function Ingest(w: World, origin: Airport, ids: seq<int>): (r: World)
    ensures |r.flightQueue| == |w.flightQueue| + if w.running then |ids| else 0
  {
    if w.running then w.(flightQueue := w.flightQueue + Requests(origin, ids)) else w
  }

  /**
   * The service counter after one `servicePlane`: the increment comes after
   * the process launch, the decrement is in `finally`.
   */
  function ServiceCount(c: int, outcome: ServiceOutcome): (r: int)
    ensures c - 1 <= r <= c
    ensures r == c <==> !outcome.LaunchFailed?
  {
    var afterLaunch := if outcome.LaunchFailed? then c else c + 1;
    afterLaunch - 1
  }

  /** One turn of the service dispatcher: take the oldest service request and service it. */
  function ServeNext(w: World, outcome: ServiceOutcome): (r: World)
    ensures |r.serviceQueue| == if w.running && w.serviceQueue != [] then |w.serviceQueue| - 1 else |w.serviceQueue|
    ensures r.planes == w.planes
  {
    if !w.running || w.serviceQueue == [] then w
    else w.(serviceQueue := w.serviceQueue[1..], inService := ServiceCount(w.inService, outcome))
  }

  /** The Start button: acts only when stopped. */
  function PressStart(w: World): (r: World)
    ensures r.running
  {
    if !w.running then w.(running := true) else w
  }

  /** The End button: acts only when running. */
  function PressEnd(w: World): (r: World)
    ensures !r.running
  {
    if w.running then w.(running := false) else w
  }

  // ---------------------------------------------------------------------------
  // Properties of one flight request

  /** With no idle plane at the origin the request is dropped and nothing changes. */
  lemma ProcessWithoutIdlePlane(w: World, req: FlightRequest)
    requires forall k :: 0 <= k < |w.planes| ==> !Idle(w.planes[k], req.origin)
    ensures Process(w, req) == w
  {
  }

  /**
   * An unknown destination id: the plane was claimed before the lookup and
   * stays claimed; counters, queues and every other plane are unchanged.
   */
  lemma ProcessUnknownDestination(w: World, req: FlightRequest, k: nat)
    requires FirstAvailable(w.planes, req.origin) == Some(k)
    requires forall a :: a in w.airports ==> a.id != req.destinationId
    ensures k < |w.planes|
    ensures Process(w, req) == w.(planes := w.planes[k := w.planes[k].(inFlight := true)])
  {
    assert FindAirport(w.airports, req.destinationId).None?;
  }

  /**
   * A flight that lands (running, or already at the destination): the
   * in-flight counter is back where it was, one more trip is completed, the
   * plane is at the destination and free again, and, when running, exactly
   * one service request for it is appended at the back of the service queue
   * (a stopped task's `put` is interrupted and queues nothing).
   */
  lemma ProcessCompletedFlight(w: World, req: FlightRequest, k: nat, d: nat)
    requires FirstAvailable(w.planes, req.origin) == Some(k)
    requires FindAirport(w.airports, req.destinationId) == Some(d)
    requires k < |w.planes| && d < |w.airports|
    requires w.running || (w.planes[k].x == w.airports[d].x && w.planes[k].y == w.airports[d].y)
    ensures var r := Process(w, req); var dest := w.airports[d];
      r.inFlight == w.inFlight && r.completedTrips == w.completedTrips + 1 &&
      r.planes == w.planes[k := w.planes[k].(x := dest.x, y := dest.y)] &&
      !r.planes[k].inFlight &&
      r.serviceQueue == w.serviceQueue + (if w.running then [ServiceTicket(dest, w.planes[k].id)] else []) &&
      r.flightQueue == w.flightQueue && r.inService == w.inService &&
      r.airports == w.airports && r.running == w.running
  {
  }

  /**
   * A flight that a stopped simulation cuts short: the in-flight counter stays
   * raised, no trip is counted, the plane stays claimed where it was, and the
   * interrupted `put` queues no service request.
   */
  lemma ProcessStoppedFlight(w: World, req: FlightRequest, k: nat, d: nat)
    requires FirstAvailable(w.planes, req.origin) == Some(k)
    requires FindAirport(w.airports, req.destinationId) == Some(d)
    requires k < |w.planes| && d < |w.airports|
    requires !w.running && (w.planes[k].x != w.airports[d].x || w.planes[k].y != w.airports[d].y)
    ensures var r := Process(w, req);
      r.inFlight == w.inFlight + 1 && r.completedTrips == w.completedTrips &&
      r.planes == w.planes[k := w.planes[k].(inFlight := true)] &&
      r.serviceQueue == w.serviceQueue &&
      r.flightQueue == w.flightQueue && r.inService == w.inService &&
      r.airports == w.airports && r.running == w.running
  {
  }

  /**
   * A claimed plane is left exactly as it is by any later request: the scan
   * only picks planes that are not in flight, and a flight only touches the
   * plane it picked.
   */
  lemma ClaimedPlaneUntouched(w: World, req: FlightRequest, j: nat)
    requires j < |w.planes| && w.planes[j].inFlight
    ensures Process(w, req).planes[j] == w.planes[j]
  {
    match FirstAvailable(w.planes, req.origin)
    case None =>
    case Some(k) => assert k != j;
  }

  // ---------------------------------------------------------------------------
  // Properties of batches and dispatcher cycles

  /**
   * What a batch of requests leaves alone, and the counter bookkeeping. While
   * running no flight is cut short, so the in-flight counter ends where it
   * started and every appended service request stands for one completed
   * trip; while stopped no service request is appended.
   */
  lemma {:induction false} ProcessAllBookkeeping(w: World, reqs: seq<FlightRequest>)
    ensures var r := ProcessAll(w, reqs);
      r.airports == w.airports && r.flightQueue == w.flightQueue &&
      r.running == w.running && r.inService == w.inService &&
      |r.planes| == |w.planes| &&
      (forall k :: 0 <= k < |w.planes| ==>
        r.planes[k].id == w.planes[k].id && r.planes[k].home == w.planes[k].home) &&
      |r.serviceQueue| >= |w.serviceQueue| &&
      r.serviceQueue[..|w.serviceQueue|] == w.serviceQueue &&
      r.completedTrips >= w.completedTrips && r.inFlight >= w.inFlight &&
      (w.running ==>
         r.inFlight == w.inFlight &&
         |r.serviceQueue| - |w.serviceQueue| == r.completedTrips - w.completedTrips) &&
      (!w.running ==> r.serviceQueue == w.serviceQueue)
  {
    if reqs != [] {
      var mid := ProcessAll(w, reqs[..|reqs| - 1]);
      ProcessAllBookkeeping(w, reqs[..|reqs| - 1]);
      var req := reqs[|reqs| - 1];
      var r := Process(mid, req);
      assert r == ProcessAll(w, reqs);
      match FirstAvailable(mid.planes, req.origin)
      case None =>
      case Some(k) =>
        AllocateClaimsFirstIdle(mid.planes, req.origin);
        match FindAirport(mid.airports, req.destinationId)
        case None =>
        case Some(d) =>
          assert r.serviceQueue[..|mid.serviceQueue|] == mid.serviceQueue;
          assert mid.serviceQueue[..|w.serviceQueue|] == w.serviceQueue;
          assert r.serviceQueue[..|w.serviceQueue|] == w.serviceQueue;
    }
  }

  /** No request of a batch changes a plane that was claimed before the batch. */
  lemma {:induction false} ClaimedPlaneKeptByBatch(w: World, reqs: seq<FlightRequest>, j: nat)
    requires j < |w.planes| && w.planes[j].inFlight
    ensures ProcessAll(w, reqs).planes[j] == w.planes[j]
  {
    if reqs != [] {
      ClaimedPlaneKeptByBatch(w, reqs[..|reqs| - 1], j);
      ClaimedPlaneUntouched(ProcessAll(w, reqs[..|reqs| - 1]), reqs[|reqs| - 1], j);
    }
  }

  /**
   * A plane that is claimed (one whose destination was unknown, or whose
   * flight a stop cut short) is never released: no later dispatcher turn,
   * ingestion, service turn or button press changes it.
   */
  lemma ClaimedPlanesStayClaimed(w: World, j: nat, origin: Airport, ids: seq<int>, outcome: ServiceOutcome)
    requires j < |w.planes| && w.planes[j].inFlight
    ensures Cycle(w).planes[j] == w.planes[j]
    ensures Ingest(w, origin, ids).planes[j] == w.planes[j]
    ensures ServeNext(w, outcome).planes[j] == w.planes[j]
    ensures PressStart(w).planes[j] == w.planes[j] && PressEnd(w).planes[j] == w.planes[j]
  {
    if w.running {
      var (batch, rest) := Drain(w.flightQueue, BatchSize);
      ClaimedPlaneKeptByBatch(w.(flightQueue := rest), batch, j);
    }
  }

  /**
   * A dispatcher cycle takes `min(5, |queue|)` requests from the front of the
   * flight queue and leaves the remaining suffix in order; a stopped cycle
   * changes nothing.
   */
  lemma CycleDrainsFront(w: World)
    ensures !w.running ==> Cycle(w) == w
    ensures w.running ==>
      var n := if |w.flightQueue| < BatchSize then |w.flightQueue| else BatchSize;
      Cycle(w).flightQueue == w.flightQueue[n..] &&
      Cycle(w) == ProcessAll(w.(flightQueue := w.flightQueue[n..]), w.flightQueue[..n])
  {
    if w.running {
      var (batch, rest) := Drain(w.flightQueue, BatchSize);
      ProcessAllBookkeeping(w.(flightQueue := rest), batch);
    }
  }

  /**
   * The first trip after Start: airport 1's generator prints one valid id, the
   * next dispatcher turn drains that request, claims plane 1 (the first plane
   * of airport 1), flies it to the destination and queues its service
   * request; the counters then read in flight 0, completed 1.
   */
  lemma {:induction false} FirstTrip(coords: seq<(int, int)>, id: int)
    requires DrawnCoordinates(coords) && 1 <= id <= NumAirports
    ensures var w0 := InitialWorld(coords);
      var r := Cycle(Ingest(PressStart(w0), w0.airports[0], [id]));
      var dest := w0.airports[id - 1];
      r.flightQueue == [] && r.inFlight == 0 && r.completedTrips == 1 && r.inService == 0 &&
      r.serviceQueue == [ServiceTicket(dest, 1)] &&
      r.planes == w0.planes[0 := w0.planes[0].(x := dest.x, y := dest.y)] &&
      r.running && r.airports == w0.airports
  {
    var w0 := InitialWorld(coords);
    var origin := w0.airports[0];
    var w := Ingest(PressStart(w0), origin, [id]);
    InitialPlaneLayout(coords, 0, 0);
    InitialAirportLookup(coords, id);
    assert w.flightQueue == [FlightRequest(origin, id)];
    FirstAvailableIsFirstIdle(w.planes, origin, 0);
    var emptied := w.(flightQueue := []);
    var q := [FlightRequest(origin, id)];
    assert q[..1] == q && q[1..] == [];
    assert Drain(q, BatchSize) == (q, []);
    assert ProcessAll(emptied, [FlightRequest(origin, id)]) == Process(emptied, FlightRequest(origin, id)) by {
      assert [FlightRequest(origin, id)][..0] == [];
    }
    ProcessCompletedFlight(emptied, FlightRequest(origin, id), 0, id - 1);
  }

  // ---------------------------------------------------------------------------
  // The fleet invariant every step keeps

  /** Plane ids are distinct and every plane's home is one of the airports. */
  predicate FleetInvariant(w: World)
  {
    (forall m, n :: 0 <= m < n < |w.planes| ==> w.planes[m].id != w.planes[n].id) &&
    (forall k :: 0 <= k < |w.planes| ==> w.planes[k].home in w.airports)
  }

  /** The registry the set-up builds satisfies the invariant. */
  lemma InitialWorldInvariant(coords: seq<(int, int)>)
    ensures FleetInvariant(InitialWorld(coords))
  {
    var w := InitialWorld(coords);
    InitialPlanesAt(coords);
    forall k | 0 <= k < |w.planes| ensures w.planes[k].home in w.airports {
      assert w.planes[k].home == w.airports[k / PlanesPerAirport];
    }
  }

  /** Each step keeps the invariant: ids and homes are never rewritten, airports never change. */
  lemma StepsKeepInvariant(w: World, req: FlightRequest, origin: Airport, ids: seq<int>, outcome: ServiceOutcome)
    requires FleetInvariant(w)
    ensures FleetInvariant(Process(w, req))
    ensures FleetInvariant(Cycle(w))
    ensures FleetInvariant(Ingest(w, origin, ids))
    ensures FleetInvariant(ServeNext(w, outcome))
    ensures FleetInvariant(PressStart(w)) && FleetInvariant(PressEnd(w))
  {
    ProcessAllBookkeeping(w, [req]);
    assert ProcessAll(w, [req]) == Process(w, req) by {
      assert [req][..0] == [];
    }
    if w.running {
      var (batch, rest) := Drain(w.flightQueue, BatchSize);
      ProcessAllBookkeeping(w.(flightQueue := rest), batch);
    }
  }

  // ---------------------------------------------------------------------------
  // Ingestion, servicing and the buttons

  /** Ingestion appends one request per id, in order, at the back; a stopped task adds nothing. */
  lemma IngestAppends(w: World, origin: Airport, ids: seq<int>)
    ensures var r := Ingest(w, origin, ids);
      r.flightQueue[..|w.flightQueue|] == w.flightQueue &&
      (w.running ==>
        |r.flightQueue| == |w.flightQueue| + |ids| &&
        forall i :: 0 <= i < |ids| ==> r.flightQueue[|w.flightQueue| + i] == FlightRequest(origin, ids[i])) &&
      (!w.running ==> r == w) &&
      r.planes == w.planes && r.serviceQueue == w.serviceQueue
  {
  }

  /**
   * The service counter: net zero after a service whose process started, one
   * below where it was after a failed launch, so a failed launch from zero
   * leaves it negative.
   */
  lemma ServiceCounterDiscipline(c: int, outcome: ServiceOutcome)
    ensures ServiceCount(c, outcome) == if outcome.LaunchFailed? then c - 1 else c
    ensures ServiceCount(0, LaunchFailed) < 0
  {
  }

  /**
   * Servicing takes the oldest service request, touches only the service
   * queue and counter, and never releases a plane (that already happened at
   * landing).
   */
  lemma ServeNextTakesHead(w: World, outcome: ServiceOutcome)
    ensures var r := ServeNext(w, outcome);
      r.airports == w.airports && r.running == w.running &&
      r.planes == w.planes && r.flightQueue == w.flightQueue &&
      r.inFlight == w.inFlight && r.completedTrips == w.completedTrips &&
      (w.running && w.serviceQueue != [] ==>
        [w.serviceQueue[0]] + r.serviceQueue == w.serviceQueue &&
        r.inService == ServiceCount(w.inService, outcome)) &&
      (!w.running || w.serviceQueue == [] ==> r == w)
  {
  }

  /** Start only when stopped, End only when running: a repeated press is a no-op, and only the flag changes. */
  lemma ButtonGuards(w: World)
    ensures PressStart(w).running && !PressEnd(w).running
    ensures PressStart(PressStart(w)) == PressStart(w)
    ensures PressEnd(PressEnd(w)) == PressEnd(w)
    ensures PressStart(w) == w.(running := true) && PressEnd(w) == w.(running := false)
    ensures w.running ==> PressStart(w) == w
    ensures !w.running ==> PressEnd(w) == w
  {
  }
}
