# Air-traffic simulator core, modelled in Dafny

The simulator keeps a registry of five airports with three planes each. It
also keeps two FIFO queues (flight requests and service requests), three
counters (in flight, undergoing service, completed trips) and a `running`
flag. Worker threads and the two buttons use this shared state in four ways:

- ingestion tasks put flight requests on the flight queue;
- the flight dispatcher takes up to five requests at a time and processes each one;
- the service dispatcher takes landed planes off the service queue and runs the service step;
- the Start and End buttons flip the flag.

This project models the sequential bookkeeping of that engine. Each thing a
thread or a button does is one atomic step. The project has four modules:

- `Fleet` (fleet.dfy) holds the immutable records and the registry set-up as
  functions of the random coordinates it draws. It also holds the
  first-match destination lookup by airport id.
- `Allocation` (allocation.dfy) holds the scan-and-mark that claims a plane,
  as a specification on plane snapshots. It proves that the scan picks the
  first idle plane and that a run of allocations never claims a plane twice.
- `Dispatch` (dispatch.dfy) holds the whole shared state as one value
  (`World`) and one step function per operation. These are flying,
  processing a request, a dispatcher cycle, ingestion, serving a request and
  the two buttons. The module also holds the lemmas about those steps.
- `Simulation` (simulation.dfy) holds the application object and its planes
  as classes whose fields the methods update in place, as the source does.
  It has the nested set-up loops, the scan loop that sets a plane's flag,
  the counter and position updates of a flight, and the queue operations.
  `MovePlane`, `ProcessFlightRequest`, `DispatchCycle`, `IngestRequests`,
  `ServeNextRequest`, `OnStart` and `OnEnd` are proved to move the abstract
  state `Abs()` exactly as the matching step function of `Dispatch` does
  (`Fly`, `Process`, `Cycle`, `Ingest`, `ServeNext`, `PressStart`,
  `PressEnd`). Each of them also keeps the same plane list. The constructor
  is proved to reach `InitialWorld` with plane objects that are all new, so
  a caller can run these operations one after another on a new `App`
  (`RunFirstTrip` does so). The smaller
  methods (`InitializeAirportsAndPlanes`, `AddAirport`, `AddPlanesOf`,
  `AddPlane`, `FindAvailablePlane`, `PutServiceRequest`,
  `DrainFlightRequests`, `ServicePlane`, `StopSimulation`) state their new
  state field by field or through a `Fleet`/`Allocation` function.

Behaviours of the code that the model keeps:

- A plane is released when it lands: `setInFlight(false)` (App.java:312)
  is the last change `movePlane` makes to the state, right after the
  counters (App.java:308-309). Servicing never touches the flag.
- The service counter is incremented only after the service process has
  been launched (App.java:328), while the decrement is in `finally`
  (App.java:338). A failed launch therefore only decrements it.
- The movement loop runs while `i < steps` with `steps = distance / 0.1` a
  `double` (App.java:283-288), so there are ⌈distance/0.1⌉ steps. A zero
  distance means no step and no check of `running`, and the flight
  completes at once.
- `running` becomes false only through End, which calls `stopSimulation`.
  Its `shutdownNow` (App.java:222) interrupts every running task. A flight
  task that then reaches `serviceRequestQueue.put` (App.java:270) has its
  interrupt flag set, so `put` throws, the catch at App.java:271-272
  swallows the exception, and no service request is queued.

## Model

| member | source | states |
|---|---|---|
| Fleet.InitialAirports | src/main/java/edu/curtin/saed/assignment1/App.java:103-107 | airport `i` (from 0) has id `i+1` and the i-th coordinate pair drawn; one airport per pair, in creation order |
| Fleet.PlanesOf | src/main/java/edu/curtin/saed/assignment1/App.java:109-113 | the inner loop's planes for airport number `i`: plane `j` has id `i*3+j+1` (`Fleet.PlaneId`, App.java:110), that airport as home, the airport's coordinates, and is not in flight |
| Fleet.InitialPlanes | src/main/java/edu/curtin/saed/assignment1/App.java:103-113 | the set-up creates exactly three planes per airport |
| Fleet.InitialPlanesAt | src/main/java/edu/curtin/saed/assignment1/App.java:103-113 | plane `n` of the whole list has id `n+1`, home airport `n/3`, starts at that airport's coordinates and is idle |
| Fleet.InitialFleetSnoc | src/main/java/edu/curtin/saed/assignment1/App.java:103-113 | one turn of the outer loop appends exactly one airport and its three planes to the lists built so far |
| Fleet.InitialPlaneLayout | src/main/java/edu/curtin/saed/assignment1/App.java:109-111 | plane `j` of airport `i` sits at list position `i*3+j`, has id `i*3+j+1`, home airport `i`, the coordinates drawn for airport `i`, and is idle |
| Fleet.InitialPlaneIds | src/main/java/edu/curtin/saed/assignment1/App.java:103-113 | with five airports the plane ids are exactly 1..15 (both directions) and no two planes share an id |
| Fleet.InitialFleetOnGrid | src/main/java/edu/curtin/saed/assignment1/App.java:103-111 | with five pairs drawn by `nextInt(GRID_WIDTH)`/`nextInt(GRID_HEIGHT)`, every airport and every plane starts inside the 10×10 grid |
| Fleet.FindAirport | src/main/java/edu/curtin/saed/assignment1/App.java:262-265 | the lookup finds the first airport with the requested id, and finds nothing exactly when no airport has that id |
| Fleet.InitialAirportLookup | src/main/java/edu/curtin/saed/assignment1/App.java:106 | after set-up the lookup succeeds exactly for ids 1..5, and id `k` finds airport `k-1` |
| Allocation.FirstAvailable | src/main/java/edu/curtin/saed/assignment1/App.java:344-355 | the scan's hit is a plane whose home is the origin and which is not in flight (`Allocation.Idle`: the test at App.java:348 with `isAvailable`, App.java:496-499); no earlier plane qualifies; there is no hit exactly when no plane qualifies |
| Allocation.FirstAvailableIsFirstIdle | src/main/java/edu/curtin/saed/assignment1/App.java:347-351 | an idle plane of the origin with no idle plane of the origin before it is the one the scan returns |
| Allocation.AllocateClaimsFirstIdle | src/main/java/edu/curtin/saed/assignment1/App.java:344-355 | scan-and-mark, both outcomes: the first idle plane is marked in flight and is the only plane that changes; with no idle plane nothing changes |
| Allocation.AllocateEachIsExclusive | src/main/java/edu/curtin/saed/assignment1/App.java:346-352 | mutual exclusion: a run of allocations never claims one plane twice; every claimed plane is in flight at the end; unclaimed planes are untouched; ids and homes never change |
| Allocation.Allocate | src/main/java/edu/curtin/saed/assignment1/App.java:344-355 | the scan-and-mark as a value step: same number of planes, nothing changes without a hit, the hit is in flight afterwards; the full characterisation is `Allocation.AllocateClaimsFirstIdle` |
| Allocation.AllocateEach | src/main/java/edu/curtin/saed/assignment1/App.java:344-355 | successive scans without a release: one result per origin, plane count unchanged; mutual exclusion is `Allocation.AllocateEachIsExclusive` |
| Dispatch.InitialWorld | src/main/java/edu/curtin/saed/assignment1/App.java:51-55 | the state after `start` and the set-up (App.java:99-115): three planes per airport, both queues empty, stopped; its invariant is `Dispatch.InitialWorldInvariant` |
| Dispatch.Fly | src/main/java/edu/curtin/saed/assignment1/App.java:278-314 | one `movePlane`: in-flight plus completed rises by exactly one; the trip count is unchanged exactly when the in-flight counter stays raised; only plane `k` can change, and never its id or home; queues, airports, service counter and flag unchanged |
| Dispatch.Process | src/main/java/edu/curtin/saed/assignment1/App.java:258-276 | one `processFlightRequest`: airports, flight queue, service counter and flag unchanged, plane count kept, nothing queued while stopped; cases in `Dispatch.ProcessWithoutIdlePlane`, `ProcessUnknownDestination`, `ProcessCompletedFlight`, `ProcessStoppedFlight` |
| Dispatch.ProcessAll | src/main/java/edu/curtin/saed/assignment1/App.java:159-161 | the requests of one batch in batch order: airports, flight queue, service counter, flag and plane count unchanged; counters in `Dispatch.ProcessAllBookkeeping` |
| Dispatch.Cycle | src/main/java/edu/curtin/saed/assignment1/App.java:152-170 | one dispatcher turn: the flight queue loses `min(5, size)` requests when running and none when stopped; airports, flag and service counter unchanged; order in `Dispatch.CycleDrainsFront` |
| Dispatch.Ingest | src/main/java/edu/curtin/saed/assignment1/App.java:195-203 | one ingestion task: the flight queue grows by the number of ids when running, not at all when stopped; order in `Dispatch.IngestAppends` |
| Dispatch.ServiceCount | src/main/java/edu/curtin/saed/assignment1/App.java:316-341 | the service counter after one `servicePlane` is its old value or one less, and equals the old value exactly when the launch succeeded |
| Dispatch.ServeNext | src/main/java/edu/curtin/saed/assignment1/App.java:172-182 | one service-dispatcher turn: the service queue loses one request when running and non-empty; planes unchanged; frame in `Dispatch.ServeNextTakesHead` |
| Dispatch.PressStart | src/main/java/edu/curtin/saed/assignment1/App.java:61-66 | after Start the simulation is running; guards in `Dispatch.ButtonGuards` |
| Dispatch.PressEnd | src/main/java/edu/curtin/saed/assignment1/App.java:68-73 | after End the simulation is stopped; guards in `Dispatch.ButtonGuards` |
| Dispatch.Drain | src/main/java/edu/curtin/saed/assignment1/App.java:155-156 | `drainTo(batch, 5)`: the batch followed by what is left is the old queue, and the batch holds `min(max, size)` requests |
| Dispatch.Requests | src/main/java/edu/curtin/saed/assignment1/App.java:198-201 | one request from the task's airport per id read, in reading order |
| Dispatch.ProcessWithoutIdlePlane | src/main/java/edu/curtin/saed/assignment1/App.java:260-261 | with no idle plane at the origin a request changes nothing |
| Dispatch.ProcessUnknownDestination | src/main/java/edu/curtin/saed/assignment1/App.java:260-266 | the plane is claimed before the lookup; when no airport has the id it stays claimed, and no counter, queue or other plane changes |
| Dispatch.ProcessCompletedFlight | src/main/java/edu/curtin/saed/assignment1/App.java:266-272 | a landed flight (`movePlane`, App.java:285-312): in-flight counter net zero, one more completed trip, plane at the destination and released; while running exactly one service request for (destination, plane) at the back of the service queue, while stopped none (interrupted `put`); nothing else changed |
| Dispatch.ProcessStoppedFlight | src/main/java/edu/curtin/saed/assignment1/App.java:288-291 | a flight that meets `running == false` at its first step check: in-flight counter stays raised, no trip counted, plane stays claimed where it was, and the interrupted `put` (App.java:270-272) queues nothing; airports, flag and the other queue unchanged |
| Dispatch.ProcessAllBookkeeping | src/main/java/edu/curtin/saed/assignment1/App.java:258-314 | a batch of requests leaves airports, flight queue, flag and service counter alone, never rewrites a plane's id or home, and only appends service requests; while running the in-flight counter ends where it started and each appended request is one completed trip; while stopped nothing is appended |
| Dispatch.ClaimedPlaneUntouched | src/main/java/edu/curtin/saed/assignment1/App.java:346-348 | a later request leaves a plane that is in flight exactly as it is: the scan skips it (`isAvailable`) and only the plane picked flies |
| Dispatch.ClaimedPlaneKeptByBatch | src/main/java/edu/curtin/saed/assignment1/App.java:159-161 | no request of a batch changes a plane that was claimed before the batch |
| Dispatch.ClaimedPlanesStayClaimed | src/main/java/edu/curtin/saed/assignment1/App.java:260-266 | a claimed plane is never released: a plane left in flight by an unknown destination (App.java:260-266) or a flight cut short (App.java:288-291), whose only release is at landing (App.java:312), is unchanged by any later dispatcher turn, ingestion task, service turn or button press |
| Dispatch.CycleDrainsFront | src/main/java/edu/curtin/saed/assignment1/App.java:152-163 | a running dispatcher cycle removes `min(5, size)` requests from the front, processes them in queue order and keeps the rest of the queue in order; a stopped cycle changes nothing |
| Dispatch.FirstTrip | src/main/java/edu/curtin/saed/assignment1/App.java:152-163 | after set-up, Start, one id `1..5` read by airport 1's ingestion task (App.java:195-201) and one dispatcher turn: the flight queue is empty, plane 1 has flown to that airport and is free, in-flight reads 0, completed trips 1, and the service queue holds exactly that airport and plane 1 |
| Dispatch.InitialWorldInvariant | src/main/java/edu/curtin/saed/assignment1/App.java:103-113 | after set-up plane ids are distinct and every plane's home is one of the airports |
| Dispatch.StepsKeepInvariant | src/main/java/edu/curtin/saed/assignment1/App.java:443-446 | id and home are final, so every step keeps ids distinct and every home among the airports |
| Dispatch.IngestAppends | src/main/java/edu/curtin/saed/assignment1/App.java:198-201 | a running ingestion task appends one `FlightRequest(airport, id)` per id, in order, at the back; a stopped one adds nothing; planes and the service queue are untouched |
| Dispatch.ServiceCounterDiscipline | src/main/java/edu/curtin/saed/assignment1/App.java:316-341 | the service counter is net unchanged when the process started (whether or not reading its line failed) and one lower after a failed launch, so it can go negative |
| Dispatch.ServeNextTakesHead | src/main/java/edu/curtin/saed/assignment1/App.java:172-177 | the service dispatcher takes the oldest service request and changes only the service queue and counter; it never releases a plane |
| Dispatch.ButtonGuards | src/main/java/edu/curtin/saed/assignment1/App.java:61-73 | Start acts only when stopped and End only when running; a repeated press is a no-op; only the flag changes |
| Simulation.Plane.constructor | src/main/java/edu/curtin/saed/assignment1/App.java:451-458 | a new plane has the given id, home and position and is not in flight |
| Simulation.App.constructor | src/main/java/edu/curtin/saed/assignment1/App.java:51-55 | from five coordinate pairs on the grid (App.java:103-105): empty lists, not running, counters at zero, then the registry set-up; the state is the initial world, every plane is a new object, and the plane ids are exactly 1..15 |
| Simulation.App.InitializeAirportsAndPlanes | src/main/java/edu/curtin/saed/assignment1/App.java:99-115 | the nested loops leave exactly the initial airports and planes, in creation order, and touch nothing else |
| Simulation.App.AddAirport | src/main/java/edu/curtin/saed/assignment1/App.java:107 | `airports.add`: one airport appended, nothing else changed |
| Simulation.App.AddPlanesOf | src/main/java/edu/curtin/saed/assignment1/App.java:109-113 | the inner loop appends the three planes of airport `i` as new objects; the planes already in the list stay, in order, as its prefix; nothing else changes |
| Simulation.App.AddPlane | src/main/java/edu/curtin/saed/assignment1/App.java:111-112 | `planes.add(new Plane(...))`: one new plane object, idle at its home's coordinates, appended at the back; the list stays free of duplicates |
| Simulation.App.FindAvailablePlane | src/main/java/edu/curtin/saed/assignment1/App.java:344-355 | the loop returns the plane object at the position the scan specification picks (null exactly when it picks none) and sets only that plane's flag |
| Simulation.App.MovePlane | src/main/java/edu/curtin/saed/assignment1/App.java:278-314 | the counter and flag effects of one flight, exactly as `Dispatch.Fly`: in-flight counter up; stopped early, or landed with counter down, trip counted and plane released at the target |
| Simulation.App.ProcessFlightRequest | src/main/java/edu/curtin/saed/assignment1/App.java:258-276 | allocate, look up, fly, queue the service request: exactly the `Dispatch.Process` step |
| Simulation.App.PutServiceRequest | src/main/java/edu/curtin/saed/assignment1/App.java:269-273 | `put` appends the request at the back of the service queue; in a stopped (interrupted) task it throws, is caught, and nothing is queued; nothing else changes |
| Simulation.App.DrainFlightRequests | src/main/java/edu/curtin/saed/assignment1/App.java:155-156 | the batch and the remaining queue are those of `Dispatch.Drain`, other fields unchanged |
| Simulation.App.DispatchCycle | src/main/java/edu/curtin/saed/assignment1/App.java:152-170 | one dispatcher turn is exactly `Dispatch.Cycle`: drain up to five, then process each request of the batch |
| Simulation.App.IngestRequests | src/main/java/edu/curtin/saed/assignment1/App.java:195-203 | the reading loop is exactly `Dispatch.Ingest` |
| Simulation.App.ServicePlane | src/main/java/edu/curtin/saed/assignment1/App.java:316-341 | the counter ends at `ServiceCount` of its old value and the outcome; nothing else changes |
| Simulation.App.ServeNextRequest | src/main/java/edu/curtin/saed/assignment1/App.java:172-182 | one turn of the service dispatcher is exactly `Dispatch.ServeNext` |
| Simulation.App.OnStart | src/main/java/edu/curtin/saed/assignment1/App.java:61-66 | the Start handler is exactly `Dispatch.PressStart` |
| Simulation.App.OnEnd | src/main/java/edu/curtin/saed/assignment1/App.java:68-73 | the End handler is exactly `Dispatch.PressEnd` |
| Simulation.RunFirstTrip | src/main/java/edu/curtin/saed/assignment1/App.java:47-73 | on the objects: the window's `start`, Start, one ingestion turn reading a valid id at airport 1 and one dispatcher turn leave plane 1 at that airport and free, in-flight 0, completed 1, and one service request for (that airport, plane 1) queued |
| Simulation.App.StopSimulation | src/main/java/edu/curtin/saed/assignment1/App.java:218-220 | clears the flag and changes nothing else |

## Left out

- The JavaFX window, the grid rendering (GridArea.java, GridAreaIcon.java), `displayAirportsAndPlanes`, `updateSidebar`, `updateStatistics` and every `Platform.runLater` call. They are display only, so sidebar and status messages are not modelled.
- Thread pools, `synchronized`, blocking `take`/`put`, `Thread.sleep`, interrupts, the scheduled reaper (App.java:211-215) and the `shutdownNow`/`awaitTermination` protocol of `stopSimulation` (App.java:221-255). Each operation is one atomic step instead, and the requests of a batch are processed one after the other in batch order. Other interleavings of the concurrently submitted tasks are not modelled. In particular, each flight of a batch lands before the next request allocates, so two requests from one airport in one batch both get that airport's first idle plane, and a request is never dropped because the origin's other planes are still flying; in the program the tasks run at once, so they claim different planes and a fourth request from the same airport in one batch finds none.
- A blocking `take` on an empty service queue is a step that does nothing.
- Dispatch.ProcessStoppedFlight: a task that sees `running == false` is taken to be interrupted, so its service request is never queued. End clears the flag (App.java:70) before `stopSimulation` interrupts the tasks (App.java:222). A `put` that runs in that short window succeeds and queues a service request for a cut-short flight. The model does not capture that interleaving.
- The three counters are 32-bit `AtomicInteger`s and ids are Java `int`s. The model uses unbounded integers, so wrap-around is not modelled. Airport ids are 1..5 and plane ids 1..15, far from the bounds. The completed-trips counter would wrap only after more than 2^31 trips, and the in-service counter, which a failed launch lowers, only after more than 2^31 failed launches.
- `startSimulation` (App.java:147-216) submitting the worker loops. The loops are modelled one turn at a time (`DispatchCycle`, `ServeNextRequest`, `IngestRequests`).
- `Random.nextInt` in the set-up. The coordinates are a parameter of the constructor, which requires five pairs on the grid, as the draws produce.
- `Runtime.exec`, `readLine` and `Integer.parseInt` in ingestion and servicing. Ingestion takes the sequence of ids that were read. A non-numeric line is not modelled. Servicing takes the outcome of the external process as a parameter.
- Simulation.App.MovePlane: positions are integer grid points, and a completed flight puts the plane exactly on the destination. The source moves by floating-point increments `Δ/steps` over ⌈distance/0.1⌉ steps, which can end slightly off the destination.
- Simulation.App.MovePlane: a stop is observed at the first step check, so a flight cut short leaves the plane where it was. A stop between two later steps, which leaves the plane part-way, is not modelled.
- Allocation.FirstAvailable: the scan compares a plane's home airport with the origin by reference (`equals` is not overridden). The model compares airport values, which agrees because airport ids are distinct.
- Plane icons (`getIcon`/`setIcon`) are not modelled.
