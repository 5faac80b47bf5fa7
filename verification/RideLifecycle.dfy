/** The ride lifecycle as a function from one aggregate (ride row, candidate rows, status history) to the next.
    Each function follows one service operation of `rides-management.service.ts` or `rides-tracking.service.ts`,
    guard by guard; the class in `RidesManagement.dfy` is proved against these functions. */
module RideLifecycle {
  import opened Base

  type RideId = nat
  type RiderId = nat
  type DriverId = nat

  datatype RideStatus =
    | NyStart
    | Requested
    | CandidatesComputed
    | Assigned
    | Accepted
    | Enroute
    | TripStarted
    | Completed
    | Canceled

  datatype CandidateStatus = Invited | Accepted | Declined | Confirmed | Canceled

  datatype PaymentStatus = Pending | OnProcess | Paid

  datatype Candidate = Candidate(status: CandidateStatus, reason: Option<string>)

  datatype HistoryEntry = HistoryEntry(from: Option<RideStatus>, to: RideStatus, context: string)

  /** The columns a completed trip writes; money columns hold whole cents. */
  datatype Bill = Bill(
    distanceKm: real, discountPercent: real, discountAmount: real, appFee: real, finalFare: real)

  datatype Ride = Ride(
    riderId: RiderId,
    driverId: Option<DriverId>,
    status: RideStatus,
    cancelReason: Option<string>,
    distanceEstimatedKm: Option<real>,
    distanceActualKm: Option<real>,
    discountPercent: Option<real>,
    discountAmount: Option<real>,
    appFeeAmount: Option<real>,
    fareFinal: Option<real>,
    paymentStatus: Option<PaymentStatus>,
    paymentUrl: Option<string>)

  datatype RideAggregate = RideAggregate(
    ride: Ride, candidates: map<DriverId, Candidate>, history: seq<HistoryEntry>)

  /** How a call ends for its caller: normally, or with one of the HTTP exceptions. */
  datatype Outcome = Done | BadRequest | NotFound | Conflict | Unavailable

  datatype StepResult = StepResult(after: RideAggregate, outcome: Outcome)

  /** A call on an existing ride. `inPlace` says whether the proximity checks passed; `bill` is the fare
      calculation of a completion, absent when the fare engine rejected the discount. */
  datatype Op =
    | DriverAccept(driver: DriverId)
    | DriverReject(driver: DriverId, reason: Option<string>)
    | RiderConfirm(rider: RiderId)
    | RiderReject(rider: RiderId, reason: Option<string>)
    | Cancel(rider: RiderId, reason: Option<string>)
    | Start(driver: DriverId, inPlace: bool)
    | Complete(driver: DriverId, inPlace: bool, bill: Option<Bill>)

  function Or(reason: Option<string>, default: string): string {
    if reason.Some? then reason.value else default
  }

  function Unpriced(rider: RiderId, distanceKm: real): Ride {
    Ride(rider, None, CandidatesComputed, None, Some(distanceKm), None, None, None, None, None, None, None)
  }

  function Invitations(nearby: set<DriverId>): map<DriverId, Candidate> {
    map d | d in nearby :: Candidate(Invited, None)
  }

  const FIRST_ENTRIES: seq<HistoryEntry> :=
    [HistoryEntry(None, Requested, "Ride requested by rider"),
     HistoryEntry(Some(Requested), CandidatesComputed, "Invited drivers")]

  /** A freshly created ride: every nearby driver is invited. */
  function Opened(rider: RiderId, distanceKm: real, nearby: set<DriverId>): RideAggregate {
    RideAggregate(Unpriced(rider, distanceKm), Invitations(nearby), FIRST_ENTRIES)
  }

  predicate Terminal(status: RideStatus) {
    status.Completed? || status.Canceled?
  }

  predicate Transitions(a: RideAggregate, allowed: set<RideStatus>, next: RideStatus) {
    a.ride.status in allowed && a.ride.status != next
  }

  function Transition(a: RideAggregate, allowed: set<RideStatus>, next: RideStatus, context: string): (b: RideAggregate)
    ensures b.candidates == a.candidates && b.ride.driverId == a.ride.driverId && b.ride.riderId == a.ride.riderId
    ensures b.ride.fareFinal == a.ride.fareFinal
  {
    if Transitions(a, allowed, next) then
      a.(ride := a.ride.(
           status := next,
           cancelReason := if context != "" && next.Canceled? then Some(context) else a.ride.cancelReason),
         history := a.history + [HistoryEntry(Some(a.ride.status), next, context)])
    else
      a
  }

  function WithCandidate(a: RideAggregate, d: DriverId, status: CandidateStatus, reason: Option<string>): RideAggregate {
    a.(candidates := a.candidates[d := Candidate(status, reason)])
  }

  function WithDriver(a: RideAggregate, driver: Option<DriverId>): RideAggregate {
    a.(ride := a.ride.(driverId := driver))
  }

  function AcceptByDriver(a: RideAggregate, d: DriverId): StepResult {
    if Terminal(a.ride.status) then StepResult(a, BadRequest)
    else if d !in a.candidates then StepResult(a, NotFound)
    else if a.candidates[d].status.Canceled? then StepResult(a, Conflict)
    else if a.candidates[d].status.Declined? then StepResult(a, BadRequest)
    else if a.candidates[d].status.Confirmed? then StepResult(a, Done)
    else if a.candidates[d].status.Accepted? && a.ride.driverId == Some(d)
            && (a.ride.status.Accepted? || a.ride.status.Enroute?) then StepResult(a, Done)
    else if a.ride.driverId.Some? && a.ride.driverId.value != d then
      StepResult(WithCandidate(a, d, CandidateStatus.Canceled, Some("Another driver already accepted this ride")), Conflict)
    else
      var claimed := WithCandidate(WithDriver(a, Some(d)), d, CandidateStatus.Accepted, None);
      var matched := Transition(claimed, {Requested, CandidatesComputed}, Assigned, "Driver responded to invitation");
      StepResult(
        Transition(matched, {Assigned, CandidatesComputed}, RideStatus.Accepted, "Driver accepted ride request"), Done)
  }

  function RejectByDriver(a: RideAggregate, d: DriverId, reason: Option<string>): StepResult {
    if a.ride.status.Canceled? then StepResult(a, Done)
    else if a.ride.status.Completed? || a.ride.status.Enroute? then StepResult(a, BadRequest)
    else if d !in a.candidates then StepResult(a, NotFound)
    else if a.candidates[d].status.Declined? || a.candidates[d].status.Canceled? then StepResult(a, Done)
    else
      var text := Or(reason, "Driver declined the ride invitation");
      var declined := WithCandidate(a, d, Declined, Some(text));
      if a.ride.driverId != Some(d) then StepResult(declined, Done)
      else
        StepResult(
          Transition(WithDriver(declined, None), {RideStatus.Accepted, Assigned}, CandidatesComputed, text), Done)
  }

  /** The candidate rows after a rider confirmed driver `d`. */
  function ConfirmedWith(cs: map<DriverId, Candidate>, d: DriverId): map<DriverId, Candidate> {
    map x | x in cs ::
      if x == d then Candidate(Confirmed, None)
      else if cs[x].status.Invited? || cs[x].status.Accepted? then
        Candidate(CandidateStatus.Canceled, Some("Ride confirmed with another driver"))
      else cs[x]
  }

  function ConfirmByRider(a: RideAggregate, rider: RiderId): StepResult {
    if a.ride.riderId != rider then StepResult(a, NotFound)
    else if a.ride.driverId.None? then StepResult(a, BadRequest)
    else if a.ride.status.Canceled? then StepResult(a, BadRequest)
    else if a.ride.status.Completed? then StepResult(a, Done)
    else if a.ride.status.Assigned? || a.ride.status.Requested? then StepResult(a, BadRequest)
    else if a.ride.status.Enroute? then StepResult(a, Done)
    else if a.ride.driverId.value !in a.candidates then StepResult(a, Conflict)
    else if !a.candidates[a.ride.driverId.value].status.Accepted? then StepResult(a, BadRequest)
    else
      var d := a.ride.driverId.value;
      var moved := Transition(a, {RideStatus.Accepted}, Enroute, "Rider accepted driver confirmation");
      StepResult(moved.(candidates := ConfirmedWith(a.candidates, d)), Done)
  }

  function RejectByRider(a: RideAggregate, rider: RiderId, reason: Option<string>): StepResult {
    if a.ride.riderId != rider then StepResult(a, NotFound)
    else if a.ride.driverId.None? then StepResult(a, BadRequest)
    else if a.ride.status.Canceled? then StepResult(a, Done)
    else if a.ride.status.Completed? || a.ride.status.Enroute? then StepResult(a, BadRequest)
    else if a.ride.status.Assigned? || a.ride.status.Requested? then StepResult(a, BadRequest)
    else if a.ride.driverId.value !in a.candidates then StepResult(a, Conflict)
    else
      var text := Or(reason, "Rider rejected the driver acceptance");
      var released := WithDriver(WithCandidate(a, a.ride.driverId.value, CandidateStatus.Canceled, Some(text)), None);
      StepResult(Transition(released, {RideStatus.Accepted, Assigned}, CandidatesComputed, text), Done)
  }

  /** The candidate rows after the ride was cancelled; rows already cancelled keep their own reason. */
  function AllCanceled(cs: map<DriverId, Candidate>, text: string): map<DriverId, Candidate> {
    map x | x in cs :: if cs[x].status.Canceled? then cs[x] else Candidate(CandidateStatus.Canceled, Some(text))
  }

  function CancelByRider(a: RideAggregate, rider: RiderId, reason: Option<string>): StepResult {
    if a.ride.riderId != rider then StepResult(a, NotFound)
    else if a.ride.status.Completed? then StepResult(a, BadRequest)
    else if a.ride.status.Canceled? then StepResult(a, Done)
    else
      var text := Or(reason, "Ride cancelled by rider");
      var moved := Transition(
        a, {Requested, CandidatesComputed, Assigned, RideStatus.Accepted, Enroute}, RideStatus.Canceled, text);
      var given := if reason.Some? && reason.value != "" then reason else moved.ride.cancelReason;
      StepResult(
        moved.(ride := moved.ride.(cancelReason := given, fareFinal := Some(0.0)),
               candidates := AllCanceled(a.candidates, text)),
        Done)
  }

  function StartTrip(a: RideAggregate, d: DriverId, inPlace: bool): StepResult {
    if a.ride.driverId != Some(d) then StepResult(a, NotFound)
    else if Terminal(a.ride.status) then StepResult(a, BadRequest)
    else if !a.ride.status.Enroute? && !a.ride.status.TripStarted? then StepResult(a, BadRequest)
    else if !inPlace then StepResult(a, BadRequest)
    else StepResult(Transition(a, {Enroute, TripStarted}, TripStarted, "Driver started the trip"), Done)
  }

  function Billed(r: Ride, bill: Bill): Ride {
    r.(distanceActualKm := Some(bill.distanceKm),
       discountPercent := Some(bill.discountPercent),
       discountAmount := Some(bill.discountAmount),
       fareFinal := Some(bill.finalFare),
       appFeeAmount := Some(bill.appFee),
       paymentStatus := Some(Pending),
       paymentUrl := None)
  }

  /** The guards a completion passes before it reaches the status transition and the fare columns. */
  predicate CompletionReachesBilling(a: RideAggregate, d: DriverId, inPlace: bool, bill: Option<Bill>) {
    a.ride.driverId == Some(d) && !Terminal(a.ride.status) && inPlace && bill.Some?
  }

  function CompleteTrip(a: RideAggregate, d: DriverId, inPlace: bool, bill: Option<Bill>): StepResult {
    if a.ride.driverId != Some(d) then StepResult(a, NotFound)
    else if !CompletionReachesBilling(a, d, inPlace, bill) then StepResult(a, BadRequest)
    else
      var moved := Transition(
        a, {Enroute, RideStatus.Accepted, Assigned, TripStarted}, RideStatus.Completed,
        "Driver marked the ride as completed");
      StepResult(moved.(ride := Billed(moved.ride, bill.value)), Done)
  }

  function Step(a: RideAggregate, op: Op): StepResult {
    match op
    case DriverAccept(d) => AcceptByDriver(a, d)
    case DriverReject(d, reason) => RejectByDriver(a, d, reason)
    case RiderConfirm(rider) => ConfirmByRider(a, rider)
    case RiderReject(rider, reason) => RejectByRider(a, rider, reason)
    case Cancel(rider, reason) => CancelByRider(a, rider, reason)
    case Start(d, inPlace) => StartTrip(a, d, inPlace)
    case Complete(d, inPlace, bill) => CompleteTrip(a, d, inPlace, bill)
  }

  /** The aggregate after a sequence of calls. */
  function Run(a: RideAggregate, ops: seq<Op>): RideAggregate
    decreases |ops|
  {
    if ops == [] then a else Run(Step(a, ops[0]).after, ops[1..])
  }

  lemma {:induction false} RunAppend(a: RideAggregate, ops: seq<Op>, more: seq<Op>)
    ensures Run(a, ops + more) == Run(Run(a, ops), more)
    decreases |ops|
  {
    if ops == [] {
      assert ops + more == more;
    } else {
      assert (ops + more)[1..] == ops[1..] + more;
      RunAppend(Step(a, ops[0]).after, ops[1..], more);
    }
  }

  // ----- the whole rides table -----

  datatype System = System(rides: map<RideId, RideAggregate>, nextId: RideId)

  /** `distanceKm` is the route estimate, absent when the estimation job failed. */
  datatype Event =
    | CreateRide(rider: RiderId, distanceKm: Option<real>, nearby: set<DriverId>)
    | OnRide(id: RideId, op: Op)

  datatype SystemResult = SystemResult(after: System, outcome: Outcome)

  predicate Unfinished(a: RideAggregate, rider: RiderId) {
    a.ride.riderId == rider && !Terminal(a.ride.status)
  }

  predicate HasUnfinishedRide(s: System, rider: RiderId) {
    exists id :: id in s.rides && Unfinished(s.rides[id], rider)
  }

  function Create(s: System, rider: RiderId, distanceKm: Option<real>, nearby: set<DriverId>): SystemResult {
    if HasUnfinishedRide(s, rider) then SystemResult(s, Conflict)
    else if distanceKm.None? then SystemResult(s, BadRequest)
    else if nearby == {} then SystemResult(s, Unavailable)
    else
      SystemResult(
        System(s.rides[s.nextId := Opened(rider, distanceKm.value, nearby)], s.nextId + 1), Done)
  }

  function ActOn(s: System, id: RideId, op: Op): SystemResult {
    if id !in s.rides then SystemResult(s, NotFound)
    else
      var r := Step(s.rides[id], op);
      SystemResult(s.(rides := s.rides[id := r.after]), r.outcome)
  }

  function Advance(s: System, e: Event): SystemResult {
    match e
    case CreateRide(rider, distanceKm, nearby) => Create(s, rider, distanceKm, nearby)
    case OnRide(id, op) => ActOn(s, id, op)
  }

  const EMPTY_SYSTEM := System(map[], 0)

  function RunSystem(s: System, events: seq<Event>): System
    decreases |events|
  {
    if events == [] then s else RunSystem(Advance(s, events[0]).after, events[1..])
  }
}
