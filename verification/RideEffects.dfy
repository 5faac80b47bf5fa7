/** What each lifecycle call writes and answers, case by case, and what that means for a driver who is out. The statements
    name the rows and columns themselves, not the functions that compute them. */
module RideEffects {
  import opened Base
  import opened RideLifecycle
  import opened RideInvariants

  predicate Live(a: RideAggregate, d: DriverId) {
    d in a.candidates && !a.candidates[d].status.Declined? && !a.candidates[d].status.Canceled?
  }

  predicate Refused(a: RideAggregate, op: Op, outcome: Outcome) {
    Step(a, op).after == a && Step(a, op).outcome == outcome
  }

  // ----- acceptance by a driver -----

  /** A live driver who accepts a ride that is free or already his becomes its driver. A ride that is looking for one goes
      on to ACCEPTED by way of ASSIGNED; from any later status it stays where it is. */
  lemma FreeRideIsTaken(a: RideAggregate, d: DriverId)
    requires !a.ride.status.Completed? && !a.ride.status.Canceled?
    requires a.ride.driverId.None? || a.ride.driverId == Some(d)
    requires Holds(a, d, Invited) || (Holds(a, d, CandidateStatus.Accepted)
                                      && (a.ride.driverId.None? || !(a.ride.status.Accepted? || a.ride.status.Enroute?)))
    ensures var b := Step(a, DriverAccept(d)).after;
            var toAssigned := HistoryEntry(Some(a.ride.status), Assigned, "Driver responded to invitation");
            var toAccepted := HistoryEntry(Some(Assigned), RideStatus.Accepted, "Driver accepted ride request");
            && Step(a, DriverAccept(d)).outcome == Done
            && b.candidates == a.candidates[d := Candidate(CandidateStatus.Accepted, None)]
            && (if a.ride.status.Requested? || a.ride.status.CandidatesComputed? then
                  && b.ride == a.ride.(driverId := Some(d), status := RideStatus.Accepted)
                  && b.history == a.history + [toAssigned, toAccepted]
                else if a.ride.status.Assigned? then
                  && b.ride == a.ride.(driverId := Some(d), status := RideStatus.Accepted)
                  && b.history == a.history + [toAccepted]
                else b.ride == a.ride.(driverId := Some(d)) && b.history == a.history)
  {
    var b := Step(a, DriverAccept(d)).after;
    assert b.ride.cancelReason == a.ride.cancelReason;
  }

  /** A live driver who comes second loses its invitation and nothing else changes. */
  lemma SecondDriverLoses(a: RideAggregate, d: DriverId)
    requires !a.ride.status.Completed? && !a.ride.status.Canceled?
    requires a.ride.driverId.Some? && a.ride.driverId != Some(d)
    requires Holds(a, d, Invited) || Holds(a, d, CandidateStatus.Accepted)
    ensures var b := Step(a, DriverAccept(d)).after;
            && b.ride == a.ride && b.history == a.history
            && b.candidates ==
                 a.candidates[d := Candidate(CandidateStatus.Canceled, Some("Another driver already accepted this ride"))]
            && Step(a, DriverAccept(d)).outcome == Conflict
  {
  }

  lemma AcceptanceIsRefused(a: RideAggregate, d: DriverId)
    ensures a.ride.status.Completed? || a.ride.status.Canceled? ==> Refused(a, DriverAccept(d), BadRequest)
    ensures !a.ride.status.Completed? && !a.ride.status.Canceled? ==>
              && (d !in a.candidates ==> Refused(a, DriverAccept(d), NotFound))
              && (Holds(a, d, CandidateStatus.Canceled) ==> Refused(a, DriverAccept(d), Conflict))
              && (Holds(a, d, Declined) ==> Refused(a, DriverAccept(d), BadRequest))
              && (Holds(a, d, Confirmed) ==> Refused(a, DriverAccept(d), Done))
              && (Holds(a, d, CandidateStatus.Accepted) ==>
                    a.ride.driverId == Some(d) && a.ride.status in {RideStatus.Accepted, Enroute} ==>
                      Refused(a, DriverAccept(d), Done))
  {
  }

  // ----- decline or withdrawal of a driver -----

  /** A decline is recorded with its reason; only a withdrawal of the assigned driver touches the ride, which then has no
      driver and, from ACCEPTED, looks for one again. */
  lemma DeclineIsRecorded(a: RideAggregate, d: DriverId, reason: Option<string>)
    requires Live(a, d) && !a.ride.status.Canceled? && !a.ride.status.Completed? && !a.ride.status.Enroute?
    ensures var text := if reason.Some? then reason.value else "Driver declined the ride invitation";
            var b := Step(a, DriverReject(d, reason)).after;
            && Step(a, DriverReject(d, reason)).outcome == Done
            && b.candidates == a.candidates[d := Candidate(Declined, Some(text))]
            && (if a.ride.driverId != Some(d) then b.ride == a.ride && b.history == a.history
                else if a.ride.status.Accepted? || a.ride.status.Assigned? then
                  && b.ride == a.ride.(driverId := None, status := CandidatesComputed)
                  && b.history == a.history + [HistoryEntry(Some(a.ride.status), CandidatesComputed, text)]
                else b.ride == a.ride.(driverId := None) && b.history == a.history)
  {
    var b := Step(a, DriverReject(d, reason)).after;
    assert b.ride.cancelReason == a.ride.cancelReason;
  }

  lemma DeclineIsRefused(a: RideAggregate, d: DriverId, reason: Option<string>)
    ensures a.ride.status.Canceled? ==> Refused(a, DriverReject(d, reason), Done)
    ensures a.ride.status.Completed? || a.ride.status.Enroute? ==> Refused(a, DriverReject(d, reason), BadRequest)
    ensures !a.ride.status.Canceled? && !a.ride.status.Completed? && !a.ride.status.Enroute? ==>
              && (d !in a.candidates ==> Refused(a, DriverReject(d, reason), NotFound))
              && (d in a.candidates && !Live(a, d) ==> Refused(a, DriverReject(d, reason), Done))
  {
  }

  // ----- confirmation and rejection by the rider -----

  /** The rider's confirmation settles every candidate at once: the driver is CONFIRMED, whoever was still invited or had
      accepted is CANCELED with the reason, the others keep their rows. */
  lemma ConfirmationSettlesAll(a: RideAggregate, d: DriverId)
    requires a.ride.status.Accepted? && a.ride.driverId == Some(d) && Holds(a, d, CandidateStatus.Accepted)
    ensures var b := Step(a, RiderConfirm(a.ride.riderId)).after;
            && Step(a, RiderConfirm(a.ride.riderId)).outcome == Done
            && b.ride == a.ride.(status := Enroute)
            && b.history == a.history + [HistoryEntry(Some(RideStatus.Accepted), Enroute, "Rider accepted driver confirmation")]
            && b.candidates.Keys == a.candidates.Keys && b.candidates[d] == Candidate(Confirmed, None)
            && forall x :: x in a.candidates && x != d ==>
                 b.candidates[x] == if Live(a, x) && !Holds(a, x, Confirmed)
                                    then Candidate(CandidateStatus.Canceled, Some("Ride confirmed with another driver"))
                                    else a.candidates[x]
  {
    var b := Step(a, RiderConfirm(a.ride.riderId)).after;
    assert b.ride.cancelReason == a.ride.cancelReason;
  }

  lemma ConfirmationIsRefused(a: RideAggregate, rider: RiderId)
    ensures rider != a.ride.riderId ==> Refused(a, RiderConfirm(rider), NotFound)
    ensures rider == a.ride.riderId ==>
              && (a.ride.driverId.None? || a.ride.status.Canceled? ==> Refused(a, RiderConfirm(rider), BadRequest))
              && (a.ride.driverId.Some? && (a.ride.status.Completed? || a.ride.status.Enroute?) ==>
                    Refused(a, RiderConfirm(rider), Done))
              && (a.ride.driverId.Some? && (a.ride.status.Assigned? || a.ride.status.Requested?) ==>
                    Refused(a, RiderConfirm(rider), BadRequest))
              && (a.ride.driverId.Some? && a.ride.status in {NyStart, CandidatesComputed, RideStatus.Accepted, TripStarted} ==>
                    && (a.ride.driverId.value !in a.candidates ==> Refused(a, RiderConfirm(rider), Conflict))
                    && (a.ride.driverId.value in a.candidates && !Holds(a, a.ride.driverId.value, CandidateStatus.Accepted) ==>
                          Refused(a, RiderConfirm(rider), BadRequest)))
  {
  }

  /** The rider's rejection cancels the driver's row with the reason and takes the driver away; from ACCEPTED the ride
      looks for a driver again. */
  lemma RejectionReleasesDriver(a: RideAggregate, d: DriverId, reason: Option<string>)
    requires a.ride.status in {NyStart, CandidatesComputed, RideStatus.Accepted, TripStarted}
    requires a.ride.driverId == Some(d) && d in a.candidates
    ensures var text := if reason.Some? then reason.value else "Rider rejected the driver acceptance";
            var b := Step(a, RiderReject(a.ride.riderId, reason)).after;
            && Step(a, RiderReject(a.ride.riderId, reason)).outcome == Done
            && b.candidates == a.candidates[d := Candidate(CandidateStatus.Canceled, Some(text))]
            && (if a.ride.status.Accepted? then
                  && b.ride == a.ride.(driverId := None, status := CandidatesComputed)
                  && b.history == a.history + [HistoryEntry(Some(RideStatus.Accepted), CandidatesComputed, text)]
                else b.ride == a.ride.(driverId := None) && b.history == a.history)
  {
    var b := Step(a, RiderReject(a.ride.riderId, reason)).after;
    assert b.ride.cancelReason == a.ride.cancelReason;
  }

  lemma RejectionIsRefused(a: RideAggregate, rider: RiderId, reason: Option<string>)
    ensures rider != a.ride.riderId ==> Refused(a, RiderReject(rider, reason), NotFound)
    ensures rider == a.ride.riderId ==>
              && (a.ride.driverId.None? ==> Refused(a, RiderReject(rider, reason), BadRequest))
              && (a.ride.driverId.Some? && a.ride.status.Canceled? ==> Refused(a, RiderReject(rider, reason), Done))
              && (a.ride.driverId.Some? && (a.ride.status.Completed? || a.ride.status.Enroute?) ==>
                    Refused(a, RiderReject(rider, reason), BadRequest))
              && (a.ride.driverId.Some? && (a.ride.status.Assigned? || a.ride.status.Requested?) ==>
                    Refused(a, RiderReject(rider, reason), BadRequest))
              && (a.ride.driverId.Some? && a.ride.status in {NyStart, CandidatesComputed, RideStatus.Accepted, TripStarted} ==>
                    a.ride.driverId.value !in a.candidates ==> Refused(a, RiderReject(rider, reason), Conflict))
  {
  }

  // ----- cancellation -----

  /** A cancellation before the trip ends the ride: fare zero, the reason on the ride and on every row that was not
      cancelled before, all other columns left as they are. Where the status does not allow it, during the trip above all,
      it does the same but leaves status and history, and the reason on the ride unless one is given. */
  lemma CancellationEndsRide(a: RideAggregate, reason: Option<string>)
    requires !a.ride.status.Completed? && !a.ride.status.Canceled?
    ensures var text := if reason.Some? then reason.value else "Ride cancelled by rider";
            var ends := !a.ride.status.NyStart? && !a.ride.status.TripStarted?;
            var b := Step(a, Cancel(a.ride.riderId, reason)).after;
            && Step(a, Cancel(a.ride.riderId, reason)).outcome == Done
            && b.ride == a.ride.(
                 fareFinal := Some(0.0),
                 status := if ends then RideStatus.Canceled else a.ride.status,
                 cancelReason := if text == "" || (reason.None? && !ends) then a.ride.cancelReason else Some(text))
            && b.history == (if ends then a.history + [HistoryEntry(Some(a.ride.status), RideStatus.Canceled, text)]
                             else a.history)
            && b.candidates.Keys == a.candidates.Keys
            && forall x :: x in a.candidates ==>
                 b.candidates[x] == if Holds(a, x, CandidateStatus.Canceled) then a.candidates[x]
                                    else Candidate(CandidateStatus.Canceled, Some(text))
  {
  }

  lemma CancellationIsRefused(a: RideAggregate, rider: RiderId, reason: Option<string>)
    ensures rider != a.ride.riderId ==> Refused(a, Cancel(rider, reason), NotFound)
    ensures rider == a.ride.riderId && a.ride.status.Completed? ==> Refused(a, Cancel(rider, reason), BadRequest)
    ensures rider == a.ride.riderId && a.ride.status.Canceled? ==> Refused(a, Cancel(rider, reason), Done)
  {
  }

  // ----- the trip -----

  /** A trip starts only for the ride's driver, from ENROUTE, with everybody in place. */
  lemma StartNeedsEverybody(a: RideAggregate, d: DriverId, inPlace: bool)
    ensures var r := Step(a, Start(d, inPlace));
            && (a.ride.driverId != Some(d) ==> Refused(a, Start(d, inPlace), NotFound))
            && (a.ride.driverId == Some(d) && (!inPlace || !(a.ride.status.Enroute? || a.ride.status.TripStarted?)) ==>
                  Refused(a, Start(d, inPlace), BadRequest))
            && (a.ride.driverId == Some(d) && inPlace && a.ride.status.TripStarted? ==> Refused(a, Start(d, inPlace), Done))
            && (a.ride.driverId == Some(d) && inPlace && a.ride.status.Enroute? ==>
                  && r.outcome == Done && r.after.candidates == a.candidates
                  && r.after.ride == a.ride.(status := TripStarted)
                  && r.after.history == a.history + [HistoryEntry(Some(Enroute), TripStarted, "Driver started the trip")])
  {
    var b := Step(a, Start(d, inPlace)).after;
    assert b.ride.cancelReason == a.ride.cancelReason;
  }

  /** A completion without everybody in place, by somebody else, after the end or without a calculated fare changes
      nothing and is not answered with success. */
  lemma CompletionIsRefused(a: RideAggregate, d: DriverId, inPlace: bool, bill: Option<Bill>)
    ensures a.ride.driverId != Some(d) ==> Refused(a, Complete(d, inPlace, bill), NotFound)
    ensures a.ride.driverId == Some(d) && (a.ride.status.Completed? || a.ride.status.Canceled? || !inPlace || bill.None?) ==>
              Refused(a, Complete(d, inPlace, bill), BadRequest)
  {
  }

  /** A completion writes each amount of the bill to its own column, asks for payment anew and, from ASSIGNED on, ends the
      ride and closes its history. */
  lemma CompletionWritesBill(a: RideAggregate, d: DriverId, bill: Bill)
    requires a.ride.driverId == Some(d) && !a.ride.status.Completed? && !a.ride.status.Canceled?
    ensures var r := Step(a, Complete(d, true, Some(bill)));
            var ends := a.ride.status in {Assigned, RideStatus.Accepted, Enroute, TripStarted};
            && r.outcome == Done && r.after.candidates == a.candidates
            && r.after.ride == a.ride.(
                 status := if ends then RideStatus.Completed else a.ride.status, distanceActualKm := Some(bill.distanceKm),
                 discountPercent := Some(bill.discountPercent), discountAmount := Some(bill.discountAmount),
                 appFeeAmount := Some(bill.appFee), fareFinal := Some(bill.finalFare),
                 paymentStatus := Some(PaymentStatus.Pending), paymentUrl := None)
            && r.after.history ==
                 if ends then
                   a.history + [HistoryEntry(Some(a.ride.status), RideStatus.Completed, "Driver marked the ride as completed")]
                 else a.history
  {
  }

  // ----- creation -----

  /** A new ride belongs to its rider, has no driver and no fare, and invites exactly the drivers that are nearby. */
  lemma CreationInvitesNearby(s: System, rider: RiderId, distanceKm: real, nearby: set<DriverId>)
    requires nearby != {} && s.nextId !in s.rides
    requires forall id :: id in s.rides && s.rides[id].ride.riderId == rider ==>
               s.rides[id].ride.status.Completed? || s.rides[id].ride.status.Canceled?
    ensures var r := Advance(s, CreateRide(rider, Some(distanceKm), nearby));
            && r.outcome == Done && r.after.rides.Keys == s.rides.Keys + {s.nextId} && r.after.nextId == s.nextId + 1
            && (forall id :: id in s.rides ==> r.after.rides[id] == s.rides[id])
            && var a := r.after.rides[s.nextId];
               && a.ride.riderId == rider && a.ride.driverId.None? && a.ride.status.CandidatesComputed?
               && a.ride.distanceEstimatedKm == Some(distanceKm) && a.ride.fareFinal.None? && a.ride.paymentStatus.None?
               && a.candidates.Keys == nearby && (forall d :: d in nearby ==> a.candidates[d] == Candidate(Invited, None))
               && a.history == [HistoryEntry(None, Requested, "Ride requested by rider"),
                                HistoryEntry(Some(Requested), CandidatesComputed, "Invited drivers")]
  {
    assert !HasUnfinishedRide(s, rider);
  }

  lemma CreationIsRefused(s: System, rider: RiderId, distanceKm: Option<real>, nearby: set<DriverId>, id: RideId)
    ensures id in s.rides && s.rides[id].ride.riderId == rider
            && !s.rides[id].ride.status.Completed? && !s.rides[id].ride.status.Canceled? ==>
              Advance(s, CreateRide(rider, distanceKm, nearby)) == SystemResult(s, Conflict)
    ensures distanceKm.None? || nearby == {} ==>
              var r := Advance(s, CreateRide(rider, distanceKm, nearby)); r.after == s && r.outcome != Done
  {
    if id in s.rides && Unfinished(s.rides[id], rider) {
      assert HasUnfinishedRide(s, rider);
    }
  }

  /** A call on an unknown ride is refused; a call on a known one leaves every other ride alone. */
  lemma CallsStayOnTheirRide(s: System, id: RideId, op: Op, other: RideId)
    ensures id !in s.rides ==> Advance(s, OnRide(id, op)) == SystemResult(s, NotFound)
    ensures id in s.rides ==>
              var r := Advance(s, OnRide(id, op));
              && r.outcome == Step(s.rides[id], op).outcome && r.after.rides.Keys == s.rides.Keys && r.after.nextId == s.nextId
              && r.after.rides[id] == Step(s.rides[id], op).after
              && (other in s.rides && other != id ==> r.after.rides[other] == s.rides[other])
  {
  }

  // ----- drivers who are out -----

  /** The driver's row is DECLINED or CANCELED and the ride is not the driver's. */
  predicate Out(a: RideAggregate, d: DriverId) {
    d in a.candidates && !Live(a, d) && a.ride.driverId != Some(d)
  }

  lemma StaysOut(a: RideAggregate, d: DriverId, op: Op)
    requires Out(a, d)
    ensures Out(Step(a, op).after, d)
  {
    match op
    case DriverAccept(x) =>
    case DriverReject(x, reason) =>
    case RiderConfirm(rider) =>
    case RiderReject(rider, reason) =>
    case Cancel(rider, reason) =>
    case Start(x, inPlace) =>
    case Complete(x, inPlace, bill) =>
  }

  /** Over every run: a driver who is out never becomes the ride's driver again, and every later acceptance by that driver
      leaves the ride as it is and is not answered with success. */
  lemma {:induction false} OutForGood(a: RideAggregate, d: DriverId, ops: seq<Op>)
    requires Out(a, d)
    ensures var b := Run(a, ops);
            && Out(b, d) && Step(b, DriverAccept(d)).after == b && Step(b, DriverAccept(d)).outcome != Done
    decreases |ops|
  {
    if ops == [] {
      AcceptanceIsRefused(a, d);
    } else {
      StaysOut(a, d, ops[0]);
      OutForGood(Step(a, ops[0]).after, d, ops[1..]);
    }
  }

  /** The call puts driver `d` out: a decline or withdrawal, a lost race, the rider's rejection of `d`, or the rider's
      confirmation of somebody else while `d` was still in the running. */
  predicate PutsOut(a: RideAggregate, op: Op, d: DriverId) {
    match op
    case DriverReject(x, _) =>
      x == d && Live(a, d) && !a.ride.status.Canceled? && !a.ride.status.Completed? && !a.ride.status.Enroute?
    case DriverAccept(x) =>
      && x == d && !a.ride.status.Canceled? && !a.ride.status.Completed?
      && a.ride.driverId.Some? && a.ride.driverId != Some(d) && (Holds(a, d, Invited) || Holds(a, d, CandidateStatus.Accepted))
    case RiderReject(rider, _) =>
      && rider == a.ride.riderId && a.ride.driverId == Some(d) && d in a.candidates
      && (a.ride.status.Accepted? || a.ride.status.TripStarted?)
    case RiderConfirm(rider) =>
      && rider == a.ride.riderId && a.ride.status.Accepted? && a.ride.driverId.Some? && a.ride.driverId != Some(d)
      && Holds(a, a.ride.driverId.value, CandidateStatus.Accepted)
      && (Holds(a, d, Invited) || Holds(a, d, CandidateStatus.Accepted))
    case _ => false
  }

  /** And whoever is put out stays out over every later run. */
  lemma PutOutForGood(a: RideAggregate, op: Op, d: DriverId, later: seq<Op>)
    requires PutsOut(a, op, d)
    ensures var b := Run(Step(a, op).after, later);
            && b.ride.driverId != Some(d) && d in b.candidates && !Live(b, d)
            && Step(b, DriverAccept(d)).after == b && Step(b, DriverAccept(d)).outcome != Done
  {
    match op {
      case DriverReject(_, reason) => DeclineIsRecorded(a, d, reason);
      case DriverAccept(_) => SecondDriverLoses(a, d);
      case RiderReject(_, reason) => RejectionReleasesDriver(a, d, reason);
      case RiderConfirm(_) => ConfirmationSettlesAll(a, a.ride.driverId.value);
      case _ =>
    }
    OutForGood(Step(a, op).after, d, later);
  }
}
