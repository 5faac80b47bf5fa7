/** `RidesTrackingService`: starting and completing a trip, across the ride tables, the trip tracking keys and the
    fare engine. */
module RidesTracking {
  import opened Base
  import opened RideLifecycle
  import opened RidesManagement
  import opened RideInvariants
  import TT = TripTracking
  import TJ = TripJournal
  import FE = FareEngine

  /** Redis' answers to the distance queries of one call; a failed query is answered by 0. */
  type Answers = (TT.Point, TT.Point) -> real

  /** Driver and rider stand at `target` and by each other. */
  predicate Together(answers: Answers, driver: TT.Location, rider: Option<TT.Location>, target: TT.Point, radius: real) {
    && rider.Some?
    && answers(driver.point, target) <= radius
    && answers(rider.value.point, target) <= radius
    && answers(driver.point, rider.value.point) <= radius
  }

  /** The distance a trip is charged for: the tracked one, or a fallback when tracking measured nothing. */
  function ChargedKm(totalMeters: real, ride: Ride): real {
    if totalMeters / 1000.0 > 0.0 then totalMeters / 1000.0
    else if ride.distanceActualKm.Some? then ride.distanceActualKm.value
    else if ride.distanceEstimatedKm.Some? then ride.distanceEstimatedKm.value
    else 0.0
  }

  /** The columns written for a calculated fare; amounts pass through `toFixed(2)`. */
  function BillOf(fare: FE.FareResult): Option<Bill> {
    if fare.Calculated? then
      var f := fare.fare;
      Some(Bill(f.roundedDistanceKm, f.discountPercent, FE.ToFixed(f.discountAmount, 100.0),
                FE.ToFixed(f.appFeeAmount, 100.0), FE.ToFixed(f.finalFare, 100.0)))
    else None
  }

  /** End to end: completing a coherent ride whose tracking state matches the reports of its trip either changes
      nothing, or makes it COMPLETED and due for payment with exactly the fare of the distance its driver travelled, the
      final leg included, to the cent. A trip that measured no distance is charged for the distance on record, and
      without one for the estimated route. */
  lemma CompletedFareIsFareOfTravelledDistance(
    cfg: FE.FareConfig, dist: TT.Distance, a: RideAggregate, st: TT.TripState, trail: seq<TT.Report>, last: TT.Report,
    inPlace: bool, discount: Option<real>)
    requires Coherent(a) || Derailed(a)
    requires FE.SaneConfig(cfg)
    requires TJ.StateMatches(dist, st, trail)
    ensures var fare := FE.CalculateFare(cfg, ChargedKm(TT.Moved(dist, st, last).totalMeters, a.ride), discount);
            var b := CompleteTrip(a, last.client, inPlace, BillOf(fare)).after;
            var metres := TJ.Travelled(dist, trail + [last]);
            var km := if metres > 0.0 then metres / 1000.0
                      else if a.ride.distanceActualKm.Some? then a.ride.distanceActualKm.value
                      else if a.ride.distanceEstimatedKm.Some? then a.ride.distanceEstimatedKm.value
                      else 0.0;
            var expected := FE.CalculateFare(cfg, km, discount);
            if a.ride.driverId == Some(last.client) && !Terminal(a.ride.status) && inPlace && expected.Calculated? then
              && b.ride.status.Completed?
              && b.ride.fareFinal == Some(expected.fare.finalFare)
              && b.ride.appFeeAmount == Some(expected.fare.appFeeAmount)
              && b.ride.discountAmount == Some(expected.fare.discountAmount)
              && b.ride.discountPercent == Some(expected.fare.discountPercent)
              && b.ride.distanceActualKm == Some(expected.fare.roundedDistanceKm)
              && b.ride.paymentStatus == Some(Pending) && b.ride.paymentUrl.None?
              && b.ride.fareFinal.value == expected.fare.fareAfterDiscount + b.ride.appFeeAmount.value
            else b == a
  {
    TJ.ReportAddsItsLeg(dist, st, trail, last);
    var km := ChargedKm(TT.Moved(dist, st, last).totalMeters, a.ride);
    ChargedForPath(TJ.Travelled(dist, trail + [last]), a.ride);
    var fare := FE.CalculateFare(cfg, km, discount);
    BillingMeansCompletion(a, last.client, inPlace, BillOf(fare));
    if fare.Calculated? {
      FE.TotalIsExact(cfg, km, discount);
      AmountsAreNotNegative(cfg, km, discount);
      FE.CentsSurviveTheColumn(fare.fare.finalFare);
      FE.CentsSurviveTheColumn(fare.fare.appFeeAmount);
      FE.CentsSurviveTheColumn(fare.fare.discountAmount);
    }
  }

  lemma ChargedForPath(metres: real, ride: Ride)
    ensures ChargedKm(metres, ride) ==
            if metres > 0.0 then metres / 1000.0
            else if ride.distanceActualKm.Some? then ride.distanceActualKm.value
            else if ride.distanceEstimatedKm.Some? then ride.distanceEstimatedKm.value
            else 0.0
  {
  }

  lemma AmountsAreNotNegative(cfg: FE.FareConfig, km: real, discount: Option<real>)
    requires FE.SaneConfig(cfg) && FE.CalculateFare(cfg, km, discount).Calculated?
    ensures var f := FE.CalculateFare(cfg, km, discount).fare;
            f.discountAmount >= 0.0 && f.appFeeAmount >= 0.0 && f.finalFare >= 0.0
  {
    var f := FE.CalculateFare(cfg, km, discount).fare;
    FE.FeeIsWholeCents(cfg, f.fareAfterDiscount);
    FE.MoneyIsNear(f.fareAfterDiscount + f.appFeeAmount);
    if discount.Some? {
      FE.MoneyIsNear(discount.value);
    }
  }

  class RidesTrackingService {
    const management: RidesManagementService
    const tracking: TT.TripTrackingService
    const fareConfig: FE.FareConfig
    const startRadius: real
    const completionRadius: real

    constructor (management: RidesManagementService, tracking: TT.TripTrackingService, fareConfig: FE.FareConfig,
                 startRadius: real, completionRadius: real)
      ensures this.management == management && this.tracking == tracking && this.fareConfig == fareConfig
      ensures this.startRadius == startRadius && this.completionRadius == completionRadius
    {
      this.management, this.tracking, this.fareConfig := management, tracking, fareConfig;
      this.startRadius, this.completionRadius := startRadius, completionRadius;
    }

    method CheckTogether(answers: Answers, driver: TT.Location, rider: Option<TT.Location>, target: TT.Point, radius: real)
      returns (ok: bool)
      ensures ok == Together(answers, driver, rider, target, radius)
    {
      if rider.None? {
        return false;
      }
      if answers(driver.point, target) > radius {
        return false;
      }
      if answers(rider.value.point, target) > radius {
        return false;
      }
      return answers(driver.point, rider.value.point) <= radius;
    }

    method StartRide(id: RideId, report: TT.Report, pickup: TT.Point, answers: Answers) returns (outcome: Outcome)
      requires management.Valid() && report.role.Driver?
      modifies management, tracking
      ensures management.Valid()
      ensures var lastRider := TT.StateOf(old(tracking.View()), id).lastRider;
              var inPlace := Together(answers, report.location, lastRider, pickup, startRadius);
              SystemResult(management.View(), outcome) == ActOn(old(management.View()), id, Start(report.client, inPlace))
      ensures tracking.View() == if outcome.Done? then TT.Record(tracking.distance, old(tracking.View()), id, report)
                                 else old(tracking.View())
      ensures outcome.Done? <==>
                && id in old(management.rides) && old(management.rides)[id].driverId == Some(report.client)
                && old(management.rides)[id].status in {Enroute, TripStarted}
                && var rider := TT.StateOf(old(tracking.View()), id).lastRider;
                && rider.Some? && answers(report.location.point, pickup) <= startRadius
                && answers(rider.value.point, pickup) <= startRadius
                && answers(report.location.point, rider.value.point) <= startRadius
    {
      if id !in management.rides {
        return NotFound;
      }
      ghost var s := management.View();
      PutSame(s, id);
      var ride := management.rides[id];
      if ride.driverId != Some(report.client) {
        return NotFound;
      }
      if ride.status.Canceled? || ride.status.Completed? {
        return BadRequest;
      }
      if ride.status !in {Enroute, TripStarted} {
        return BadRequest;
      }
      var st := tracking.GetState(id);
      var together := CheckTogether(answers, report.location, st.lastRider, pickup, startRadius);
      if !together {
        return BadRequest;
      }
      var total, delta := tracking.RecordLocation(id, report);
      var changed := management.TransitionRideStatus(id, {Enroute, TripStarted}, TripStarted, "Driver started the trip");
      return Done;
    }

    /** `role` is absent when the caller did not name one. */
    method RecordTripLocation(id: RideId, requester: nat, role: Option<TT.Role>, location: TT.Location, measured: bool)
      returns (outcome: Outcome)
      requires management.Valid()
      modifies tracking
      ensures outcome.NotFound? <==>
                || id !in management.rides
                || (role == Some(TT.Rider) && management.rides[id].riderId != requester)
                || (role == Some(TT.Driver) && management.rides[id].driverId != Some(requester))
      ensures outcome.Done? <==> !outcome.NotFound? && role.Some? && !Terminal(management.rides[id].status)
      ensures tracking.View() ==
              if outcome.Done? then
                TT.Record(tracking.distance, old(tracking.View()), id, TT.Report(requester, role.value, location, measured))
              else old(tracking.View())
    {
      if id !in management.rides {
        return NotFound;
      }
      var ride := management.rides[id];
      if role == Some(TT.Rider) && ride.riderId != requester {
        return NotFound;
      }
      if role == Some(TT.Driver) && ride.driverId != Some(requester) {
        return NotFound;
      }
      if ride.status.Canceled? || ride.status.Completed? || role.None? {
        return BadRequest;
      }
      var client := if role.value.Driver? then requester else ride.riderId;
      var total, delta := tracking.RecordLocation(id, TT.Report(client, role.value, location, measured));
      return Done;
    }

    /** The distance a completion of the ride with this last report would be charged for. */
    ghost function FinalKm(id: RideId, report: TT.Report): real
      requires management.Valid() && id in management.rides
      reads management, tracking
    {
      ChargedKm(TT.Moved(tracking.distance, TT.StateOf(tracking.View(), id), report).totalMeters, management.rides[id])
    }

    /** The completion got past every check and recorded its last position. */
    ghost predicate ArrivesAtFare(id: RideId, report: TT.Report, dropoff: TT.Point, answers: Answers)
      requires management.Valid()
      reads management, tracking
    {
      && id in management.rides && management.rides[id].driverId == Some(report.client)
      && !Terminal(management.rides[id].status)
      && Together(answers, report.location, TT.StateOf(tracking.View(), id).lastRider, dropoff, completionRadius)
    }

    method CompleteRide(id: RideId, report: TT.Report, dropoff: TT.Point, discount: Option<real>, answers: Answers)
      returns (outcome: Outcome)
      requires management.Valid() && report.role.Driver?
      modifies management, tracking
      ensures management.Valid()
      ensures var inPlace := old(ArrivesAtFare(id, report, dropoff, answers));
              var bill := if inPlace then BillOf(FE.CalculateFare(fareConfig, old(FinalKm(id, report)), discount)) else None;
              SystemResult(management.View(), outcome)
              == ActOn(old(management.View()), id, Complete(report.client, inPlace, bill))
      ensures tracking.View() ==
              if !old(ArrivesAtFare(id, report, dropoff, answers)) then old(tracking.View())
              else if !outcome.Done? then TT.Record(tracking.distance, old(tracking.View()), id, report)
              else TT.Complete(TT.Record(tracking.distance, old(tracking.View()), id, report), id)
      ensures outcome.Done? <==>
                && id in old(management.rides) && old(management.rides)[id].driverId == Some(report.client)
                && old(management.rides)[id].status !in {RideStatus.Completed, RideStatus.Canceled}
                && (var rider := TT.StateOf(old(tracking.View()), id).lastRider;
                    && rider.Some? && answers(report.location.point, dropoff) <= completionRadius
                    && answers(rider.value.point, dropoff) <= completionRadius
                    && answers(report.location.point, rider.value.point) <= completionRadius)
                && FE.CalculateFare(fareConfig, old(FinalKm(id, report)), discount).Calculated?
    {
      if id !in management.rides {
        return NotFound;
      }
      PutSame(management.View(), id);
      var ride := management.rides[id];
      if ride.driverId != Some(report.client) {
        return NotFound;
      }
      if ride.status.Canceled? || ride.status.Completed? {
        return BadRequest;
      }
      var st := tracking.GetState(id);
      var together := CheckTogether(answers, report.location, st.lastRider, dropoff, completionRadius);
      if !together {
        return BadRequest;
      }
      var total, delta := tracking.RecordLocation(id, report);
      var km := total / 1000.0;
      if km <= 0.0 {
        km := if ride.distanceActualKm.Some? then ride.distanceActualKm.value
              else if ride.distanceEstimatedKm.Some? then ride.distanceEstimatedKm.value
              else 0.0;
      }
      assert km == ChargedKm(total, ride);
      var fare := FE.CalculateFare(fareConfig, km, discount);
      if !fare.Calculated? {
        return BadRequest;
      }
      Settle(id, BillOf(fare).value);
      return Done;
    }

    /** The part of a completion that cannot fail any more. */
    method Settle(id: RideId, bill: Bill)
      requires management.Valid() && id in management.rides
      modifies management, tracking
      ensures management.Valid()
      ensures var a := old(management.View()).rides[id];
              var moved := Transition(a, {Enroute, RideStatus.Accepted, Assigned, TripStarted}, RideStatus.Completed,
                                      "Driver marked the ride as completed");
              management.View() == Put(old(management.View()), id, moved.(ride := Billed(moved.ride, bill)))
      ensures tracking.View() == TT.Complete(old(tracking.View()), id)
    {
      ghost var s := management.View();
      var changed := management.TransitionRideStatus(
        id, {Enroute, RideStatus.Accepted, Assigned, TripStarted}, RideStatus.Completed,
        "Driver marked the ride as completed");
      ghost var a1 := management.View().rides[id];
      tracking.MarkRideCompleted(id);
      management.UpdateRide(id, Billed(management.rides[id], bill));
      PutTwice(s, id, a1, management.View().rides[id]);
    }
  }
}
