/** `RidesManagementService` over its three tables. Every public method is proved to do to the tables what the
    corresponding function of `RideLifecycle` does to the aggregate, and to leave every other ride alone. */
module RidesManagement {
  import opened Base
  import opened RideLifecycle

  /** `s` with the aggregate of one ride replaced. */
  function Put(s: System, id: RideId, a: RideAggregate): System {
    s.(rides := s.rides[id := a])
  }

  lemma PutTwice(s: System, id: RideId, a: RideAggregate, b: RideAggregate)
    ensures Put(Put(s, id, a), id, b) == Put(s, id, b)
  {
  }

  lemma PutSame(s: System, id: RideId)
    requires id in s.rides
    ensures Put(s, id, s.rides[id]) == s
  {
  }

  /** The rows a confirmation of driver `d` rewrites. */
  method ConfirmedUpdates(cs: map<DriverId, Candidate>, d: DriverId) returns (toUpdate: map<DriverId, Candidate>)
    ensures cs + toUpdate == ConfirmedWith(cs, d)
    ensures forall x :: x in toUpdate ==> x == d || cs[x].status.Invited? || cs[x].status.Accepted?
  {
    toUpdate := map[];
    var pending := cs.Keys;
    while pending != {}
      invariant pending <= cs.Keys && toUpdate.Keys <= cs.Keys - pending
      invariant forall x :: x in cs && x !in pending ==> (cs + toUpdate)[x] == ConfirmedWith(cs, d)[x]
      invariant forall x :: x in toUpdate ==> x == d || cs[x].status.Invited? || cs[x].status.Accepted?
      decreases pending
    {
      var x :| x in pending;
      pending := pending - {x};
      if x == d {
        toUpdate := toUpdate[x := Candidate(Confirmed, None)];
      } else if cs[x].status.Invited? || cs[x].status.Accepted? {
        toUpdate := toUpdate[x := Candidate(CandidateStatus.Canceled, Some("Ride confirmed with another driver"))];
      }
    }
    assert (cs + toUpdate).Keys == cs.Keys;
  }

  /** The rows a cancellation rewrites: those not cancelled before. */
  method CanceledUpdates(cs: map<DriverId, Candidate>, text: string) returns (toUpdate: map<DriverId, Candidate>)
    ensures cs + toUpdate == AllCanceled(cs, text)
    ensures toUpdate.Keys == set x | x in cs && !cs[x].status.Canceled?
  {
    toUpdate := map[];
    var pending := cs.Keys;
    while pending != {}
      invariant pending <= cs.Keys
      invariant toUpdate.Keys == set x | x in cs && x !in pending && !cs[x].status.Canceled?
      invariant forall x :: x in cs && x !in pending ==> (cs + toUpdate)[x] == AllCanceled(cs, text)[x]
      decreases pending
    {
      var x :| x in pending;
      pending := pending - {x};
      if cs[x].status.Canceled? {
        continue;
      }
      toUpdate := toUpdate[x := Candidate(CandidateStatus.Canceled, Some(text))];
    }
    assert (cs + toUpdate).Keys == cs.Keys;
  }

  /** The three tables, joined by ride. */
  function Joined(rides: map<RideId, Ride>, candidates: map<RideId, map<DriverId, Candidate>>,
                  history: map<RideId, seq<HistoryEntry>>): map<RideId, RideAggregate>
    requires rides.Keys == candidates.Keys == history.Keys
  {
    map id | id in rides :: RideAggregate(rides[id], candidates[id], history[id])
  }

  lemma JoinedInsert(rides: map<RideId, Ride>, candidates: map<RideId, map<DriverId, Candidate>>,
                     history: map<RideId, seq<HistoryEntry>>, id: RideId, a: RideAggregate)
    requires rides.Keys == candidates.Keys == history.Keys
    ensures Joined(rides[id := a.ride], candidates[id := a.candidates], history[id := a.history]) ==
            Joined(rides, candidates, history)[id := a]
  {
  }

  class RidesManagementService {
    var rides: map<RideId, Ride>
    var candidates: map<RideId, map<DriverId, Candidate>>
    var history: map<RideId, seq<HistoryEntry>>
    var nextRideId: RideId

    ghost predicate Valid()
      reads this
    {
      && rides.Keys == candidates.Keys == history.Keys
      && forall id :: id in rides ==> id < nextRideId
    }

    /** The tables joined per ride. */
    ghost function View(): System
      requires Valid()
      reads this
    {
      System(Joined(rides, candidates, history), nextRideId)
    }

    constructor ()
      ensures Valid() && View() == EMPTY_SYSTEM
    {
      rides, candidates, history, nextRideId := map[], map[], map[], 0;
    }

    // ----- repositories -----

    method UpdateRide(id: RideId, ride: Ride)
      requires Valid() && id in rides
      modifies this`rides
      ensures Valid()
      ensures View() == Put(old(View()), id, old(View()).rides[id].(ride := ride))
    {
      rides := rides[id := ride];
    }

    method SaveCandidates(id: RideId, rows: map<DriverId, Candidate>)
      requires Valid() && id in rides
      modifies this`candidates
      ensures Valid()
      ensures var a := old(View()).rides[id];
              View() == Put(old(View()), id, a.(candidates := a.candidates + rows))
    {
      candidates := candidates[id := candidates[id] + rows];
    }

    method SaveCandidate(id: RideId, d: DriverId, status: CandidateStatus, reason: Option<string>)
      requires Valid() && id in rides
      modifies this`candidates
      ensures Valid()
      ensures View() == Put(old(View()), id, WithCandidate(old(View()).rides[id], d, status, reason))
    {
      var rows: map<DriverId, Candidate> := candidates[id];
      rows := rows[d := Candidate(status, reason)];
      candidates := candidates[id := rows];
    }

    method RecordStatusChange(id: RideId, entry: HistoryEntry)
      requires Valid() && id in rides
      modifies this`history
      ensures Valid()
      ensures var a := old(View()).rides[id];
              View() == Put(old(View()), id, a.(history := a.history + [entry]))
    {
      history := history[id := history[id] + [entry]];
    }

    /** The claim transaction run alone; `ClaimDriver` treats concurrent claims. A claimed ride makes it fail. */
    method ClaimDriver(id: RideId, d: DriverId) returns (claimed: bool)
      requires Valid() && id in rides
      modifies this`rides
      ensures Valid()
      ensures var a := old(View()).rides[id];
              && claimed == a.ride.driverId.None?
              && View() == if claimed then Put(old(View()), id, WithDriver(a, Some(d))) else old(View())
    {
      if rides[id].driverId.Some? {
        return false;
      }
      UpdateRide(id, rides[id].(driverId := Some(d)));
      return true;
    }

    // ----- operations -----

    method TransitionRideStatus(id: RideId, allowed: set<RideStatus>, next: RideStatus, context: string)
      returns (changed: bool)
      requires Valid() && id in rides
      modifies this`rides, this`history
      ensures Valid()
      ensures changed == Transitions(old(View()).rides[id], allowed, next)
      ensures View() == Put(old(View()), id, Transition(old(View()).rides[id], allowed, next, context))
    {
      ghost var s := View();
      var ride := rides[id];
      if ride.status !in allowed {
        PutSame(s, id);
        return false;
      }
      if ride.status == next {
        PutSame(s, id);
        return false;
      }
      var previous := ride.status;
      ride := ride.(status := next);
      if context != "" && next.Canceled? {
        ride := ride.(cancelReason := Some(context));
      }
      UpdateRide(id, ride);
      ghost var t := View();
      RecordStatusChange(id, HistoryEntry(Some(previous), next, context));
      PutTwice(s, id, t.rides[id], View().rides[id]);
      return true;
    }

    /** The transaction that inserts the ride, its candidates and its first history entries. */
    method CreateRideWithDetails(rider: RiderId, distanceKm: real, nearby: set<DriverId>)
      requires Valid()
      modifies this
      ensures Valid()
      ensures View() == System(old(View()).rides[old(nextRideId) := Opened(rider, distanceKm, nearby)], old(nextRideId) + 1)
    {
      var id := nextRideId;
      JoinedInsert(rides, candidates, history, id, Opened(rider, distanceKm, nearby));
      nextRideId := nextRideId + 1;
      rides := rides[id := Unpriced(rider, distanceKm)];
      candidates := candidates[id := Invitations(nearby)];
      history := history[id := FIRST_ENTRIES];
    }

    /** `distanceKm` and `nearby` are what the estimation job and the driver search answered. */
    method CreateRide(rider: RiderId, distanceKm: Option<real>, nearby: set<DriverId>) returns (outcome: Outcome)
      requires Valid()
      modifies this
      ensures Valid()
      ensures SystemResult(View(), outcome) == Create(old(View()), rider, distanceKm, nearby)
    {
      var existing := FindUnfinishedRideByRiderId(rider);
      if existing.Some? {
        return Conflict;
      }
      if distanceKm.None? {
        return BadRequest;
      }
      if nearby == {} {
        return Unavailable;
      }
      CreateRideWithDetails(rider, distanceKm.value, nearby);
      return Done;
    }

    /** The unfinished ride of a rider, if there is one. */
    method FindUnfinishedRideByRiderId(rider: RiderId) returns (found: Option<RideId>)
      requires Valid()
      ensures found.None? <==> !HasUnfinishedRide(View(), rider)
      ensures found.Some? ==> found.value in rides && Unfinished(View().rides[found.value], rider)
    {
      found := None;
      var pending := rides.Keys;
      while pending != {} && found.None?
        invariant pending <= rides.Keys
        invariant found.None? ==>
                    forall id :: id in rides && Unfinished(View().rides[id], rider) ==> id in pending
        invariant found.Some? ==> found.value in rides && Unfinished(View().rides[found.value], rider)
        decreases pending
      {
        var id :| id in pending;
        pending := pending - {id};
        if rides[id].riderId == rider && !Terminal(rides[id].status) {
          assert Unfinished(View().rides[id], rider);
          found := Some(id);
        }
      }
    }

    method AcceptRideByDriver(id: RideId, d: DriverId) returns (outcome: Outcome)
      requires Valid()
      modifies this
      ensures Valid()
      ensures SystemResult(View(), outcome) == ActOn(old(View()), id, DriverAccept(d))
    {
      if id !in rides {
        return NotFound;
      }
      ghost var s := View();
      PutSame(s, id);
      var ride := rides[id];
      if ride.status.Canceled? || ride.status.Completed? {
        return BadRequest;
      }
      if d !in candidates[id] {
        return NotFound;
      }
      var candidate := candidates[id][d];
      if candidate.status.Canceled? {
        return Conflict;
      }
      if candidate.status.Declined? {
        return BadRequest;
      }
      if candidate.status.Confirmed?
         || (candidate.status.Accepted? && ride.driverId == Some(d) && (ride.status.Accepted? || ride.status.Enroute?)) {
        return Done;
      }
      if ride.driverId.Some? && ride.driverId != Some(d) {
        SaveCandidate(id, d, CandidateStatus.Canceled, Some("Another driver already accepted this ride"));
        return Conflict;
      }
      if ride.driverId.None? {
        var claimed := ClaimDriver(id, d);
      }
      ghost var a1 := View().rides[id];
      assert View() == Put(s, id, a1) && a1 == WithDriver(s.rides[id], Some(d));
      SaveCandidate(id, d, CandidateStatus.Accepted, None);
      ghost var a2 := View().rides[id];
      PutTwice(s, id, a1, a2);
      var changed := TransitionRideStatus(
        id, {Requested, CandidatesComputed}, Assigned, "Driver responded to invitation");
      ghost var a3 := View().rides[id];
      PutTwice(s, id, a2, a3);
      changed := TransitionRideStatus(
        id, {Assigned, CandidatesComputed}, RideStatus.Accepted, "Driver accepted ride request");
      PutTwice(s, id, a3, View().rides[id]);
      return Done;
    }

    method RejectRideByDriver(id: RideId, d: DriverId, reason: Option<string>) returns (outcome: Outcome)
      requires Valid()
      modifies this
      ensures Valid()
      ensures SystemResult(View(), outcome) == ActOn(old(View()), id, DriverReject(d, reason))
    {
      if id !in rides {
        return NotFound;
      }
      ghost var s := View();
      PutSame(s, id);
      var ride := rides[id];
      if ride.status.Canceled? {
        return Done;
      }
      if ride.status.Completed? || ride.status.Enroute? {
        return BadRequest;
      }
      if d !in candidates[id] {
        return NotFound;
      }
      if candidates[id][d].status.Declined? || candidates[id][d].status.Canceled? {
        return Done;
      }
      var text := Or(reason, "Driver declined the ride invitation");
      SaveCandidate(id, d, Declined, Some(text));
      ghost var a1 := View().rides[id];
      if ride.driverId == Some(d) {
        UpdateRide(id, ride.(driverId := None));
        ghost var a2 := View().rides[id];
        PutTwice(s, id, a1, a2);
        var changed := TransitionRideStatus(id, {RideStatus.Accepted, Assigned}, CandidatesComputed, text);
        PutTwice(s, id, a2, View().rides[id]);
      }
      return Done;
    }

    method ConfirmDriverAcceptance(id: RideId, rider: RiderId) returns (outcome: Outcome)
      requires Valid()
      modifies this
      ensures Valid()
      ensures SystemResult(View(), outcome) == ActOn(old(View()), id, RiderConfirm(rider))
    {
      if id !in rides || rides[id].riderId != rider {
        PutSameIfPresent(id);
        return NotFound;
      }
      ghost var s := View();
      PutSame(s, id);
      var ride := rides[id];
      if ride.driverId.None? || ride.status.Canceled? {
        return BadRequest;
      }
      var d := ride.driverId.value;
      if ride.status.Completed? {
        return Done;
      }
      if ride.status.Assigned? || ride.status.Requested? {
        return BadRequest;
      }
      if ride.status.Enroute? {
        return Done;
      }
      if d !in candidates[id] {
        return Conflict;
      }
      if !candidates[id][d].status.Accepted? {
        return BadRequest;
      }
      var changed := TransitionRideStatus(id, {RideStatus.Accepted}, Enroute, "Rider accepted driver confirmation");
      ghost var a1 := View().rides[id];
      var cs := candidates[id];
      var toUpdate := ConfirmedUpdates(cs, d);
      SaveCandidates(id, toUpdate);
      PutTwice(s, id, a1, View().rides[id]);
      return Done;
    }

    method RejectDriverAcceptance(id: RideId, rider: RiderId, reason: Option<string>) returns (outcome: Outcome)
      requires Valid()
      modifies this
      ensures Valid()
      ensures SystemResult(View(), outcome) == ActOn(old(View()), id, RiderReject(rider, reason))
    {
      if id !in rides || rides[id].riderId != rider {
        PutSameIfPresent(id);
        return NotFound;
      }
      ghost var s := View();
      PutSame(s, id);
      var ride := rides[id];
      if ride.driverId.None? {
        return BadRequest;
      }
      var d := ride.driverId.value;
      if ride.status.Canceled? {
        return Done;
      }
      if ride.status.Completed? || ride.status.Enroute? || ride.status.Assigned? || ride.status.Requested? {
        return BadRequest;
      }
      if d !in candidates[id] {
        return Conflict;
      }
      var text := Or(reason, "Rider rejected the driver acceptance");
      SaveCandidate(id, d, CandidateStatus.Canceled, Some(text));
      ghost var a1 := View().rides[id];
      UpdateRide(id, ride.(driverId := None));
      ghost var a2 := View().rides[id];
      PutTwice(s, id, a1, a2);
      var changed := TransitionRideStatus(id, {RideStatus.Accepted, Assigned}, CandidatesComputed, text);
      PutTwice(s, id, a2, View().rides[id]);
      return Done;
    }

    method CancelRide(id: RideId, rider: RiderId, reason: Option<string>) returns (outcome: Outcome)
      requires Valid()
      modifies this
      ensures Valid()
      ensures SystemResult(View(), outcome) == ActOn(old(View()), id, Cancel(rider, reason))
    {
      if id !in rides || rides[id].riderId != rider {
        PutSameIfPresent(id);
        return NotFound;
      }
      ghost var s := View();
      PutSame(s, id);
      if rides[id].status.Completed? {
        return BadRequest;
      }
      if rides[id].status.Canceled? {
        return Done;
      }
      var text := Or(reason, "Ride cancelled by rider");
      var changed := TransitionRideStatus(
        id, {Requested, CandidatesComputed, Assigned, RideStatus.Accepted, Enroute}, RideStatus.Canceled, text);
      ghost var a1 := View().rides[id];
      var updated := rides[id];
      if reason.Some? && reason.value != "" {
        updated := updated.(cancelReason := reason);
      }
      UpdateRide(id, updated.(fareFinal := Some(0.0)));
      ghost var a2 := View().rides[id];
      PutTwice(s, id, a1, a2);
      var cs := candidates[id];
      var toUpdate := CanceledUpdates(cs, text);
      SaveCandidates(id, toUpdate);
      PutTwice(s, id, a2, View().rides[id]);
      return Done;
    }

    ghost method PutSameIfPresent(id: RideId)
      requires Valid()
      ensures id in rides ==> Put(View(), id, View().rides[id]) == View()
    {
      if id in rides {
        PutSame(View(), id);
      }
    }
  }
}
