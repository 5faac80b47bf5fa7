/** What every sequence of lifecycle calls keeps, and exactly which calls break it. */
module RideInvariants {
  import opened Base
  import opened RideLifecycle

  predicate Dead(c: Candidate) {
    c.status.Declined? || c.status.Canceled?
  }

  function DeadOnes(cs: map<DriverId, Candidate>): set<DriverId> {
    set d | d in cs && Dead(cs[d])
  }

  predicate Holds(a: RideAggregate, d: DriverId, status: CandidateStatus) {
    d in a.candidates && a.candidates[d].status == status
  }

  /** The agreement between ride status, assigned driver and candidate statuses that a ride at rest shows. */
  ghost predicate Coherent(a: RideAggregate) {
    && (a.ride.fareFinal.Some? <==> Terminal(a.ride.status))
    && match a.ride.status
       case CandidatesComputed =>
         && a.ride.driverId.None?
         && forall x :: x in a.candidates ==> a.candidates[x].status.Invited? || Dead(a.candidates[x])
       case Accepted =>
         && a.ride.driverId.Some? && Holds(a, a.ride.driverId.value, CandidateStatus.Accepted)
         && forall x :: x in a.candidates && x != a.ride.driverId.value ==>
              a.candidates[x].status.Invited? || Dead(a.candidates[x])
       case Enroute => Underway(a)
       case TripStarted => Underway(a)
       case Completed =>
         && a.ride.driverId.Some?
         && (Holds(a, a.ride.driverId.value, CandidateStatus.Accepted) || Holds(a, a.ride.driverId.value, Confirmed))
       case Canceled => forall x :: x in a.candidates ==> a.candidates[x].status.Canceled?
       case _ => false
  }

  ghost predicate Underway(a: RideAggregate) {
    && a.ride.driverId.Some? && Holds(a, a.ride.driverId.value, Confirmed)
    && forall x :: x in a.candidates && x != a.ride.driverId.value ==> Dead(a.candidates[x])
  }

  /** The calls that get past their guards although the trip has started: a cancellation by the rider, a
      withdrawal by the assigned driver, a rejection by the rider. */
  predicate GapCall(a: RideAggregate, op: Op) {
    && a.ride.status.TripStarted?
    && match op
       case Cancel(rider, _) => rider == a.ride.riderId
       case DriverReject(d, _) => a.ride.driverId == Some(d)
       case RiderReject(rider, _) => rider == a.ride.riderId
       case _ => false
  }

  /** Where a gap call leads: every candidate row is dead while the ride is not cancelled. */
  ghost predicate Derailed(a: RideAggregate) {
    && (a.ride.status.TripStarted? || (a.ride.status.Completed? && a.ride.driverId.Some?))
    && (a.ride.driverId.Some? ==> Holds(a, a.ride.driverId.value, CandidateStatus.Canceled))
    && forall x :: x in a.candidates ==> Dead(a.candidates[x])
  }

  lemma OpenedIsCoherent(rider: RiderId, distanceKm: real, nearby: set<DriverId>)
    ensures Coherent(Opened(rider, distanceKm, nearby))
  {
  }

  lemma DerailedIsNotCoherent(a: RideAggregate)
    requires Derailed(a)
    ensures !Coherent(a)
  {
  }

  lemma AcceptanceKeepsCoherent(a: RideAggregate, d: DriverId)
    requires Coherent(a)
    ensures Coherent(AcceptByDriver(a, d).after)
  {
  }

  lemma WithdrawalKeepsCoherent(a: RideAggregate, d: DriverId, reason: Option<string>)
    requires Coherent(a)
    ensures Coherent(RejectByDriver(a, d, reason).after) <==> !GapCall(a, DriverReject(d, reason))
    ensures GapCall(a, DriverReject(d, reason)) ==> Derailed(RejectByDriver(a, d, reason).after)
  {
  }

  lemma ConfirmationKeepsCoherent(a: RideAggregate, rider: RiderId)
    requires Coherent(a)
    ensures Coherent(ConfirmByRider(a, rider).after)
  {
  }

  lemma RejectionKeepsCoherent(a: RideAggregate, rider: RiderId, reason: Option<string>)
    requires Coherent(a)
    ensures Coherent(RejectByRider(a, rider, reason).after) <==> !GapCall(a, RiderReject(rider, reason))
    ensures GapCall(a, RiderReject(rider, reason)) ==> Derailed(RejectByRider(a, rider, reason).after)
  {
  }

  lemma CancellationKeepsCoherent(a: RideAggregate, rider: RiderId, reason: Option<string>)
    requires Coherent(a)
    ensures Coherent(CancelByRider(a, rider, reason).after) <==> !GapCall(a, Cancel(rider, reason))
    ensures GapCall(a, Cancel(rider, reason)) ==> Derailed(CancelByRider(a, rider, reason).after)
  {
  }

  /** One call: coherence survives every call that is not a gap call, and no gap call. */
  lemma StepKeepsCoherent(a: RideAggregate, op: Op)
    requires Coherent(a)
    ensures Coherent(Step(a, op).after) <==> !GapCall(a, op)
    ensures GapCall(a, op) ==> Derailed(Step(a, op).after)
  {
    match op
    case DriverAccept(d) => AcceptanceKeepsCoherent(a, d);
    case DriverReject(d, reason) => WithdrawalKeepsCoherent(a, d, reason);
    case RiderConfirm(rider) => ConfirmationKeepsCoherent(a, rider);
    case RiderReject(rider, reason) => RejectionKeepsCoherent(a, rider, reason);
    case Cancel(rider, reason) => CancellationKeepsCoherent(a, rider, reason);
    case Start(d, inPlace) =>
    case Complete(d, inPlace, bill) =>
  }

  lemma StepKeepsDerailed(a: RideAggregate, op: Op)
    requires Derailed(a)
    ensures Derailed(Step(a, op).after)
  {
    match op
    case DriverAccept(d) =>
    case DriverReject(d, reason) =>
    case RiderConfirm(rider) =>
    case RiderReject(rider, reason) =>
    case Cancel(rider, reason) =>
    case Start(d, inPlace) =>
    case Complete(d, inPlace, bill) =>
  }

  /** Some call of the run was made as a gap call. */
  predicate MakesGapCall(a: RideAggregate, ops: seq<Op>)
    decreases |ops|
  {
    ops != [] && (GapCall(a, ops[0]) || MakesGapCall(Step(a, ops[0]).after, ops[1..]))
  }

  /** Main result of the lifecycle: from a coherent ride, a run of calls ends coherent exactly when it made no gap
      call. One gap call is never repaired by any later call. */
  lemma {:induction false} CoherentUnlessGapCall(a: RideAggregate, ops: seq<Op>)
    requires Coherent(a) || Derailed(a)
    ensures Coherent(Run(a, ops)) || Derailed(Run(a, ops))
    ensures Coherent(a) ==> (Coherent(Run(a, ops)) <==> !MakesGapCall(a, ops))
    ensures Derailed(a) ==> Derailed(Run(a, ops))
    decreases |ops|
  {
    if Derailed(a) {
      DerailedIsNotCoherent(a);
    }
    if ops != [] {
      if Coherent(a) {
        StepKeepsCoherent(a, ops[0]);
      } else {
        StepKeepsDerailed(a, ops[0]);
      }
      CoherentUnlessGapCall(Step(a, ops[0]).after, ops[1..]);
      if Derailed(Run(a, ops)) {
        DerailedIsNotCoherent(Run(a, ops));
      }
    }
  }

  // ----- rides that nobody can end -----

  /** The trip has started and there is no driver: the rider can neither cancel the ride nor complete it. */
  predicate Stranded(a: RideAggregate) {
    a.ride.status.TripStarted? && a.ride.driverId.None?
  }

  lemma {:induction false} StaysStranded(a: RideAggregate, ops: seq<Op>)
    requires Derailed(a) && Stranded(a)
    ensures Stranded(Run(a, ops)) && Run(a, ops).ride.riderId == a.ride.riderId
    decreases |ops|
  {
    if ops != [] {
      StepKeepsDerailed(a, ops[0]);
      assert Stranded(Step(a, ops[0]).after) && Step(a, ops[0]).after.ride.riderId == a.ride.riderId;
      StaysStranded(Step(a, ops[0]).after, ops[1..]);
    }
  }

  /** One call that ends a ride which is not stranded. */
  function EndingCall(a: RideAggregate): Op
    requires !Stranded(a)
  {
    if a.ride.status.TripStarted? then Complete(a.ride.driverId.value, true, Some(Bill(0.0, 0.0, 0.0, 0.0, 0.0)))
    else Cancel(a.ride.riderId, None)
  }

  lemma EndingCallEnds(a: RideAggregate)
    requires (Coherent(a) || Derailed(a)) && !Stranded(a)
    ensures Terminal(Run(a, [EndingCall(a)]).ride.status)
  {
    var b := Step(a, EndingCall(a)).after;
    assert Terminal(b.ride.status);
    assert Run(a, [EndingCall(a)]) == Run(b, []);
  }

  predicate Ends(a: RideAggregate, ops: seq<Op>) {
    Terminal(Run(a, ops).ride.status)
  }

  /** Some calls bring a ride to COMPLETED or CANCELED if and only if it is not stranded. */
  lemma CanBeEndedUnlessStranded(a: RideAggregate)
    requires Coherent(a) || Derailed(a)
    ensures (exists ops :: Ends(a, ops)) <==> !Stranded(a)
  {
    if Stranded(a) {
      forall ops
        ensures !Ends(a, ops)
      {
        StaysStranded(a, ops);
      }
    } else {
      EndingCallEnds(a);
      assert Ends(a, [EndingCall(a)]);
    }
  }

  /** The calls that take the driver away during the trip: the rider's rejection, and a withdrawal of the driver while
      its candidate row is alive. */
  predicate TakesDriverAway(a: RideAggregate, op: Op) {
    && a.ride.status.TripStarted? && a.ride.driverId.Some?
    && match op
       case DriverReject(d, _) => a.ride.driverId == Some(d) && d in a.candidates && !Dead(a.candidates[d])
       case RiderReject(rider, _) => rider == a.ride.riderId
       case _ => false
  }

  predicate TakesDriverAwayIn(a: RideAggregate, ops: seq<Op>)
    decreases |ops|
  {
    ops != [] && (TakesDriverAway(a, ops[0]) || TakesDriverAwayIn(Step(a, ops[0]).after, ops[1..]))
  }

  lemma StepStrands(a: RideAggregate, op: Op)
    requires Coherent(a) || Derailed(a)
    ensures Stranded(Step(a, op).after) <==> Stranded(a) || TakesDriverAway(a, op)
  {
    if Stranded(a) {
      assert Run(Step(a, op).after, []) == Step(a, op).after == Run(a, [op]);
      StaysStranded(a, [op]);
    }
  }

  /** A run strands its ride if and only if one of its calls takes the driver away during the trip; that includes the
      rider's rejection after a cancellation that did not cancel. */
  lemma {:induction false} StrandedExactlyByLosingTheDriver(a: RideAggregate, ops: seq<Op>)
    requires Coherent(a) || Derailed(a)
    ensures Stranded(Run(a, ops)) <==> Stranded(a) || TakesDriverAwayIn(a, ops)
    decreases |ops|
  {
    if ops != [] {
      StepStrands(a, ops[0]);
      CoherentUnlessGapCall(a, [ops[0]]);
      assert Run(a, [ops[0]]) == Run(Step(a, ops[0]).after, []) == Step(a, ops[0]).after;
      StrandedExactlyByLosingTheDriver(Step(a, ops[0]).after, ops[1..]);
    }
  }

  /** A new ride brought to its trip: `d` accepts, the rider confirms, the trip starts. */
  function ToTheTrip(rider: RiderId, d: DriverId): seq<Op> {
    [DriverAccept(d), RiderConfirm(rider), Start(d, true)]
  }

  lemma InvitedDriverAccepts(a: RideAggregate, d: DriverId)
    requires a.ride.status.CandidatesComputed? && a.ride.driverId.None? && Holds(a, d, Invited)
    ensures var b := Step(a, DriverAccept(d)).after;
            && b.ride.status.Accepted? && b.ride.driverId == Some(d) && b.ride.riderId == a.ride.riderId
            && Holds(b, d, CandidateStatus.Accepted) && |b.history| == |a.history| + 2
  {
  }

  lemma RiderConfirmsDriver(a: RideAggregate, d: DriverId)
    requires a.ride.status.Accepted? && a.ride.driverId == Some(d) && Holds(a, d, CandidateStatus.Accepted)
    ensures var b := Step(a, RiderConfirm(a.ride.riderId)).after;
            && b.ride.status.Enroute? && b.ride.driverId == Some(d) && b.ride.riderId == a.ride.riderId
            && |b.history| == |a.history| + 1
  {
  }

  lemma DriverStarts(a: RideAggregate, d: DriverId)
    requires a.ride.status.Enroute? && a.ride.driverId == Some(d)
    ensures var b := Step(a, Start(d, true)).after;
            && b.ride.status.TripStarted? && b.ride.driverId == Some(d) && b.ride.riderId == a.ride.riderId
            && |b.history| == |a.history| + 1
  {
  }

  lemma TripIsReachable(rider: RiderId, distanceKm: real, nearby: set<DriverId>, d: DriverId)
    requires d in nearby
    ensures var a := Run(Opened(rider, distanceKm, nearby), ToTheTrip(rider, d));
            Coherent(a) && a.ride.status.TripStarted? && a.ride.driverId == Some(d) && a.ride.riderId == rider
  {
    var a0 := Opened(rider, distanceKm, nearby);
    var ops := ToTheTrip(rider, d);
    var a1 := Step(a0, ops[0]).after;
    InvitedDriverAccepts(a0, d);
    var a2 := Step(a1, ops[1]).after;
    RiderConfirmsDriver(a1, d);
    var a3 := Step(a2, ops[2]).after;
    DriverStarts(a2, d);
    OpenedIsCoherent(rider, distanceKm, nearby);
    StepKeepsCoherent(a0, ops[0]);
    StepKeepsCoherent(a1, ops[1]);
    StepKeepsCoherent(a2, ops[2]);
    RunOfThree(a0, ops);
  }

  lemma RunOfThree(a: RideAggregate, ops: seq<Op>)
    requires |ops| == 3
    ensures Run(a, ops) == Step(Step(Step(a, ops[0]).after, ops[1]).after, ops[2]).after
  {
    var b := Step(a, ops[0]).after;
    var c := Step(b, ops[1]).after;
    assert ops[1..][1..] == [ops[2]] && [ops[2]][1..] == [];
    assert Run(a, ops) == Run(b, ops[1..]) == Run(c, [ops[2]]) == Run(Step(c, ops[2]).after, []);
  }

  /** All three gap calls can really be made, for any new ride and any invited driver; the two that take the driver
      away strand the ride, the rejection also after a cancellation. */
  lemma GapCallsAreReachable(rider: RiderId, distanceKm: real, nearby: set<DriverId>, d: DriverId, reason: Option<string>)
    requires d in nearby
    ensures var a := Run(Opened(rider, distanceKm, nearby), ToTheTrip(rider, d));
            var canceled := Step(a, Cancel(rider, reason)).after;
            && Coherent(a)
            && GapCall(a, Cancel(rider, reason)) && canceled.ride.status.TripStarted?
            && GapCall(a, DriverReject(d, reason)) && Stranded(Step(a, DriverReject(d, reason)).after)
            && GapCall(a, RiderReject(rider, reason)) && Stranded(Step(a, RiderReject(rider, reason)).after)
            && Stranded(Step(canceled, RiderReject(rider, reason)).after)
  {
    TripIsReachable(rider, distanceKm, nearby, d);
    var a := Run(Opened(rider, distanceKm, nearby), ToTheTrip(rider, d));
    StepStrands(a, DriverReject(d, reason));
    StepStrands(a, RiderReject(rider, reason));
    StepKeepsCoherent(a, Cancel(rider, reason));
    StepStrands(Step(a, Cancel(rider, reason)).after, RiderReject(rider, reason));
  }

  // ----- terminal states -----

  /** COMPLETED and CANCELED are left by no call; the whole aggregate, fare columns included, is frozen. */
  lemma {:induction false} TerminalIsFrozen(a: RideAggregate, ops: seq<Op>)
    requires Terminal(a.ride.status)
    ensures Run(a, ops) == a
    decreases |ops|
  {
    if ops != [] {
      assert Step(a, ops[0]).after == a;
      TerminalIsFrozen(a, ops[1..]);
    }
  }

  predicate SameFareColumns(r: Ride, s: Ride) {
    && r.fareFinal == s.fareFinal && r.appFeeAmount == s.appFeeAmount && r.discountAmount == s.discountAmount
    && r.discountPercent == s.discountPercent && r.distanceActualKm == s.distanceActualKm
  }

  /** A completion that passes its guards always writes the bill; the ride is then COMPLETED unless it was still
      looking for a driver, which `Coherent` rules out because such a ride has none. */
  lemma BillingMeansCompletion(a: RideAggregate, d: DriverId, inPlace: bool, bill: Option<Bill>)
    ensures CompletionReachesBilling(a, d, inPlace, bill) ==>
              var b := CompleteTrip(a, d, inPlace, bill).after;
              && b.ride.fareFinal == Some(bill.value.finalFare) && b.ride.appFeeAmount == Some(bill.value.appFee)
              && b.ride.discountAmount == Some(bill.value.discountAmount)
              && (b.ride.status.Completed? <==>
                    a.ride.status !in {NyStart, Requested, CandidatesComputed})
              && (Coherent(a) || Derailed(a) ==> b.ride.status.Completed?)
    ensures !CompletionReachesBilling(a, d, inPlace, bill) ==> CompleteTrip(a, d, inPlace, bill).after == a
  {
  }

  /** Who writes the five fare columns: a completion past its guards writes the bill; a cancellation of an unfinished
      ride writes a zero fare and nothing else; no other call touches any of them. */
  lemma FareColumnsHaveTwoWriters(a: RideAggregate, op: Op)
    ensures var r, s := a.ride, Step(a, op).after.ride;
            if op.Complete? && CompletionReachesBilling(a, op.driver, op.inPlace, op.bill) then
              SameFareColumns(s, Billed(r, op.bill.value))
            else if op.Cancel? && op.rider == r.riderId && !Terminal(r.status) then
              SameFareColumns(s, r.(fareFinal := Some(0.0)))
            else SameFareColumns(s, r)
  {
    match op
    case DriverAccept(d) =>
    case DriverReject(d, reason) =>
    case RiderConfirm(rider) =>
    case RiderReject(rider, reason) =>
    case Cancel(rider, reason) =>
    case Start(d, inPlace) =>
    case Complete(d, inPlace, bill) =>
  }

  // ----- candidates -----

  /** The moves a candidate row can make. None leads to INVITED and none leaves DECLINED or CANCELED
      for anything but a death. */
  predicate CandidateMove(c: CandidateStatus, e: CandidateStatus) {
    match c
    case Invited => !e.Confirmed?
    case Accepted => !e.Invited?
    case Confirmed => e.Confirmed? || e.Declined? || e.Canceled?
    case Declined => e.Declined? || e.Canceled?
    case Canceled => e.Canceled?
  }

  ghost predicate CandidatesMove(a: RideAggregate, b: RideAggregate) {
    && a.candidates.Keys == b.candidates.Keys
    && forall x :: x in a.candidates ==> CandidateMove(a.candidates[x].status, b.candidates[x].status)
  }

  lemma AcceptanceMovesCandidates(a: RideAggregate, d: DriverId)
    ensures CandidatesMove(a, AcceptByDriver(a, d).after)
  {
  }

  lemma WithdrawalMovesCandidates(a: RideAggregate, d: DriverId, reason: Option<string>)
    ensures CandidatesMove(a, RejectByDriver(a, d, reason).after)
  {
  }

  lemma ConfirmationMovesCandidates(a: RideAggregate, rider: RiderId)
    ensures CandidatesMove(a, ConfirmByRider(a, rider).after)
  {
  }

  lemma RejectionMovesCandidates(a: RideAggregate, rider: RiderId, reason: Option<string>)
    ensures CandidatesMove(a, RejectByRider(a, rider, reason).after)
  {
  }

  lemma CancellationMovesCandidates(a: RideAggregate, rider: RiderId, reason: Option<string>)
    ensures CandidatesMove(a, CancelByRider(a, rider, reason).after)
  {
  }

  lemma StepMovesCandidates(a: RideAggregate, op: Op)
    ensures CandidatesMove(a, Step(a, op).after)
  {
    match op
    case DriverAccept(d) => AcceptanceMovesCandidates(a, d);
    case DriverReject(d, reason) => WithdrawalMovesCandidates(a, d, reason);
    case RiderConfirm(rider) => ConfirmationMovesCandidates(a, rider);
    case RiderReject(rider, reason) => RejectionMovesCandidates(a, rider, reason);
    case Cancel(rider, reason) => CancellationMovesCandidates(a, rider, reason);
    case Start(d, inPlace) =>
    case Complete(d, inPlace, bill) =>
  }

  /** Over any run from any state: the invited drivers stay the same, nobody is invited again, and a driver who
      declined or was cancelled is never accepted or confirmed again. */
  lemma {:induction false} CandidatesOnlyMoveOn(a: RideAggregate, ops: seq<Op>)
    ensures Run(a, ops).candidates.Keys == a.candidates.Keys
    ensures forall x :: x in a.candidates ==>
              var c, e := a.candidates[x], Run(a, ops).candidates[x];
              && (e.status.Invited? ==> c.status.Invited?)
              && (Dead(c) ==> Dead(e))
              && (c.status.Confirmed? && !Dead(e) ==> e.status.Confirmed?)
              && (c.status.Canceled? ==> e.status.Canceled?)
    decreases |ops|
  {
    if ops != [] {
      StepMovesCandidates(a, ops[0]);
      CandidatesOnlyMoveOn(Step(a, ops[0]).after, ops[1..]);
    }
  }

  // ----- status history -----

  /** The edges a status history may contain. */
  predicate PermittedEdge(from: Option<RideStatus>, to: RideStatus) {
    match to
    case Requested => from.None?
    case CandidatesComputed => from == Some(Requested) || from == Some(RideStatus.Accepted)
    case Assigned => from == Some(CandidatesComputed)
    case Accepted => from == Some(Assigned)
    case Enroute => from == Some(RideStatus.Accepted)
    case TripStarted => from == Some(Enroute)
    case Completed => from == Some(RideStatus.Accepted) || from == Some(Enroute) || from == Some(TripStarted)
    case Canceled => from == Some(CandidatesComputed) || from == Some(RideStatus.Accepted) || from == Some(Enroute)
    case NyStart => false
  }

  /** A connected path of permitted edges from nothing to `last`. */
  ghost predicate Path(h: seq<HistoryEntry>, last: RideStatus) {
    && h != [] && h[0].from.None? && h[|h| - 1].to == last
    && (forall i :: 0 <= i < |h| ==> PermittedEdge(h[i].from, h[i].to))
    && (forall i :: 0 < i < |h| ==> h[i].from == Some(h[i - 1].to))
  }

  /** How long the history of a ride may be by now: each driver who came and went cost three changes. */
  ghost predicate HistoryWithinBudget(a: RideAggregate) {
    var h, n, dead := |a.history|, |a.candidates|, |DeadOnes(a.candidates)|;
    match a.ride.status
    case CandidatesComputed => h <= 2 + 3 * dead
    case Accepted => h <= 4 + 3 * dead && dead < n
    case Enroute => h <= 3 * n + 2
    case TripStarted => h <= 3 * n + 3
    case Completed => h <= 3 * n + 4
    case _ => h <= 3 * n + 3
  }

  ghost predicate Recorded(a: RideAggregate) {
    && (Coherent(a) || Derailed(a))
    && Path(a.history, a.ride.status)
    && HistoryWithinBudget(a)
  }

  lemma DeadCounts(a: RideAggregate)
    ensures |DeadOnes(a.candidates)| <= |a.candidates|
    ensures (exists d :: d in a.candidates && !Dead(a.candidates[d])) ==> |DeadOnes(a.candidates)| < |a.candidates|
  {
    SubsetCardinality(DeadOnes(a.candidates), a.candidates.Keys);
  }

  lemma DeadGrows(a: RideAggregate, b: RideAggregate)
    requires CandidatesMove(a, b)
    ensures |a.candidates| == |b.candidates|
    ensures |DeadOnes(a.candidates)| <= |DeadOnes(b.candidates)|
    ensures (exists d :: d in a.candidates && !Dead(a.candidates[d]) && Dead(b.candidates[d])) ==>
              |DeadOnes(a.candidates)| < |DeadOnes(b.candidates)|
  {
    assert a.candidates.Keys == b.candidates.Keys;
    assert |a.candidates| == |a.candidates.Keys| && |b.candidates| == |b.candidates.Keys|;
    SubsetCardinality(DeadOnes(a.candidates), DeadOnes(b.candidates));
    if d :| d in a.candidates && !Dead(a.candidates[d]) && Dead(b.candidates[d]) {
      assert d in DeadOnes(b.candidates) && d !in DeadOnes(a.candidates);
    }
  }

  /** `b` continues the history of `a` by at most one permitted edge. */
  predicate AtMostOneChange(a: RideAggregate, b: RideAggregate) {
    var n := |a.history|;
    || (b.history == a.history && b.ride.status == a.ride.status)
    || (&& |b.history| == n + 1 && b.history[..n] == a.history
        && b.history[n].from == Some(a.ride.status) && b.history[n].to == b.ride.status
        && PermittedEdge(Some(a.ride.status), b.ride.status))
  }

  lemma ChangeExtendsPath(a: RideAggregate, b: RideAggregate)
    requires Path(a.history, a.ride.status) && AtMostOneChange(a, b)
    ensures Path(b.history, b.ride.status)
  {
    if b.history != a.history {
      assert forall i :: 0 <= i < |a.history| ==> b.history[i] == a.history[i];
    }
  }

  ghost predicate OnTrack(a: RideAggregate) {
    (Coherent(a) || Derailed(a)) && Path(a.history, a.ride.status)
  }

  /** An acceptance makes no change or the two changes over ASSIGNED. */
  lemma AcceptanceKeepsPath(a: RideAggregate, d: DriverId)
    requires OnTrack(a)
    ensures var b := AcceptByDriver(a, d).after;
            Path(b.history, b.ride.status)
  {
    var b := AcceptByDriver(a, d).after;
    if b.ride.status != a.ride.status {
      var matched := Transition(a, {Requested, CandidatesComputed}, Assigned, "Driver responded to invitation");
      assert AtMostOneChange(a, matched);
      ChangeExtendsPath(a, matched);
      assert AtMostOneChange(matched, b);
      ChangeExtendsPath(matched, b);
    } else {
      assert b.history == a.history;
    }
  }

  lemma DriverLeavesInOneChange(a: RideAggregate, d: DriverId, reason: Option<string>)
    requires Coherent(a) || Derailed(a)
    ensures AtMostOneChange(a, RejectByDriver(a, d, reason).after)
  {
  }

  lemma RiderRejectsInOneChange(a: RideAggregate, rider: RiderId, reason: Option<string>)
    requires Coherent(a) || Derailed(a)
    ensures AtMostOneChange(a, RejectByRider(a, rider, reason).after)
  {
  }

  lemma CancellationIsOneChange(a: RideAggregate, rider: RiderId, reason: Option<string>)
    requires Coherent(a) || Derailed(a)
    ensures AtMostOneChange(a, CancelByRider(a, rider, reason).after)
  {
  }

  lemma StartIsOneChange(a: RideAggregate, d: DriverId, inPlace: bool)
    requires Coherent(a) || Derailed(a)
    ensures AtMostOneChange(a, StartTrip(a, d, inPlace).after)
  {
  }

  lemma CompletionIsOneChange(a: RideAggregate, d: DriverId, inPlace: bool, bill: Option<Bill>)
    requires Coherent(a) || Derailed(a)
    ensures AtMostOneChange(a, CompleteTrip(a, d, inPlace, bill).after)
  {
  }

  lemma ConfirmationIsOneChange(a: RideAggregate, rider: RiderId)
    requires Coherent(a) || Derailed(a)
    ensures AtMostOneChange(a, ConfirmByRider(a, rider).after)
  {
  }

  lemma StepKeepsPath(a: RideAggregate, op: Op)
    requires OnTrack(a)
    ensures Path(Step(a, op).after.history, Step(a, op).after.ride.status)
  {
    match op {
      case DriverAccept(d) => AcceptanceKeepsPath(a, d);
      case DriverReject(d, reason) => DriverLeavesInOneChange(a, d, reason);
      case RiderConfirm(rider) => ConfirmationIsOneChange(a, rider);
      case RiderReject(rider, reason) => RiderRejectsInOneChange(a, rider, reason);
      case Cancel(rider, reason) => CancellationIsOneChange(a, rider, reason);
      case Start(d, inPlace) => StartIsOneChange(a, d, inPlace);
      case Complete(d, inPlace, bill) => CompletionIsOneChange(a, d, inPlace, bill);
    }
    if !op.DriverAccept? {
      ChangeExtendsPath(a, Step(a, op).after);
    }
  }

  lemma AcceptanceKeepsBudget(a: RideAggregate, d: DriverId)
    requires (Coherent(a) || Derailed(a)) && HistoryWithinBudget(a)
    ensures HistoryWithinBudget(AcceptByDriver(a, d).after)
  {
    var b := AcceptByDriver(a, d).after;
    AcceptanceMovesCandidates(a, d);
    DeadCounts(b);
    DeadGrows(a, b);
    if a.ride.status.CandidatesComputed? {
      assert b == a || (d in b.candidates && !Dead(b.candidates[d]));
    }
  }

  /** A driver who leaves after having accepted dies as a candidate, which pays for the way back. */
  lemma WithdrawalKeepsBudget(a: RideAggregate, d: DriverId, reason: Option<string>)
    requires (Coherent(a) || Derailed(a)) && HistoryWithinBudget(a)
    ensures HistoryWithinBudget(RejectByDriver(a, d, reason).after)
  {
    var b := RejectByDriver(a, d, reason).after;
    WithdrawalMovesCandidates(a, d, reason);
    DriverLeavesInOneChange(a, d, reason);
    DeadCounts(b);
    DeadGrows(a, b);
    if a.ride.status.Accepted? {
      var e := a.ride.driverId.value;
      assert b.ride.status.Accepted? ==> !Dead(b.candidates[e]);
      assert !b.ride.status.Accepted? ==> !Dead(a.candidates[e]) && Dead(b.candidates[e]);
    }
  }

  lemma RejectionKeepsBudget(a: RideAggregate, rider: RiderId, reason: Option<string>)
    requires (Coherent(a) || Derailed(a)) && HistoryWithinBudget(a)
    ensures HistoryWithinBudget(RejectByRider(a, rider, reason).after)
  {
    var b := RejectByRider(a, rider, reason).after;
    RejectionMovesCandidates(a, rider, reason);
    RiderRejectsInOneChange(a, rider, reason);
    DeadGrows(a, b);
    if b.ride.status != a.ride.status {
      var d := a.ride.driverId.value;
      assert !Dead(a.candidates[d]) && Dead(b.candidates[d]);
    }
  }

  lemma ConfirmationKeepsBudget(a: RideAggregate, rider: RiderId)
    requires (Coherent(a) || Derailed(a)) && HistoryWithinBudget(a)
    ensures HistoryWithinBudget(ConfirmByRider(a, rider).after)
  {
    ConfirmationMovesCandidates(a, rider);
    ConfirmationIsOneChange(a, rider);
    DeadGrows(a, ConfirmByRider(a, rider).after);
  }

  lemma CancellationKeepsBudget(a: RideAggregate, rider: RiderId, reason: Option<string>)
    requires (Coherent(a) || Derailed(a)) && HistoryWithinBudget(a)
    ensures HistoryWithinBudget(CancelByRider(a, rider, reason).after)
  {
    DeadCounts(a);
    CancellationMovesCandidates(a, rider, reason);
    CancellationIsOneChange(a, rider, reason);
    DeadGrows(a, CancelByRider(a, rider, reason).after);
  }

  lemma StartKeepsBudget(a: RideAggregate, d: DriverId, inPlace: bool)
    requires (Coherent(a) || Derailed(a)) && HistoryWithinBudget(a)
    ensures HistoryWithinBudget(StartTrip(a, d, inPlace).after)
  {
    DeadCounts(a);
    StartIsOneChange(a, d, inPlace);
  }

  lemma CompletionKeepsBudget(a: RideAggregate, d: DriverId, inPlace: bool, bill: Option<Bill>)
    requires (Coherent(a) || Derailed(a)) && HistoryWithinBudget(a)
    ensures HistoryWithinBudget(CompleteTrip(a, d, inPlace, bill).after)
  {
    DeadCounts(a);
    CompletionIsOneChange(a, d, inPlace, bill);
  }

  lemma StepKeepsRecorded(a: RideAggregate, op: Op)
    requires Recorded(a)
    ensures Recorded(Step(a, op).after)
  {
    StepKeepsPath(a, op);
    match op {
      case DriverAccept(d) => AcceptanceKeepsBudget(a, d);
      case DriverReject(d, reason) => WithdrawalKeepsBudget(a, d, reason);
      case RiderReject(rider, reason) => RejectionKeepsBudget(a, rider, reason);
      case RiderConfirm(rider) => ConfirmationKeepsBudget(a, rider);
      case Cancel(rider, reason) => CancellationKeepsBudget(a, rider, reason);
      case Start(d, inPlace) => StartKeepsBudget(a, d, inPlace);
      case Complete(d, inPlace, bill) => CompletionKeepsBudget(a, d, inPlace, bill);
    }
    if Coherent(a) {
      StepKeepsCoherent(a, op);
    } else {
      StepKeepsDerailed(a, op);
    }
  }

  lemma {:induction false} RunKeepsRecorded(a: RideAggregate, ops: seq<Op>)
    requires Recorded(a)
    ensures Recorded(Run(a, ops))
    ensures |Run(a, ops).candidates| == |a.candidates|
    decreases |ops|
  {
    if ops != [] {
      StepKeepsRecorded(a, ops[0]);
      StepMovesCandidates(a, ops[0]);
      DeadGrows(a, Step(a, ops[0]).after);
      RunKeepsRecorded(Step(a, ops[0]).after, ops[1..]);
    }
  }

  lemma OpenedIsRecorded(rider: RiderId, distanceKm: real, nearby: set<DriverId>)
    ensures Recorded(Opened(rider, distanceKm, nearby))
    ensures |Opened(rider, distanceKm, nearby).candidates| == |nearby|
  {
    var a := Opened(rider, distanceKm, nearby);
    assert a.candidates.Keys == nearby;
    assert |a.candidates| == |a.candidates.Keys|;
  }

  /** Every run of calls on a new ride with n candidates, gap calls included: the history is a connected path of
      permitted edges from null to the current status, with at most 3n + 4 entries. */
  lemma HistoryIsABoundedPath(rider: RiderId, distanceKm: real, nearby: set<DriverId>, ops: seq<Op>)
    requires nearby != {}
    ensures var a := Run(Opened(rider, distanceKm, nearby), ops);
            Path(a.history, a.ride.status) && |a.history| <= 3 * |nearby| + 4
  {
    OpenedIsRecorded(rider, distanceKm, nearby);
    RunKeepsRecorded(Opened(rider, distanceKm, nearby), ops);
    DeadCounts(Run(Opened(rider, distanceKm, nearby), ops));
  }

  /** The bound is reached: each of the other drivers accepts and withdraws, then the last one serves the trip. */
  function LongestRun(rider: RiderId, drivers: seq<DriverId>, bill: Bill): seq<Op>
    requires drivers != []
  {
    if |drivers| == 1 then
      [DriverAccept(drivers[0]), RiderConfirm(rider), Start(drivers[0], true), Complete(drivers[0], true, Some(bill))]
    else
      [DriverAccept(drivers[0]), DriverReject(drivers[0], None)] + LongestRun(rider, drivers[1..], bill)
  }

  lemma ComesAndGoes(a: RideAggregate, d: DriverId)
    requires a.ride.status.CandidatesComputed? && a.ride.driverId.None? && Holds(a, d, Invited)
    ensures var b := Step(Step(a, DriverAccept(d)).after, DriverReject(d, None)).after;
            && b.ride.status.CandidatesComputed? && b.ride.driverId.None? && b.ride.riderId == a.ride.riderId
            && |b.history| == |a.history| + 3
            && forall x :: x != d && Holds(a, x, Invited) ==> Holds(b, x, Invited)
  {
  }

  lemma ServesTheTrip(a: RideAggregate, d: DriverId, bill: Bill)
    requires a.ride.status.CandidatesComputed? && a.ride.driverId.None? && Holds(a, d, Invited)
    ensures var b := Step(Step(a, DriverAccept(d)).after, RiderConfirm(a.ride.riderId)).after;
            var c := Step(Step(b, Start(d, true)).after, Complete(d, true, Some(bill))).after;
            c.ride.status.Completed? && |c.history| == |a.history| + 5
  {
    var b := Step(a, DriverAccept(d)).after;
    InvitedDriverAccepts(a, d);
    var c := Step(b, RiderConfirm(a.ride.riderId)).after;
    RiderConfirmsDriver(b, d);
    DriverStarts(c, d);
  }

  lemma {:induction false} LongestRunFrom(a: RideAggregate, drivers: seq<DriverId>, bill: Bill)
    requires drivers != [] && (forall i, j :: 0 <= i < j < |drivers| ==> drivers[i] != drivers[j])
    requires a.ride.status.CandidatesComputed? && a.ride.driverId.None?
    requires forall i :: 0 <= i < |drivers| ==> Holds(a, drivers[i], Invited)
    ensures var b := Run(a, LongestRun(a.ride.riderId, drivers, bill));
            b.ride.status.Completed? && |b.history| == |a.history| + 3 * |drivers| + 2
    decreases |drivers|
  {
    var d := drivers[0];
    var ops := LongestRun(a.ride.riderId, drivers, bill);
    var b := Step(a, ops[0]).after;
    var c := Step(b, ops[1]).after;
    assert Run(a, ops) == Run(b, ops[1..]) == Run(c, ops[1..][1..]);
    if |drivers| == 1 {
      ServesTheTrip(a, d, bill);
      var e := Step(c, ops[2]).after;
      assert ops[1..][1..][1..] == [ops[3]];
      assert Run(c, ops[1..][1..]) == Run(e, [ops[3]]) == Run(Step(e, ops[3]).after, []);
    } else {
      ComesAndGoes(a, d);
      assert ops[1..][1..] == LongestRun(a.ride.riderId, drivers[1..], bill);
      LongestRunFrom(c, drivers[1..], bill);
    }
  }

  /** For every non-empty list of distinct drivers the bound 3n + 4 is met by some run. */
  lemma HistoryBoundIsTight(rider: RiderId, distanceKm: real, drivers: seq<DriverId>, bill: Bill)
    requires drivers != [] && (forall i, j :: 0 <= i < j < |drivers| ==> drivers[i] != drivers[j])
    ensures var a := Opened(rider, distanceKm, set d | d in drivers);
            |Run(a, LongestRun(rider, drivers, bill)).history| == 3 * |drivers| + 4
  {
    var a := Opened(rider, distanceKm, set d | d in drivers);
    LongestRunFrom(a, drivers, bill);
  }

  // ----- how much can happen at all -----

  function Rank(status: CandidateStatus): nat {
    match status
    case Invited => 0
    case Accepted => 1
    case Confirmed => 2
    case Declined => 3
    case Canceled => 4
  }

  function RankedAtLeast(cs: map<DriverId, Candidate>, k: nat): set<DriverId> {
    set d | d in cs && Rank(cs[d].status) >= k
  }

  function Effort(a: RideAggregate): nat {
    |a.history| + |RankedAtLeast(a.candidates, 1)| + |RankedAtLeast(a.candidates, 2)|
    + |RankedAtLeast(a.candidates, 3)| + |RankedAtLeast(a.candidates, 4)|
    + if a.ride.status.TripStarted? && a.ride.driverId.None? then 1 else 0
  }

  /** The ride looks different to its participants: other status, other driver or another candidate status. */
  ghost predicate Differs(a: RideAggregate, b: RideAggregate) {
    || a.ride.status != b.ride.status || a.ride.driverId != b.ride.driverId
    || exists d :: d in a.candidates && d in b.candidates && a.candidates[d].status != b.candidates[d].status
  }

  lemma RanksGrow(a: RideAggregate, b: RideAggregate)
    requires CandidatesMove(a, b) && |a.history| <= |b.history|
    requires a.ride.status.TripStarted? && a.ride.driverId.None? ==> b.ride.status.TripStarted? && b.ride.driverId.None?
    ensures Effort(a) <= Effort(b)
    ensures |a.history| < |b.history| ==> Effort(a) < Effort(b)
    ensures b.ride.status.TripStarted? && b.ride.driverId.None? && a.ride.driverId.Some? ==> Effort(a) < Effort(b)
    ensures (exists d :: d in a.candidates && a.candidates[d].status != b.candidates[d].status) ==> Effort(a) < Effort(b)
  {
    forall k: nat
      ensures |RankedAtLeast(a.candidates, k)| <= |RankedAtLeast(b.candidates, k)|
      ensures RankedAtLeast(a.candidates, k) != RankedAtLeast(b.candidates, k) ==>
                |RankedAtLeast(a.candidates, k)| < |RankedAtLeast(b.candidates, k)|
    {
      SubsetCardinality(RankedAtLeast(a.candidates, k), RankedAtLeast(b.candidates, k));
    }
    if d :| d in a.candidates && a.candidates[d].status != b.candidates[d].status {
      var k := Rank(b.candidates[d].status);
      assert d in RankedAtLeast(b.candidates, k) && d !in RankedAtLeast(a.candidates, k);
    }
  }

  lemma AcceptanceIsVisible(a: RideAggregate, d: DriverId)
    requires Coherent(a) || Derailed(a)
    ensures var b := AcceptByDriver(a, d).after;
            && |a.history| <= |b.history|
            && (a.ride.status.TripStarted? && a.ride.driverId.None? ==> b.ride.status.TripStarted? && b.ride.driverId.None?)
            && (Differs(a, b) ==>
                  |a.history| < |b.history|
                  || (d in a.candidates && d in b.candidates && a.candidates[d].status != b.candidates[d].status))
  {
  }

  lemma AcceptanceCostsEffort(a: RideAggregate, d: DriverId)
    requires Coherent(a) || Derailed(a)
    ensures var b := AcceptByDriver(a, d).after;
            Effort(a) <= Effort(b) && (Differs(a, b) ==> Effort(a) < Effort(b))
  {
    AcceptanceMovesCandidates(a, d);
    AcceptanceIsVisible(a, d);
    RanksGrow(a, AcceptByDriver(a, d).after);
  }

  lemma WithdrawalCostsEffort(a: RideAggregate, d: DriverId, reason: Option<string>)
    requires Coherent(a) || Derailed(a)
    ensures var b := RejectByDriver(a, d, reason).after;
            Effort(a) <= Effort(b) && (Differs(a, b) ==> Effort(a) < Effort(b))
  {
    var b := RejectByDriver(a, d, reason).after;
    WithdrawalMovesCandidates(a, d, reason);
    DriverLeavesInOneChange(a, d, reason);
    RanksGrow(a, b);
    if Differs(a, b) {
      assert a.candidates[d].status != b.candidates[d].status;
    }
  }

  lemma RejectionCostsEffort(a: RideAggregate, rider: RiderId, reason: Option<string>)
    requires Coherent(a) || Derailed(a)
    ensures var b := RejectByRider(a, rider, reason).after;
            Effort(a) <= Effort(b) && (Differs(a, b) ==> Effort(a) < Effort(b))
  {
    var b := RejectByRider(a, rider, reason).after;
    RejectionMovesCandidates(a, rider, reason);
    RiderRejectsInOneChange(a, rider, reason);
    RanksGrow(a, b);
  }

  lemma ProgressCostsEffort(a: RideAggregate, op: Op)
    requires Coherent(a) || Derailed(a)
    requires op.RiderConfirm? || op.Start? || op.Complete?
    ensures var b := Step(a, op).after;
            Effort(a) <= Effort(b) && (Differs(a, b) ==> Effort(a) < Effort(b))
  {
    var b := Step(a, op).after;
    StepMovesCandidates(a, op);
    match op {
      case RiderConfirm(rider) => ConfirmationIsOneChange(a, rider);
      case Start(d, inPlace) => StartIsOneChange(a, d, inPlace);
      case Complete(d, inPlace, bill) => CompletionIsOneChange(a, d, inPlace, bill);
    }
    assert b.ride.driverId == a.ride.driverId;
    RanksGrow(a, b);
  }

  lemma CancellationCostsEffort(a: RideAggregate, rider: RiderId, reason: Option<string>)
    requires Coherent(a) || Derailed(a)
    ensures var b := CancelByRider(a, rider, reason).after;
            Effort(a) <= Effort(b) && (Differs(a, b) ==> Effort(a) < Effort(b))
  {
    var b := CancelByRider(a, rider, reason).after;
    CancellationMovesCandidates(a, rider, reason);
    CancellationIsOneChange(a, rider, reason);
    RanksGrow(a, b);
  }

  /** How many calls of a run changed what the participants see. */
  ghost function EffectiveCalls(a: RideAggregate, ops: seq<Op>): nat
    decreases |ops|
  {
    if ops == [] then 0
    else
      var b := Step(a, ops[0]).after;
      (if Differs(a, b) then 1 else 0) + EffectiveCalls(b, ops[1..])
  }

  lemma {:induction false} EffectiveCallsCostEffort(a: RideAggregate, ops: seq<Op>)
    requires Coherent(a) || Derailed(a)
    ensures EffectiveCalls(a, ops) <= Effort(Run(a, ops)) - Effort(a)
    decreases |ops|
  {
    if ops != [] {
      var op := ops[0];
      match op {
        case DriverAccept(d) => AcceptanceCostsEffort(a, d);
        case DriverReject(d, reason) => WithdrawalCostsEffort(a, d, reason);
        case RiderReject(rider, reason) => RejectionCostsEffort(a, rider, reason);
        case Cancel(rider, reason) => CancellationCostsEffort(a, rider, reason);
        case _ => ProgressCostsEffort(a, op);
      }
      CoherentUnlessGapCall(a, [op]);
      assert Run(a, [op]) == Run(Step(a, op).after, []);
      EffectiveCallsCostEffort(Step(a, op).after, ops[1..]);
    }
  }

  /** However long a run of calls on a ride with n candidates is, at most 7n + 3 of its calls change the status,
      the driver or a candidate status; every other call is refused or repeats what is already so. */
  lemma RunsAreFinite(rider: RiderId, distanceKm: real, nearby: set<DriverId>, ops: seq<Op>)
    requires nearby != {}
    ensures EffectiveCalls(Opened(rider, distanceKm, nearby), ops) <= 7 * |nearby| + 3
  {
    var a := Opened(rider, distanceKm, nearby);
    var b := Run(a, ops);
    OpenedIsRecorded(rider, distanceKm, nearby);
    RunKeepsRecorded(a, ops);
    EffectiveCallsCostEffort(a, ops);
    HistoryIsABoundedPath(rider, distanceKm, nearby, ops);
    forall k: nat
      ensures |RankedAtLeast(b.candidates, k)| <= |nearby|
    {
      assert |b.candidates| == |b.candidates.Keys|;
      SubsetCardinality(RankedAtLeast(b.candidates, k), b.candidates.Keys);
    }
  }

  // ----- the whole system -----

  ghost predicate OneUnfinishedEach(s: System) {
    forall i, j, rider :: i in s.rides && j in s.rides && Unfinished(s.rides[i], rider) && Unfinished(s.rides[j], rider)
      ==> i == j
  }

  ghost predicate AllRecorded(s: System) {
    forall id :: id in s.rides ==> id < s.nextId && Recorded(s.rides[id])
  }

  /** No call changes whose ride it is, and none makes a finished ride unfinished again. */
  lemma StepOpensNothing(a: RideAggregate, op: Op, rider: RiderId)
    ensures Unfinished(Step(a, op).after, rider) ==> Unfinished(a, rider)
  {
    if Terminal(a.ride.status) {
      TerminalIsFrozen(a, [op]);
      assert Run(a, [op]) == Run(Step(a, op).after, []);
    }
  }

  lemma AdvanceKeepsRecorded(s: System, e: Event)
    requires AllRecorded(s)
    ensures AllRecorded(Advance(s, e).after)
  {
    match e
    case CreateRide(rider, distanceKm, nearby) =>
      if distanceKm.Some? {
        OpenedIsRecorded(rider, distanceKm.value, nearby);
      }
    case OnRide(id, op) =>
      if id in s.rides {
        StepKeepsRecorded(s.rides[id], op);
      }
  }

  lemma AdvanceKeepsOneUnfinishedEach(s: System, e: Event)
    requires OneUnfinishedEach(s)
    ensures OneUnfinishedEach(Advance(s, e).after)
  {
    var t := Advance(s, e).after;
    forall i, j, rider | i in t.rides && j in t.rides && Unfinished(t.rides[i], rider) && Unfinished(t.rides[j], rider)
      ensures i == j
    {
      if e.OnRide? && e.id in s.rides {
        StepOpensNothing(s.rides[e.id], e.op, rider);
        assert Unfinished(s.rides[i], rider) && Unfinished(s.rides[j], rider);
      } else if e.CreateRide? && t != s {
        assert e.rider == rider ==> !HasUnfinishedRide(s, rider);
        assert i != s.nextId ==> Unfinished(s.rides[i], rider);
        assert j != s.nextId ==> Unfinished(s.rides[j], rider);
      }
    }
  }

  lemma {:induction false} RunKeepsSystem(s: System, events: seq<Event>)
    requires AllRecorded(s) && OneUnfinishedEach(s)
    ensures AllRecorded(RunSystem(s, events)) && OneUnfinishedEach(RunSystem(s, events))
    decreases |events|
  {
    if events != [] {
      AdvanceKeepsRecorded(s, events[0]);
      AdvanceKeepsOneUnfinishedEach(s, events[0]);
      RunKeepsSystem(Advance(s, events[0]).after, events[1..]);
    }
  }

  /** In every reachable state of the whole system each rider has at most one unfinished ride, every stored ride is
      coherent or derailed by a gap call, and its history is a path to its status. */
  lemma ReachableSystem(events: seq<Event>)
    ensures OneUnfinishedEach(RunSystem(EMPTY_SYSTEM, events)) && AllRecorded(RunSystem(EMPTY_SYSTEM, events))
  {
    RunKeepsSystem(EMPTY_SYSTEM, events);
  }

  // ----- whether a rider can order again -----

  predicate HoldsStranded(s: System, rider: RiderId) {
    exists id :: id in s.rides && s.rides[id].ride.riderId == rider && Stranded(s.rides[id])
  }

  lemma AdvanceKeepsStranded(s: System, id: RideId, e: Event)
    requires AllRecorded(s) && id in s.rides && Stranded(s.rides[id])
    ensures var t := Advance(s, e).after;
            id in t.rides && Stranded(t.rides[id]) && t.rides[id].ride.riderId == s.rides[id].ride.riderId
  {
    if e.OnRide? && e.id == id {
      var a := s.rides[id];
      assert Recorded(a);
      StaysStranded(a, [e.op]);
      assert Run(a, [e.op]) == Run(Step(a, e.op).after, []) == Step(a, e.op).after;
    }
  }

  /** Whatever happens to the whole system from then on, the rider of a stranded ride is refused every new one. */
  lemma {:induction false} StrandedRiderIsRefusedForEver(
    s: System, id: RideId, events: seq<Event>, distanceKm: Option<real>, nearby: set<DriverId>)
    requires AllRecorded(s) && id in s.rides && Stranded(s.rides[id])
    ensures var t := RunSystem(s, events);
            && HasUnfinishedRide(t, s.rides[id].ride.riderId)
            && Create(t, s.rides[id].ride.riderId, distanceKm, nearby) == SystemResult(t, Conflict)
    decreases |events|
  {
    if events == [] {
      assert Unfinished(s.rides[id], s.rides[id].ride.riderId);
    } else {
      AdvanceKeepsStranded(s, id, events[0]);
      AdvanceKeepsRecorded(s, events[0]);
      StrandedRiderIsRefusedForEver(Advance(s, events[0]).after, id, events[1..], distanceKm, nearby);
    }
  }

  lemma EndingTheRide(s: System, id: RideId, rider: RiderId)
    requires AllRecorded(s) && OneUnfinishedEach(s)
    requires id in s.rides && Unfinished(s.rides[id], rider) && !Stranded(s.rides[id])
    ensures !HasUnfinishedRide(RunSystem(s, [OnRide(id, EndingCall(s.rides[id]))]), rider)
  {
    var a := s.rides[id];
    assert Recorded(a);
    EndingCallEnds(a);
    var b := Step(a, EndingCall(a)).after;
    assert Run(a, [EndingCall(a)]) == Run(b, []) == b;
    var t := Advance(s, OnRide(id, EndingCall(a))).after;
    assert RunSystem(s, [OnRide(id, EndingCall(a))]) == RunSystem(t, []) == t;
    forall x | x in t.rides
      ensures !Unfinished(t.rides[x], rider)
    {
      assert x != id && Unfinished(s.rides[x], rider) ==> x == id;
    }
  }

  predicate FreesRider(s: System, events: seq<Event>, rider: RiderId) {
    !HasUnfinishedRide(RunSystem(s, events), rider)
  }

  /** In every reachable state: some events let a rider order again if and only if the rider holds no stranded ride. */
  lemma CanOrderAgainUnlessStranded(before: seq<Event>, rider: RiderId)
    ensures var s := RunSystem(EMPTY_SYSTEM, before);
            (exists events :: FreesRider(s, events, rider)) <==> !HoldsStranded(s, rider)
  {
    var s := RunSystem(EMPTY_SYSTEM, before);
    RunKeepsSystem(EMPTY_SYSTEM, before);
    if HoldsStranded(s, rider) {
      var id :| id in s.rides && s.rides[id].ride.riderId == rider && Stranded(s.rides[id]);
      forall events
        ensures !FreesRider(s, events, rider)
      {
        StrandedRiderIsRefusedForEver(s, id, events, None, {});
      }
    } else if HasUnfinishedRide(s, rider) {
      var id :| id in s.rides && Unfinished(s.rides[id], rider);
      EndingTheRide(s, id, rider);
      assert FreesRider(s, [OnRide(id, EndingCall(s.rides[id]))], rider);
    } else {
      assert FreesRider(s, [], rider);
    }
  }
}
