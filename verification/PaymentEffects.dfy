/** What a proceeding and a worker's attempt write, column by column. The statements name the rows themselves, not the
    functions that compute them. */
module PaymentEffects {
  import opened Base
  import opened PaymentStatuses
  import opened PaymentStore
  import RL = RideLifecycle
  import FE = FareEngine

  /** A link is stored: both token and address are there and not empty. */
  predicate Linked(d: Detail) {
    d.token.Some? && d.token.value != "" && d.redirectUrl.Some? && d.redirectUrl.value != ""
  }

  /** A stored link is handed out again, and nothing is written, exactly when token and address are both there. */
  lemma StoredLinkIsReused(db: Db, ride: RideId, row: RL.Ride, newOrder: OrderId, job: string, replies: seq<Option<Reply>>,
                           error: string, fault: Option<Statement>)
    ensures ride in db.details && Linked(db.details[ride]) ==>
              && Offered(Found(db.details, ride), row, replies, fault) == db.details[ride].redirectUrl
              && PaymentBegun(db, ride, row, newOrder, job, replies, error, fault) == db
    ensures HasLink(Found(db.details, ride)) <==> ride in db.details && Linked(db.details[ride])
  {
  }

  /** Without a stored link: no positive fare, or a failing statement of the save, means no link and nothing written. */
  lemma NothingToHandOut(db: Db, ride: RideId, row: RL.Ride, newOrder: OrderId, job: string, replies: seq<Option<Reply>>,
                         error: string, fault: Option<Statement>)
    requires row.fareFinal.Some? ==> FE.WholeCents(row.fareFinal.value)
    requires !(ride in db.details && Linked(db.details[ride]))
    requires row.fareFinal.None? || row.fareFinal.value <= 0.0 || (fault.Some? && !fault.value.RideUpdate?)
    ensures Offered(Found(db.details, ride), row, replies, fault) == None
    ensures PaymentBegun(db, ride, row, newOrder, job, replies, error, fault) == db
  {
    StoredLinkIsReused(db, ride, row, newOrder, job, replies, error, fault);
    NoFareNoAmount(row);
  }

  lemma NoFareNoAmount(row: RL.Ride)
    requires row.fareFinal.Some? ==> FE.WholeCents(row.fareFinal.value)
    ensures GrossAmount(row) <= 0.0 <==> row.fareFinal.None? || row.fareFinal.value <= 0.0
  {
    if row.fareFinal.Some? {
      GrossAmountIsTheFare(row);
    }
  }

  /** Without a stored link, for a positive fare that was saved: the address in the provider's first answer is handed out,
      unless it is missing or empty. */
  lemma FirstAnswerIsHandedOut(db: Db, ride: RideId, row: RL.Ride, replies: seq<Option<Reply>>, i: nat)
    requires row.fareFinal.Some? && FE.WholeCents(row.fareFinal.value) && row.fareFinal.value > 0.0
    requires !(ride in db.details && Linked(db.details[ride]))
    requires i < |replies| && replies[i].Some? && (forall j :: 0 <= j < i ==> replies[j].None?)
    ensures Offered(Found(db.details, ride), row, replies, None) ==
            if replies[i].value.redirectUrl == Some("") then None else replies[i].value.redirectUrl
  {
    NoFareNoAmount(row);
    FirstAnswerIs(replies, i);
  }

  lemma NoAnswerNoLink(db: Db, ride: RideId, row: RL.Ride, replies: seq<Option<Reply>>, fault: Option<Statement>)
    requires !(ride in db.details && Linked(db.details[ride]))
    requires forall i :: 0 <= i < |replies| ==> replies[i].None?
    ensures Offered(Found(db.details, ride), row, replies, fault) == None
  {
  }

  lemma {:induction false} FirstAnswerIs(replies: seq<Option<Reply>>, i: nat)
    requires i < |replies| && replies[i].Some? && (forall j :: 0 <= j < i ==> replies[j].None?)
    ensures FirstAnswer(replies) == replies[i]
    decreases |replies|
  {
    if i > 0 {
      FirstAnswerIs(replies[1..], i - 1);
    }
  }

  /** A proceeding that asks the provider records its request before any attempt: the detail is QUEUED under the ride's
      order, or the new one if it has none, asks for the ride's fare and has no link; one new outbox row waits with the
      same request, no attempt and the job's id. Nothing else changes. */
  lemma RequestIsRecorded(db: Db, ride: RideId, row: RL.Ride, newOrder: OrderId, job: string, error: string)
    requires row.fareFinal.Some? && FE.WholeCents(row.fareFinal.value) && row.fareFinal.value > 0.0
    requires !(ride in db.details && Linked(db.details[ride])) && db.nextOutbox !in db.outbox
    ensures var after := PaymentBegun(db, ride, row, newOrder, job, [], error, None);
            var stored := ride in db.details && db.details[ride].orderId.Some?;
            var order := if stored then db.details[ride].orderId.value else newOrder;
            var request := Payload(order, row.fareFinal.value);
            && after.rides == db.rides && after.nextOutbox == db.nextOutbox + 1
            && after.details == db.details[ride :=
                 Detail(Queued, Some(order), Some(request), None, None,
                        if ride in db.details then db.details[ride].transactionId else None)]
            && after.outbox == db.outbox[db.nextOutbox := Outbox(ride, order, request, Waiting, 0, Some(job), None, false)]
  {
    GrossAmountIsTheFare(row);
    StoredLinkIsReused(db, ride, row, newOrder, job, [], error, None);
  }

  /** An attempt counts itself. Answered, it stores INITIATED with the provider's token and address and the row's order and
      request, and finishes the row; failed, it stores the error and FAILED and keeps the rest of the detail. */
  lemma AttemptIsRecorded(db: Db, id: OutboxId, reply: Option<Reply>, error: string)
    requires id in db.outbox && db.outbox[id].rideId in db.details
    ensures var after := AfterAttempt(db, id, reply, error);
            var o := db.outbox[id];
            var d := db.details[o.rideId];
            && after.rides == db.rides && after.nextOutbox == db.nextOutbox
            && (if reply.Some? then
                  && after.details == db.details[o.rideId :=
                       Detail(Initiated, Some(o.orderId), Some(o.request), reply.value.token, reply.value.redirectUrl,
                              d.transactionId)]
                  && after.outbox == db.outbox[id :=
                       Outbox(o.rideId, o.orderId, o.request, Done, o.attempts + 1, o.jobId, None, true)]
                else
                  && after.details == db.details[o.rideId :=
                       Detail(Failed, d.orderId, d.request, d.token, d.redirectUrl, d.transactionId)]
                  && after.outbox == db.outbox[id :=
                       Outbox(o.rideId, o.orderId, o.request, Broken, o.attempts + 1, o.jobId, Some(error), o.processed)])
  {
  }

  /** Fares that are not in whole cents are asked for within half a cent, and a missing fare is not asked for. */
  lemma GrossAmountIsNear(ride: RL.Ride)
    ensures ride.fareFinal.Some? ==>
              FE.Within(GrossAmount(ride), ride.fareFinal.value, 0.005) && FE.WholeCents(GrossAmount(ride))
    ensures ride.fareFinal.None? ==> GrossAmount(ride) == 0.0
  {
    var x := if ride.fareFinal.Some? then ride.fareFinal.value else 0.0;
    FE.MathRoundIsNear(x * 100.0);
    var m := FE.MathRound(x * 100.0);
    assert m as real / 100.0 * 100.0 == m as real;
  }
}
