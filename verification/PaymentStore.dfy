/** The three tables a payment touches, the statements the repositories run on them, and the service operations of
    `payment.service.ts` and `rides-payment.service.ts` as one caller at a time sees them. `PaymentProtocol.dfy` runs
    the same statements interleaved. */
module PaymentStore {
  import opened Base
  import opened PaymentStatuses
  import RL = RideLifecycle
  import FE = FareEngine

  type RideId = RL.RideId
  type OrderId = nat
  type OutboxId = nat

  /** The order and the amount sent to the provider. */
  datatype Payload = Payload(orderId: OrderId, grossAmount: real)

  /** A row of ride_payment_details; the table holds one per ride. */
  datatype Detail = Detail(
    status: DetailStatus,
    orderId: Option<OrderId>,
    request: Option<Payload>,
    token: Option<string>,
    redirectUrl: Option<string>,
    transactionId: Option<string>)

  /** A row of ride_payment_outbox. */
  datatype Outbox = Outbox(
    rideId: RideId,
    orderId: OrderId,
    request: Payload,
    status: OutboxStatus,
    attempts: nat,
    jobId: Option<string>,
    lastError: Option<string>,
    processed: bool)

  datatype Db = Db(
    rides: map<RideId, RL.Ride>, details: map<RideId, Detail>, outbox: map<OutboxId, Outbox>, nextOutbox: OutboxId)

  /** The provider's answer to a payment request; a call that fails has none. */
  datatype Reply = Reply(token: Option<string>, redirectUrl: Option<string>)

  /** A notification of the provider about one of its orders. */
  datatype Notice = Notice(orderId: OrderId, status: Option<string>, transactionId: Option<string>)

  /** The statement of a transaction that fails, if one does. */
  datatype Statement = DetailUpsert | RideUpdate | OutboxUpdating | Committing

  predicate NonEmpty(text: Option<string>) {
    text.Some? && text.value != ""
  }

  // ----- statements -----

  function WithDetail(db: Db, ride: RideId, d: Detail): Db {
    db.(details := db.details[ride := d])
  }

  /** The upsert by id: a conflicting row keeps its ride and its order. */
  function WithOutbox(db: Db, id: OutboxId, o: Outbox): Db {
    var row := if id in db.outbox then o.(rideId := db.outbox[id].rideId, orderId := db.outbox[id].orderId) else o;
    db.(outbox := db.outbox[id := row])
  }

  function NewOutbox(ride: RideId, order: OrderId, request: Payload): Outbox {
    Outbox(ride, order, request, Waiting, 0, None, None, false)
  }

  function WithDetailAndOutbox(db: Db, ride: RideId, d: Detail, order: OrderId, request: Payload): Db {
    WithDetail(db, ride, d)
      .(outbox := db.outbox[db.nextOutbox := NewOutbox(ride, order, request)], nextOutbox := db.nextOutbox + 1)
  }

  function WithPaymentState(db: Db, ride: RideId, status: RL.PaymentStatus, url: Option<string>): Db
    requires ride in db.rides
  {
    db.(rides := db.rides[ride := db.rides[ride].(paymentStatus := Some(status), paymentUrl := url)])
  }

  predicate Matches(o: Outbox, ride: RideId, order: OrderId) {
    o.rideId == ride && o.orderId == order
  }

  function Updated(o: Outbox, u: OutboxUpdate): Outbox {
    o.(status := u.status, lastError := u.lastError, processed := o.processed || u.setProcessedAt)
  }

  function OutboxUpdated(outbox: map<OutboxId, Outbox>, ride: RideId, order: OrderId, u: OutboxUpdate): map<OutboxId, Outbox> {
    map id | id in outbox :: if Matches(outbox[id], ride, order) then Updated(outbox[id], u) else outbox[id]
  }

  /** What the notification transaction commits: the detail, the payment when it is paid, and every outbox row of the
      order. */
  function Settled(db: Db, ride: RideId, d: Detail, paid: bool, order: OrderId, u: OutboxUpdate): Db
    requires paid ==> ride in db.rides
  {
    var withRide := if paid then WithPaymentState(db, ride, RL.Paid, None) else db;
    WithDetail(withRide, ride, d).(outbox := OutboxUpdated(db.outbox, ride, order, u))
  }

  // ----- what the services compute between statements -----

  function RoundCurrency(value: real): real {
    FE.MathRound(value * 100.0) as real / 100.0
  }

  function GrossAmount(ride: RL.Ride): real {
    RoundCurrency(if ride.fareFinal.Some? then ride.fareFinal.value else 0.0)
  }

  predicate HasLink(d: Option<Detail>) {
    d.Some? && NonEmpty(d.value.token) && NonEmpty(d.value.redirectUrl)
  }

  function OrderOf(d: Option<Detail>, newOrder: OrderId): OrderId {
    if d.Some? && d.value.orderId.Some? then d.value.orderId.value else newOrder
  }

  /** The detail as `initiatePayment` queues it. */
  function QueuedDetail(d: Option<Detail>, request: Payload): Detail {
    Detail(Queued, Some(request.orderId), Some(request), None, None, if d.Some? then d.value.transactionId else None)
  }

  function Attempted(o: Outbox): Outbox {
    o.(status := Processing, attempts := o.attempts + 1)
  }

  function RepliedDetail(d: Detail, o: Outbox, reply: Reply): Detail {
    d.(status := Initiated, request := Some(o.request), orderId := Some(o.orderId),
       token := reply.token, redirectUrl := reply.redirectUrl)
  }

  function NotifiedDetail(d: Detail, n: Notice): Detail {
    d.(status := Normalize(n.status), orderId := Some(n.orderId), transactionId := n.transactionId)
  }

  function Found<V>(rows: map<nat, V>, key: nat): Option<V> {
    if key in rows then Some(rows[key]) else None
  }

  /** Whole cents in, the same number out: the amount asked for is the fare that was stored. */
  lemma GrossAmountIsTheFare(ride: RL.Ride)
    requires ride.fareFinal.Some? && FE.WholeCents(ride.fareFinal.value)
    ensures GrossAmount(ride) == ride.fareFinal.value
  {
    var x := ride.fareFinal.value * 100.0;
    assert (x + 0.5).Floor == x.Floor;
  }

  /** One attempt of the worker, run without interruption. */
  function AfterAttempt(db: Db, id: OutboxId, reply: Option<Reply>, error: string): Db
    requires id in db.outbox && db.outbox[id].rideId in db.details
  {
    var o := Attempted(db.outbox[id]);
    var d := db.details[o.rideId];
    var started := WithOutbox(db, id, o);
    if reply.Some? then
      WithOutbox(WithDetail(started, o.rideId, RepliedDetail(d, o, reply.value)), id,
                 o.(status := Done, lastError := None, processed := true))
    else
      WithDetail(WithOutbox(started, id, o.(status := Broken, lastError := Some(error))), o.rideId, d.(status := Failed))
  }

  /** All the attempts of one job: the queue stops at the first success. */
  function AfterJob(db: Db, id: OutboxId, replies: seq<Option<Reply>>, error: string): Db
    requires id in db.outbox && db.outbox[id].rideId in db.details
    decreases |replies|
  {
    if replies == [] then db
    else
      var next := AfterAttempt(db, id, replies[0], error);
      if replies[0].Some? then next else AfterJob(next, id, replies[1..], error)
  }

  /** initiatePayment past its guards: both rows, the post-enqueue save of the outbox row, then the job. */
  function AfterInitiation(db: Db, ride: RideId, request: Payload, job: string, replies: seq<Option<Reply>>, error: string): Db {
    var id := db.nextOutbox;
    var both := WithDetailAndOutbox(db, ride, QueuedDetail(Found(db.details, ride), request), request.orderId, request);
    AfterJob(WithOutbox(both, id, both.outbox[id].(jobId := Some(job))), id, replies, error)
  }

  /** A worker only restates the order and the request of the detail it works on, and touches nothing of other rides. */
  ghost predicate SameOrders(before: Db, after: Db, ride: RideId) {
    && after.rides == before.rides && after.nextOutbox == before.nextOutbox
    && after.details.Keys == before.details.Keys && after.outbox.Keys == before.outbox.Keys
    && (forall r :: r in before.details && r != ride ==> after.details[r] == before.details[r])
    && (forall r :: r in before.details ==>
          after.details[r].orderId == before.details[r].orderId && after.details[r].request == before.details[r].request)
    && (forall id :: id in before.outbox && before.outbox[id].rideId != ride ==> after.outbox[id] == before.outbox[id])
    && (forall id :: id in before.outbox ==> SameRequest(before.outbox[id], after.outbox[id]))
  }

  /** Other rides' details are untouched, and an order that was stored stays. */
  ghost predicate OrdersKept(before: Db, after: Db, ride: RideId) {
    && (forall r :: r in before.details && r != ride ==> r in after.details && after.details[r] == before.details[r])
    && (ride in before.details && before.details[ride].orderId.Some? ==>
          ride in after.details && after.details[ride].orderId == before.details[ride].orderId)
  }

  predicate SameRequest(o: Outbox, p: Outbox) {
    o.rideId == p.rideId && o.orderId == p.orderId && o.request == p.request
  }

  /** The row asks for what its ride's detail says. */
  predicate RowFits(db: Db, o: Outbox) {
    && o.rideId in db.details
    && db.details[o.rideId].orderId == Some(o.orderId)
    && db.details[o.rideId].request == Some(o.request)
  }

  lemma AttemptKeepsOrders(db: Db, id: OutboxId, reply: Option<Reply>, error: string)
    requires id in db.outbox && RowFits(db, db.outbox[id])
    ensures var after := AfterAttempt(db, id, reply, error);
            SameOrders(db, after, db.outbox[id].rideId) && RowFits(after, after.outbox[id])
  {
  }

  lemma SameOrdersTwice(a: Db, b: Db, c: Db, ride: RideId)
    requires SameOrders(a, b, ride) && SameOrders(b, c, ride)
    ensures SameOrders(a, c, ride)
  {
    forall id | id in a.outbox
      ensures SameRequest(a.outbox[id], c.outbox[id]) && (a.outbox[id].rideId != ride ==> c.outbox[id] == a.outbox[id])
    {
      assert SameRequest(a.outbox[id], b.outbox[id]) && SameRequest(b.outbox[id], c.outbox[id]);
    }
  }

  /** However many attempts a job takes and however they end, it keeps every order and request of every ride and
      touches no other ride. */
  lemma {:induction false} JobKeepsOrders(db: Db, id: OutboxId, replies: seq<Option<Reply>>, error: string)
    requires id in db.outbox && RowFits(db, db.outbox[id])
    ensures SameOrders(db, AfterJob(db, id, replies, error), db.outbox[id].rideId)
    decreases |replies|
  {
    if replies != [] {
      var next := AfterAttempt(db, id, replies[0], error);
      AttemptKeepsOrders(db, id, replies[0], error);
      if replies[0].None? {
        JobKeepsOrders(next, id, replies[1..], error);
        SameOrdersTwice(db, next, AfterJob(db, id, replies, error), db.outbox[id].rideId);
      }
    }
  }

  /** The first answer the provider gives among the attempts of a job. */
  function FirstAnswer(replies: seq<Option<Reply>>): (answer: Option<Reply>)
    ensures answer.Some? <==> exists i :: 0 <= i < |replies| && replies[i].Some?
    ensures answer.Some? ==> answer in replies
  {
    if replies == [] then None
    else if replies[0].Some? then replies[0]
    else
      var rest := FirstAnswer(replies[1..]);
      assert forall i :: 1 <= i < |replies| ==> replies[i] == replies[1..][i - 1];
      rest
  }

  /** With an answer the detail ends up INITIATED with the token and link of the first answer; without one every attempt
      is counted and both rows say failed. */
  lemma {:induction false} JobOutcome(db: Db, id: OutboxId, replies: seq<Option<Reply>>, error: string)
    requires id in db.outbox && db.outbox[id].rideId in db.details
    ensures var after := AfterJob(db, id, replies, error);
            var ride := db.outbox[id].rideId;
            var answer := FirstAnswer(replies);
            && id in after.outbox && ride in after.details
            && (answer.Some? ==>
                  && after.details[ride].status.Initiated? && after.outbox[id].status.Done?
                  && after.details[ride].token == answer.value.token
                  && after.details[ride].redirectUrl == answer.value.redirectUrl)
            && (answer.None? && replies != [] ==>
                  && after.details[ride].status.Failed? && after.outbox[id].status.Broken?
                  && after.outbox[id].attempts == db.outbox[id].attempts + |replies|
                  && after.outbox[id].lastError == Some(error))
            && (answer.None? ==> after.details[ride].redirectUrl == db.details[ride].redirectUrl)
    decreases |replies|
  {
    if replies != [] && replies[0].None? {
      JobOutcome(AfterAttempt(db, id, replies[0], error), id, replies[1..], error);
    }
  }

  /** A new request of a ride under its own order: the orders stay, and the link is that of the first answer. */
  lemma InitiationOutcome(db: Db, ride: RideId, request: Payload, job: string, replies: seq<Option<Reply>>, error: string)
    requires ride in db.details && db.details[ride].orderId.Some? ==> db.details[ride].orderId == Some(request.orderId)
    ensures var after := AfterInitiation(db, ride, request, job, replies, error);
            && OrdersKept(db, after, ride) && after.rides == db.rides && ride in after.details
            && after.details[ride].redirectUrl ==
                 if FirstAnswer(replies).Some? then FirstAnswer(replies).value.redirectUrl else None
  {
    var id := db.nextOutbox;
    var both := WithDetailAndOutbox(db, ride, QueuedDetail(Found(db.details, ride), request), request.orderId, request);
    var queued := WithOutbox(both, id, both.outbox[id].(jobId := Some(job)));
    JobKeepsOrders(queued, id, replies, error);
    JobOutcome(queued, id, replies, error);
  }

  predicate Faulted(fault: Option<Statement>) {
    fault in [Some(DetailUpsert), Some(OutboxUpdating), Some(Committing)]
  }

  /** The tables after initiatePayment: unchanged for an existing link, an unpayable ride or a failed save. */
  function PaymentBegun(db: Db, ride: RideId, row: RL.Ride, newOrder: OrderId, job: string, replies: seq<Option<Reply>>,
                        error: string, fault: Option<Statement>): Db {
    var d := Found(db.details, ride);
    if HasLink(d) || GrossAmount(row) <= 0.0 || Faulted(fault) then db
    else AfterInitiation(db, ride, Payload(OrderOf(d, newOrder), GrossAmount(row)), job, replies, error)
  }

  /** The link a proceeding is given: the stored one, or the one in the provider's first answer. */
  function Offered(d: Option<Detail>, row: RL.Ride, replies: seq<Option<Reply>>, fault: Option<Statement>)
    : (url: Option<string>)
    ensures url.Some? ==> url.value != ""
  {
    if HasLink(d) then d.value.redirectUrl
    else if GrossAmount(row) <= 0.0 || Faulted(fault) || FirstAnswer(replies).None? then None
    else if NonEmpty(FirstAnswer(replies).value.redirectUrl) then FirstAnswer(replies).value.redirectUrl
    else None
  }

  /** The order is stored, with a ride and an outbox row wherever it is stored. `StoredOrdersAreKnown` of
      `PaymentInvariants` shows that every stored order is. */
  ghost predicate KnownOrder(db: Db, order: OrderId) {
    && (exists r :: r in db.details && db.details[r].orderId == Some(order))
    && (forall r :: r in db.details && db.details[r].orderId == Some(order) ==>
          r in db.rides && exists id :: id in db.outbox && Matches(db.outbox[id], r, order))
  }

  /** What a notification with this text does to the tables: the ride is PAID without a link exactly for the four success
      texts and untouched otherwise, its detail has the status, order and transaction of the notification and keeps the
      rest, the outbox rows of the order say what the text means, and nothing else changes. */
  ghost predicate SettledAsSaid(before: Db, after: Db, ride: RideId, order: OrderId, text: Option<string>, tx: Option<string>) {
    && (if text.Some? && IsSuccessText(Lower(text.value)) then
          ride in before.rides && after.rides ==
            before.rides[ride := before.rides[ride].(paymentStatus := Some(RL.Paid), paymentUrl := None)]
        else after.rides == before.rides)
    && ride in before.details && ride in after.details && after.details.Keys == before.details.Keys
    && after.details[ride] ==
         Detail(Normalize(text), Some(order), before.details[ride].request, before.details[ride].token,
                before.details[ride].redirectUrl, tx)
    && (forall r :: r in before.details && r != ride ==> after.details[r] == before.details[r])
    && after.outbox.Keys == before.outbox.Keys
    && forall id :: id in before.outbox ==> RowSettledAsSaid(before.outbox[id], after.outbox[id], ride, order, text)
  }

  predicate RowSettledAsSaid(o: Outbox, p: Outbox, ride: RideId, order: OrderId, text: Option<string>) {
    if o.rideId == ride && o.orderId == order then
      && p.status == VerdictOn(text) && (p.lastError.Some? <==> VerdictOn(text).Broken?)
      && p.processed == (o.processed || VerdictOn(text) != Processing)
      && p == o.(status := p.status, lastError := p.lastError, processed := p.processed)
    else p == o
  }

  lemma SettlingFollowsText(db: Db, ride: RideId, n: Notice)
    requires ride in db.rides && ride in db.details
    ensures var s := Normalize(n.status);
            var u := OutboxUpdateFor(s, Successful(s));
            && u.Some?
            && SettledAsSaid(db, Settled(db, ride, NotifiedDetail(db.details[ride], n), Successful(s), n.orderId, u.value),
                             ride, n.orderId, n.status, n.transactionId)
  {
    OutboxFollowsText(n.status);
    ExactlyOneOutcome(n.status);
    var s := Normalize(n.status);
    var u := OutboxUpdateFor(s, Successful(s)).value;
    var after := Settled(db, ride, NotifiedDetail(db.details[ride], n), Successful(s), n.orderId, u);
    forall id | id in db.outbox
      ensures RowSettledAsSaid(db.outbox[id], after.outbox[id], ride, n.orderId, n.status)
    {
    }
  }

  /** The caller may proceed: the rider of a completed ride that is not paid. */
  predicate MayProceed(db: Db, ride: RideId, rider: RL.RiderId) {
    && ride in db.rides && db.rides[ride].riderId == rider
    && db.rides[ride].status.Completed? && db.rides[ride].paymentStatus != Some(RL.Paid)
  }

  // ----- the tables and the operations on them -----

  datatype SaveResult = Saved | RideMissing | OutboxMissing | DatabaseFailed

  datatype NoticeResult = Accepted | Unauthorized | BadRequest | NotFound | NotSaved(cause: SaveResult)

  datatype ProceedResult = Link(url: string) | AlreadyPaid | ProceedNotFound | NotTheRider | ProceedRefused

  datatype InitiateResult = Ready(url: string) | Refused

  class PaymentTables {
    var rides: map<RideId, RL.Ride>
    var details: map<RideId, Detail>
    var outbox: map<OutboxId, Outbox>
    var nextOutbox: OutboxId

    ghost function View(): Db
      reads this
    {
      Db(rides, details, outbox, nextOutbox)
    }

    /** Every row belongs to a stored detail, and a row that has been numbered is never numbered again. */
    ghost predicate Valid()
      reads this
    {
      forall id :: id in outbox ==> id < nextOutbox && outbox[id].rideId in details
    }

    method PersistDetail(ride: RideId, d: Detail)
      modifies this`details
      ensures View() == WithDetail(old(View()), ride, d)
    {
      details := details[ride := d];
    }

    method SaveOutbox(id: OutboxId, o: Outbox)
      modifies this`outbox
      ensures View() == WithOutbox(old(View()), id, o)
    {
      if id in outbox {
        outbox := outbox[id := o.(rideId := outbox[id].rideId, orderId := outbox[id].orderId)];
      } else {
        outbox := outbox[id := o];
      }
    }

    method UpdatePaymentState(ride: RideId, status: RL.PaymentStatus, url: Option<string>)
      requires ride in rides
      modifies this`rides
      ensures View() == WithPaymentState(old(View()), ride, status, url)
    {
      rides := rides[ride := rides[ride].(paymentStatus := Some(status), paymentUrl := url)];
    }

    /** saveDetailAndOutbox: both rows or neither. */
    method SaveDetailAndOutbox(ride: RideId, d: Detail, order: OrderId, request: Payload, fault: Option<Statement>)
      returns (id: Option<OutboxId>)
      modifies this`details, this`outbox, this`nextOutbox
      ensures id.None? ==> View() == old(View())
      ensures id.Some? ==> id.value == old(nextOutbox) && View() == WithDetailAndOutbox(old(View()), ride, d, order, request)
      ensures id.Some? <==> !Faulted(fault)
    {
      var begin := details;
      if fault == Some(DetailUpsert) {
        return None;
      }
      PersistDetail(ride, d);
      var beginOutbox, beginNext := outbox, nextOutbox;
      if fault != Some(OutboxUpdating) {
        outbox := outbox[nextOutbox := NewOutbox(ride, order, request)];
        nextOutbox := nextOutbox + 1;
        if fault != Some(Committing) {
          return Some(beginNext);
        }
      }
      details, outbox, nextOutbox := begin, beginOutbox, beginNext;
      return None;
    }

    /** saveDetailWithRideUpdate: the detail, the ride and every outbox row of the order change together, or a failing
        statement, a missing ride or a missing outbox row rolls all of them back. */
    method SaveDetailWithRideUpdate(
      ride: RideId, d: Detail, paid: bool, order: OrderId, u: OutboxUpdate, fault: Option<Statement>)
      returns (result: SaveResult)
      modifies this`rides, this`details, this`outbox
      ensures result.Saved? ==> (paid ==> ride in old(rides)) && View() == Settled(old(View()), ride, d, paid, order, u)
      ensures !result.Saved? ==> View() == old(View())
      ensures fault.None? ==>
        result == if paid && ride !in old(rides) then RideMissing
                  else if forall id :: id in old(outbox) ==> !Matches(old(outbox)[id], ride, order) then OutboxMissing
                  else Saved
    {
      var begin, beginDetails, beginOutbox := rides, details, outbox;
      result := Saved;
      if fault == Some(DetailUpsert) {
        result := DatabaseFailed;
      } else {
        PersistDetail(ride, d);
        if paid {
          if fault == Some(RideUpdate) {
            result := DatabaseFailed;
          } else if ride !in rides {
            result := RideMissing;
          } else {
            UpdatePaymentState(ride, RL.Paid, None);
          }
        }
        if result.Saved? {
          var touched := set id | id in outbox && Matches(outbox[id], ride, order);
          if fault == Some(OutboxUpdating) {
            result := DatabaseFailed;
          } else if touched == {} {
            assert forall id :: id in outbox && Matches(outbox[id], ride, order) ==> id in touched;
            result := OutboxMissing;
          } else {
            outbox := OutboxUpdated(outbox, ride, order, u);
            if fault == Some(Committing) {
              result := DatabaseFailed;
            }
          }
        }
      }
      if !result.Saved? {
        rides, details, outbox := begin, beginDetails, beginOutbox;
      }
    }

    /** handlePaymentNotification. `allowed` is the answer of the IP whitelist. */
    method HandlePaymentNotification(
      allowed: bool, order: Option<OrderId>, status: Option<string>, transaction: Option<string>, fault: Option<Statement>)
      returns (result: NoticeResult, ghost about: RideId)
      modifies this`rides, this`details, this`outbox
      ensures !allowed ==> result == Unauthorized
      ensures allowed && order.None? ==> result == BadRequest
      ensures allowed && order.Some? && (forall r :: r in old(details) ==> old(details)[r].orderId != order) ==>
                result == NotFound
      ensures allowed && order.Some? && fault.None? && KnownOrder(old(View()), order.value) ==> result == Accepted
      ensures !result.Accepted? ==> View() == old(View())
      ensures result.Accepted? ==>
        && order.Some? && about in old(rides) && about in old(details) && old(details)[about].orderId == order
        && var n := Notice(order.value, status, transaction);
           var s := Normalize(status);
           && OutboxUpdateFor(s, Successful(s)).Some?
           && View() == Settled(old(View()), about, NotifiedDetail(old(details)[about], n), Successful(s), order.value,
                                OutboxUpdateFor(s, Successful(s)).value)
      ensures result.Accepted? ==> SettledAsSaid(old(View()), View(), about, order.value, status, transaction)
    {
      about := 0;
      if !allowed {
        return Unauthorized, 0;
      }
      if order.None? {
        return BadRequest, 0;
      }
      var found := set r | r in details && details[r].orderId == order;
      assert forall r :: r in details && details[r].orderId == order ==> r in found;
      if found == {} {
        return NotFound, 0;
      }
      var ride :| ride in found;
      if ride !in rides {
        return NotFound, 0;
      }
      var s := Normalize(status);
      OutboxFollowsText(status);
      var u := OutboxUpdateFor(s, Successful(s)).value;
      var saved := SaveDetailWithRideUpdate(ride, NotifiedDetail(details[ride], Notice(order.value, status, transaction)),
                                            Successful(s), order.value, u, fault);
      SettlingFollowsText(old(View()), ride, Notice(order.value, status, transaction));
      result := if saved.Saved? then Accepted else NotSaved(saved);
      about := ride;
    }

    /** processOutbox: one attempt of the queue worker. */
    method ProcessOutbox(id: OutboxId, reply: Option<Reply>, error: string) returns (ok: bool)
      modifies this`details, this`outbox
      ensures id !in old(outbox) || old(outbox)[id].rideId !in old(details) ==> !ok && View() == old(View())
      ensures id in old(outbox) && old(outbox)[id].rideId in old(details) ==>
        ok == reply.Some? && View() == AfterAttempt(old(View()), id, reply, error)
    {
      if id !in outbox {
        return false;
      }
      var o := outbox[id];
      if o.rideId !in details {
        return false;
      }
      var d := details[o.rideId];
      o := Attempted(o);
      SaveOutbox(id, o);
      if reply.Some? {
        d := RepliedDetail(d, o, reply.value);
        PersistDetail(o.rideId, d);
        o := o.(status := Done, lastError := None, processed := true);
        SaveOutbox(id, o);
      } else {
        o := o.(status := Broken, lastError := Some(error));
        SaveOutbox(id, o);
        d := d.(status := Failed);
        PersistDetail(o.rideId, d);
      }
      return reply.Some?;
    }

    /** The queue's job: attempts until one succeeds or all are used up. */
    method RunJob(id: OutboxId, replies: seq<Option<Reply>>, error: string) returns (ok: bool)
      requires Valid() && id in outbox
      modifies this`details, this`outbox
      ensures Valid() && View() == AfterJob(old(View()), id, replies, error)
      ensures ok <==> exists i :: 0 <= i < |replies| && replies[i].Some?
    {
      ok := false;
      var i := 0;
      while i < |replies| && !ok
        invariant 0 <= i <= |replies| && Valid() && id in outbox
        invariant !ok ==> AfterJob(old(View()), id, replies, error) == AfterJob(View(), id, replies[i..], error)
        invariant ok ==> View() == AfterJob(old(View()), id, replies, error)
        invariant ok <==> exists j :: 0 <= j < i && replies[j].Some?
        decreases |replies| - i, !ok
      {
        assert replies[i..][0] == replies[i] && replies[i..][1..] == replies[i + 1..];
        ok := ProcessOutbox(id, replies[i], error);
        i := i + 1;
      }
    }

    /** initiatePayment: gives the link that is already there, or queues a request and waits for the job. */
    method InitiatePayment(
      ride: RideId, row: RL.Ride, newOrder: OrderId, job: string, replies: seq<Option<Reply>>, error: string,
      fault: Option<Statement>)
      returns (result: InitiateResult)
      requires Valid()
      modifies this`details, this`outbox, this`nextOutbox
      ensures Valid() && OrdersKept(old(View()), View(), ride)
      ensures View() == PaymentBegun(old(View()), ride, row, newOrder, job, replies, error, fault)
      ensures var url := Offered(old(Found(details, ride)), row, replies, fault);
              result == if url.Some? then Ready(url.value) else Refused
      ensures result.Ready? ==> ride in details && details[ride].redirectUrl == Some(result.url)
    {
      var d := Found(details, ride);
      if HasLink(d) {
        return Ready(d.value.redirectUrl.value);
      }
      var order := OrderOf(d, newOrder);
      var gross := GrossAmount(row);
      if gross <= 0.0 {
        return Refused;
      }
      var request := Payload(order, gross);
      var saved := SaveDetailAndOutbox(ride, QueuedDetail(d, request), order, request, fault);
      if saved.None? {
        return Refused;
      }
      var id := saved.value;
      var savedOutbox := outbox[id];
      SaveOutbox(id, savedOutbox.(jobId := Some(job)));
      InitiationOutcome(old(View()), ride, request, job, replies, error);
      var ok := RunJob(id, replies, error);
      if !ok || !NonEmpty(details[ride].redirectUrl) {
        return Refused;
      }
      return Ready(details[ride].redirectUrl.value);
    }

    /** proceedRidePayment: only the rider of a completed ride proceeds; a link handed out is the stored one and puts
        the ride ON_PROCESS; every other outcome leaves the ride row alone. */
    method ProceedRidePayment(
      rideId: RideId, riderId: RL.RiderId, newOrder: OrderId, job: string, replies: seq<Option<Reply>>, error: string,
      fault: Option<Statement>)
      returns (result: ProceedResult)
      requires Valid()
      modifies this`rides, this`details, this`outbox, this`nextOutbox
      ensures Valid() && OrdersKept(old(View()), View(), rideId)
      ensures result.ProceedNotFound? <==> rideId !in old(rides)
      ensures result.NotTheRider? <==> rideId in old(rides) && old(rides)[rideId].riderId != riderId
      ensures result.AlreadyPaid? <==>
        && rideId in old(rides) && old(rides)[rideId].riderId == riderId
        && old(rides)[rideId].status.Completed? && old(rides)[rideId].paymentStatus == Some(RL.Paid)
      ensures !MayProceed(old(View()), rideId, riderId) ==> !result.Link? && View() == old(View())
      ensures MayProceed(old(View()), rideId, riderId) ==>
                var row := old(rides)[rideId];
                var url := Offered(old(Found(details, rideId)), row, replies, fault);
                var db := PaymentBegun(old(View()), rideId, row, newOrder, job, replies, error, fault);
                && db.rides == old(rides)
                && (if url.Some? then result == Link(url.value) && View() == WithPaymentState(db, rideId, RL.OnProcess, url)
                    else result == ProceedRefused && View() == db)
      ensures result.Link? ==> rideId in details && details[rideId].redirectUrl == Some(result.url)
    {
      if rideId !in rides {
        return ProceedNotFound;
      }
      var ride := rides[rideId];
      if ride.riderId != riderId {
        return NotTheRider;
      }
      if !ride.status.Completed? {
        return ProceedRefused;
      }
      if ride.paymentStatus == Some(RL.Paid) {
        return AlreadyPaid;
      }
      var initiated := InitiatePayment(rideId, ride, newOrder, job, replies, error, fault);
      if initiated.Refused? {
        return ProceedRefused;
      }
      UpdatePaymentState(rideId, RL.OnProcess, Some(initiated.url));
      return Link(initiated.url);
    }
  }
}
