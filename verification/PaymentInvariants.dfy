/** What every run of the payment protocol keeps, when an order id can change, and when a payment stays paid. */
module PaymentInvariants {
  import opened Base
  import opened PaymentStatuses
  import opened PaymentStore
  import opened PaymentProtocol
  import RL = RideLifecycle

  // ----- what only grows -----

  predicate SameFare(before: RL.Ride, after: RL.Ride) {
    after == before.(paymentStatus := after.paymentStatus, paymentUrl := after.paymentUrl)
  }

  predicate SameOrder(d: Detail, e: Detail) {
    d.orderId == e.orderId && d.request == e.request
  }

  ghost predicate DbGrows(before: Db, after: Db) {
    && before.rides.Keys == after.rides.Keys && before.nextOutbox <= after.nextOutbox
    && (forall r :: r in before.rides ==> SameFare(before.rides[r], after.rides[r]))
    && (forall r :: r in before.details ==> r in after.details && SameOrder(before.details[r], after.details[r]))
    && (forall id :: id in before.outbox ==> id in after.outbox && SameRequest(before.outbox[id], after.outbox[id]))
  }

  /** Fares never change; an order id and its request are stored once and stay; outbox rows stay with their request. */
  ghost predicate Grows(s: State, t: State) {
    && DbGrows(s.db, t.db)
    && (forall o :: o in s.owner ==> o in t.owner && t.owner[o] == s.owner[o])
    && s.settlements <= t.settlements
  }

  // ----- the invariant -----

  predicate DetailOk(s: State, r: RideId)
    requires r in s.db.details
  {
    var d := s.db.details[r];
    && r in s.db.rides && d.orderId.Some? && d.request == Some(Payload(d.orderId.value, GrossAmount(s.db.rides[r])))
    && d.orderId.value in s.owner && s.owner[d.orderId.value] == r
    && HasRow(s.db, r, d.orderId.value)
  }

  predicate RowOk(s: State, id: OutboxId)
    requires id in s.db.outbox
  {
    id < s.db.nextOutbox && RowFits(s.db, s.db.outbox[id])
  }

  predicate CopyOk(s: State, r: RideId, d: Detail) {
    r in s.db.details && SameOrder(s.db.details[r], d)
  }

  predicate RowCopyOk(s: State, id: OutboxId, row: Outbox) {
    id in s.db.outbox && SameRequest(s.db.outbox[id], row)
  }

  predicate StageOk(s: State, r: RideId, x: Stage) {
    match x
    case Prepared(d, order, request, first) =>
      && r in s.db.rides && d.status.Queued? && d.orderId == Some(order) && d.request == Some(request)
      && request == Payload(order, GrossAmount(s.db.rides[r]))
      && order in s.owner && s.owner[order] == r
      && (if first then r in s.db.details ==> s.db.details[r].orderId != Some(order)
          else r in s.db.details && s.db.details[r].orderId == Some(order))
    case Enqueued(id, copy) => RowCopyOk(s, id, copy)
    case Finishing(url) => url != ""
    case _ => true
  }

  predicate FlightOk(s: State, f: nat)
    requires f in s.flights
  {
    var x := s.flights[f];
    x.ride in s.db.rides && (IsPaid(s, x.ride) ==> x.overtaken) && StageOk(s, x.ride, x.stage)
  }

  predicate AttemptOk(s: State, a: nat)
    requires a in s.attempts
  {
    var x := s.attempts[a];
    RowCopyOk(s, x.id, x.row) && (!x.Picked? ==> CopyOk(s, x.row.rideId, x.detail))
  }

  predicate NoticeOk(s: State, n: nat)
    requires n in s.notices
  {
    var x := s.notices[n];
    CopyOk(s, x.ride, x.detail) && x.detail.orderId == Some(x.notice.orderId)
  }

  predicate PaidOk(s: State, r: RideId) {
    IsPaid(s, r) ==>
      && r in s.db.details && s.db.details[r].orderId.Some?
      && Settlement.Settlement(r, s.db.details[r].orderId.value) in s.settlements
  }

  predicate PreparesFirst(s: State, f: nat) {
    f in s.flights && s.flights[f].stage.Prepared? && s.flights[f].stage.first
  }

  /** Generated order ids are never shared. */
  ghost predicate FirstsApart(s: State) {
    forall f, g :: PreparesFirst(s, f) && PreparesFirst(s, g) && s.flights[f].stage.order == s.flights[g].stage.order
      ==> f == g
  }

  ghost predicate Inv(s: State) {
    && (forall r :: r in s.db.details ==> DetailOk(s, r))
    && (forall id :: id in s.db.outbox ==> RowOk(s, id))
    && (forall f :: f in s.flights ==> FlightOk(s, f))
    && (forall a :: a in s.attempts ==> AttemptOk(s, a))
    && (forall n :: n in s.notices ==> NoticeOk(s, n))
    && (forall r :: r in s.db.rides ==> PaidOk(s, r))
    && FirstsApart(s)
  }

  // ----- every step keeps it -----

  /** Writing back a stale detail keeps the orders, because the copy still has them. */
  lemma WritingADetail(db: Db, r: RideId, d: Detail)
    requires r in db.details && SameOrder(db.details[r], d)
    ensures DbGrows(db, WithDetail(db, r, d))
  {
  }

  lemma WritingARow(db: Db, id: OutboxId, row: Outbox)
    requires id in db.outbox && SameRequest(db.outbox[id], row)
    ensures DbGrows(db, WithOutbox(db, id, row))
  {
  }

  lemma WritingBoth(db: Db, r: RideId, d: Detail, order: OrderId, request: Payload)
    requires r in db.details ==> SameOrder(db.details[r], d)
    requires db.nextOutbox !in db.outbox
    ensures DbGrows(db, WithDetailAndOutbox(db, r, d, order, request))
  {
  }

  lemma WritingTheState(db: Db, r: RideId, status: RL.PaymentStatus, url: Option<string>)
    requires r in db.rides
    ensures DbGrows(db, WithPaymentState(db, r, status, url))
  {
  }

  lemma Settling(db: Db, r: RideId, d: Detail, paid: bool, order: OrderId, u: OutboxUpdate)
    requires r in db.details && SameOrder(db.details[r], d) && (paid ==> r in db.rides)
    ensures DbGrows(db, Settled(db, r, d, paid, order, u))
  {
  }

  function FlightOf(step: Step): Option<nat> {
    match step
    case ReuseLink(f) => Some(f)
    case Prepare(f, _) => Some(f)
    case SaveBoth(f) => Some(f)
    case SaveJobId(f, _) => Some(f)
    case Refresh(f) => Some(f)
    case WriteOnProcess(f) => Some(f)
    case GiveUp(f) => Some(f)
    case _ => None
  }

  function AttemptOf(step: Step): Option<nat> {
    match step
    case Load(a) => Some(a)
    case MarkProcessing(a) => Some(a)
    case StoreReply(a, _) => Some(a)
    case MarkDone(a) => Some(a)
    case MarkFailed(a, _) => Some(a)
    case FailDetail(a) => Some(a)
    case Crash(a) => Some(a)
    case _ => None
  }

  lemma FlightGrows(s: State, step: Step)
    requires Enabled(s, step) && FlightOf(step).Some? && FlightOk(s, FlightOf(step).value)
    requires var r := s.flights[FlightOf(step).value].ride; r in s.db.details ==> DetailOk(s, r) && !LateSave(s, step)
    requires s.db.nextOutbox !in s.db.outbox
    ensures Grows(s, Apply(s, step))
  {
    var x := s.flights[FlightOf(step).value];
    if step.SaveBoth? {
      WritingBoth(s.db, x.ride, x.stage.detail, x.stage.order, x.stage.request);
    } else if step.SaveJobId? {
      WritingARow(s.db, x.stage.id, x.stage.copy.(jobId := Some(step.job)));
    } else if step.WriteOnProcess? {
      WritingTheState(s.db, x.ride, RL.OnProcess, Some(x.stage.url));
    }
  }

  lemma AttemptGrows(s: State, step: Step)
    requires Enabled(s, step) && AttemptOf(step).Some? && AttemptOk(s, AttemptOf(step).value)
    requires RowOk(s, s.attempts[AttemptOf(step).value].id)
    ensures Grows(s, Apply(s, step))
  {
    var x := s.attempts[AttemptOf(step).value];
    match step
    case MarkProcessing(_) => WritingARow(s.db, x.id, x.row);
    case StoreReply(_, reply) => WritingADetail(s.db, x.row.rideId, RepliedDetail(x.detail, x.row, reply));
    case MarkDone(_) => WritingARow(s.db, x.id, x.row.(status := Done, lastError := None, processed := true));
    case MarkFailed(_, error) => WritingARow(s.db, x.id, x.row.(status := Broken, lastError := Some(error)));
    case FailDetail(_) => WritingADetail(s.db, x.row.rideId, x.detail.(status := Failed));
    case _ =>
  }

  lemma NoticeGrows(s: State, step: Step)
    requires Enabled(s, step) && step.CommitNotice? && NoticeOk(s, step.n)
    ensures Grows(s, Apply(s, step))
  {
    var x := s.notices[step.n];
    Settling(s.db, x.ride, NotifiedDetail(x.detail, x.notice), Pays(x.notice), x.notice.orderId, Outcome(x.notice));
  }

  lemma InvOfFlight(s: State, f: nat)
    requires Inv(s) && f in s.flights
    ensures FlightOk(s, f) && s.db.nextOutbox !in s.db.outbox
    ensures s.flights[f].ride in s.db.details ==> DetailOk(s, s.flights[f].ride)
  {
    assert s.db.nextOutbox in s.db.outbox ==> RowOk(s, s.db.nextOutbox);
  }

  lemma InvOfAttempt(s: State, a: nat)
    requires Inv(s) && a in s.attempts
    ensures AttemptOk(s, a) && RowOk(s, s.attempts[a].id)
  {
  }

  lemma StepGrows(s: State, step: Step)
    requires Inv(s) && Enabled(s, step) && !LateSave(s, step)
    ensures Grows(s, Apply(s, step))
  {
    if FlightOf(step).Some? {
      InvOfFlight(s, FlightOf(step).value);
      FlightGrows(s, step);
    } else if AttemptOf(step).Some? {
      InvOfAttempt(s, AttemptOf(step).value);
      AttemptGrows(s, step);
    } else if step.CommitNotice? {
      NoticeGrows(s, step);
    } else {
      OtherStepsOnlyRead(s, step);
    }
  }

  lemma OtherStepsOnlyRead(s: State, step: Step)
    requires Enabled(s, step) && FlightOf(step).None? && AttemptOf(step).None? && !step.CommitNotice?
    ensures Apply(s, step).db == s.db && Grows(s, Apply(s, step))
  {
  }

  lemma DetailStaysOk(s: State, t: State, r: RideId)
    requires Grows(s, t) && r in s.db.details && DetailOk(s, r)
    ensures r in t.db.details && DetailOk(t, r)
  {
    var order := s.db.details[r].orderId.value;
    var id :| id in s.db.outbox && Matches(s.db.outbox[id], r, order);
    assert Matches(t.db.outbox[id], r, order);
  }

  lemma RowStaysOk(s: State, t: State, id: OutboxId)
    requires Grows(s, t) && id in s.db.outbox && RowOk(s, id)
    ensures id in t.db.outbox && RowOk(t, id)
  {
  }

  lemma StageStaysOk(s: State, t: State, r: RideId, x: Stage)
    requires Grows(s, t) && r in s.db.rides && StageOk(s, r, x)
    requires x.Prepared? && x.first && r !in s.db.details && r in t.db.details ==> t.db.details[r].orderId != Some(x.order)
    ensures StageOk(t, r, x)
  {
  }

  lemma PaidStaysOk(s: State, t: State, r: RideId)
    requires Grows(s, t) && PaidOk(s, r) && (IsPaid(t, r) ==> IsPaid(s, r))
    ensures PaidOk(t, r)
  {
  }

  ghost predicate SameKeys(before: Db, after: Db) {
    after.details.Keys == before.details.Keys && after.outbox.Keys == before.outbox.Keys
  }

  lemma FlightsAddNoKeys(s: State, step: Step)
    requires Enabled(s, step) && FlightOf(step).Some? && FlightOk(s, FlightOf(step).value) && !step.SaveBoth?
    ensures SameKeys(s.db, Apply(s, step).db)
  {
  }

  lemma AttemptsAddNoKeys(s: State, step: Step)
    requires Enabled(s, step) && AttemptOf(step).Some? && AttemptOk(s, AttemptOf(step).value)
    requires RowOk(s, s.attempts[AttemptOf(step).value].id)
    ensures SameKeys(s.db, Apply(s, step).db)
  {
    var x := s.attempts[AttemptOf(step).value];
    assert x.row.rideId in s.db.details && x.id in s.db.outbox;
  }

  lemma NoticesAddNoKeys(s: State, step: Step)
    requires Enabled(s, step) && step.CommitNotice? && NoticeOk(s, step.n)
    ensures SameKeys(s.db, Apply(s, step).db)
  {
  }

  /** Only saveDetailAndOutbox adds rows: everyone else writes to rows that are there. */
  lemma KeysStay(s: State, step: Step)
    requires Inv(s) && Enabled(s, step) && !step.SaveBoth?
    ensures SameKeys(s.db, Apply(s, step).db)
  {
    if FlightOf(step).Some? {
      InvOfFlight(s, FlightOf(step).value);
      FlightsAddNoKeys(s, step);
    } else if AttemptOf(step).Some? {
      InvOfAttempt(s, AttemptOf(step).value);
      AttemptsAddNoKeys(s, step);
    } else if step.CommitNotice? {
      NoticesAddNoKeys(s, step);
    } else {
      OtherStepsOnlyRead(s, step);
    }
  }

  /** saveDetailAndOutbox adds an outbox row with the order and the request of the detail it saves. */
  lemma SavedBothOk(s: State, step: Step)
    requires Inv(s) && Enabled(s, step) && step.SaveBoth?
    ensures var t := Apply(s, step);
            && t.db.details.Keys == s.db.details.Keys + {s.flights[step.f].ride} && DetailOk(t, s.flights[step.f].ride)
            && t.db.outbox.Keys == s.db.outbox.Keys + {s.db.nextOutbox} && RowOk(t, s.db.nextOutbox)
  {
    InvOfFlight(s, step.f);
    var x := s.flights[step.f];
    assert Matches(Apply(s, step).db.outbox[s.db.nextOutbox], x.ride, x.stage.order);
  }

  lemma DetailsOk(s: State, step: Step)
    requires Inv(s) && Enabled(s, step) && !LateSave(s, step)
    ensures var t := Apply(s, step); forall r :: r in t.db.details ==> DetailOk(t, r)
  {
    var t := Apply(s, step);
    StepGrows(s, step);
    if step.SaveBoth? {
      SavedBothOk(s, step);
    } else {
      KeysStay(s, step);
    }
    forall r | r in t.db.details
      ensures DetailOk(t, r)
    {
      if r in s.db.details {
        DetailStaysOk(s, t, r);
      }
    }
  }

  lemma RowsOk(s: State, step: Step)
    requires Inv(s) && Enabled(s, step) && !LateSave(s, step)
    ensures var t := Apply(s, step); forall id :: id in t.db.outbox ==> RowOk(t, id)
  {
    var t := Apply(s, step);
    StepGrows(s, step);
    if step.SaveBoth? {
      SavedBothOk(s, step);
    } else {
      KeysStay(s, step);
    }
    forall id | id in t.db.outbox
      ensures RowOk(t, id)
    {
      if id in s.db.outbox {
        RowStaysOk(s, t, id);
      }
    }
  }

  predicate PaysFor(s: State, step: Step, r: RideId) {
    step.CommitNotice? && step.n in s.notices && s.notices[step.n].ride == r && Pays(s.notices[step.n].notice)
  }

  predicate Reopens(s: State, step: Step, r: RideId) {
    step.WriteOnProcess? && step.f in s.flights && s.flights[step.f].ride == r
  }

  /** Two writers touch the payment state of a ride. */
  lemma PaidAfter(s: State, step: Step, r: RideId)
    requires Enabled(s, step)
    ensures IsPaid(Apply(s, step), r) <==> !Reopens(s, step, r) && (IsPaid(s, r) || PaysFor(s, step, r))
  {
    if step.SaveBoth? || step.SaveJobId? || AttemptOf(step).Some? {
      assert Apply(s, step).db.rides == s.db.rides;
    }
  }

  lemma FlightAfter(s: State, step: Step, f: nat)
    requires Enabled(s, step) && f in s.flights && FlightOf(step) != Some(f)
    ensures f in Apply(s, step).flights
    ensures Apply(s, step).flights[f] ==
            if PaysFor(s, step, s.flights[f].ride) then s.flights[f].(overtaken := true) else s.flights[f]
  {
  }

  lemma FlightRides(s: State, step: Step, f: nat)
    requires Enabled(s, step) && f in Apply(s, step).flights
    ensures || step == Check(f, Apply(s, step).flights[f].ride)
            || (f in s.flights && Apply(s, step).flights[f].ride == s.flights[f].ride)
  {
  }

  lemma FlightsOk(s: State, step: Step)
    requires Inv(s) && Enabled(s, step) && !LateSave(s, step)
    ensures var t := Apply(s, step); forall f :: f in t.flights ==> FlightOk(t, f)
  {
    var t := Apply(s, step);
    forall f | f in t.flights
      ensures FlightOk(t, f)
    {
      FlightRides(s, step, f);
      if f in s.flights && FlightOf(step) != Some(f) {
        OtherFlightOk(s, step, f);
      } else {
        MovedFlightOk(s, step);
      }
    }
  }

  /** A flight that does not move keeps what it knows, and is marked when its ride becomes paid. */
  lemma OtherFlightOk(s: State, step: Step, f: nat)
    requires Inv(s) && Enabled(s, step) && !LateSave(s, step) && f in s.flights && FlightOf(step) != Some(f)
    ensures f in Apply(s, step).flights && FlightOk(Apply(s, step), f)
  {
    var t := Apply(s, step);
    var x := s.flights[f];
    assert FlightOk(s, f);
    StepGrows(s, step);
    FlightAfter(s, step, f);
    PaidAfter(s, step, x.ride);
    if PreparesFirst(s, f) && x.ride !in s.db.details {
      NewDetailDiffers(s, step, f);
    }
    StageStaysOk(s, t, x.ride, x.stage);
  }

  /** A detail that another flight stores meanwhile carries another order. */
  lemma NewDetailDiffers(s: State, step: Step, f: nat)
    requires Inv(s) && Enabled(s, step) && PreparesFirst(s, f) && FlightOf(step) != Some(f)
    requires s.flights[f].ride !in s.db.details
    ensures var t := Apply(s, step);
            s.flights[f].ride in t.db.details ==> t.db.details[s.flights[f].ride].orderId != Some(s.flights[f].stage.order)
  {
    if step.SaveBoth? {
      InvOfFlight(s, step.f);
      SavedBothOk(s, step);
      if s.flights[step.f].ride == s.flights[f].ride {
        assert PreparesFirst(s, step.f);
        assert s.flights[step.f].stage.order != s.flights[f].stage.order;
      }
    } else {
      KeysStay(s, step);
    }
  }

  lemma PreparedBefore(s: State, step: Step, f: nat)
    requires Enabled(s, step) && PreparesFirst(Apply(s, step), f) && !(step.Prepare? && step.f == f)
    ensures PreparesFirst(s, f) && Apply(s, step).flights[f].stage == s.flights[f].stage
  {
  }

  lemma FirstsStayApart(s: State, step: Step)
    requires Inv(s) && Enabled(s, step)
    ensures FirstsApart(Apply(s, step))
  {
    var t := Apply(s, step);
    forall f | PreparesFirst(s, f)
      ensures s.flights[f].stage.order in s.owner
    {
      assert FlightOk(s, f);
    }
    forall f, g | PreparesFirst(t, f) && PreparesFirst(t, g) && t.flights[f].stage.order == t.flights[g].stage.order
      ensures f == g
    {
      if !(step.Prepare? && step.f == f) {
        PreparedBefore(s, step, f);
      }
      if !(step.Prepare? && step.f == g) {
        PreparedBefore(s, step, g);
      }
    }
  }

  lemma MovedFlightOk(s: State, step: Step)
    requires Inv(s) && Enabled(s, step) && !LateSave(s, step)
    requires step.Check? || FlightOf(step).Some?
    ensures var t := Apply(s, step);
            var f := if step.Check? then step.f else FlightOf(step).value;
            f in t.flights ==> FlightOk(t, f)
  {
    if !step.Check? {
      InvOfFlight(s, FlightOf(step).value);
    }
  }

  lemma AttemptStaysOk(s: State, t: State, a: nat)
    requires Grows(s, t) && a in s.attempts && AttemptOk(s, a)
    requires a in t.attempts && t.attempts[a] == s.attempts[a]
    ensures AttemptOk(t, a)
  {
  }

  lemma MovedAttemptOk(s: State, step: Step, a: nat)
    requires AttemptOf(step) == Some(a) && Enabled(s, step) && Grows(s, Apply(s, step))
    requires AttemptOk(s, a) && RowOk(s, s.attempts[a].id) && a in Apply(s, step).attempts
    ensures AttemptOk(Apply(s, step), a)
  {
    var t := Apply(s, step);
    assert SameRequest(s.db.outbox[s.attempts[a].id], t.db.outbox[s.attempts[a].id]);
    assert SameOrder(s.db.details[s.attempts[a].row.rideId], t.db.details[s.attempts[a].row.rideId]);
  }

  lemma OtherAttempts(s: State, step: Step, a: nat)
    requires Enabled(s, step) && a in Apply(s, step).attempts && AttemptOf(step) != Some(a) && !(step.Pick? && step.a == a)
    ensures a in s.attempts && Apply(s, step).attempts[a] == s.attempts[a]
  {
  }

  lemma AttemptsOk(s: State, step: Step)
    requires Inv(s) && Enabled(s, step) && !LateSave(s, step)
    ensures var t := Apply(s, step); forall a :: a in t.attempts ==> AttemptOk(t, a)
  {
    var t := Apply(s, step);
    StepGrows(s, step);
    forall a | a in t.attempts
      ensures AttemptOk(t, a)
    {
      if AttemptOf(step) == Some(a) {
        assert AttemptOk(s, a);
        MovedAttemptOk(s, step, a);
      } else if step.Pick? && step.a == a {
        assert RowCopyOk(s, step.id, s.db.outbox[step.id]);
      } else {
        OtherAttempts(s, step, a);
        AttemptStaysOk(s, t, a);
      }
    }
  }

  lemma NoticeStaysOk(s: State, t: State, n: nat)
    requires Grows(s, t) && n in s.notices && NoticeOk(s, n) && n in t.notices && t.notices[n] == s.notices[n]
    ensures NoticeOk(t, n)
  {
  }

  lemma OtherNotices(s: State, step: Step, n: nat)
    requires Enabled(s, step) && n in Apply(s, step).notices && !(step.Receive? && step.n == n)
    ensures n in s.notices && Apply(s, step).notices[n] == s.notices[n]
  {
  }

  lemma NoticesOk(s: State, step: Step)
    requires Inv(s) && Enabled(s, step) && !LateSave(s, step)
    ensures var t := Apply(s, step); forall n :: n in t.notices ==> NoticeOk(t, n)
  {
    var t := Apply(s, step);
    StepGrows(s, step);
    forall n | n in t.notices
      ensures NoticeOk(t, n)
    {
      if step.Receive? && step.n == n {
        assert CopyOk(t, step.ride, t.notices[n].detail);
      } else {
        OtherNotices(s, step, n);
        NoticeStaysOk(s, t, n);
      }
    }
  }

  lemma PaymentsOk(s: State, step: Step)
    requires Inv(s) && Enabled(s, step) && !LateSave(s, step)
    ensures var t := Apply(s, step); forall r :: r in t.db.rides ==> PaidOk(t, r)
  {
    var t := Apply(s, step);
    StepGrows(s, step);
    forall r | r in t.db.rides
      ensures PaidOk(t, r)
    {
      assert PaidOk(s, r);
      PaidAfter(s, step, r);
      if PaysFor(s, step, r) {
        assert NoticeOk(s, step.n);
      } else {
        PaidStaysOk(s, t, r);
      }
    }
  }

  lemma StepKeepsInv(s: State, step: Step)
    requires Inv(s) && Enabled(s, step) && !LateSave(s, step)
    ensures Inv(Apply(s, step)) && Grows(s, Apply(s, step))
  {
    StepGrows(s, step);
    DetailsOk(s, step);
    RowsOk(s, step);
    FlightsOk(s, step);
    FirstsStayApart(s, step);
    AttemptsOk(s, step);
    NoticesOk(s, step);
    PaymentsOk(s, step);
  }

  // ----- whole runs -----

  lemma GrowsTwice(s: State, t: State, u: State)
    requires Grows(s, t) && Grows(t, u)
    ensures Grows(s, u)
  {
    forall id | id in s.db.outbox
      ensures id in u.db.outbox && SameRequest(s.db.outbox[id], u.db.outbox[id])
    {
      assert SameRequest(s.db.outbox[id], t.db.outbox[id]);
    }
    forall r | r in s.db.details
      ensures r in u.db.details && SameOrder(s.db.details[r], u.db.details[r])
    {
      assert SameOrder(s.db.details[r], t.db.details[r]);
    }
    forall r | r in s.db.rides
      ensures SameFare(s.db.rides[r], u.db.rides[r])
    {
      assert SameFare(s.db.rides[r], t.db.rides[r]) && SameFare(t.db.rides[r], u.db.rides[r]);
    }
  }

  lemma {:induction false} RunKeepsInv(s: State, steps: seq<Step>)
    requires Inv(s) && AllEnabled(s, steps) && Timely(s, steps)
    ensures Inv(Run(s, steps)) && Grows(s, Run(s, steps))
    decreases |steps|
  {
    if steps != [] {
      StepKeepsInv(s, steps[0]);
      RunKeepsInv(Apply(s, steps[0]), steps[1..]);
      GrowsTwice(s, Apply(s, steps[0]), Run(s, steps));
    }
  }

  lemma InitialInv(s: State)
    requires Initial(s)
    ensures Inv(s) && OneByOne(s)
  {
    forall r | r in s.db.rides
      ensures PaidOk(s, r)
    {
      assert !IsPaid(s, r);
    }
  }

  // ----- what serial proceedings add -----

  ghost predicate OneFlightEach(s: State) {
    forall f, g :: f in s.flights && g in s.flights && s.flights[f].ride == s.flights[g].ride ==> f == g
  }

  /** Nobody stores a first detail behind the back of a flight that prepares one. */
  predicate Alone(s: State, x: Flight) {
    x.stage.Prepared? && x.stage.first ==> x.ride !in s.db.details
  }

  ghost predicate OneByOne(s: State) {
    OneFlightEach(s) && forall f :: f in s.flights ==> Alone(s, s.flights[f])
  }

  lemma OneFlightStays(s: State, step: Step)
    requires OneFlightEach(s) && Enabled(s, step) && Serial(s, step)
    ensures OneFlightEach(Apply(s, step))
  {
    var t := Apply(s, step);
    forall f, g | f in t.flights && g in t.flights && t.flights[f].ride == t.flights[g].ride
      ensures f == g
    {
      FlightRides(s, step, f);
      FlightRides(s, step, g);
    }
  }

  lemma OtherStaysAlone(s: State, step: Step, f: nat)
    requires Inv(s) && OneByOne(s) && Enabled(s, step) && !LateSave(s, step) && f in s.flights && FlightOf(step) != Some(f)
    ensures f in Apply(s, step).flights && Alone(Apply(s, step), Apply(s, step).flights[f])
  {
    var t := Apply(s, step);
    var x := s.flights[f];
    assert Alone(s, x) && FlightOk(s, f);
    FlightAfter(s, step, f);
    if step.SaveBoth? {
      SavedBothOk(s, step);
      assert s.flights[step.f].ride != x.ride;
    } else {
      KeysStay(s, step);
    }
  }

  lemma MovedStaysAlone(s: State, step: Step)
    requires Inv(s) && OneByOne(s) && Enabled(s, step)
    requires step.Check? || FlightOf(step).Some?
    ensures var t := Apply(s, step);
            var f := if step.Check? then step.f else FlightOf(step).value;
            f in t.flights ==> Alone(t, t.flights[f])
  {
    if !step.Check? {
      var x := s.flights[FlightOf(step).value];
      assert Alone(s, x);
      assert x.ride in s.db.details ==> DetailOk(s, x.ride);
    }
  }

  lemma StepStaysOneByOne(s: State, step: Step)
    requires Inv(s) && OneByOne(s) && Enabled(s, step) && Serial(s, step)
    ensures !LateSave(s, step) && OneByOne(Apply(s, step))
  {
    if step.SaveBoth? {
      assert Alone(s, s.flights[step.f]);
    }
    OneFlightStays(s, step);
    forall f | f in Apply(s, step).flights
      ensures Alone(Apply(s, step), Apply(s, step).flights[f])
    {
      FlightRides(s, step, f);
      if f in s.flights && FlightOf(step) != Some(f) {
        OtherStaysAlone(s, step, f);
      } else {
        MovedStaysAlone(s, step);
      }
    }
  }

  /** When proceedings of one ride follow each other, no save is ever late. */
  lemma {:induction false} SerialRunsAreTimely(s: State, steps: seq<Step>)
    requires Inv(s) && OneByOne(s) && AllEnabled(s, steps) && SerialRun(s, steps)
    ensures Timely(s, steps) && OneByOne(Run(s, steps))
    decreases |steps|
  {
    if steps != [] {
      StepStaysOneByOne(s, steps[0]);
      StepKeepsInv(s, steps[0]);
      SerialRunsAreTimely(Apply(s, steps[0]), steps[1..]);
    }
  }

  // ----- payment identity -----

  ghost predicate ChangesOrder(s: State, steps: seq<Step>)
    requires AllEnabled(s, steps)
    decreases |steps|
  {
    && steps != []
    && ((exists r :: r in s.db.details && r in Apply(s, steps[0]).db.details
                     && Apply(s, steps[0]).db.details[r].orderId != s.db.details[r].orderId)
        || ChangesOrder(Apply(s, steps[0]), steps[1..]))
  }

  /** For every interleaving, serial or not: a stored order id changes somewhere in a run if and only if some proceeding
      in it saves a first request for a ride that has got a detail since the request was prepared. */
  lemma {:induction false} OrdersChangeExactlyOnLateSaves(s: State, steps: seq<Step>)
    requires Inv(s) && AllEnabled(s, steps)
    ensures ChangesOrder(s, steps) <==> !Timely(s, steps)
    decreases |steps|
  {
    if steps != [] {
      var t := Apply(s, steps[0]);
      if LateSave(s, steps[0]) {
        assert FlightOk(s, steps[0].f);
        var r := s.flights[steps[0].f].ride;
        assert r in t.db.details && t.db.details[r].orderId != s.db.details[r].orderId;
      } else {
        StepKeepsInv(s, steps[0]);
        OrdersChangeExactlyOnLateSaves(t, steps[1..]);
        forall r | r in s.db.details
          ensures r in t.db.details && t.db.details[r].orderId == s.db.details[r].orderId
        {
          assert SameOrder(s.db.details[r], t.db.details[r]);
        }
      }
    }
  }

  /** No two rides share an order, every stored order has an outbox row, and every outbox row of a ride carries the
      ride's order and asks for the fare the ride had at the start. */
  ghost predicate OneIdentity(start: State, t: State) {
    && (forall r :: r in t.db.details ==> t.db.details[r].orderId.Some? && HasRow(t.db, r, t.db.details[r].orderId.value))
    && (forall r, q :: r in t.db.details && q in t.db.details && t.db.details[r].orderId == t.db.details[q].orderId ==> r == q)
    && (forall id :: id in t.db.outbox ==> AsksForTheFare(start, t, t.db.outbox[id]))
  }

  predicate AsksForTheFare(start: State, t: State, o: Outbox) {
    && o.rideId in t.db.details && t.db.details[o.rideId].orderId == Some(o.orderId)
    && o.rideId in start.db.rides && o.request == Payload(o.orderId, GrossAmount(start.db.rides[o.rideId]))
  }

  lemma InvMeansIdentity(start: State, t: State)
    requires Inv(t) && Grows(start, t)
    ensures OneIdentity(start, t)
  {
    forall r | r in t.db.details
      ensures t.db.details[r].orderId.Some? && HasRow(t.db, r, t.db.details[r].orderId.value)
      ensures t.db.details[r].orderId.value in t.owner && t.owner[t.db.details[r].orderId.value] == r
    {
      assert DetailOk(t, r);
    }
    forall id | id in t.db.outbox
      ensures AsksForTheFare(start, t, t.db.outbox[id])
    {
      var r := t.db.outbox[id].rideId;
      assert RowOk(t, id) && DetailOk(t, r);
      assert SameFare(start.db.rides[r], t.db.rides[r]);
    }
  }

  /** Payment identity over retries, for every interleaving of proceedings, worker attempts and notifications without a
      late save: every state has one identity per ride, and an order id stored at any point never changes later. */
  lemma PaymentIdentity(start: State, first: seq<Step>, rest: seq<Step>)
    requires Initial(start) && AllEnabled(start, first) && Timely(start, first)
    requires AllEnabled(Run(start, first), rest) && Timely(Run(start, first), rest)
    ensures var s := Run(start, first);
            var t := Run(s, rest);
            && OneIdentity(start, s) && OneIdentity(start, t)
            && (forall r :: r in s.db.details ==> r in t.db.details && SameOrder(s.db.details[r], t.db.details[r]))
  {
    var s := Run(start, first);
    InitialInv(start);
    RunKeepsInv(start, first);
    RunKeepsInv(s, rest);
    GrowsTwice(start, s, Run(s, rest));
    InvMeansIdentity(start, s);
    InvMeansIdentity(start, Run(s, rest));
  }

  /** The same for every interleaving in which the proceedings of one ride follow each other. */
  lemma SerialPaymentIdentity(start: State, first: seq<Step>, rest: seq<Step>)
    requires Initial(start) && AllEnabled(start, first) && SerialRun(start, first)
    requires AllEnabled(Run(start, first), rest) && SerialRun(Run(start, first), rest)
    ensures var s := Run(start, first);
            var t := Run(s, rest);
            && OneIdentity(start, s) && OneIdentity(start, t)
            && (forall r :: r in s.db.details ==> r in t.db.details && SameOrder(s.db.details[r], t.db.details[r]))
            && !ChangesOrder(start, first) && !ChangesOrder(s, rest)
  {
    var s := Run(start, first);
    InitialInv(start);
    SerialRunsAreTimely(start, first);
    RunKeepsInv(start, first);
    SerialRunsAreTimely(s, rest);
    PaymentIdentity(start, first, rest);
    OrdersChangeExactlyOnLateSaves(start, first);
    OrdersChangeExactlyOnLateSaves(s, rest);
  }

  /** A notification that was received always finds the outbox rows of its order: "Payment outbox entry not found" is
      never raised for a stored order, and every outbox row of the ride is a row of that order. */
  lemma NotificationFindsItsRows(s: State, n: nat)
    requires Inv(s) && n in s.notices
    ensures Enabled(s, CommitNotice(n)) && s.notices[n].ride in s.db.details
    ensures forall id :: id in s.db.outbox && s.db.outbox[id].rideId == s.notices[n].ride ==>
              Matches(s.db.outbox[id], s.notices[n].ride, s.notices[n].notice.orderId)
  {
    var x := s.notices[n];
    assert NoticeOk(s, n) && DetailOk(s, x.ride);
    forall id | id in s.db.outbox && s.db.outbox[id].rideId == x.ride
      ensures Matches(s.db.outbox[id], x.ride, x.notice.orderId)
    {
      assert RowOk(s, id);
    }
  }

  /** Hence a notification about a stored order that passes the whitelist is accepted unless the database fails. */
  lemma StoredOrdersAreKnown(s: State, r: RideId)
    requires Inv(s) && r in s.db.details
    ensures s.db.details[r].orderId.Some? && KnownOrder(s.db, s.db.details[r].orderId.value)
  {
    assert DetailOk(s, r);
    var order := s.db.details[r].orderId.value;
    forall q | q in s.db.details && s.db.details[q].orderId == Some(order)
      ensures q in s.db.rides && exists id :: id in s.db.outbox && Matches(s.db.outbox[id], q, order)
    {
      assert DetailOk(s, q);
    }
  }

  lemma SettledVerdict(db: Db, r: RideId, d: Detail, paid: bool, order: OrderId, u: OutboxUpdate)
    requires paid ==> r in db.rides
    requires forall id :: id in db.outbox && db.outbox[id].rideId == r ==> Matches(db.outbox[id], r, order)
    ensures var after := Settled(db, r, d, paid, order, u);
            && r in after.details && after.details[r] == d
            && (forall id :: id in after.outbox && after.outbox[id].rideId == r ==> after.outbox[id].status == u.status)
            && (paid ==> after.rides[r].paymentStatus == Some(RL.Paid) && after.rides[r].paymentUrl.None?)
            && (!paid ==> after.rides == db.rides)
  {
    assert Settled(db, r, d, paid, order, u).outbox == OutboxUpdated(db.outbox, r, order, u);
  }

  /** Committing it brings the detail, the ride and every outbox row of that ride to the same verdict. */
  lemma NotificationSettlesEverything(s: State, n: nat)
    requires Inv(s) && n in s.notices
    ensures Enabled(s, CommitNotice(n))
    ensures var x := s.notices[n];
            var t := Apply(s, CommitNotice(n));
            && x.ride in t.db.details && t.db.details[x.ride].status == Normalize(x.notice.status)
            && (forall id :: id in t.db.outbox && t.db.outbox[id].rideId == x.ride ==>
                  t.db.outbox[id].status == Outcome(x.notice).status)
            && (Pays(x.notice) ==> IsPaid(t, x.ride) && t.db.rides[x.ride].paymentUrl.None?)
            && (!Pays(x.notice) ==> t.db.rides == s.db.rides)
  {
    NotificationFindsItsRows(s, n);
    var x := s.notices[n];
    SettledVerdict(s.db, x.ride, NotifiedDetail(x.detail, x.notice), Pays(x.notice), x.notice.orderId, Outcome(x.notice));
  }

  /** And it leaves all other rides alone. */
  lemma NotificationLeavesOthers(s: State, n: nat, r: RideId)
    requires Enabled(s, CommitNotice(n)) && r != s.notices[n].ride
    ensures var t := Apply(s, CommitNotice(n));
            && Found(t.db.details, r) == Found(s.db.details, r) && Found(t.db.rides, r) == Found(s.db.rides, r)
            && (forall id :: id in s.db.outbox && s.db.outbox[id].rideId == r ==>
                  id in t.db.outbox && t.db.outbox[id] == s.db.outbox[id])
  {
    var x := s.notices[n];
    var t := Apply(s, CommitNotice(n));
    assert t.db.outbox == OutboxUpdated(s.db.outbox, x.ride, x.notice.orderId, Outcome(x.notice));
  }

  // ----- when a payment stays paid -----

  ghost predicate LosesPaid(s: State, steps: seq<Step>)
    requires AllEnabled(s, steps)
    decreases |steps|
  {
    steps != [] && ((exists r :: IsPaid(s, r) && !IsPaid(Apply(s, steps[0]), r)) || LosesPaid(Apply(s, steps[0]), steps[1..]))
  }

  /** Some proceeding finishes although a successful notification was committed since it passed its guards. */
  predicate OvertakenProceeding(s: State, steps: seq<Step>)
    requires AllEnabled(s, steps)
    decreases |steps|
  {
    && steps != []
    && ((steps[0].WriteOnProcess? && s.flights[steps[0].f].overtaken) || OvertakenProceeding(Apply(s, steps[0]), steps[1..]))
  }

  /** A flight is overtaken exactly when its ride is paid: its guards saw the ride unpaid. */
  ghost predicate PaidIsTracked(s: State) {
    forall f :: f in s.flights ==> (s.flights[f].overtaken <==> IsPaid(s, s.flights[f].ride))
  }

  lemma PaidStaysTracked(s: State, step: Step)
    requires PaidIsTracked(s) && Enabled(s, step) && !(step.WriteOnProcess? && s.flights[step.f].overtaken)
    ensures PaidIsTracked(Apply(s, step))
  {
    var t := Apply(s, step);
    forall f | f in t.flights
      ensures t.flights[f].overtaken <==> IsPaid(t, t.flights[f].ride)
    {
      FlightRides(s, step, f);
      PaidAfter(s, step, t.flights[f].ride);
      if f in s.flights && FlightOf(step) != Some(f) {
        FlightAfter(s, step, f);
      } else {
        MovedFlightKeepsMark(s, step, f);
      }
    }
  }

  lemma MovedFlightKeepsMark(s: State, step: Step, f: nat)
    requires Enabled(s, step) && f in Apply(s, step).flights && (f !in s.flights || FlightOf(step) == Some(f))
    ensures var x := Apply(s, step).flights[f];
            if f in s.flights then x.overtaken == s.flights[f].overtaken && !step.WriteOnProcess? && !step.CommitNotice?
            else step == Check(f, x.ride) && !x.overtaken
  {
  }

  /** The step at which it happens. */
  lemma StepLosesPaid(s: State, step: Step)
    requires PaidIsTracked(s) && Enabled(s, step)
    ensures (exists r :: IsPaid(s, r) && !IsPaid(Apply(s, step), r)) <==> step.WriteOnProcess? && s.flights[step.f].overtaken
  {
    if r :| IsPaid(s, r) && !IsPaid(Apply(s, step), r) {
      PaidAfter(s, step, r);
    }
    if step.WriteOnProcess? && s.flights[step.f].overtaken {
      var r := s.flights[step.f].ride;
      PaidAfter(s, step, r);
      assert IsPaid(s, r) && !IsPaid(Apply(s, step), r);
    }
  }

  lemma {:induction false} PaidIsLostWhenOvertaken(s: State, steps: seq<Step>)
    requires PaidIsTracked(s) && AllEnabled(s, steps)
    ensures LosesPaid(s, steps) <==> OvertakenProceeding(s, steps)
    decreases |steps|
  {
    if steps != [] {
      StepLosesPaid(s, steps[0]);
      if !(steps[0].WriteOnProcess? && s.flights[steps[0].f].overtaken) {
        PaidStaysTracked(s, steps[0]);
        PaidIsLostWhenOvertaken(Apply(s, steps[0]), steps[1..]);
      }
    }
  }

  /** PAID is not absorbing. Over every interleaving, overlapping proceedings included, it is lost in a run if and only if
      a proceeding that was overtaken by a successful notification still finishes. */
  lemma PaidIsLostExactlyWhenOvertaken(start: State, steps: seq<Step>)
    requires Initial(start) && AllEnabled(start, steps)
    ensures LosesPaid(start, steps) <==> OvertakenProceeding(start, steps)
  {
    PaidIsLostWhenOvertaken(start, steps);
  }

  /** Without a late save a ride that says PAID was settled by a successful notification for the order it still has. */
  lemma PaidMeansSettled(start: State, steps: seq<Step>, r: RideId)
    requires Initial(start) && AllEnabled(start, steps) && Timely(start, steps) && IsPaid(Run(start, steps), r)
    ensures var t := Run(start, steps);
            && r in t.db.details && t.db.details[r].orderId.Some?
            && Settlement.Settlement(r, t.db.details[r].orderId.value) in t.settlements
  {
    InitialInv(start);
    RunKeepsInv(start, steps);
    assert PaidOk(Run(start, steps), r);
  }

  lemma {:induction false} PaidWasSettledFrom(s: State, steps: seq<Step>, r: RideId)
    requires AllEnabled(s, steps) && (IsPaid(s, r) ==> exists x :: x in s.settlements && x.ride == r)
    ensures IsPaid(Run(s, steps), r) ==> exists x :: x in Run(s, steps).settlements && x.ride == r
    decreases |steps|
  {
    if steps != [] {
      var t := Apply(s, steps[0]);
      PaidAfter(s, steps[0], r);
      SettlementsGrow(s, steps[0], r);
      PaidWasSettledFrom(t, steps[1..], r);
    }
  }

  lemma SettlementsGrow(s: State, step: Step, r: RideId)
    requires Enabled(s, step)
    ensures s.settlements <= Apply(s, step).settlements
    ensures PaysFor(s, step, r) ==> exists x :: x in Apply(s, step).settlements && x.ride == r
  {
    if PaysFor(s, step, r) {
      var t := Apply(s, step);
      assert t.settlements[|s.settlements|].ride == r;
    }
  }

  /** Over every interleaving, late saves included: a ride that says PAID had a successful notification committed. */
  lemma PaidWasSettled(start: State, steps: seq<Step>, r: RideId)
    requires Initial(start) && AllEnabled(start, steps) && IsPaid(Run(start, steps), r)
    ensures exists x :: x in Run(start, steps).settlements && x.ride == r
  {
    PaidWasSettledFrom(start, steps, r);
  }

  /** No successful notification for a ride is committed while a proceeding of that ride is in flight. */
  predicate Quiet(s: State, steps: seq<Step>)
    requires AllEnabled(s, steps)
    decreases |steps|
  {
    steps == [] ||
    (&& (forall f :: f in s.flights ==> !PaysFor(s, steps[0], s.flights[f].ride))
     && Quiet(Apply(s, steps[0]), steps[1..]))
  }

  /** No proceeding in flight has been overtaken. */
  ghost predicate NoneOvertaken(s: State) {
    PaidIsTracked(s) && forall f :: f in s.flights ==> !s.flights[f].overtaken
  }

  lemma QuietStepsOvertakeNobody(s: State, step: Step)
    requires NoneOvertaken(s) && Enabled(s, step) && (forall f :: f in s.flights ==> !PaysFor(s, step, s.flights[f].ride))
    ensures NoneOvertaken(Apply(s, step))
  {
    PaidStaysTracked(s, step);
    forall f | f in Apply(s, step).flights
      ensures !Apply(s, step).flights[f].overtaken
    {
      if f in s.flights && FlightOf(step) != Some(f) {
        FlightAfter(s, step, f);
      } else {
        MovedFlightKeepsMark(s, step, f);
      }
    }
  }

  lemma {:induction false} QuietRunsOvertakeNobody(s: State, steps: seq<Step>)
    requires NoneOvertaken(s) && AllEnabled(s, steps) && Quiet(s, steps)
    ensures NoneOvertaken(Run(s, steps)) && !OvertakenProceeding(s, steps)
    ensures forall r :: IsPaid(s, r) ==> IsPaid(Run(s, steps), r)
    decreases |steps|
  {
    if steps != [] {
      QuietStepsOvertakeNobody(s, steps[0]);
      StepLosesPaid(s, steps[0]);
      QuietRunsOvertakeNobody(Apply(s, steps[0]), steps[1..]);
    }
  }

  /** Then PAID is absorbing: a ride that is paid at any point of such a run is paid at the end. */
  lemma PaidIsAbsorbingWhenQuiet(start: State, first: seq<Step>, rest: seq<Step>, r: RideId)
    requires Initial(start) && AllEnabled(start, first) && Quiet(start, first)
    requires AllEnabled(Run(start, first), rest) && Quiet(Run(start, first), rest)
    ensures !LosesPaid(start, first) && (IsPaid(Run(start, first), r) ==> IsPaid(Run(Run(start, first), rest), r))
  {
    QuietRunsOvertakeNobody(start, first);
    QuietRunsOvertakeNobody(Run(start, first), rest);
    PaidIsLostExactlyWhenOvertaken(start, first);
  }
}
