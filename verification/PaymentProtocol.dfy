/** Payments as the database sees them: proceedings of riders, attempts of queue workers and notifications of the
    provider, interleaved statement by statement. Each actor works on copies it read earlier and writes them back.
    Any statement may be the last one an actor runs: it may fail, time out or crash. */
module PaymentProtocol {
  import opened Base
  import opened PaymentStatuses
  import opened PaymentStore
  import RL = RideLifecycle

  /** Where a proceedRidePayment stands after its guards. `first` says that no detail was found when the request was
      prepared, so that its order id was generated. */
  datatype Stage =
    | Checked
    | Prepared(detail: Detail, order: OrderId, request: Payload, first: bool)
    | Enqueued(id: OutboxId, copy: Outbox)
    | Waiting
    | Finishing(url: string)

  /** `overtaken` records that a successful notification for the ride was committed since the guards were passed. */
  datatype Flight = Flight(ride: RideId, stage: Stage, overtaken: bool)

  /** Where one processOutbox stands; `row` and `detail` are its copies. */
  datatype Attempt =
    | Picked(id: OutboxId, row: Outbox)
    | Loaded(id: OutboxId, row: Outbox, detail: Detail)
    | Sent(id: OutboxId, row: Outbox, detail: Detail)
    | Stored(id: OutboxId, row: Outbox, detail: Detail)
    | MarkedFailed(id: OutboxId, row: Outbox, detail: Detail)

  /** A notification whose detail has been read. */
  datatype Received = Received(ride: RideId, notice: Notice, detail: Detail)

  datatype Settlement = Settlement(ride: RideId, order: OrderId)

  /** `owner` remembers for which ride each order id was generated; `settlements` lists the successful notifications
      that were committed. Neither is stored by the program. */
  datatype State = State(
    db: Db,
    flights: map<nat, Flight>,
    attempts: map<nat, Attempt>,
    notices: map<nat, Received>,
    owner: map<OrderId, RideId>,
    settlements: seq<Settlement>)

  datatype Step =
    | Check(f: nat, ride: RideId)
    | ReuseLink(f: nat)
    | Prepare(f: nat, newOrder: OrderId)
    | SaveBoth(f: nat)
    | SaveJobId(f: nat, job: string)
    | Refresh(f: nat)
    | WriteOnProcess(f: nat)
    | GiveUp(f: nat)
    | Pick(a: nat, id: OutboxId)
    | Load(a: nat)
    | MarkProcessing(a: nat)
    | StoreReply(a: nat, reply: Reply)
    | MarkDone(a: nat)
    | MarkFailed(a: nat, error: string)
    | FailDetail(a: nat)
    | Crash(a: nat)
    | Receive(n: nat, ride: RideId, notice: Notice)
    | CommitNotice(n: nat)
    | DropNotice(n: nat)

  predicate IsPaid(s: State, ride: RideId) {
    ride in s.db.rides && s.db.rides[ride].paymentStatus == Some(RL.Paid)
  }

  function Outcome(n: Notice): OutboxUpdate {
    ExactlyOneOutcome(n.status);
    OutboxUpdateFor(Normalize(n.status), Pays(n)).value
  }

  predicate Pays(n: Notice) {
    Successful(Normalize(n.status))
  }

  /** A new order id is one that was never generated before. */
  predicate Enabled(s: State, step: Step) {
    match step
    case Check(f, ride) =>
      f !in s.flights && ride in s.db.rides && s.db.rides[ride].status.Completed? && !IsPaid(s, ride)
    case ReuseLink(f) => f in s.flights && s.flights[f].stage.Checked? && HasLink(Found(s.db.details, s.flights[f].ride))
    case Prepare(f, newOrder) =>
      && f in s.flights && s.flights[f].stage.Checked? && newOrder !in s.owner && s.flights[f].ride in s.db.rides
      && !HasLink(Found(s.db.details, s.flights[f].ride)) && GrossAmount(s.db.rides[s.flights[f].ride]) > 0.0
    case SaveBoth(f) => f in s.flights && s.flights[f].stage.Prepared?
    case SaveJobId(f, _) => f in s.flights && s.flights[f].stage.Enqueued?
    case Refresh(f) =>
      && f in s.flights && s.flights[f].stage.Waiting? && s.flights[f].ride in s.db.details
      && NonEmpty(s.db.details[s.flights[f].ride].redirectUrl)
    case WriteOnProcess(f) => f in s.flights && s.flights[f].stage.Finishing? && s.flights[f].ride in s.db.rides
    case GiveUp(f) => f in s.flights
    case Pick(a, id) => a !in s.attempts && id in s.db.outbox
    case Load(a) => a in s.attempts && s.attempts[a].Picked? && s.attempts[a].row.rideId in s.db.details
    case MarkProcessing(a) => a in s.attempts && s.attempts[a].Loaded?
    case StoreReply(a, _) => a in s.attempts && s.attempts[a].Sent?
    case MarkDone(a) => a in s.attempts && s.attempts[a].Stored?
    case MarkFailed(a, _) => a in s.attempts && (s.attempts[a].Sent? || s.attempts[a].Stored?)
    case FailDetail(a) => a in s.attempts && s.attempts[a].MarkedFailed?
    case Crash(a) => a in s.attempts
    case Receive(n, ride, notice) =>
      n !in s.notices && ride in s.db.details && ride in s.db.rides && s.db.details[ride].orderId == Some(notice.orderId)
    case CommitNotice(n) =>
      && n in s.notices
      && (Pays(s.notices[n].notice) ==> s.notices[n].ride in s.db.rides)
      && HasRow(s.db, s.notices[n].ride, s.notices[n].notice.orderId)
    case DropNotice(n) => n in s.notices
  }

  predicate HasRow(db: Db, ride: RideId, order: OrderId) {
    exists id :: id in db.outbox && Matches(db.outbox[id], ride, order)
  }

  function InFlight(s: State, f: nat, stage: Stage): State
    requires f in s.flights
  {
    s.(flights := s.flights[f := s.flights[f].(stage := stage)])
  }

  function Working(s: State, a: nat, attempt: Attempt): State {
    s.(attempts := s.attempts[a := attempt])
  }

  function Overtaken(flights: map<nat, Flight>, ride: RideId): map<nat, Flight> {
    map f | f in flights :: if flights[f].ride == ride then flights[f].(overtaken := true) else flights[f]
  }

  function Apply(s: State, step: Step): State
    requires Enabled(s, step)
  {
    match step
    case Check(f, ride) => s.(flights := s.flights[f := Flight(ride, Checked, false)])
    case ReuseLink(f) => InFlight(s, f, Finishing(s.db.details[s.flights[f].ride].redirectUrl.value))
    case Prepare(f, newOrder) =>
      var ride := s.flights[f].ride;
      var d := Found(s.db.details, ride);
      var order := OrderOf(d, newOrder);
      var request := Payload(order, GrossAmount(s.db.rides[ride]));
      InFlight(s, f, Prepared(QueuedDetail(d, request), order, request, d.None?))
        .(owner := if order == newOrder then s.owner[newOrder := ride] else s.owner)
    case SaveBoth(f) =>
      var x := s.flights[f];
      var id := s.db.nextOutbox;
      InFlight(s, f, Enqueued(id, NewOutbox(x.ride, x.stage.order, x.stage.request)))
        .(db := WithDetailAndOutbox(s.db, x.ride, x.stage.detail, x.stage.order, x.stage.request))
    case SaveJobId(f, job) =>
      var x := s.flights[f].stage;
      InFlight(s, f, Stage.Waiting).(db := WithOutbox(s.db, x.id, x.copy.(jobId := Some(job))))
    case Refresh(f) => InFlight(s, f, Finishing(s.db.details[s.flights[f].ride].redirectUrl.value))
    case WriteOnProcess(f) =>
      s.(db := WithPaymentState(s.db, s.flights[f].ride, RL.OnProcess, Some(s.flights[f].stage.url)),
         flights := s.flights - {f})
    case GiveUp(f) => s.(flights := s.flights - {f})
    case Pick(a, id) => Working(s, a, Picked(id, s.db.outbox[id]))
    case Load(a) =>
      var x := s.attempts[a];
      Working(s, a, Loaded(x.id, Attempted(x.row), s.db.details[x.row.rideId]))
    case MarkProcessing(a) =>
      var x := s.attempts[a];
      Working(s, a, Sent(x.id, x.row, x.detail)).(db := WithOutbox(s.db, x.id, x.row))
    case StoreReply(a, reply) =>
      var x := s.attempts[a];
      var d := RepliedDetail(x.detail, x.row, reply);
      Working(s, a, Stored(x.id, x.row, d)).(db := WithDetail(s.db, x.row.rideId, d))
    case MarkDone(a) =>
      var x := s.attempts[a];
      s.(db := WithOutbox(s.db, x.id, x.row.(status := Done, lastError := None, processed := true)),
         attempts := s.attempts - {a})
    case MarkFailed(a, error) =>
      var x := s.attempts[a];
      var o := x.row.(status := Broken, lastError := Some(error));
      Working(s, a, MarkedFailed(x.id, o, x.detail)).(db := WithOutbox(s.db, x.id, o))
    case FailDetail(a) =>
      var x := s.attempts[a];
      s.(db := WithDetail(s.db, x.row.rideId, x.detail.(status := Failed)), attempts := s.attempts - {a})
    case Crash(a) => s.(attempts := s.attempts - {a})
    case Receive(n, ride, notice) => s.(notices := s.notices[n := Received(ride, notice, s.db.details[ride])])
    case CommitNotice(n) =>
      var x := s.notices[n];
      var paid := Pays(x.notice);
      var t := s.(db := Settled(s.db, x.ride, NotifiedDetail(x.detail, x.notice), paid, x.notice.orderId, Outcome(x.notice)),
                  notices := s.notices - {n});
      if paid then
        t.(flights := Overtaken(s.flights, x.ride),
           settlements := s.settlements + [Settlement.Settlement(x.ride, x.notice.orderId)])
      else t
    case DropNotice(n) => s.(notices := s.notices - {n})
  }

  /** Proceedings of one ride follow each other: a new one starts only when none is in flight. Nothing in the program
      enforces this. */
  predicate Serial(s: State, step: Step) {
    step.Check? ==> forall f :: f in s.flights ==> s.flights[f].ride != step.ride
  }

  predicate AllEnabled(s: State, steps: seq<Step>)
    decreases |steps|
  {
    steps == [] || (Enabled(s, steps[0]) && AllEnabled(Apply(s, steps[0]), steps[1..]))
  }

  predicate SerialRun(s: State, steps: seq<Step>)
    requires AllEnabled(s, steps)
    decreases |steps|
  {
    steps == [] || (Serial(s, steps[0]) && SerialRun(Apply(s, steps[0]), steps[1..]))
  }

  function Run(s: State, steps: seq<Step>): State
    requires AllEnabled(s, steps)
    decreases |steps|
  {
    if steps == [] then s else Run(Apply(s, steps[0]), steps[1..])
  }

  /** A proceeding that found no detail when it prepared its request saves the request although the ride has got a
      detail since. */
  predicate LateSave(s: State, step: Step) {
    && step.SaveBoth? && step.f in s.flights && s.flights[step.f].stage.Prepared?
    && s.flights[step.f].stage.first && s.flights[step.f].ride in s.db.details
  }

  predicate Timely(s: State, steps: seq<Step>)
    requires AllEnabled(s, steps)
    decreases |steps|
  {
    steps == [] || (!LateSave(s, steps[0]) && Timely(Apply(s, steps[0]), steps[1..]))
  }

  /** Rides of any status, none paid, nothing else stored and nothing going on. */
  predicate Initial(s: State) {
    && s.db.details == map[] && s.db.outbox == map[] && s.flights == map[] && s.attempts == map[] && s.notices == map[]
    && s.owner == map[] && s.settlements == []
    && forall r :: r in s.db.rides ==> !IsPaid(s, r)
  }
}
