/** Runs of the payment protocol: what the methods do is a run that nobody interrupts, and two runs show what the
    assumptions of the invariants are for. */
module PaymentRaces {
  import opened Base
  import opened PaymentStatuses
  import opened PaymentStore
  import opened PaymentProtocol
  import opened PaymentInvariants
  import RL = RideLifecycle

  /** Some run leads from `s` to `t`; `serial` asks for one proceeding per ride at a time. */
  ghost predicate Reaches(s: State, t: State, serial: bool) {
    exists steps :: AllEnabled(s, steps) && (serial ==> SerialRun(s, steps)) && Run(s, steps) == t
  }

  lemma ReachesItself(s: State)
    ensures Reaches(s, s, true) && Reaches(s, s, false)
  {
    assert AllEnabled(s, []) && SerialRun(s, []) && Run(s, []) == s;
  }

  lemma {:induction false} Joined(s: State, first: seq<Step>, rest: seq<Step>)
    requires AllEnabled(s, first) && AllEnabled(Run(s, first), rest)
    ensures AllEnabled(s, first + rest) && Run(s, first + rest) == Run(Run(s, first), rest)
    ensures SerialRun(s, first) && SerialRun(Run(s, first), rest) ==> SerialRun(s, first + rest)
    decreases |first|
  {
    if first == [] {
      assert first + rest == rest;
    } else {
      assert (first + rest)[1..] == first[1..] + rest;
      Joined(Apply(s, first[0]), first[1..], rest);
    }
  }

  lemma ReachesThrough(s: State, t: State, u: State, serial: bool)
    requires Reaches(s, t, serial) && Reaches(t, u, serial)
    ensures Reaches(s, u, serial)
  {
    var first :| AllEnabled(s, first) && (serial ==> SerialRun(s, first)) && Run(s, first) == t;
    var rest :| AllEnabled(t, rest) && (serial ==> SerialRun(t, rest)) && Run(t, rest) == u;
    Joined(s, first, rest);
  }

  lemma Extend(s: State, t: State, step: Step, serial: bool)
    requires Reaches(s, t, serial) && Enabled(t, step) && (serial ==> Serial(t, step))
    ensures Reaches(s, Apply(t, step), serial)
  {
    var one := [step];
    assert one[1..] == [] && AllEnabled(t, one) && (serial ==> SerialRun(t, one));
    assert Run(t, one) == Run(Apply(t, step), one[1..]) == Apply(t, step);
    ReachesThrough(s, t, Apply(t, step), serial);
  }

  /** The first half of an attempt: both rows are read and the outbox row is marked. */
  function Started(s: State, a: nat, id: OutboxId): State
    requires id in s.db.outbox && s.db.outbox[id].rideId in s.db.details
  {
    var o := Attempted(s.db.outbox[id]);
    s.(db := WithOutbox(s.db, id, o), attempts := s.attempts[a := Sent(id, o, s.db.details[o.rideId])])
  }

  lemma StartIsARun(s: State, a: nat, id: OutboxId)
    requires a !in s.attempts && id in s.db.outbox && s.db.outbox[id].rideId in s.db.details
    ensures Reaches(s, Started(s, a, id), true)
  {
    var row := s.db.outbox[id];
    var d := s.db.details[row.rideId];
    ReachesItself(s);
    Extend(s, s, Pick(a, id), true);
    var s1 := Working(s, a, Picked(id, row));
    Extend(s, s1, Load(a), true);
    var s2 := Working(s, a, Loaded(id, Attempted(row), d));
    assert Working(s1, a, s2.attempts[a]).attempts == s2.attempts;
    assert Reaches(s, s2, true);
    Extend(s, s2, MarkProcessing(a), true);
    assert Working(s2, a, Sent(id, Attempted(row), d)).attempts == Started(s, a, id).attempts;
  }

  lemma AnsweredAttempt(s: State, a: nat, id: OutboxId, reply: Reply, error: string)
    requires a !in s.attempts && id in s.db.outbox && s.db.outbox[id].rideId in s.db.details
    ensures Reaches(Started(s, a, id), s.(db := AfterAttempt(s.db, id, Some(reply), error)), true)
  {
    var t := Started(s, a, id);
    ReachesItself(t);
    Extend(t, t, StoreReply(a, reply), true);
    var u := Apply(t, StoreReply(a, reply));
    Extend(t, u, MarkDone(a), true);
    assert u.attempts - {a} == s.attempts;
  }

  lemma FailedAttempt(s: State, a: nat, id: OutboxId, error: string)
    requires a !in s.attempts && id in s.db.outbox && s.db.outbox[id].rideId in s.db.details
    ensures Reaches(Started(s, a, id), s.(db := AfterAttempt(s.db, id, None, error)), true)
  {
    var t := Started(s, a, id);
    ReachesItself(t);
    Extend(t, t, MarkFailed(a, error), true);
    var u := Apply(t, MarkFailed(a, error));
    Extend(t, u, FailDetail(a), true);
    assert u.attempts - {a} == s.attempts;
  }

  /** The method's attempt is the run of one worker that nobody interrupts. */
  lemma AttemptIsARun(s: State, a: nat, id: OutboxId, reply: Option<Reply>, error: string)
    requires a !in s.attempts && id in s.db.outbox && s.db.outbox[id].rideId in s.db.details
    ensures Reaches(s, s.(db := AfterAttempt(s.db, id, reply, error)), true)
  {
    StartIsARun(s, a, id);
    if reply.Some? {
      AnsweredAttempt(s, a, id, reply.value, error);
    } else {
      FailedAttempt(s, a, id, error);
    }
    ReachesThrough(s, Started(s, a, id), s.(db := AfterAttempt(s.db, id, reply, error)), true);
  }

  /** A job without interruption: attempts until the first success. */
  lemma {:induction false} JobIsARun(s: State, a: nat, id: OutboxId, replies: seq<Option<Reply>>, error: string)
    requires a !in s.attempts && id in s.db.outbox && s.db.outbox[id].rideId in s.db.details
    ensures Reaches(s, s.(db := AfterJob(s.db, id, replies, error)), true)
    decreases |replies|
  {
    if replies == [] {
      ReachesItself(s);
    } else {
      var t := s.(db := AfterAttempt(s.db, id, replies[0], error));
      AttemptIsARun(s, a, id, replies[0], error);
      if replies[0].None? {
        JobIsARun(t, a, id, replies[1..], error);
        ReachesThrough(s, t, s.(db := AfterJob(s.db, id, replies, error)), true);
      }
    }
  }

  /** The ride may be paid for and nobody else is proceeding with it; `f` and `a` are free numbers. */
  ghost predicate ReadyToProceed(s: State, f: nat, a: nat, r: RideId, newOrder: OrderId) {
    && r in s.db.rides && s.db.rides[r].status.Completed? && !IsPaid(s, r)
    && f !in s.flights && a !in s.attempts && newOrder !in s.owner && s.db.nextOutbox !in s.db.outbox
    && forall x :: x in s.flights ==> s.flights[x].ride != r
  }

  function AtStage(s: State, f: nat, r: RideId, stage: Stage): State {
    s.(flights := s.flights[f := Flight(r, stage, false)])
  }

  lemma CheckIsARun(s: State, f: nat, a: nat, r: RideId, newOrder: OrderId)
    requires ReadyToProceed(s, f, a, r, newOrder)
    ensures Reaches(s, AtStage(s, f, r, Checked), true)
  {
    ReachesItself(s);
    Extend(s, s, Check(f, r), true);
  }

  function RequestFor(s: State, r: RideId, newOrder: OrderId): Payload
    requires r in s.db.rides
  {
    Payload(OrderOf(Found(s.db.details, r), newOrder), GrossAmount(s.db.rides[r]))
  }

  function OwnerAfter(s: State, r: RideId, newOrder: OrderId): map<OrderId, RideId> {
    if OrderOf(Found(s.db.details, r), newOrder) == newOrder then s.owner[newOrder := r] else s.owner
  }

  /** The request is prepared under the ride's order or the new one. */
  function Asking(s: State, f: nat, r: RideId, newOrder: OrderId): State
    requires r in s.db.rides
  {
    var d, request := Found(s.db.details, r), RequestFor(s, r, newOrder);
    AtStage(s, f, r, Prepared(QueuedDetail(d, request), request.orderId, request, d.None?))
      .(owner := OwnerAfter(s, r, newOrder))
  }

  /** Both rows are saved. */
  function Saved(s: State, f: nat, r: RideId, newOrder: OrderId): State
    requires r in s.db.rides
  {
    var d, request := Found(s.db.details, r), RequestFor(s, r, newOrder);
    AtStage(s, f, r, Enqueued(s.db.nextOutbox, NewOutbox(r, request.orderId, request)))
      .(db := WithDetailAndOutbox(s.db, r, QueuedDetail(d, request), request.orderId, request),
        owner := OwnerAfter(s, r, newOrder))
  }

  /** The job's id is stored and the proceeding waits. */
  function Requested(s: State, f: nat, r: RideId, newOrder: OrderId, job: string): State
    requires r in s.db.rides
  {
    var both := Saved(s, f, r, newOrder).db;
    AtStage(s, f, r, Stage.Waiting)
      .(db := WithOutbox(both, s.db.nextOutbox, both.outbox[s.db.nextOutbox].(jobId := Some(job))),
        owner := OwnerAfter(s, r, newOrder))
  }

  lemma AskingIsARun(s: State, f: nat, a: nat, r: RideId, newOrder: OrderId)
    requires ReadyToProceed(s, f, a, r, newOrder)
    requires !HasLink(Found(s.db.details, r)) && GrossAmount(s.db.rides[r]) > 0.0
    ensures Reaches(s, Asking(s, f, r, newOrder), true)
  {
    CheckIsARun(s, f, a, r, newOrder);
    var t := AtStage(s, f, r, Checked);
    Extend(s, t, Prepare(f, newOrder), true);
    assert Apply(t, Prepare(f, newOrder)).flights == Asking(s, f, r, newOrder).flights;
  }

  lemma SavesBoth(s: State, f: nat, r: RideId, newOrder: OrderId)
    requires r in s.db.rides
    ensures Apply(Asking(s, f, r, newOrder), SaveBoth(f)) == Saved(s, f, r, newOrder)
  {
    assert Apply(Asking(s, f, r, newOrder), SaveBoth(f)).flights == Saved(s, f, r, newOrder).flights;
  }

  lemma StoresJob(s: State, f: nat, r: RideId, newOrder: OrderId, job: string)
    requires r in s.db.rides
    ensures Apply(Saved(s, f, r, newOrder), SaveJobId(f, job)) == Requested(s, f, r, newOrder, job)
  {
    assert Apply(Saved(s, f, r, newOrder), SaveJobId(f, job)).flights == Requested(s, f, r, newOrder, job).flights;
  }

  lemma SavingIsARun(s: State, f: nat, r: RideId, newOrder: OrderId)
    requires r in s.db.rides && Reaches(s, Asking(s, f, r, newOrder), true)
    ensures Reaches(s, Saved(s, f, r, newOrder), true)
  {
    SavesBoth(s, f, r, newOrder);
    Extend(s, Asking(s, f, r, newOrder), SaveBoth(f), true);
  }

  lemma StoringJobIsARun(s: State, f: nat, r: RideId, newOrder: OrderId, job: string)
    requires r in s.db.rides && Reaches(s, Saved(s, f, r, newOrder), true)
    ensures Reaches(s, Requested(s, f, r, newOrder, job), true)
  {
    StoresJob(s, f, r, newOrder, job);
    Extend(s, Saved(s, f, r, newOrder), SaveJobId(f, job), true);
  }

  lemma RequestIsARun(s: State, f: nat, a: nat, r: RideId, newOrder: OrderId, job: string)
    requires ReadyToProceed(s, f, a, r, newOrder)
    requires !HasLink(Found(s.db.details, r)) && GrossAmount(s.db.rides[r]) > 0.0
    ensures Reaches(s, Requested(s, f, r, newOrder, job), true)
  {
    AskingIsARun(s, f, a, r, newOrder);
    SavingIsARun(s, f, r, newOrder);
    StoringJobIsARun(s, f, r, newOrder, job);
  }

  /** With the link in the detail the proceeding hands it out and writes ON_PROCESS. */
  lemma HandOutIsARun(s: State, t: State, f: nat, r: RideId, flights: map<nat, Flight>, step: Step)
    requires Reaches(s, t, true) && f !in flights
    requires f in t.flights && t.flights == flights[f := Flight(r, t.flights[f].stage, false)]
    requires step == ReuseLink(f) || step == Refresh(f)
    requires Enabled(t, step) && r in t.db.rides
    ensures Reaches(s, t.(db := WithPaymentState(t.db, r, RL.OnProcess, t.db.details[r].redirectUrl), flights := flights), true)
  {
    var url := t.db.details[r].redirectUrl.value;
    Extend(s, t, step, true);
    var u := t.(flights := t.flights[f := Flight(r, Finishing(url), false)]);
    assert Apply(t, step) == u;
    Extend(s, u, WriteOnProcess(f), true);
    assert u.flights - {f} == flights;
  }

  lemma GiveUpIsARun(s: State, t: State, f: nat, flights: map<nat, Flight>)
    requires Reaches(s, t, true) && f !in flights && f in t.flights && t.flights == flights[f := t.flights[f]]
    ensures Reaches(s, t.(flights := flights), true)
  {
    Extend(s, t, GiveUp(f), true);
    assert t.flights - {f} == flights;
  }

  /** `t` holds what the method leaves, and nobody is proceeding who was not before. */
  ghost predicate ProceededTo(s: State, t: State, r: RideId, newOrder: OrderId, job: string, replies: seq<Option<Reply>>,
                              error: string, fault: Option<Statement>)
    requires r in s.db.rides
  {
    var url := Offered(Found(s.db.details, r), s.db.rides[r], replies, fault);
    var db := PaymentBegun(s.db, r, s.db.rides[r], newOrder, job, replies, error, fault);
    && r in db.rides && t == s.(db := t.db, owner := t.owner)
    && t.db == if url.Some? then WithPaymentState(db, r, RL.OnProcess, url) else db
  }

  lemma AskedForIsARun(s: State, f: nat, a: nat, r: RideId, newOrder: OrderId, job: string, replies: seq<Option<Reply>>,
                       error: string, fault: Option<Statement>)
    requires ReadyToProceed(s, f, a, r, newOrder) && !Faulted(fault)
    requires !HasLink(Found(s.db.details, r)) && GrossAmount(s.db.rides[r]) > 0.0
    ensures exists t :: Reaches(s, t, true) && ProceededTo(s, t, r, newOrder, job, replies, error, fault)
  {
    var request := RequestFor(s, r, newOrder);
    RequestIsARun(s, f, a, r, newOrder, job);
    var t := Requested(s, f, r, newOrder, job);
    JobIsARun(t, a, s.db.nextOutbox, replies, error);
    var u := t.(db := AfterJob(t.db, s.db.nextOutbox, replies, error));
    ReachesThrough(s, t, u, true);
    InitiationOutcome(s.db, r, request, job, replies, error);
    assert u.db == PaymentBegun(s.db, r, s.db.rides[r], newOrder, job, replies, error, fault);
    if Offered(Found(s.db.details, r), s.db.rides[r], replies, fault).Some? {
      HandOutIsARun(s, u, f, r, s.flights, Refresh(f));
      var v := u.(db := WithPaymentState(u.db, r, RL.OnProcess, u.db.details[r].redirectUrl), flights := s.flights);
      assert ProceededTo(s, v, r, newOrder, job, replies, error, fault);
    } else {
      GiveUpIsARun(s, u, f, s.flights);
      assert ProceededTo(s, u.(flights := s.flights), r, newOrder, job, replies, error, fault);
    }
  }

  /** The method's proceeding, whatever the provider answers and whichever save fails, is a run of the protocol in which
      one proceeding and one worker are not interrupted. */
  lemma ProceedingIsARun(s: State, f: nat, a: nat, r: RideId, newOrder: OrderId, job: string, replies: seq<Option<Reply>>,
                         error: string, fault: Option<Statement>)
    requires ReadyToProceed(s, f, a, r, newOrder)
    ensures exists t :: Reaches(s, t, true) && ProceededTo(s, t, r, newOrder, job, replies, error, fault)
  {
    if !HasLink(Found(s.db.details, r)) && GrossAmount(s.db.rides[r]) > 0.0 && !Faulted(fault) {
      AskedForIsARun(s, f, a, r, newOrder, job, replies, error, fault);
    } else {
      CheckIsARun(s, f, a, r, newOrder);
      var t := AtStage(s, f, r, Checked);
      if HasLink(Found(s.db.details, r)) {
        HandOutIsARun(s, t, f, r, s.flights, ReuseLink(f));
        var u := t.(db := WithPaymentState(t.db, r, RL.OnProcess, t.db.details[r].redirectUrl), flights := s.flights);
        assert ProceededTo(s, u, r, newOrder, job, replies, error, fault);
      } else {
        GiveUpIsARun(s, t, f, s.flights);
        assert ProceededTo(s, t.(flights := s.flights), r, newOrder, job, replies, error, fault);
      }
    }
  }

  /** A flight of `r` that found no detail and is about to queue its first request under order `x`. */
  function FirstRequest(s: State, r: RideId, x: OrderId): Flight
    requires r in s.db.rides
  {
    var request := Payload(x, GrossAmount(s.db.rides[r]));
    Flight(r, Prepared(QueuedDetail(None, request), x, request, true), false)
  }

  function TwoPrepared(s: State, r: RideId, x: OrderId, y: OrderId): State
    requires r in s.db.rides
  {
    s.(flights := map[0 := FirstRequest(s, r, x), 1 := FirstRequest(s, r, y)], owner := map[x := r, y := r])
  }

  function TwoChecked(s: State, r: RideId): State {
    s.(flights := map[0 := Flight(r, Checked, false), 1 := Flight(r, Checked, false)])
  }

  lemma TwoChecks(s: State, r: RideId)
    requires s.flights == map[] && r in s.db.rides && s.db.rides[r].status.Completed? && !IsPaid(s, r)
    ensures Reaches(s, TwoChecked(s, r), false)
  {
    ReachesItself(s);
    Extend(s, s, Check(0, r), false);
    var t := Apply(s, Check(0, r));
    Extend(s, t, Check(1, r), false);
    assert Apply(t, Check(1, r)).flights == TwoChecked(s, r).flights;
  }

  lemma TwoFirstRequests(s: State, r: RideId, x: OrderId, y: OrderId)
    requires Initial(s) && r in s.db.rides && s.db.rides[r].status.Completed? && GrossAmount(s.db.rides[r]) > 0.0
    requires x != y
    ensures Reaches(TwoChecked(s, r), TwoPrepared(s, r, x, y), false)
  {
    var t := TwoChecked(s, r);
    ReachesItself(t);
    assert Found(t.db.details, r).None?;
    Extend(t, t, Prepare(0, x), false);
    var u := s.(flights := map[0 := FirstRequest(s, r, x), 1 := Flight(r, Checked, false)], owner := map[x := r]);
    assert Apply(t, Prepare(0, x)).flights == u.flights;
    Extend(t, u, Prepare(1, y), false);
    assert Apply(u, Prepare(1, y)).flights == TwoPrepared(s, r, x, y).flights;
  }

  lemma SavingAddsARow(s: State, f: nat, r: RideId, x: OrderId)
    requires Enabled(s, SaveBoth(f)) && s.db.nextOutbox !in s.db.outbox
    requires HasRow(s.db, r, x) || (s.flights[f].ride == r && s.flights[f].stage.order == x)
    ensures HasRow(Apply(s, SaveBoth(f)).db, r, x)
  {
    var t := Apply(s, SaveBoth(f));
    if HasRow(s.db, r, x) {
      var id :| id in s.db.outbox && Matches(s.db.outbox[id], r, x);
      assert Matches(t.db.outbox[id], r, x);
    } else {
      assert Matches(t.db.outbox[s.db.nextOutbox], r, x);
    }
  }

  /** The outbox holds both orders of `r`, but the only detail knows `y` alone. */
  ghost predicate OrdersSplit(t: State, r: RideId, x: OrderId, y: OrderId) {
    && HasRow(t.db, r, x) && HasRow(t.db, r, y)
    && t.db.details.Keys == {r} && t.db.details[r].orderId == Some(y)
  }

  lemma BothSave(s: State, r: RideId, x: OrderId, y: OrderId)
    requires s.db.details == map[] && s.db.outbox == map[] && r in s.db.rides
    requires s.flights == map[0 := FirstRequest(s, r, x), 1 := FirstRequest(s, r, y)]
    ensures exists t :: Reaches(s, t, false) && OrdersSplit(t, r, x, y)
  {
    ReachesItself(s);
    Extend(s, s, SaveBoth(0), false);
    SavingAddsARow(s, 0, r, x);
    var s1 := Apply(s, SaveBoth(0));
    Extend(s, s1, SaveBoth(1), false);
    SavingAddsARow(s1, 1, r, x);
    SavingAddsARow(s1, 1, r, y);
    assert OrdersSplit(Apply(s1, SaveBoth(1)), r, x, y);
  }

  /** Two proceedings of one ride at once: both find no detail, each generates an order id, and the second one to save
      replaces the first one's. The first order is left in the outbox, and notifications about it find no detail. */
  lemma OverlapSplitsOrders(s: State, r: RideId, x: OrderId, y: OrderId)
    requires Initial(s) && r in s.db.rides && s.db.rides[r].status.Completed? && GrossAmount(s.db.rides[r]) > 0.0
    requires x != y
    ensures exists t :: Reaches(s, t, false) && OrdersSplit(t, r, x, y)
                        && forall n: nat, q: RideId, notice: Notice :: notice.orderId == x ==> !Enabled(t, Receive(n, q, notice))
  {
    TwoChecks(s, r);
    TwoFirstRequests(s, r, x, y);
    var s4 := TwoPrepared(s, r, x, y);
    ReachesThrough(s, TwoChecked(s, r), s4, false);
    BothSave(s4, r, x, y);
    var t :| Reaches(s4, t, false) && OrdersSplit(t, r, x, y);
    ReachesThrough(s, s4, t, false);
    Unheard(t, r, x, y);
  }

  lemma Unheard(t: State, r: RideId, x: OrderId, y: OrderId)
    requires OrdersSplit(t, r, x, y) && x != y
    ensures forall n: nat, q: RideId, notice: Notice :: notice.orderId == x ==> !Enabled(t, Receive(n, q, notice))
  {
  }

  /** A proceeding up to the link it is about to hand out, with nobody else around. */
  lemma LinkIsReachable(s: State, r: RideId, x: OrderId, reply: Reply)
    requires Initial(s) && r in s.db.rides && s.db.rides[r].status.Completed? && GrossAmount(s.db.rides[r]) > 0.0
    requires NonEmpty(reply.redirectUrl)
    ensures exists t :: Reaches(s, t, true)
                        && 0 in t.flights && t.flights[0] == Flight(r, Finishing(reply.redirectUrl.value), false)
                        && r in t.db.details && t.db.details[r].orderId == Some(x) && t.notices == map[]
  {
    ReachesItself(s);
    Extend(s, s, Check(0, r), true);
    var s1 := Apply(s, Check(0, r));
    Extend(s, s1, Prepare(0, x), true);
    var s2 := Apply(s1, Prepare(0, x));
    Extend(s, s2, SaveBoth(0), true);
    var s3 := Apply(s2, SaveBoth(0));
    Extend(s, s3, SaveJobId(0, "job"), true);
    var s4 := Apply(s3, SaveJobId(0, "job"));
    var id := s.db.nextOutbox;
    assert s4.db.outbox[id].rideId == r && s4.attempts == map[];
    var s5 := s4.(db := AfterAttempt(s4.db, id, Some(reply), ""));
    AttemptIsARun(s4, 0, id, Some(reply), "");
    ReachesThrough(s, s4, s5, true);
    Extend(s, s5, Refresh(0), true);
    assert Apply(s5, Refresh(0)).flights[0] == Flight(r, Finishing(reply.redirectUrl.value), false);
  }

  /** A link about to be handed out for `r`, and the settlements recorded by then. */
  ghost predicate AboutToFinish(t: State, r: RideId, order: OrderId) {
    && 0 in t.flights && t.flights[0].ride == r && t.flights[0].stage.Finishing?
    && Settlement.Settlement(r, order) in t.settlements
  }

  lemma NoticeArrives(s: State, r: RideId, notice: Notice, url: string)
    requires Inv(s) && 0 in s.flights && s.flights[0] == Flight(r, Finishing(url), false)
    requires r in s.db.details && s.db.details[r].orderId == Some(notice.orderId) && s.notices == map[]
    ensures var u := s.(notices := map[0 := Received(r, notice, s.db.details[r])]); Inv(u) && Reaches(s, u, true)
  {
    assert r in s.db.rides by {
      assert DetailOk(s, r);
    }
    ReachesItself(s);
    Extend(s, s, Receive(0, r, notice), true);
    StepKeepsInv(s, Receive(0, r, notice));
    assert Apply(s, Receive(0, r, notice)).notices == map[0 := Received(r, notice, s.db.details[r])];
  }

  lemma NoticeCommits(u: State, r: RideId, url: string)
    requires Inv(u) && 0 in u.flights && u.flights[0] == Flight(r, Finishing(url), false)
    requires 0 in u.notices && u.notices[0].ride == r && Pays(u.notices[0].notice)
    ensures exists t :: Reaches(u, t, true) && IsPaid(t, r) && AboutToFinish(t, r, u.notices[0].notice.orderId)
  {
    NotificationSettlesEverything(u, 0);
    ReachesItself(u);
    Extend(u, u, CommitNotice(0), true);
    CommitRecords(u, r);
  }

  lemma CommitRecords(u: State, r: RideId)
    requires Enabled(u, CommitNotice(0)) && u.notices[0].ride == r && Pays(u.notices[0].notice)
    requires 0 in u.flights && u.flights[0].ride == r && u.flights[0].stage.Finishing?
    ensures AboutToFinish(Apply(u, CommitNotice(0)), r, u.notices[0].notice.orderId)
  {
    var t := Apply(u, CommitNotice(0));
    FlightAfter(u, CommitNotice(0), 0);
    assert t.settlements[|t.settlements| - 1] == Settlement.Settlement(r, u.notices[0].notice.orderId);
  }

  lemma FinishingReopens(t: State, r: RideId, order: OrderId)
    requires IsPaid(t, r) && AboutToFinish(t, r, order)
    ensures exists u :: Reaches(t, u, true) && !IsPaid(u, r) && Settlement.Settlement(r, order) in u.settlements
  {
    ReachesItself(t);
    Extend(t, t, WriteOnProcess(0), true);
    PaidAfter(t, WriteOnProcess(0), r);
    assert Apply(t, WriteOnProcess(0)).settlements == t.settlements;
  }

  /** PAID can be lost even with one proceeding at a time: the successful notification is committed after the link was
      read and before ON_PROCESS is written. The settlement stays on record, the ride does not say so. */
  lemma PaidCanBeLost(s: State, r: RideId, notice: Notice, reply: Reply)
    requires Initial(s) && r in s.db.rides && s.db.rides[r].status.Completed? && GrossAmount(s.db.rides[r]) > 0.0
    requires NonEmpty(reply.redirectUrl) && Pays(notice)
    ensures exists t, u :: Reaches(s, t, true) && IsPaid(t, r) && Reaches(t, u, true) && !IsPaid(u, r)
                           && Settlement.Settlement(r, notice.orderId) in u.settlements
  {
    LinkIsReachable(s, r, notice.orderId, reply);
    var s0 :| Reaches(s, s0, true) && 0 in s0.flights && s0.flights[0] == Flight(r, Finishing(reply.redirectUrl.value), false)
              && r in s0.db.details && s0.db.details[r].orderId == Some(notice.orderId) && s0.notices == map[];
    InitialInv(s);
    ReachesKeepsInv(s, s0);
    NoticeArrives(s0, r, notice, reply.redirectUrl.value);
    var s1 := s0.(notices := map[0 := Received(r, notice, s0.db.details[r])]);
    NoticeCommits(s1, r, reply.redirectUrl.value);
    var t :| Reaches(s1, t, true) && IsPaid(t, r) && AboutToFinish(t, r, notice.orderId);
    ReachesThrough(s, s0, s1, true);
    ReachesThrough(s, s1, t, true);
    FinishingReopens(t, r, notice.orderId);
  }

  lemma ReachesKeepsInv(s: State, t: State)
    requires Inv(s) && OneByOne(s) && Reaches(s, t, true)
    ensures Inv(t)
  {
    var steps :| AllEnabled(s, steps) && SerialRun(s, steps) && Run(s, steps) == t;
    SerialRunsAreTimely(s, steps);
    RunKeepsInv(s, steps);
  }
}
