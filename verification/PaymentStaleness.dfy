/** Writing back stale copies: when a finished outbox row or a settled detail can still be undone by work that had
    already begun. */
module PaymentStaleness {
  import opened Base
  import opened PaymentStatuses
  import opened PaymentStore
  import opened PaymentProtocol
  import opened PaymentInvariants
  import opened PaymentRaces
  import RL = RideLifecycle

  /** The step goes on with something begun before: no new proceeding, attempt or notification. */
  predicate GoesOn(step: Step) {
    !step.Check? && !step.Pick? && !step.Receive?
  }

  predicate AllGoOn(steps: seq<Step>) {
    forall i :: 0 <= i < |steps| ==> GoesOn(steps[i])
  }

  // ----- what every run keeps, late saves included -----

  /** Rows stay, under their ride and order. */
  ghost predicate RowsStay(before: Db, after: Db) {
    && before.nextOutbox <= after.nextOutbox && before.rides.Keys == after.rides.Keys
    && before.details.Keys <= after.details.Keys
    && forall id :: id in before.outbox ==> SameOwner(before, after, id)
  }

  predicate SameOwner(before: Db, after: Db, id: OutboxId)
    requires id in before.outbox
  {
    id in after.outbox && Matches(after.outbox[id], before.outbox[id].rideId, before.outbox[id].orderId)
  }

  predicate RowSound(s: State, id: OutboxId)
    requires id in s.db.outbox
  {
    id < s.db.nextOutbox && s.db.outbox[id].rideId in s.db.details
  }

  /** The order of a detail, or of a copy of one, has a row. */
  predicate OrderHasRow(s: State, r: RideId, d: Detail) {
    r in s.db.rides && d.orderId.Some? && HasRow(s.db, r, d.orderId.value)
  }

  predicate FlightSound(s: State, x: Flight) {
    && x.ride in s.db.rides
    && match x.stage
       case Prepared(d, order, _, _) => d.status.Queued? && d.orderId == Some(order)
       case Enqueued(id, _) => id in s.db.outbox
       case _ => true
  }

  predicate AttemptSound(s: State, x: Attempt) {
    && x.id in s.db.outbox && Matches(s.db.outbox[x.id], x.row.rideId, x.row.orderId)
    && (!x.Picked? ==> OrderHasRow(s, x.row.rideId, x.detail))
  }

  predicate NoticeSound(s: State, x: Received) {
    x.ride in s.db.rides && x.ride in s.db.details && HasRow(s.db, x.ride, x.notice.orderId)
  }

  ghost predicate Sound(s: State) {
    && (forall id :: id in s.db.outbox ==> RowSound(s, id))
    && (forall r :: r in s.db.details ==> OrderHasRow(s, r, s.db.details[r]))
    && (forall f :: f in s.flights ==> FlightSound(s, s.flights[f]))
    && (forall a :: a in s.attempts ==> AttemptSound(s, s.attempts[a]))
    && (forall n :: n in s.notices ==> NoticeSound(s, s.notices[n]))
  }

  lemma RowStays(s: State, t: State, r: RideId, order: OrderId)
    requires RowsStay(s.db, t.db) && HasRow(s.db, r, order)
    ensures HasRow(t.db, r, order)
  {
    var id :| id in s.db.outbox && Matches(s.db.outbox[id], r, order);
    assert SameOwner(s.db, t.db, id);
  }

  lemma FlightKeepsRows(s: State, step: Step)
    requires Enabled(s, step) && FlightOf(step).Some? && s.db.nextOutbox !in s.db.outbox
    requires FlightSound(s, s.flights[FlightOf(step).value])
    ensures RowsStay(s.db, Apply(s, step).db)
  {
  }

  lemma AttemptKeepsRows(s: State, step: Step)
    requires Enabled(s, step) && AttemptOf(step).Some? && AttemptSound(s, s.attempts[AttemptOf(step).value])
    ensures RowsStay(s.db, Apply(s, step).db)
  {
  }

  lemma SettlingKeepsRows(db: Db, r: RideId, d: Detail, paid: bool, order: OrderId, u: OutboxUpdate)
    requires paid ==> r in db.rides
    ensures RowsStay(db, Settled(db, r, d, paid, order, u))
  {
    assert Settled(db, r, d, paid, order, u).outbox == OutboxUpdated(db.outbox, r, order, u);
  }

  lemma NoticeKeepsRows(s: State, n: nat)
    requires Enabled(s, CommitNotice(n))
    ensures RowsStay(s.db, Apply(s, CommitNotice(n)).db)
  {
    var x := s.notices[n];
    SettlingKeepsRows(s.db, x.ride, NotifiedDetail(x.detail, x.notice), Pays(x.notice), x.notice.orderId, Outcome(x.notice));
  }

  lemma StepKeepsRows(s: State, step: Step)
    requires Sound(s) && Enabled(s, step)
    ensures RowsStay(s.db, Apply(s, step).db)
  {
    if FlightOf(step).Some? {
      assert s.db.nextOutbox in s.db.outbox ==> RowSound(s, s.db.nextOutbox);
      FlightKeepsRows(s, step);
    } else if AttemptOf(step).Some? {
      AttemptKeepsRows(s, step);
    } else if step.CommitNotice? {
      NoticeKeepsRows(s, step.n);
    } else {
      OtherStepsOnlyRead(s, step);
    }
  }

  lemma RowsStaySound(s: State, step: Step, id: OutboxId)
    requires Sound(s) && Enabled(s, step) && id in Apply(s, step).db.outbox
    ensures RowSound(Apply(s, step), id)
  {
    StepKeepsRows(s, step);
    if id in s.db.outbox {
      assert RowSound(s, id) && SameOwner(s.db, Apply(s, step).db, id);
    } else {
      NewRowIsSaved(s, step, id);
    }
  }

  lemma NewRowIsSaved(s: State, step: Step, id: OutboxId)
    requires Enabled(s, step) && id in Apply(s, step).db.outbox && id !in s.db.outbox
    requires FlightOf(step).Some? ==> FlightSound(s, s.flights[FlightOf(step).value])
    requires AttemptOf(step).Some? ==> AttemptSound(s, s.attempts[AttemptOf(step).value])
    ensures step.SaveBoth? && id == s.db.nextOutbox && Apply(s, step).db.outbox[id].rideId == s.flights[step.f].ride
  {
  }

  /** Every detail that is written carries an order with a row: it comes from a copy, from a row or with a row. */
  lemma DetailsStaySound(s: State, step: Step, r: RideId)
    requires Sound(s) && Enabled(s, step) && r in Apply(s, step).db.details
    ensures OrderHasRow(Apply(s, step), r, Apply(s, step).db.details[r])
  {
    var t := Apply(s, step);
    StepKeepsRows(s, step);
    if Found(t.db.details, r) == Found(s.db.details, r) {
      assert OrderHasRow(s, r, s.db.details[r]);
      RowStays(s, t, r, s.db.details[r].orderId.value);
    } else if step.SaveBoth? {
      assert FlightSound(s, s.flights[step.f]);
      assert Matches(t.db.outbox[s.db.nextOutbox], r, s.flights[step.f].stage.order);
    } else {
      WrittenDetail(s, step, r);
    }
  }

  lemma DetailOfAttempt(s: State, step: Step, r: RideId)
    requires Enabled(s, step) && AttemptOf(step).Some? && AttemptSound(s, s.attempts[AttemptOf(step).value])
    requires r in Apply(s, step).db.details && Found(Apply(s, step).db.details, r) != Found(s.db.details, r)
    ensures var x := s.attempts[AttemptOf(step).value];
            var d := Apply(s, step).db.details[r];
            r == x.row.rideId && d.orderId.Some? && HasRow(s.db, r, d.orderId.value)
  {
    var x := s.attempts[AttemptOf(step).value];
    assert HasRow(s.db, x.row.rideId, x.row.orderId);
  }

  lemma WrittenDetail(s: State, step: Step, r: RideId)
    requires Sound(s) && Enabled(s, step) && !step.SaveBoth? && RowsStay(s.db, Apply(s, step).db)
    requires r in Apply(s, step).db.details && Found(Apply(s, step).db.details, r) != Found(s.db.details, r)
    ensures OrderHasRow(Apply(s, step), r, Apply(s, step).db.details[r])
  {
    var t := Apply(s, step);
    if AttemptOf(step).Some? {
      var x := s.attempts[AttemptOf(step).value];
      DetailOfAttempt(s, step, r);
      assert AttemptSound(s, x) && RowSound(s, x.id) && OrderHasRow(s, r, s.db.details[r]);
    } else {
      assert step.CommitNotice? && NoticeSound(s, s.notices[step.n]);
    }
    RowStays(s, t, r, t.db.details[r].orderId.value);
  }

  lemma FlightsStaySound(s: State, step: Step, f: nat)
    requires Sound(s) && Enabled(s, step) && RowsStay(s.db, Apply(s, step).db) && f in Apply(s, step).flights
    ensures FlightSound(Apply(s, step), Apply(s, step).flights[f])
  {
    if f in s.flights {
      assert FlightSound(s, s.flights[f]);
      if FlightOf(step) != Some(f) {
        FlightAfter(s, step, f);
        if s.flights[f].stage.Enqueued? {
          assert SameOwner(s.db, Apply(s, step).db, s.flights[f].stage.id);
        }
      }
    }
  }

  lemma AttemptsStaySound(s: State, step: Step, a: nat)
    requires Sound(s) && Enabled(s, step) && RowsStay(s.db, Apply(s, step).db) && a in Apply(s, step).attempts
    ensures AttemptSound(Apply(s, step), Apply(s, step).attempts[a])
  {
    var t := Apply(s, step);
    if a in s.attempts {
      var x := s.attempts[a];
      assert AttemptSound(s, x) && SameOwner(s.db, t.db, x.id);
      if !x.Picked? {
        RowStays(s, t, x.row.rideId, x.detail.orderId.value);
      }
      if AttemptOf(step) == Some(a) {
        MovedAttemptSound(s, step, a);
      } else {
        OtherAttempts(s, step, a);
      }
    }
  }

  lemma MovedAttemptSound(s: State, step: Step, a: nat)
    requires Sound(s) && Enabled(s, step) && RowsStay(s.db, Apply(s, step).db)
    requires AttemptOf(step) == Some(a) && a in Apply(s, step).attempts
    ensures AttemptSound(Apply(s, step), Apply(s, step).attempts[a])
  {
    var t := Apply(s, step);
    var x := s.attempts[a];
    assert AttemptSound(s, x) && SameOwner(s.db, t.db, x.id);
    match step
    case Load(_) =>
      var d := s.db.details[x.row.rideId];
      assert OrderHasRow(s, x.row.rideId, d);
      RowStays(s, t, x.row.rideId, d.orderId.value);
    case StoreReply(_, _) =>
      assert HasRow(s.db, x.row.rideId, x.row.orderId);
      RowStays(s, t, x.row.rideId, x.row.orderId);
    case MarkProcessing(_) => RowStays(s, t, x.row.rideId, x.detail.orderId.value);
    case MarkFailed(_, _) => RowStays(s, t, x.row.rideId, x.detail.orderId.value);
    case _ =>
  }

  lemma NoticesStaySound(s: State, step: Step, n: nat)
    requires Sound(s) && Enabled(s, step) && RowsStay(s.db, Apply(s, step).db) && n in Apply(s, step).notices
    ensures NoticeSound(Apply(s, step), Apply(s, step).notices[n])
  {
    var t := Apply(s, step);
    if step.Receive? && step.n == n {
      assert OrderHasRow(s, step.ride, s.db.details[step.ride]);
    } else {
      OtherNotices(s, step, n);
      assert NoticeSound(s, s.notices[n]);
      RowStays(s, t, s.notices[n].ride, s.notices[n].notice.orderId);
    }
  }

  lemma StepKeepsSound(s: State, step: Step)
    requires Sound(s) && Enabled(s, step)
    ensures Sound(Apply(s, step))
  {
    var t := Apply(s, step);
    StepKeepsRows(s, step);
    forall id | id in t.db.outbox ensures RowSound(t, id) {
      RowsStaySound(s, step, id);
    }
    forall r | r in t.db.details ensures OrderHasRow(t, r, t.db.details[r]) {
      DetailsStaySound(s, step, r);
    }
    forall f | f in t.flights ensures FlightSound(t, t.flights[f]) {
      FlightsStaySound(s, step, f);
    }
    forall a | a in t.attempts ensures AttemptSound(t, t.attempts[a]) {
      AttemptsStaySound(s, step, a);
    }
    forall n | n in t.notices ensures NoticeSound(t, t.notices[n]) {
      NoticesStaySound(s, step, n);
    }
  }

  /** Over every interleaving: every row belongs to a detail, and every order that is stored, copied or notified has a
      row, whatever becomes of it later. */
  lemma {:induction false} RunKeepsSound(s: State, steps: seq<Step>)
    requires Sound(s) && AllEnabled(s, steps)
    ensures Sound(Run(s, steps))
    decreases |steps|
  {
    if steps != [] {
      StepKeepsSound(s, steps[0]);
      RunKeepsSound(Apply(s, steps[0]), steps[1..]);
    }
  }

  // ----- outbox rows -----

  predicate RowDone(s: State, id: OutboxId) {
    id in s.db.outbox && s.db.outbox[id].status.Done?
  }

  /** Somebody under way still holds a copy of the row, or a verdict on it that is not success. */
  predicate HoldsRow(s: State, id: OutboxId) {
    || (exists f :: f in s.flights && EnqueuedRow(s.flights[f].stage, id))
    || (exists a :: a in s.attempts && s.attempts[a].id == id && !s.attempts[a].MarkedFailed?)
    || (exists n :: n in s.notices && OtherVerdict(s, n, id))
  }

  predicate EnqueuedRow(x: Stage, id: OutboxId) {
    x.Enqueued? && x.id == id && !x.copy.status.Done?
  }

  predicate OtherVerdict(s: State, n: nat, id: OutboxId)
    requires n in s.notices
  {
    && id in s.db.outbox && Matches(s.db.outbox[id], s.notices[n].ride, s.notices[n].notice.orderId)
    && !Outcome(s.notices[n].notice).status.Done?
  }

  ghost predicate RowUndone(s: State, steps: seq<Step>, id: OutboxId) {
    AllEnabled(s, steps) && AllGoOn(steps) && !RowDone(Run(s, steps), id)
  }

  lemma OneStepUndoes(s: State, step: Step, id: OutboxId)
    requires Enabled(s, step) && GoesOn(step) && !RowDone(Apply(s, step), id)
    ensures RowUndone(s, [step], id)
  {
    assert [step][1..] == [];
    assert Run(s, [step]) == Run(Apply(s, step), []);
  }

  lemma MoreStepsUndo(s: State, step: Step, steps: seq<Step>, id: OutboxId)
    requires Enabled(s, step) && GoesOn(step) && RowUndone(Apply(s, step), steps, id)
    ensures RowUndone(s, [step] + steps, id)
  {
    assert ([step] + steps)[1..] == steps;
    assert Run(s, [step] + steps) == Run(Apply(s, step), steps);
  }

  lemma SentUndoesRow(s: State, a: nat, id: OutboxId)
    requires a in s.attempts && s.attempts[a].id == id && (s.attempts[a].Sent? || s.attempts[a].Stored?)
    ensures RowUndone(s, [MarkFailed(a, "")], id)
  {
    OneStepUndoes(s, MarkFailed(a, ""), id);
  }

  lemma LoadedUndoesRow(s: State, a: nat, id: OutboxId)
    requires a in s.attempts && s.attempts[a].id == id && s.attempts[a].Loaded?
    ensures RowUndone(s, [MarkProcessing(a)] + [MarkFailed(a, "")], id)
  {
    SentUndoesRow(Apply(s, MarkProcessing(a)), a, id);
    MoreStepsUndo(s, MarkProcessing(a), [MarkFailed(a, "")], id);
  }

  lemma PickedUndoesRow(s: State, a: nat, id: OutboxId)
    requires a in s.attempts && s.attempts[a].id == id && s.attempts[a].Picked?
    requires s.attempts[a].row.rideId in s.db.details
    ensures RowUndone(s, [Load(a)] + ([MarkProcessing(a)] + [MarkFailed(a, "")]), id)
  {
    LoadedUndoesRow(Apply(s, Load(a)), a, id);
    MoreStepsUndo(s, Load(a), [MarkProcessing(a)] + [MarkFailed(a, "")], id);
  }

  lemma SavingJobIdUndoesRow(s: State, f: nat, id: OutboxId)
    requires f in s.flights && EnqueuedRow(s.flights[f].stage, id)
    ensures RowUndone(s, [SaveJobId(f, "")], id)
  {
    OneStepUndoes(s, SaveJobId(f, ""), id);
  }

  lemma VerdictUndoesRow(s: State, n: nat, id: OutboxId)
    requires n in s.notices && OtherVerdict(s, n, id)
    ensures RowUndone(s, [CommitNotice(n)], id)
  {
    assert HasRow(s.db, s.notices[n].ride, s.notices[n].notice.orderId);
    OneStepUndoes(s, CommitNotice(n), id);
  }

  lemma AttemptUndoesRow(s: State, a: nat, id: OutboxId)
    requires a in s.attempts && s.attempts[a].id == id && !s.attempts[a].MarkedFailed?
    requires s.attempts[a].row.rideId in s.db.details
    ensures exists steps :: RowUndone(s, steps, id)
  {
    match s.attempts[a]
    case Picked(_, _) => PickedUndoesRow(s, a, id);
    case Loaded(_, _, _) => LoadedUndoesRow(s, a, id);
    case _ => SentUndoesRow(s, a, id);
  }

  lemma HoldersUndoRow(s: State, id: OutboxId)
    requires Sound(s) && id in s.db.outbox && HoldsRow(s, id)
    ensures exists steps :: RowUndone(s, steps, id)
  {
    if f :| f in s.flights && EnqueuedRow(s.flights[f].stage, id) {
      SavingJobIdUndoesRow(s, f, id);
    } else if a :| a in s.attempts && s.attempts[a].id == id && !s.attempts[a].MarkedFailed? {
      assert AttemptSound(s, s.attempts[a]) && RowSound(s, id);
      AttemptUndoesRow(s, a, id);
    } else {
      var n :| n in s.notices && OtherVerdict(s, n, id);
      VerdictUndoesRow(s, n, id);
    }
  }

  /** Without holders the row stays, and nobody under way becomes a holder. */
  lemma UnheldRowStays(s: State, step: Step, id: OutboxId)
    requires Enabled(s, step) && GoesOn(step)
    requires RowDone(s, id) && id < s.db.nextOutbox && !HoldsRow(s, id)
    ensures var t := Apply(s, step);
            && RowDone(t, id) && id < t.db.nextOutbox
            && t.db.outbox[id].rideId == s.db.outbox[id].rideId && t.db.outbox[id].orderId == s.db.outbox[id].orderId
  {
    if step.SaveJobId? {
      assert !EnqueuedRow(s.flights[step.f].stage, id);
    } else if AttemptOf(step).Some? {
      assert s.attempts[AttemptOf(step).value].id == id ==> s.attempts[AttemptOf(step).value].MarkedFailed?;
    } else if step.CommitNotice? {
      assert !OtherVerdict(s, step.n, id);
    }
  }

  lemma StaysUnheld(s: State, step: Step, id: OutboxId)
    requires Enabled(s, step) && GoesOn(step)
    requires RowDone(s, id) && id < s.db.nextOutbox && !HoldsRow(s, id)
    ensures !HoldsRow(Apply(s, step), id)
  {
    var t := Apply(s, step);
    UnheldRowStays(s, step, id);
    forall f | f in t.flights
      ensures !EnqueuedRow(t.flights[f].stage, id)
    {
      if f in s.flights && FlightOf(step) != Some(f) {
        FlightAfter(s, step, f);
        assert !EnqueuedRow(s.flights[f].stage, id);
      }
    }
    forall a | a in t.attempts && t.attempts[a].id == id
      ensures t.attempts[a].MarkedFailed?
    {
      if AttemptOf(step) != Some(a) {
        OtherAttempts(s, step, a);
      }
    }
    forall n | n in t.notices
      ensures !OtherVerdict(t, n, id)
    {
      OtherNotices(s, step, n);
      assert !OtherVerdict(s, n, id);
    }
  }

  lemma {:induction false} UnheldRowStaysDone(s: State, steps: seq<Step>, id: OutboxId)
    requires AllEnabled(s, steps) && AllGoOn(steps)
    requires RowDone(s, id) && id < s.db.nextOutbox && !HoldsRow(s, id)
    ensures RowDone(Run(s, steps), id)
    decreases |steps|
  {
    if steps != [] {
      UnheldRowStays(s, steps[0], id);
      StaysUnheld(s, steps[0], id);
      assert forall i :: 0 <= i < |steps[1..]| ==> steps[1..][i] == steps[i + 1];
      UnheldRowStaysDone(Apply(s, steps[0]), steps[1..], id);
    }
  }

  /** In every reachable state: work that had already begun can take a finished row back if and only if somebody still
      holds a copy of it or an unfavourable verdict: a proceeding before its post-enqueue save, an attempt, or a
      notification. */
  lemma FinishedRowIsUndoneExactlyByHolders(start: State, before: seq<Step>, id: OutboxId)
    requires Initial(start) && AllEnabled(start, before) && RowDone(Run(start, before), id)
    ensures var s := Run(start, before); (exists steps :: RowUndone(s, steps, id)) <==> HoldsRow(s, id)
  {
    var s := Run(start, before);
    RunKeepsSound(start, before);
    assert RowSound(s, id);
    if HoldsRow(s, id) {
      HoldersUndoRow(s, id);
    } else {
      forall steps
        ensures !RowUndone(s, steps, id)
      {
        if AllEnabled(s, steps) && AllGoOn(steps) {
          UnheldRowStaysDone(s, steps, id);
        }
      }
    }
  }

  // ----- settled details -----

  predicate DetailSettled(s: State, r: RideId) {
    r in s.db.details && Successful(s.db.details[r].status)
  }

  predicate Payable(s: State, r: RideId) {
    r in s.db.rides && GrossAmount(s.db.rides[r]) > 0.0
  }

  /** A notification for `r` under way whose copy of the detail has no link: committing it takes the link away. */
  predicate DropsLink(s: State, n: nat, r: RideId) {
    n in s.notices && s.notices[n].ride == r && !HasLink(Some(s.notices[n].detail))
  }

  predicate LinkCanGo(s: State, r: RideId) {
    !HasLink(Found(s.db.details, r)) || exists n :: n in s.notices && DropsLink(s, n, r)
  }

  predicate WillRequest(s: State, f: nat, r: RideId)
    requires f in s.flights
  {
    && s.flights[f].ride == r
    && (s.flights[f].stage.Prepared? || (s.flights[f].stage.Checked? && Payable(s, r) && LinkCanGo(s, r)))
  }

  /** Somebody under way can still overwrite the detail of `r` with a status that is not success. */
  predicate HoldsDetail(s: State, r: RideId) {
    || (exists a :: a in s.attempts && s.attempts[a].row.rideId == r)
    || (exists n :: n in s.notices && s.notices[n].ride == r && !Pays(s.notices[n].notice))
    || (exists f :: f in s.flights && WillRequest(s, f, r))
  }

  ghost predicate DetailUndone(s: State, steps: seq<Step>, r: RideId) {
    AllEnabled(s, steps) && AllGoOn(steps) && !DetailSettled(Run(s, steps), r)
  }

  lemma OneStepUnsettles(s: State, step: Step, r: RideId)
    requires Enabled(s, step) && GoesOn(step) && !DetailSettled(Apply(s, step), r)
    ensures DetailUndone(s, [step], r)
  {
    assert [step][1..] == [];
    assert Run(s, [step]) == Run(Apply(s, step), []);
  }

  lemma MoreStepsUnsettle(s: State, step: Step, steps: seq<Step>, r: RideId)
    requires Enabled(s, step) && GoesOn(step) && DetailUndone(Apply(s, step), steps, r)
    ensures DetailUndone(s, [step] + steps, r)
  {
    assert ([step] + steps)[1..] == steps;
    assert Run(s, [step] + steps) == Run(Apply(s, step), steps);
  }

  lemma AttemptUnsettles(s: State, a: nat, r: RideId)
    requires a in s.attempts && s.attempts[a].row.rideId == r && r in s.db.details
    ensures exists steps :: DetailUndone(s, steps, r)
    decreases match s.attempts[a] case Picked(_, _) => 3 case Loaded(_, _, _) => 2 case MarkedFailed(_, _, _) => 0 case _ => 1
  {
    var step := match s.attempts[a]
      case Picked(_, _) => Load(a)
      case Loaded(_, _, _) => MarkProcessing(a)
      case MarkedFailed(_, _, _) => FailDetail(a)
      case _ => MarkFailed(a, "");
    if s.attempts[a].MarkedFailed? {
      OneStepUnsettles(s, step, r);
    } else {
      AttemptUnsettles(Apply(s, step), a, r);
      var steps :| DetailUndone(Apply(s, step), steps, r);
      MoreStepsUnsettle(s, step, steps, r);
    }
  }

  lemma {:induction false} Above(keys: set<nat>) returns (n: nat)
    ensures forall k :: k in keys ==> k < n
    decreases |keys|
  {
    n := 0;
    if keys != {} {
      var some :| some in keys;
      n := Above(keys - {some});
      assert forall k :: k in keys ==> k == some || k in keys - {some};
      n := if some < n then n else some + 1;
    }
  }

  lemma PreparedUnsettles(s: State, f: nat, r: RideId)
    requires f in s.flights && s.flights[f].ride == r && s.flights[f].stage.Prepared?
    requires s.flights[f].stage.detail.status.Queued?
    ensures DetailUndone(s, [SaveBoth(f)], r)
  {
    OneStepUnsettles(s, SaveBoth(f), r);
  }

  lemma CheckedUnsettles(s: State, f: nat, r: RideId)
    requires f in s.flights && s.flights[f].ride == r && s.flights[f].stage.Checked?
    requires Payable(s, r) && !HasLink(Found(s.db.details, r))
    ensures exists steps :: DetailUndone(s, steps, r)
  {
    var order := Above(s.owner.Keys);
    assert order !in s.owner;
    PreparedUnsettles(Apply(s, Prepare(f, order)), f, r);
    MoreStepsUnsettle(s, Prepare(f, order), [SaveBoth(f)], r);
  }

  lemma LinkDropUnsettles(s: State, n: nat, f: nat, r: RideId)
    requires Enabled(s, CommitNotice(n)) && DropsLink(s, n, r) && Pays(s.notices[n].notice)
    requires f in s.flights && s.flights[f].ride == r && s.flights[f].stage.Checked? && Payable(s, r)
    ensures exists steps :: DetailUndone(s, steps, r)
  {
    var t := Apply(s, CommitNotice(n));
    DroppingTheLink(s, n, f, r);
    CheckedUnsettles(t, f, r);
    var steps :| DetailUndone(t, steps, r);
    MoreStepsUnsettle(s, CommitNotice(n), steps, r);
  }

  lemma FlightUnsettles(s: State, f: nat, r: RideId)
    requires f in s.flights && WillRequest(s, f, r) && Sound(s)
    requires forall n :: n in s.notices && s.notices[n].ride == r ==> Pays(s.notices[n].notice)
    ensures exists steps :: DetailUndone(s, steps, r)
  {
    if s.flights[f].stage.Prepared? {
      assert FlightSound(s, s.flights[f]);
      PreparedUnsettles(s, f, r);
    } else if !HasLink(Found(s.db.details, r)) {
      CheckedUnsettles(s, f, r);
    } else {
      var n :| n in s.notices && DropsLink(s, n, r);
      assert NoticeSound(s, s.notices[n]);
      LinkDropUnsettles(s, n, f, r);
    }
  }

  lemma DroppingTheLink(s: State, n: nat, f: nat, r: RideId)
    requires Enabled(s, CommitNotice(n)) && DropsLink(s, n, r) && Pays(s.notices[n].notice)
    requires f in s.flights && s.flights[f].ride == r && Payable(s, r)
    ensures var t := Apply(s, CommitNotice(n));
            && DetailSettled(t, r) && !HasLink(Found(t.db.details, r)) && Payable(t, r)
            && f in t.flights && t.flights[f].ride == r && t.flights[f].stage == s.flights[f].stage
  {
    FlightAfter(s, CommitNotice(n), f);
  }

  lemma VerdictUnsettles(s: State, n: nat, r: RideId)
    requires n in s.notices && NoticeSound(s, s.notices[n]) && s.notices[n].ride == r && !Pays(s.notices[n].notice)
    ensures DetailUndone(s, [CommitNotice(n)], r)
  {
    OneStepUnsettles(s, CommitNotice(n), r);
  }

  lemma HoldersUnsettle(s: State, r: RideId)
    requires Sound(s) && DetailSettled(s, r) && HoldsDetail(s, r)
    ensures exists steps :: DetailUndone(s, steps, r)
  {
    if a :| a in s.attempts && s.attempts[a].row.rideId == r {
      AttemptUnsettles(s, a, r);
    } else if n :| n in s.notices && s.notices[n].ride == r && !Pays(s.notices[n].notice) {
      VerdictUnsettles(s, n, r);
    } else {
      var f :| f in s.flights && WillRequest(s, f, r);
      FlightUnsettles(s, f, r);
    }
  }

  lemma UnheldDetailStays(s: State, step: Step, r: RideId)
    requires Enabled(s, step) && GoesOn(step) && DetailSettled(s, r) && !HoldsDetail(s, r)
    ensures var t := Apply(s, step);
            && DetailSettled(t, r) && (Payable(t, r) <==> Payable(s, r))
            && (t.db.details[r] == s.db.details[r]
                || (step.CommitNotice? && s.notices[step.n].ride == r
                    && t.db.details[r] == NotifiedDetail(s.notices[step.n].detail, s.notices[step.n].notice)))
  {
    if step.SaveBoth? {
      assert !WillRequest(s, step.f, r);
    } else if AttemptOf(step).Some? {
      assert s.attempts[AttemptOf(step).value].row.rideId != r;
    } else if step.CommitNotice? {
      assert s.notices[step.n].ride == r ==> Pays(s.notices[step.n].notice);
    }
  }

  lemma LinkStays(s: State, step: Step, r: RideId)
    requires Enabled(s, step) && GoesOn(step) && DetailSettled(s, r) && !HoldsDetail(s, r) && !LinkCanGo(s, r)
    ensures !LinkCanGo(Apply(s, step), r)
  {
    var t := Apply(s, step);
    UnheldDetailStays(s, step, r);
    if step.CommitNotice? {
      assert !DropsLink(s, step.n, r);
    }
    forall n | n in t.notices
      ensures !DropsLink(t, n, r)
    {
      OtherNotices(s, step, n);
      assert !DropsLink(s, n, r);
    }
  }

  lemma FlightsWillNotRequest(s: State, step: Step, r: RideId, f: nat)
    requires Enabled(s, step) && GoesOn(step) && DetailSettled(s, r) && !HoldsDetail(s, r)
    requires f in Apply(s, step).flights
    ensures !WillRequest(Apply(s, step), f, r)
  {
    UnheldDetailStays(s, step, r);
    if !LinkCanGo(s, r) {
      LinkStays(s, step, r);
    }
    assert f in s.flights && !WillRequest(s, f, r);
    if FlightOf(step) != Some(f) {
      FlightAfter(s, step, f);
    }
  }

  lemma AttemptsStayElsewhere(s: State, step: Step, r: RideId, a: nat)
    requires Enabled(s, step) && GoesOn(step) && !HoldsDetail(s, r) && a in Apply(s, step).attempts
    ensures Apply(s, step).attempts[a].row.rideId != r
  {
    if AttemptOf(step) != Some(a) {
      OtherAttempts(s, step, a);
    } else {
      assert s.attempts[a].row.rideId != r;
    }
  }

  lemma DetailStaysUnheld(s: State, step: Step, r: RideId)
    requires Enabled(s, step) && GoesOn(step) && DetailSettled(s, r) && !HoldsDetail(s, r)
    ensures !HoldsDetail(Apply(s, step), r)
  {
    var t := Apply(s, step);
    forall a | a in t.attempts
      ensures t.attempts[a].row.rideId != r
    {
      AttemptsStayElsewhere(s, step, r, a);
    }
    forall n | n in t.notices && t.notices[n].ride == r
      ensures Pays(t.notices[n].notice)
    {
      OtherNotices(s, step, n);
    }
    forall f | f in t.flights
      ensures !WillRequest(t, f, r)
    {
      FlightsWillNotRequest(s, step, r, f);
    }
  }

  lemma {:induction false} UnheldDetailStaysSettled(s: State, steps: seq<Step>, r: RideId)
    requires AllEnabled(s, steps) && AllGoOn(steps) && DetailSettled(s, r) && !HoldsDetail(s, r)
    ensures DetailSettled(Run(s, steps), r)
    decreases |steps|
  {
    if steps != [] {
      UnheldDetailStays(s, steps[0], r);
      DetailStaysUnheld(s, steps[0], r);
      assert forall i :: 0 <= i < |steps[1..]| ==> steps[1..][i] == steps[i + 1];
      UnheldDetailStaysSettled(Apply(s, steps[0]), steps[1..], r);
    }
  }

  /** In every reachable state: work that had already begun can overwrite a settled detail if and only if it includes an
      attempt for the ride, a notification that is not a success, or a proceeding that will still send a request: one
      that has prepared it, or one before that point whose ride is payable and has no link or can lose it to a
      notification that was read before the link was stored. */
  lemma SettledDetailIsUndoneExactlyByHolders(start: State, before: seq<Step>, r: RideId)
    requires Initial(start) && AllEnabled(start, before) && DetailSettled(Run(start, before), r)
    ensures var s := Run(start, before); (exists steps :: DetailUndone(s, steps, r)) <==> HoldsDetail(s, r)
  {
    var s := Run(start, before);
    RunKeepsSound(start, before);
    if HoldsDetail(s, r) {
      HoldersUnsettle(s, r);
    } else {
      forall steps
        ensures !DetailUndone(s, steps, r)
      {
        if AllEnabled(s, steps) && AllGoOn(steps) {
          UnheldDetailStaysSettled(s, steps, r);
        }
      }
    }
  }

  // ----- both happen -----

  /** The state after a first request was saved by flight 0, with nobody else around. */
  function Requested(s: State, r: RideId, x: OrderId): State
    requires r in s.db.rides
  {
    var request := Payload(x, GrossAmount(s.db.rides[r]));
    s.(db := WithDetailAndOutbox(s.db, r, QueuedDetail(None, request), x, request),
       flights := map[0 := Flight(r, Enqueued(s.db.nextOutbox, NewOutbox(r, x, request)), false)],
       owner := map[x := r])
  }

  /** The flight has prepared its first request. */
  function Preparing(s: State, r: RideId, x: OrderId): State
    requires r in s.db.rides
  {
    s.(flights := map[0 := FirstRequest(s, r, x)], owner := map[x := r])
  }

  lemma PreparingIsReachable(s: State, r: RideId, x: OrderId)
    requires Initial(s) && r in s.db.rides && s.db.rides[r].status.Completed? && GrossAmount(s.db.rides[r]) > 0.0
    ensures Reaches(s, Preparing(s, r, x), true)
  {
    ReachesItself(s);
    Extend(s, s, Check(0, r), true);
    var t := s.(flights := map[0 := Flight(r, Checked, false)]);
    assert Apply(s, Check(0, r)).flights == t.flights;
    Extend(s, t, Prepare(0, x), true);
    assert Apply(t, Prepare(0, x)).flights == Preparing(s, r, x).flights;
  }

  lemma RequestIsReachable(s: State, r: RideId, x: OrderId)
    requires Initial(s) && r in s.db.rides && s.db.rides[r].status.Completed? && GrossAmount(s.db.rides[r]) > 0.0
    ensures Reaches(s, Requested(s, r, x), true)
  {
    PreparingIsReachable(s, r, x);
    Extend(s, Preparing(s, r, x), SaveBoth(0), true);
    assert Apply(Preparing(s, r, x), SaveBoth(0)).flights == Requested(s, r, x).flights;
  }

  /** A worker can finish the row before the post-enqueue save, which then makes it wait again with no attempt. */
  lemma FinishedRowCanBeReopened(s: State, r: RideId, x: OrderId, reply: Reply)
    requires Initial(s) && r in s.db.rides && s.db.rides[r].status.Completed? && GrossAmount(s.db.rides[r]) > 0.0
    ensures exists t, u :: Reaches(s, t, true) && RowDone(t, s.db.nextOutbox) && Reaches(t, u, true)
                           && s.db.nextOutbox in u.db.outbox && u.db.outbox[s.db.nextOutbox].status.Waiting?
                           && u.db.outbox[s.db.nextOutbox].attempts == 0
  {
    var id := s.db.nextOutbox;
    RequestIsReachable(s, r, x);
    var t0 := Requested(s, r, x);
    AttemptIsARun(t0, 0, id, Some(reply), "");
    var t := t0.(db := AfterAttempt(t0.db, id, Some(reply), ""));
    ReachesThrough(s, t0, t, true);
    ReachesItself(t);
    Extend(t, t, SaveJobId(0, "job"), true);
    assert RowDone(t, id) && Apply(t, SaveJobId(0, "job")).db.outbox[id].status.Waiting?;
  }

  lemma SettlesBesideAttempt(s: State, r: RideId, notice: Notice)
    requires Inv(s) && s.notices == map[] && Pays(notice)
    requires r in s.db.details && s.db.details[r].orderId == Some(notice.orderId)
    ensures exists t :: Reaches(s, t, true) && IsPaid(t, r) && DetailSettled(t, r) && t.attempts == s.attempts
  {
    assert r in s.db.rides by {
      assert DetailOk(s, r);
    }
    ReachesItself(s);
    Extend(s, s, Receive(0, r, notice), true);
    StepKeepsInv(s, Receive(0, r, notice));
    var t := Apply(s, Receive(0, r, notice));
    NotificationSettlesEverything(t, 0);
    Extend(s, t, CommitNotice(0), true);
    assert DetailSettled(Apply(t, CommitNotice(0)), r);
  }

  lemma AttemptFails(t: State, r: RideId)
    requires 0 in t.attempts && t.attempts[0].Sent? && t.attempts[0].row.rideId == r && IsPaid(t, r)
    ensures exists u :: Reaches(t, u, true) && IsPaid(u, r) && r in u.db.details && u.db.details[r].status.Failed?
  {
    ReachesItself(t);
    Extend(t, t, MarkFailed(0, ""), true);
    var v := Apply(t, MarkFailed(0, ""));
    PaidAfter(t, MarkFailed(0, ""), r);
    Extend(t, v, FailDetail(0), true);
    PaidAfter(v, FailDetail(0), r);
  }

  /** A worker whose call fails late writes FAILED over the detail of a ride that has been paid meanwhile. */
  lemma SettledDetailCanBeOverwritten(s: State, r: RideId, notice: Notice)
    requires Initial(s) && r in s.db.rides && s.db.rides[r].status.Completed? && GrossAmount(s.db.rides[r]) > 0.0
    requires Pays(notice)
    ensures exists t, u :: Reaches(s, t, true) && IsPaid(t, r) && DetailSettled(t, r) && Reaches(t, u, true)
                           && IsPaid(u, r) && r in u.db.details && u.db.details[r].status.Failed?
  {
    var id := s.db.nextOutbox;
    RequestIsReachable(s, r, notice.orderId);
    var t0 := Requested(s, r, notice.orderId);
    StartIsARun(t0, 0, id);
    var t1 := Started(t0, 0, id);
    ReachesThrough(s, t0, t1, true);
    InitialInv(s);
    ReachesKeepsInv(s, t1);
    SettlesBesideAttempt(t1, r, notice);
    var t :| Reaches(t1, t, true) && IsPaid(t, r) && DetailSettled(t, r) && t.attempts == t1.attempts;
    ReachesThrough(s, t1, t, true);
    AttemptFails(t, r);
  }
}
