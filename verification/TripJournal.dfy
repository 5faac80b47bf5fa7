/** What the trip tracking keys and tables mean: distances as lengths of the recorded path, summaries as the last
    persisted event, draining. A journal remembers, beside the tracker, the reports behind every number. */
module TripJournal {
  import opened Base
  import opened TripTracking

  /** The driver's reports among all reports of a trip. */
  function DriverReports(trail: seq<Report>): seq<Report> {
    if trail == [] then []
    else DriverReports(trail[..|trail| - 1]) + if trail[|trail| - 1].role.Driver? then [trail[|trail| - 1]] else []
  }

  function LastRiderLocation(trail: seq<Report>): Option<Location> {
    if trail == [] then None
    else if trail[|trail| - 1].role.Rider? then Some(trail[|trail| - 1].location)
    else LastRiderLocation(trail[..|trail| - 1])
  }

  function Leg(dist: Distance, from: Report, to: Report): real {
    if to.measured then dist(from.location.point, to.location.point) else 0.0
  }

  /** The length of a path: the sum of its legs. */
  function PathLength(dist: Distance, path: seq<Report>): real {
    if |path| < 2 then 0.0
    else PathLength(dist, path[..|path| - 1]) + Leg(dist, path[|path| - 2], path[|path| - 1])
  }

  function Travelled(dist: Distance, trail: seq<Report>): real {
    PathLength(dist, DriverReports(trail))
  }

  /** The event that the last report of a trail must have produced. */
  function ExpectedEvent(dist: Distance, trail: seq<Report>): TrackEvent
    requires trail != []
  {
    var r := trail[|trail| - 1];
    TrackEvent(r.role, r.client, r.location,
               Travelled(dist, trail) - Travelled(dist, trail[..|trail| - 1]), Travelled(dist, trail))
  }

  /** `trails` holds the reports since a trip's state was last created; `buffered` and `stored` hold, for every
      buffered event and every table row, the trail at the moment of its report. */
  datatype Journal = Journal(
    tracker: Tracker,
    trails: map<RideId, seq<Report>>,
    buffered: map<RideId, seq<seq<Report>>>,
    stored: seq<(RideId, seq<Report>)>)

  const NEW_JOURNAL := Journal(NEW_TRACKER, map[], map[], [])

  datatype TripOp =
    | RecordOp(ride: RideId, report: Report)
    | CompleteOp(ride: RideId)
    | FlushOp(ride: RideId, commits: bool)
    | ExpireState(ride: RideId)
    | ExpireEvents(ride: RideId)

  function TrailOf(j: Journal, ride: RideId): seq<Report> {
    if ride in j.trails then j.trails[ride] else []
  }

  function BufferedOf(j: Journal, ride: RideId): seq<seq<Report>> {
    if ride in j.buffered then j.buffered[ride] else []
  }

  function Tagged(ride: RideId, trails: seq<seq<Report>>): (tagged: seq<(RideId, seq<Report>)>)
    ensures |tagged| == |trails| && forall i :: 0 <= i < |trails| ==> tagged[i] == (ride, trails[i])
  {
    seq(|trails|, i requires 0 <= i < |trails| => (ride, trails[i]))
  }

  /** The tracker moves by its own functions; the rest of the journal only takes notes. */
  function Step(dist: Distance, j: Journal, op: TripOp): Journal {
    match op
    case RecordOp(ride, r) =>
      var trail := TrailOf(j, ride) + [r];
      Journal(Record(dist, j.tracker, ride, r), j.trails[ride := trail],
              j.buffered[ride := BufferedOf(j, ride) + [trail]], j.stored)
    case CompleteOp(ride) => j.(tracker := Complete(j.tracker, ride))
    case FlushOp(ride, commits) =>
      var next := Flushed(j.tracker, ride, commits);
      Journal(next,
              if ride in j.tracker.states && ride !in next.states then j.trails - {ride} else j.trails,
              j.buffered - {ride},
              if commits then j.stored + Tagged(ride, BufferedOf(j, ride)) else j.stored)
    case ExpireState(ride) =>
      j.(tracker := j.tracker.(states := j.tracker.states - {ride}), trails := j.trails - {ride})
    case ExpireEvents(ride) =>
      j.(tracker := j.tracker.(events := j.tracker.events - {ride}), buffered := j.buffered - {ride})
  }

  function Run(dist: Distance, j: Journal, ops: seq<TripOp>): Journal
    decreases |ops|
  {
    if ops == [] then j else Run(dist, Step(dist, j, ops[0]), ops[1..])
  }

  // ----- distances -----

  ghost predicate StateMatches(dist: Distance, st: TripState, trail: seq<Report>) {
    var path := DriverReports(trail);
    && st.totalMeters == PathLength(dist, path)
    && st.lastDriver == (if path == [] then None else Some(path[|path| - 1].location))
    && st.lastRider == LastRiderLocation(trail)
  }

  ghost predicate Explained(dist: Distance, es: seq<TrackEvent>, trails: seq<seq<Report>>) {
    |es| == |trails| && forall i :: 0 <= i < |es| ==> trails[i] != [] && es[i] == ExpectedEvent(dist, trails[i])
  }

  ghost predicate DistancesAddUp(dist: Distance, j: Journal) {
    (forall ride :: TripAddsUp(dist, j, ride)) && StoredAddUp(dist, j)
  }

  /** Every row of trip_track is the event of some trail. */
  ghost predicate StoredAddUp(dist: Distance, j: Journal) {
    && |j.stored| == |j.tracker.rows|
    && (forall i :: 0 <= i < |j.stored| ==> RowExplained(dist, j.stored[i], j.tracker.rows[i]))
  }

  lemma DriverReportsSnoc(trail: seq<Report>, r: Report)
    ensures DriverReports(trail + [r]) == if r.role.Driver? then DriverReports(trail) + [r] else DriverReports(trail)
  {
    var longer := trail + [r];
    assert longer[..|longer| - 1] == trail;
  }

  /** A driver's report lengthens the path by one leg, a rider's report leaves it. */
  lemma TravelledSnoc(dist: Distance, trail: seq<Report>, r: Report)
    ensures var path := DriverReports(trail);
            Travelled(dist, trail + [r]) ==
            if r.role.Driver? && path != [] then Travelled(dist, trail) + Leg(dist, path[|path| - 1], r)
            else Travelled(dist, trail)
  {
    DriverReportsSnoc(trail, r);
    var path := DriverReports(trail);
    assert (path + [r])[..|path|] == path;
  }

  lemma LastRiderSnoc(trail: seq<Report>, r: Report)
    ensures LastRiderLocation(trail + [r]) == if r.role.Rider? then Some(r.location) else LastRiderLocation(trail)
  {
    var longer := trail + [r];
    assert longer[..|longer| - 1] == trail;
  }

  lemma MovedMatches(dist: Distance, st: TripState, trail: seq<Report>, r: Report)
    requires StateMatches(dist, st, trail)
    ensures StateMatches(dist, Moved(dist, st, r), trail + [r])
    ensures Delta(dist, st, r) == Travelled(dist, trail + [r]) - Travelled(dist, trail)
  {
    TravelledSnoc(dist, trail, r);
    DriverReportsSnoc(trail, r);
    LastRiderSnoc(trail, r);
  }

  /** One more report adds exactly its leg; a rider's report adds nothing. */
  lemma ReportAddsItsLeg(dist: Distance, st: TripState, trail: seq<Report>, r: Report)
    requires StateMatches(dist, st, trail)
    ensures StateMatches(dist, Moved(dist, st, r), trail + [r])
    ensures EventFor(dist, st, r) == ExpectedEvent(dist, trail + [r])
  {
    MovedMatches(dist, st, trail, r);
    var longer := trail + [r];
    assert longer[..|longer| - 1] == trail && longer[|longer| - 1] == r;
  }

  /** One trip's share of `DistancesAddUp`. */
  ghost predicate TripAddsUp(dist: Distance, j: Journal, ride: RideId) {
    && StateMatches(dist, StateOf(j.tracker, ride), TrailOf(j, ride))
    && Explained(dist, EventsOf(j.tracker, ride), BufferedOf(j, ride))
  }

  lemma RecordKeepsTrip(dist: Distance, j: Journal, ride: RideId, r: Report, other: RideId)
    requires TripAddsUp(dist, j, ride) && TripAddsUp(dist, j, other)
    ensures TripAddsUp(dist, Step(dist, j, RecordOp(ride, r)), other)
  {
    var k := Step(dist, j, RecordOp(ride, r));
    if ride == other {
      var trail := TrailOf(j, ride) + [r];
      ReportAddsItsLeg(dist, StateOf(j.tracker, ride), TrailOf(j, ride), r);
      assert StateOf(k.tracker, ride) == Moved(dist, StateOf(j.tracker, ride), r) && TrailOf(k, ride) == trail;
      ExplainedSnoc(dist, EventsOf(j.tracker, ride), BufferedOf(j, ride), trail);
      assert EventsOf(k.tracker, ride) == EventsOf(j.tracker, ride) + [ExpectedEvent(dist, trail)];
      assert BufferedOf(k, ride) == BufferedOf(j, ride) + [trail];
    } else {
      assert StateOf(k.tracker, other) == StateOf(j.tracker, other) && TrailOf(k, other) == TrailOf(j, other);
      assert EventsOf(k.tracker, other) == EventsOf(j.tracker, other) && BufferedOf(k, other) == BufferedOf(j, other);
    }
  }

  lemma ExplainedSnoc(dist: Distance, es: seq<TrackEvent>, trails: seq<seq<Report>>, trail: seq<Report>)
    requires Explained(dist, es, trails) && trail != []
    ensures Explained(dist, es + [ExpectedEvent(dist, trail)], trails + [trail])
  {
  }

  lemma FlushKeepsState(dist: Distance, j: Journal, ride: RideId, commits: bool, other: RideId)
    requires TripAddsUp(dist, j, ride) && TripAddsUp(dist, j, other)
    ensures var k := Step(dist, j, FlushOp(ride, commits));
            StateMatches(dist, StateOf(k.tracker, other), TrailOf(k, other))
  {
    var k := Step(dist, j, FlushOp(ride, commits));
    if other in k.tracker.states {
      assert StateOf(k.tracker, other) == StateOf(j.tracker, other) && TrailOf(k, other) == TrailOf(j, other);
    } else if other in j.tracker.states {
      assert other == ride && TrailOf(k, other) == [];
    } else {
      assert StateOf(k.tracker, other) == StateOf(j.tracker, other) && TrailOf(k, other) == TrailOf(j, other);
    }
  }

  lemma FlushEmptiesBuffer(dist: Distance, j: Journal, ride: RideId, commits: bool, other: RideId)
    ensures var k := Step(dist, j, FlushOp(ride, commits));
            && EventsOf(k.tracker, other) == (if other == ride then [] else EventsOf(j.tracker, other))
            && BufferedOf(k, other) == (if other == ride then [] else BufferedOf(j, other))
  {
  }

  lemma FlushKeepsTrip(dist: Distance, j: Journal, ride: RideId, commits: bool, other: RideId)
    requires TripAddsUp(dist, j, ride) && TripAddsUp(dist, j, other)
    ensures TripAddsUp(dist, Step(dist, j, FlushOp(ride, commits)), other)
  {
    FlushKeepsState(dist, j, ride, commits, other);
    FlushEmptiesBuffer(dist, j, ride, commits, other);
  }

  lemma FlushKeepsRows(dist: Distance, j: Journal, ride: RideId, commits: bool)
    requires TripAddsUp(dist, j, ride) && StoredAddUp(dist, j)
    ensures StoredAddUp(dist, Step(dist, j, FlushOp(ride, commits)))
  {
    var k := Step(dist, j, FlushOp(ride, commits));
    var es, trails := EventsOf(j.tracker, ride), BufferedOf(j, ride);
    if commits {
      assert k.stored == j.stored + Tagged(ride, trails);
      if es == [] {
        assert Tagged(ride, trails) == [] && RowsOf(ride, es) == [];
      }
      assert k.tracker.rows == j.tracker.rows + RowsOf(ride, es);
      AppendRows(dist, j, k, ride);
    } else {
      assert k.stored == j.stored && k.tracker.rows == j.tracker.rows;
    }
  }

  /** The row carries the last report of its trail, the distance travelled up to it and the leg that led to it. */
  predicate RowExplained(dist: Distance, stored: (RideId, seq<Report>), row: TrackRow) {
    && stored.1 != []
    && var trail, n := stored.1, |stored.1| - 1;
    && row.ride == stored.0
    && row.client == trail[n].client && row.role == trail[n].role
    && row.point == trail[n].location.point && row.recordedAt == trail[n].location.recordedAt
    && row.totalMeters == Travelled(dist, trail)
    && row.deltaMeters == Travelled(dist, trail) - Travelled(dist, trail[..n])
  }

  lemma AppendRows(dist: Distance, j: Journal, k: Journal, ride: RideId)
    requires StoredAddUp(dist, j) && Explained(dist, EventsOf(j.tracker, ride), BufferedOf(j, ride))
    requires k.stored == j.stored + Tagged(ride, BufferedOf(j, ride))
    requires k.tracker.rows == j.tracker.rows + RowsOf(ride, EventsOf(j.tracker, ride))
    ensures StoredAddUp(dist, k)
  {
    var es, trails := EventsOf(j.tracker, ride), BufferedOf(j, ride);
    var rows, tagged := RowsOf(ride, es), Tagged(ride, trails);
    forall n | 0 <= n < |tagged|
      ensures RowExplained(dist, tagged[n], rows[n])
    {
      assert es[n] == ExpectedEvent(dist, trails[n]);
    }
    RowsAppend(dist, j.stored, j.tracker.rows, tagged, rows);
  }

  lemma RowsAppend(dist: Distance, stored: seq<(RideId, seq<Report>)>, rows: seq<TrackRow>,
                   more: seq<(RideId, seq<Report>)>, moreRows: seq<TrackRow>)
    requires |stored| == |rows| && |more| == |moreRows|
    requires forall i :: 0 <= i < |stored| ==> RowExplained(dist, stored[i], rows[i])
    requires forall i :: 0 <= i < |more| ==> RowExplained(dist, more[i], moreRows[i])
    ensures forall i :: 0 <= i < |stored + more| ==> RowExplained(dist, (stored + more)[i], (rows + moreRows)[i])
  {
  }

  lemma OtherStepsKeepTrip(dist: Distance, j: Journal, op: TripOp, other: RideId)
    requires TripAddsUp(dist, j, other) && (op.CompleteOp? || op.ExpireState? || op.ExpireEvents?)
    ensures TripAddsUp(dist, Step(dist, j, op), other)
  {
    var k := Step(dist, j, op);
    if op.ExpireEvents? {
      assert StateOf(k.tracker, other) == StateOf(j.tracker, other) && TrailOf(k, other) == TrailOf(j, other);
    } else {
      assert EventsOf(k.tracker, other) == EventsOf(j.tracker, other) && BufferedOf(k, other) == BufferedOf(j, other);
      if op.ride != other {
        assert StateOf(k.tracker, other) == StateOf(j.tracker, other) && TrailOf(k, other) == TrailOf(j, other);
      }
    }
  }

  lemma StepKeepsDistances(dist: Distance, j: Journal, op: TripOp)
    requires DistancesAddUp(dist, j)
    ensures DistancesAddUp(dist, Step(dist, j, op))
  {
    assert TripAddsUp(dist, j, op.ride);
    forall other
      ensures TripAddsUp(dist, Step(dist, j, op), other)
    {
      assert TripAddsUp(dist, j, other);
      match op
      case RecordOp(ride, r) => RecordKeepsTrip(dist, j, ride, r, other);
      case FlushOp(ride, commits) => FlushKeepsTrip(dist, j, ride, commits, other);
      case _ => OtherStepsKeepTrip(dist, j, op, other);
    }
    if op.FlushOp? {
      FlushKeepsRows(dist, j, op.ride, op.commits);
    }
  }

  lemma {:induction false} RunKeepsDistances(dist: Distance, j: Journal, ops: seq<TripOp>)
    requires DistancesAddUp(dist, j)
    ensures DistancesAddUp(dist, Run(dist, j, ops))
    decreases |ops|
  {
    if ops != [] {
      StepKeepsDistances(dist, j, ops[0]);
      RunKeepsDistances(dist, Step(dist, j, ops[0]), ops[1..]);
    }
  }

  /** Over every sequence of reports, completions, flushes (committed or not) and expiries: the stored total of each
      trip is the length of the path its driver reported since the state was created, and every buffered event and
      every row of trip_track carries the length of the path up to its own report. */
  lemma DistanceIsAFold(dist: Distance, ops: seq<TripOp>)
    ensures var j := Run(dist, NEW_JOURNAL, ops);
            && (forall ride :: StateOf(j.tracker, ride).totalMeters == Travelled(dist, TrailOf(j, ride)))
            && (forall ride :: Explained(dist, EventsOf(j.tracker, ride), BufferedOf(j, ride)))
            && StoredAddUp(dist, j)
  {
    assert StateMatches(dist, INITIAL_STATE, []);
    RunKeepsDistances(dist, NEW_JOURNAL, ops);
    var j := Run(dist, NEW_JOURNAL, ops);
    forall ride
      ensures StateOf(j.tracker, ride).totalMeters == Travelled(dist, TrailOf(j, ride))
      ensures Explained(dist, EventsOf(j.tracker, ride), BufferedOf(j, ride))
    {
      assert TripAddsUp(dist, j, ride);
    }
  }

  /** The tracked total of a ride never falls from one step to the next while its state stays, and a rider's report, a
      completion or a flush leaves it unchanged. Distances are not negative. */
  lemma TotalNeverFalls(dist: Distance, j: Journal, op: TripOp, ride: RideId)
    requires forall p, q :: dist(p, q) >= 0.0
    requires ride in j.tracker.states && ride in Step(dist, j, op).tracker.states
    ensures var before, after := j.tracker.states[ride].totalMeters, Step(dist, j, op).tracker.states[ride].totalMeters;
            before <= after && (before == after || (op.RecordOp? && op.report.role.Driver? && op.ride == ride))
  {
  }

  /** The state of the ride is neither expired nor cleaned up during the run. */
  predicate StateStays(dist: Distance, j: Journal, ops: seq<TripOp>, ride: RideId)
    decreases |ops|
  {
    ride in j.tracker.states && (ops == [] || StateStays(dist, Step(dist, j, ops[0]), ops[1..], ride))
  }

  /** Hence over every run: until its state is cleaned up or expires, the total of a ride only grows. */
  lemma {:induction false} TotalsNeverFall(dist: Distance, j: Journal, ops: seq<TripOp>, ride: RideId)
    requires (forall p, q :: dist(p, q) >= 0.0) && StateStays(dist, j, ops, ride)
    ensures ride in Run(dist, j, ops).tracker.states
    ensures j.tracker.states[ride].totalMeters <= Run(dist, j, ops).tracker.states[ride].totalMeters
    decreases |ops|
  {
    if ops != [] {
      TotalNeverFalls(dist, j, ops[0], ride);
      TotalsNeverFall(dist, Step(dist, j, ops[0]), ops[1..], ride);
    }
  }

  // ----- summaries -----

  /** The trail behind the last row of trip_track for a ride and role. */
  function LastStored(stored: seq<(RideId, seq<Report>)>, ride: RideId, role: Role): Option<seq<Report>> {
    if stored == [] then None
    else
      var last := stored[|stored| - 1];
      if last.0 == ride && last.1 != [] && last.1[|last.1| - 1].role == role then Some(last.1)
      else LastStored(stored[..|stored| - 1], ride, role)
  }

  /** The row shows client and position of the last stored report and, for the driver, the distance travelled up to it;
      there is no row before the first report is stored. */
  ghost predicate SummaryShows(dist: Distance, summaries: map<(RideId, Role), Summary>, ride: RideId, role: Role,
                               last: Option<seq<Report>>)
  {
    if last.None? then (ride, role) !in summaries
    else
      && (ride, role) in summaries && last.value != []
      && var row, r := summaries[(ride, role)], last.value[|last.value| - 1];
      && row.client == r.client && row.location == r.location
      && row.totalMeters == if role.Driver? then Some(Travelled(dist, last.value)) else None
  }

  /** Each summary row shows the last persisted event of its ride and role, and there are no others. */
  ghost predicate SummariesCurrent(dist: Distance, j: Journal) {
    forall ride: RideId, role: Role ::
      SummaryShows(dist, j.tracker.summaries, ride, role, LastStored(j.stored, ride, role))
  }

  /** The trail behind the latest event of a role in a batch. */
  function LastTrail(es: seq<TrackEvent>, trails: seq<seq<Report>>, role: Role): Option<seq<Report>>
    requires |es| == |trails|
  {
    if es == [] then None
    else if es[|es| - 1].role == role then Some(trails[|es| - 1])
    else LastTrail(es[..|es| - 1], trails[..|es| - 1], role)
  }

  lemma {:induction false} LastTrailExplains(dist: Distance, es: seq<TrackEvent>, trails: seq<seq<Report>>, role: Role)
    requires Explained(dist, es, trails)
    ensures var last := LastTrail(es, trails, role);
            if last.Some? then last.value != [] && Latest(es, role) == Some(ExpectedEvent(dist, last.value))
            else Latest(es, role).None?
    decreases |es|
  {
    if es != [] {
      LastTrailExplains(dist, es[..|es| - 1], trails[..|es| - 1], role);
    }
  }

  lemma {:induction false} LatestHasRole(es: seq<TrackEvent>, role: Role)
    ensures Latest(es, role).Some? ==> Latest(es, role).value.role == role
    decreases |es|
  {
    if es != [] {
      LatestHasRole(es[..|es| - 1], role);
    }
  }

  lemma EventIsShown(dist: Distance, summaries: map<(RideId, Role), Summary>, ride: RideId, role: Role, trail: seq<Report>)
    requires trail != [] && ExpectedEvent(dist, trail).role == role && (ride, role) in summaries
    requires summaries[(ride, role)] == SummaryOf(ExpectedEvent(dist, trail))
    ensures SummaryShows(dist, summaries, ride, role, Some(trail))
  {
  }

  ghost predicate SameRoles(es: seq<TrackEvent>, trails: seq<seq<Report>>) {
    |es| == |trails| && forall i :: 0 <= i < |es| ==> trails[i] != [] && trails[i][|trails[i]| - 1].role == es[i].role
  }

  /** After a flush the last stored trail of a role is the one behind the latest flushed event of that role. */
  lemma {:induction false} LastStoredAfterFlush(
    stored: seq<(RideId, seq<Report>)>, ride: RideId, es: seq<TrackEvent>, trails: seq<seq<Report>>,
    other: RideId, role: Role)
    requires SameRoles(es, trails)
    ensures LastStored(stored + Tagged(ride, trails), other, role) ==
            if other == ride && LastTrail(es, trails, role).Some? then LastTrail(es, trails, role)
            else LastStored(stored, other, role)
    decreases |es|
  {
    if es == [] {
      assert stored + Tagged(ride, trails) == stored;
    } else {
      var n := |es| - 1;
      TaggedSnoc(stored, ride, trails);
      LastStoredSnoc(stored + Tagged(ride, trails[..n]), ride, trails[n], other, role);
      LastStoredAfterFlush(stored, ride, es[..n], trails[..n], other, role);
    }
  }

  lemma TaggedSnoc(stored: seq<(RideId, seq<Report>)>, ride: RideId, trails: seq<seq<Report>>)
    requires trails != []
    ensures var n := |trails| - 1;
            stored + Tagged(ride, trails) == stored + Tagged(ride, trails[..n]) + [(ride, trails[n])]
  {
  }

  lemma LastStoredSnoc(stored: seq<(RideId, seq<Report>)>, ride: RideId, trail: seq<Report>, other: RideId, role: Role)
    ensures LastStored(stored + [(ride, trail)], other, role) ==
            if ride == other && trail != [] && trail[|trail| - 1].role == role then Some(trail)
            else LastStored(stored, other, role)
  {
    var all := stored + [(ride, trail)];
    assert all[..|all| - 1] == stored;
  }

  lemma SummarizedAt(summaries: map<(RideId, Role), Summary>, ride: RideId, es: seq<TrackEvent>, other: RideId, role: Role)
    ensures var after := Summarized(summaries, ride, es);
            if other == ride && Latest(es, role).Some? then
              (other, role) in after && after[(other, role)] == SummaryOf(Latest(es, role).value)
            else
              && ((other, role) in after <==> (other, role) in summaries)
              && ((other, role) in after ==> after[(other, role)] == summaries[(other, role)])
  {
  }

  lemma UpsertShowsLatest(
    dist: Distance, summaries: map<(RideId, Role), Summary>, stored: seq<(RideId, seq<Report>)>, ride: RideId,
    es: seq<TrackEvent>, trails: seq<seq<Report>>, other: RideId, role: Role)
    requires Explained(dist, es, trails)
    requires SummaryShows(dist, summaries, other, role, LastStored(stored, other, role))
    ensures SummaryShows(dist, Summarized(summaries, ride, es), other, role,
                         LastStored(stored + Tagged(ride, trails), other, role))
  {
    assert SameRoles(es, trails) by {
      forall i | 0 <= i < |es| ensures trails[i] != [] && trails[i][|trails[i]| - 1].role == es[i].role {
        assert es[i] == ExpectedEvent(dist, trails[i]);
      }
    }
    LastStoredAfterFlush(stored, ride, es, trails, other, role);
    LastTrailExplains(dist, es, trails, role);
    LatestHasRole(es, role);
    SummarizedAt(summaries, ride, es, other, role);
    var last := LastTrail(es, trails, role);
    if other == ride && last.Some? {
      EventIsShown(dist, Summarized(summaries, ride, es), other, role, last.value);
    } else {
      StillShown(dist, summaries, Summarized(summaries, ride, es), other, role, LastStored(stored, other, role));
    }
  }

  lemma StillShown(dist: Distance, before: map<(RideId, Role), Summary>, after: map<(RideId, Role), Summary>,
                   ride: RideId, role: Role, last: Option<seq<Report>>)
    requires SummaryShows(dist, before, ride, role, last)
    requires (ride, role) in after <==> (ride, role) in before
    requires (ride, role) in before ==> after[(ride, role)] == before[(ride, role)]
    ensures SummaryShows(dist, after, ride, role, last)
  {
  }

  lemma FlushKeepsSummaries(dist: Distance, j: Journal, ride: RideId, commits: bool)
    requires DistancesAddUp(dist, j) && SummariesCurrent(dist, j)
    ensures SummariesCurrent(dist, Step(dist, j, FlushOp(ride, commits)))
  {
    var k := Step(dist, j, FlushOp(ride, commits));
    var es, trails := EventsOf(j.tracker, ride), BufferedOf(j, ride);
    assert TripAddsUp(dist, j, ride);
    var stored := if commits && es != [] then j.stored + Tagged(ride, trails) else j.stored;
    var summaries := if commits && es != [] then Summarized(j.tracker.summaries, ride, es) else j.tracker.summaries;
    assert k.tracker.summaries == summaries;
    assert k.stored == stored by {
      if es == [] {
        assert Tagged(ride, trails) == [];
      }
    }
    forall other: RideId, role: Role
      ensures SummaryShows(dist, summaries, other, role, LastStored(stored, other, role))
    {
      assert SummaryShows(dist, j.tracker.summaries, other, role, LastStored(j.stored, other, role));
      if commits && es != [] {
        UpsertShowsLatest(dist, j.tracker.summaries, j.stored, ride, es, trails, other, role);
      }
    }
  }

  lemma {:induction false} RunKeepsSummaries(dist: Distance, j: Journal, ops: seq<TripOp>)
    requires DistancesAddUp(dist, j) && SummariesCurrent(dist, j)
    ensures SummariesCurrent(dist, Run(dist, j, ops))
    decreases |ops|
  {
    if ops != [] {
      StepKeepsDistances(dist, j, ops[0]);
      if ops[0].FlushOp? {
        FlushKeepsSummaries(dist, j, ops[0].ride, ops[0].commits);
      }
      RunKeepsSummaries(dist, Step(dist, j, ops[0]), ops[1..]);
    }
  }

  /** Over every sequence of steps the summary of a ride and role is the last persisted event of that role: for the
      driver with the total, for the rider with none. */
  lemma SummaryIsLastPersisted(dist: Distance, ops: seq<TripOp>)
    ensures SummariesCurrent(dist, Run(dist, NEW_JOURNAL, ops))
  {
    assert forall ride :: TripAddsUp(dist, NEW_JOURNAL, ride);
    RunKeepsSummaries(dist, NEW_JOURNAL, ops);
  }

  // ----- what one step touches -----

  /** Nothing that belongs to any other ride differs. */
  ghost predicate OthersUntouched(t: Tracker, u: Tracker, ride: RideId) {
    && (forall x :: x != ride ==> (x in u.states <==> x in t.states) && (x in u.events <==> x in t.events))
    && (forall x :: x != ride && x in t.states ==> u.states[x] == t.states[x])
    && (forall x :: x != ride && x in t.events ==> u.events[x] == t.events[x])
    && (forall x :: x != ride ==> (x in u.active <==> x in t.active) && (x in u.flushJobs <==> x in t.flushJobs))
    && (forall x, role: Role :: x != ride ==> ((x, role) in u.summaries <==> (x, role) in t.summaries))
    && (forall x, role: Role :: x != ride && (x, role) in t.summaries ==> u.summaries[(x, role)] == t.summaries[(x, role)])
    && t.rows <= u.rows && (forall i :: |t.rows| <= i < |u.rows| ==> u.rows[i].ride == ride)
  }

  /** A flush takes the events out of the buffer in any case. When they are stored, or there were none, a completed ride
      leaves no key behind; a ride under way keeps its state and stays listed. A rolled-back flush stores nothing and
      cleans nothing up. */
  lemma FlushClearsCompletedRides(t: Tracker, ride: RideId, commits: bool)
    ensures var u := Flushed(t, ride, commits);
            var n := |EventsOf(t, ride)|;
            && OthersUntouched(t, u, ride) && u.flushJobs == t.flushJobs
            && EventsOf(u, ride) == [] && |u.rows| == |t.rows| + (if commits then n else 0)
            && (StateOf(t, ride).completed && (commits || n == 0) ==>
                  ride !in u.states && ride !in u.events && ride !in u.active)
            && (!StateOf(t, ride).completed || (n > 0 && !commits) ==>
                  u.states == t.states && u.active == t.active)
            && (!commits ==> u.rows == t.rows && u.summaries == t.summaries)
  {
    forall x: RideId, role: Role | x != ride
      ensures var after := Summarized(t.summaries, ride, EventsOf(t, ride));
              && ((x, role) in after <==> (x, role) in t.summaries)
              && ((x, role) in t.summaries ==> after[(x, role)] == t.summaries[(x, role)])
    {
      SummarizedAt(t.summaries, ride, EventsOf(t, ride), x, role);
    }
  }

  /** The first completion marks the state and queues one flush; a repeated one changes nothing. */
  lemma CompletionIsQueuedOnce(t: Tracker, ride: RideId)
    ensures var u := Complete(t, ride);
            && StateOf(u, ride) == StateOf(t, ride).(completed := true)
            && OthersUntouched(t, u, ride) && EventsOf(u, ride) == EventsOf(t, ride) && u.active == t.active
            && u.rows == t.rows && u.summaries == t.summaries
            && (if StateOf(t, ride).completed then u == t else ride in u.flushJobs)
  {
  }

  /** A report is buffered behind the earlier ones and lists its ride; it stores nothing, completes nothing, and queues
      nothing. */
  lemma ReportOnlyBuffers(dist: Distance, t: Tracker, ride: RideId, r: Report)
    ensures var u := Record(dist, t, ride, r);
            && OthersUntouched(t, u, ride) && ride in u.active
            && EventsOf(u, ride) == EventsOf(t, ride) + [EventFor(dist, StateOf(t, ride), r)]
            && StateOf(u, ride).completed == StateOf(t, ride).completed
            && u.rows == t.rows && u.summaries == t.summaries && u.flushJobs == t.flushJobs
  {
  }

  // ----- draining -----

  /** Every buffer that holds events is listed for flushing. */
  ghost predicate Listed(t: Tracker) {
    forall ride :: EventsOf(t, ride) != [] ==> ride in t.active
  }

  lemma {:induction false} BuffersAreListed(dist: Distance, j: Journal, ops: seq<TripOp>)
    requires Listed(j.tracker)
    ensures Listed(Run(dist, j, ops).tracker)
    decreases |ops|
  {
    if ops != [] {
      BuffersAreListed(dist, Step(dist, j, ops[0]), ops[1..]);
    }
  }

  lemma {:induction false} FlushedEachEmpties(t: Tracker, rides: seq<RideId>, failing: set<RideId>)
    ensures var u := FlushedEach(t, rides, failing);
            && (forall ride :: EventsOf(u, ride) == if ride in rides then [] else EventsOf(t, ride))
            && (forall row :: row in t.rows ==> row in u.rows)
            && (forall ride, e :: ride in rides && ride !in failing && e in EventsOf(t, ride) ==> RowOf(ride, e) in u.rows)
    decreases |rides|
  {
    if rides != [] {
      var r := rides[0];
      var u := Flushed(t, r, r !in failing);
      forall e | r !in failing && e in EventsOf(t, r)
        ensures RowOf(r, e) in u.rows
      {
        var i :| 0 <= i < |EventsOf(t, r)| && EventsOf(t, r)[i] == e;
        assert RowsOf(r, EventsOf(t, r))[i] == RowOf(r, e);
      }
      FlushedEachEmpties(u, rides[1..], failing);
    }
  }

  /** After any run, a flush of all listed rides leaves no event in any buffer, and every event whose transaction
      committed is in trip_track. */
  lemma FlushAllDrains(dist: Distance, ops: seq<TripOp>, order: seq<RideId>, failing: set<RideId>)
    requires forall ride :: ride in order <==> ride in Run(dist, NEW_JOURNAL, ops).tracker.active
    ensures var t := Run(dist, NEW_JOURNAL, ops).tracker;
            var u := FlushedEach(t, order, failing);
            && (forall ride :: EventsOf(u, ride) == [])
            && (forall ride, e :: ride !in failing && e in EventsOf(t, ride) ==> RowOf(ride, e) in u.rows)
  {
    BuffersAreListed(dist, NEW_JOURNAL, ops);
    FlushedEachEmpties(Run(dist, NEW_JOURNAL, ops).tracker, order, failing);
  }
}
