/** `TripTrackingService` with one method as one step: the Redis keys of a trip, the two trip tables, and the service
    class proved against functions on their value. The finer interleaving of its Redis commands is the subject of
    `TripFlushRaces`. */
module TripTracking {
  import opened Base

  type RideId = nat
  type ClientId = nat

  datatype Role = Driver | Rider

  datatype Point = Point(longitude: real, latitude: real)

  datatype Location = Location(point: Point, accuracyMeters: Option<real>, recordedAt: nat)

  datatype TripState = TripState(
    lastDriver: Option<Location>, lastRider: Option<Location>, totalMeters: real, completed: bool)

  const INITIAL_STATE := TripState(None, None, 0.0, false)

  datatype TrackEvent = TrackEvent(
    role: Role, client: ClientId, location: Location, deltaMeters: real, totalMeters: real)

  datatype TrackRow = TrackRow(
    ride: RideId, client: ClientId, role: Role, point: Point, deltaMeters: real, totalMeters: real, recordedAt: nat)

  datatype Summary = Summary(client: ClientId, location: Location, totalMeters: Option<real>)

  /** `rows` and `summaries` are the tables trip_track and trip_summary; the rest lives in Redis and the job queue. */
  datatype Tracker = Tracker(
    states: map<RideId, TripState>,
    events: map<RideId, seq<TrackEvent>>,
    active: set<RideId>,
    flushJobs: set<RideId>,
    rows: seq<TrackRow>,
    summaries: map<(RideId, Role), Summary>)

  const NEW_TRACKER := Tracker(map[], map[], {}, {}, [], map[])

  /** One reported position. `measured` says whether Redis answered the distance query; a failed query counts 0. */
  datatype Report = Report(client: ClientId, role: Role, location: Location, measured: bool)

  /** The distance Redis computes between two points. */
  type Distance = (Point, Point) -> real

  function StateOf(t: Tracker, ride: RideId): TripState {
    if ride in t.states then t.states[ride] else INITIAL_STATE
  }

  function EventsOf(t: Tracker, ride: RideId): seq<TrackEvent> {
    if ride in t.events then t.events[ride] else []
  }

  function Delta(dist: Distance, st: TripState, r: Report): real {
    if r.role.Driver? && st.lastDriver.Some? && r.measured then dist(st.lastDriver.value.point, r.location.point)
    else 0.0
  }

  function Moved(dist: Distance, st: TripState, r: Report): TripState {
    TripState(
      if r.role.Driver? then Some(r.location) else st.lastDriver,
      if r.role.Rider? then Some(r.location) else st.lastRider,
      if r.role.Driver? then st.totalMeters + Delta(dist, st, r) else st.totalMeters,
      st.completed)
  }

  function EventFor(dist: Distance, st: TripState, r: Report): TrackEvent {
    TrackEvent(r.role, r.client, r.location, Delta(dist, st, r), Moved(dist, st, r).totalMeters)
  }

  function Record(dist: Distance, t: Tracker, ride: RideId, r: Report): Tracker {
    var st := StateOf(t, ride);
    t.(states := t.states[ride := Moved(dist, st, r)],
       active := t.active + {ride},
       events := t.events[ride := EventsOf(t, ride) + [EventFor(dist, st, r)]])
  }

  function Complete(t: Tracker, ride: RideId): Tracker {
    var st := StateOf(t, ride);
    if st.completed then t
    else t.(states := t.states[ride := st.(completed := true)], flushJobs := t.flushJobs + {ride})
  }

  function CleanedUp(t: Tracker, ride: RideId): Tracker {
    t.(states := t.states - {ride}, events := t.events - {ride}, active := t.active - {ride})
  }

  function RowOf(ride: RideId, e: TrackEvent): TrackRow {
    TrackRow(ride, e.client, e.role, e.location.point, e.deltaMeters, e.totalMeters, e.location.recordedAt)
  }

  function RowsOf(ride: RideId, es: seq<TrackEvent>): (rows: seq<TrackRow>)
    ensures |rows| == |es| && forall i :: 0 <= i < |es| ==> rows[i] == RowOf(ride, es[i])
  {
    seq(|es|, i requires 0 <= i < |es| => RowOf(ride, es[i]))
  }

  function SummaryOf(e: TrackEvent): Summary {
    Summary(e.client, e.location, if e.role.Driver? then Some(e.totalMeters) else None)
  }

  /** The latest event of a role, if there is one. */
  function Latest(es: seq<TrackEvent>, role: Role): Option<TrackEvent> {
    if es == [] then None
    else if es[|es| - 1].role == role then Some(es[|es| - 1])
    else Latest(es[..|es| - 1], role)
  }

  /** The summary rows after an upsert of the latest event of each role. */
  function Summarized(before: map<(RideId, Role), Summary>, ride: RideId, es: seq<TrackEvent>): map<(RideId, Role), Summary> {
    var d, r := Latest(es, Driver), Latest(es, Rider);
    var withDriver := if d.Some? then before[(ride, Driver) := SummaryOf(d.value)] else before;
    if r.Some? then withDriver[(ride, Rider) := SummaryOf(r.value)] else withDriver
  }

  /** One flush; `commits` is the fate of the transaction. The events are deleted before the transaction runs. */
  function Flushed(t: Tracker, ride: RideId, commits: bool): Tracker {
    var es := EventsOf(t, ride);
    if es == [] then (if StateOf(t, ride).completed then CleanedUp(t, ride) else t)
    else
      var deleted := t.(events := t.events - {ride});
      if !commits then deleted
      else
        var stored := deleted.(rows := t.rows + RowsOf(ride, es), summaries := Summarized(t.summaries, ride, es));
        if StateOf(t, ride).completed then CleanedUp(stored, ride) else stored
  }

  /** Flushing rides one after the other; a ride in `failing` has its transaction rolled back. */
  function FlushedEach(t: Tracker, rides: seq<RideId>, failing: set<RideId>): Tracker
    decreases |rides|
  {
    if rides == [] then t
    else FlushedEach(Flushed(t, rides[0], rides[0] !in failing), rides[1..], failing)
  }

  lemma {:induction false} FlushedEachAppend(t: Tracker, rides: seq<RideId>, ride: RideId, failing: set<RideId>)
    ensures FlushedEach(t, rides + [ride], failing) == Flushed(FlushedEach(t, rides, failing), ride, ride !in failing)
    decreases |rides|
  {
    if rides == [] {
      assert [] + [ride] == [ride];
      assert FlushedEach(t, [ride], failing) == FlushedEach(Flushed(t, ride, ride !in failing), [], failing);
    } else {
      assert (rides + [ride])[1..] == rides[1..] + [ride];
      FlushedEachAppend(Flushed(t, rides[0], rides[0] !in failing), rides[1..], ride, failing);
    }
  }

  /** What `flushRide` collects in its Map while it walks over the events. */
  function LatestByRole(es: seq<TrackEvent>): map<Role, Summary> {
    map role | role in {Driver, Rider} && Latest(es, role).Some? :: SummaryOf(Latest(es, role).value)
  }

  /** Summaries of one ride under their table key. */
  function Keyed(ride: RideId, latest: map<Role, Summary>): map<(RideId, Role), Summary> {
    map key | key in (set role | role in latest :: (ride, role)) :: latest[key.1]
  }

  /** The statement of a flush transaction that fails, if one does. */
  datatype FlushStatement = InsertRows | UpsertSummaries | Commit

  class TripTrackingService {
    const distance: Distance
    var states: map<RideId, TripState>
    var events: map<RideId, seq<TrackEvent>>
    var active: set<RideId>
    var flushJobs: set<RideId>
    var rows: seq<TrackRow>
    var summaries: map<(RideId, Role), Summary>

    ghost function View(): Tracker
      reads this
    {
      Tracker(states, events, active, flushJobs, rows, summaries)
    }

    constructor (distance: Distance)
      ensures View() == NEW_TRACKER && this.distance == distance
    {
      this.distance := distance;
      states, events, active, flushJobs, rows, summaries := map[], map[], {}, {}, [], map[];
    }

    method GetState(ride: RideId) returns (st: TripState)
      ensures st == StateOf(View(), ride)
    {
      if ride in states {
        return states[ride];
      }
      return INITIAL_STATE;
    }

    method RecordLocation(ride: RideId, r: Report) returns (totalMeters: real, deltaMeters: real)
      modifies this
      ensures View() == Record(distance, old(View()), ride, r)
      ensures totalMeters == StateOf(View(), ride).totalMeters
      ensures deltaMeters == Delta(distance, StateOf(old(View()), ride), r)
    {
      var st := GetState(ride);
      var previous := if r.role.Driver? then st.lastDriver else st.lastRider;
      deltaMeters := 0.0;
      if r.role.Driver? && previous.Some? && r.measured {
        deltaMeters := distance(previous.value.point, r.location.point);
      }
      totalMeters := st.totalMeters;
      if r.role.Driver? {
        totalMeters := totalMeters + deltaMeters;
        st := st.(lastDriver := Some(r.location));
      } else {
        st := st.(lastRider := Some(r.location));
      }
      states := states[ride := st.(totalMeters := totalMeters)];
      active := active + {ride};
      var event := TrackEvent(r.role, r.client, r.location, deltaMeters, totalMeters);
      events := events[ride := (if ride in events then events[ride] else []) + [event]];
    }

    method MarkRideCompleted(ride: RideId)
      modifies this
      ensures View() == Complete(old(View()), ride)
    {
      var st := GetState(ride);
      if !st.completed {
        states := states[ride := st.(completed := true)];
        flushJobs := flushJobs + {ride};
      }
    }

    method CleanupRide(ride: RideId)
      modifies this
      ensures View() == CleanedUp(old(View()), ride)
    {
      states := states - {ride};
      events := events - {ride};
      active := active - {ride};
    }

    /** The loop of `flushRide`: one row per event, and per role the summary of its latest event. */
    static method Collect(ride: RideId, payloads: seq<TrackEvent>)
      returns (entries: seq<TrackRow>, latest: map<Role, Summary>)
      ensures entries == RowsOf(ride, payloads)
      ensures latest == LatestByRole(payloads)
    {
      entries, latest := [], map[];
      for i := 0 to |payloads|
        invariant entries == RowsOf(ride, payloads[..i])
        invariant latest == LatestByRole(payloads[..i])
      {
        var e := payloads[i];
        assert payloads[..i + 1][..i] == payloads[..i];
        entries := entries + [RowOf(ride, e)];
        latest := latest[e.role := SummaryOf(e)];
      }
      assert payloads[..|payloads|] == payloads;
    }

    /** The transaction: the rows are inserted, the summaries upserted and the whole committed; a failing statement
        rolls everything back. */
    method PersistFlush(ride: RideId, entries: seq<TrackRow>, latest: map<Role, Summary>, fault: Option<FlushStatement>)
      returns (ok: bool)
      modifies this`rows, this`summaries
      ensures ok == fault.None?
      ensures !ok ==> rows == old(rows) && summaries == old(summaries)
      ensures ok ==> rows == old(rows) + entries && summaries == old(summaries) + Keyed(ride, latest)
    {
      var beginRows, beginSummaries := rows, summaries;
      ok := !(fault.Some? && fault.value.InsertRows?);
      if ok {
        rows := rows + entries;
        ok := !(fault.Some? && fault.value.UpsertSummaries?);
      }
      if ok {
        UpsertLatest(ride, latest);
        ok := !(fault.Some? && fault.value.Commit?);
      }
      if !ok {
        rows, summaries := beginRows, beginSummaries;
      }
    }

    method UpsertLatest(ride: RideId, latest: map<Role, Summary>)
      modifies this`summaries
      ensures summaries == old(summaries) + Keyed(ride, latest)
    {
      ghost var upserts := Keyed(ride, latest);
      assert forall role :: role in latest <==> (ride, role) in upserts;
      if Driver in latest {
        summaries := summaries[(ride, Driver) := latest[Driver]];
      }
      if Rider in latest {
        summaries := summaries[(ride, Rider) := latest[Rider]];
      }
      assert summaries == old(summaries) + upserts by {
        forall key | key in upserts ensures key in summaries && summaries[key] == upserts[key] {
          assert key.1 == Driver || key.1 == Rider;
        }
      }
    }

    method FlushRide(ride: RideId, fault: Option<FlushStatement>) returns (ok: bool)
      modifies this
      ensures View() == Flushed(old(View()), ride, fault.None?)
      ensures !ok <==> EventsOf(old(View()), ride) != [] && fault.Some?
    {
      var payloads := if ride in events then events[ride] else [];
      if payloads == [] {
        var st := GetState(ride);
        if st.completed {
          CleanupRide(ride);
        }
        return true;
      }
      events := events - {ride};
      var entries, latest := Collect(ride, payloads);
      ok := PersistFlush(ride, entries, latest, fault);
      if !ok {
        return false;
      }
      assert summaries == Summarized(old(summaries), ride, payloads) by {
        assert forall role :: role in latest <==> (ride, role) in Keyed(ride, latest);
        assert Keyed(ride, latest).Keys <= {(ride, Driver), (ride, Rider)};
      }
      var st := GetState(ride);
      if st.completed && ride !in events {
        CleanupRide(ride);
      }
      return true;
    }

    /** Flushes every active ride; a failing one is logged and does not stop the others. `faults` says whose transaction
        fails, `order` is the order in which the set was listed. */
    method FlushAll(faults: map<RideId, FlushStatement>) returns (ghost order: seq<RideId>)
      modifies this
      ensures |order| == |old(active)| && forall ride :: ride in order <==> ride in old(active)
      ensures View() == FlushedEach(old(View()), order, faults.Keys)
    {
      order := [];
      var pending := active;
      while pending != {}
        invariant pending <= old(active) && |order| + |pending| == |old(active)|
        invariant forall x :: x in order <==> x in old(active) && x !in pending
        invariant View() == FlushedEach(old(View()), order, faults.Keys)
        decreases pending
      {
        var ride :| ride in pending;
        pending := pending - {ride};
        FlushedEachAppend(old(View()), order, ride, faults.Keys);
        var ok := FlushRide(ride, if ride in faults then Some(faults[ride]) else None);
        assert forall x :: x in order + [ride] <==> x in order || x == ride;
        order := order + [ride];
      }
    }
  }
}
