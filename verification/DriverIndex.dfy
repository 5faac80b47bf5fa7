/** The Redis index of driver positions: the geo set, the sorted set of activity scores, the metadata hash and the
    per-driver hashes; the store that writes them, the sweep that evicts idle drivers, and the nearby query. */
module DriverIndex {
  import opened Base

  type DriverId = nat

  /** A member of the geo set; `cell` is the geohash that orders the set. */
  datatype GeoEntry = GeoEntry(id: DriverId, longitude: real, latitude: real, cell: nat)

  datatype Metadata = Metadata(accuracyMeters: Option<real>, updatedAt: nat)

  datatype Snapshot = Snapshot(longitude: real, latitude: real, accuracyMeters: real, updatedAt: nat)

  datatype Index = Index(
    geo: seq<GeoEntry>,
    active: map<DriverId, nat>,
    metadata: map<DriverId, Metadata>,
    snapshots: map<DriverId, Snapshot>)

  const EMPTY_INDEX := Index([], map[], map[], map[])

  function NotIn(ids: set<DriverId>): GeoEntry -> bool {
    (e: GeoEntry) => e.id !in ids
  }

  function Ids(geo: seq<GeoEntry>): set<DriverId> {
    set e | e in geo :: e.id
  }

  /** ZADD into the geo set: before the first member of a larger cell. */
  function Inserted(geo: seq<GeoEntry>, e: GeoEntry): seq<GeoEntry> {
    if geo == [] then [e]
    else if e.cell < geo[0].cell then [e] + geo
    else [geo[0]] + Inserted(geo[1..], e)
  }

  /** storeDriverLocation: one MULTI over all four keys. `now` is the clock the score is taken from. */
  function Stored(ix: Index, e: GeoEntry, m: Metadata, now: nat): Index {
    Index(
      Inserted(Filter(NotIn({e.id}), ix.geo), e),
      ix.active[e.id := now],
      ix.metadata[e.id := m],
      ix.snapshots[e.id := Snapshot(e.longitude, e.latitude,
                                    if m.accuracyMeters.Some? then m.accuracyMeters.value else 0.0, m.updatedAt)])
  }

  /** The MULTI of the sweep. */
  function Evicted(ix: Index, ids: set<DriverId>): Index {
    Index(Filter(NotIn(ids), ix.geo), ix.active - ids, ix.metadata - ids, ix.snapshots - ids)
  }

  function Stale(active: map<DriverId, nat>, cutoff: nat): set<DriverId> {
    set id | id in active && active[id] <= cutoff
  }

  /** The structures agree on who is indexed; the expiring per-driver hashes may be fewer. */
  ghost predicate KeysAgree(ix: Index) {
    && Ids(ix.geo) == ix.active.Keys == ix.metadata.Keys
    && ix.snapshots.Keys <= ix.active.Keys
    && Distinct(ix.geo)
  }

  ghost predicate Distinct(geo: seq<GeoEntry>) {
    forall i, j :: 0 <= i < j < |geo| ==> geo[i].id != geo[j].id
  }

  // ----- eviction -----

  lemma {:induction false} FilterKeepsDistinct(keep: GeoEntry -> bool, geo: seq<GeoEntry>)
    requires Distinct(geo)
    ensures Distinct(Filter(keep, geo))
  {
    if geo != [] {
      var rest := Filter(keep, geo[1..]);
      assert Distinct(geo[1..]);
      FilterKeepsDistinct(keep, geo[1..]);
      forall k | 0 <= k < |rest| ensures rest[k].id != geo[0].id {
        assert rest[k] in geo[1..];
      }
    }
  }

  lemma IdsOfFilter(ids: set<DriverId>, geo: seq<GeoEntry>)
    ensures Ids(Filter(NotIn(ids), geo)) == Ids(geo) - ids
  {
    forall id | id in Ids(geo) && id !in ids
      ensures id in Ids(Filter(NotIn(ids), geo))
    {
      var x :| x in geo && x.id == id;
      assert x in Filter(NotIn(ids), geo);
    }
  }

  lemma IdsOfAppend(xs: seq<GeoEntry>, ys: seq<GeoEntry>)
    ensures Ids(xs + ys) == Ids(xs) + Ids(ys)
  {
  }

  lemma {:induction false} InsertedIsOneMore(geo: seq<GeoEntry>, e: GeoEntry)
    requires e.id !in Ids(geo) && Distinct(geo)
    ensures Ids(Inserted(geo, e)) == Ids(geo) + {e.id} && Distinct(Inserted(geo, e))
  {
    if geo == [] {
    } else {
      assert geo == [geo[0]] + geo[1..];
      IdsOfAppend([geo[0]], geo[1..]);
      if e.cell < geo[0].cell {
        IdsOfAppend([e], geo);
        forall k | 0 <= k < |geo| ensures geo[k].id != e.id {
          assert geo[k].id in Ids(geo);
        }
      } else {
        var rest := Inserted(geo[1..], e);
        assert Distinct(geo[1..]);
        InsertedIsOneMore(geo[1..], e);
        IdsOfAppend([geo[0]], rest);
        forall k | 0 <= k < |geo[1..]| ensures geo[1..][k].id != geo[0].id {
          assert geo[1..][k] == geo[k + 1];
        }
        forall k | 0 <= k < |rest| ensures rest[k].id != geo[0].id {
          assert rest[k].id in Ids(rest);
        }
      }
    }
  }

  lemma StoreKeepsKeys(ix: Index, e: GeoEntry, m: Metadata, now: nat)
    requires KeysAgree(ix)
    ensures KeysAgree(Stored(ix, e, m, now))
    ensures Stored(ix, e, m, now).active.Keys == ix.active.Keys + {e.id}
  {
    FilterKeepsDistinct(NotIn({e.id}), ix.geo);
    IdsOfFilter({e.id}, ix.geo);
    InsertedIsOneMore(Filter(NotIn({e.id}), ix.geo), e);
  }

  lemma {:induction false} FilterDropsInserted(geo: seq<GeoEntry>, e: GeoEntry, ids: set<DriverId>)
    requires e.id in ids
    ensures Filter(NotIn(ids), Inserted(geo, e)) == Filter(NotIn(ids), geo)
    ensures |Inserted(geo, e)| == |geo| + 1 && forall x :: x in Inserted(geo, e) <==> x == e || x in geo
  {
    if geo == [] {
    } else if e.cell < geo[0].cell {
      FilterAppend(NotIn(ids), [e], geo);
    } else {
      FilterDropsInserted(geo[1..], e, ids);
      FilterAppend(NotIn(ids), [geo[0]], Inserted(geo[1..], e));
    }
  }

  /** What a report leaves behind, for the reporting driver: the time of the report as his score, the metadata, the
      position with accuracy 0 if none was given, and one single entry in the geo set, the new one. Everything of every
      other driver is as it was, and in the same order. */
  lemma ReportIsWrittenEverywhere(ix: Index, e: GeoEntry, m: Metadata, now: nat)
    ensures var jx := Stored(ix, e, m, now);
            && e.id in jx.active && jx.active[e.id] == now
            && e.id in jx.metadata && jx.metadata[e.id] == m
            && e.id in jx.snapshots
            && jx.snapshots[e.id].longitude == e.longitude && jx.snapshots[e.id].latitude == e.latitude
            && jx.snapshots[e.id].updatedAt == m.updatedAt
            && (m.accuracyMeters.Some? ==> jx.snapshots[e.id].accuracyMeters == m.accuracyMeters.value)
            && (m.accuracyMeters.None? ==> jx.snapshots[e.id].accuracyMeters == 0.0)
            && e in jx.geo && (forall x :: x in jx.geo && x.id == e.id ==> x == e)
            && Filter(NotIn({e.id}), jx.geo) == Filter(NotIn({e.id}), ix.geo)
            && |jx.geo| == |Filter(NotIn({e.id}), ix.geo)| + 1
    ensures var jx := Stored(ix, e, m, now);
            forall id :: id != e.id ==>
              && (id in jx.active <==> id in ix.active) && (id in ix.active ==> jx.active[id] == ix.active[id])
              && (id in jx.metadata <==> id in ix.metadata) && (id in ix.metadata ==> jx.metadata[id] == ix.metadata[id])
              && (id in jx.snapshots <==> id in ix.snapshots)
              && (id in ix.snapshots ==> jx.snapshots[id] == ix.snapshots[id])
  {
    var others := Filter(NotIn({e.id}), ix.geo);
    FilterDropsInserted(others, e, {e.id});
    EvictTwice(ix.geo, {e.id}, {e.id});
    assert {e.id} + {e.id} == {e.id};
  }

  ghost predicate InCellOrder(geo: seq<GeoEntry>) {
    forall i, j :: 0 <= i < j < |geo| ==> geo[i].cell <= geo[j].cell
  }

  lemma {:induction false} InsertedInCellOrder(geo: seq<GeoEntry>, e: GeoEntry)
    requires InCellOrder(geo)
    ensures InCellOrder(Inserted(geo, e))
  {
    if geo != [] && e.cell >= geo[0].cell {
      InsertedInCellOrder(geo[1..], e);
      FilterDropsInserted(geo[1..], e, {e.id});
      var rest := Inserted(geo[1..], e);
      forall k | 0 <= k < |rest| ensures geo[0].cell <= rest[k].cell {
        assert rest[k] in rest;
      }
    }
  }

  lemma {:induction false} FilterInCellOrder(keep: GeoEntry -> bool, geo: seq<GeoEntry>)
    requires InCellOrder(geo)
    ensures InCellOrder(Filter(keep, geo))
  {
    if geo != [] {
      FilterInCellOrder(keep, geo[1..]);
      var rest := Filter(keep, geo[1..]);
      forall k | 0 <= k < |rest| ensures geo[0].cell <= rest[k].cell {
        assert rest[k] in geo[1..];
      }
    }
  }

  /** The geo set stays sorted by cell. */
  lemma CellOrderIsKept(ix: Index, e: GeoEntry, m: Metadata, now: nat, ids: set<DriverId>)
    requires InCellOrder(ix.geo)
    ensures InCellOrder(Stored(ix, e, m, now).geo) && InCellOrder(Evicted(ix, ids).geo)
  {
    FilterInCellOrder(NotIn({e.id}), ix.geo);
    InsertedInCellOrder(Filter(NotIn({e.id}), ix.geo), e);
    FilterInCellOrder(NotIn(ids), ix.geo);
  }

  lemma EvictionKeepsKeys(ix: Index, ids: set<DriverId>)
    requires KeysAgree(ix)
    ensures KeysAgree(Evicted(ix, ids))
    ensures Evicted(ix, ids).active.Keys == ix.active.Keys - ids
  {
    FilterKeepsDistinct(NotIn(ids), ix.geo);
    IdsOfFilter(ids, ix.geo);
  }

  lemma {:induction false} EvictTwice(geo: seq<GeoEntry>, a: set<DriverId>, b: set<DriverId>)
    ensures Filter(NotIn(b), Filter(NotIn(a), geo)) == Filter(NotIn(a + b), geo)
  {
    if geo != [] {
      EvictTwice(geo[1..], a, b);
      FilterAppend(NotIn(b), if NotIn(a)(geo[0]) then [geo[0]] else [], Filter(NotIn(a), geo[1..]));
    }
  }

  lemma EvictedInParts(ix: Index, a: set<DriverId>, b: set<DriverId>)
    ensures Evicted(Evicted(ix, a), b) == Evicted(ix, a + b)
  {
    EvictTwice(ix.geo, a, b);
  }

  /** What a sweep to a cutoff leaves: nobody idle, and everybody else with all their data. */
  lemma EvictionRemovesExactlyTheStale(ix: Index, cutoff: nat)
    requires KeysAgree(ix)
    ensures var jx := Evicted(ix, Stale(ix.active, cutoff));
            && (forall id :: id in jx.active ==> jx.active[id] > cutoff)
            && (forall id :: id in ix.active && ix.active[id] > cutoff ==>
                  && id in jx.active && jx.active[id] == ix.active[id]
                  && id in jx.metadata && jx.metadata[id] == ix.metadata[id]
                  && (id in ix.snapshots ==> id in jx.snapshots && jx.snapshots[id] == ix.snapshots[id]))
            && (forall e :: e in jx.geo <==> e in ix.geo && ix.active[e.id] > cutoff)
  {
    forall e | e in ix.geo ensures e.id in ix.active {
      assert e.id in Ids(ix.geo);
    }
  }

  /** A driver who reported after the cutoff outlives the sweep with everything he reported. */
  lemma ReportOutlivesSweep(ix: Index, e: GeoEntry, m: Metadata, now: nat, cutoff: nat)
    requires KeysAgree(ix) && cutoff < now
    ensures var jx := Stored(ix, e, m, now);
            var kx := Evicted(jx, Stale(jx.active, cutoff));
            && e in kx.geo && e.id in kx.active && kx.active[e.id] == now
            && e.id in kx.metadata && kx.metadata[e.id] == m
            && e.id in kx.snapshots && kx.snapshots[e.id] == jx.snapshots[e.id]
  {
    StoreKeepsKeys(ix, e, m, now);
    ReportIsWrittenEverywhere(ix, e, m, now);
    EvictionRemovesExactlyTheStale(Stored(ix, e, m, now), cutoff);
  }

  /** Without a new report a sweep at or after his last report evicts him. */
  lemma SilenceIsEvicted(ix: Index, e: GeoEntry, m: Metadata, now: nat, cutoff: nat)
    requires KeysAgree(ix) && now <= cutoff
    ensures var jx := Stored(ix, e, m, now);
            var kx := Evicted(jx, Stale(jx.active, cutoff));
            && e.id !in kx.active && e.id !in kx.metadata && e.id !in kx.snapshots && e.id !in Ids(kx.geo)
  {
    StoreKeepsKeys(ix, e, m, now);
    var jx := Stored(ix, e, m, now);
    EvictionKeepsKeys(jx, Stale(jx.active, cutoff));
  }

  // ----- the sweep among concurrent stores -----

  /** Idle, or holding the ids it read at time `fetchedAt` under the cutoff of its job and has not removed yet. */
  datatype Sweep = Idle | Fetched(ids: set<DriverId>, fetchedAt: nat, cutoff: nat)

  datatype World = World(index: Index, sweep: Sweep, clock: nat, storedAt: map<DriverId, nat>)

  /** Every batch may come from another job with another cutoff. */
  datatype Step =
    | Store(entry: GeoEntry, metadata: Metadata, now: nat)
    | Fetch(ids: set<DriverId>, cutoff: nat)
    | Remove
    | ExpireSnapshot(id: DriverId)

  predicate Enabled(w: World, s: Step) {
    match s
    case Store(_, _, _) => true
    case Fetch(ids, cutoff) => w.sweep.Idle? && ids <= Stale(w.index.active, cutoff)
    case Remove => w.sweep.Fetched?
    case ExpireSnapshot(_) => true
  }

  function Next(w: World, s: Step): World
    requires Enabled(w, s)
  {
    var t := w.(clock := w.clock + 1);
    match s
    case Store(e, m, now) => t.(index := Stored(w.index, e, m, now), storedAt := w.storedAt[e.id := w.clock])
    case Fetch(ids, cutoff) => t.(sweep := Fetched(ids, w.clock, cutoff))
    case Remove => t.(index := Evicted(w.index, w.sweep.ids), sweep := Idle)
    case ExpireSnapshot(id) => t.(index := w.index.(snapshots := w.index.snapshots - {id}))
  }

  predicate AllEnabled(w: World, steps: seq<Step>)
    decreases |steps|
  {
    steps == [] || (Enabled(w, steps[0]) && AllEnabled(Next(w, steps[0]), steps[1..]))
  }

  function Run(w: World, steps: seq<Step>): World
    requires AllEnabled(w, steps)
    decreases |steps|
  {
    if steps == [] then w else Run(Next(w, steps[0]), steps[1..])
  }

  /** A driver in the batch that is not idle any more reported after the batch was read. */
  ghost predicate ReportedSince(w: World) {
    w.sweep.Fetched? ==>
      && w.sweep.fetchedAt < w.clock
      && forall id :: id in w.sweep.ids && id in w.index.active && w.index.active[id] > w.sweep.cutoff ==>
           id in w.storedAt && w.storedAt[id] > w.sweep.fetchedAt
  }

  lemma StepKeepsInv(w: World, s: Step)
    requires KeysAgree(w.index) && ReportedSince(w) && Enabled(w, s)
    ensures KeysAgree(Next(w, s).index) && ReportedSince(Next(w, s))
  {
    match s
    case Store(e, m, now) => StoreKeepsKeys(w.index, e, m, now);
    case Fetch(ids, cutoff) =>
    case Remove => EvictionKeepsKeys(w.index, w.sweep.ids);
    case ExpireSnapshot(id) =>
  }

  /** Under every interleaving of stores, sweeps with whatever cutoffs and expiries the geo set, the active set and the
      metadata hash keep the same keys, and when a sweep is about to remove a driver who is no longer idle, that driver
      reported after the sweep read its batch. */
  lemma {:induction false} StructuresAgree(w: World, steps: seq<Step>)
    requires KeysAgree(w.index) && ReportedSince(w) && AllEnabled(w, steps)
    ensures KeysAgree(Run(w, steps).index) && ReportedSince(Run(w, steps))
    decreases |steps|
  {
    if steps != [] {
      StepKeepsInv(w, steps[0]);
      StructuresAgree(Next(w, steps[0]), steps[1..]);
    }
  }

  // ----- the nearby query -----

  datatype Nearby = Nearby(id: DriverId, distanceMeters: real, longitude: real, latitude: real, metadata: Option<Metadata>)

  /** The distance of an entry from the centre of the query. */
  type Far = GeoEntry -> real

  function InRange(far: Far, radius: real): GeoEntry -> bool {
    (e: GeoEntry) => far(e) <= radius
  }

  function FreshIn(active: map<DriverId, nat>, cutoff: nat): GeoEntry -> bool {
    (e: GeoEntry) => e.id in active && active[e.id] >= cutoff
  }

  function Placed(far: Far, e: GeoEntry, sorted: seq<GeoEntry>): seq<GeoEntry> {
    if sorted == [] || far(e) <= far(sorted[0]) then [e] + sorted else [sorted[0]] + Placed(far, e, sorted[1..])
  }

  /** Stable sorting by distance. */
  function Sorted(far: Far, xs: seq<GeoEntry>): seq<GeoEntry> {
    if xs == [] then [] else Placed(far, xs[0], Sorted(far, xs[1..]))
  }

  function Take(xs: seq<GeoEntry>, limit: nat): seq<GeoEntry> {
    if |xs| <= limit then xs else xs[..limit]
  }

  /** GEORADIUS ... COUNT limit ASC */
  function GeoRadius(geo: seq<GeoEntry>, far: Far, radius: real, limit: nat): seq<GeoEntry> {
    Take(Sorted(far, Filter(InRange(far, radius), geo)), limit)
  }

  function Shown(far: Far, metadata: map<DriverId, Metadata>, e: GeoEntry): Nearby {
    Nearby(e.id, far(e), e.longitude, e.latitude, if e.id in metadata then Some(metadata[e.id]) else None)
  }

  /** The answer built from the three replies: hits within the radius, scores, metadata. */
  function Answer(hits: seq<GeoEntry>, far: Far, active: map<DriverId, nat>, metadata: map<DriverId, Metadata>, cutoff: nat)
    : (answer: seq<Nearby>)
  {
    var recent := Filter(FreshIn(active, cutoff), hits);
    seq(|recent|, i requires 0 <= i < |recent| => Shown(far, metadata, recent[i]))
  }

  function NearbyDrivers(ix: Index, far: Far, radius: real, limit: nat, cutoff: nat): seq<Nearby> {
    Answer(GeoRadius(ix.geo, far, radius, limit), far, ix.active, ix.metadata, cutoff)
  }

  ghost predicate InOrder(far: Far, xs: seq<GeoEntry>) {
    forall i, j :: 0 <= i < j < |xs| ==> far(xs[i]) <= far(xs[j])
  }

  lemma {:induction false} PlacedInOrder(far: Far, e: GeoEntry, sorted: seq<GeoEntry>)
    requires InOrder(far, sorted)
    ensures InOrder(far, Placed(far, e, sorted))
    ensures forall x :: x in Placed(far, e, sorted) <==> x == e || x in sorted
  {
    if sorted != [] && far(e) > far(sorted[0]) {
      PlacedInOrder(far, e, sorted[1..]);
      var rest := Placed(far, e, sorted[1..]);
      forall k | 0 <= k < |rest| ensures far(sorted[0]) <= far(rest[k]) {
        assert rest[k] in rest;
      }
    }
  }

  lemma {:induction false} SortedInOrder(far: Far, xs: seq<GeoEntry>)
    ensures InOrder(far, Sorted(far, xs))
  {
    if xs != [] {
      SortedInOrder(far, xs[1..]);
      PlacedInOrder(far, xs[0], Sorted(far, xs[1..]));
    }
  }

  ghost predicate PlacesAlike(far: Far, keep: GeoEntry -> bool, e: GeoEntry, sorted: seq<GeoEntry>) {
    Filter(keep, Placed(far, e, sorted)) ==
    if keep(e) then Placed(far, e, Filter(keep, sorted)) else Filter(keep, sorted)
  }

  lemma {:induction false} FilterPlaced(far: Far, keep: GeoEntry -> bool, e: GeoEntry, sorted: seq<GeoEntry>)
    requires InOrder(far, sorted)
    ensures PlacesAlike(far, keep, e, sorted)
  {
    if sorted == [] || far(e) <= far(sorted[0]) {
      FilterPlacedFirst(far, keep, e, sorted);
    } else {
      FilterPlaced(far, keep, e, sorted[1..]);
      FilterPlacedBehind(far, keep, e, sorted[0], sorted[1..]);
      assert sorted == [sorted[0]] + sorted[1..];
    }
  }

  lemma FilterPlacedFirst(far: Far, keep: GeoEntry -> bool, e: GeoEntry, sorted: seq<GeoEntry>)
    requires forall x :: x in sorted ==> far(e) <= far(x)
    ensures PlacesAlike(far, keep, e, sorted)
  {
    FilterCons(keep, e, sorted);
    var kept := Filter(keep, sorted);
    if kept != [] {
      assert kept[0] in sorted;
    }
  }

  lemma FilterPlacedBehind(far: Far, keep: GeoEntry -> bool, e: GeoEntry, x: GeoEntry, rest: seq<GeoEntry>)
    requires far(e) > far(x) && PlacesAlike(far, keep, e, rest)
    ensures PlacesAlike(far, keep, e, [x] + rest)
  {
    PlacedBehind(far, e, x, rest);
    FilterCons(keep, x, rest);
    FilterCons(keep, x, Placed(far, e, rest));
    PlacedBehind(far, e, x, Filter(keep, rest));
  }

  lemma PlacedBehind(far: Far, e: GeoEntry, x: GeoEntry, xs: seq<GeoEntry>)
    requires far(e) > far(x)
    ensures Placed(far, e, [x] + xs) == [x] + Placed(far, e, xs)
  {
    assert ([x] + xs)[1..] == xs;
  }

  lemma {:induction false} FilterSorted(far: Far, keep: GeoEntry -> bool, xs: seq<GeoEntry>)
    ensures Filter(keep, Sorted(far, xs)) == Sorted(far, Filter(keep, xs))
  {
    if xs != [] {
      SortedInOrder(far, xs[1..]);
      FilterSorted(far, keep, xs[1..]);
      FilterPlaced(far, keep, xs[0], Sorted(far, xs[1..]));
      if keep(xs[0]) {
        assert Filter(keep, xs)[1..] == Filter(keep, xs[1..]);
      } else {
        assert Filter(keep, xs) == Filter(keep, xs[1..]);
      }
    }
  }

  lemma {:induction false} FiltersCommute(p: GeoEntry -> bool, q: GeoEntry -> bool, xs: seq<GeoEntry>)
    ensures Filter(p, Filter(q, xs)) == Filter(q, Filter(p, xs))
  {
    if xs != [] {
      FiltersCommute(p, q, xs[1..]);
      FilterAppend(p, if q(xs[0]) then [xs[0]] else [], Filter(q, xs[1..]));
      FilterAppend(q, if p(xs[0]) then [xs[0]] else [], Filter(p, xs[1..]));
    }
  }

  lemma {:induction false} FiltersAgree(p: GeoEntry -> bool, q: GeoEntry -> bool, xs: seq<GeoEntry>)
    requires forall x :: x in xs ==> p(x) == q(x)
    ensures Filter(p, xs) == Filter(q, xs)
  {
    if xs != [] {
      FiltersAgree(p, q, xs[1..]);
    }
  }

  lemma TakeCons(x: GeoEntry, xs: seq<GeoEntry>, limit: nat)
    requires limit > 0
    ensures Take([x] + xs, limit) == [x] + Take(xs, limit - 1)
  {
  }

  lemma FilterTakeGrows(p: GeoEntry -> bool, xs: seq<GeoEntry>, limit: nat)
    ensures Filter(p, Take(xs, limit)) <= Filter(p, Take(xs, limit + 1))
  {
    if limit < |xs| {
      assert Take(xs, limit + 1) == Take(xs, limit) + [xs[limit]];
      FilterAppend(p, Take(xs, limit), [xs[limit]]);
    }
  }

  ghost predicate TakePrefix(p: GeoEntry -> bool, q: GeoEntry -> bool, xs: seq<GeoEntry>, limit: nat) {
    Filter(p, Take(xs, limit)) <= Filter(p, Take(Filter(q, xs), limit))
  }

  lemma FilterTakeCons(p: GeoEntry -> bool, x: GeoEntry, xs: seq<GeoEntry>, limit: nat)
    requires limit > 0
    ensures Filter(p, Take([x] + xs, limit)) ==
            if p(x) then [x] + Filter(p, Take(xs, limit - 1)) else Filter(p, Take(xs, limit - 1))
  {
    TakeCons(x, xs, limit);
    FilterCons(p, x, Take(xs, limit - 1));
  }

  lemma TakePrefixKept(p: GeoEntry -> bool, q: GeoEntry -> bool, x: GeoEntry, rest: seq<GeoEntry>, limit: nat)
    requires limit > 0 && q(x) && TakePrefix(p, q, rest, limit - 1)
    ensures TakePrefix(p, q, [x] + rest, limit)
  {
    var kept := Filter(q, rest);
    FilterCons(q, x, rest);
    FilterTakeCons(p, x, rest, limit);
    FilterTakeCons(p, x, kept, limit);
    PrefixCons(x, Filter(p, Take(rest, limit - 1)), Filter(p, Take(kept, limit - 1)));
  }

  lemma TakePrefixDropped(p: GeoEntry -> bool, q: GeoEntry -> bool, x: GeoEntry, rest: seq<GeoEntry>, limit: nat)
    requires limit > 0 && !p(x) && !q(x) && TakePrefix(p, q, rest, limit - 1)
    ensures TakePrefix(p, q, [x] + rest, limit)
  {
    var xs, kept := [x] + rest, Filter(q, rest);
    var a, b, c := Filter(p, Take(rest, limit - 1)), Filter(p, Take(kept, limit - 1)), Filter(p, Take(kept, limit));
    assert a <= c by {
      FilterTakeGrows(p, kept, limit - 1);
      PrefixOfPrefix(a, b, c);
    }
    assert Filter(q, xs) == kept by {
      FilterCons(q, x, rest);
    }
    assert Filter(p, Take(xs, limit)) == a by {
      FilterTakeCons(p, x, rest, limit);
    }
  }

  lemma PrefixOfPrefix(a: seq<GeoEntry>, b: seq<GeoEntry>, c: seq<GeoEntry>)
    requires a <= b <= c
    ensures a <= c
  {
  }

  /** Filtering the first `limit` entries gives a prefix of first dropping entries that the filter rejects anyway. */
  lemma {:induction false} FilterTakePrefix(p: GeoEntry -> bool, q: GeoEntry -> bool, xs: seq<GeoEntry>, limit: nat)
    requires forall x :: x in xs && p(x) ==> q(x)
    ensures TakePrefix(p, q, xs, limit)
  {
    if xs == [] || limit == 0 {
      assert Take(xs, limit) == [];
    } else {
      FilterTakePrefix(p, q, xs[1..], limit - 1);
      if q(xs[0]) {
        TakePrefixKept(p, q, xs[0], xs[1..], limit);
      } else {
        TakePrefixDropped(p, q, xs[0], xs[1..], limit);
      }
      assert xs == [xs[0]] + xs[1..];
    }
  }

  lemma FilterCons(p: GeoEntry -> bool, x: GeoEntry, xs: seq<GeoEntry>)
    ensures Filter(p, [x] + xs) == if p(x) then [x] + Filter(p, xs) else Filter(p, xs)
  {
    assert ([x] + xs)[1..] == xs;
  }

  lemma PrefixCons(x: GeoEntry, a: seq<GeoEntry>, b: seq<GeoEntry>)
    requires a <= b
    ensures [x] + a <= [x] + b
  {
  }

  /** The hits of a query after an eviction. */
  lemma HitsAfterEviction(geo: seq<GeoEntry>, ids: set<DriverId>, far: Far, radius: real, limit: nat)
    ensures GeoRadius(Filter(NotIn(ids), geo), far, radius, limit) ==
            Take(Filter(NotIn(ids), Sorted(far, Filter(InRange(far, radius), geo))), limit)
  {
    FiltersCommute(InRange(far, radius), NotIn(ids), geo);
    FilterSorted(far, NotIn(ids), Filter(InRange(far, radius), geo));
  }

  /** A filter that rejects the evicted drivers keeps a prefix of what it keeps after the eviction. */
  lemma RecentHitsGrow(
    ix: Index, ids: set<DriverId>, sweepCutoff: nat, far: Far, radius: real, limit: nat, cutoff: nat)
    requires ids <= Stale(ix.active, sweepCutoff) && sweepCutoff < cutoff
    ensures Filter(FreshIn(ix.active, cutoff), GeoRadius(ix.geo, far, radius, limit)) <=
            Filter(FreshIn(ix.active - ids, cutoff), GeoRadius(Filter(NotIn(ids), ix.geo), far, radius, limit))
  {
    var kept, recent := NotIn(ids), FreshIn(ix.active, cutoff);
    var xs := Sorted(far, Filter(InRange(far, radius), ix.geo));
    HitsAfterEviction(ix.geo, ids, far, radius, limit);
    FilterTakePrefix(recent, kept, xs, limit);
    assert TakePrefix(recent, kept, xs, limit);
    var hits := Take(Filter(kept, xs), limit);
    forall x | x in hits
      ensures recent(x) == FreshIn(ix.active - ids, cutoff)(x)
    {
      assert x in Filter(kept, xs);
    }
    FiltersAgree(recent, FreshIn(ix.active - ids, cutoff), hits);
  }

  /** Eviction is observationally safe: for a query whose cutoff is later than that of the sweep, evicting any of the
      stale drivers only appends to the answer, because it makes room under the limit. */
  lemma EvictionIsObservationallySafe(
    ix: Index, ids: set<DriverId>, sweepCutoff: nat, far: Far, radius: real, limit: nat, cutoff: nat)
    requires ids <= Stale(ix.active, sweepCutoff) && sweepCutoff < cutoff
    ensures NearbyDrivers(ix, far, radius, limit, cutoff) <= NearbyDrivers(Evicted(ix, ids), far, radius, limit, cutoff)
  {
    var jx := Evicted(ix, ids);
    RecentHitsGrow(ix, ids, sweepCutoff, far, radius, limit, cutoff);
    var before := Filter(FreshIn(ix.active, cutoff), GeoRadius(ix.geo, far, radius, limit));
    var after := Filter(FreshIn(jx.active, cutoff), GeoRadius(jx.geo, far, radius, limit));
    forall i | 0 <= i < |before|
      ensures Shown(far, ix.metadata, before[i]) == Shown(far, jx.metadata, after[i])
    {
      assert before[i] == after[i] && after[i] in after;
    }
  }

  lemma {:induction false} FilterKeepsOrder(far: Far, keep: GeoEntry -> bool, xs: seq<GeoEntry>)
    requires InOrder(far, xs)
    ensures InOrder(far, Filter(keep, xs))
  {
    if xs != [] {
      FilterKeepsOrder(far, keep, xs[1..]);
      var rest := Filter(keep, xs[1..]);
      forall k | 0 <= k < |rest| ensures far(xs[0]) <= far(rest[k]) {
        assert rest[k] in xs[1..];
      }
    }
  }

  /** The answer comes nearest first, shows recent drivers within the radius only, and with their own metadata. */
  lemma AnswerIsOrderedAndFresh(ix: Index, far: Far, radius: real, limit: nat, cutoff: nat)
    ensures var answer := NearbyDrivers(ix, far, radius, limit, cutoff);
            && |answer| <= limit
            && (forall i, j :: 0 <= i < j < |answer| ==> answer[i].distanceMeters <= answer[j].distanceMeters)
            && (forall n :: n in answer ==> n.id in ix.active && ix.active[n.id] >= cutoff && n.distanceMeters <= radius)
            && (forall n :: n in answer ==> n.metadata == if n.id in ix.metadata then Some(ix.metadata[n.id]) else None)
  {
    var inRange := Filter(InRange(far, radius), ix.geo);
    SortedInOrder(far, inRange);
    SortedKeepsElements(far, inRange);
    var hits := GeoRadius(ix.geo, far, radius, limit);
    FilterKeepsOrder(far, FreshIn(ix.active, cutoff), hits);
    var answer := NearbyDrivers(ix, far, radius, limit, cutoff);
    var recent := Filter(FreshIn(ix.active, cutoff), hits);
    forall i | 0 <= i < |answer|
      ensures answer[i].id in ix.active && ix.active[answer[i].id] >= cutoff && answer[i].distanceMeters <= radius
    {
      assert recent[i] in recent && recent[i] in hits;
      assert recent[i] in Sorted(far, inRange);
    }
  }

  lemma {:induction false} SortedKeepsElements(far: Far, xs: seq<GeoEntry>)
    ensures forall x :: x in Sorted(far, xs) <==> x in xs
  {
    if xs != [] {
      SortedKeepsElements(far, xs[1..]);
      SortedInOrder(far, xs[1..]);
      PlacedInOrder(far, xs[0], Sorted(far, xs[1..]));
    }
  }

  // ----- nobody is left out, nobody appears twice -----

  lemma {:induction false} NestedRanges(far: Far, near: real, radius: real, geo: seq<GeoEntry>)
    requires near <= radius
    ensures Filter(InRange(far, near), Filter(InRange(far, radius), geo)) == Filter(InRange(far, near), geo)
  {
    if geo != [] {
      NestedRanges(far, near, radius, geo[1..]);
      FilterAppend(InRange(far, near), if InRange(far, radius)(geo[0]) then [geo[0]] else [],
                   Filter(InRange(far, radius), geo[1..]));
    }
  }

  lemma {:induction false} SortedKeepsLength(far: Far, xs: seq<GeoEntry>)
    ensures |Sorted(far, xs)| == |xs|
  {
    if xs != [] {
      SortedKeepsLength(far, xs[1..]);
      PlacedIsOneMore(far, xs[0], Sorted(far, xs[1..]));
    }
  }

  lemma {:induction false} PlacedIsOneMore(far: Far, e: GeoEntry, sorted: seq<GeoEntry>)
    ensures |Placed(far, e, sorted)| == |sorted| + 1
  {
    if sorted != [] && far(e) > far(sorted[0]) {
      PlacedIsOneMore(far, e, sorted[1..]);
    }
  }

  lemma {:induction false} FilterKeepsAll(keep: GeoEntry -> bool, xs: seq<GeoEntry>)
    requires forall x :: x in xs ==> keep(x)
    ensures Filter(keep, xs) == xs
  {
    if xs != [] {
      FilterKeepsAll(keep, xs[1..]);
    }
  }

  /** An entry that sorting leaves behind the limit has at least `limit` others that are no farther. */
  lemma CutOffByNearer(far: Far, xs: seq<GeoEntry>, limit: nat, k: nat)
    requires InOrder(far, xs) && limit <= k < |xs|
    ensures |Filter(InRange(far, far(xs[k])), xs)| > limit
  {
    var near := InRange(far, far(xs[k]));
    assert xs == xs[..k + 1] + xs[k + 1..];
    FilterAppend(near, xs[..k + 1], xs[k + 1..]);
    forall x | x in xs[..k + 1] ensures near(x) {
      var i :| 0 <= i <= k && xs[..k + 1][i] == x;
      assert xs[i] == x;
    }
    FilterKeepsAll(near, xs[..k + 1]);
  }

  /** A recent driver within the radius is left out only when the limit is filled by others who are no farther. */
  lemma NobodyIsOverlooked(ix: Index, far: Far, radius: real, limit: nat, cutoff: nat, e: GeoEntry)
    requires e in ix.geo && far(e) <= radius && e.id in ix.active && ix.active[e.id] >= cutoff
    ensures var shown := Nearby(e.id, far(e), e.longitude, e.latitude,
                                if e.id in ix.metadata then Some(ix.metadata[e.id]) else None);
            || shown in NearbyDrivers(ix, far, radius, limit, cutoff)
            || |Filter((x: GeoEntry) => far(x) <= far(e), ix.geo)| > limit
  {
    var inRange := Filter(InRange(far, radius), ix.geo);
    var xs := Sorted(far, inRange);
    SortedInOrder(far, inRange);
    SortedKeepsElements(far, inRange);
    var k :| 0 <= k < |xs| && xs[k] == e;
    var near := InRange(far, far(e));
    if limit <= k {
      CutOffByNearer(far, xs, limit, k);
      FilterSorted(far, near, inRange);
      SortedKeepsLength(far, Filter(near, inRange));
      NestedRanges(far, far(e), radius, ix.geo);
      FiltersAgree(near, (x: GeoEntry) => far(x) <= far(e), ix.geo);
    } else {
      HitIsShown(GeoRadius(ix.geo, far, radius, limit), far, ix.active, ix.metadata, cutoff, k);
    }
  }

  lemma HitIsShown(hits: seq<GeoEntry>, far: Far, active: map<DriverId, nat>, metadata: map<DriverId, Metadata>,
                   cutoff: nat, k: nat)
    requires k < |hits| && hits[k].id in active && active[hits[k].id] >= cutoff
    ensures Nearby(hits[k].id, far(hits[k]), hits[k].longitude, hits[k].latitude,
                   if hits[k].id in metadata then Some(metadata[hits[k].id]) else None)
            in Answer(hits, far, active, metadata, cutoff)
  {
    var recent := Filter(FreshIn(active, cutoff), hits);
    assert hits[k] in recent;
    var i :| 0 <= i < |recent| && recent[i] == hits[k];
    assert Answer(hits, far, active, metadata, cutoff)[i] == Shown(far, metadata, hits[k]);
  }

  /** A driver who has just reported within the radius is found, where he reported and with what he reported, unless
      the limit is smaller than the whole index. */
  lemma ReportIsFound(ix: Index, e: GeoEntry, m: Metadata, now: nat, far: Far, radius: real, limit: nat, cutoff: nat)
    requires cutoff <= now && far(e) <= radius && limit >= |Stored(ix, e, m, now).geo|
    ensures Nearby(e.id, far(e), e.longitude, e.latitude, Some(m)) in
            NearbyDrivers(Stored(ix, e, m, now), far, radius, limit, cutoff)
  {
    ReportIsWrittenEverywhere(ix, e, m, now);
    NobodyIsOverlooked(Stored(ix, e, m, now), far, radius, limit, cutoff, e);
  }

  lemma {:induction false} SortedKeepsDistinct(far: Far, xs: seq<GeoEntry>)
    requires Distinct(xs)
    ensures Distinct(Sorted(far, xs))
  {
    if xs != [] {
      assert Distinct(xs[1..]);
      SortedKeepsDistinct(far, xs[1..]);
      SortedKeepsElements(far, xs[1..]);
      forall x | x in Sorted(far, xs[1..]) ensures x.id != xs[0].id {
        var k :| 0 <= k < |xs[1..]| && xs[1..][k] == x;
        assert xs[k + 1] == x;
      }
      PlacedKeepsDistinct(far, xs[0], Sorted(far, xs[1..]));
    }
  }

  lemma {:induction false} PlacedKeepsDistinct(far: Far, e: GeoEntry, sorted: seq<GeoEntry>)
    requires Distinct(sorted) && forall x :: x in sorted ==> x.id != e.id
    ensures Distinct(Placed(far, e, sorted))
    ensures forall x :: x in Placed(far, e, sorted) ==> x == e || x in sorted
  {
    if sorted != [] && far(e) > far(sorted[0]) {
      assert Distinct(sorted[1..]);
      PlacedKeepsDistinct(far, e, sorted[1..]);
      var rest := Placed(far, e, sorted[1..]);
      forall k | 0 <= k < |rest| ensures rest[k].id != sorted[0].id {
        assert rest[k] in rest;
        if rest[k] in sorted[1..] {
          var i :| 0 <= i < |sorted[1..]| && sorted[1..][i] == rest[k];
          assert sorted[i + 1] == rest[k];
        }
      }
    }
  }

  /** Every line of the answer is an entry of the index with its own distance and coordinates, and no driver appears
      twice. */
  lemma AnswerIsDrawnFromTheIndex(ix: Index, far: Far, radius: real, limit: nat, cutoff: nat)
    ensures var answer := NearbyDrivers(ix, far, radius, limit, cutoff);
            forall n :: n in answer ==>
              exists e :: e in ix.geo && n.id == e.id && n.distanceMeters == far(e)
                          && n.longitude == e.longitude && n.latitude == e.latitude
    ensures var answer := NearbyDrivers(ix, far, radius, limit, cutoff);
            Distinct(ix.geo) ==> forall i, j :: 0 <= i < j < |answer| ==> answer[i].id != answer[j].id
  {
    var inRange := Filter(InRange(far, radius), ix.geo);
    SortedKeepsElements(far, inRange);
    var hits := GeoRadius(ix.geo, far, radius, limit);
    var recent := Filter(FreshIn(ix.active, cutoff), hits);
    var answer := NearbyDrivers(ix, far, radius, limit, cutoff);
    forall n | n in answer
      ensures exists e :: e in ix.geo && n.id == e.id && n.distanceMeters == far(e)
                          && n.longitude == e.longitude && n.latitude == e.latitude
    {
      var i :| 0 <= i < |answer| && answer[i] == n;
      assert recent[i] in recent && recent[i] in hits;
      assert recent[i] in Sorted(far, inRange);
    }
    if Distinct(ix.geo) {
      FilterKeepsDistinct(InRange(far, radius), ix.geo);
      SortedKeepsDistinct(far, inRange);
      FilterKeepsDistinct(FreshIn(ix.active, cutoff), hits);
    }
  }
}
