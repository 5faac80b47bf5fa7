/** `GeolocationRepository` and the sweep of `MaintenanceProcessor` over the index they share. */
module Geolocation {
  import opened Base
  import opened DriverIndex

  /** ZMSCORE and HMGET: the values of the given members, position by position. */
  function Replies<V>(rows: map<DriverId, V>, ids: seq<DriverId>): (replies: seq<Option<V>>)
    ensures |replies| == |ids|
  {
    seq(|ids|, i requires 0 <= i < |ids| => if ids[i] in rows then Some(rows[ids[i]]) else None)
  }

  function IdsOf(hits: seq<GeoEntry>): (ids: seq<DriverId>)
    ensures |ids| == |hits|
  {
    seq(|hits|, i requires 0 <= i < |hits| => hits[i].id)
  }

  lemma AnswerSnoc(hits: seq<GeoEntry>, e: GeoEntry, far: Far, active: map<DriverId, nat>,
                   metadata: map<DriverId, Metadata>, cutoff: nat)
    ensures Answer(hits + [e], far, active, metadata, cutoff) ==
            if FreshIn(active, cutoff)(e) then Answer(hits, far, active, metadata, cutoff) + [Shown(far, metadata, e)]
            else Answer(hits, far, active, metadata, cutoff)
  {
    FilterAppend(FreshIn(active, cutoff), hits, [e]);
  }

  class GeolocationRepository {
    var geo: seq<GeoEntry>
    var active: map<DriverId, nat>
    var metadata: map<DriverId, Metadata>
    var snapshots: map<DriverId, Snapshot>

    ghost function View(): Index
      reads this
    {
      Index(geo, active, metadata, snapshots)
    }

    constructor ()
      ensures View() == EMPTY_INDEX && KeysAgree(View())
    {
      geo, active, metadata, snapshots := [], map[], map[], map[];
    }

    method StoreDriverLocation(e: GeoEntry, m: Metadata, now: nat)
      modifies this
      ensures View() == Stored(old(View()), e, m, now)
      ensures old(KeysAgree(View())) ==> KeysAgree(View())
    {
      if KeysAgree(View()) {
        StoreKeepsKeys(View(), e, m, now);
      }
      geo := Inserted(Filter(NotIn({e.id}), geo), e);
      snapshots := snapshots[e.id := Snapshot(
        e.longitude, e.latitude, if m.accuracyMeters.Some? then m.accuracyMeters.value else 0.0, m.updatedAt)];
      metadata := metadata[e.id := m];
      active := active[e.id := now];
    }

    /** ZRANGEBYSCORE 0 cutoff LIMIT 0 limit: as many idle drivers as there are, up to the limit. */
    method ZRangeByScore(cutoff: nat, limit: nat) returns (ids: set<DriverId>)
      ensures ids <= Stale(active, cutoff)
      ensures |ids| == if |Stale(active, cutoff)| <= limit then |Stale(active, cutoff)| else limit
      ensures |ids| < limit ==> ids == Stale(active, cutoff)
    {
      ids := {};
      var pending := active.Keys;
      while pending != {} && |ids| < limit
        invariant pending <= active.Keys
        invariant ids == Stale(active, cutoff) - pending
        invariant |ids| <= limit
        decreases pending
      {
        var id :| id in pending;
        pending := pending - {id};
        if active[id] <= cutoff {
          ids := ids + {id};
        }
      }
      SubsetCardinality(ids, Stale(active, cutoff));
      if pending == {} {
        assert ids == Stale(active, cutoff);
      }
    }

    /** The MULTI of one batch. */
    method RemoveBatch(ids: set<DriverId>)
      modifies this
      ensures View() == Evicted(old(View()), ids)
    {
      active := active - ids;
      geo := Filter(NotIn(ids), geo);
      snapshots := snapshots - ids;
      metadata := metadata - ids;
    }

    /** The sweep: batch after batch until a batch comes back short. It ends, and has then removed all idle drivers and
        nobody else. */
    method CleanupIdleDrivers(cutoff: nat, batch: nat)
      requires batch > 0
      modifies this
      ensures View() == Evicted(old(View()), Stale(old(active), cutoff))
    {
      ghost var gone: set<DriverId> := {};
      EvictNobody(View());
      while true
        invariant gone <= Stale(old(active), cutoff) && View() == Evicted(old(View()), gone)
        decreases |Stale(active, cutoff)|
      {
        var staleIds := ZRangeByScore(cutoff, batch);
        BatchRemoved(old(active), gone, staleIds, cutoff);
        if staleIds == {} {
          assert gone + staleIds == gone;
          break;
        }
        EvictedInParts(old(View()), gone, staleIds);
        RemoveBatch(staleIds);
        gone := gone + staleIds;
        if |staleIds| < batch {
          break;
        }
      }
    }

    /** The nearby query on the index at rest. */
    method GetNearbyDrivers(far: Far, radius: real, limit: nat, cutoff: nat) returns (answer: seq<Nearby>)
      ensures answer == NearbyDrivers(View(), far, radius, limit, cutoff)
    {
      var hits := GeoRadius(geo, far, radius, limit);
      answer := BuildAnswer(hits, far, active, metadata, cutoff);
    }

    /** The ids whose score is recent, read off the positions of the score reply. */
    static method CollectActive(driverIds: seq<DriverId>, active: map<DriverId, nat>, cutoff: nat)
      returns (activeDriverIds: seq<DriverId>)
      ensures forall id :: id in activeDriverIds <==> id in driverIds && id in active && active[id] >= cutoff
    {
      var scoreResults := Replies(active, driverIds);
      activeDriverIds := [];
      for index := 0 to |driverIds|
        invariant forall id :: id in activeDriverIds <==>
                    id in driverIds[..index] && id in active && active[id] >= cutoff
      {
        var score := scoreResults[index];
        if score.Some? && score.value >= cutoff {
          activeDriverIds := activeDriverIds + [driverIds[index]];
        }
      }
    }

    /** Each metadata value under its own driver, read off the positions of the metadata reply. */
    static method CollectMetadata(activeDriverIds: seq<DriverId>, metadata: map<DriverId, Metadata>)
      returns (metadataMap: map<DriverId, Metadata>)
      ensures forall id :: id in metadataMap <==> id in activeDriverIds && id in metadata
      ensures forall id :: id in metadataMap ==> metadataMap[id] == metadata[id]
    {
      var metadataResults := Replies(metadata, activeDriverIds);
      metadataMap := map[];
      for index := 0 to |activeDriverIds|
        invariant forall id :: id in metadataMap <==> id in activeDriverIds[..index] && id in metadata
        invariant forall id :: id in metadataMap ==> metadataMap[id] == metadata[id]
      {
        if metadataResults[index].Some? {
          metadataMap := metadataMap[activeDriverIds[index] := metadataResults[index].value];
        }
      }
    }

    /** Joins the three replies. The score and metadata replies are arrays that follow the order of the ids asked for;
        `active` and `metadata` are the structures as they were when each was asked. */
    static method BuildAnswer(hits: seq<GeoEntry>, far: Far, active: map<DriverId, nat>,
                              metadata: map<DriverId, Metadata>, cutoff: nat)
      returns (answer: seq<Nearby>)
      ensures answer == Answer(hits, far, active, metadata, cutoff)
    {
      answer := [];
      if hits == [] {
        return;
      }
      var driverIds := IdsOf(hits);
      var activeDriverIds := CollectActive(driverIds, active, cutoff);
      var activeDriverSet := set id | id in activeDriverIds;
      var metadataMap := CollectMetadata(activeDriverIds, metadata);
      for index := 0 to |hits|
        invariant answer == Answer(hits[..index], far, active, metadata, cutoff)
      {
        var e := hits[index];
        assert e.id == driverIds[index] && (e.id in activeDriverSet <==> FreshIn(active, cutoff)(e));
        AnswerSnoc(hits[..index], e, far, active, metadata, cutoff);
        assert hits[..index + 1] == hits[..index] + [e];
        if e.id in activeDriverSet {
          answer := answer + [Nearby(e.id, far(e), e.longitude, e.latitude,
                                     if e.id in metadataMap then Some(metadataMap[e.id]) else None)];
        }
      }
      assert hits[..|hits|] == hits;
    }
  }

  lemma StaleShrinks(active: map<DriverId, nat>, ids: set<DriverId>, cutoff: nat)
    ensures Stale(active - ids, cutoff) == Stale(active, cutoff) - ids
  {
  }

  /** After a batch: what is gone is stale, less is left, and a batch with all that was left completes the sweep. */
  lemma BatchRemoved(active: map<DriverId, nat>, gone: set<DriverId>, batch: set<DriverId>, cutoff: nat)
    requires gone <= Stale(active, cutoff) && batch <= Stale(active - gone, cutoff)
    ensures gone + batch <= Stale(active, cutoff)
    ensures batch != {} ==> |Stale(active - (gone + batch), cutoff)| < |Stale(active - gone, cutoff)|
    ensures batch == Stale(active - gone, cutoff) ==> gone + batch == Stale(active, cutoff)
  {
    StaleShrinks(active, gone, cutoff);
    StaleShrinks(active, gone + batch, cutoff);
    var left, rest := Stale(active - gone, cutoff), Stale(active - (gone + batch), cutoff);
    assert rest == left - batch by {
      assert left == Stale(active, cutoff) - gone && rest == Stale(active, cutoff) - (gone + batch);
    }
    SubsetCardinality(rest, left);
  }

  lemma EvictNobody(ix: Index)
    ensures Evicted(ix, {}) == ix
  {
    FilterNobody(ix.geo);
  }

  lemma {:induction false} FilterNobody(geo: seq<GeoEntry>)
    ensures Filter(NotIn({}), geo) == geo
  {
    if geo != [] {
      FilterNobody(geo[1..]);
    }
  }
}
