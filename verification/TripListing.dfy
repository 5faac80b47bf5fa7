/** Whether a ride with buffered events is listed for the periodic flush: the Redis set of active rides and the event list
    of one ride, one command per step. A recorder adds the ride to the set first and pushes its event later; the
    clean-up of a completed ride deletes the list first and takes the ride out of the set later. */
module TripListing {

  /** Where the flusher stands: at rest, having found the list empty, or between the two commands of a clean-up. */
  datatype Flusher = Idle | FoundEmpty | Deleted

  /** `announced` counts the recorders between their SADD and their RPUSH, `buffered` the events in the list. */
  datatype Listing = Listing(listed: bool, announced: nat, buffered: nat, flusher: Flusher)

  const NEW_LISTING := Listing(false, 0, 0, Idle)

  datatype Step =
    | Sadd
    | Rpush
    | Flush
    | Look(completed: bool)
    | CleanupDel
    | CleanupSrem
    | Expire

  predicate Enabled(t: Listing, s: Step) {
    match s
    case Sadd => true
    case Rpush => t.announced > 0
    case Flush => t.flusher.Idle? && t.buffered > 0
    case Look(_) => t.flusher.Idle? && t.buffered == 0
    case CleanupDel => t.flusher.FoundEmpty?
    case CleanupSrem => t.flusher.Deleted?
    case Expire => true
  }

  function Next(t: Listing, s: Step): Listing
    requires Enabled(t, s)
  {
    match s
    case Sadd => t.(listed := true, announced := t.announced + 1)
    case Rpush => t.(announced := t.announced - 1, buffered := t.buffered + 1)
    case Flush => t.(buffered := 0)
    case Look(completed) => if completed then t.(flusher := FoundEmpty) else t
    case CleanupDel => t.(buffered := 0, flusher := Deleted)
    case CleanupSrem => t.(listed := false, flusher := Idle)
    case Expire => t.(buffered := 0)
  }

  predicate AllEnabled(t: Listing, steps: seq<Step>)
    decreases |steps|
  {
    steps == [] || (Enabled(t, steps[0]) && AllEnabled(Next(t, steps[0]), steps[1..]))
  }

  function Run(t: Listing, steps: seq<Step>): Listing
    requires AllEnabled(t, steps)
    decreases |steps|
  {
    if steps == [] then t else Run(Next(t, steps[0]), steps[1..])
  }

  /** The flush of all active rides does not see events of this ride that are there or about to come. */
  predicate Overlooked(t: Listing) {
    !t.listed && (t.buffered > 0 || t.announced > 0)
  }

  predicate OverlookedIn(t: Listing, steps: seq<Step>)
    requires AllEnabled(t, steps)
    decreases |steps|
  {
    Overlooked(t) || (steps != [] && OverlookedIn(Next(t, steps[0]), steps[1..]))
  }

  /** A clean-up takes the ride out of the set although recorders have come back since it deleted the list or are
      about to push. */
  predicate BusyRemoval(t: Listing, s: Step) {
    s.CleanupSrem? && (t.buffered > 0 || t.announced > 0)
  }

  predicate BusyRemovalIn(t: Listing, steps: seq<Step>)
    requires AllEnabled(t, steps)
    decreases |steps|
  {
    steps != [] && (BusyRemoval(t, steps[0]) || BusyRemovalIn(Next(t, steps[0]), steps[1..]))
  }

  /** Over every interleaving of recorders and a flusher: events are overlooked at some point if and only if some clean-up
      removes the ride while it is busy. */
  lemma {:induction false} OverlookedExactlyAfterBusyRemoval(t: Listing, steps: seq<Step>)
    requires AllEnabled(t, steps) && !Overlooked(t)
    ensures OverlookedIn(t, steps) <==> BusyRemovalIn(t, steps)
    decreases |steps|
  {
    if steps != [] {
      var u := Next(t, steps[0]);
      assert Overlooked(u) <==> BusyRemoval(t, steps[0]);
      if !Overlooked(u) {
        OverlookedExactlyAfterBusyRemoval(u, steps[1..]);
      } else {
        assert OverlookedIn(u, steps[1..]);
      }
    }
  }

  lemma RunCons(t: Listing, s: Step, rest: seq<Step>)
    requires Enabled(t, s) && AllEnabled(Next(t, s), rest)
    ensures AllEnabled(t, [s] + rest) && Run(t, [s] + rest) == Run(Next(t, s), rest)
  {
    assert ([s] + rest)[1..] == rest;
  }

  /** One recorder comes between the clean-up's look and its removal, and pushes after it. */
  const LATE_PUSH: seq<Step> := [Look(true)] + ([Sadd] + ([CleanupDel] + ([CleanupSrem] + ([Rpush] + []))))

  /** It does happen: the event then stands in the list of a ride that no flush of the active rides will see until the
      ride is reported again. */
  lemma EventsAreOverlooked(t: Listing)
    requires t.flusher.Idle? && t.buffered == 0 && t.announced == 0
    ensures AllEnabled(t, LATE_PUSH)
    ensures Run(t, LATE_PUSH) == Listing(false, 0, 1, Idle)
  {
    var t1 := Next(t, Look(true));
    var t2 := Next(t1, Sadd);
    var t3 := Next(t2, CleanupDel);
    var t4 := Next(t3, CleanupSrem);
    RunCons(t4, Rpush, []);
    RunCons(t3, CleanupSrem, [Rpush] + []);
    RunCons(t2, CleanupDel, [CleanupSrem] + ([Rpush] + []));
    RunCons(t1, Sadd, [CleanupDel] + ([CleanupSrem] + ([Rpush] + [])));
    RunCons(t, Look(true), [Sadd] + ([CleanupDel] + ([CleanupSrem] + ([Rpush] + []))));
  }

  /** Over every interleaving without a completion, a ride that is listed stays listed. */
  lemma {:induction false} OnlyCompletedRidesAreDelisted(t: Listing, steps: seq<Step>)
    requires AllEnabled(t, steps) && t.flusher.Idle? && t.listed && Look(true) !in steps
    ensures Run(t, steps).flusher.Idle? && Run(t, steps).listed
    decreases |steps|
  {
    if steps != [] {
      assert steps[0] != Look(true);
      OnlyCompletedRidesAreDelisted(Next(t, steps[0]), steps[1..]);
    }
  }

  /** A completed ride with no recorder left is flushed and taken off the list for good. */
  lemma CompletedRideSettles(t: Listing)
    requires t.flusher.Idle? && t.announced == 0
    ensures var cleanUp := [Look(true)] + ([CleanupDel] + ([CleanupSrem] + []));
            var steps := if t.buffered > 0 then [Flush] + cleanUp else cleanUp;
            AllEnabled(t, steps) && Run(t, steps) == NEW_LISTING
  {
    var u := if t.buffered > 0 then Next(t, Flush) else t;
    var v := Next(u, Look(true));
    var w := Next(v, CleanupDel);
    RunCons(w, CleanupSrem, []);
    RunCons(v, CleanupDel, [CleanupSrem] + []);
    RunCons(u, Look(true), [CleanupDel] + ([CleanupSrem] + []));
    if t.buffered > 0 {
      RunCons(t, Flush, [Look(true)] + ([CleanupDel] + ([CleanupSrem] + [])));
    }
  }
}
