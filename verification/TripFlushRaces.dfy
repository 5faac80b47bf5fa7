/** The event list of one ride between its recorders and its flusher, one Redis command or transaction per step.
    Events are numbered in the order of their RPUSH; `clock` counts steps. A single flusher runs at a time, any
    number of recorders push at any moment. */
module TripFlushRaces {
  type EventId = nat

  datatype Cause =
    | PushedInWindow(readAt: nat, deletedAt: nat)
    | PersistFailed
    | KeyExpired

  /** Where `flushRide` stands. `readAt` is the step of the LRANGE or LLEN whose answer the next DEL relies on. */
  datatype Flusher =
    | Idle
    | Fetched(batch: seq<EventId>, readAt: nat)
    | Persisting(batch: seq<EventId>)
    | Persisted
    | LookedEmpty(readAt: nat)
    | Counting
    | Cleaning(readAt: nat)

  datatype Track = Track(
    clock: nat,
    pushedAt: seq<nat>,
    list: seq<EventId>,
    flusher: Flusher,
    persisted: seq<EventId>,
    lost: map<EventId, Cause>)

  const NEW_TRACK := Track(0, [], [], Idle, [], map[])

  datatype Step =
    | Push
    | Lrange
    | Del
    | PersistFlush(commits: bool)
    | GetState(completed: bool)
    | Llen
    | CleanupDel
    | Expire

  predicate Enabled(t: Track, s: Step) {
    match s
    case Push => true
    case Lrange => t.flusher.Idle?
    case Del => t.flusher.Fetched?
    case PersistFlush(_) => t.flusher.Persisting?
    case GetState(_) => t.flusher.Persisted? || t.flusher.LookedEmpty?
    case Llen => t.flusher.Counting?
    case CleanupDel => t.flusher.Cleaning?
    case Expire => true
  }

  /** The events of the list that the flusher does not already hold a copy of. */
  function Waiting(t: Track): seq<EventId> {
    if t.flusher.Fetched? && t.flusher.batch <= t.list then t.list[|t.flusher.batch|..] else t.list
  }

  /** The events the flusher holds and has not persisted. */
  function InFlight(t: Track): seq<EventId> {
    if t.flusher.Fetched? || t.flusher.Persisting? then t.flusher.batch else []
  }

  function Lose(lost: map<EventId, Cause>, ids: seq<EventId>, cause: Cause): map<EventId, Cause> {
    map id | id in lost.Keys + (set x | x in ids) :: if id in ids then cause else lost[id]
  }

  function Act(t: Track, s: Step): Track
    requires Enabled(t, s)
  {
    match s
    case Push => t.(list := t.list + [|t.pushedAt|], pushedAt := t.pushedAt + [t.clock])
    case Lrange => t.(flusher := if t.list == [] then LookedEmpty(t.clock) else Fetched(t.list, t.clock))
    case Del =>
      t.(list := [], flusher := Persisting(t.flusher.batch),
         lost := Lose(t.lost, Waiting(t), PushedInWindow(t.flusher.readAt, t.clock)))
    case PersistFlush(commits) =>
      if commits then t.(flusher := Persisted, persisted := t.persisted + t.flusher.batch)
      else t.(flusher := Idle, lost := Lose(t.lost, t.flusher.batch, PersistFailed))
    case GetState(completed) =>
      t.(flusher := if !completed then Idle
                    else if t.flusher.Persisted? then Counting
                    else Cleaning(t.flusher.readAt))
    case Llen => t.(flusher := if t.list == [] then Cleaning(t.clock) else Idle)
    case CleanupDel =>
      t.(list := [], flusher := Idle, lost := Lose(t.lost, t.list, PushedInWindow(t.flusher.readAt, t.clock)))
    case Expire => t.(list := [], lost := Lose(t.lost, Waiting(t), KeyExpired))
  }

  function Next(t: Track, s: Step): Track
    requires Enabled(t, s)
  {
    Act(t, s).(clock := t.clock + 1)
  }

  predicate AllEnabled(t: Track, steps: seq<Step>)
    decreases |steps|
  {
    steps == [] || (Enabled(t, steps[0]) && AllEnabled(Next(t, steps[0]), steps[1..]))
  }

  function Run(t: Track, steps: seq<Step>): Track
    requires AllEnabled(t, steps)
    decreases |steps|
  {
    if steps == [] then t else Run(Next(t, steps[0]), steps[1..])
  }

  ghost predicate Increasing(s: seq<nat>) {
    forall i, j :: 0 <= i < j < |s| ==> s[i] < s[j]
  }

  /** All surviving events, from the database over the flusher to the list. */
  function Line(t: Track): seq<EventId> {
    t.persisted + InFlight(t) + Waiting(t)
  }

  /** Every recorded event survives or is lost, not both; the survivors stand in the order of recording. */
  ghost predicate Accounted(t: Track) {
    && Increasing(Line(t))
    && (forall id :: id in Line(t) ==> id < |t.pushedAt|)
    && (forall id :: id in t.lost ==> id < |t.pushedAt| && id !in Line(t))
    && (forall id :: 0 <= id < |t.pushedAt| ==> id in Line(t) || id in t.lost)
  }

  /** The flusher's window: what it will drop unseen was pushed after it looked. */
  ghost predicate Windowed(t: Track) {
    && Increasing(t.pushedAt)
    && (forall id :: 0 <= id < |t.pushedAt| ==> t.pushedAt[id] < t.clock)
    && (t.flusher.Fetched? || t.flusher.LookedEmpty? || t.flusher.Cleaning? ==>
          && t.flusher.readAt < t.clock
          && forall id :: id in Waiting(t) && id < |t.pushedAt| ==> t.flusher.readAt < t.pushedAt[id])
    && (t.flusher.Fetched? ==>
          && t.flusher.batch != []
          && (t.flusher.batch <= t.list || forall id :: id in t.flusher.batch ==> id !in t.list)
          && forall id :: id in t.flusher.batch && id < |t.pushedAt| ==> t.pushedAt[id] < t.flusher.readAt)
    && (forall id :: id in t.lost && t.lost[id].PushedInWindow? && id < |t.pushedAt| ==>
          t.lost[id].readAt < t.pushedAt[id] < t.lost[id].deletedAt)
  }

  ghost predicate Inv(t: Track) {
    Accounted(t) && Windowed(t)
  }

  lemma CutEnd(a: seq<nat>, b: seq<nat>)
    requires Increasing(a + b)
    ensures Increasing(a) && Increasing(b)
    ensures forall i, j :: 0 <= i < |a| && 0 <= j < |b| ==> a[i] < b[j]
  {
    var line := a + b;
    assert forall i :: 0 <= i < |a| ==> line[i] == a[i];
    assert forall j :: 0 <= j < |b| ==> line[|a| + j] == b[j];
  }

  lemma CutMiddle(a: seq<nat>, b: seq<nat>, c: seq<nat>)
    requires Increasing(a + b + c)
    ensures Increasing(a + c)
  {
    CutEnd(a + b, c);
    CutEnd(a, b);
    assert forall i :: 0 <= i < |a| ==> (a + b)[i] == a[i];
  }

  /** Dropping the middle or the end of an increasing line leaves an increasing line without the dropped ids. */
  lemma CutLine(a: seq<nat>, b: seq<nat>, c: seq<nat>)
    requires Increasing(a + b + c)
    ensures Increasing(a + b) && Increasing(a + c)
    ensures forall id :: id in b ==> id !in a + c
    ensures forall id :: id in c ==> id !in a + b
    ensures forall id :: id in a + b + c <==> id in a || id in b || id in c
  {
    CutEnd(a + b, c);
    CutMiddle(a, b, c);
    CutEnd(a, b);
    assert a + b + c == a + (b + c);
    CutEnd(a, b + c);
    CutEnd(b, c);
  }

  lemma ExtendLine(a: seq<nat>, n: nat)
    requires Increasing(a) && forall i :: 0 <= i < |a| ==> a[i] < n
    ensures Increasing(a + [n])
  {
  }

  lemma HeadOfPrefix(a: seq<nat>, b: seq<nat>)
    requires a != []
    ensures a <= b ==> a[0] in b
  {
    if a <= b {
      assert b[0] == a[0];
    }
  }

  lemma PushWaits(t: Track)
    requires Inv(t)
    ensures Waiting(Next(t, Push)) == Waiting(t) + [|t.pushedAt|]
    ensures forall id :: id in InFlight(t) ==> id < |t.pushedAt|
  {
    assert forall id :: id in InFlight(t) ==> id in Line(t);
    if t.flusher.Fetched? && !(t.flusher.batch <= t.list) {
      var u := Next(t, Push);
      assert t.flusher.batch[0] in InFlight(t);
      assert t.flusher.batch[0] !in u.list;
      HeadOfPrefix(t.flusher.batch, u.list);
    }
  }

  lemma PushKeepsAccounted(t: Track)
    requires Inv(t)
    ensures Accounted(Next(t, Push))
  {
    var u := Next(t, Push);
    var n := |t.pushedAt|;
    PushWaits(t);
    assert Line(u) == Line(t) + [n];
    forall i | 0 <= i < |Line(t)| ensures Line(t)[i] < n {
      assert Line(t)[i] in Line(t);
    }
    ExtendLine(Line(t), n);
    assert forall id :: id in Line(u) <==> id in Line(t) || id == n;
  }

  lemma PushKeepsWindowed(t: Track)
    requires Inv(t)
    ensures Windowed(Next(t, Push))
  {
    PushWaits(t);
    ExtendLine(t.pushedAt, t.clock);
    assert forall id :: id in Waiting(t) ==> id in Line(t);
  }

  lemma LookKeepsInv(t: Track, s: Step)
    requires Inv(t) && Enabled(t, s) && (s.Lrange? || s.Llen? || s.GetState?)
    ensures Inv(Next(t, s)) && Line(Next(t, s)) == Line(t)
  {
    assert Line(Next(t, s)) == Line(t);
  }

  lemma DropKeepsInv(t: Track, s: Step)
    requires Inv(t) && Enabled(t, s) && (s.Del? || s.CleanupDel? || s.Expire?)
    ensures Inv(Next(t, s))
  {
    var u := Next(t, s);
    CutLine(t.persisted, InFlight(t), Waiting(t));
    assert Waiting(u) == [];
    assert Line(u) == t.persisted + InFlight(t);
  }

  lemma PersistKeepsInv(t: Track, commits: bool)
    requires Inv(t) && Enabled(t, PersistFlush(commits))
    ensures Inv(Next(t, PersistFlush(commits)))
  {
    var u := Next(t, PersistFlush(commits));
    CutLine(t.persisted, InFlight(t), Waiting(t));
    if commits {
      assert Line(u) == Line(t);
    } else {
      assert Line(u) == t.persisted + Waiting(t);
    }
  }

  lemma StepKeepsInv(t: Track, s: Step)
    requires Inv(t) && Enabled(t, s)
    ensures Inv(Next(t, s))
  {
    match s
    case Push =>
      PushKeepsAccounted(t);
      PushKeepsWindowed(t);
    case Del => DropKeepsInv(t, s);
    case CleanupDel => DropKeepsInv(t, s);
    case Expire => DropKeepsInv(t, s);
    case PersistFlush(commits) => PersistKeepsInv(t, commits);
    case _ => LookKeepsInv(t, s);
  }

  lemma {:induction false} RunKeepsInv(t: Track, steps: seq<Step>)
    requires Inv(t) && AllEnabled(t, steps)
    ensures Inv(Run(t, steps))
    decreases |steps|
  {
    if steps != [] {
      StepKeepsInv(t, steps[0]);
      RunKeepsInv(Next(t, steps[0]), steps[1..]);
    }
  }

  predicate ExactlyOne(a: bool, b: bool, c: bool, d: bool) {
    (a && !b && !c && !d) || (!a && b && !c && !d) || (!a && !b && c && !d) || (!a && !b && !c && d)
  }

  lemma PlacesAreApart(t: Track, id: EventId)
    requires Inv(t) && id < |t.pushedAt|
    ensures ExactlyOne(id in t.persisted, id in InFlight(t), id in Waiting(t), id in t.lost)
  {
    CutLine(t.persisted, InFlight(t), Waiting(t));
    CutLine(t.persisted, InFlight(t), []);
    assert t.persisted + [] == t.persisted;
    assert id in Line(t) <==> id !in t.lost;
  }

  lemma PersistedIsIncreasing(t: Track)
    requires Inv(t)
    ensures Increasing(t.persisted)
    ensures forall id :: id in t.persisted + InFlight(t) + Waiting(t) || id in t.lost ==> id < |t.pushedAt|
  {
    var line := Line(t);
    assert forall i :: 0 <= i < |t.persisted| ==> line[i] == t.persisted[i];
  }

  /** Event accounting, over every interleaving: each recorded event is in exactly one of persisted, in flight,
      waiting and lost; what is persisted is in the order of recording and without repetition; an event lost to a
      deletion was pushed between the look that the deletion relied on and the deletion itself. */
  lemma EventAccounting(steps: seq<Step>)
    requires AllEnabled(NEW_TRACK, steps)
    ensures var t := Run(NEW_TRACK, steps);
            && Increasing(t.persisted)
            && (forall id :: 0 <= id < |t.pushedAt| ==>
                  ExactlyOne(id in t.persisted, id in InFlight(t), id in Waiting(t), id in t.lost))
            && (forall id :: id in t.persisted + InFlight(t) + Waiting(t) || id in t.lost ==> id < |t.pushedAt|)
            && (forall id :: id in t.lost && t.lost[id].PushedInWindow? && id < |t.pushedAt| ==>
                  t.lost[id].readAt < t.pushedAt[id] < t.lost[id].deletedAt)
  {
    RunKeepsInv(NEW_TRACK, steps);
    var t := Run(NEW_TRACK, steps);
    PersistedIsIncreasing(t);
    forall id | 0 <= id < |t.pushedAt|
      ensures ExactlyOne(id in t.persisted, id in InFlight(t), id in Waiting(t), id in t.lost)
    {
      PlacesAreApart(t, id);
    }
  }

  /** The two deletions lose exactly the listed events pushed after the look, a failed transaction exactly its
      batch, and no other step but key expiry loses anything. */
  lemma LossIsExact(t: Track, s: Step, id: EventId)
    requires Inv(t) && Enabled(t, s) && id < |t.pushedAt| && id !in t.lost
    ensures id in Next(t, s).lost <==>
              || ((s.Del? || s.CleanupDel?) && id in t.list && t.flusher.readAt < t.pushedAt[id])
              || (s == PersistFlush(false) && id in InFlight(t))
              || (s.Expire? && id in Waiting(t))
  {
    if s.Del? {
      if t.flusher.batch <= t.list {
        assert t.list == t.flusher.batch + Waiting(t);
      }
    }
  }

  /** A step that can lose events: an expiry, a failed transaction, or a push while the flusher is about to delete. */
  predicate Lossy(t: Track, s: Step) {
    || s.Expire? || s == PersistFlush(false)
    || (s.Push? && (t.flusher.Fetched? || t.flusher.LookedEmpty? || t.flusher.Cleaning?))
  }

  predicate NeverLossy(t: Track, steps: seq<Step>)
    requires AllEnabled(t, steps)
    decreases |steps|
  {
    steps == [] || (!Lossy(t, steps[0]) && NeverLossy(Next(t, steps[0]), steps[1..]))
  }

  /** Conservation: without such steps nothing is lost, and a flusher at rest with an empty list has persisted
      every recorded event, in order. */
  lemma {:induction false} NothingLost(t: Track, steps: seq<Step>)
    requires Inv(t) && AllEnabled(t, steps) && NeverLossy(t, steps)
    requires t.lost == map[]
    requires t.flusher.Fetched? || t.flusher.LookedEmpty? || t.flusher.Cleaning? ==> Waiting(t) == []
    ensures var u := Run(t, steps);
            && u.lost == map[]
            && (u.flusher.Idle? && u.list == [] ==> forall id :: 0 <= id < |u.pushedAt| ==> id in u.persisted)
    decreases |steps|
  {
    if steps == [] {
      assert t.flusher.Idle? && t.list == [] ==> Line(t) == t.persisted;
    } else {
      StepKeepsInv(t, steps[0]);
      NothingLost(Next(t, steps[0]), steps[1..]);
    }
  }

  lemma RunCons(t: Track, s: Step, rest: seq<Step>)
    requires Enabled(t, s) && AllEnabled(Next(t, s), rest)
    ensures AllEnabled(t, [s] + rest) && Run(t, [s] + rest) == Run(Next(t, s), rest)
  {
    assert ([s] + rest)[1..] == rest;
  }

  /** Events are really lost, whatever has happened before: with a flusher at rest, an event pushed between its read of
      a non-empty list and the deletion is gone. */
  lemma PushBeforeDelIsLost(t: Track)
    requires Inv(t) && t.flusher.Idle? && t.list != []
    ensures var steps := [Lrange] + ([Push] + ([Del] + []));
            AllEnabled(t, steps) && |t.pushedAt| in Run(t, steps).lost
  {
    var u := Next(t, Lrange);
    StepKeepsInv(t, Lrange);
    PushWaits(u);
    var v := Next(u, Push);
    assert Waiting(v)[|Waiting(v)| - 1] == |t.pushedAt|;
    RunCons(v, Del, []);
    RunCons(u, Push, [Del] + []);
    RunCons(t, Lrange, [Push] + ([Del] + []));
  }

  /** The same between a look at the empty list of a completed ride and the clean-up. */
  lemma PushBeforeCleanupIsLost(t: Track)
    requires t.flusher.Idle? && t.list == []
    ensures var steps := [Lrange] + ([GetState(true)] + ([Push] + ([CleanupDel] + [])));
            AllEnabled(t, steps) && |t.pushedAt| in Run(t, steps).lost
  {
    var u := Next(t, Lrange);
    var v := Next(u, GetState(true));
    var w := Next(v, Push);
    assert w.list[0] == |t.pushedAt|;
    RunCons(w, CleanupDel, []);
    RunCons(v, Push, [CleanupDel] + []);
    RunCons(u, GetState(true), [Push] + ([CleanupDel] + []));
    RunCons(t, Lrange, [GetState(true)] + ([Push] + ([CleanupDel] + [])));
  }

  /** After a committed flush the key of a completed ride is deleted exactly when nothing was pushed in the meantime; of a
      ride under way it never is. */
  lemma CleanupFollowsFlush(t: Track, completed: bool)
    requires t.flusher.Persisted?
    ensures var u := Next(t, GetState(completed));
            && u.list == t.list && u.lost == t.lost
            && (!completed ==> u.flusher.Idle?)
            && (completed ==>
                  && Enabled(u, Llen)
                  && var v := Next(u, Llen);
                     && v.list == t.list && v.lost == t.lost
                     && (t.list != [] ==> v.flusher.Idle?)
                     && (t.list == [] ==> Enabled(v, CleanupDel) && Next(v, CleanupDel).flusher.Idle?
                                          && Next(v, CleanupDel).list == [] && Next(v, CleanupDel).lost.Keys == t.lost.Keys))
  {
  }
}
