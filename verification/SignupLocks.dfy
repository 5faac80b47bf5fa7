/** Concurrent rider and driver signups: two advisory locks per phone number, a check over both profile tables and an
    insert, interleaved statement by statement. Advisory locks are counted per database session, so one session may
    take the same lock twice when both keys have the same hash. */
module SignupLocks {
  type SessionId = nat
  type Phone = string

  datatype Role = Rider | Driver

  /** An ACTIVE row of one of the two profile tables; the lookups see no others. */
  datatype Profile = Profile(phone: Phone, role: Role)

  datatype Hold = Hold(session: SessionId, count: nat)

  datatype Result = Created | Conflict | ServerError

  /** Locking: taking the locks one by one. Checking: inside the transaction, nothing read yet. NoRider: the rider
      table has been read. Checked: both tables have been read. Inserted: the row is written but not committed.
      Unlocking: the result is fixed, locks are given back. */
  datatype Progress =
    | Locking
    | Checking
    | NoRider
    | Checked
    | Inserted
    | Unlocking(result: Result)
    | Finished(result: Result)

  datatype Session = Session(phone: Phone, role: Role, acquired: seq<string>, progress: Progress)

  datatype Registry = Registry(locks: map<int, Hold>, profiles: seq<Profile>, sessions: map<SessionId, Session>)

  /** `hashtext` of the database. */
  type Hash = string -> int

  function LockKeys(phone: Phone): seq<string> {
    ["client_signup_lock:driver_profile:" + phone, "client_signup_lock:rider_profile:" + phone]
  }

  predicate Registered(profiles: seq<Profile>, phone: Phone, role: Role) {
    Profile(phone, role) in profiles
  }

  datatype Step =
    | TryLock(session: SessionId)
    | Begin(session: SessionId)
    | ReadRiders(session: SessionId)
    | ReadDrivers(session: SessionId)
    | Insert(session: SessionId)
    | Commit(session: SessionId)
    | Fail(session: SessionId)
    | Unlock(session: SessionId)
    | Release(session: SessionId)

  predicate Enabled(r: Registry, s: Step) {
    && s.session in r.sessions
    && var me := r.sessions[s.session];
       match s
       case TryLock(_) => me.progress.Locking? && |me.acquired| < 2
       case Begin(_) => me.progress.Locking? && |me.acquired| == 2
       case ReadRiders(_) => me.progress.Checking?
       case ReadDrivers(_) => me.progress.NoRider?
       case Insert(_) => me.progress.Checked?
       case Commit(_) => me.progress.Inserted?
       case Fail(_) => !me.progress.Unlocking? && !me.progress.Finished?
       case Unlock(_) => me.progress.Unlocking? && me.acquired != []
       case Release(_) => me.progress.Unlocking? && me.acquired == []
  }

  function Moved(r: Registry, id: SessionId, p: Progress): Registry
    requires id in r.sessions
  {
    r.(sessions := r.sessions[id := r.sessions[id].(progress := p)])
  }

  /** pg_try_advisory_lock */
  predicate Available(locks: map<int, Hold>, lock: int, id: SessionId) {
    lock in locks ==> locks[lock].session == id
  }

  function Taken(locks: map<int, Hold>, lock: int, id: SessionId): map<int, Hold> {
    locks[lock := Hold(id, if lock in locks then locks[lock].count + 1 else 1)]
  }

  /** pg_advisory_unlock: releasing a lock the session does not hold changes nothing. */
  function GivenBack(locks: map<int, Hold>, lock: int, id: SessionId): map<int, Hold> {
    if lock !in locks || locks[lock].session != id then locks
    else if locks[lock].count <= 1 then locks - {lock}
    else locks[lock := Hold(id, locks[lock].count - 1)]
  }

  function Apply(hash: Hash, r: Registry, s: Step): Registry
    requires Enabled(r, s)
  {
    var id := s.session;
    var me := r.sessions[id];
    match s
    case TryLock(_) =>
      var key := LockKeys(me.phone)[|me.acquired|];
      if Available(r.locks, hash(key), id) then
        r.(locks := Taken(r.locks, hash(key), id),
           sessions := r.sessions[id := me.(acquired := me.acquired + [key])])
      else Moved(r, id, Unlocking(Conflict))
    case Begin(_) => Moved(r, id, Checking)
    case ReadRiders(_) =>
      Moved(r, id, if Registered(r.profiles, me.phone, Rider) then Unlocking(Conflict) else NoRider)
    case ReadDrivers(_) =>
      Moved(r, id, if Registered(r.profiles, me.phone, Driver) then Unlocking(Conflict) else Checked)
    case Insert(_) => Moved(r, id, Inserted)
    case Commit(_) => Moved(r.(profiles := r.profiles + [Profile(me.phone, me.role)]), id, Unlocking(Created))
    case Fail(_) => Moved(r, id, Unlocking(ServerError))
    case Unlock(_) =>
      var n := |me.acquired| - 1;
      r.(locks := GivenBack(r.locks, hash(me.acquired[n]), id),
         sessions := r.sessions[id := me.(acquired := me.acquired[..n])])
    case Release(_) => Moved(r, id, Finished(me.progress.result))
  }

  predicate AllEnabled(hash: Hash, r: Registry, steps: seq<Step>)
    decreases |steps|
  {
    steps == [] || (Enabled(r, steps[0]) && AllEnabled(hash, Apply(hash, r, steps[0]), steps[1..]))
  }

  function Run(hash: Hash, r: Registry, steps: seq<Step>): Registry
    requires AllEnabled(hash, r, steps)
    decreases |steps|
  {
    if steps == [] then r else Run(hash, Apply(hash, r, steps[0]), steps[1..])
  }

  // ----- invariants -----

  /** How many of the keys hash to `lock`. */
  function Uses(hash: Hash, keys: seq<string>, lock: int): nat {
    if keys == [] then 0
    else Uses(hash, keys[..|keys| - 1], lock) + if hash(keys[|keys| - 1]) == lock then 1 else 0
  }

  /** Session `id` holds `lock` exactly `times` times. */
  predicate Holds(locks: map<int, Hold>, id: SessionId, lock: int, times: nat) {
    if times > 0 then lock in locks && locks[lock] == Hold(id, times)
    else lock in locks ==> locks[lock].session != id
  }

  /** The lock table is the sum of what the sessions took. */
  ghost predicate LocksMatch(hash: Hash, r: Registry) {
    && (forall lock :: lock in r.locks ==> r.locks[lock].session in r.sessions)
    && (forall id, lock :: id in r.sessions ==> Holds(r.locks, id, lock, Uses(hash, r.sessions[id].acquired, lock)))
  }

  predicate InTransaction(p: Progress) {
    p.Checking? || p.NoRider? || p.Checked? || p.Inserted?
  }

  ghost predicate SessionOk(r: Registry, me: Session) {
    && |me.acquired| <= 2 && me.acquired == LockKeys(me.phone)[..|me.acquired|]
    && (InTransaction(me.progress) ==> |me.acquired| == 2)
    && (me.progress.Finished? ==> me.acquired == [])
    && (me.progress.NoRider? || me.progress.Checked? || me.progress.Inserted? ==> !Registered(r.profiles, me.phone, Rider))
    && (me.progress.Checked? || me.progress.Inserted? ==> !Registered(r.profiles, me.phone, Driver))
  }

  /** At most one profile per phone number, over both tables. */
  ghost predicate Exclusive(profiles: seq<Profile>) {
    forall i, j :: 0 <= i < j < |profiles| ==> profiles[i].phone != profiles[j].phone
  }

  ghost predicate Inv(hash: Hash, r: Registry) {
    && LocksMatch(hash, r)
    && (forall id :: id in r.sessions ==> SessionOk(r, r.sessions[id]))
    && Exclusive(r.profiles)
  }

  lemma UsesSnoc(hash: Hash, keys: seq<string>, key: string, lock: int)
    ensures Uses(hash, keys + [key], lock) == Uses(hash, keys, lock) + if hash(key) == lock then 1 else 0
  {
    assert (keys + [key])[..|keys|] == keys;
  }

  lemma UsesMember(hash: Hash, keys: seq<string>, key: string)
    requires key in keys
    ensures Uses(hash, keys, hash(key)) > 0
  {
    if keys[|keys| - 1] != key {
      UsesMember(hash, keys[..|keys| - 1], key);
    }
  }

  /** Two sessions that both hold the first lock of one phone number are the same session. */
  lemma HoldersAreEqual(hash: Hash, r: Registry, id1: SessionId, id2: SessionId)
    requires LocksMatch(hash, r) && id1 in r.sessions && id2 in r.sessions
    requires r.sessions[id1].phone == r.sessions[id2].phone
    requires r.sessions[id1].acquired == LockKeys(r.sessions[id1].phone) == r.sessions[id2].acquired
    ensures id1 == id2
  {
    var keys := LockKeys(r.sessions[id1].phone);
    UsesMember(hash, keys, keys[0]);
    assert Holds(r.locks, id1, hash(keys[0]), Uses(hash, r.sessions[id1].acquired, hash(keys[0])));
    assert Holds(r.locks, id2, hash(keys[0]), Uses(hash, r.sessions[id2].acquired, hash(keys[0])));
  }

  /** Taking a lock once more counts for the taker and for nobody else. */
  lemma TakingCounts(locks: map<int, Hold>, got: int, mine: SessionId, id: SessionId, lock: int, myTimes: nat, times: nat)
    requires Available(locks, got, mine) && Holds(locks, mine, got, myTimes) && Holds(locks, id, lock, times)
    requires id == mine && lock == got ==> times == myTimes
    ensures Holds(Taken(locks, got, mine), id, lock, if id == mine && lock == got then times + 1 else times)
  {
  }

  lemma GivingCounts(locks: map<int, Hold>, given: int, mine: SessionId, id: SessionId, lock: int, myTimes: nat, times: nat)
    requires myTimes > 0 && Holds(locks, mine, given, myTimes) && Holds(locks, id, lock, times)
    requires id == mine && lock == given ==> times == myTimes
    ensures Holds(GivenBack(locks, given, mine), id, lock, if id == mine && lock == given then times - 1 else times)
  {
  }

  /** What each session holds after one of them took a lock. */
  lemma TakenMatches(hash: Hash, r: Registry, mine: SessionId, key: string, id: SessionId, lock: int)
    requires LocksMatch(hash, r) && mine in r.sessions && id in r.sessions && Available(r.locks, hash(key), mine)
    ensures Holds(Taken(r.locks, hash(key), mine), id, lock,
                  Uses(hash, if id == mine then r.sessions[id].acquired + [key] else r.sessions[id].acquired, lock))
  {
    var got := hash(key);
    var acquired := r.sessions[id].acquired;
    assert Holds(r.locks, mine, got, Uses(hash, r.sessions[mine].acquired, got));
    assert Holds(r.locks, id, lock, Uses(hash, acquired, lock));
    TakingCounts(r.locks, got, mine, id, lock, Uses(hash, r.sessions[mine].acquired, got), Uses(hash, acquired, lock));
    UsesSnoc(hash, acquired, key, lock);
  }

  lemma TryLockKeepsLocks(hash: Hash, r: Registry, s: Step)
    requires LocksMatch(hash, r) && Enabled(r, s) && s.TryLock?
    ensures LocksMatch(hash, Apply(hash, r, s))
  {
    var q := Apply(hash, r, s);
    var me := r.sessions[s.session];
    var key := LockKeys(me.phone)[|me.acquired|];
    if Available(r.locks, hash(key), s.session) {
      forall id, lock | id in q.sessions
        ensures Holds(q.locks, id, lock, Uses(hash, q.sessions[id].acquired, lock))
      {
        TakenMatches(hash, r, s.session, key, id, lock);
      }
    } else {
      LocksStillMatch(hash, r, q);
    }
  }

  lemma TryLockKeepsInv(hash: Hash, r: Registry, s: Step)
    requires Inv(hash, r) && Enabled(r, s) && s.TryLock?
    ensures Inv(hash, Apply(hash, r, s))
  {
    TryLockKeepsLocks(hash, r, s);
    assert SessionOk(r, r.sessions[s.session]);
  }

  lemma UnlockKeepsLocks(hash: Hash, r: Registry, s: Step)
    requires LocksMatch(hash, r) && Enabled(r, s) && s.Unlock?
    ensures LocksMatch(hash, Apply(hash, r, s))
  {
    var q := Apply(hash, r, s);
    var me := r.sessions[s.session];
    var n := |me.acquired| - 1;
    var given := hash(me.acquired[n]);
    assert me.acquired[..n] + [me.acquired[n]] == me.acquired;
    UsesSnoc(hash, me.acquired[..n], me.acquired[n], given);
    assert Holds(r.locks, s.session, given, Uses(hash, me.acquired, given));
    forall id, lock | id in q.sessions
      ensures Holds(q.locks, id, lock, Uses(hash, q.sessions[id].acquired, lock))
    {
      UsesSnoc(hash, me.acquired[..n], me.acquired[n], lock);
      assert Holds(r.locks, id, lock, Uses(hash, r.sessions[id].acquired, lock));
      GivingCounts(r.locks, given, s.session, id, lock,
                   Uses(hash, me.acquired, given), Uses(hash, r.sessions[id].acquired, lock));
    }
  }

  lemma UnlockKeepsInv(hash: Hash, r: Registry, s: Step)
    requires Inv(hash, r) && Enabled(r, s) && s.Unlock?
    ensures Inv(hash, Apply(hash, r, s))
  {
    UnlockKeepsLocks(hash, r, s);
    assert SessionOk(r, r.sessions[s.session]);
  }

  /** A step that neither takes nor gives locks leaves the lock table explained. */
  lemma LocksStillMatch(hash: Hash, r: Registry, q: Registry)
    requires LocksMatch(hash, r) && q.locks == r.locks && q.sessions.Keys == r.sessions.Keys
    requires forall id :: id in r.sessions ==> q.sessions[id].acquired == r.sessions[id].acquired
    ensures LocksMatch(hash, q)
  {
    forall id, lock | id in q.sessions
      ensures Holds(q.locks, id, lock, Uses(hash, q.sessions[id].acquired, lock))
    {
      assert Holds(r.locks, id, lock, Uses(hash, r.sessions[id].acquired, lock));
    }
  }

  lemma ProgressKeepsInv(hash: Hash, r: Registry, s: Step)
    requires Inv(hash, r) && Enabled(r, s) && !s.TryLock? && !s.Unlock? && !s.Commit?
    ensures Inv(hash, Apply(hash, r, s))
  {
    var q := Apply(hash, r, s);
    LocksStillMatch(hash, r, q);
    assert SessionOk(r, r.sessions[s.session]);
  }

  lemma CommitKeepsInv(hash: Hash, r: Registry, s: Step)
    requires Inv(hash, r) && Enabled(r, s) && s.Commit?
    ensures Inv(hash, Apply(hash, r, s))
  {
    var me := r.sessions[s.session];
    var q := Apply(hash, r, s);
    LocksStillMatch(hash, r, q);
    forall i | 0 <= i < |r.profiles| ensures r.profiles[i].phone != me.phone {
      assert r.profiles[i] in r.profiles;
      assert r.profiles[i].role == Rider || r.profiles[i].role == Driver;
    }
    forall id | id in q.sessions
      ensures SessionOk(q, q.sessions[id])
    {
      var other := r.sessions[id];
      if id != s.session && InTransaction(other.progress) && other.phone == me.phone {
        HoldersAreEqual(hash, r, id, s.session);
      }
    }
  }

  lemma StepKeepsInv(hash: Hash, r: Registry, s: Step)
    requires Inv(hash, r) && Enabled(r, s)
    ensures Inv(hash, Apply(hash, r, s))
  {
    match s
    case TryLock(_) => TryLockKeepsInv(hash, r, s);
    case Unlock(_) => UnlockKeepsInv(hash, r, s);
    case Commit(_) => CommitKeepsInv(hash, r, s);
    case _ => ProgressKeepsInv(hash, r, s);
  }

  lemma {:induction false} RunKeepsInv(hash: Hash, r: Registry, steps: seq<Step>)
    requires Inv(hash, r) && AllEnabled(hash, r, steps)
    ensures Inv(hash, Run(hash, r, steps))
    decreases |steps|
  {
    if steps != [] {
      StepKeepsInv(hash, r, steps[0]);
      RunKeepsInv(hash, Apply(hash, r, steps[0]), steps[1..]);
    }
  }

  /** No signup has begun, no lock is held, and the tables are in order. */
  ghost predicate Fresh(r: Registry) {
    && r.locks == map[] && Exclusive(r.profiles)
    && forall id :: id in r.sessions ==> r.sessions[id].progress.Locking? && r.sessions[id].acquired == []
  }

  /** Signup exclusivity: for any number of concurrent signups, any interleaving and any hash function, each phone
      number has at most one profile over both tables; every lock held belongs to a running signup that took it, each
      as often as it was taken; and when all signups are over no lock is left. */
  lemma SignupsAreExclusive(hash: Hash, r: Registry, steps: seq<Step>)
    requires Fresh(r) && AllEnabled(hash, r, steps)
    ensures var q := Run(hash, r, steps);
            && Exclusive(q.profiles)
            && (forall lock :: lock in q.locks ==>
                  && q.locks[lock].session in q.sessions
                  && !q.sessions[q.locks[lock].session].progress.Finished?
                  && q.locks[lock].count == Uses(hash, q.sessions[q.locks[lock].session].acquired, lock) > 0)
            && ((forall id :: id in q.sessions ==> q.sessions[id].progress.Finished?) ==> q.locks == map[])
  {
    RunKeepsInv(hash, r, steps);
    var q := Run(hash, r, steps);
    forall lock | lock in q.locks
      ensures !q.sessions[q.locks[lock].session].progress.Finished?
      ensures q.locks[lock].count == Uses(hash, q.sessions[q.locks[lock].session].acquired, lock) > 0
    {
      assert SessionOk(q, q.sessions[q.locks[lock].session]);
      assert Holds(q.locks, q.locks[lock].session, lock, Uses(hash, q.sessions[q.locks[lock].session].acquired, lock));
    }
  }

  /** Why a signup is told that the phone number is taken. */
  predicate TakenByOthers(hash: Hash, r: Registry, s: Step)
    requires s.session in r.sessions
  {
    var me := r.sessions[s.session];
    match s
    case TryLock(id) =>
      var key := if me.acquired == [] then "client_signup_lock:driver_profile:" + me.phone
                 else "client_signup_lock:rider_profile:" + me.phone;
      hash(key) in r.locks && r.locks[hash(key)].session != id
    case ReadRiders(_) => Profile(me.phone, Rider) in r.profiles
    case ReadDrivers(_) => Profile(me.phone, Driver) in r.profiles
    case _ => false
  }

  /** A signup runs into a conflict exactly when another session holds the lock it asks for or a profile is found, and
      into an error exactly when something fails. */
  lemma RefusedExactlyForCause(hash: Hash, r: Registry, s: Step)
    requires Enabled(r, s) && !r.sessions[s.session].progress.Unlocking?
    ensures var p := Apply(hash, r, s).sessions[s.session].progress;
            && (p == Unlocking(Conflict) <==> TakenByOthers(hash, r, s))
            && (p == Unlocking(ServerError) <==> s.Fail?)
            && (p == Unlocking(Created) <==> s.Commit?)
  {
  }

  predicate SucceededAs(q: Registry, id: SessionId, p: Profile) {
    && id in q.sessions && Profile(q.sessions[id].phone, q.sessions[id].role) == p
    && (q.sessions[id].progress == Unlocking(Created) || q.sessions[id].progress == Finished(Created))
  }

  /** The profile stands for a signup that ended well, or was there before. */
  ghost predicate Earned(before: seq<Profile>, q: Registry) {
    forall p :: p in q.profiles <==> p in before || exists id :: SucceededAs(q, id, p)
  }

  lemma StepKeepsEarned(hash: Hash, before: seq<Profile>, r: Registry, s: Step)
    requires Earned(before, r) && Enabled(r, s)
    ensures Earned(before, Apply(hash, r, s))
  {
    var q := Apply(hash, r, s);
    forall p
      ensures p in q.profiles <==> p in before || exists id :: SucceededAs(q, id, p)
    {
      assert p in r.profiles <==> p in before || exists id :: SucceededAs(r, id, p);
      if s.Commit? {
        assert SucceededAs(q, s.session, Profile(r.sessions[s.session].phone, r.sessions[s.session].role));
      }
      if id :| SucceededAs(r, id, p) {
        assert SucceededAs(q, id, p);
      }
      if id :| SucceededAs(q, id, p) {
        assert SucceededAs(r, id, p) || (s.Commit? && id == s.session);
      }
    }
  }

  lemma {:induction false} RunKeepsEarned(hash: Hash, before: seq<Profile>, r: Registry, steps: seq<Step>)
    requires Earned(before, r) && AllEnabled(hash, r, steps)
    ensures Earned(before, Run(hash, r, steps))
    decreases |steps|
  {
    if steps != [] {
      StepKeepsEarned(hash, before, r, steps[0]);
      RunKeepsEarned(hash, before, Apply(hash, r, steps[0]), steps[1..]);
    }
  }

  /** Over every interleaving the tables hold the profiles from before and those of the signups that ended well, and no
      others: a signup that is told CREATED has its profile, and one that is refused leaves none. */
  lemma ProfilesAreThoseOfSuccessfulSignups(hash: Hash, r: Registry, steps: seq<Step>, p: Profile)
    requires Fresh(r) && AllEnabled(hash, r, steps)
    ensures p in Run(hash, r, steps).profiles <==> p in r.profiles || exists id :: SucceededAs(Run(hash, r, steps), id, p)
  {
    assert Earned(r.profiles, r) by {
      forall x, id ensures !SucceededAs(r, id, x) {
      }
    }
    RunKeepsEarned(hash, r.profiles, r, steps);
  }

  ghost predicate CanSucceed(hash: Hash, r: Registry, id: SessionId) {
    exists steps: seq<Step> :: Succeeds(hash, r, id, steps)
  }

  predicate Succeeds(hash: Hash, r: Registry, id: SessionId, steps: seq<Step>) {
    && AllEnabled(hash, r, steps) && id in Run(hash, r, steps).sessions
    && Run(hash, r, steps).sessions[id].progress == Finished(Created)
  }

  lemma OneStepEarlier(hash: Hash, r: Registry, s: Step, id: SessionId)
    requires Enabled(r, s) && CanSucceed(hash, Apply(hash, r, s), id)
    ensures CanSucceed(hash, r, id)
  {
    var steps :| Succeeds(hash, Apply(hash, r, s), id, steps);
    assert ([s] + steps)[1..] == steps;
    assert Succeeds(hash, r, id, [s] + steps);
  }

  lemma {:induction false} UnlockingEnds(hash: Hash, r: Registry, id: SessionId)
    requires id in r.sessions && r.sessions[id].progress == Unlocking(Created)
    ensures CanSucceed(hash, r, id)
    decreases |r.sessions[id].acquired|
  {
    if r.sessions[id].acquired == [] {
      assert Succeeds(hash, Apply(hash, r, Release(id)), id, []);
      OneStepEarlier(hash, r, Release(id), id);
    } else {
      UnlockingEnds(hash, Apply(hash, r, Unlock(id)), id);
      OneStepEarlier(hash, r, Unlock(id), id);
    }
  }

  lemma TransactionEnds(hash: Hash, r: Registry, id: SessionId)
    requires id in r.sessions && r.sessions[id].progress.Checking?
    requires forall p :: p in r.profiles ==> p.phone != r.sessions[id].phone
    ensures CanSucceed(hash, r, id)
  {
    var r1 := Apply(hash, r, ReadRiders(id));
    var r2 := Apply(hash, r1, ReadDrivers(id));
    var r3 := Apply(hash, r2, Insert(id));
    UnlockingEnds(hash, Apply(hash, r3, Commit(id)), id);
    OneStepEarlier(hash, r3, Commit(id), id);
    OneStepEarlier(hash, r2, Insert(id), id);
    OneStepEarlier(hash, r1, ReadDrivers(id), id);
    OneStepEarlier(hash, r, ReadRiders(id), id);
  }

  /** A signup that finds its locks free or its own and no profile under its phone number can always be brought to a
      good end. */
  lemma {:induction false} UncontendedSignupSucceeds(hash: Hash, r: Registry, id: SessionId)
    requires id in r.sessions && r.sessions[id].progress.Locking? && |r.sessions[id].acquired| <= 2
    requires forall lock :: lock in r.locks ==> r.locks[lock].session == id
    requires forall p :: p in r.profiles ==> p.phone != r.sessions[id].phone
    ensures CanSucceed(hash, r, id)
    decreases 2 - |r.sessions[id].acquired|
  {
    if |r.sessions[id].acquired| < 2 {
      UncontendedSignupSucceeds(hash, Apply(hash, r, TryLock(id)), id);
      OneStepEarlier(hash, r, TryLock(id), id);
    } else {
      TransactionEnds(hash, Apply(hash, r, Begin(id)), id);
      OneStepEarlier(hash, r, Begin(id), id);
    }
  }

  // ----- the locking method of the repositories -----

  /** `now` is the lock table `before` plus the locks session `id` took for `keys`, each as often as it was taken. */
  ghost predicate TakenFrom(hash: Hash, before: map<int, Hold>, now: map<int, Hold>, keys: seq<string>, id: SessionId) {
    forall lock :: LockTakenFrom(before, now, lock, Uses(hash, keys, lock), id)
  }

  predicate LockTakenFrom(before: map<int, Hold>, now: map<int, Hold>, lock: int, times: nat, id: SessionId) {
    if times > 0 then lock !in before && lock in now && now[lock] == Hold(id, times)
    else (lock in now <==> lock in before) && (lock in now ==> now[lock] == before[lock])
  }

  lemma TakingOneMore(hash: Hash, before: map<int, Hold>, now: map<int, Hold>, keys: seq<string>, key: string, id: SessionId)
    requires TakenFrom(hash, before, now, keys, id) && hash(key) !in before
    ensures Available(now, hash(key), id)
    ensures TakenFrom(hash, before, Taken(now, hash(key), id), keys + [key], id)
  {
    forall lock
      ensures LockTakenFrom(before, Taken(now, hash(key), id), lock, Uses(hash, keys + [key], lock), id)
    {
      UsesSnoc(hash, keys, key, lock);
      assert LockTakenFrom(before, now, lock, Uses(hash, keys, lock), id);
    }
    assert LockTakenFrom(before, now, hash(key), Uses(hash, keys, hash(key)), id);
  }

  lemma GivingOneBack(hash: Hash, before: map<int, Hold>, now: map<int, Hold>, keys: seq<string>, id: SessionId)
    requires keys != [] && TakenFrom(hash, before, now, keys, id)
    ensures TakenFrom(hash, before, GivenBack(now, hash(keys[|keys| - 1]), id), keys[..|keys| - 1], id)
  {
    var key, rest := keys[|keys| - 1], keys[..|keys| - 1];
    assert rest + [key] == keys;
    forall lock
      ensures LockTakenFrom(before, GivenBack(now, hash(key), id), lock, Uses(hash, rest, lock), id)
    {
      UsesSnoc(hash, rest, key, lock);
      assert LockTakenFrom(before, now, lock, Uses(hash, keys, lock), id);
    }
  }

  lemma TakenForNothing(hash: Hash, before: map<int, Hold>, now: map<int, Hold>, id: SessionId)
    ensures TakenFrom(hash, before, now, [], id) <==> now == before
  {
    if TakenFrom(hash, before, now, [], id) {
      forall lock
        ensures (lock in now <==> lock in before) && (lock in now ==> now[lock] == before[lock])
      {
        assert LockTakenFrom(before, now, lock, Uses(hash, [], lock), id);
      }
    }
  }

  /** How the transaction of a signup ends when both locks were obtained. */
  datatype Fate = Commits | Breaks

  /** The repositories' lock loop and transaction, with the other sessions at rest. */
  class SignupDesk {
    const hash: Hash
    var locks: map<int, Hold>
    var profiles: seq<Profile>

    constructor (hash: Hash)
      ensures this.hash == hash && locks == map[] && profiles == []
    {
      this.hash := hash;
      locks, profiles := map[], [];
    }

    /** ensureMsisdnExclusivity */
    method EnsureMsisdnExclusivity(phone: Phone) returns (free: bool)
      ensures free <==> forall p :: p in profiles ==> p.phone != phone
    {
      var riderExists := Registered(profiles, phone, Rider);
      var driverExists := Registered(profiles, phone, Driver);
      free := !riderExists && !driverExists;
      forall p | p in profiles && p.phone == phone
        ensures !free
      {
        assert p.role == Rider || p.role == Driver;
      }
    }

    /** The lock loop: stops at the first lock another session holds. */
    method TakeLocks(id: SessionId, lockKeys: seq<string>) returns (acquired: seq<string>)
      requires forall lock :: lock in locks ==> locks[lock].session != id
      modifies this`locks
      ensures acquired <= lockKeys && TakenFrom(hash, old(locks), locks, acquired, id)
      ensures acquired == lockKeys <==> forall k :: 0 <= k < |lockKeys| ==> hash(lockKeys[k]) !in old(locks)
    {
      acquired := [];
      TakenForNothing(hash, locks, locks, id);
      for i := 0 to |lockKeys|
        invariant acquired == lockKeys[..i] && TakenFrom(hash, old(locks), locks, acquired, id)
        invariant forall k :: 0 <= k < i ==> hash(lockKeys[k]) !in old(locks)
      {
        var lock := hash(lockKeys[i]);
        if lock in old(locks) {
          assert LockTakenFrom(old(locks), locks, lock, Uses(hash, acquired, lock), id);
          assert !Available(locks, lock, id);
        } else {
          TakingOneMore(hash, old(locks), locks, acquired, lockKeys[i], id);
        }
        if !Available(locks, lock, id) {
          return;
        }
        locks := Taken(locks, lock, id);
        assert lockKeys[..i + 1] == acquired + [lockKeys[i]];
        acquired := acquired + [lockKeys[i]];
      }
      assert lockKeys[..|lockKeys|] == lockKeys;
    }

    /** The finally block: gives the locks back, last first. */
    method GiveLocksBack(id: SessionId, acquired: seq<string>, ghost before: map<int, Hold>)
      requires TakenFrom(hash, before, locks, acquired, id)
      modifies this`locks
      ensures locks == before
    {
      var n := |acquired|;
      assert acquired[..n] == acquired;
      while n > 0
        invariant 0 <= n <= |acquired| && TakenFrom(hash, before, locks, acquired[..n], id)
      {
        GivingOneBack(hash, before, locks, acquired[..n], id);
        assert acquired[..n][..n - 1] == acquired[..n - 1];
        n := n - 1;
        locks := GivenBack(locks, hash(acquired[n]), id);
      }
      assert acquired[..0] == [];
      TakenForNothing(hash, before, locks, id);
    }

    /** executeWithSignupLock around the insert of a profile. Whatever the exit path, the lock table is as before; a
        profile is added exactly on success, and only for a phone number without one. */
    method ExecuteWithSignupLock(id: SessionId, phone: Phone, role: Role, fate: Fate) returns (result: Result)
      requires forall lock :: lock in locks ==> locks[lock].session != id
      modifies this
      ensures locks == old(locks)
      ensures profiles == if result.Created? then old(profiles) + [Profile(phone, role)] else old(profiles)
      ensures result.Created? <==>
                && (forall key :: key in LockKeys(phone) ==> hash(key) !in old(locks))
                && (forall p :: p in old(profiles) ==> p.phone != phone)
                && fate.Commits?
      ensures result.ServerError? ==> fate.Breaks?
      ensures old(Exclusive(profiles)) ==> Exclusive(profiles)
    {
      var lockKeys := LockKeys(phone);
      var acquired := TakeLocks(id, lockKeys);
      assert acquired == lockKeys <==> forall key :: key in lockKeys ==> hash(key) !in old(locks);
      if acquired != lockKeys {
        result := Conflict;
      } else {
        var free := EnsureMsisdnExclusivity(phone);
        if !free {
          result := Conflict;
        } else if fate.Breaks? {
          result := ServerError;
        } else {
          profiles := profiles + [Profile(phone, role)];
          result := Created;
        }
      }
      GiveLocksBack(id, acquired, old(locks));
    }
  }
}
