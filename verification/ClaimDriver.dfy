/** Concurrent `claimDriver` transactions on one ride row, interleaved statement by statement. SELECT ... FOR UPDATE
    waits for the row lock and then sees the committed row; commit and rollback release the lock. */
module ClaimDriver {
  import opened Base

  type TxId = nat
  type DriverId = nat

  datatype Result = Claimed | NotUpdated | AlreadyClaimed | DatabaseError

  /** Ready: before the SELECT. Locked: the row was read. Wrote: after the UPDATE, which changed `rows` rows. */
  datatype Progress =
    | Ready
    | Locked(seen: Option<DriverId>)
    | Wrote(rows: nat)
    | Finished(result: Result)

  datatype Tx = Tx(driver: DriverId, progress: Progress)

  datatype Row = Row(committed: Option<DriverId>, pending: Option<DriverId>, holder: Option<TxId>, txs: map<TxId, Tx>)

  datatype Step =
    | SelectForUpdate(tx: TxId)
    | FailIfClaimed(tx: TxId)
    | Update(tx: TxId)
    | Commit(tx: TxId)
    | Abort(tx: TxId)

  predicate Enabled(r: Row, s: Step) {
    && s.tx in r.txs
    && var p := r.txs[s.tx].progress;
       match s
       case SelectForUpdate(_) => p.Ready? && r.holder.None?
       case FailIfClaimed(_) => p.Locked? && p.seen.Some?
       case Update(_) => p.Locked? && p.seen.None?
       case Commit(_) => p.Wrote?
       case Abort(_) => !p.Finished?
  }

  function Released(r: Row, tx: TxId): Row {
    if r.holder == Some(tx) then r.(holder := None, pending := None) else r
  }

  function Moved(r: Row, tx: TxId, p: Progress): Row
    requires tx in r.txs
  {
    r.(txs := r.txs[tx := r.txs[tx].(progress := p)])
  }

  function Apply(r: Row, s: Step): Row
    requires Enabled(r, s)
  {
    match s
    case SelectForUpdate(tx) => Moved(r.(holder := Some(tx)), tx, Locked(r.committed))
    case FailIfClaimed(tx) => Moved(Released(r, tx), tx, Finished(AlreadyClaimed))
    case Update(tx) =>
      if r.committed.None? then Moved(r.(pending := Some(r.txs[tx].driver)), tx, Wrote(1)) else Moved(r, tx, Wrote(0))
    case Commit(tx) =>
      var stored := if r.pending.Some? then r.(committed := r.pending) else r;
      Moved(Released(stored, tx), tx, Finished(if r.txs[tx].progress.rows > 0 then Claimed else NotUpdated))
    case Abort(tx) => Moved(Released(r, tx), tx, Finished(DatabaseError))
  }

  predicate AllEnabled(r: Row, steps: seq<Step>)
    decreases |steps|
  {
    steps == [] || (Enabled(r, steps[0]) && AllEnabled(Apply(r, steps[0]), steps[1..]))
  }

  function Run(r: Row, steps: seq<Step>): Row
    requires AllEnabled(r, steps)
    decreases |steps|
  {
    if steps == [] then r else Run(Apply(r, steps[0]), steps[1..])
  }

  /** An unclaimed ride and any number of transactions about to claim it. */
  predicate Unclaimed(r: Row) {
    && r.committed.None? && r.pending.None? && r.holder.None?
    && forall tx :: tx in r.txs ==> r.txs[tx].progress.Ready?
  }

  predicate Won(r: Row, tx: TxId) {
    tx in r.txs && r.txs[tx].progress == Finished(Claimed)
  }

  /** Between the SELECT and the end. */
  predicate Working(p: Progress) {
    p.Locked? || p.Wrote?
  }

  ghost predicate Inv(r: Row) {
    && (r.holder.None? ==> r.pending.None?)
    && (r.holder.Some? ==> r.holder.value in r.txs && Working(r.txs[r.holder.value].progress))
    && (r.pending.Some? ==> r.committed.None? && r.holder.value in r.txs && r.txs[r.holder.value].progress == Wrote(1)
                            && r.pending.value == r.txs[r.holder.value].driver)
    && (forall tx :: tx in r.txs ==>
          match r.txs[tx].progress
          case Ready => true
          case Locked(seen) => r.holder == Some(tx) && seen == r.committed && r.pending.None?
          case Wrote(rows) => r.holder == Some(tx) && rows == 1 && r.pending.Some?
          case Finished(result) =>
            && !result.NotUpdated?
            && (result.Claimed? ==> r.committed == Some(r.txs[tx].driver))
            && (result.AlreadyClaimed? ==> r.committed.Some?))
    && (forall t1, t2 :: Won(r, t1) && Won(r, t2) ==> t1 == t2)
    && (r.committed.Some? ==> exists tx :: Won(r, tx))
  }

  lemma StepKeepsInv(r: Row, s: Step)
    requires Inv(r) && Enabled(r, s)
    ensures Inv(Apply(r, s)) && Apply(r, s).txs.Keys == r.txs.Keys
  {
    var q := Apply(r, s);
    forall t1, t2 | Won(q, t1) && Won(q, t2)
      ensures t1 == t2
    {
      assert s.Commit? ==> r.committed.None?;
      assert t1 != s.tx ==> Won(r, t1);
      assert t2 != s.tx ==> Won(r, t2);
      assert s.Commit? ==> forall t :: !Won(r, t);
    }
    if q.committed.Some? {
      if r.committed.Some? {
        var tx :| Won(r, tx);
        assert Won(q, tx);
      } else {
        assert Won(q, s.tx);
      }
    }
  }

  lemma {:induction false} RunKeepsInv(r: Row, steps: seq<Step>)
    requires Inv(r) && AllEnabled(r, steps)
    ensures Inv(Run(r, steps)) && Run(r, steps).txs.Keys == r.txs.Keys
    decreases |steps|
  {
    if steps != [] {
      StepKeepsInv(r, steps[0]);
      RunKeepsInv(Apply(r, steps[0]), steps[1..]);
    }
  }

  /** The transaction has run to its end and the database did not fail it. */
  predicate Answered(r: Row, tx: TxId) {
    tx in r.txs && r.txs[tx].progress.Finished? && !r.txs[tx].progress.result.DatabaseError?
  }

  /** Claim exclusivity, for any number of transactions and any interleaving: as soon as one of them has been answered,
      exactly one has claimed, the stored driver is its driver, and everybody else who was answered was told that the
      ride is already claimed, whatever database errors occur. The answer "no row updated" never occurs. */
  lemma ExactlyOneClaims(r: Row, steps: seq<Step>)
    requires Unclaimed(r) && AllEnabled(r, steps)
    ensures var q := Run(r, steps);
            && (forall tx :: tx in q.txs ==> q.txs[tx].progress != Finished(NotUpdated))
            && ((exists tx :: Answered(q, tx)) ==>
                  exists winner :: Won(q, winner) && q.committed == Some(q.txs[winner].driver)
                    && forall tx :: Answered(q, tx) && tx != winner ==> q.txs[tx].progress == Finished(AlreadyClaimed))
            && ((forall tx :: !Answered(q, tx)) ==> q.committed.None?)
  {
    RunKeepsInv(r, steps);
    var q := Run(r, steps);
    if tx :| Answered(q, tx) {
      assert q.committed.Some?;
      var winner :| Won(q, winner);
      forall tx | Answered(q, tx) && tx != winner
        ensures q.txs[tx].progress == Finished(AlreadyClaimed)
      {
        assert !Won(q, tx);
      }
    } else if q.committed.Some? {
      var winner :| Won(q, winner);
      assert Answered(q, winner);
    }
  }

  /** A transaction ends with a database error only if the database failed it. */
  lemma {:induction false} ErrorsComeFromTheDatabase(r: Row, steps: seq<Step>, tx: TxId)
    requires AllEnabled(r, steps) && tx in r.txs && r.txs[tx].progress != Finished(DatabaseError)
    ensures tx in Run(r, steps).txs
    ensures Run(r, steps).txs[tx].progress == Finished(DatabaseError) ==> Abort(tx) in steps
    decreases |steps|
  {
    if steps != [] && steps[0] != Abort(tx) {
      ErrorsComeFromTheDatabase(Apply(r, steps[0]), steps[1..], tx);
    } else if steps != [] {
      StaysKnown(r, steps, tx);
    }
  }

  lemma {:induction false} StaysKnown(r: Row, steps: seq<Step>, tx: TxId)
    requires AllEnabled(r, steps) && tx in r.txs
    ensures tx in Run(r, steps).txs
    decreases |steps|
  {
    if steps != [] {
      StaysKnown(Apply(r, steps[0]), steps[1..], tx);
    }
  }

  /** The row lock never blocks everybody: while a transaction is unfinished, one of them can take a step that is no
      failure. */
  lemma SomebodyCanGoOn(r: Row, steps: seq<Step>, tx: TxId)
    requires Unclaimed(r) && AllEnabled(r, steps)
    requires tx in Run(r, steps).txs && !Run(r, steps).txs[tx].progress.Finished?
    ensures exists s :: Enabled(Run(r, steps), s) && !s.Abort?
  {
    RunKeepsInv(r, steps);
    var q := Run(r, steps);
    if q.holder.None? {
      assert Enabled(q, SelectForUpdate(tx));
    } else {
      var h := q.holder.value;
      match q.txs[h].progress
      case Locked(seen) => assert Enabled(q, if seen.Some? then FailIfClaimed(h) else Update(h));
      case Wrote(_) => assert Enabled(q, Commit(h));
    }
  }
}
