/** One notification channel as `notification-stream.adapter.ts` runs it: local SSE connections, the Redis
    subscription, the promise chain of a SUBSCRIBE in progress, and cleanups deferred until that chain settles.
    Channels do not influence each other, so the protocol is stated per channel; the adapter class ties the maps of
    the source to it. */
module ChannelProtocol {
  type Subject = nat

  datatype Command = Subscribe | Unsubscribe

  /** How far the stored promise of a subscription has come; `waiting` counts the cleanups hooked onto it.
      Sent: command issued. Acked/Refused: the server answered. Added/Caught: the then/catch callback has run.
      The finally callback removes the promise. */
  datatype Chain =
    | NoChain
    | Sent(waiting: nat)
    | Acked(waiting: nat)
    | Added(waiting: nat)
    | Refused(waiting: nat)
    | Caught(waiting: nat)

  /** `queue` holds the commands on their way to the server, oldest first; `server` says whether the server has the
      connection subscribed; `ready` counts deferred cleanups that may run; `refusedLast` remembers that the latest
      subscription attempt was refused. */
  datatype Channel = Channel(
    locals: set<Subject>,
    subscribed: bool,
    chain: Chain,
    ready: nat,
    queue: seq<Command>,
    server: bool,
    refusedLast: bool)

  const IDLE_CHANNEL := Channel({}, false, NoChain, 0, [], false, false)

  datatype Step =
    | Connect(subject: Subject)
    | Disconnect(subject: Subject)
    | ServerAnswers(accepts: bool)
    | ThenRuns
    | CatchRuns
    | FinallyRuns
    | CleanupRuns

  /** ensureRedisSubscription */
  function Ensure(c: Channel): Channel {
    if c.subscribed || !c.chain.NoChain? then c
    else c.(chain := Sent(0), queue := c.queue + [Subscribe], refusedLast := false)
  }

  /** cleanupRedisSubscription */
  function Cleanup(c: Channel): Channel {
    if !c.chain.NoChain? then c.(chain := c.chain.(waiting := c.chain.waiting + 1))
    else if !c.subscribed then c
    else c.(subscribed := false, queue := c.queue + [Unsubscribe])
  }

  predicate Enabled(c: Channel, s: Step) {
    match s
    case Connect(_) => true
    case Disconnect(_) => true
    case ServerAnswers(_) => c.queue != []
    case ThenRuns => c.chain.Acked?
    case CatchRuns => c.chain.Refused?
    case FinallyRuns => c.chain.Added? || c.chain.Caught?
    case CleanupRuns => c.ready > 0
  }

  function Apply(c: Channel, s: Step): Channel
    requires Enabled(c, s)
  {
    match s
    case Connect(subject) => Ensure(c.(locals := c.locals + {subject}))
    case Disconnect(subject) =>
      if c.locals == {} then c
      else
        var rest := c.(locals := c.locals - {subject});
        if rest.locals == {} then Cleanup(rest) else rest
    case ServerAnswers(accepts) => Answered(c, accepts)
    case ThenRuns => c.(chain := Added(c.chain.waiting), subscribed := true)
    case CatchRuns => c.(chain := Caught(c.chain.waiting), subscribed := false, refusedLast := true)
    case FinallyRuns => c.(chain := NoChain, ready := c.ready + if c.chain.Added? then c.chain.waiting else 0)
    case CleanupRuns =>
      var rest := c.(ready := c.ready - 1);
      if c.locals != {} then rest else Cleanup(rest)
  }

  /** The server takes the oldest command; an UNSUBSCRIBE always succeeds. */
  function Answered(c: Channel, accepts: bool): Channel
    requires c.queue != []
  {
    var rest := c.(queue := c.queue[1..]);
    if c.queue[0].Unsubscribe? then rest.(server := false)
    else if !c.chain.Sent? then rest.(server := c.server || accepts)
    else if accepts then rest.(server := true, chain := Acked(c.chain.waiting))
    else rest.(chain := Refused(c.chain.waiting))
  }

  predicate AllEnabled(c: Channel, steps: seq<Step>)
    decreases |steps|
  {
    steps == [] || (Enabled(c, steps[0]) && AllEnabled(Apply(c, steps[0]), steps[1..]))
  }

  function Run(c: Channel, steps: seq<Step>): Channel
    requires AllEnabled(c, steps)
    decreases |steps|
  {
    if steps == [] then c else Run(Apply(c, steps[0]), steps[1..])
  }

  // ----- what the calls do -----

  /** Whether a connection is open after these steps: its last own step was a connect. */
  predicate Open(steps: seq<Step>, subject: Subject)
    decreases |steps|
  {
    steps != [] &&
    var n := |steps| - 1;
    (steps[n] == Connect(subject) || (steps[n] != Disconnect(subject) && Open(steps[..n], subject)))
  }

  lemma {:induction false} RunSnoc(c: Channel, steps: seq<Step>, s: Step)
    requires AllEnabled(c, steps + [s])
    ensures AllEnabled(c, steps) && Enabled(Run(c, steps), s) && Run(c, steps + [s]) == Apply(Run(c, steps), s)
    decreases |steps|
  {
    if steps == [] {
      assert [] + [s] == [s];
    } else {
      assert (steps + [s])[1..] == steps[1..] + [s];
      RunSnoc(Apply(c, steps[0]), steps[1..], s);
    }
  }

  /** Under every interleaving the connections a message is handed to are exactly those that are open. */
  lemma {:induction false} ListenersAreTheOpenConnections(steps: seq<Step>, subject: Subject)
    requires AllEnabled(IDLE_CHANNEL, steps)
    ensures subject in Run(IDLE_CHANNEL, steps).locals <==> Open(steps, subject)
    decreases |steps|
  {
    if steps != [] {
      var n := |steps| - 1;
      assert steps == steps[..n] + [steps[n]];
      RunSnoc(IDLE_CHANNEL, steps[..n], steps[n]);
      ListenersAreTheOpenConnections(steps[..n], subject);
    }
  }

  /** A connection makes the client ask the server for the channel exactly when nothing is recorded and no promise is
      stored; a refused channel is asked for again. Otherwise only the connections change. */
  lemma ConnectingAsksOnce(c: Channel, subject: Subject)
    ensures var d := Apply(c, Connect(subject));
            && d.locals == c.locals + {subject} && d.subscribed == c.subscribed && d.ready == c.ready && d.server == c.server
            && (c.subscribed || !c.chain.NoChain? ==>
                  d.queue == c.queue && d.chain == c.chain && d.refusedLast == c.refusedLast)
            && (!c.subscribed && c.chain.NoChain? ==>
                  d.queue == c.queue + [Subscribe] && d.chain == Sent(0) && !d.refusedLast)
  {
  }

  /** Only the last connection to go stops the subscription: at once if it is recorded, after the promise if one is
      stored, and not at all if there is neither. */
  lemma LastOneOutUnsubscribes(c: Channel, subject: Subject)
    ensures var d := Apply(c, Disconnect(subject));
            var leaves := c.locals == {subject};
            && d.locals == c.locals - {subject} && d.server == c.server && d.ready == c.ready && d.refusedLast == c.refusedLast
            && (!leaves ==> d == c.(locals := c.locals - {subject}))
            && (leaves && !c.chain.NoChain? ==>
                  d.chain == c.chain.(waiting := c.chain.waiting + 1) && d.queue == c.queue && d.subscribed == c.subscribed)
            && (leaves && c.chain.NoChain? && c.subscribed ==>
                  d.queue == c.queue + [Unsubscribe] && !d.subscribed && d.chain.NoChain?)
            && (leaves && c.chain.NoChain? && !c.subscribed ==> d.queue == c.queue && !d.subscribed && d.chain.NoChain?)
  {
  }

  /** A settled promise is forgotten; the cleanups that waited for it may run if it was kept and are dropped if it was
      broken. A cleanup that runs unsubscribes exactly if nobody listens, the channel is recorded and no new promise is
      stored. */
  lemma CleanupsWaitForThePromise(c: Channel)
    ensures Enabled(c, FinallyRuns) ==>
              Apply(c, FinallyRuns) ==
              c.(chain := NoChain, ready := if c.chain.Added? then c.ready + c.chain.waiting else c.ready)
    ensures Enabled(c, CleanupRuns) ==>
              var d := Apply(c, CleanupRuns);
              && d.locals == c.locals && d.ready == c.ready - 1 && d.server == c.server
              && (if c.locals == {} && c.subscribed && c.chain.NoChain?
                  then d.queue == c.queue + [Unsubscribe] && !d.subscribed
                  else d.queue == c.queue && d.subscribed == c.subscribed)
  {
  }

  /** What the server will believe once it has worked off the queue, as far as the chain tells. */
  predicate ServerInStep(c: Channel) {
    match c.chain
    case NoChain =>
      if c.subscribed then c.queue == [] && c.server
      else (c.queue == [] && !c.server) || (c.queue == [Unsubscribe] && c.server)
    case Sent(_) => !c.subscribed && ((c.queue == [Subscribe] && !c.server) || (c.queue == [Unsubscribe, Subscribe] && c.server))
    case Acked(_) => !c.subscribed && c.queue == [] && c.server
    case Added(_) => c.subscribed && c.queue == [] && c.server
    case Refused(_) => !c.subscribed && c.queue == [] && !c.server
    case Caught(_) => !c.subscribed && c.queue == [] && !c.server
  }

  /** A subscription nobody listens to has a cleanup coming, and a listener without one was refused. */
  predicate Cared(c: Channel) {
    && (c.locals == {} && c.subscribed ==> c.ready > 0 || (!c.chain.NoChain? && c.chain.waiting > 0))
    && (c.locals == {} && !c.chain.NoChain? ==> c.chain.waiting > 0)
    && (c.locals != {} && !c.subscribed && c.chain.NoChain? ==> c.refusedLast)
    && (c.chain.Caught? ==> c.refusedLast)
    && (c.refusedLast ==> !c.subscribed && (c.chain.NoChain? || c.chain.Caught?))
  }

  predicate Inv(c: Channel) {
    ServerInStep(c) && Cared(c)
  }

  lemma StepKeepsInv(c: Channel, s: Step)
    requires Inv(c) && Enabled(c, s)
    ensures Inv(Apply(c, s))
  {
  }

  lemma {:induction false} RunKeepsInv(c: Channel, steps: seq<Step>)
    requires Inv(c) && AllEnabled(c, steps)
    ensures Inv(Run(c, steps))
    decreases |steps|
  {
    if steps != [] {
      StepKeepsInv(c, steps[0]);
      RunKeepsInv(Apply(c, steps[0]), steps[1..]);
    }
  }

  /** Nothing is pending: no promise, no deferred cleanup, no command under way. */
  predicate Quiescent(c: Channel) {
    c.chain.NoChain? && c.ready == 0 && c.queue == []
  }

  predicate NeverRefused(steps: seq<Step>) {
    forall i :: 0 <= i < |steps| ==> steps[i] != ServerAnswers(false)
  }

  lemma {:induction false} UnrefusedRun(c: Channel, steps: seq<Step>)
    requires AllEnabled(c, steps) && NeverRefused(steps)
    requires !c.refusedLast && !c.chain.Refused? && !c.chain.Caught?
    ensures !Run(c, steps).refusedLast
    decreases |steps|
  {
    if steps != [] {
      assert steps[0] != ServerAnswers(false);
      UnrefusedRun(Apply(c, steps[0]), steps[1..]);
    }
  }

  /** Convergence: under every interleaving, once nothing is pending the server agrees with the local record, the
      record only covers channels with listeners, and it covers every such channel unless the latest attempt to
      subscribe was refused. Without refusals the three agree. */
  lemma Convergence(steps: seq<Step>)
    requires AllEnabled(IDLE_CHANNEL, steps)
    ensures var c := Run(IDLE_CHANNEL, steps);
            Quiescent(c) ==>
              && c.server == c.subscribed
              && (c.subscribed ==> c.locals != {})
              && ((c.subscribed <==> c.locals != {}) <==> !(c.locals != {} && c.refusedLast))
              && (NeverRefused(steps) ==> (c.subscribed <==> c.locals != {}))
  {
    RunKeepsInv(IDLE_CHANNEL, steps);
    if NeverRefused(steps) {
      UnrefusedRun(IDLE_CHANNEL, steps);
    }
  }

  // ----- pending work always drains -----

  function ChainWeight(c: Chain): nat {
    match c
    case NoChain => 0
    case Added(_) => 1
    case Caught(_) => 1
    case Acked(_) => 2
    case Refused(_) => 2
    case Sent(_) => 3
  }

  /** Some pending step can always be taken until nothing is pending. */
  function NextPending(c: Channel): (s: Step)
    requires Inv(c) && !Quiescent(c)
    ensures Enabled(c, s) && !s.Connect? && !s.Disconnect?
  {
    if c.queue != [] then ServerAnswers(true)
    else if c.chain.Acked? then ThenRuns
    else if c.chain.Refused? then CatchRuns
    else if c.chain.Added? || c.chain.Caught? then FinallyRuns
    else CleanupRuns
  }

  lemma PendingStepsMakeProgress(c: Channel, s: Step)
    requires Inv(c) && Enabled(c, s) && !s.Connect? && !s.Disconnect?
    ensures var d := Apply(c, s);
            || ChainWeight(d.chain) < ChainWeight(c.chain)
            || (ChainWeight(d.chain) == ChainWeight(c.chain) && d.ready < c.ready)
            || (ChainWeight(d.chain) == ChainWeight(c.chain) && d.ready == c.ready && |d.queue| < |c.queue|)
  {
  }

  /** A schedule of pending steps only, leading to a quiescent channel. */
  function Drain(c: Channel): (steps: seq<Step>)
    requires Inv(c)
    ensures AllEnabled(c, steps) && Quiescent(Run(c, steps))
    decreases ChainWeight(c.chain), c.ready, |c.queue|
  {
    if Quiescent(c) then []
    else
      var s := NextPending(c);
      StepKeepsInv(c, s);
      PendingStepsMakeProgress(c, s);
      var rest := Drain(Apply(c, s));
      assert ([s] + rest)[1..] == rest;
      [s] + rest
  }
}
