/** `NotificationStreamAdapter`: the three maps of the source, and beside them what the event loop and the Redis
    connection still hold. Every method is proved to take one step of `ChannelProtocol` on its channel and to leave
    every other channel alone. */
module NotificationStream {
  import opened Base
  import opened ChannelProtocol

  datatype Target = Driver | Rider | OtpSimulation

  function TargetName(target: Target): string {
    match target
    case Driver => "driver"
    case Rider => "rider"
    case OtpSimulation => "otp-simulation"
  }

  function ChannelKey(target: Target, targetId: string): string {
    TargetName(target) + ":" + targetId
  }

  const PREFIX := "notifications:"

  function RedisChannel(channelKey: string): string {
    PREFIX + channelKey
  }

  function ExtractChannelKey(redisChannel: string): Option<string> {
    if PREFIX <= redisChannel then Some(redisChannel[|PREFIX|..]) else None
  }

  /** The channels as other services publish on them. */
  lemma ChannelNames(id: string)
    ensures RedisChannel(ChannelKey(Driver, id)) == "notifications:driver:" + id
    ensures RedisChannel(ChannelKey(Rider, id)) == "notifications:rider:" + id
    ensures RedisChannel(ChannelKey(OtpSimulation, id)) == "notifications:otp-simulation:" + id
  {
    assert "notifications:" + ("driver:" + id) == "notifications:driver:" + id;
    assert "notifications:" + ("rider:" + id) == "notifications:rider:" + id;
    assert "notifications:" + ("otp-simulation:" + id) == "notifications:otp-simulation:" + id;
    assert "driver" + ":" + id == "driver:" + id;
    assert "rider" + ":" + id == "rider:" + id;
    assert "otp-simulation" + ":" + id == "otp-simulation:" + id;
  }

  /** Different recipients never share a channel, whatever characters their ids contain. */
  lemma KeysAreInjective(t1: Target, id1: string, t2: Target, id2: string)
    requires ChannelKey(t1, id1) == ChannelKey(t2, id2)
    ensures t1 == t2 && id1 == id2
  {
    var k := ChannelKey(t1, id1);
    assert k[0] == TargetName(t1)[0] && k[0] == TargetName(t2)[0];
    assert t1 == t2;
    var n := |TargetName(t1)| + 1;
    assert k[n..] == id1 && k[n..] == id2;
  }

  /** Reading the key out of a channel name undoes naming the channel, and nothing else yields a key. */
  lemma ExtractInvertsRedisChannel(redisChannel: string, key: string)
    ensures ExtractChannelKey(redisChannel) == Some(key) <==> redisChannel == RedisChannel(key)
  {
    if PREFIX <= redisChannel {
      assert redisChannel == PREFIX + redisChannel[|PREFIX|..];
    }
    assert RedisChannel(key)[|PREFIX|..] == key;
  }

  lemma RedisChannelsAreInjective()
    ensures forall k1, k2 :: RedisChannel(k1) == RedisChannel(k2) ==> k1 == k2
  {
    forall k1, k2 | RedisChannel(k1) == RedisChannel(k2)
      ensures k1 == k2
    {
      ExtractInvertsRedisChannel(RedisChannel(k1), k1);
      ExtractInvertsRedisChannel(RedisChannel(k1), k2);
    }
  }

  datatype MessageEvent = MessageEvent(event: string, payload: string)

  class NotificationStreamAdapter {
    var channels: map<string, set<Subject>>
    var redisSubscribedChannels: set<string>
    var redisSubscriptionPromises: map<string, Chain>

    // Callbacks and commands that have been scheduled but not run, by Redis channel.
    var deferredCleanups: map<string, nat>
    var commandsUnderWay: map<string, seq<Command>>
    // The server's side.
    var serverSubscriptions: set<string>
    ghost var refusedChannels: set<string>

    /** The state of the protocol on one channel key. */
    ghost function State(key: string): Channel
      reads this
    {
      var ch := RedisChannel(key);
      Channel(
        if key in channels then channels[key] else {},
        ch in redisSubscribedChannels,
        if ch in redisSubscriptionPromises then redisSubscriptionPromises[ch] else NoChain,
        if ch in deferredCleanups then deferredCleanups[ch] else 0,
        if ch in commandsUnderWay then commandsUnderWay[ch] else [],
        ch in serverSubscriptions,
        ch in refusedChannels)
    }

    /** No key maps to an empty set of connections, and every channel obeys the protocol invariant. */
    ghost predicate Valid()
      reads this
    {
      && (forall key :: key in channels ==> channels[key] != {})
      && (forall ch :: ch in redisSubscriptionPromises ==> !redisSubscriptionPromises[ch].NoChain?)
      && forall key :: Inv(State(key))
    }

    /** Channel `key` went from `before` to `after`; the others stayed as they were. */
    twostate predicate Moved(key: string, after: Channel)
      reads this
    {
      State(key) == after && forall other :: other != key ==> State(other) == old(State(other))
    }

    constructor ()
      ensures Valid() && forall key :: State(key) == IDLE_CHANNEL
    {
      channels, redisSubscribedChannels, redisSubscriptionPromises := map[], {}, map[];
      deferredCleanups, commandsUnderWay, serverSubscriptions := map[], map[], {};
      refusedChannels := {};
    }

    method SendCommand(ch: string, command: Command)
      modifies this`commandsUnderWay
      ensures commandsUnderWay ==
              old(commandsUnderWay)[ch := (if ch in old(commandsUnderWay) then old(commandsUnderWay)[ch] else []) + [command]]
    {
      commandsUnderWay := commandsUnderWay[ch := (if ch in commandsUnderWay then commandsUnderWay[ch] else []) + [command]];
    }

    method EnsureRedisSubscription(key: string)
      modifies this`redisSubscriptionPromises, this`commandsUnderWay, this`refusedChannels
      ensures Moved(key, Ensure(old(State(key))))
      ensures forall ch :: ch in redisSubscriptionPromises ==>
                ch in old(redisSubscriptionPromises) || !redisSubscriptionPromises[ch].NoChain?
      ensures forall ch :: ch in old(redisSubscriptionPromises) ==>
                ch in redisSubscriptionPromises && redisSubscriptionPromises[ch] == old(redisSubscriptionPromises[ch])
      requires forall ch :: ch in redisSubscriptionPromises ==> !redisSubscriptionPromises[ch].NoChain?
    {
      RedisChannelsAreInjective();
      var ch := RedisChannel(key);
      if ch in redisSubscribedChannels || ch in redisSubscriptionPromises {
        return;
      }
      SendCommand(ch, Command.Subscribe);
      redisSubscriptionPromises := redisSubscriptionPromises[ch := Sent(0)];
      refusedChannels := refusedChannels - {ch};
    }

    method CleanupRedisSubscription(key: string)
      requires forall ch :: ch in redisSubscriptionPromises ==> !redisSubscriptionPromises[ch].NoChain?
      modifies this`redisSubscriptionPromises, this`redisSubscribedChannels, this`commandsUnderWay
      ensures Moved(key, Cleanup(old(State(key))))
      ensures forall ch :: ch in redisSubscriptionPromises ==> !redisSubscriptionPromises[ch].NoChain?
    {
      RedisChannelsAreInjective();
      var ch := RedisChannel(key);
      if ch in redisSubscriptionPromises {
        var pending := redisSubscriptionPromises[ch];
        redisSubscriptionPromises := redisSubscriptionPromises[ch := pending.(waiting := pending.waiting + 1)];
        return;
      }
      if ch !in redisSubscribedChannels {
        return;
      }
      redisSubscribedChannels := redisSubscribedChannels - {ch};
      SendCommand(ch, Unsubscribe);
    }

    /** Puts a connection into its key's set. */
    method AddSubscriber(key: string, subject: Subject)
      requires forall k :: k in channels ==> channels[k] != {}
      modifies this`channels
      ensures Moved(key, old(State(key)).(locals := old(State(key)).locals + {subject}))
      ensures forall k :: k in channels ==> channels[k] != {}
    {
      var subscribers := if key in channels then channels[key] else {};
      channels := channels[key := subscribers + {subject}];
    }

    method Subscribe(target: Target, targetId: string, subject: Subject)
      requires Valid()
      modifies this
      ensures Moved(ChannelKey(target, targetId), Apply(old(State(ChannelKey(target, targetId))), Connect(subject)))
      ensures Valid()
    {
      var key := ChannelKey(target, targetId);
      StepKeepsInv(State(key), Connect(subject));
      AddSubscriber(key, subject);
      EnsureRedisSubscription(key);
    }

    /** Takes a connection out of its key's set; a set that would become empty goes away with its key. */
    method DropSubscriber(key: string, subject: Subject)
      requires forall k :: k in channels ==> channels[k] != {}
      modifies this`channels
      ensures Moved(key, old(State(key)).(locals := old(State(key)).locals - {subject}))
      ensures forall k :: k in channels ==> channels[k] != {}
    {
      if key in channels {
        var remaining := channels[key] - {subject};
        channels := if remaining == {} then channels - {key} else channels[key := remaining];
      }
    }

    /** The finalize callback of a connection. */
    method Finalize(key: string, subject: Subject)
      requires Valid()
      modifies this
      ensures Moved(key, Apply(old(State(key)), Disconnect(subject)))
      ensures Valid()
    {
      StepKeepsInv(State(key), Disconnect(subject));
      var known := key in channels;
      DropSubscriber(key, subject);
      if known && key !in channels {
        CleanupRedisSubscription(key);
      }
    }

    method OnSubscribed(key: string)
      requires Valid() && Enabled(State(key), ThenRuns)
      modifies this
      ensures Moved(key, Apply(old(State(key)), ThenRuns))
      ensures Valid()
    {
      StepKeepsInv(State(key), ThenRuns);
      RedisChannelsAreInjective();
      var ch := RedisChannel(key);
      redisSubscribedChannels := redisSubscribedChannels + {ch};
      redisSubscriptionPromises := redisSubscriptionPromises[ch := Added(redisSubscriptionPromises[ch].waiting)];
    }

    method OnSubscribeFailed(key: string)
      requires Valid() && Enabled(State(key), CatchRuns)
      modifies this
      ensures Moved(key, Apply(old(State(key)), CatchRuns))
      ensures Valid()
    {
      StepKeepsInv(State(key), CatchRuns);
      RedisChannelsAreInjective();
      var ch := RedisChannel(key);
      redisSubscribedChannels := redisSubscribedChannels - {ch};
      redisSubscriptionPromises := redisSubscriptionPromises[ch := Caught(redisSubscriptionPromises[ch].waiting)];
      refusedChannels := refusedChannels + {ch};
    }

    /** Removes the promise; the cleanups hooked onto a fulfilled one become runnable, those of a rejected one only log. */
    method OnSettled(key: string)
      requires Valid() && Enabled(State(key), FinallyRuns)
      modifies this
      ensures Moved(key, Apply(old(State(key)), FinallyRuns))
      ensures Valid()
    {
      StepKeepsInv(State(key), FinallyRuns);
      RedisChannelsAreInjective();
      var ch := RedisChannel(key);
      var chain := redisSubscriptionPromises[ch];
      redisSubscriptionPromises := redisSubscriptionPromises - {ch};
      if chain.Added? {
        var runnable := if ch in deferredCleanups then deferredCleanups[ch] else 0;
        deferredCleanups := deferredCleanups[ch := runnable + chain.waiting];
      }
    }

    method RunDeferredCleanup(key: string)
      requires Valid() && Enabled(State(key), CleanupRuns)
      modifies this
      ensures Moved(key, Apply(old(State(key)), CleanupRuns))
      ensures Valid()
    {
      StepKeepsInv(State(key), CleanupRuns);
      CountDown(key);
      if key in channels && channels[key] != {} {
        return;
      }
      CleanupRedisSubscription(key);
    }

    method CountDown(key: string)
      requires State(key).ready > 0
      modifies this`deferredCleanups
      ensures Moved(key, old(State(key)).(ready := old(State(key)).ready - 1))
    {
      RedisChannelsAreInjective();
      var ch := RedisChannel(key);
      deferredCleanups := deferredCleanups[ch := deferredCleanups[ch] - 1];
    }

    method TakeCommand(key: string) returns (command: Command)
      requires State(key).queue != []
      modifies this`commandsUnderWay
      ensures command == old(State(key)).queue[0]
      ensures Moved(key, old(State(key)).(queue := old(State(key)).queue[1..]))
    {
      RedisChannelsAreInjective();
      var ch := RedisChannel(key);
      command := commandsUnderWay[ch][0];
      commandsUnderWay := commandsUnderWay[ch := commandsUnderWay[ch][1..]];
    }

    method Answer(key: string, accepts: bool)
      requires State(key).chain.Sent?
      modifies this`serverSubscriptions, this`redisSubscriptionPromises
      ensures var st := old(State(key));
              Moved(key, if accepts then st.(server := true, chain := Acked(st.chain.waiting))
                         else st.(chain := Refused(st.chain.waiting)))
      ensures forall ch :: ch in redisSubscriptionPromises ==>
                ch in old(redisSubscriptionPromises) || !redisSubscriptionPromises[ch].NoChain?
      ensures forall ch :: ch in old(redisSubscriptionPromises) && ch in redisSubscriptionPromises ==>
                redisSubscriptionPromises[ch] == old(redisSubscriptionPromises[ch]) || !redisSubscriptionPromises[ch].NoChain?
    {
      RedisChannelsAreInjective();
      var ch := RedisChannel(key);
      var waiting := redisSubscriptionPromises[ch].waiting;
      if accepts {
        serverSubscriptions := serverSubscriptions + {ch};
        redisSubscriptionPromises := redisSubscriptionPromises[ch := Acked(waiting)];
      } else {
        redisSubscriptionPromises := redisSubscriptionPromises[ch := Refused(waiting)];
      }
    }

    method Remove(key: string)
      modifies this`serverSubscriptions
      ensures Moved(key, old(State(key)).(server := false))
    {
      RedisChannelsAreInjective();
      serverSubscriptions := serverSubscriptions - {RedisChannel(key)};
    }

    /** The server works off the oldest command of the channel; `accepts` is its answer to a SUBSCRIBE. */
    method ServerStep(key: string, accepts: bool)
      requires Valid() && Enabled(State(key), ServerAnswers(accepts))
      modifies this
      ensures Moved(key, Apply(old(State(key)), ServerAnswers(accepts)))
      ensures Valid()
    {
      StepKeepsInv(State(key), ServerAnswers(accepts));
      assert State(key).queue[0].Subscribe? ==> State(key).chain.Sent?;
      var command := TakeCommand(key);
      if command.Unsubscribe? {
        Remove(key);
      } else {
        Answer(key, accepts);
      }
    }

    /** Hands a message that arrived on a Redis channel to the connections of its key; `message` is absent when the
        payload could not be parsed. A message published for one recipient reaches exactly the connections that
        subscribed for that recipient. */
    method HandleRedisMessage(redisChannel: string, message: Option<MessageEvent>)
      returns (delivered: map<Subject, MessageEvent>)
      ensures message.None? ==> delivered == map[]
      ensures forall target, id :: redisChannel == RedisChannel(ChannelKey(target, id)) && message.Some? ==>
                && delivered.Keys == State(ChannelKey(target, id)).locals
                && forall subject :: subject in delivered ==> delivered[subject] == message.value
      ensures ExtractChannelKey(redisChannel).None? ==> delivered == map[]
    {
      delivered := map[];
      var key := ExtractChannelKey(redisChannel);
      if key.None? || message.None? {
        forall target, id | redisChannel == RedisChannel(ChannelKey(target, id)) ensures message.None? {
          ExtractInvertsRedisChannel(redisChannel, ChannelKey(target, id));
        }
        return;
      }
      var subscribers := if key.value in channels then channels[key.value] else {};
      var pending := subscribers;
      while pending != {}
        invariant pending <= subscribers && delivered.Keys == subscribers - pending
        invariant forall subject :: subject in delivered ==> delivered[subject] == message.value
        decreases pending
      {
        var subject :| subject in pending;
        pending := pending - {subject};
        delivered := delivered[subject := message.value];
      }
      forall target, id | redisChannel == RedisChannel(ChannelKey(target, id))
        ensures key.value == ChannelKey(target, id)
      {
        ExtractInvertsRedisChannel(redisChannel, ChannelKey(target, id));
      }
    }
  }
}
