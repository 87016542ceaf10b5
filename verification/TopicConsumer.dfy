/** danube/topic_consumer.py: subscription and its retries, proved against `Endpoint`.  What happens
    on the message stream is in `ConsumerSystem`. */
module TopicConsumer {
  import opened Wire
  import opened Retry
  import opened Connections
  import opened Network
  import opened E = Endpoint
  import opened Client
  import V = Conversation

  class TopicConsumer {
    const client: DanubeClient
    const topic: string
    const consumerName: string
    const subscription: string
    const subscriptionType: nat
    const keyFilters: seq<string>
    const retryManager: RetryManager
    var consumerId: nat
    var nextRequestId: nat
    var stub: Option<nat>
    var stopEvent: bool
    var healthTask: Option<HealthTask>
    var cancelled: seq<HealthTask>   // the health tasks whose `cancel` was called
    var brokerAddr: string
    var connectUrl: string
    var proxy: bool

    ghost function State(): Endpoint
      reads this
    {
      Endpoint(ConsumerRole(subscription, subscriptionType, keyFilters), topic, consumerName, None, retryManager,
               Address(brokerAddr, connectUrl, proxy), stub, nextRequestId, consumerId, healthTask, None, None)
    }

    constructor (client: DanubeClient, topic: string, consumerName: string,
                 subscription: string, subscriptionType: nat, keyFilters: Option<seq<string>>,
                 maxRetries: int, baseBackoffMs: int, maxBackoffMs: int)
      ensures this.client == client && !stopEvent
      ensures State() == Unconnected(ConsumerRole(subscription, subscriptionType, keyFilters.GetOr([])),
                                     topic, consumerName, None,
                                     Manager(maxRetries, baseBackoffMs, maxBackoffMs), client.settings.uri)
    {
      this.client := client;
      this.topic := topic;
      this.consumerName := consumerName;
      this.subscription := subscription;
      this.subscriptionType := subscriptionType;
      this.keyFilters := keyFilters.GetOr([]);
      retryManager := Manager(maxRetries, baseBackoffMs, maxBackoffMs);
      consumerId := 0;
      nextRequestId := 1;
      stub, healthTask := None, None;
      stopEvent := false;
      cancelled := [];
      brokerAddr, connectUrl, proxy := client.settings.uri, client.settings.uri, false;
    }

    /** `lookup_service.handle_lookup(self.connect_url, self.topic)`. */
    method HandleLookup() returns (out: Outcome<Address>)
      modifies client, client.manager
      ensures (out, client.Now()) == E.HandleLookup(State(), old(client.Now()))
    {
      var channel := client.manager.GetConnection(connectUrl, connectUrl);
      var reply := client.Await(Lookup(topic, channel, connectUrl));
      out := OutcomeOf(reply.verdict, reply.address);
    }

    method LookupNewBroker() returns (out: Outcome<()>)
      modifies this, client, client.manager
      ensures Step(out, State(), client.Now()) == E.LookupNewBroker(old(State()), old(client.Now()))
    {
      var answer := HandleLookup();
      match answer
      case Ok(address) =>
        brokerAddr := address.brokerUrl;
        connectUrl := address.connectUrl;
        proxy := address.proxy;
        out := Ok(());
      case Raised(_) => out := Ok(());
      case Cancelled => out := Cancelled;
    }

    method Connect()
      modifies this`stub, client.manager
      ensures var c := Connections.Connect(old(client.Now()).pool, brokerAddr, connectUrl);
              && State() == old(State()).(stub := Some(c.channel))
              && client.Now() == old(client.Now()).(pool := c.pool)
    {
      var channel := client.manager.GetConnection(brokerAddr, connectUrl);
      stub := Some(channel);
    }

    method Register() returns (out: Outcome<nat>)
      modifies this, client, client.manager
      ensures Step(out, State(), client.Now()) == Registration(old(State()), old(client.Now()))
    {
      Connect();
      var requestId := nextRequestId;
      nextRequestId := nextRequestId + 1;
      var metadata := Header(client.settings, Address(brokerAddr, connectUrl, proxy));
      var role := ConsumerRole(subscription, subscriptionType, keyFilters);
      var reply := client.Await(Request.Register(topic, stub.value, metadata, role, requestId, consumerName, None));
      out := OutcomeOf(reply.verdict, reply.id);
      if out.Raised? && out.error == Rpc(AlreadyExists) {
        out := Raised(Unrecoverable);
      } else if out.Ok? {
        consumerId := out.value;
      }
    }

    method StartHealthCheck()
      modifies this, client.manager
      ensures var h := E.StartHealthCheck(old(State()), old(client.Now())); State() == h.ep && client.Now() == h.w
    {
      var channel := client.manager.GetConnection(brokerAddr, connectUrl);
      healthTask := Some(HealthTask(channel, Address(brokerAddr, connectUrl, proxy), consumerId));
    }

    method TrySubscribe() returns (out: Outcome<nat>)
      modifies this, client, client.manager
      ensures Step(out, State(), client.Now()) == E.TryCreate(old(State()), old(client.Now()))
      ensures V.BeginsTry(client.trace, |old(client.trace)|, out)
    {
      V.TryBegins(State(), client.Now());
      hide Registration, ResolveSchema, Connections.Connect;
      out := Register();
      if !out.Ok? {
        return;
      }
      StartHealthCheck();
      return Ok(consumerId);
    }

    method Backoff(attempt: nat) returns (out: Outcome<()>)
      modifies client
      ensures Step(out, State(), client.Now()) == Pause(State(), old(client.Now()), retryManager, attempt)
    {
      var reply := client.Await(Sleep(topic, retryManager.Low(attempt), retryManager.High(attempt)));
      out := if reply.verdict.Interrupted? then Cancelled else Ok(());
    }

    method Subscribe() returns (out: Outcome<nat>)
      requires retryManager.Valid()
      modifies this, client, client.manager
      ensures Step(out, State(), client.Now()) == E.Create(old(State()), old(client.Now()))
      ensures V.CreateHeld(client.trace, |old(client.trace)|, retryManager, None, out)
    {
      hide V.CreateHeld;
      V.CreateHolds(State(), client.Now());
      hide E.LookupNewBroker, CreateLoop;
      var looked := LookupNewBroker();
      if looked.Cancelled? {
        return Cancelled;
      }
      out := KeepTrying();
    }

    /** The `while True` loop. */
    method KeepTrying() returns (out: Outcome<nat>)
      requires retryManager.Valid()
      modifies this, client, client.manager
      ensures Step(out, State(), client.Now()) == CreateLoop(old(State()), old(client.Now()), 0)
    {
      hide E.LookupNewBroker, E.TryCreate, Pause;
      var attempts := 0;
      while true
        invariant 0 <= attempts <= retryManager.maxRetries
        invariant CreateLoop(State(), client.Now(), attempts) == CreateLoop(old(State()), old(client.Now()), 0)
        decreases retryManager.maxRetries - attempts
      {
        out := TrySubscribe();
        if !out.Raised? || !retryManager.IsRetryable(out.error) {
          return;
        }
        attempts := attempts + 1;
        if attempts > retryManager.maxRetries {
          return;
        }
        var looked := LookupNewBroker();
        if looked.Cancelled? {
          return Cancelled;
        }
        var slept := Backoff(attempts - 1);
        if slept.Cancelled? {
          return Cancelled;
        }
      }
    }

    /** The tasks cancelled once `stop` has cancelled the current one. */
    ghost function AfterStop(): seq<HealthTask>
      reads this
    {
      cancelled + if healthTask.Some? then [healthTask.value] else []
    }

    method Stop()
      modifies this
      ensures stopEvent && State() == old(State()).(health := None)
      ensures cancelled == old(AfterStop())
    {
      stopEvent := true;
      if healthTask.Some? {
        cancelled := cancelled + [healthTask.value];
      }
      healthTask := None;
    }
  }
}
