/** danube/topic_producer.py: the class, proved against `Endpoint`. */
module TopicProducer {
  import opened Wire
  import opened Retry
  import opened Connections
  import opened Network
  import opened E = Endpoint
  import opened Client
  import V = Conversation
  import C = CreateTask

  class TopicProducer {
    const client: DanubeClient
    const topic: string
    const producerName: string
    const schemaRef: Option<SchemaRef>
    const dispatchStrategy: DispatchStrategy
    const retryManager: RetryManager
    var producerId: nat
    var nextRequestId: nat
    var schemaId: Option<nat>
    var schemaVersion: Option<nat>
    var stub: Option<nat>
    var stopEvent: bool
    var healthTask: Option<HealthTask>
    var cancelled: seq<HealthTask>   // the health tasks whose `cancel` was called
    var brokerAddr: string
    var connectUrl: string
    var proxy: bool

    ghost function State(): Endpoint
      reads this
    {
      Endpoint(ProducerRole(dispatchStrategy), topic, producerName, schemaRef, retryManager,
               Address(brokerAddr, connectUrl, proxy), stub, nextRequestId, producerId, healthTask,
               schemaId, schemaVersion)
    }

    constructor (client: DanubeClient, topic: string, producerName: string, schemaRef: Option<SchemaRef>,
                 dispatchStrategy: DispatchStrategy, maxRetries: int, baseBackoffMs: int, maxBackoffMs: int)
      ensures this.client == client && !stopEvent
      ensures State() == Unconnected(ProducerRole(dispatchStrategy), topic, producerName, schemaRef,
                                     Manager(maxRetries, baseBackoffMs, maxBackoffMs), client.settings.uri)
    {
      this.client := client;
      this.topic := topic;
      this.producerName := producerName;
      this.schemaRef := schemaRef;
      this.dispatchStrategy := dispatchStrategy;
      retryManager := Manager(maxRetries, baseBackoffMs, maxBackoffMs);
      producerId := 0;
      nextRequestId := 1;
      schemaId, schemaVersion, stub, healthTask := None, None, None, None;
      stopEvent := false;
      cancelled := [];
      brokerAddr, connectUrl, proxy := client.settings.uri, client.settings.uri, false;
    }

    /** `lookup_service.handle_lookup(self.connect_url, self.topic)`. */
    method HandleLookup() returns (out: Outcome<Address>)
      modifies client, client.manager
      ensures (out, client.Now()) == E.HandleLookup(State(), old(client.Now()))
    {
      var channel := client.manager.GetConnection(connectUrl, connectUrl);
      var reply := client.Await(Lookup(topic, channel, connectUrl));
      out := OutcomeOf(reply.verdict, reply.address);
    }

    method LookupNewBroker() returns (out: Outcome<()>)
      modifies this, client, client.manager
      ensures Step(out, State(), client.Now()) == E.LookupNewBroker(old(State()), old(client.Now()))
    {
      var answer := HandleLookup();
      match answer
      case Ok(address) =>
        brokerAddr := address.brokerUrl;
        connectUrl := address.connectUrl;
        proxy := address.proxy;
        out := Ok(());
      case Raised(_) => out := Ok(());
      case Cancelled => out := Cancelled;
    }

    method Ask(query: Query) returns (out: Outcome<SchemaInfo>)
      modifies client, client.manager
      ensures (out, client.Now()) == E.Ask(topic, old(client.Now()), query)
    {
      var channel := client.manager.GetConnection(client.settings.uri, client.settings.uri);
      var reply := client.Await(Registry(topic, channel, query));
      out := OutcomeOf(reply.verdict, reply.schema);
    }

    method ResolveSchemaMetadata(ref: SchemaRef) returns (out: Outcome<SchemaInfo>)
      modifies client, client.manager
      ensures (out, client.Now()) == ResolveSchema(topic, ref, old(client.Now()))
    {
      hide E.Ask;
      out := Ask(LatestOf(ref.subject));
      if !out.Ok? {
        return;
      }
      var latest := out.value;
      match ref
      case Pinned(_, version) =>
        if version > latest.version {
          out := Raised(BadVersion);
        } else if version != latest.version {
          out := Ask(VersionOf(latest.schemaId, version));
        }
      case AtLeast(_, version) =>
        if latest.version < version {
          out := Raised(BadVersion);
        }
      case UseLatest(_) =>
    }

    method Connect()
      modifies this`stub, client.manager
      ensures var c := Connections.Connect(old(client.Now()).pool, brokerAddr, connectUrl);
              && State() == old(State()).(stub := Some(c.channel))
              && client.Now() == old(client.Now()).(pool := c.pool)
    {
      var channel := client.manager.GetConnection(brokerAddr, connectUrl);
      stub := Some(channel);
    }

    method Register() returns (out: Outcome<nat>)
      modifies this, client, client.manager
      ensures Step(out, State(), client.Now()) == Registration(old(State()), old(client.Now()))
    {
      Connect();
      var requestId := nextRequestId;
      nextRequestId := nextRequestId + 1;
      var metadata := Header(client.settings, Address(brokerAddr, connectUrl, proxy));
      var role := ProducerRole(dispatchStrategy);
      var request := Request.Register(topic, stub.value, metadata, role, requestId, producerName, schemaRef);
      var reply := client.Await(request);
      out := OutcomeOf(reply.verdict, reply.id);
      if out.Raised? && out.error == Rpc(AlreadyExists) {
        out := Raised(Unrecoverable);
      } else if out.Ok? {
        producerId := out.value;
      }
    }

    method StartHealthCheck()
      modifies this, client.manager
      ensures var h := E.StartHealthCheck(old(State()), old(client.Now())); State() == h.ep && client.Now() == h.w
    {
      var channel := client.manager.GetConnection(brokerAddr, connectUrl);
      healthTask := Some(HealthTask(channel, Address(brokerAddr, connectUrl, proxy), producerId));
    }

    method TryCreate() returns (out: Outcome<nat>)
      modifies this, client, client.manager
      ensures Step(out, State(), client.Now()) == E.TryCreate(old(State()), old(client.Now()))
      ensures V.BeginsTry(client.trace, |old(client.trace)|, out)
    {
      V.TryBegins(State(), client.Now());
      hide Registration, ResolveSchema, Connections.Connect;
      out := Register();
      if !out.Ok? {
        return;
      }
      StartHealthCheck();
      if schemaRef.Some? {
        var schema := ResolveSchemaMetadata(schemaRef.value);
        match schema
        case Ok(info) =>
          schemaId := Some(info.schemaId);
          schemaVersion := Some(info.version);
        case Raised(error) => return Raised(error);
        case Cancelled => return Cancelled;
      }
      return Ok(producerId);
    }

    method Backoff(attempt: nat) returns (out: Outcome<()>)
      modifies client
      ensures Step(out, State(), client.Now()) == Pause(State(), old(client.Now()), retryManager, attempt)
    {
      var reply := client.Await(Sleep(topic, retryManager.Low(attempt), retryManager.High(attempt)));
      out := if reply.verdict.Interrupted? then Cancelled else Ok(());
    }

    method Create() returns (out: Outcome<nat>)
      requires retryManager.Valid()
      modifies this, client, client.manager
      ensures Step(out, State(), client.Now()) == E.Create(old(State()), old(client.Now()))
      ensures V.CreateHeld(client.trace, |old(client.trace)|, retryManager, schemaRef, out)
    {
      hide V.CreateHeld;
      V.CreateHolds(State(), client.Now());
      hide E.LookupNewBroker, CreateLoop;
      var looked := LookupNewBroker();
      if looked.Cancelled? {
        return Cancelled;
      }
      out := KeepTrying();
    }

    /** The `while True` loop. */
    method KeepTrying() returns (out: Outcome<nat>)
      requires retryManager.Valid()
      modifies this, client, client.manager
      ensures Step(out, State(), client.Now()) == CreateLoop(old(State()), old(client.Now()), 0)
    {
      hide E.LookupNewBroker, E.TryCreate, Pause;
      var attempts := 0;
      while true
        invariant 0 <= attempts <= retryManager.maxRetries
        invariant CreateLoop(State(), client.Now(), attempts) == CreateLoop(old(State()), old(client.Now()), 0)
        decreases retryManager.maxRetries - attempts
      {
        out := TryCreate();
        if !out.Raised? || !retryManager.IsRetryable(out.error) {
          return;
        }
        attempts := attempts + 1;
        if attempts > retryManager.maxRetries {
          return;
        }
        var looked := LookupNewBroker();
        if looked.Cancelled? {
          return Cancelled;
        }
        var slept := Backoff(attempts - 1);
        if slept.Cancelled? {
          return Cancelled;
        }
      }
    }

    /** One turn of the coroutine `create`: the await at `phase` with its answer, and on to the next. */
    method Resume(phase: C.Phase) returns (next: C.Phase)
      requires C.Fits(C.Task(State(), phase))
      modifies this, client, client.manager
      ensures (C.Task(State(), next), client.Now()) == C.Advance(old(C.Task(State(), phase)), old(client.Now()))
    {
      hide E.LookupNewBroker, E.Ask, Pause, Registration, Connections.Connect, C.Conclude;
      match phase
      case Arriving =>
        var looked := LookupNewBroker();
        next := if looked.Cancelled? then C.Done(Cancelled) else C.Trying(0);
      case Trying(a) => next := ResumeTry(a);
      case Resolving(a) => next := ResumeResolve(a);
      case Pinning(a, id) =>
        var answer := Ask(VersionOf(id, schemaRef.value.version));
        next := Conclude(answer, a);
      case Retrying(a) =>
        var looked := LookupNewBroker();
        next := if looked.Cancelled? then C.Done(Cancelled) else C.Backing(a);
      case Backing(a) =>
        var slept := Backoff(a);
        next := if slept.Cancelled? then C.Done(Cancelled) else C.Trying(a + 1);
      case Done(_) => next := phase;
    }

    method ResumeTry(a: nat) returns (next: C.Phase)
      modifies this, client, client.manager
      ensures (C.Task(State(), next), client.Now()) == C.Registered(old(State()), old(client.Now()), a)
    {
      hide Registration, Connections.Connect;
      var out := Register();
      if out.Ok? {
        StartHealthCheck();
        if schemaRef.Some? {
          return C.Resolving(a);
        }
        out := Ok(producerId);
      }
      next := EndTry(out, a);
    }

    method ResumeResolve(a: nat) returns (next: C.Phase)
      requires schemaRef.Some?
      modifies this, client, client.manager
      ensures (C.Task(State(), next), client.Now()) == C.Resolved(old(State()), old(client.Now()), a)
    {
      hide E.Ask, C.Conclude;
      var ref := schemaRef.value;
      var latest := Ask(LatestOf(ref.subject));
      if latest.Ok? {
        var version := latest.value.version;
        if ref.Pinned? && version > ref.version {
          return C.Pinning(a, latest.value.schemaId);
        }
        if !ref.UseLatest? && version < ref.version {
          latest := Raised(BadVersion);
        }
      }
      next := Conclude(latest, a);
    }

    /** The end of a try: take over the schema, and leave the loop or go round again. */
    method Conclude(out: Outcome<SchemaInfo>, a: nat) returns (next: C.Phase)
      modifies this
      ensures C.Task(State(), next) == C.Conclude(old(State()), out, a)
    {
      match out
      case Ok(info) =>
        schemaId := Some(info.schemaId);
        schemaVersion := Some(info.version);
        next := EndTry(Ok(producerId), a);
      case Raised(error) => next := EndTry(Raised(error), a);
      case Cancelled => next := EndTry(Cancelled, a);
    }

    method EndTry(out: Outcome<nat>, a: nat) returns (next: C.Phase)
      ensures C.Task(State(), next) == C.EndTry(State(), out, a)
    {
      if !out.Raised? || !retryManager.IsRetryable(out.error) || a + 1 > retryManager.maxRetries {
        next := C.Done(out);
      } else {
        next := C.Retrying(a);
      }
    }

    method Send(body: Body) returns (out: Outcome<nat>)
      modifies this, client
      ensures Step(out, State(), client.Now()) == SendOnce(old(State()), old(client.Now()), body)
    {
      if stub.None? {
        return Raised(Unrecoverable);
      }
      var publishTime := client.Time();
      var message := Message(nextRequestId, producerId, brokerAddr, producerName, publishTime, body,
                             schemaId, schemaVersion);
      nextRequestId := nextRequestId + 1;
      var metadata := Header(client.settings, Address(brokerAddr, connectUrl, proxy));
      var reply := client.Await(Publish(topic, stub.value, metadata, message));
      out := OutcomeOf(reply.verdict, reply.id);
    }

    /** The tasks cancelled once `stop` has cancelled the current one. */
    ghost function AfterStop(): seq<HealthTask>
      reads this
    {
      cancelled + if healthTask.Some? then [healthTask.value] else []
    }

    method Stop()
      modifies this
      ensures stopEvent && State() == old(State()).(health := None)
      ensures cancelled == old(AfterStop())
    {
      stopEvent := true;
      if healthTask.Some? {
        cancelled := cancelled + [healthTask.value];
      }
      healthTask := None;
    }
  }
}
