/** danube/topic_producer.py and the matching half of danube/topic_consumer.py as functions on
    values.  `TopicProducer.create` and `TopicConsumer.subscribe` are the same retry loop around
    one registration RPC; `Endpoint` serves both, a consumer having no schema reference. */
module Endpoint {
  import opened Wire
  import opened Retry
  import opened Connections
  import opened Network

  /** What the latest health-check task was started with. */
  datatype HealthTask = HealthTask(channel: nat, route: Address, clientId: nat)

  datatype Endpoint = Endpoint(
    role: Role,
    topic: string,
    name: string,
    schemaRef: Option<SchemaRef>,
    retry: RetryManager,
    route: Address,
    stub: Option<nat>,
    nextRequest: nat,
    clientId: nat,
    health: Option<HealthTask>,
    schemaId: Option<nat>,
    schemaVersion: Option<nat>)

  datatype Step<+T> = Step(out: Outcome<T>, ep: Endpoint, w: World)

  function Unconnected(role: Role, topic: string, name: string, schemaRef: Option<SchemaRef>,
                       retry: RetryManager, uri: string): Endpoint {
    Endpoint(role, topic, name, schemaRef, retry, Address(uri, uri, false), None, 1, 0, None, None, None)
  }

  /** `LookupService.handle_lookup(self.connect_url, self.topic)`. */
  function HandleLookup(ep: Endpoint, w: World): (Outcome<Address>, World) {
    var addr := ep.route.connectUrl;
    var c := Connect(w.pool, addr, addr);
    var i := Issue(w.(pool := c.pool), Lookup(ep.topic, c.channel, addr));
    (OutcomeOf(i.reply.verdict, i.reply.address), i.w)
  }

  /** A failed lookup is swallowed and leaves the routing fields as they are. */
  function LookupNewBroker(ep: Endpoint, w: World): Step<()> {
    var (out, w') := HandleLookup(ep, w);
    match out
    case Ok(address) => Step(Ok(()), ep.(route := address), w')
    case Raised(_) => Step(Ok(()), ep, w')
    case Cancelled => Step(Cancelled, ep, w')
  }

  /** `await asyncio.sleep(retry_manager.calculate_backoff(attempt))`. */
  function Pause(ep: Endpoint, w: World, retry: RetryManager, attempt: int): Step<()> {
    var i := Issue(w, Sleep(ep.topic, retry.Low(attempt), retry.High(attempt)));
    Step(if i.reply.verdict.Interrupted? then Cancelled else Ok(()), ep, i.w)
  }

  /** One call to the schema registry, which is always reached through the configured URI. */
  function Ask(topic: string, w: World, query: Query): (Outcome<SchemaInfo>, World) {
    var c := Connect(w.pool, w.settings.uri, w.settings.uri);
    var i := Issue(w.(pool := c.pool), Registry(topic, c.channel, query));
    (OutcomeOf(i.reply.verdict, i.reply.schema), i.w)
  }

  function ResolveSchema(topic: string, ref: SchemaRef, w: World): (Outcome<SchemaInfo>, World) {
    var (latest, w') := Ask(topic, w, LatestOf(ref.subject));
    if !latest.Ok? then (latest, w')
    else
      match ref
      case Pinned(_, version) =>
        if version > latest.value.version then (Raised(BadVersion), w')
        else if version == latest.value.version then (latest, w')
        else Ask(topic, w', VersionOf(latest.value.schemaId, version))
      case AtLeast(_, version) =>
        if latest.value.version < version then (Raised(BadVersion), w') else (latest, w')
      case UseLatest(_) => (latest, w')
  }

  /** The registration RPC's errors as `_try_create` and `_try_subscribe` hand them on. */
  function RegistrationError(error: Error): Error {
    if error == Rpc(AlreadyExists) then Unrecoverable else error
  }

  /** The registration that an endpoint sends over `channel`. */
  function RegisterRequest(ep: Endpoint, s: Settings, channel: nat): Request {
    Register(ep.topic, channel, Header(s, ep.route), ep.role, ep.nextRequest, ep.name, ep.schemaRef)
  }

  /** `_connect` followed by the registration request. */
  function Registration(ep: Endpoint, w: World): Step<nat> {
    var c := Connect(w.pool, ep.route.brokerUrl, ep.route.connectUrl);
    var i := Issue(w.(pool := c.pool), RegisterRequest(ep, w.settings, c.channel));
    var ep' := ep.(stub := Some(c.channel), nextRequest := ep.nextRequest + 1);
    match OutcomeOf(i.reply.verdict, i.reply.id)
    case Ok(id) => Step(Ok(id), ep'.(clientId := id), i.w)
    case Raised(error) => Step(Raised(RegistrationError(error)), ep', i.w)
    case Cancelled => Step(Cancelled, ep', i.w)
  }

  /** `start_health_check`: the loop gets the cached channel of the current route. */
  function StartHealthCheck(ep: Endpoint, w: World): Step<()> {
    var c := Connect(w.pool, ep.route.brokerUrl, ep.route.connectUrl);
    Step(Ok(()), ep.(health := Some(HealthTask(c.channel, ep.route, ep.clientId))), w.(pool := c.pool))
  }

  /** What `_try_create` does once the broker has accepted the registration. */
  function Settle(ep: Endpoint, w: World): Step<nat> {
    var h := StartHealthCheck(ep, w);
    if ep.schemaRef.None? then Step(Ok(ep.clientId), h.ep, h.w)
    else
      var (out, w') := ResolveSchema(ep.topic, ep.schemaRef.value, h.w);
      match out
      case Ok(info) =>
        Step(Ok(ep.clientId), h.ep.(schemaId := Some(info.schemaId), schemaVersion := Some(info.version)), w')
      case Raised(error) => Step(Raised(error), h.ep, w')
      case Cancelled => Step(Cancelled, h.ep, w')
  }

  function TryCreate(ep: Endpoint, w: World): (t: Step<nat>)
    ensures t.ep.retry == ep.retry
  {
    var r := Registration(ep, w);
    if r.out.Ok? then Settle(r.ep, r.w) else r
  }

  /** Between two tries of `create`: look the broker up again, then back off. */
  function Recover(ep: Endpoint, w: World, attempt: nat): (r: Step<()>)
    ensures r.ep.retry == ep.retry
  {
    var l := LookupNewBroker(ep, w);
    if l.out.Cancelled? then l else Pause(l.ep, l.w, ep.retry, attempt)
  }

  /** Does `create` give up after a try that ended like this? */
  predicate Final(ep: Endpoint, out: Outcome<nat>, attempts: nat) {
    !out.Raised? || !ep.retry.IsRetryable(out.error) || attempts + 1 > ep.retry.maxRetries
  }

  /** The `while True` loop of `create`; `attempts` is its counter. */
  function CreateLoop(ep: Endpoint, w: World, attempts: nat): Step<nat>
    requires attempts <= ep.retry.maxRetries
    decreases ep.retry.maxRetries - attempts
  {
    var t := TryCreate(ep, w);
    if Final(ep, t.out, attempts) then t
    else
      var r := Recover(t.ep, t.w, attempts);
      if r.out.Cancelled? then Step(Cancelled, r.ep, r.w) else CreateLoop(r.ep, r.w, attempts + 1)
  }

  function Create(ep: Endpoint, w: World): Step<nat>
    requires ep.retry.maxRetries >= 0
  {
    var l := LookupNewBroker(ep, w);
    if l.out.Cancelled? then Step(Cancelled, l.ep, l.w) else CreateLoop(l.ep, l.w, 0)
  }

  /** The message of one attempt; its publish time is that of the attempt, not of the call. */
  function Compose(ep: Endpoint, body: Body, now: nat): Message {
    Message(ep.nextRequest, ep.clientId, ep.route.brokerUrl, ep.name, now, body, ep.schemaId, ep.schemaVersion)
  }

  function PublishRequest(ep: Endpoint, w: World, body: Body): Request
    requires ep.stub.Some?
  {
    Publish(ep.topic, ep.stub.value, Header(w.settings, ep.route), Compose(ep, body, Clock(w)))
  }

  /** `TopicProducer.send`: a single attempt. */
  function SendOnce(ep: Endpoint, w: World, body: Body): Step<nat> {
    if ep.stub.None? then Step(Raised(Unrecoverable), ep, w)
    else
      var i := Issue(w, PublishRequest(ep, w, body));
      Step(OutcomeOf(i.reply.verdict, i.reply.id), ep.(nextRequest := ep.nextRequest + 1), i.w)
  }
}
