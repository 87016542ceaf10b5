/** danube/producer.py as functions on values: routing, the two send operations and `create`. */
module ProducerModel {
  import opened Wire
  import opened Retry
  import opened Network
  import opened Endpoint
  import opened Sending
  import Router
  import Names

  datatype Options = Options(maxRetries: int, baseBackoffMs: int, maxBackoffMs: int)

  datatype Config = Config(
    topic: string,
    name: string,
    partitions: int,
    schemaRef: Option<SchemaRef>,
    dispatch: DispatchStrategy,
    options: Options)

  /** `router` is the previous pick of the message router, once there is one. */
  datatype Producer = Producer(config: Config, router: Option<int>, producers: seq<Endpoint>)

  /** What a caller of `send` (no key) or `send_with_key` passes in. */
  datatype Call = Call(data: Bytes, attributes: Option<map<string, string>>, key: Option<Bytes>)

  datatype Receipt = Receipt(out: Outcome<nat>, partition: nat, recreations: nat)

  datatype SendResult = SendResult(receipt: Receipt, ps: Producer, w: World)

  function BodyOf(call: Call): Body {
    Body(call.data, call.attributes.GetOr(map[]), call.key)
  }

  function RetryOf(options: Options): (r: RetryManager)
    ensures r.Valid()
  {
    Manager(options.maxRetries, options.baseBackoffMs, options.maxBackoffMs)
  }

  predicate Routed(ps: Producer) {
    ps.config.partitions > 0 && ps.router.Some?
  }

  /** A router over n > 0 partitions remembers one of them. */
  predicate RouterOk(ps: Producer) {
    Routed(ps) ==> 0 <= ps.router.value < ps.config.partitions
  }

  function SelectPartition(ps: Producer, key: Option<Bytes>): (r: (nat, Producer))
    requires RouterOk(ps)
    ensures r.1.producers == ps.producers && r.1.config == ps.config
  {
    if !Routed(ps) then (0, ps)
    else if key.Some? then (Router.KeyRoute(key.value, ps.config.partitions), ps)
    else
      var p := Router.NextPart(ps.router.value, ps.config.partitions);
      (p, ps.(router := Some(p)))
  }

  predicate Callable(ps: Producer) {
    RouterOk(ps) && forall i :: 0 <= i < |ps.producers| ==> ps.producers[i].retry.maxRetries >= 0
  }

  function Send(ps: Producer, w: World, call: Call): (r: SendResult)
    requires Callable(ps)
    ensures Callable(r.ps)
  {
    var (p, ps') := SelectPartition(ps, call.key);
    if p >= |ps.producers| then SendResult(Receipt(Raised(PartitionOutOfRange), p, 0), ps', w)
    else
      var r := SendLoop(ps.producers[p], w, BodyOf(call), RetryOf(ps.config.options), 0);
      SendResult(Receipt(r.out, p, r.recreations), ps'.(producers := ps'.producers[p := r.ep]), r.w)
  }

  function TopicOf(config: Config, i: nat): string {
    if config.partitions == 0 then config.topic else Names.PartitionTopic(config.topic, i)
  }

  function NameOf(config: Config, i: nat): string {
    if config.partitions == 0 then config.name else Names.PartitionProducer(config.name, i)
  }

  function NewEndpoint(config: Config, i: nat, uri: string): Endpoint {
    Unconnected(ProducerRole(config.dispatch), TopicOf(config, i), NameOf(config, i),
                config.schemaRef, RetryOf(config.options), uri)
  }

  /** How many endpoints `create` builds; `range` of a negative number is empty. */
  function Width(config: Config): nat {
    if config.partitions == 0 then 1 else if config.partitions < 0 then 0 else config.partitions
  }

  datatype Gathered = Gathered(out: Outcome<()>, eps: seq<Endpoint>, w: World)

  /** The creates one after another in any `order`, up to the first one that fails.  This is one of
      the interleavings of `ProducerCreation.CreateInterleaved`, where all of them are treated. */
  function CreateAll(eps: seq<Endpoint>, order: seq<nat>, w: World): Gathered
    requires forall j :: 0 <= j < |order| ==> order[j] < |eps|
    requires forall i :: 0 <= i < |eps| ==> eps[i].retry.maxRetries >= 0
    decreases |order|
  {
    if order == [] then Gathered(Ok(()), eps, w)
    else
      var first := order[0];
      CreateShrinks(eps[first], w);
      var c := Create(eps[first], w);
      match c.out
      case Ok(_) => CreateAll(eps[first := c.ep], order[1..], c.w)
      case Raised(error) => Gathered(Raised(error), eps, c.w)
      case Cancelled => Gathered(Cancelled, eps, c.w)
  }

  /** Every index exactly once. */
  predicate Enumerates(order: seq<nat>, n: nat) {
    && (forall j :: 0 <= j < |order| ==> order[j] < n)
    && (forall i :: 0 <= i < n ==> i in order)
    && (forall j, k :: 0 <= j < k < |order| ==> order[j] != order[k])
  }

  function NewEndpoints(config: Config, n: nat, uri: string): (eps: seq<Endpoint>)
    ensures |eps| == n && forall i :: 0 <= i < n ==> eps[i] == NewEndpoint(config, i, uri)
  {
    if n == 0 then [] else NewEndpoints(config, n - 1, uri) + [NewEndpoint(config, n - 1, uri)]
  }

  datatype Created = Created(out: Outcome<()>, ps: Producer, w: World)

  /** `Producer.create` over such an order: the router is replaced first, the endpoints only if all came up. */
  function CreateProducer(ps: Producer, order: seq<nat>, w: World): Created
    requires Enumerates(order, Width(ps.config))
  {
    var routed := if ps.config.partitions == 0 then ps else ps.(router := Some(ps.config.partitions - 1));
    var g := CreateAll(NewEndpoints(ps.config, Width(ps.config), w.settings.uri), order, w);
    Created(g.out, if g.out.Ok? then routed.(producers := g.eps) else routed, g.w)
  }

  datatype Run = Run(receipts: seq<Receipt>, ps: Producer, w: World)

  /** A sequential caller: each call starts when the previous one has ended. */
  function RunCalls(ps: Producer, w: World, calls: seq<Call>): (r: Run)
    requires Callable(ps)
    ensures |r.receipts| == |calls|
    decreases calls
  {
    if calls == [] then Run([], ps, w)
    else
      var s := Send(ps, w, calls[0]);
      var rest := RunCalls(s.ps, s.w, calls[1..]);
      rest.(receipts := [s.receipt] + rest.receipts)
  }
}
