/** The values that cross the client's boundary: errors, addresses, requests and
    the broker's replies.  A reply is an adversary's choice; nothing in this module
    restricts it. */
module Wire {

  datatype Option<+T> = None | Some(value: T) {
    function GetOr(default: T): T {
      if None? then default else value
    }
  }

  /** How an awaited call ends.  `Cancelled` is Python's `asyncio.CancelledError`: it is
      not an `Exception`, so no `except Exception` clause of the client stops it. */
  datatype Outcome<+T> = Ok(value: T) | Raised(error: Error) | Cancelled

  datatype Status =
    | Unavailable
    | DeadlineExceeded
    | ResourceExhausted
    | AlreadyExists
    | OtherStatus

  datatype Error =
    | Rpc(status: Status)
    | Unrecoverable
    | PartitionOutOfRange
    | BadVersion
    | Foreign

  type Byte = b: nat | b < 256
  type Bytes = seq<Byte>
  type Metadata = seq<(string, string)>

  /** A lookup answer, and also the three routing fields an endpoint keeps. */
  datatype Address = Address(brokerUrl: string, connectUrl: string, proxy: bool)

  datatype SchemaInfo = SchemaInfo(schemaId: nat, version: nat)

  datatype SchemaRef =
    | UseLatest(subject: string)
    | Pinned(subject: string, version: nat)
    | AtLeast(subject: string, version: nat)

  datatype Query = LatestOf(subject: string) | VersionOf(schemaId: nat, version: nat)

  /** What the caller of `send` handed over; retries must repeat exactly this. */
  datatype Body = Body(payload: Bytes, attributes: map<string, string>, key: Option<Bytes>)

  datatype Message = Message(
    requestId: nat,
    producerId: nat,
    brokerAddr: string,
    producerName: string,
    publishTime: nat,
    body: Body,
    schemaId: Option<nat>,
    schemaVersion: Option<nat>)

  datatype DispatchStrategy = NonReliable | Reliable

  /** What an endpoint registers as.  A producer's access mode is always `Shared`. */
  datatype Role =
    | ProducerRole(dispatch: DispatchStrategy)
    | ConsumerRole(subscription: string, subscriptionType: nat, keyFilters: seq<string>)

  /** Every point at which an endpoint gives up control.  `topic` names the endpoint. */
  datatype Request =
    | Lookup(topic: string, channel: nat, addr: string)
    | Register(topic: string, channel: nat, metadata: Option<Metadata>, role: Role,
               requestId: nat, name: string, schemaRef: Option<SchemaRef>)
    | Publish(topic: string, channel: nat, metadata: Option<Metadata>, message: Message)
    | Registry(topic: string, channel: nat, query: Query)
    | Sleep(topic: string, low: int, high: int)

  datatype Verdict =
    | Served
    | Failed(status: Status)
    | Crashed      // an exception that is not a gRPC error
    | Interrupted  // the awaiting task was cancelled

  /** One answer of the environment.  It carries a value for every kind of request; the
      request that is pending picks the one it needs.  `applied` says whether a publish
      that did not return normally reached the partition log all the same. */
  datatype Reply = Reply(
    verdict: Verdict,
    applied: bool,
    address: Address,
    id: nat,
    schema: SchemaInfo,
    millis: int,
    clock: nat)  // what the client's clock showed when it asked, in milliseconds

  datatype Event = Event(request: Request, reply: Reply)

  const CUT := Reply(Interrupted, false, Address("", "", false), 0, SchemaInfo(0, 0), 0, 0)

  /** The outcome of awaiting an RPC whose successful value is `v`. */
  function OutcomeOf<T>(verdict: Verdict, v: T): Outcome<T> {
    match verdict
    case Served => Ok(v)
    case Failed(s) => Raised(Rpc(s))
    case Crashed => Raised(Foreign)
    case Interrupted => Cancelled
  }

  /** Did the broker append the message of a publish that ended like this? */
  predicate Landed(reply: Reply) {
    reply.verdict.Served? || reply.applied
  }
}
