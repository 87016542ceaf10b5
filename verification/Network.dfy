/** The world an endpoint lives in: an adversary's script of replies, the trace of everything
    asked and answered so far, and the channel cache.

    A script is finite, and running off its end counts as cancellation of the pending await.
    Since every operation is examined on all scripts, each finite prefix of each infinite run
    is covered, also of runs in which a retry loop never ends. */
module Network {
  import opened Wire
  import opened Retry
  import opened Connections

  datatype Settings = Settings(uri: string, auth: Option<Metadata>)

  datatype World = World(settings: Settings, script: seq<Reply>, trace: seq<Event>, pool: Pool)

  datatype Issued = Issued(reply: Reply, w: World)

  /** Await one reply.  The only way in which script and trace ever change. */
  function Issue(w: World, q: Request): (r: Issued)
    ensures r.w.trace == w.trace + [Event(q, r.reply)]
    ensures r.w.settings == w.settings && r.w.pool == w.pool
    ensures !r.reply.verdict.Interrupted? ==> |r.w.script| < |w.script|
    ensures |r.w.script| <= |w.script|
    ensures forall topic, uri {:trigger Replay(r.w.trace, topic, uri)} ::
              Replay(r.w.trace, topic, uri) ==
              if q.topic == topic then Observe(Replay(w.trace, topic, uri), Event(q, r.reply))
              else Replay(w.trace, topic, uri)
  {
    var reply := if w.script == [] then CUT else w.script[0];
    var w' := w.(script := if w.script == [] then [] else w.script[1..], trace := w.trace + [Event(q, reply)]);
    assert w'.trace[..|w'.trace| - 1] == w.trace;
    Issued(reply, w')
  }

  /** The time at which the next request is made. */
  function Clock(w: World): nat {
    if w.script == [] then CUT.clock else w.script[0].clock
  }

  function Header(s: Settings, route: Address): Option<Metadata> {
    InsertProxyHeader(s.auth, route)
  }

  /** As whom an endpoint registers. */
  datatype Registrant = Registrant(role: Role, name: string, schemaRef: Option<SchemaRef>)

  /** What an outsider knows about one endpoint from the trace alone. */
  datatype View = View(
    route: Address,           // latest lookup answer, or the configured URI
    dialled: Option<nat>,     // channel of the latest registration
    dialledAt: Address,       // `route` at that moment
    registrant: Option<Registrant>,  // as whom it registered last
    clientId: nat,            // id assigned by the latest registration that was served
    issued: nat,              // request ids used up
    log: seq<Body>,           // what this topic's log received, in order
    publishes: nat,
    registers: nat,
    lookups: nat,
    queries: nat,
    sleeps: nat,
    slept: int,               // total milliseconds of the sleeps
    strays: nat)              // publishes made while `route` had moved on from `dialledAt`

  function Unseen(uri: string): View {
    View(Address(uri, uri, false), None, Address(uri, uri, false), None, 0, 0, [], 0, 0, 0, 0, 0, 0, 0)
  }

  function Observe(v: View, e: Event): View {
    match e.request
    case Lookup(_, _, _) =>
      v.(lookups := v.lookups + 1, route := if e.reply.verdict.Served? then e.reply.address else v.route)
    case Register(_, channel, _, role, _, name, schemaRef) =>
      v.(registrant := Some(Registrant(role, name, schemaRef)),
         registers := v.registers + 1, issued := v.issued + 1, dialled := Some(channel), dialledAt := v.route,
         clientId := if e.reply.verdict.Served? then e.reply.id else v.clientId)
    case Publish(_, _, _, message) =>
      v.(publishes := v.publishes + 1, issued := v.issued + 1,
         strays := if v.dialledAt == v.route then v.strays else v.strays + 1,
         log := if Landed(e.reply) then v.log + [message.body] else v.log)
    case Registry(_, _, _) => v.(queries := v.queries + 1)
    case Sleep(_, low, high) => v.(sleeps := v.sleeps + 1, slept := v.slept + Clamp(e.reply.millis, low, high))
  }

  function Replay(trace: seq<Event>, topic: string, uri: string): View {
    if trace == [] then Unseen(uri)
    else
      var v := Replay(trace[..|trace| - 1], topic, uri);
      var e := trace[|trace| - 1];
      if e.request.topic == topic then Observe(v, e) else v
  }

  function Seen(w: World, topic: string): View {
    Replay(w.trace, topic, w.settings.uri)
  }

  function Total(v: View): nat {
    v.publishes + v.registers + v.lookups + v.queries + v.sleeps
  }

  predicate NoInterrupt(script: seq<Reply>) {
    forall i :: 0 <= i < |script| ==> !script[i].verdict.Interrupted?
  }

  predicate IsPublish(e: Event, topic: string) {
    e.request.Publish? && e.request.topic == topic
  }

  /** A view that has not gained a publish has seen none, and one that has not changed has seen
      nothing. */
  lemma {:induction false} Unpublished(trace: seq<Event>, n: nat, topic: string, uri: string)
    requires n <= |trace|
    ensures var v, v' := Replay(trace[..n], topic, uri), Replay(trace, topic, uri);
            && v.publishes <= v'.publishes && Total(v) <= Total(v')
            && (v'.publishes == v.publishes ==> forall i :: n <= i < |trace| ==> !IsPublish(trace[i], topic))
            && (Total(v') == Total(v) ==> forall i :: n <= i < |trace| ==> trace[i].request.topic != topic)
    decreases |trace|
  {
    if n < |trace| {
      var before := trace[..|trace| - 1];
      Unpublished(before, n, topic, uri);
      assert before[..n] == trace[..n];
      assert forall i :: 0 <= i < |before| ==> before[i] == trace[i];
    } else {
      assert trace[..n] == trace;
    }
  }
}
