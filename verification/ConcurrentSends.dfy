/** Any number of `send` and `send_with_key` calls at the same time.  The lock covers only the choice
    of the partition, so calls share endpoints: they see, and change, each other's routing fields,
    stubs and request numbers. */
module ConcurrentSends {
  import opened Wire
  import opened Retry
  import opened Connections
  import opened Network
  import opened Endpoint
  import opened EndpointHistory
  import opened ProducerModel
  import opened ProducerRuns
  import opened Sending
  import opened SendTask
  import CreateTask
  import Backoffs
  import Router
  import Fnv

  datatype Caller = Caller(call: Call, partition: nat, wait: Wait)

  /** `turns[k]` is the caller who got the k-th answer. */
  datatype System = System(ps: Producer, callers: seq<Caller>, turns: seq<nat>, w: World)

  datatype Act =
    | Enter(call: Call)      // a call starts and runs to its first await
    | Answer(caller: nat)    // a waiting call gets the next answer of the script

  predicate CallerFits(s: System, i: nat)
    requires i < |s.callers|
  {
    var c := s.callers[i];
    && c.partition < |s.ps.producers|
    && (c.wait.Awaiting? ==>
          PlaceFits(c.wait.place, s.ps.producers[c.partition], RetryOf(s.ps.config.options)))
  }

  ghost predicate Sound(s: System) {
    Ready(s.ps) && forall i :: 0 <= i < |s.callers| ==> CallerFits(s, i)
  }

  /** A call starts: partition, then the head of the retry loop. */
  function Entered(s: System, call: Call): System
    requires Callable(s.ps) && SelectPartition(s.ps, call.key).0 < |s.ps.producers|
  {
    var (p, ps) := SelectPartition(s.ps, call.key);
    var t := AwaitPublish(s.ps.producers[p], s.w, BodyOf(call), 0);
    s.(ps := ps.(producers := ps.producers[p := t.ep]), callers := s.callers + [Caller(call, p, t.wait)], w := t.w)
  }

  function Answered(s: System, i: nat): System
    requires i < |s.callers| && CallerFits(s, i) && s.callers[i].wait.Awaiting?
  {
    var c := s.callers[i];
    var a := Issue(s.w, c.wait.request);
    var t := SendTask.Resume(c.wait.place, a.reply, s.ps.producers[c.partition], a.w, BodyOf(c.call),
                             RetryOf(s.ps.config.options));
    System(s.ps.(producers := s.ps.producers[c.partition := t.ep]),
           s.callers[i := c.(wait := t.wait)], s.turns + [i], t.w)
  }

  ghost function Next(s: System, act: Act): System
    requires Sound(s)
  {
    match act
    case Enter(call) =>
      PartitionInRange(s.ps, call.key);
      Entered(s, call)
    case Answer(i) =>
      if i < |s.callers| && s.callers[i].wait.Awaiting? then Answered(s, i) else s
  }

  // ----- what one turn does -----

  /** What a call may be waiting for. */
  predicate WaitFits(wait: Wait, topic: string, body: Body, retry: RetryManager) {
    wait.Awaiting? ==>
      var q, place := wait.request, wait.place;
      && q.topic == topic
      && (q.Publish? <==> place.Publishing?) && (q.Publish? ==> q.message.body == body)
      && (q.Register? <==> place.Creating? && place.phase.Trying?)
      && (q.Lookup? <==> place.Relooking? || (place.Creating? && (place.phase.Arriving? || place.phase.Retrying?)))
      && Backoffs.InRange(q, retry)
  }

  /** Between two awaits a call keeps the identity and the connection of its endpoint. */
  ghost predicate EndpointKept(ep: Endpoint, ep': Endpoint) {
    SameIdentity(ep, ep') && (ep.stub.Some? ==> ep'.stub.Some?)
  }

  lemma PublishWaits(ep: Endpoint, w: World, body: Body, retry: RetryManager, a: nat)
    requires ep.retry.Valid() && retry.Valid() && a <= retry.maxRetries
    ensures var t := AwaitPublish(ep, w, body, a);
            && WaitFits(t.wait, ep.topic, body, retry) && TurnFits(t, retry) && EndpointKept(ep, t.ep)
            && t.ep.route == ep.route && t.ep.clientId == ep.clientId && !t.wait.Ended?
            && t.w == w.(pool := t.w.pool)
  {
    hide Connect;
  }

  /** What the answer says about the fields that lookups and registrations set. */
  function RouteAfter(route: Address, e: Event): Address {
    if e.request.Lookup? && e.reply.verdict.Served? then e.reply.address else route
  }

  function ClientAfter(clientId: nat, e: Event): nat {
    if e.request.Register? && e.reply.verdict.Served? then e.reply.id else clientId
  }

  /** What one turn of a call amounts to. */
  ghost predicate TurnOk(ep: Endpoint, wait: Wait, reply: Reply, w: World, t: Turn, body: Body, retry: RetryManager)
    requires wait.Awaiting?
  {
    && WaitFits(t.wait, ep.topic, body, retry) && TurnFits(t, retry) && EndpointKept(ep, t.ep)
    && t.ep.route == RouteAfter(ep.route, Event(wait.request, reply))
    && t.ep.clientId == ClientAfter(ep.clientId, Event(wait.request, reply))
    && (t.wait.Ended? && t.wait.out.Ok? ==>
          wait.request.Publish? && reply.verdict.Served? && t.wait.out.value == reply.id)
    && t.w == w.(pool := t.w.pool)
  }

  lemma LookupWaits(ep: Endpoint, w: World, place: Place, body: Body, retry: RetryManager)
    requires PlaceFits(place, ep, retry)
    requires place.Relooking? || (place.Creating? && (place.phase.Arriving? || place.phase.Retrying?))
    ensures var t := AwaitLookup(ep, w, place);
            && t.wait.Awaiting? && WaitFits(t.wait, ep.topic, body, retry) && TurnFits(t, retry)
            && t.ep == ep && t.w == w.(pool := t.w.pool)
  {
    hide Connect;
  }

  lemma AttemptWaits(ep: Endpoint, w: World, body: Body, retry: RetryManager, out: Outcome<nat>, a: nat)
    requires ep.retry.Valid() && retry.Valid() && a <= ep.retry.maxRetries
    ensures var t := AfterAttempt(ep, w, body, out, a);
            && WaitFits(t.wait, ep.topic, body, retry) && TurnFits(t, retry) && EndpointKept(ep, t.ep)
            && t.ep.route == ep.route && t.ep.clientId == ep.clientId && (t.wait.Ended? ==> !t.wait.out.Ok?)
            && t.w == w.(pool := t.w.pool)
  {
    hide AwaitLookup, AwaitPublish;
    if !Final(ep, out, a) {
      LookupWaits(ep, w, Creating(CreateTask.Retrying(a)), body, retry);
    } else if out.Ok? {
      PublishWaits(ep, w, body, retry, 0);
    }
  }

  lemma SchemaWaits(ep: Endpoint, w: World, body: Body, retry: RetryManager, out: Outcome<SchemaInfo>, a: nat)
    requires ep.retry.Valid() && retry.Valid() && a <= ep.retry.maxRetries
    ensures var t := AfterSchema(ep, w, body, out, a);
            && WaitFits(t.wait, ep.topic, body, retry) && TurnFits(t, retry) && EndpointKept(ep, t.ep)
            && t.ep.route == ep.route && t.ep.clientId == ep.clientId && (t.wait.Ended? ==> !t.wait.out.Ok?)
            && t.w == w.(pool := t.w.pool)
  {
    hide AfterAttempt, WaitFits;
    var (ep', out') := CreateTask.Stamp(ep, out);
    AttemptWaits(ep', w, body, retry, out', a);
  }

  lemma PublishedTurn(ep: Endpoint, wait: Wait, reply: Reply, w: World, body: Body, retry: RetryManager)
    requires wait.Awaiting? && wait.place.Publishing?
    requires PlaceFits(wait.place, ep, retry) && WaitFits(wait, ep.topic, body, retry)
    ensures TurnOk(ep, wait, reply, w, OnPublished(wait.place.attempts, reply, ep, w, retry), body, retry)
  {
    hide AwaitLookup;
    var out := OutcomeOf(reply.verdict, reply.id);
    if out.Raised? && NeedsRecreation(out.error, retry, wait.place.attempts) {
      LookupWaits(ep, w, Relooking(out.error), body, retry);
    }
  }

  lemma RegisteredTurn(ep: Endpoint, wait: Wait, reply: Reply, w: World, body: Body, retry: RetryManager)
    requires wait.Awaiting? && wait.place.Creating? && wait.place.phase.Trying?
    requires PlaceFits(wait.place, ep, retry) && WaitFits(wait, ep.topic, body, retry)
    ensures TurnOk(ep, wait, reply, w, OnRegistered(wait.place.phase.attempts, reply, ep, w, body), body, retry)
  {
    hide AfterAttempt, Connect;
    var a := wait.place.phase.attempts;
    match OutcomeOf(reply.verdict, reply.id)
    case Ok(id) =>
      var h := StartHealthCheck(ep.(clientId := id), w);
      AttemptWaits(h.ep, h.w, body, retry, Ok(id), a);
    case Raised(error) => AttemptWaits(ep, w, body, retry, Raised(RegistrationError(error)), a);
    case Cancelled => AttemptWaits(ep, w, body, retry, Cancelled, a);
  }

  lemma LatestTurn(ep: Endpoint, wait: Wait, reply: Reply, w: World, body: Body, retry: RetryManager)
    requires wait.Awaiting? && wait.place.Creating? && wait.place.phase.Resolving?
    requires PlaceFits(wait.place, ep, retry) && WaitFits(wait, ep.topic, body, retry)
    ensures TurnOk(ep, wait, reply, w, OnLatest(wait.place.phase.attempts, reply, ep, w, body), body, retry)
  {
    hide AfterSchema, Connect;
    var a, latest := wait.place.phase.attempts, OutcomeOf(reply.verdict, reply.schema);
    SchemaWaits(ep, w, body, retry, latest, a);
    SchemaWaits(ep, w, body, retry, Raised(BadVersion), a);
  }

  lemma ResumeTurn(ep: Endpoint, wait: Wait, reply: Reply, w: World, body: Body, retry: RetryManager)
    requires wait.Awaiting? && ep.retry == retry
    requires PlaceFits(wait.place, ep, retry) && WaitFits(wait, ep.topic, body, retry)
    ensures TurnOk(ep, wait, reply, w, SendTask.Resume(wait.place, reply, ep, w, body, retry), body, retry)
  {
    hide OnPublished, OnRegistered, OnLatest, AfterSchema, AwaitLookup, AwaitPublish, Connect;
    match wait.place
    case Publishing(_) => PublishedTurn(ep, wait, reply, w, body, retry);
    case Pausing(a) => PublishWaits(ep, w, body, retry, a + 1);
    case Relooking(_) =>
      LookupWaits(ep.(route := reply.address), w, Creating(CreateTask.Arriving), body, retry);
    case Creating(phase) =>
      match phase {
        case Trying(_) => RegisteredTurn(ep, wait, reply, w, body, retry);
        case Resolving(_) => LatestTurn(ep, wait, reply, w, body, retry);
        case Pinning(a, _) => SchemaWaits(ep, w, body, retry, OutcomeOf(reply.verdict, reply.schema), a);
        case _ =>
      }
  }

  // ----- every interleaving -----

  ghost predicate CallerOk(s: System, i: nat)
    requires i < |s.callers|
  {
    var c := s.callers[i];
    && WaitFits(c.wait, TopicOf(s.ps.config, c.partition), Record(c.call), RetryOf(s.ps.config.options))
    && (c.call.key.Some? ==> c.partition == HomeOf(s.ps.config.partitions, c.call.key.value))
  }

  /** The k-th answer was to a request of the caller who got it: about that call's partition, a
      publish of that call's body if it was a publish, a backoff within the range. */
  ghost predicate TurnFaithful(s: System, n: nat, k: nat)
    requires k < |s.turns| && n + k < |s.w.trace|
  {
    && s.turns[k] < |s.callers|
    && var c, q := s.callers[s.turns[k]], s.w.trace[n + k].request;
       && q.topic == TopicOf(s.ps.config, c.partition)
       && (q.Publish? ==> q.message.body == Record(c.call))
       && Backoffs.InRange(q, RetryOf(s.ps.config.options))
  }

  /** The k-th answer acknowledges a publish of caller `i`. */
  predicate Acknowledges(s: System, n: nat, k: nat, i: nat, id: nat)
    requires k < |s.turns| && n + k < |s.w.trace|
  {
    && s.turns[k] == i && s.w.trace[n + k].request.Publish?
    && s.w.trace[n + k].reply.verdict.Served? && s.w.trace[n + k].reply.id == id
  }

  ghost predicate ReturnFaithful(s: System, n: nat, i: nat)
    requires i < |s.callers| && n + |s.turns| == |s.w.trace|
  {
    s.callers[i].wait.Ended? && s.callers[i].wait.out.Ok? ==>
      exists k :: 0 <= k < |s.turns| && Acknowledges(s, n, k, i, s.callers[i].wait.out.value)
  }

  /** What holds at every moment, `n` events having happened before the first call. */
  ghost predicate Kept(s: System, n: nat) {
    && Sound(s) && n + |s.turns| == |s.w.trace|
    && (forall i :: 0 <= i < |s.callers| ==> CallerOk(s, i))
    && (forall k :: 0 <= k < |s.turns| ==> TurnFaithful(s, n, k))
    && (forall i :: 0 <= i < |s.callers| ==> ReturnFaithful(s, n, i))
  }

  lemma PlaceFitsStill(place: Place, ep: Endpoint, ep': Endpoint, retry: RetryManager)
    requires PlaceFits(place, ep, retry) && EndpointKept(ep, ep')
    ensures PlaceFits(place, ep', retry)
  {
  }

  lemma ReadyStill(ps: Producer, p: nat, ep: Endpoint)
    requires Ready(ps) && p < |ps.producers| && EndpointKept(ps.producers[p], ep)
    ensures Ready(ps.(producers := ps.producers[p := ep]))
  {
    hide TopicOf, NameOf, RetryOf, Width;
    var ps' := ps.(producers := ps.producers[p := ep]);
    forall i | 0 <= i < |ps'.producers|
      ensures ReadyAt(ps', i)
    {
      assert ReadyAt(ps, i);
    }
  }

  lemma EnterKept(s: System, n: nat, call: Call)
    requires Kept(s, n)
    ensures Kept(Next(s, Enter(call)), n)
    ensures Next(s, Enter(call)).w == s.w.(pool := Next(s, Enter(call)).w.pool)
  {
    hide AwaitPublish, WaitFits, PlaceFits, TopicOf, NameOf, RetryOf, BodyOf, Record;
    hide Backoffs.InRange, Router.KeyRoute, Ready;
    PartitionInRange(s.ps, call.key);
    var (p, ps) := SelectPartition(s.ps, call.key);
    var retry := RetryOf(s.ps.config.options);
    ReadyEndpoint(s.ps, p);
    BodyIsRecord(call);
    var ep := s.ps.producers[p];
    PublishWaits(ep, s.w, BodyOf(call), retry, 0);
    var t := AwaitPublish(ep, s.w, BodyOf(call), 0);
    var s' := Next(s, Enter(call));
    ReadySelected(s.ps, call.key);
    ReadyStill(ps, p, t.ep);
    forall i | 0 <= i < |s'.callers|
      ensures CallerFits(s', i) && CallerOk(s', i) && ReturnFaithful(s', n, i)
    {
      if i < |s.callers| {
        assert CallerFits(s, i) && CallerOk(s, i) && ReturnFaithful(s, n, i);
        var c := s.callers[i];
        if c.wait.Awaiting? && c.partition == p {
          PlaceFitsStill(c.wait.place, ep, t.ep, retry);
        }
        Moved(s, s', n, i);
      }
    }
    forall k | 0 <= k < |s'.turns|
      ensures TurnFaithful(s', n, k)
    {
      assert TurnFaithful(s, n, k);
    }
  }

  lemma ReadyEndpoint(ps: Producer, p: nat)
    requires Ready(ps) && p < |ps.producers|
    ensures var ep := ps.producers[p];
            && ep.topic == TopicOf(ps.config, p) && ep.retry == RetryOf(ps.config.options)
            && ep.retry.Valid() && ep.stub.Some?
  {
    hide TopicOf, NameOf;
    assert ReadyAt(ps, p);
  }

  lemma ReadySelected(ps: Producer, key: Option<Bytes>)
    requires Ready(ps)
    ensures Callable(ps)
    ensures var (p, ps') := SelectPartition(ps, key);
            && Ready(ps') && p < |ps.producers| && ps'.producers == ps.producers && ps'.config == ps.config
            && (key.Some? ==> p == HomeOf(ps.config.partitions, key.value))
  {
    hide TopicOf, NameOf, RetryOf, Width, Router.KeyRoute, Fnv.Unbounded;
    PartitionInRange(ps, key);
    if key.Some? && ps.config.partitions > 0 {
      Router.KeyRouteIsHash(key.value, ps.config.partitions);
    }
    var (p, ps') := SelectPartition(ps, key);
    forall i | 0 <= i < |ps'.producers|
      ensures ReadyAt(ps', i)
    {
      assert ReadyAt(ps, i);
    }
    if Routed(ps) && key.None? {
      Router.NextPartCases(ps.router.value, ps.config.partitions);
    }
  }

  /** An acknowledgement once given stays given. */
  lemma Moved(s: System, s': System, n: nat, i: nat)
    requires i < |s.callers| && i < |s'.callers| && s'.callers[i] == s.callers[i]
    requires n + |s.turns| == |s.w.trace| && n + |s'.turns| == |s'.w.trace|
    requires s.turns <= s'.turns && s.w.trace <= s'.w.trace && ReturnFaithful(s, n, i)
    ensures ReturnFaithful(s', n, i)
  {
    var c := s.callers[i];
    if c.wait.Ended? && c.wait.out.Ok? {
      var k :| 0 <= k < |s.turns| && Acknowledges(s, n, k, i, c.wait.out.value);
      assert Acknowledges(s', n, k, i, c.wait.out.value);
    }
  }

  lemma AnswerKept(s: System, n: nat, i: nat)
    requires Kept(s, n)
    ensures Kept(Next(s, Answer(i)), n)
  {
    hide SendTask.Resume, WaitFits, PlaceFits, TopicOf, NameOf, RetryOf, BodyOf, Record;
    hide Backoffs.InRange, Router.KeyRoute, Ready, Replay;
    if i < |s.callers| && s.callers[i].wait.Awaiting? {
      var s' := Next(s, Answer(i));
      var c, retry := s.callers[i], RetryOf(s.ps.config.options);
      assert CallerFits(s, i) && CallerOk(s, i);
      BodyIsRecord(c.call);
      var ep, a := s.ps.producers[c.partition], Issue(s.w, c.wait.request);
      ReadyEndpoint(s.ps, c.partition);
      ResumeTurn(ep, c.wait, a.reply, a.w, BodyOf(c.call), retry);
      var t := SendTask.Resume(c.wait.place, a.reply, ep, a.w, BodyOf(c.call), retry);
      ReadyStill(s.ps, c.partition, t.ep);
      RequestFits(c.wait, ep.topic, BodyOf(c.call), retry);
      forall j | 0 <= j < |s'.callers|
        ensures CallerFits(s', j) && CallerOk(s', j) && ReturnFaithful(s', n, j)
      {
        assert CallerFits(s, j) && CallerOk(s, j) && ReturnFaithful(s, n, j);
        if j != i {
          var d := s.callers[j];
          if d.wait.Awaiting? && d.partition == c.partition {
            PlaceFitsStill(d.wait.place, ep, t.ep, retry);
          }
          Moved(s, s', n, j);
        } else if t.wait.Ended? && t.wait.out.Ok? {
          assert Acknowledges(s', n, |s.turns|, i, t.wait.out.value);
        }
      }
      forall k | 0 <= k < |s'.turns|
        ensures TurnFaithful(s', n, k)
      {
        if k < |s.turns| {
          assert TurnFaithful(s, n, k);
        }
      }
    }
  }

  lemma RequestFits(wait: Wait, topic: string, body: Body, retry: RetryManager)
    requires WaitFits(wait, topic, body, retry) && wait.Awaiting?
    ensures wait.request.topic == topic && Backoffs.InRange(wait.request, retry)
    ensures wait.request.Publish? ==> wait.request.message.body == body
  {
  }

  /** Any interleaving of calls and answers. */
  ghost function Perform(s: System, n: nat, acts: seq<Act>): (r: System)
    requires Kept(s, n)
    ensures Kept(r, n)
    decreases |acts|
  {
    if acts == [] then s
    else
      NextKept(s, n, acts[0]);
      Perform(Next(s, acts[0]), n, acts[1..])
  }

  lemma NextKept(s: System, n: nat, act: Act)
    requires Kept(s, n)
    ensures Kept(Next(s, act), n)
  {
    match act
    case Enter(call) => EnterKept(s, n, call);
    case Answer(i) => AnswerKept(s, n, i);
  }

  function Idle(ps: Producer, w: World): System {
    System(ps, [], [], w)
  }

  lemma IdleKept(ps: Producer, w: World)
    requires Ready(ps)
    ensures Kept(Idle(ps, w), |w.trace|)
  {
  }

  /** The bodies that landed in partition `p` with the first `k` answers: each is the body of the call
      that got the answer. */
  function Arrivals(s: System, n: nat, k: nat, p: nat): seq<Body>
    requires k <= |s.turns| && n + k <= |s.w.trace| && forall j :: 0 <= j < |s.turns| ==> s.turns[j] < |s.callers|
  {
    if k == 0 then []
    else
      var e, c := s.w.trace[n + k - 1], s.callers[s.turns[k - 1]];
      Arrivals(s, n, k - 1, p)
      + if e.request.Publish? && Landed(e.reply) && c.partition == p then [Record(c.call)] else []
  }

  lemma {:induction false} LogIsArrivals(s: System, n: nat, k: nat, p: nat, uri: string)
    requires Kept(s, n) && k <= |s.turns| && p < |s.ps.producers|
    requires forall j :: 0 <= j < |s.turns| ==> s.turns[j] < |s.callers|
    ensures var t := TopicOf(s.ps.config, p);
            Replay(s.w.trace[..n + k], t, uri).log == Replay(s.w.trace[..n], t, uri).log + Arrivals(s, n, k, p)
    decreases k
  {
    hide Sound, CallerOk, ReturnFaithful, TopicOf, Record, Backoffs.InRange, Replay, Observe;
    if k > 0 {
      LogIsArrivals(s, n, k - 1, p, uri);
      assert TurnFaithful(s, n, k - 1);
      LogNext(s.w.trace, n + k - 1, TopicOf(s.ps.config, p), uri);
      PartitionsDiffer(s, p, s.turns[k - 1]);
    }
  }

  /** What one event adds to a log. */
  lemma LogNext(trace: seq<Event>, i: nat, topic: string, uri: string)
    requires i < |trace|
    ensures Replay(trace[..i + 1], topic, uri).log ==
            Replay(trace[..i], topic, uri).log
              + if IsPublish(trace[i], topic) && Landed(trace[i].reply) then [trace[i].request.message.body] else []
  {
    var longer := trace[..i + 1];
    assert longer[..|longer| - 1] == trace[..i] && longer[|longer| - 1] == trace[i];
  }

  lemma PartitionsDiffer(s: System, p: nat, i: nat)
    requires Sound(s) && p < |s.ps.producers| && i < |s.callers|
    ensures TopicOf(s.ps.config, s.callers[i].partition) == TopicOf(s.ps.config, p) <==> s.callers[i].partition == p
  {
    hide TopicOf, Ready;
    assert CallerFits(s, i);
    if s.callers[i].partition != p {
      OnePartitionEach(s.ps, s.callers[i].partition, p);
    }
  }

  lemma OnePartitionEach(ps: Producer, i: nat, j: nat)
    requires Ready(ps) && i < |ps.producers| && j < |ps.producers| && i != j
    ensures TopicOf(ps.config, i) != TopicOf(ps.config, j)
  {
    hide TopicOf;
    TopicsDiffer(ps.config, i, j);
  }

  /** Delivery to concurrent callers.  Whatever the calls do to each other: what a partition gained is
      the bodies of calls that chose it and nothing else, one for each of their publishes that
      landed; a keyed call chose FNV-1a(key) mod n; and a call that has returned got its id from the
      answer to a publish of its own body, in its own partition, which has landed. */
  lemma ConcurrentDelivery(ps: Producer, w: World, acts: seq<Act>)
    requires Ready(ps)
    ensures Kept(Idle(ps, w), |w.trace|)
    ensures var n, s := |w.trace|, Perform(Idle(ps, w), |w.trace|, acts);
            && s.ps.config == ps.config && w.trace <= s.w.trace && n + |s.turns| == |s.w.trace|
            && (forall j :: 0 <= j < |s.turns| ==> s.turns[j] < |s.callers|)
            && (forall p :: 0 <= p < |ps.producers| ==>
                  Seen(s.w, TopicOf(ps.config, p)).log
                  == Seen(w, TopicOf(ps.config, p)).log + Arrivals(s, n, |s.turns|, p))
            && (forall i :: 0 <= i < |s.callers| ==>
                  && s.callers[i].partition < |ps.producers|
                  && (s.callers[i].call.key.Some? ==>
                        s.callers[i].partition == HomeOf(ps.config.partitions, s.callers[i].call.key.value))
                  && ReturnFaithful(s, n, i))
            && (forall k :: 0 <= k < |s.turns| ==> TurnFaithful(s, n, k))
  {
    hide Replay, Next, TopicOf, Record, Backoffs.InRange, Ready, PlaceFits, WaitFits;
    hide TurnFaithful, ReturnFaithful, Arrivals;
    IdleKept(ps, w);
    var n, s := |w.trace|, Perform(Idle(ps, w), |w.trace|, acts);
    PerformExtends(Idle(ps, w), n, acts);
    forall j | 0 <= j < |s.turns|
      ensures s.turns[j] < |s.callers|
    {
      TurnInRange(s, n, j);
    }
    assert s.w.trace[..n] == w.trace && s.w.trace[..n + |s.turns|] == s.w.trace;
    forall p | 0 <= p < |ps.producers|
      ensures Seen(s.w, TopicOf(ps.config, p)).log
           == Seen(w, TopicOf(ps.config, p)).log + Arrivals(s, n, |s.turns|, p)
    {
      LogIsArrivals(s, n, |s.turns|, p, w.settings.uri);
    }
    forall i | 0 <= i < |s.callers|
      ensures s.callers[i].partition < |ps.producers|
      ensures s.callers[i].call.key.Some? ==>
                s.callers[i].partition == HomeOf(ps.config.partitions, s.callers[i].call.key.value)
      ensures ReturnFaithful(s, n, i)
    {
      assert CallerFits(s, i) && CallerOk(s, i);
    }
  }

  lemma TurnInRange(s: System, n: nat, k: nat)
    requires Kept(s, n) && k < |s.turns|
    ensures s.turns[k] < |s.callers|
  {
    assert TurnFaithful(s, n, k);
  }

  lemma NextExtends(s: System, n: nat, act: Act)
    requires Kept(s, n)
    ensures var s' := Next(s, act);
            && s'.ps.config == s.ps.config && |s'.ps.producers| == |s.ps.producers|
            && s.w.trace <= s'.w.trace && s'.w.settings == s.w.settings
  {
    hide SendTask.Resume, WaitFits, PlaceFits, TopicOf, NameOf, RetryOf, BodyOf, Record;
    hide Backoffs.InRange, Router.KeyRoute, Ready, Replay;
    hide AwaitPublish;
    match act
    case Enter(call) =>
      EnterKept(s, n, call);
      ReadySelected(s.ps, call.key);
    case Answer(i) =>
      if i < |s.callers| && s.callers[i].wait.Awaiting? {
        var c := s.callers[i];
        assert CallerFits(s, i);
        var a := Issue(s.w, c.wait.request);
        var ep, retry := s.ps.producers[c.partition], RetryOf(s.ps.config.options);
        ResumeAsksNothing(c.wait.place, a.reply, ep, a.w, BodyOf(c.call), retry);
      }
  }

  lemma {:induction false} PerformExtends(s: System, n: nat, acts: seq<Act>)
    requires Kept(s, n)
    ensures var r := Perform(s, n, acts);
            && r.ps.config == s.ps.config && |r.ps.producers| == |s.ps.producers|
            && s.w.trace <= r.w.trace && r.w.settings == s.w.settings
    decreases |acts|
  {
    hide Next, Sound, CallerOk, TurnFaithful, ReturnFaithful;
    if acts != [] {
      NextKept(s, n, acts[0]);
      NextExtends(s, n, acts[0]);
      PerformExtends(Next(s, acts[0]), n, acts[1..]);
    }
  }

  // ----- routing -----

  /** Route and id of every endpoint are what the answers so far say: the route is the latest lookup
      answer as a whole, whichever call asked for it. */
  ghost predicate Follows(s: System) {
    forall p :: 0 <= p < |s.ps.producers| ==>
      var ep := s.ps.producers[p];
      var v := Seen(s.w, ep.topic);
      ep.route == v.route && ep.clientId == v.clientId
  }

  lemma NextFollows(s: System, n: nat, act: Act)
    requires Kept(s, n) && Follows(s)
    ensures Follows(Next(s, act))
  {
    hide SendTask.Resume, AwaitPublish, WaitFits, PlaceFits, TopicOf, NameOf, RetryOf, BodyOf, Record;
    hide Router.KeyRoute, Ready, Replay;
    match act
    case Enter(call) =>
      EnterKept(s, n, call);
      ReadySelected(s.ps, call.key);
      var p := SelectPartition(s.ps, call.key).0;
      ReadyEndpoint(s.ps, p);
      PublishWaits(s.ps.producers[p], s.w, BodyOf(call), RetryOf(s.ps.config.options), 0);
    case Answer(i) =>
      if i < |s.callers| && s.callers[i].wait.Awaiting? {
        AnswerFollows(s, n, i);
      }
  }

  lemma AnswerFollows(s: System, n: nat, i: nat)
    requires Kept(s, n) && Follows(s) && i < |s.callers| && s.callers[i].wait.Awaiting?
    ensures Follows(Next(s, Answer(i)))
  {
    hide SendTask.Resume, WaitFits, PlaceFits, TopicOf, NameOf, RetryOf, BodyOf, Record;
    hide Router.KeyRoute, Ready, Replay;
    assert CallerFits(s, i) && CallerOk(s, i);
    BodyIsRecord(s.callers[i].call);
    var s' := Next(s, Answer(i));
    var c, retry := s.callers[i], RetryOf(s.ps.config.options);
    var ep, a := s.ps.producers[c.partition], Issue(s.w, c.wait.request);
    ReadyEndpoint(s.ps, c.partition);
    ResumeTurn(ep, c.wait, a.reply, a.w, BodyOf(c.call), retry);
    RequestFits(c.wait, ep.topic, BodyOf(c.call), retry);
    forall p | 0 <= p < |s'.ps.producers|
      ensures s'.ps.producers[p].route == Seen(s'.w, s'.ps.producers[p].topic).route
      ensures s'.ps.producers[p].clientId == Seen(s'.w, s'.ps.producers[p].topic).clientId
    {
      if p != c.partition {
        ReadyEndpoint(s.ps, p);
        OnePartitionEach(s.ps, p, c.partition);
      }
    }
  }

  /** Concurrent calls never mix two lookup answers in one route. */
  lemma {:induction false} RoutesFollow(s: System, n: nat, acts: seq<Act>)
    requires Kept(s, n) && Follows(s)
    ensures Follows(Perform(s, n, acts))
    decreases |acts|
  {
    hide Next, Follows, Sound, CallerOk, TurnFaithful, ReturnFaithful;
    if acts != [] {
      NextKept(s, n, acts[0]);
      NextFollows(s, n, acts[0]);
      RoutesFollow(Next(s, acts[0]), n, acts[1..]);
    }
  }

  // ----- round robin -----

  /** The partitions of the calls without a key, in the order in which they started. */
  function Keyless(callers: seq<Caller>): seq<nat> {
    if callers == [] then []
    else
      var c := callers[|callers| - 1];
      Keyless(callers[..|callers| - 1]) + if c.call.key.None? then [c.partition] else []
  }

  lemma {:induction false} KeylessWaits(callers: seq<Caller>, i: nat, wait: Wait)
    requires i < |callers|
    ensures Keyless(callers[i := callers[i].(wait := wait)]) == Keyless(callers)
  {
    var k := |callers| - 1;
    var callers' := callers[i := callers[i].(wait := wait)];
    if i < k {
      KeylessWaits(callers[..k], i, wait);
      assert callers'[..k] == callers[..k][i := callers[i].(wait := wait)];
    } else {
      assert callers'[..k] == callers[..k];
    }
  }

  lemma NextPicks(s: System, n: nat, act: Act)
    requires Kept(s, n) && s.ps.config.partitions > 0
    ensures RouterOk(s.ps) && s.ps.router.Some?
    ensures var s' := Next(s, act);
            && s'.ps.config == s.ps.config
            && if act.Enter? && act.call.key.None? then
                 var p := Router.NextPart(s.ps.router.value, s.ps.config.partitions);
                 s'.ps.router == Some(p) && Keyless(s'.callers) == Keyless(s.callers) + [p]
               else s'.ps.router == s.ps.router && Keyless(s'.callers) == Keyless(s.callers)
  {
    hide SendTask.Resume, AwaitPublish, WaitFits, PlaceFits, TopicOf, NameOf, RetryOf, BodyOf, Record;
    hide Router.KeyRoute, Router.NextPart;
    match act
    case Enter(call) =>
      PartitionInRange(s.ps, call.key);
      var callers := Next(s, act).callers;
      assert callers[..|callers| - 1] == s.callers;
    case Answer(i) =>
      if i < |s.callers| && s.callers[i].wait.Awaiting? {
        KeylessWaits(s.callers, i, Next(s, act).callers[i].wait);
      }
  }

  /** Round robin among concurrent callers: the calls without a key walk the partitions in the order
      in which they start, whatever their retries and recreations do. */
  lemma {:induction false} ConcurrentRoundRobin(s: System, n: nat, acts: seq<Act>)
    requires Kept(s, n) && s.ps.config.partitions > 0
    ensures RouterOk(s.ps) && s.ps.router.Some?
    ensures var r := Perform(s, n, acts);
            |Keyless(r.callers)| >= |Keyless(s.callers)|
            && Keyless(r.callers) == Keyless(s.callers)
                 + Router.Picks(s.ps.router.value, s.ps.config.partitions, |Keyless(r.callers)| - |Keyless(s.callers)|)
    decreases |acts|
  {
    hide Next, Keyless, CallerOk, TurnFaithful, ReturnFaithful, Router.NextPart;
    if acts == [] {
      PartitionInRange(s.ps, None);
    } else {
      NextKept(s, n, acts[0]);
      NextPicks(s, n, acts[0]);
      ConcurrentRoundRobin(Next(s, acts[0]), n, acts[1..]);
    }
  }
}
