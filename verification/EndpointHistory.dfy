/** What every endpoint operation keeps, whatever the environment answers: the mutable fields
    are a function of the trace, every request is addressed from them, the cache only grows and
    other endpoints are not touched. */
module EndpointHistory {
  import opened Wire
  import opened Retry
  import opened Connections
  import opened Network
  import opened Endpoint

  /** Routing, stub, id and request counter hold exactly what the trace says they hold, and the
      endpoint registered as itself. */
  ghost predicate Mirrors(ep: Endpoint, w: World) {
    var v := Seen(w, ep.topic);
    ep.route == v.route && ep.stub == v.dialled && ep.clientId == v.clientId && ep.nextRequest == v.issued + 1
    && (v.registrant.Some? ==> v.registrant == Some(Registrant(ep.role, ep.name, ep.schemaRef)))
  }

  /** The metadata of a request: the client's own, and in proxy mode the broker's URL behind them. */
  lemma HeaderExactly(s: Settings, route: Address)
    ensures Header(s, route) ==
            if !route.proxy then s.auth
            else match s.auth
                 case None => Some([("x-danube-broker-url", route.brokerUrl)])
                 case Some(own) => Some(own + [("x-danube-broker-url", route.brokerUrl)])
  {
    var entry := [("x-danube-broker-url", route.brokerUrl)];
    assert [] + entry == entry;
  }

  /** `q` is the request that an endpoint with history `v` has to make. */
  ghost predicate Faithful(v: View, q: Request, s: Settings, pool: Pool) {
    match q
    case Lookup(_, channel, addr) => addr == v.route.connectUrl && HandleIs(pool, addr, addr, channel)
    case Register(_, channel, metadata, _, requestId, _, _) =>
      && HandleIs(pool, v.route.brokerUrl, v.route.connectUrl, channel)
      && metadata == Header(s, v.route) && requestId == v.issued + 1
    case Publish(_, channel, metadata, message) =>
      && v.dialled == Some(channel) && metadata == Header(s, v.route)
      && message.brokerAddr == v.route.brokerUrl
      && message.requestId == v.issued + 1 && message.producerId == v.clientId
    case Registry(_, channel, _) => HandleIs(pool, s.uri, s.uri, channel)
    case Sleep(_, low, high) => 1 <= low <= high
  }

  ghost predicate AllFaithful(trace: seq<Event>, topic: string, s: Settings, pool: Pool) {
    trace == [] ||
    var before, last := trace[..|trace| - 1], trace[|trace| - 1];
    && AllFaithful(before, topic, s, pool)
    && (last.request.topic == topic ==> Faithful(Replay(before, topic, s.uri), last.request, s, pool))
  }

  ghost predicate Honours(w: World, topic: string) {
    AllFaithful(w.trace, topic, w.settings, w.pool)
  }

  lemma {:induction false} FaithfulGrows(trace: seq<Event>, topic: string, s: Settings, pool: Pool, later: Pool)
    requires Grows(pool, later) && AllFaithful(trace, topic, s, pool)
    ensures AllFaithful(trace, topic, s, later)
  {
    if trace != [] {
      FaithfulGrows(trace[..|trace| - 1], topic, s, pool, later);
    }
  }

  ghost predicate SameIdentity(ep: Endpoint, ep': Endpoint) {
    && ep'.role == ep.role && ep'.topic == ep.topic && ep'.name == ep.name
    && ep'.schemaRef == ep.schemaRef && ep'.retry == ep.retry
  }

  /** The world only gains history and channels. */
  ghost predicate Extends(w: World, w': World) {
    && w'.settings == w.settings && Grows(w.pool, w'.pool) && w.trace <= w'.trace
    && |w'.script| <= |w.script|
  }

  ghost predicate OthersKept(topic: string, w: World, w': World) {
    forall t :: t != topic ==> Seen(w', t) == Seen(w, t) && (Honours(w, t) ==> Honours(w', t))
  }

  /** What is kept between two points of an endpoint's life. */
  ghost predicate Advances(ep: Endpoint, w: World, ep': Endpoint, w': World) {
    && Moves(ep, w, ep', w')
    && (WellFormed(w.pool) ==> WellFormed(w'.pool))
    && OthersKept(ep.topic, w, w')
    && (Mirrors(ep, w) && Honours(w, ep.topic) ==> Honours(w', ep.topic))
  }

  ghost predicate Moves(ep: Endpoint, w: World, ep': Endpoint, w': World) {
    && SameIdentity(ep, ep')
    && Extends(w, w')
    && (ep.stub.Some? ==> ep'.stub.Some?)
    && (Mirrors(ep, w) ==> Mirrors(ep', w'))
    && |w'.trace| - |w.trace| == Total(Seen(w', ep.topic)) - Total(Seen(w, ep.topic))
  }

  ghost predicate Elsewhere(topic: string, w: World, w': World) {
    forall t :: t != topic ==> Seen(w', t) == Seen(w, t)
  }

  /** Putting the parts of `Advances` together for a single step. */
  lemma Assemble(ep: Endpoint, w: World, ep': Endpoint, w': World)
    requires Moves(ep, w, ep', w') && Elsewhere(ep.topic, w, w')
    requires WellFormed(w.pool) ==> WellFormed(w'.pool)
    requires forall t :: Honours(w, t) && (t == ep.topic ==> Mirrors(ep, w)) ==> Honours(w', t)
    ensures Advances(ep, w, ep', w')
  {
    hide Moves, Honours, Mirrors, WellFormed, Seen;
  }

  lemma AdvancesTransitive(a: Endpoint, u: World, b: Endpoint, v: World, c: Endpoint, w: World)
    requires Advances(a, u, b, v) && Advances(b, v, c, w)
    ensures Advances(a, u, c, w)
  {
    GrowsTransitive(u.pool, v.pool, w.pool);
    forall t | t != a.topic
      ensures Seen(w, t) == Seen(u, t) && (Honours(u, t) ==> Honours(w, t))
    {
      assert Seen(v, t) == Seen(u, t) && (Honours(u, t) ==> Honours(v, t));
    }
  }

  /** Opening a channel and asking a faithful question over it. */
  lemma IssueHonours(w: World, brokerUrl: string, connectUrl: string, q: Request, t: string)
    requires Honours(w, t)
    requires q.topic == t ==> Faithful(Seen(w, t), q, w.settings, Connect(w.pool, brokerUrl, connectUrl).pool)
    ensures Honours(Issue(w.(pool := Connect(w.pool, brokerUrl, connectUrl).pool), q).w, t)
  {
    var w1 := w.(pool := Connect(w.pool, brokerUrl, connectUrl).pool);
    FaithfulGrows(w.trace, t, w.settings, w.pool, w1.pool);
    IssueKeeps(w1, q, t);
  }

  lemma IssueKeeps(w: World, q: Request, t: string)
    requires Honours(w, t)
    requires q.topic == t ==> Faithful(Seen(w, t), q, w.settings, w.pool)
    ensures Honours(Issue(w, q).w, t)
  {
    var trace := Issue(w, q).w.trace;
    assert trace[..|trace| - 1] == w.trace;
  }

  lemma LookupHonours(ep: Endpoint, w: World, t: string)
    requires Honours(w, t) && (t == ep.topic ==> Mirrors(ep, w))
    ensures Honours(LookupNewBroker(ep, w).w, t)
  {
    var addr := ep.route.connectUrl;
    var c := Connect(w.pool, addr, addr);
    IssueHonours(w, addr, addr, Lookup(ep.topic, c.channel, addr), t);
  }

  lemma LookupMoves(ep: Endpoint, w: World)
    ensures var l := LookupNewBroker(ep, w); Moves(ep, w, l.ep, l.w) && Elsewhere(ep.topic, w, l.w)
  {
    hide Connect, WellFormed, AllFaithful, Header, InsertProxyHeader;
  }

  lemma LookupAdvances(ep: Endpoint, w: World)
    ensures var l := LookupNewBroker(ep, w); Advances(ep, w, l.ep, l.w)
  {
    var l := LookupNewBroker(ep, w);
    LookupMoves(ep, w);
    if WellFormed(w.pool) { ConnectWellFormed(w.pool, ep.route.connectUrl, ep.route.connectUrl); }
    forall t | Honours(w, t) && (t == ep.topic ==> Mirrors(ep, w))
      ensures Honours(l.w, t)
    {
      LookupHonours(ep, w, t);
    }
    Assemble(ep, w, l.ep, l.w);
  }

  lemma PauseAdvances(ep: Endpoint, w: World, retry: RetryManager, attempt: nat)
    requires retry.Valid()
    ensures var p := Pause(ep, w, retry, attempt); Advances(ep, w, p.ep, p.w)
  {
    BackoffRange(retry, attempt);
    var q := Sleep(ep.topic, retry.Low(attempt), retry.High(attempt));
    forall t | Honours(w, t)
      ensures Honours(Pause(ep, w, retry, attempt).w, t)
    {
      IssueKeeps(w, q, t);
    }
  }

  lemma RegistrationHonours(ep: Endpoint, w: World, t: string)
    requires Honours(w, t) && (t == ep.topic ==> Mirrors(ep, w))
    ensures Honours(Registration(ep, w).w, t)
  {
    var c := Connect(w.pool, ep.route.brokerUrl, ep.route.connectUrl);
    var q := RegisterRequest(ep, w.settings, c.channel);
    IssueHonours(w, ep.route.brokerUrl, ep.route.connectUrl, q, t);
  }

  lemma RegistrationMoves(ep: Endpoint, w: World)
    ensures var r := Registration(ep, w); Moves(ep, w, r.ep, r.w) && Elsewhere(ep.topic, w, r.w)
  {
    hide Connect, WellFormed, AllFaithful, Header, InsertProxyHeader;
  }

  lemma RegistrationAdvances(ep: Endpoint, w: World)
    ensures var r := Registration(ep, w); Advances(ep, w, r.ep, r.w)
  {
    var r := Registration(ep, w);
    RegistrationMoves(ep, w);
    if WellFormed(w.pool) { ConnectWellFormed(w.pool, ep.route.brokerUrl, ep.route.connectUrl); }
    forall t | Honours(w, t) && (t == ep.topic ==> Mirrors(ep, w))
      ensures Honours(r.w, t)
    {
      RegistrationHonours(ep, w, t);
    }
    Assemble(ep, w, r.ep, r.w);
  }

  lemma HealthAdvances(ep: Endpoint, w: World)
    ensures var h := StartHealthCheck(ep, w); Advances(ep, w, h.ep, h.w)
  {
    var c := Connect(w.pool, ep.route.brokerUrl, ep.route.connectUrl);
    if WellFormed(w.pool) { ConnectWellFormed(w.pool, ep.route.brokerUrl, ep.route.connectUrl); }
    forall t | Honours(w, t)
      ensures Honours(StartHealthCheck(ep, w).w, t)
    {
      FaithfulGrows(w.trace, t, w.settings, w.pool, c.pool);
    }
  }

  lemma AskAdvances(ep: Endpoint, w: World, query: Query)
    ensures Advances(ep, w, ep, Ask(ep.topic, w, query).1)
  {
    var uri := w.settings.uri;
    var c := Connect(w.pool, uri, uri);
    if WellFormed(w.pool) { ConnectWellFormed(w.pool, uri, uri); }
    forall t | Honours(w, t)
      ensures Honours(Ask(ep.topic, w, query).1, t)
    {
      IssueHonours(w, uri, uri, Registry(ep.topic, c.channel, query), t);
    }
  }

  lemma ResolveAdvances(ep: Endpoint, ref: SchemaRef, w: World)
    ensures Advances(ep, w, ep, ResolveSchema(ep.topic, ref, w).1)
  {
    var (latest, w') := Ask(ep.topic, w, LatestOf(ref.subject));
    AskAdvances(ep, w, LatestOf(ref.subject));
    if latest.Ok? && ref.Pinned? && ref.version < latest.value.version {
      var query := VersionOf(latest.value.schemaId, ref.version);
      AskAdvances(ep, w', query);
      AdvancesTransitive(ep, w, ep, w', ep, Ask(ep.topic, w', query).1);
    }
  }

  lemma StampAdvances(ep: Endpoint, w: World, ep': Endpoint, w': World, id: Option<nat>, version: Option<nat>)
    requires Advances(ep, w, ep', w')
    ensures Advances(ep, w, ep'.(schemaId := id, schemaVersion := version), w')
  {
    hide AllFaithful, WellFormed, Seen;
  }

  lemma SettleAdvances(ep: Endpoint, w: World)
    ensures var s := Settle(ep, w); Advances(ep, w, s.ep, s.w)
  {
    hide Advances, ResolveSchema;
    var h := StartHealthCheck(ep, w);
    HealthAdvances(ep, w);
    if ep.schemaRef.Some? {
      var s := Settle(ep, w);
      ResolveAdvances(h.ep, ep.schemaRef.value, h.w);
      StampAdvances(h.ep, h.w, h.ep, s.w, s.ep.schemaId, s.ep.schemaVersion);
      AdvancesTransitive(ep, w, h.ep, h.w, s.ep, s.w);
    }
  }

  lemma TryCreateAdvances(ep: Endpoint, w: World)
    ensures var t := TryCreate(ep, w); Advances(ep, w, t.ep, t.w)
  {
    var r := Registration(ep, w);
    RegistrationAdvances(ep, w);
    if r.out.Ok? {
      SettleAdvances(r.ep, r.w);
      var s := Settle(r.ep, r.w);
      AdvancesTransitive(ep, w, r.ep, r.w, s.ep, s.w);
    }
  }

  lemma RecoverAdvances(ep: Endpoint, w: World, attempt: nat)
    requires ep.retry.Valid()
    ensures var r := Recover(ep, w, attempt); Advances(ep, w, r.ep, r.w)
  {
    var l := LookupNewBroker(ep, w);
    LookupAdvances(ep, w);
    if !l.out.Cancelled? {
      var p := Pause(l.ep, l.w, ep.retry, attempt);
      PauseAdvances(l.ep, l.w, ep.retry, attempt);
      AdvancesTransitive(ep, w, l.ep, l.w, p.ep, p.w);
    }
  }

  lemma {:induction false} CreateLoopAdvances(ep: Endpoint, w: World, attempts: nat)
    requires ep.retry.Valid() && attempts <= ep.retry.maxRetries
    ensures var c := CreateLoop(ep, w, attempts); Advances(ep, w, c.ep, c.w)
    decreases ep.retry.maxRetries - attempts
  {
    hide TryCreate, Recover, LookupNewBroker, Pause, AllFaithful, WellFormed;
    var t := TryCreate(ep, w);
    TryCreateAdvances(ep, w);
    if !Final(ep, t.out, attempts) {
      var r := Recover(t.ep, t.w, attempts);
      RecoverAdvances(t.ep, t.w, attempts);
      AdvancesTransitive(ep, w, t.ep, t.w, r.ep, r.w);
      if !r.out.Cancelled? {
        CreateLoopAdvances(r.ep, r.w, attempts + 1);
        var c := CreateLoop(r.ep, r.w, attempts + 1);
        AdvancesTransitive(ep, w, r.ep, r.w, c.ep, c.w);
      }
    }
  }

  /** Every exit of `create` and of `subscribe` keeps all of the above. */
  lemma CreateAdvances(ep: Endpoint, w: World)
    requires ep.retry.Valid()
    ensures var c := Create(ep, w); Advances(ep, w, c.ep, c.w)
  {
    var l := LookupNewBroker(ep, w);
    LookupAdvances(ep, w);
    if !l.out.Cancelled? {
      CreateLoopAdvances(l.ep, l.w, 0);
      var c := CreateLoop(l.ep, l.w, 0);
      AdvancesTransitive(ep, w, l.ep, l.w, c.ep, c.w);
    }
  }

  lemma SendOnceAdvances(ep: Endpoint, w: World, body: Body)
    ensures var s := SendOnce(ep, w, body); Advances(ep, w, s.ep, s.w)
  {
    if ep.stub.Some? {
      var q := PublishRequest(ep, w, body);
      forall t | Honours(w, t) && (t == ep.topic ==> Mirrors(ep, w))
        ensures Honours(SendOnce(ep, w, body).w, t)
      {
        IssueKeeps(w, q, t);
      }
    }
  }
}
