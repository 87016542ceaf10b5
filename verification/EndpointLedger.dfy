/** Replies and requests balance: an operation that was not cancelled consumed one scripted reply
    per request, and one that was cancelled without the script ordering it used the script up. */
module EndpointLedger {
  import opened Wire
  import opened Retry
  import opened Connections
  import opened Network
  import opened Endpoint

  ghost predicate Balanced(w: World, w': World, cancelled: bool) {
    NoInterrupt(w.script) ==>
      && NoInterrupt(w'.script)
      && if cancelled then w'.script == [] && |w'.trace| == |w.trace| + |w.script| + 1
         else |w'.trace| + |w'.script| == |w.trace| + |w.script|
  }

  lemma IssueBalanced(w: World, q: Request)
    ensures var i := Issue(w, q); Balanced(w, i.w, i.reply.verdict.Interrupted?)
  {
  }

  lemma LookupBalanced(ep: Endpoint, w: World)
    ensures var l := LookupNewBroker(ep, w); Balanced(w, l.w, l.out.Cancelled?)
    ensures var (out, w') := HandleLookup(ep, w); Balanced(w, w', out.Cancelled?)
  {
    hide Balanced, Issue, Connect;
    var addr := ep.route.connectUrl;
    var c := Connect(w.pool, addr, addr);
    var w1 := w.(pool := c.pool);
    IssueBalanced(w1, Lookup(ep.topic, c.channel, addr));
    PoolFree(w, c.pool, HandleLookup(ep, w).1, HandleLookup(ep, w).0.Cancelled?);
  }

  /** The balance does not depend on the cache. */
  lemma PoolFree(w: World, pool: Pool, w': World, cancelled: bool)
    requires Balanced(w.(pool := pool), w', cancelled)
    ensures Balanced(w, w', cancelled)
  {
  }

  lemma AskBalanced(topic: string, w: World, query: Query)
    ensures var (out, w') := Ask(topic, w, query); Balanced(w, w', out.Cancelled?)
  {
    hide Balanced, Issue, Connect;
    var c := Connect(w.pool, w.settings.uri, w.settings.uri);
    IssueBalanced(w.(pool := c.pool), Registry(topic, c.channel, query));
    PoolFree(w, c.pool, Ask(topic, w, query).1, Ask(topic, w, query).0.Cancelled?);
  }

  lemma RegistrationBalanced(ep: Endpoint, w: World)
    ensures var r := Registration(ep, w); Balanced(w, r.w, r.out.Cancelled?)
  {
    hide Balanced, Issue, Connect, Header;
    var c := Connect(w.pool, ep.route.brokerUrl, ep.route.connectUrl);
    var q := RegisterRequest(ep, w.settings, c.channel);
    IssueBalanced(w.(pool := c.pool), q);
    PoolFree(w, c.pool, Registration(ep, w).w, Registration(ep, w).out.Cancelled?);
  }

  lemma Chain(u: World, v: World, w: World, cancelled: bool)
    requires Balanced(u, v, false) && Balanced(v, w, cancelled)
    ensures Balanced(u, w, cancelled)
  {
  }

  lemma ResolveBalanced(topic: string, ref: SchemaRef, w: World)
    ensures var (out, w') := ResolveSchema(topic, ref, w); Balanced(w, w', out.Cancelled?)
  {
    hide Balanced, Ask;
    var (latest, w') := Ask(topic, w, LatestOf(ref.subject));
    AskBalanced(topic, w, LatestOf(ref.subject));
    if latest.Ok? && ref.Pinned? && ref.version < latest.value.version {
      var query := VersionOf(latest.value.schemaId, ref.version);
      AskBalanced(topic, w', query);
      Chain(w, w', Ask(topic, w', query).1, Ask(topic, w', query).0.Cancelled?);
    }
  }

  lemma TryCreateBalanced(ep: Endpoint, w: World)
    ensures var t := TryCreate(ep, w); Balanced(w, t.w, t.out.Cancelled?)
  {
    hide Balanced, Registration, ResolveSchema, Connect;
    var r := Registration(ep, w);
    RegistrationBalanced(ep, w);
    if r.out.Ok? {
      var h := StartHealthCheck(r.ep, r.w);
      HealthBalanced(r.ep, r.w);
      if r.ep.schemaRef.Some? {
        var (out, w') := ResolveSchema(r.ep.topic, r.ep.schemaRef.value, h.w);
        ResolveBalanced(r.ep.topic, r.ep.schemaRef.value, h.w);
        Chain(r.w, h.w, w', out.Cancelled?);
        Chain(w, r.w, w', out.Cancelled?);
      } else {
        Chain(w, r.w, h.w, false);
      }
    }
  }

  lemma HealthBalanced(ep: Endpoint, w: World)
    ensures Balanced(w, StartHealthCheck(ep, w).w, false)
  {
  }

  lemma PauseBalanced(ep: Endpoint, w: World, retry: RetryManager, attempt: nat)
    ensures var p := Pause(ep, w, retry, attempt); Balanced(w, p.w, p.out.Cancelled?)
  {
    hide Balanced, Issue;
    IssueBalanced(w, Sleep(ep.topic, retry.Low(attempt), retry.High(attempt)));
  }

  lemma RecoverBalanced(ep: Endpoint, w: World, attempt: nat)
    ensures var r := Recover(ep, w, attempt); Balanced(w, r.w, r.out.Cancelled?)
  {
    hide Balanced, LookupNewBroker, Pause;
    var l := LookupNewBroker(ep, w);
    LookupBalanced(ep, w);
    if !l.out.Cancelled? {
      var p := Pause(l.ep, l.w, ep.retry, attempt);
      PauseBalanced(l.ep, l.w, ep.retry, attempt);
      Chain(w, l.w, p.w, p.out.Cancelled?);
    }
  }

  lemma {:induction false} CreateLoopBalanced(ep: Endpoint, w: World, attempts: nat)
    requires attempts <= ep.retry.maxRetries
    ensures var c := CreateLoop(ep, w, attempts); Balanced(w, c.w, c.out.Cancelled?)
    decreases ep.retry.maxRetries - attempts
  {
    hide Balanced, TryCreate, Recover;
    var t := TryCreate(ep, w);
    TryCreateBalanced(ep, w);
    if !Final(ep, t.out, attempts) {
      var r := Recover(t.ep, t.w, attempts);
      RecoverBalanced(t.ep, t.w, attempts);
      Chain(w, t.w, r.w, r.out.Cancelled?);
      if !r.out.Cancelled? {
        CreateLoopBalanced(r.ep, r.w, attempts + 1);
        var c := CreateLoop(r.ep, r.w, attempts + 1);
        Chain(w, r.w, c.w, c.out.Cancelled?);
      }
    }
  }

  lemma CreateBalanced(ep: Endpoint, w: World)
    requires ep.retry.maxRetries >= 0
    ensures var c := Create(ep, w); Balanced(w, c.w, c.out.Cancelled?)
  {
    hide Balanced, HandleLookup, CreateLoop;
    var l := LookupNewBroker(ep, w);
    LookupBalanced(ep, w);
    if !l.out.Cancelled? {
      CreateLoopBalanced(l.ep, l.w, 0);
      var c := CreateLoop(l.ep, l.w, 0);
      Chain(w, l.w, c.w, c.out.Cancelled?);
    }
  }

  lemma SendOnceBalanced(ep: Endpoint, w: World, body: Body)
    ensures var s := SendOnce(ep, w, body); Balanced(w, s.w, s.out.Cancelled?)
  {
    hide Balanced, Issue, Header, Compose;
    if ep.stub.None? {
      Same(w);
    } else {
      IssueBalanced(w, PublishRequest(ep, w, body));
    }
  }

  lemma Same(w: World)
    ensures Balanced(w, w, false)
  {
  }
}
