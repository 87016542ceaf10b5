/** How much one `create` (or `subscribe`) asks of the environment, and how its retries end. */
module EndpointBudget {
  import opened Wire
  import opened Retry
  import opened Connections
  import opened Network
  import opened Endpoint
  import opened EndpointHistory

  /** The channel and the routing fields belong together. */
  predicate InSync(v: View) {
    v.dialled.Some? && v.dialledAt == v.route
  }

  /** Nothing was published between these two views. */
  predicate NothingSent(v: View, v': View) {
    v'.publishes == v.publishes && v'.log == v.log && v'.strays == v.strays
  }

  /** What one try of `create` adds to the history. */
  predicate OneTry(v: View, v': View) {
    && NothingSent(v, v')
    && v'.registers == v.registers + 1 && v'.lookups == v.lookups && v'.sleeps == v.sleeps && v'.slept == v.slept
    && v.queries <= v'.queries <= v.queries + 2
    && v'.route == v.route && InSync(v')
  }

  lemma RegistrationView(ep: Endpoint, w: World)
    ensures OneTry(Seen(w, ep.topic), Seen(Registration(ep, w).w, ep.topic))
    ensures Seen(Registration(ep, w).w, ep.topic).queries == Seen(w, ep.topic).queries
  {
    hide Connect, WellFormed, Replay, Issue;
    var c := Connect(w.pool, ep.route.brokerUrl, ep.route.connectUrl);
    var q := RegisterRequest(ep, w.settings, c.channel);
    var i := Issue(w.(pool := c.pool), q);
    assert Registration(ep, w).w == i.w;
    assert Seen(i.w, ep.topic) == Observe(Seen(w, ep.topic), Event(q, i.reply));
  }

  /** Only the number of registry queries differs. */
  predicate Asked(v: View, v': View, n: nat) {
    v' == v.(queries := v'.queries) && v.queries <= v'.queries <= v.queries + n
  }

  lemma ResolveView(topic: string, ref: SchemaRef, w: World)
    ensures Asked(Seen(w, topic), Seen(ResolveSchema(topic, ref, w).1, topic), 2)
  {
    hide Connect, WellFormed;
    AskView(topic, w, LatestOf(ref.subject));
    var (latest, w') := Ask(topic, w, LatestOf(ref.subject));
    if latest.Ok? && ref.Pinned? && ref.version < latest.value.version {
      AskView(topic, w', VersionOf(latest.value.schemaId, ref.version));
    }
  }

  lemma AskView(topic: string, w: World, query: Query)
    ensures Asked(Seen(w, topic), Seen(Ask(topic, w, query).1, topic), 1)
  {
    hide Connect, WellFormed;
  }

  lemma TryCreateView(ep: Endpoint, w: World)
    ensures OneTry(Seen(w, ep.topic), Seen(TryCreate(ep, w).w, ep.topic))
  {
    hide Registration, ResolveSchema, Replay, Connect, WellFormed;
    RegistrationView(ep, w);
    var r := Registration(ep, w);
    RegistrationAdvances(ep, w);
    if r.out.Ok? {
      var h := StartHealthCheck(r.ep, r.w);
      if ep.schemaRef.Some? {
        ResolveView(ep.topic, ep.schemaRef.value, h.w);
      }
    }
  }

  /** What `Recover` adds to the history. */
  predicate OneRecovery(v: View, v': View, retry: RetryManager, attempt: nat, cancelled: bool) {
    && NothingSent(v, v') && v'.registers == v.registers && v'.queries == v.queries
    && v'.dialled == v.dialled && v'.dialledAt == v.dialledAt
    && v'.lookups == v.lookups + 1
    && if cancelled then v.sleeps <= v'.sleeps <= v.sleeps + 1
       else v'.sleeps == v.sleeps + 1 && retry.Low(attempt) <= v'.slept - v.slept <= retry.High(attempt)
  }

  lemma PauseView(ep: Endpoint, w: World, retry: RetryManager, attempt: nat)
    requires retry.Valid()
    ensures var v, v' := Seen(w, ep.topic), Seen(Pause(ep, w, retry, attempt).w, ep.topic);
            && v' == v.(sleeps := v.sleeps + 1, slept := v'.slept)
            && retry.Low(attempt) <= v'.slept - v.slept <= retry.High(attempt)
  {
    BackoffRange(retry, attempt);
  }

  lemma LookupView(ep: Endpoint, w: World)
    ensures var l, v := LookupNewBroker(ep, w), Seen(w, ep.topic);
            Seen(l.w, ep.topic) == v.(lookups := v.lookups + 1, route := Seen(l.w, ep.topic).route)
  {
    hide Connect, WellFormed, Replay, Issue;
    var addr := ep.route.connectUrl;
    var c := Connect(w.pool, addr, addr);
    var q := Lookup(ep.topic, c.channel, addr);
    var i := Issue(w.(pool := c.pool), q);
    assert LookupNewBroker(ep, w).w == i.w;
    assert Seen(i.w, ep.topic) == Observe(Seen(w, ep.topic), Event(q, i.reply));
  }

  lemma RecoverView(ep: Endpoint, w: World, attempt: nat)
    requires ep.retry.Valid()
    ensures var r := Recover(ep, w, attempt);
            OneRecovery(Seen(w, ep.topic), Seen(r.w, ep.topic), ep.retry, attempt, r.out.Cancelled?)
  {
    hide Pause, Replay, Connect, WellFormed;
    var l := LookupNewBroker(ep, w);
    LookupView(ep, w);
    if !l.out.Cancelled? {
      PauseView(l.ep, l.w, ep.retry, attempt);
    }
  }

  /** The account of the retry loop entered with counter `a` and left with outcome `out`. */
  predicate LoopAccount(v: View, v': View, retry: RetryManager, a: nat, out: Outcome<nat>) {
    var tries := v'.registers - v.registers;
    && NothingSent(v, v')
    && 1 <= tries <= retry.maxRetries + 1 - a
    && v.queries <= v'.queries <= v.queries + 2 * tries
    && (if out.Cancelled? then
          && tries - 1 <= v'.lookups - v.lookups <= retry.maxRetries - a
          && tries - 1 <= v'.sleeps - v.sleeps <= retry.maxRetries - a
        else
          && v'.lookups - v.lookups == tries - 1
          && v'.sleeps - v.sleeps == tries - 1
          && SumLow(retry, a, tries - 1) <= v'.slept - v.slept <= SumHigh(retry, a, tries - 1)
          && InSync(v'))
    && (out.Raised? && retry.IsRetryable(out.error) ==> tries == retry.maxRetries + 1 - a)
  }

  lemma {:induction false} CreateLoopAccount(ep: Endpoint, w: World, attempts: nat)
    requires ep.retry.Valid() && attempts <= ep.retry.maxRetries
    ensures var c := CreateLoop(ep, w, attempts);
            LoopAccount(Seen(w, ep.topic), Seen(c.w, ep.topic), ep.retry, attempts, c.out)
    decreases ep.retry.maxRetries - attempts
  {
    hide TryCreate, Recover, Replay, Advances;
    var t := TryCreate(ep, w);
    TryCreateView(ep, w);
    SameTopic(ep, w);
    if !Final(ep, t.out, attempts) {
      RecoverView(t.ep, t.w, attempts);
      var r := Recover(t.ep, t.w, attempts);
      if !r.out.Cancelled? {
        CreateLoopAccount(r.ep, r.w, attempts + 1);
      }
    }
  }

  lemma SameTopic(ep: Endpoint, w: World)
    ensures TryCreate(ep, w).ep.topic == ep.topic
    ensures forall e: Endpoint, u: World, a: nat :: Recover(e, u, a).ep.topic == e.topic
  {
    hide Connect, WellFormed, Replay;
  }

  /** The account of a whole `create` or `subscribe`. */
  predicate CreateAccount(v: View, v': View, retry: RetryManager, out: Outcome<nat>) {
    var tries := v'.registers - v.registers;
    && NothingSent(v, v')
    && 0 <= tries <= retry.maxRetries + 1
    && v.queries <= v'.queries <= v.queries + 2 * tries
    && v'.lookups - v.lookups <= retry.maxRetries + 1
    && 0 <= v'.sleeps - v.sleeps <= retry.maxRetries
    && (!out.Cancelled? ==>
          && tries >= 1
          && v'.lookups - v.lookups == tries
          && v'.sleeps - v.sleeps == tries - 1
          && SumLow(retry, 0, tries - 1) <= v'.slept - v.slept <= SumHigh(retry, 0, tries - 1)
          && InSync(v'))
    && (out.Raised? && retry.IsRetryable(out.error) ==> tries == retry.maxRetries + 1)
  }

  /** Every exit: as many lookups as tries, one sleep fewer, at most `max_retries + 1` tries, the
      total backoff within the sums of the jitter ranges, channel and route in agreement; a
      retryable error is raised only when every try has been used. */
  lemma CreateExact(ep: Endpoint, w: World)
    requires ep.retry.Valid()
    ensures var c := Create(ep, w);
            CreateAccount(Seen(w, ep.topic), Seen(c.w, ep.topic), ep.retry, c.out)
  {
    hide CreateLoop, Replay;
    var l := LookupNewBroker(ep, w);
    LookupView(ep, w);
    if !l.out.Cancelled? {
      CreateLoopAccount(l.ep, l.w, 0);
    }
  }

  /** The time slept is within the closed form: B n(n+1)/2 while the ramp of the n sleeps stays
      below the cap, and M more for each sleep beyond. */
  predicate WithinRamp(v: View, v': View, r: RetryManager)
    requires r.Valid()
  {
    && v'.sleeps >= v.sleeps
    && v'.slept - v.slept
       <= Ramp(r.baseBackoffMs, r.maxBackoffMs, r.maxBackoffMs / r.baseBackoffMs, v'.sleeps - v.sleeps)
  }

  /** The total backoff of a finished `create`. */
  lemma CreateBackoff(ep: Endpoint, w: World)
    requires ep.retry.Valid()
    ensures !Create(ep, w).out.Cancelled? ==> WithinRamp(Seen(w, ep.topic), Seen(Create(ep, w).w, ep.topic), ep.retry)
  {
    hide Create, Replay, Ramp, SumLow, SumHigh;
    CreateExact(ep, w);
    var c := Create(ep, w);
    if !c.out.Cancelled? {
      TotalBackoff(ep.retry, Seen(c.w, ep.topic).sleeps - Seen(w, ep.topic).sleeps);
    }
  }
}
