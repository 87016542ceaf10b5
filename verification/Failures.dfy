/** The ways in which `send` can fail, read off the end of the trace. */
module Failures {
  import opened Wire
  import opened Retry
  import opened Connections
  import opened Network
  import opened Endpoint
  import opened EndpointHistory
  import opened EndpointBudget
  import opened Sending
  import opened Delivery

  /** A publish of this topic that was answered with a retryable error. */
  predicate RetryableFailure(e: Event, topic: string, retry: RetryManager) {
    && e.request.Publish? && e.request.topic == topic
    && e.reply.verdict.Failed? && retry.IsRetryable(Rpc(e.reply.verdict.status))
  }

  /** `trace` is `base` followed by `n` pairs of a retryable publish failure and a backoff, the
      k-th backoff being drawn from the range of `calculate_backoff(k)`. */
  predicate Streak(base: seq<Event>, trace: seq<Event>, topic: string, retry: RetryManager, n: nat)
    decreases n
  {
    if n == 0 then trace == base
    else
      && |trace| >= 2
      && trace[|trace| - 1].request == Sleep(topic, retry.Low(n - 1), retry.High(n - 1))
      && RetryableFailure(trace[|trace| - 2], topic, retry)
      && Streak(base, trace[..|trace| - 2], topic, retry, n - 1)
  }

  /** `trace` is `base`, then `max_retries + 1` retryable failures with a backoff between any two,
      the last one being `error`, then a lookup that failed. */
  predicate Exhausted(base: seq<Event>, trace: seq<Event>, topic: string, retry: RetryManager, error: Error) {
    var n := |trace|;
    && n >= 2 && retry.maxRetries >= 0
    && trace[n - 1].request.Lookup? && trace[n - 1].request.topic == topic && !trace[n - 1].reply.verdict.Served?
    && RetryableFailure(trace[n - 2], topic, retry) && error == Rpc(trace[n - 2].reply.verdict.status)
    && Streak(base, trace[..n - 2], topic, retry, retry.maxRetries)
  }

  /** The last thing that happened was a registration, or a registry query of a registration. */
  predicate EndsInCreate(trace: seq<Event>, topic: string) {
    && trace != []
    && (trace[|trace| - 1].request.Register? || trace[|trace| - 1].request.Registry?)
    && trace[|trace| - 1].request.topic == topic
  }

  /** The broker refused the last publish with an error that is not retryable. */
  predicate Refused(trace: seq<Event>, topic: string, retry: RetryManager, error: Error) {
    && trace != []
    && trace[|trace| - 1].request.Publish? && trace[|trace| - 1].request.topic == topic
    && OutcomeOf<nat>(trace[|trace| - 1].reply.verdict, 0) == Raised(error) && !retry.IsRetryable(error)
  }

  lemma RegistrationEnds(ep: Endpoint, w: World)
    ensures EndsInCreate(Registration(ep, w).w.trace, ep.topic)
  {
    hide Connect, Replay;
  }

  lemma ResolveEnds(topic: string, ref: SchemaRef, w: World)
    ensures EndsInCreate(ResolveSchema(topic, ref, w).1.trace, topic)
  {
    hide Connect, Replay;
  }

  lemma TryCreateEnds(ep: Endpoint, w: World)
    ensures EndsInCreate(TryCreate(ep, w).w.trace, ep.topic) && TryCreate(ep, w).ep.topic == ep.topic
  {
    RegistrationEnds(ep, w);
    SameTopic(ep, w);
    var r := Registration(ep, w);
    assert r.ep.topic == ep.topic && r.ep.schemaRef == ep.schemaRef;
    hide Registration, ResolveSchema, Connect, EndsInCreate;
    if r.out.Ok? && r.ep.schemaRef.Some? {
      ResolveEnds(ep.topic, r.ep.schemaRef.value, StartHealthCheck(r.ep, r.w).w);
    }
  }

  lemma {:induction false} CreateLoopEnds(ep: Endpoint, w: World, attempts: nat)
    requires attempts <= ep.retry.maxRetries
    ensures var c := CreateLoop(ep, w, attempts); !c.out.Cancelled? ==> EndsInCreate(c.w.trace, ep.topic)
    decreases ep.retry.maxRetries - attempts
  {
    hide TryCreate, Recover, EndsInCreate;
    TryCreateEnds(ep, w);
    SameTopic(ep, w);
    var t := TryCreate(ep, w);
    if !Final(ep, t.out, attempts) {
      var r := Recover(t.ep, t.w, attempts);
      if !r.out.Cancelled? {
        CreateLoopEnds(r.ep, r.w, attempts + 1);
      }
    }
  }

  lemma CreateEnds(ep: Endpoint, w: World)
    requires ep.retry.maxRetries >= 0
    ensures var c := Create(ep, w); !c.out.Cancelled? ==> EndsInCreate(c.w.trace, ep.topic)
  {
    hide CreateLoop, EndsInCreate, HandleLookup;
    var l := LookupNewBroker(ep, w);
    if !l.out.Cancelled? {
      CreateLoopEnds(l.ep, l.w, 0);
    }
  }

  /** A failed publish as the trace shows it. */
  lemma SendOnceFails(ep: Endpoint, w: World, body: Body, retry: RetryManager)
    requires ep.stub.Some?
    ensures var s := SendOnce(ep, w, body);
            s.out.Raised? ==>
              && |s.w.trace| == |w.trace| + 1 && s.w.trace[..|w.trace|] == w.trace
              && !s.out.error.Unrecoverable?
              && (retry.IsRetryable(s.out.error) ==>
                    && RetryableFailure(s.w.trace[|w.trace|], ep.topic, retry)
                    && s.out.error == Rpc(s.w.trace[|w.trace|].reply.verdict.status))
              && (!retry.IsRetryable(s.out.error) ==> Refused(s.w.trace, ep.topic, retry, s.out.error))
  {
  }

  lemma PauseTrace(ep: Endpoint, w: World, retry: RetryManager, attempt: nat)
    ensures var p := Pause(ep, w, retry, attempt);
            && |p.w.trace| == |w.trace| + 1 && p.w.trace[..|w.trace|] == w.trace
            && p.w.trace[|w.trace|].request == Sleep(ep.topic, retry.Low(attempt), retry.High(attempt))
  {
  }

  lemma LookupTrace(ep: Endpoint, w: World)
    ensures var l := LookupNewBroker(ep, w);
            && |l.w.trace| == |w.trace| + 1 && l.w.trace[..|w.trace|] == w.trace
            && l.w.trace[|w.trace|].request.Lookup? && l.w.trace[|w.trace|].request.topic == ep.topic
            && (HandleLookup(ep, w).0.Raised? ==> !l.w.trace[|w.trace|].reply.verdict.Served?)
  {
  }

  lemma StreakGrows(base: seq<Event>, trace: seq<Event>, longer: seq<Event>, topic: string, retry: RetryManager, n: nat)
    requires Streak(base, trace, topic, retry, n)
    requires |longer| == |trace| + 2 && longer[..|trace|] == trace
    requires longer[|trace| + 1].request == Sleep(topic, retry.Low(n), retry.High(n))
    requires RetryableFailure(longer[|trace|], topic, retry)
    ensures Streak(base, longer, topic, retry, n + 1)
  {
    assert longer[..|longer| - 2] == trace;
  }

  /** `w1` is a point between `w` and the end of the call; a `create` that began there failed
      with the call's error, and this is its exact account. */
  predicate CreateFailed(ep: Endpoint, w: World, w1: World, r: Sent) {
    && w.trace <= w1.trace <= r.w.trace
    && CreateAccount(Seen(w1, ep.topic), Seen(r.w, ep.topic), ep.retry, r.out)
    && EndsInCreate(r.w.trace, ep.topic)
  }

  /** No premature failure.  An error leaves `send` in one of three ways: the broker refused the
      publish outright; or `max_retries + 1` publishes in a row failed, since the call began or
      since the last recreation, and the lookup after them failed as well; or a recreation used up
      its own tries.  `base` is where the run of failures counted by `attempts` began. */
  lemma {:induction false} WhySendFails(ep: Endpoint, w: World, body: Body, retry: RetryManager, attempts: nat,
                                        base: seq<Event>)
    returns (start: seq<Event>, w1: World)
    requires ep.retry == retry && retry.Valid() && attempts <= retry.maxRetries && ep.stub.Some?
    requires Streak(base, w.trace, ep.topic, retry, attempts)
    ensures start == base || (EndsInCreate(start, ep.topic) && w.trace <= start)
    ensures var r := SendLoop(ep, w, body, retry, attempts);
            r.out.Raised? ==>
              || Refused(r.w.trace, ep.topic, retry, r.out.error)
              || Exhausted(start, r.w.trace, ep.topic, retry, r.out.error)
              || CreateFailed(ep, w, w1, r)
    decreases |w.script|
  {
    hide Recreate, Pause, SendOnce, Replay, CreateAccount;
    var t := ep.topic;
    var r := SendLoop(ep, w, body, retry, attempts);
    var s := SendOnce(ep, w, body);
    start, w1 := base, w;
    SendOnceShrinks(ep, w, body);
    SendOnceFails(ep, w, body, retry);
    SendOnceStub(ep, w, body);
    if s.out.Raised? {
      if NeedsRecreation(s.out.error, retry, attempts) {
        var c := Recreate(s.ep, s.w, s.out.error);
        w1 := WhyRecreateFails(s.ep, s.w, s.out.error);
        Prefixes(w.trace, s.w.trace, w1.trace);
        Prefixes(w.trace, s.w.trace, c.w.trace);
        if c.out.Ok? {
          RecreateIdentity(s.ep, s.w, s.out.error);
          start, w1 := WhySendFails(c.ep, c.w, body, retry, 0, c.w.trace);
          Prefixes(w.trace, c.w.trace, start);
          Prefixes(w.trace, c.w.trace, w1.trace);
        } else if c.out.Raised? && !EndsInCreate(c.w.trace, t) {
          assert c.w.trace[..|c.w.trace| - 2] == w.trace;
        }
      } else if retry.IsRetryable(s.out.error) {
        var p := Pause(s.ep, s.w, retry, attempts);
        PauseShrinks(s.ep, s.w, retry, attempts);
        PauseTrace(s.ep, s.w, retry, attempts);
        if !p.out.Cancelled? {
          assert p.w.trace[..|w.trace|] == w.trace;
          assert p.w.trace[|w.trace|] == s.w.trace[|w.trace|];
          StreakGrows(base, w.trace, p.w.trace, t, retry, attempts);
          start, w1 := WhySendFails(p.ep, p.w, body, retry, attempts + 1, base);
          Prefixes(w.trace, p.w.trace, start);
          Prefixes(w.trace, p.w.trace, w1.trace);
        }
      }
    }
  }

  lemma Prefixes(a: seq<Event>, b: seq<Event>, c: seq<Event>)
    requires |a| <= |b| && b[..|a|] == a
    ensures a <= b
    ensures b <= c ==> a <= c
  {
  }

  lemma SendOnceStub(ep: Endpoint, w: World, body: Body)
    ensures SendOnce(ep, w, body).ep == ep.(nextRequest := SendOnce(ep, w, body).ep.nextRequest)
  {
  }

  /** A recreation after a retryable error ends inside `create`, or its lookup failed and the
      original error stands. */
  lemma WhyRecreateFails(ep: Endpoint, w: World, error: Error) returns (w1: World)
    requires ep.retry.Valid() && !error.Unrecoverable?
    ensures w.trace <= w1.trace <= Recreate(ep, w, error).w.trace
    ensures var c := Recreate(ep, w, error);
            && (c.out.Ok? ==> EndsInCreate(c.w.trace, ep.topic) && c.ep.stub.Some?)
            && (c.out.Raised? ==>
                 || (&& CreateAccount(Seen(w1, ep.topic), Seen(c.w, ep.topic), ep.retry, c.out)
                     && EndsInCreate(c.w.trace, ep.topic))
                 || (&& c.out.error == error
                     && |c.w.trace| == |w.trace| + 1 && c.w.trace[..|w.trace|] == w.trace
                     && c.w.trace[|w.trace|].request.Lookup? && c.w.trace[|w.trace|].request.topic == ep.topic
                     && !c.w.trace[|w.trace|].reply.verdict.Served?))
  {
    hide Create, HandleLookup, LookupAndRecreate, LookupNewBroker, Replay, CreateAccount, EndsInCreate;
    w1 := w;
    RecreateExtends(ep, w, error);
    RecreateIsLookupThenCreate(ep, w, error);
    LookupTrace(ep, w);
    var l := LookupNewBroker(ep, w);
    if HandleLookup(ep, w).0.Ok? {
      w1 := l.w;
      CreateExtends(l.ep, l.w);
      CreateExact(l.ep, l.w);
      CreateEnds(l.ep, l.w);
      CreateConnects(l.ep, l.w);
    }
  }

  lemma RecreateExtends(ep: Endpoint, w: World, error: Error)
    requires ep.retry.Valid()
    ensures w.trace <= Recreate(ep, w, error).w.trace
  {
    hide Recreate;
    RecreateAdvances(ep, w, error);
  }

  lemma CreateExtends(ep: Endpoint, w: World)
    requires ep.retry.Valid()
    ensures w.trace <= Create(ep, w).w.trace
  {
    hide Create;
    CreateAdvances(ep, w);
  }

  /** The endpoint is connected, and its latest health check watches the id it returned over the
      same channel. */
  predicate Up(s: Step<nat>) {
    s.out.Ok? ==>
      && s.ep.stub.Some? && s.out.value == s.ep.clientId
      && s.ep.health == Some(HealthTask(s.ep.stub.value, s.ep.route, s.ep.clientId))
  }

  /** A `create` or `subscribe` that returns has connected the endpoint and started its watch. */
  lemma CreateConnects(ep: Endpoint, w: World)
    requires ep.retry.maxRetries >= 0
    ensures Up(Create(ep, w))
  {
    hide CreateLoop;
    var l := LookupNewBroker(ep, w);
    if !l.out.Cancelled? {
      CreateLoopConnects(l.ep, l.w, 0);
    }
  }

  lemma {:induction false} CreateLoopConnects(ep: Endpoint, w: World, attempts: nat)
    requires attempts <= ep.retry.maxRetries
    ensures Up(CreateLoop(ep, w, attempts))
    decreases ep.retry.maxRetries - attempts
  {
    TryCreateConnects(ep, w);
    hide TryCreate, Recover;
    var t := TryCreate(ep, w);
    if !Final(ep, t.out, attempts) {
      var r := Recover(t.ep, t.w, attempts);
      if !r.out.Cancelled? {
        CreateLoopConnects(r.ep, r.w, attempts + 1);
      }
    }
  }

  lemma TryCreateConnects(ep: Endpoint, w: World)
    ensures Up(TryCreate(ep, w))
  {
    hide ResolveSchema, Connect, Replay, Header;
  }

  lemma {:induction false} StreakKeepsRoute(base: seq<Event>, trace: seq<Event>, topic: string, retry: RetryManager,
                                            n: nat, uri: string)
    requires Streak(base, trace, topic, retry, n)
    ensures Replay(trace, topic, uri).route == Replay(base, topic, uri).route
    ensures Replay(trace, topic, uri).dialled == Replay(base, topic, uri).dialled
    decreases n
  {
    if n > 0 {
      var k := |trace|;
      StreakKeepsRoute(base, trace[..k - 2], topic, retry, n - 1, uri);
      assert trace[..k - 1][..k - 2] == trace[..k - 2];
      assert Replay(trace[..k - 1], topic, uri).route == Replay(trace[..k - 2], topic, uri).route;
    }
  }

  /** When the retries are used up and the lookup fails, routing and channel are untouched. */
  lemma ExhaustionKeepsRoute(base: seq<Event>, trace: seq<Event>, topic: string, retry: RetryManager, error: Error,
                             uri: string)
    requires Exhausted(base, trace, topic, retry, error)
    ensures Replay(trace, topic, uri).route == Replay(base, topic, uri).route
    ensures Replay(trace, topic, uri).dialled == Replay(base, topic, uri).dialled
  {
    var k := |trace|;
    StreakKeepsRoute(base, trace[..k - 2], topic, retry, retry.maxRetries, uri);
    assert trace[..k - 1][..k - 2] == trace[..k - 2];
    assert Replay(trace[..k - 1], topic, uri).route == Replay(trace[..k - 2], topic, uri).route;
  }

  /** A call returns the id with which the broker answered its last request, a publish of this
      body. */
  lemma {:induction false} SendReturns(ep: Endpoint, w: World, body: Body, retry: RetryManager, attempts: nat)
    requires ep.retry.Valid() && retry.Valid() && attempts <= retry.maxRetries
    ensures var r := SendLoop(ep, w, body, retry, attempts);
            r.out.Ok? ==>
              && r.w.trace != []
              && var e := r.w.trace[|r.w.trace| - 1];
                 e.request.Publish? && e.request.topic == ep.topic && e.request.message.body == body
                 && e.reply.verdict.Served? && e.reply.id == r.out.value
    decreases |w.script|
  {
    hide Recreate, Pause, Replay, Connect;
    var s := SendOnce(ep, w, body);
    SendOnceShrinks(ep, w, body);
    if s.out.Raised? {
      hide SendOnce;
      if NeedsRecreation(s.out.error, retry, attempts) {
        var c := Recreate(s.ep, s.w, s.out.error);
        RecreateIdentity(s.ep, s.w, s.out.error);
        if c.out.Ok? {
          SendReturns(c.ep, c.w, body, retry, 0);
        }
      } else if retry.IsRetryable(s.out.error) {
        var p := Pause(s.ep, s.w, retry, attempts);
        PauseShrinks(s.ep, s.w, retry, attempts);
        if !p.out.Cancelled? {
          SendReturns(p.ep, p.w, body, retry, attempts + 1);
        }
      }
    }
  }

  /** A registration that the broker refuses because the name is taken ends `create` at once with
      an unrecoverable error. */
  lemma TakenNameIsFinal(ep: Endpoint, w: World, attempts: nat)
    requires attempts <= ep.retry.maxRetries && w.script != [] && w.script[0].verdict == Failed(AlreadyExists)
    ensures var c := CreateLoop(ep, w, attempts);
            c.out == Raised(Unrecoverable) && |c.w.trace| == |w.trace| + 1
  {
    hide Connect, Replay, Recover;
    var t := TryCreate(ep, w);
    assert t.out == Raised(Unrecoverable);
  }

  /** The request that ended a try of `create` failed with a retryable error. */
  predicate RetryableEnd(e: Event, topic: string, retry: RetryManager) {
    && (e.request.Register? || e.request.Registry?) && e.request.topic == topic
    && e.reply.verdict.Failed? && retry.IsRetryable(Rpc(e.reply.verdict.status))
  }

  /** From position `from` on, every backoff comes right after a lookup that comes right after a
      retryable failure. */
  predicate BacksOffOnlyToRetry(trace: seq<Event>, from: nat, topic: string, retry: RetryManager) {
    forall i :: from <= i < |trace| && trace[i].request.Sleep? ==>
      i >= from + 2 && trace[i - 1].request.Lookup? && RetryableEnd(trace[i - 2], topic, retry)
  }

  /** What one try adds: no backoff, and at the end the reason of its failure. */
  lemma TryCreateTail(ep: Endpoint, w: World)
    requires ep.retry.Valid()
    ensures var t := TryCreate(ep, w);
            && w.trace < t.w.trace && t.ep.topic == ep.topic
            && (forall i :: |w.trace| <= i < |t.w.trace| ==> !t.w.trace[i].request.Sleep?)
            && (t.out.Raised? && ep.retry.IsRetryable(t.out.error) ==>
                  RetryableEnd(t.w.trace[|t.w.trace| - 1], ep.topic, ep.retry))
  {
    hide Replay, Connect, ResolveSchema;
    var r := Registration(ep, w);
    SameTopic(ep, w);
    if r.out.Ok? && ep.schemaRef.Some? {
      ResolveTail(ep.topic, ep.schemaRef.value, StartHealthCheck(r.ep, r.w).w, ep.retry);
    }
  }

  lemma ResolveTail(topic: string, ref: SchemaRef, w: World, retry: RetryManager)
    ensures var (out, w') := ResolveSchema(topic, ref, w);
            && w.trace < w'.trace
            && (forall i :: |w.trace| <= i < |w'.trace| ==> !w'.trace[i].request.Sleep?)
            && (out.Raised? && retry.IsRetryable(out.error) ==> RetryableEnd(w'.trace[|w'.trace| - 1], topic, retry))
  {
    hide Replay, Connect;
  }

  lemma RecoverTail(ep: Endpoint, w: World, attempt: nat)
    ensures var r := Recover(ep, w, attempt);
            && w.trace < r.w.trace && |r.w.trace| <= |w.trace| + 2
            && r.w.trace[|w.trace|].request.Lookup?
            && (!r.out.Cancelled? ==> |r.w.trace| == |w.trace| + 2)
  {
    hide Replay, Connect;
  }

  lemma BackoffJoins(a: seq<Event>, b: seq<Event>, c: seq<Event>, d: seq<Event>, topic: string, retry: RetryManager)
    requires a < b < c <= d && |c| <= |b| + 2
    requires forall i :: |a| <= i < |b| ==> !b[i].request.Sleep?
    requires RetryableEnd(b[|b| - 1], topic, retry) && c[|b|].request.Lookup?
    requires BacksOffOnlyToRetry(d, |c|, topic, retry)
    ensures BacksOffOnlyToRetry(d, |a|, topic, retry)
  {
    forall i | |a| <= i < |d| && d[i].request.Sleep?
      ensures i >= |a| + 2 && d[i - 1].request.Lookup? && RetryableEnd(d[i - 2], topic, retry)
    {
      if |b| <= i < |c| {
        assert d[i] == c[i] && d[|b|] == c[|b|] && d[|b| - 1] == b[|b| - 1];
      }
    }
  }

  /** `create` backs off and tries again after retryable failures and after nothing else. */
  lemma {:induction false} CreateRetriesOnlyRetryable(ep: Endpoint, w: World, attempts: nat)
    requires ep.retry.Valid() && attempts <= ep.retry.maxRetries
    ensures BacksOffOnlyToRetry(CreateLoop(ep, w, attempts).w.trace, |w.trace|, ep.topic, ep.retry)
    decreases ep.retry.maxRetries - attempts
  {
    hide TryCreate, Recover, RetryableEnd, Advances, OthersKept;
    var c := CreateLoop(ep, w, attempts);
    var t := TryCreate(ep, w);
    TryCreateTail(ep, w);
    SameTopic(ep, w);
    if !Final(ep, t.out, attempts) {
      var r := Recover(t.ep, t.w, attempts);
      RecoverTail(t.ep, t.w, attempts);
      if !r.out.Cancelled? {
        CreateRetriesOnlyRetryable(r.ep, r.w, attempts + 1);
        LoopExtends(r.ep, r.w, attempts + 1);
      }
      BackoffJoins(w.trace, t.w.trace, r.w.trace, c.w.trace, ep.topic, ep.retry);
    }
  }

  lemma LoopExtends(ep: Endpoint, w: World, attempts: nat)
    requires ep.retry.Valid() && attempts <= ep.retry.maxRetries
    ensures w.trace <= CreateLoop(ep, w, attempts).w.trace
  {
    hide CreateLoop;
    CreateLoopAdvances(ep, w, attempts);
  }
}
