/** Which channel a message travels on, compared with the broker it is addressed to. */
module Coherence {
  import opened Wire
  import opened Retry
  import opened Connections
  import opened Network
  import opened Endpoint
  import opened EndpointHistory
  import opened EndpointBudget
  import opened Sending
  import opened Delivery

  predicate SameRoute(a: Address, b: Address) {
    a.brokerUrl == b.brokerUrl && a.connectUrl == b.connectUrl
  }

  lemma {:induction false} FaithfulAt(trace: seq<Event>, topic: string, s: Settings, pool: Pool, i: nat)
    requires AllFaithful(trace, topic, s, pool) && i < |trace|
    ensures AllFaithful(trace[..i], topic, s, pool)
    ensures trace[i].request.topic == topic ==> Faithful(Replay(trace[..i], topic, s.uri), trace[i].request, s, pool)
  {
    var before := trace[..|trace| - 1];
    if i < |before| {
      FaithfulAt(before, topic, s, pool, i);
      assert before[..i] == trace[..i] && before[i] == trace[i];
    }
  }

  /** The dialled channel is the cached channel of the route at which it was dialled. */
  lemma {:induction false} DialledHandle(trace: seq<Event>, topic: string, s: Settings, pool: Pool)
    requires AllFaithful(trace, topic, s, pool)
    ensures var v := Replay(trace, topic, s.uri);
            v.dialled.Some? ==> HandleIs(pool, v.dialledAt.brokerUrl, v.dialledAt.connectUrl, v.dialled.value)
  {
    if trace != [] {
      DialledHandle(trace[..|trace| - 1], topic, s, pool);
    }
  }

  /** Exactly when a message travels on the channel of the broker it names: when no successful
      lookup since the last registration has changed the address.  The cache being injective, a
      changed address always means another channel. */
  lemma ChannelFitsIff(w: World, topic: string, i: nat)
    requires Honours(w, topic) && WellFormed(w.pool)
    requires i < |w.trace| && IsPublish(w.trace[i], topic)
    ensures var v := Replay(w.trace[..i], topic, w.settings.uri);
            HandleIs(w.pool, v.route.brokerUrl, v.route.connectUrl, w.trace[i].request.channel)
            <==> SameRoute(v.dialledAt, v.route)
  {
    FaithfulAt(w.trace, topic, w.settings, w.pool, i);
    DialledHandle(w.trace[..i], topic, w.settings, w.pool);
  }

  lemma {:induction false} StraysGrow(trace: seq<Event>, topic: string, uri: string, i: nat)
    requires i < |trace|
    ensures Replay(trace[..i], topic, uri).strays <= Replay(trace, topic, uri).strays
    ensures var v := Replay(trace[..i], topic, uri);
            IsPublish(trace[i], topic) && v.dialledAt != v.route
            ==> v.strays < Replay(trace, topic, uri).strays
  {
    var before := trace[..|trace| - 1];
    if i < |before| {
      StraysGrow(before, topic, uri, i);
      assert before[..i] == trace[..i] && before[i] == trace[i];
    }
  }

  /** A message that goes out over the cached channel of the current route, with that route's header
      and broker address. */
  ghost predicate CoherentAt(w: World, topic: string, i: nat)
    requires i < |w.trace| && IsPublish(w.trace[i], topic)
  {
    var v, q := Replay(w.trace[..i], topic, w.settings.uri), w.trace[i].request;
    && HandleIs(w.pool, v.route.brokerUrl, v.route.connectUrl, q.channel)
    && q.metadata == Header(w.settings, v.route)
    && q.message.brokerAddr == v.route.brokerUrl
  }

  /** With no stray publish in its history, every message of the topic went out over the cached
      channel of the current route, with the header of that route. */
  lemma NoStrays(w: World, topic: string, i: nat)
    requires Honours(w, topic) && Seen(w, topic).strays == 0
    requires i < |w.trace| && IsPublish(w.trace[i], topic)
    ensures CoherentAt(w, topic, i)
  {
    FaithfulAt(w.trace, topic, w.settings, w.pool, i);
    DialledHandle(w.trace[..i], topic, w.settings, w.pool);
    StraysGrow(w.trace, topic, w.settings.uri, i);
  }

  /** A lookup of this topic that was answered. */
  predicate Answers(e: Event, topic: string) {
    e.request.Lookup? && e.request.topic == topic && e.reply.verdict.Served?
  }

  /** The route is the configured URI or one whole lookup answer, never a mixture: the latest
      answer that a lookup of this topic received. */
  lemma {:induction false} RouteIsOneAnswer(trace: seq<Event>, topic: string, uri: string) returns (i: int)
    ensures -1 <= i < |trace|
    ensures var v := Replay(trace, topic, uri);
            if i < 0 then v.route == Address(uri, uri, false)
            else Answers(trace[i], topic) && v.route == trace[i].reply.address
    ensures forall j :: i < j < |trace| ==> !Answers(trace[j], topic)
  {
    if trace == [] {
      i := -1;
    } else {
      var k := |trace| - 1;
      var e := trace[k];
      if Answers(e, topic) {
        i := k;
      } else {
        i := RouteIsOneAnswer(trace[..k], topic, uri);
      }
    }
  }

  // ---- a whole call ----

  /** A call on a connected endpoint starts with a publish. */
  lemma FirstIsPublish(ep: Endpoint, w: World, body: Body, retry: RetryManager, attempts: nat)
    requires ep.retry.Valid() && retry.Valid() && attempts <= retry.maxRetries && ep.stub.Some?
    ensures var r := SendLoop(ep, w, body, retry, attempts);
            w.trace < r.w.trace && IsPublish(r.w.trace[|w.trace|], ep.topic) && r.w.trace[..|w.trace|] == w.trace
  {
    hide Recreate, Pause, Replay, AllFaithful, WellFormed, OthersKept, Mirrors;
    var s := SendOnce(ep, w, body);
    SendOnceShrinks(ep, w, body);
    if s.out.Raised? {
      if NeedsRecreation(s.out.error, retry, attempts) {
        var c := Recreate(s.ep, s.w, s.out.error);
        RecreateAdvances(s.ep, s.w, s.out.error);
        if c.out.Ok? {
          SendLoopAdvances(c.ep, c.w, body, retry, 0);
        }
      } else if retry.IsRetryable(s.out.error) {
        var p := Pause(s.ep, s.w, retry, attempts);
        PauseAdvances(s.ep, s.w, retry, attempts);
        if !p.out.Cancelled? {
          PauseShrinks(s.ep, s.w, retry, attempts);
          SendLoopAdvances(p.ep, p.w, body, retry, attempts + 1);
        }
      }
    }
  }

  /** A call publishes over a channel dialled for another route iff channel and route disagree when
      it starts. */
  lemma CallStraysIff(ep: Endpoint, w: World, body: Body, retry: RetryManager)
    requires ep.retry.Valid() && retry.Valid() && ep.stub.Some? && Mirrors(ep, w)
    ensures var r := SendLoop(ep, w, body, retry, 0);
            Seen(r.w, ep.topic).strays > Seen(w, ep.topic).strays <==> !InSync(Seen(w, ep.topic))
  {
    hide SendLoop, Replay, AllFaithful, WellFormed, OthersKept, Copies;
    var r := SendLoop(ep, w, body, retry, 0);
    SendDelivers(ep, w, body, retry, 0);
    SendLoopAdvances(ep, w, body, retry, 0);
    FirstIsPublish(ep, w, body, retry, 0);
    StraysGrow(r.w.trace, ep.topic, w.settings.uri, |w.trace|);
  }

  /** Channel and route agree, or they are what they were. */
  predicate SameOrAgreed(v: View, v': View) {
    (v'.dialledAt == v.dialledAt && v'.route == v.route) || v'.dialledAt == v'.route
  }

  /** So it is at each publish of the topic from event `from` on. */
  ghost predicate PublishesAgreed(trace: seq<Event>, from: nat, topic: string, uri: string, v: View) {
    forall i :: from <= i < |trace| && IsPublish(trace[i], topic) ==> SameOrAgreed(v, Replay(trace[..i], topic, uri))
  }

  /** Nothing is published between the first two points, all is agreed between the last two. */
  lemma AgreedAfter(a: seq<Event>, b: seq<Event>, c: seq<Event>, topic: string, uri: string, v: View, v': View)
    requires a <= b <= c
    requires Replay(b, topic, uri).publishes == Replay(a, topic, uri).publishes
    requires PublishesAgreed(c, |b|, topic, uri, v') && SameOrAgreed(v, v')
    ensures PublishesAgreed(c, |a|, topic, uri, v)
  {
    hide Replay;
    assert b[..|a|] == a;
    Unpublished(b, |a|, topic, uri);
    assert forall i :: |a| <= i < |b| ==> c[i] == b[i];
  }

  /** One publish in front. */
  lemma AgreedFirst(w: World, w1: World, trace: seq<Event>, topic: string)
    requires w.trace <= w1.trace <= trace && |w1.trace| <= |w.trace| + 1
    requires PublishesAgreed(trace, |w1.trace|, topic, w.settings.uri, Seen(w, topic))
    ensures PublishesAgreed(trace, |w.trace|, topic, w.settings.uri, Seen(w, topic))
  {
    hide Replay;
    assert trace[..|w.trace|] == w.trace;
  }

  lemma OnePublish(ep: Endpoint, w: World, body: Body)
    ensures var s := SendOnce(ep, w, body);
            && w.trace <= s.w.trace && |s.w.trace| <= |w.trace| + 1 && s.w.settings == w.settings
            && SameOrAgreed(Seen(w, ep.topic), Seen(s.w, ep.topic))
            && Seen(s.w, ep.topic).route == Seen(w, ep.topic).route
            && Seen(s.w, ep.topic).dialledAt == Seen(w, ep.topic).dialledAt
  {
    hide Replay;
  }

  /** Whatever a call does between two publishes: at each of them channel and route are those of the
      start, or a recreation has made them agree. */
  lemma {:induction false} SendAgrees(ep: Endpoint, w: World, body: Body, retry: RetryManager, attempts: nat)
    requires ep.retry.Valid() && retry.Valid() && attempts <= retry.maxRetries
    ensures var r := SendLoop(ep, w, body, retry, attempts);
            PublishesAgreed(r.w.trace, |w.trace|, ep.topic, w.settings.uri, Seen(w, ep.topic))
    decreases |w.script|
  {
    hide Recreate, Pause, SendOnce, Replay, AllFaithful, WellFormed, OthersKept, Mirrors, PublishesAgreed;
    var t, uri := ep.topic, w.settings.uri;
    var r := SendLoop(ep, w, body, retry, attempts);
    var s := SendOnce(ep, w, body);
    SendOnceShrinks(ep, w, body);
    OnePublish(ep, w, body);
    Nothing(r.w.trace, t, uri, Seen(w, t));
    if s.out.Raised? {
      if NeedsRecreation(s.out.error, retry, attempts) {
        var c := Recreate(s.ep, s.w, s.out.error);
        RecreateView(s.ep, s.w, s.out.error);
        RecreateAdvances(s.ep, s.w, s.out.error);
        if c.out.Ok? {
          SendLoopAdvances(c.ep, c.w, body, retry, 0);
          SendAgrees(c.ep, c.w, body, retry, 0);
          AgreedAfter(s.w.trace, c.w.trace, r.w.trace, t, uri, Seen(w, t), Seen(c.w, t));
        } else {
          AgreedAfter(s.w.trace, c.w.trace, r.w.trace, t, uri, Seen(w, t), Seen(w, t));
        }
      } else if retry.IsRetryable(s.out.error) {
        var p := Pause(s.ep, s.w, retry, attempts);
        PauseShrinks(s.ep, s.w, retry, attempts);
        PauseView(s.ep, s.w, retry, attempts);
        PauseAdvances(s.ep, s.w, retry, attempts);
        if !p.out.Cancelled? {
          SendLoopAdvances(p.ep, p.w, body, retry, attempts + 1);
          SendAgrees(p.ep, p.w, body, retry, attempts + 1);
          AgreedAfter(s.w.trace, p.w.trace, r.w.trace, t, uri, Seen(w, t), Seen(p.w, t));
        } else {
          AgreedAfter(s.w.trace, p.w.trace, r.w.trace, t, uri, Seen(w, t), Seen(w, t));
        }
      }
    }
    AgreedFirst(w, s.w, r.w.trace, t);
  }

  lemma Nothing(trace: seq<Event>, topic: string, uri: string, v: View)
    ensures PublishesAgreed(trace, |trace|, topic, uri, v)
  {
  }

  /** A message of this topic on another channel than the cached one of the broker it names. */
  ghost predicate Astray(w: World, topic: string, i: nat)
    requires i < |w.trace|
  {
    && IsPublish(w.trace[i], topic)
    && var v := Replay(w.trace[..i], topic, w.settings.uri);
       !HandleIs(w.pool, v.route.brokerUrl, v.route.connectUrl, w.trace[i].request.channel)
  }

  /** Exactly when a call puts a message on a wrong channel, read off the fields before the call: when
      the stub is not the cached channel of the current broker address and connect URL. */
  lemma CallFitsIff(ep: Endpoint, w: World, body: Body, retry: RetryManager)
    requires ep.retry.Valid() && retry.Valid() && ep.stub.Some?
    requires Mirrors(ep, w) && Honours(w, ep.topic) && WellFormed(w.pool)
    ensures var w' := SendLoop(ep, w, body, retry, 0).w;
            (exists i :: |w.trace| <= i < |w'.trace| && Astray(w', ep.topic, i))
            <==> !HandleIs(w.pool, ep.route.brokerUrl, ep.route.connectUrl, ep.stub.value)
  {
    hide SendLoop, Replay, AllFaithful, OthersKept, WellFormed, PublishesAgreed, Astray;
    var t := ep.topic;
    var w' := SendLoop(ep, w, body, retry, 0).w;
    SendLoopAdvances(ep, w, body, retry, 0);
    SendAgrees(ep, w, body, retry, 0);
    StubFitsIff(ep, w);
    if !SameRoute(Seen(w, t).dialledAt, Seen(w, t).route) {
      FirstIsPublish(ep, w, body, retry, 0);
      AstrayIff(w', t, |w.trace|);
    }
    forall i | |w.trace| <= i < |w'.trace| && Astray(w', t, i)
      ensures !SameRoute(Seen(w, t).dialledAt, Seen(w, t).route)
    {
      AstrayIff(w', t, i);
      AgreedAt(w'.trace, |w.trace|, t, w.settings.uri, Seen(w, t), i);
    }
  }

  lemma AgreedAt(trace: seq<Event>, from: nat, topic: string, uri: string, v: View, i: nat)
    requires PublishesAgreed(trace, from, topic, uri, v) && from <= i < |trace|
    ensures IsPublish(trace[i], topic) ==> SameOrAgreed(v, Replay(trace[..i], topic, uri))
  {
  }

  lemma AstrayIff(w: World, topic: string, i: nat)
    requires Honours(w, topic) && WellFormed(w.pool) && i < |w.trace|
    ensures var v := Replay(w.trace[..i], topic, w.settings.uri);
            Astray(w, topic, i) <==> IsPublish(w.trace[i], topic) && !SameRoute(v.dialledAt, v.route)
  {
    hide Replay, WellFormed, AllFaithful;
    if IsPublish(w.trace[i], topic) {
      ChannelFitsIff(w, topic, i);
    }
  }

  /** The stub is the cached channel of the current route iff the route is the one dialled. */
  lemma StubFitsIff(ep: Endpoint, w: World)
    requires Mirrors(ep, w) && Honours(w, ep.topic) && WellFormed(w.pool) && ep.stub.Some?
    ensures HandleIs(w.pool, ep.route.brokerUrl, ep.route.connectUrl, ep.stub.value)
      <==> SameRoute(Seen(w, ep.topic).dialledAt, Seen(w, ep.topic).route)
  {
    hide Replay, AllFaithful;
    DialledHandle(w.trace, ep.topic, w.settings, w.pool);
  }
}
