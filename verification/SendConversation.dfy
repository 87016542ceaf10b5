/** `send` and `send_with_key` hold the conversation of `Conversation`, alone or among others. */
module SendConversation {
  import opened Wire
  import opened Retry
  import opened Connections
  import opened Network
  import opened Endpoint
  import opened EndpointHistory
  import opened Sending
  import opened CreateTask
  import opened SendTask
  import opened Conversation
  import Delivery

  /** What a call that waits at `place` has just been led to. */
  function PlaceDue(place: Place, t: Terms): Reaction {
    match place
    case Publishing(_) => Publishes
    case Pausing(a) => BackoffAfter(a + 1, t.retry)
    case Relooking(_) => Looks
    case Creating(phase) => Due(phase, t.ref, t.retry)
  }

  predicate LastFailed(h: seq<Event>, error: Error) {
    && h != [] && h[|h| - 1].request.Publish? && h[|h| - 1].reply.verdict.Failed?
    && error == Rpc(h[|h| - 1].reply.verdict.status)
  }

  /** What the place says about the conversation so far. */
  predicate PlaceTells(place: Place, ep: Endpoint, h: seq<Event>, t: Terms) {
    match place
    case Publishing(a) => ep.stub.Some? && Attempts(h) == a
    case Pausing(a) => ep.stub.Some? && Attempts(h) == a + 1 && h != [] && h[|h| - 1].request.Publish?
    case Relooking(error) => ep.stub.Some? && Tries(h) == 0 && LastFailed(h, error)
    case Creating(phase) => (phase.Arriving? || ep.stub.Some?) && PhaseTells(phase, ep, h, t)
  }

  /** These are the terms of a call through `ep`. */
  predicate TermsOf(t: Terms, ep: Endpoint, body: Body) {
    t == Terms(ep.retry, ep.schemaRef, Some(body)) && ep.retry.Valid()
  }

  /** A call that has come to `wait` with the conversation `h` behind it. */
  ghost predicate Conversing(h: seq<Event>, wait: Wait, ep: Endpoint, t: Terms) {
    && InOrder(h, t)
    && match wait
       case Ended(out) => h != [] && React(h, t) == Ends(out)
       case Awaiting(place, q) =>
         && PlaceFits(place, ep, t.retry) && PlaceTells(place, ep, h, t) && Fulfils(q, PlaceDue(place, t), t)
         && (h == [] || React(h, t) == PlaceDue(place, t))
  }

  /** The part of it that a turn has to bring about. */
  ghost predicate Led(h: seq<Event>, n: Turn, t: Terms) {
    h != [] &&
    match n.wait
    case Ended(out) => React(h, t) == Ends(out)
    case Awaiting(place, q) =>
      && PlaceFits(place, n.ep, t.retry) && PlaceTells(place, n.ep, h, t) && Fulfils(q, PlaceDue(place, t), t)
      && React(h, t) == PlaceDue(place, t)
  }

  // ----- where the code goes on -----

  lemma LookupLed(ep: Endpoint, w: World, place: Place, body: Body, h: seq<Event>, t: Terms)
    requires TermsOf(t, ep, body) && PlaceFits(place, ep, t.retry) && PlaceTells(place, ep, h, t)
    requires place.Relooking? || (place.Creating? && (place.phase.Arriving? || place.phase.Retrying?))
    requires h != [] && React(h, t) == Looks
    ensures Led(h, AwaitLookup(ep, w, place), t)
  {
    hide Connect, React, Tries, Attempts, AssignedId;
  }

  lemma RegistrationLed(ep: Endpoint, w: World, a: nat, body: Body, h: seq<Event>, t: Terms)
    requires TermsOf(t, ep, body) && a <= ep.retry.maxRetries && Tries(h) == a
    requires h != [] && React(h, t) == Registers
    ensures Led(h, AwaitRegistration(ep, w, a), t)
  {
    hide Connect, React, Tries, Attempts, AssignedId;
  }

  lemma PublishLed(ep: Endpoint, w: World, a: nat, body: Body, h: seq<Event>, t: Terms)
    requires TermsOf(t, ep, body) && a <= ep.retry.maxRetries && Attempts(h) == a && ep.stub.Some?
    requires h != [] && React(h, t) == Publishes
    ensures Led(h, AwaitPublish(ep, w, body, a), t)
  {
    hide React, Tries, Attempts, AssignedId;
  }

  lemma SleepLed(ep: Endpoint, w: World, a: nat, place: Place, body: Body, h: seq<Event>, t: Terms)
    requires TermsOf(t, ep, body) && PlaceFits(place, ep, t.retry) && PlaceTells(place, ep, h, t)
    requires place == Pausing(a) || place == Creating(Backing(a))
    requires h != [] && React(h, t) == BackoffAfter(a + 1, t.retry)
    ensures Led(h, AwaitSleep(ep, w, ep.retry, a, place), t)
  {
    hide React, Tries, Attempts, AssignedId;
    BackoffIs(a, t.retry);
  }

  lemma SchemaLed(ep: Endpoint, w: World, query: Query, phase: Phase, body: Body, h: seq<Event>, t: Terms)
    requires TermsOf(t, ep, body) && PlaceFits(Creating(phase), ep, t.retry) && PlaceTells(Creating(phase), ep, h, t)
    requires phase.Resolving? || phase.Pinning?
    requires h != [] && Due(phase, t.ref, t.retry) == React(h, t) == Queries(query)
    ensures Led(h, AwaitSchema(ep, w, query, phase), t)
  {
    hide Connect, React, Tries, Attempts, AssignedId;
  }

  /** After a try of `create` in the middle of a call; `h` ends with its last answer. */
  lemma AttemptLed(ep: Endpoint, w: World, out: Outcome<nat>, a: nat, body: Body, h: seq<Event>, t: Terms)
    requires TermsOf(t, ep, body) && a <= ep.retry.maxRetries && ep.stub.Some?
    requires Tries(h) == a + 1 && Attempts(h) == 0 && LastIs(h, false)
    requires React(h, t) == match out
                            case Ok(_) => Publishes
                            case Cancelled => Ends(Cancelled)
                            case Raised(error) =>
                              if error.Rpc? && Transient(error.status) && a + 1 <= ep.retry.maxRetries then Looks
                              else Ends(Raised(error))
    ensures Led(h, AfterAttempt(ep, w, body, out, a), t)
  {
    hide AwaitLookup, AwaitPublish, React, Tries, Attempts, AssignedId, Led;
    if !Final(ep, out, a) {
      LookupLed(ep, w, Creating(Retrying(a)), body, h, t);
    } else if out.Ok? {
      PublishLed(ep, w, 0, body, h, t);
    } else {
      EndsLed(h, Turn(Ended(out), ep, w), t);
    }
  }

  lemma EndsLed(h: seq<Event>, n: Turn, t: Terms)
    requires h != [] && n.wait.Ended? && React(h, t) == Ends(n.wait.out)
    ensures Led(h, n, t)
  {
  }

  lemma StampLed(ep: Endpoint, w: World, out: Outcome<SchemaInfo>, a: nat, body: Body, h: seq<Event>, t: Terms)
    requires TermsOf(t, ep, body) && a <= ep.retry.maxRetries && ep.stub.Some?
    requires Tries(h) == a + 1 && Attempts(h) == 0 && LastIs(h, false)
    requires React(h, t) == match out
                            case Ok(_) => Publishes
                            case Cancelled => Ends(Cancelled)
                            case Raised(error) =>
                              if error.Rpc? && Transient(error.status) && a + 1 <= ep.retry.maxRetries then Looks
                              else Ends(Raised(error))
    ensures Led(h, AfterSchema(ep, w, body, out, a), t)
  {
    hide AfterAttempt, React, Tries, Attempts, AssignedId, Led;
    var (ep', out') := Stamp(ep, out);
    AttemptLed(ep', w, out', a, body, h, t);
  }

  // ----- one answer -----

  /** A call that waits, and its answer. */
  ghost predicate Asked(ep: Endpoint, place: Place, e: Event, body: Body, h: seq<Event>, t: Terms) {
    && TermsOf(t, ep, body) && PlaceFits(place, ep, t.retry) && PlaceTells(place, ep, h, t)
    && Fulfils(e.request, PlaceDue(place, t), t)
  }

  lemma PublishedLed(ep: Endpoint, w: World, a: nat, e: Event, body: Body, h: seq<Event>, t: Terms)
    requires Asked(ep, Publishing(a), e, body, h, t)
    ensures Led(h + [e], OnPublished(a, e.reply, ep, w, ep.retry), t)
  {
    hide AwaitLookup, AwaitSleep, Led, Tries, Attempts, AssignedId;
    var h' := h + [e];
    CountsOn(h, e);
    assert h'[..|h'| - 1] == h && h'[|h'| - 1] == e;
    var out := OutcomeOf(e.reply.verdict, e.reply.id);
    if out.Raised? && NeedsRecreation(out.error, ep.retry, a) {
      LookupLed(ep, w, Relooking(out.error), body, h', t);
    } else if out.Raised? && ep.retry.IsRetryable(out.error) {
      SleepLed(ep, w, a, Pausing(a), body, h', t);
    } else {
      EndsLed(h', Turn(Ended(out), ep, w), t);
    }
  }

  lemma RegisteredLed(ep: Endpoint, w: World, a: nat, e: Event, body: Body, h: seq<Event>, t: Terms)
    requires Asked(ep, Creating(Trying(a)), e, body, h, t)
    ensures Led(h + [e], OnRegistered(a, e.reply, ep, w, body), t)
  {
    hide AfterAttempt, AwaitSchema, Connect, Led, Tries, Attempts, AssignedId;
    var h' := h + [e];
    CountsOn(h, e);
    assert h'[..|h'| - 1] == h && h'[|h'| - 1] == e;
    match OutcomeOf(e.reply.verdict, e.reply.id)
    case Ok(id) =>
      var s := StartHealthCheck(ep.(clientId := id), w);
      if ep.schemaRef.None? {
        AttemptLed(s.ep, s.w, Ok(id), a, body, h', t);
      } else {
        SchemaLed(s.ep, s.w, LatestOf(ep.schemaRef.value.subject), Resolving(a), body, h', t);
      }
    case Raised(error) => AttemptLed(ep, w, Raised(RegistrationError(error)), a, body, h', t);
    case Cancelled => AttemptLed(ep, w, Cancelled, a, body, h', t);
  }

  lemma LatestLed(ep: Endpoint, w: World, a: nat, e: Event, body: Body, h: seq<Event>, t: Terms)
    requires Asked(ep, Creating(Resolving(a)), e, body, h, t)
    ensures Led(h + [e], OnLatest(a, e.reply, ep, w, body), t)
  {
    hide AfterSchema, AwaitSchema, Led, Tries, Attempts, AssignedId;
    var h' := h + [e];
    CountsOn(h, e);
    assert h'[..|h'| - 1] == h && h'[|h'| - 1] == e;
    var latest, ref := OutcomeOf(e.reply.verdict, e.reply.schema), ep.schemaRef.value;
    if latest.Ok? && ref.Pinned? && latest.value.version > ref.version {
      SchemaLed(ep, w, VersionOf(latest.value.schemaId, ref.version), Pinning(a, latest.value.schemaId), body, h', t);
    } else if latest.Ok? && !ref.UseLatest? && latest.value.version < ref.version {
      StampLed(ep, w, Raised(BadVersion), a, body, h', t);
    } else {
      StampLed(ep, w, latest, a, body, h', t);
    }
  }

  lemma PinnedLed(ep: Endpoint, w: World, a: nat, id: nat, e: Event, body: Body, h: seq<Event>, t: Terms)
    requires Asked(ep, Creating(Pinning(a, id)), e, body, h, t)
    ensures Led(h + [e], AfterSchema(ep, w, body, OutcomeOf(e.reply.verdict, e.reply.schema), a), t)
  {
    hide AfterSchema, Led, Tries, Attempts, AssignedId;
    var h' := h + [e];
    CountsOn(h, e);
    assert h'[..|h'| - 1] == h && h'[|h'| - 1] == e;
    StampLed(ep, w, OutcomeOf(e.reply.verdict, e.reply.schema), a, body, h', t);
  }

  lemma LookedLed(ep: Endpoint, w: World, place: Place, e: Event, body: Body, h: seq<Event>, t: Terms)
    requires place.Relooking? || (place.Creating? && (place.phase.Arriving? || place.phase.Retrying?))
    requires Asked(ep, place, e, body, h, t)
    ensures Led(h + [e], SendTask.Resume(place, e.reply, ep, w, body, ep.retry), t)
  {
    hide AwaitLookup, AwaitRegistration, AwaitSleep, Led, Tries, Attempts, AssignedId;
    var h' := h + [e];
    CountsOn(h, e);
    assert h'[..|h'| - 1] == h && h'[|h'| - 1] == e;
    assert h != [] ==> h'[|h'| - 2] == h[|h| - 1];
    var n := SendTask.Resume(place, e.reply, ep, w, body, ep.retry);
    if e.reply.verdict.Interrupted? || (place.Relooking? && !e.reply.verdict.Served?) {
      EndsLed(h', n, t);
    } else if place.Relooking? {
      LookupLed(ep.(route := e.reply.address), w, Creating(Arriving), body, h', t);
    } else if place.phase.Arriving? {
      RegistrationLed(Rerouted(ep, e.reply), w, 0, body, h', t);
    } else {
      var a := place.phase.attempts;
      SleepLed(Rerouted(ep, e.reply), w, a, Creating(Backing(a)), body, h', t);
    }
  }

  lemma SleptLed(ep: Endpoint, w: World, place: Place, e: Event, body: Body, h: seq<Event>, t: Terms)
    requires place.Pausing? || (place.Creating? && place.phase.Backing?)
    requires Asked(ep, place, e, body, h, t)
    ensures Led(h + [e], SendTask.Resume(place, e.reply, ep, w, body, ep.retry), t)
  {
    hide AwaitPublish, AwaitRegistration, Led, Tries, Attempts, AssignedId;
    var h' := h + [e];
    CountsOn(h, e);
    assert h'[..|h'| - 1] == h && h'[|h'| - 1] == e;
    var n := SendTask.Resume(place, e.reply, ep, w, body, ep.retry);
    if e.reply.verdict.Interrupted? {
      EndsLed(h', n, t);
    } else if place.Pausing? {
      PublishLed(ep, w, place.attempts + 1, body, h', t);
    } else {
      RegistrationLed(ep, w, place.phase.attempts + 1, body, h', t);
    }
  }

  /** One answer is one step of the conversation, whatever other calls have done to the endpoint. */
  lemma ResumeLed(ep: Endpoint, w: World, place: Place, e: Event, body: Body, h: seq<Event>, t: Terms)
    requires Asked(ep, place, e, body, h, t)
    ensures Led(h + [e], SendTask.Resume(place, e.reply, ep, w, body, ep.retry), t)
  {
    hide Asked, Led, OnPublished, OnRegistered, OnLatest, AfterSchema;
    match place
    case Publishing(a) => PublishedLed(ep, w, a, e, body, h, t);
    case Pausing(_) => SleptLed(ep, w, place, e, body, h, t);
    case Relooking(_) => LookedLed(ep, w, place, e, body, h, t);
    case Creating(phase) =>
      assert Fits(Task(ep, phase)) && !phase.Done? by {
        AskedFits(ep, place, e, body, h, t);
      }
      match phase {
        case Trying(a) => RegisteredLed(ep, w, a, e, body, h, t);
        case Resolving(a) => LatestLed(ep, w, a, e, body, h, t);
        case Pinning(a, id) => PinnedLed(ep, w, a, id, e, body, h, t);
        case Backing(_) => SleptLed(ep, w, place, e, body, h, t);
        case Arriving => LookedLed(ep, w, place, e, body, h, t);
        case Retrying(_) => LookedLed(ep, w, place, e, body, h, t);
      }
  }

  lemma AskedFits(ep: Endpoint, place: Place, e: Event, body: Body, h: seq<Event>, t: Terms)
    requires Asked(ep, place, e, body, h, t)
    ensures PlaceFits(place, ep, ep.retry)
  {
  }

  // ----- a call on its own -----

  lemma Goes(h: seq<Event>, wait: Wait, ep: Endpoint, e: Event, n: Turn, t: Terms)
    requires wait.Awaiting? && Conversing(h, wait, ep, t) && wait.request == e.request && Led(h + [e], n, t)
    ensures Conversing(h + [e], n.wait, n.ep, t)
  {
    hide React, Fulfils, PlaceTells, PlaceFits, InOrder;
    assert h != [] ==> Fulfils(e.request, React(h, t), t);
    InOrderOn(h, e, t);
  }

  lemma {:induction false} AloneConverses(n: Turn, body: Body, h: seq<Event>, t: Terms) returns (h': seq<Event>)
    requires TermsOf(t, n.ep, body) && TurnFits(n, t.retry) && Conversing(h, n.wait, n.ep, t)
    ensures var r := Alone(n, body, t.retry);
            && h <= h' && r.w.trace == n.w.trace + h'[|h|..]
            && h' != [] && InOrder(h', t) && React(h', t) == Ends(r.wait.out)
    decreases if Over(n) then 0 else |n.w.script| + 1
  {
    hide SendTask.Resume, Led, Conversing, PlaceFits, Replay, InOrder, React;
    if Over(n) {
      h' := h;
      Finished(h, n.wait, n.ep, t);
    } else {
      var i := Issue(n.w, n.wait.request);
      var e := Event(n.wait.request, i.reply);
      IsAsked(n, e, body, h, t);
      ResumeLed(n.ep, i.w, n.wait.place, e, body, h, t);
      ResumeAsksNothing(n.wait.place, i.reply, n.ep, i.w, body, t.retry);
      ResumeIdentity(n.wait.place, i.reply, n.ep, i.w, body, t.retry);
      var n' := TakeTurn(n, body, t.retry);
      Goes(h, n.wait, n.ep, e, n', t);
      h' := AloneConverses(n', body, h + [e], t);
      assert h'[|h|..] == [e] + h'[|h| + 1..];
    }
  }

  lemma Finished(h: seq<Event>, wait: Wait, ep: Endpoint, t: Terms)
    requires Conversing(h, wait, ep, t) && wait.Ended?
    ensures h != [] && InOrder(h, t) && React(h, t) == Ends(wait.out)
  {
  }

  lemma IsAsked(n: Turn, e: Event, body: Body, h: seq<Event>, t: Terms)
    requires TermsOf(t, n.ep, body) && n.wait.Awaiting? && e.request == n.wait.request && Conversing(h, n.wait, n.ep, t)
    ensures Asked(n.ep, n.wait.place, e, body, h, t)
  {
  }

  /** Every call on an endpoint that is connected, or about which nothing has been said yet, holds
      this conversation, starting with a publish, or with the lookup of a create. */
  lemma SendConverses(ep: Endpoint, w: World, body: Body)
    requires ep.retry.Valid()
    ensures var r := SendLoop(ep, w, body, ep.retry, 0);
            && w.trace < r.w.trace
            && var h := r.w.trace[|w.trace|..];
               && Converses(h, Terms(ep.retry, ep.schemaRef, Some(body)), r.out)
               && (if ep.stub.Some? then h[0].request.Publish? && h[0].request.message.body == body
                   else h[0].request.Lookup?)
  {
    hide SendLoop, Alone, React, Fulfils, InOrder;
    var t := Terms(ep.retry, ep.schemaRef, Some(body));
    AloneIsSend(ep, w, body, ep.retry);
    var n := AwaitPublish(ep, w, body, 0);
    BeginConverses(ep, w, body);
    var h := AloneConverses(n, body, [], t);
    var r := SendLoop(ep, w, body, ep.retry, 0);
    assert r.w.trace[|w.trace|..] == h;
    FirstRequest(n, body, t.retry);
  }

  lemma BeginConverses(ep: Endpoint, w: World, body: Body)
    requires ep.retry.Valid()
    ensures var n := AwaitPublish(ep, w, body, 0);
            && Conversing([], n.wait, n.ep, Terms(ep.retry, ep.schemaRef, Some(body)))
            && n.w.trace == w.trace && TurnFits(n, ep.retry) && SameIdentity(ep, n.ep) && n.wait.Awaiting?
            && (if ep.stub.Some? then n.wait.request.Publish? && n.wait.request.message.body == body
                else n.wait.request.Lookup?)
  {
    hide Connect;
  }

  lemma FirstRequest(n: Turn, body: Body, retry: RetryManager)
    requires TurnFits(n, retry) && n.wait.Awaiting? && n.ep.retry == retry
    ensures var r := Alone(n, body, retry);
            n.w.trace < r.w.trace && r.w.trace[|n.w.trace|].request == n.wait.request
  {
    hide SendTask.Resume, PlaceFits, Replay;
    var i := Issue(n.w, n.wait.request);
    ResumeAsksNothing(n.wait.place, i.reply, n.ep, i.w, body, retry);
    var n' := TakeTurn(n, body, retry);
    assert n'.w.trace == n.w.trace + [Event(n.wait.request, i.reply)];
    AloneExtends(n', body, retry);
  }

  lemma {:induction false} AloneExtends(n: Turn, body: Body, retry: RetryManager)
    requires TurnFits(n, retry)
    ensures n.w.trace <= Alone(n, body, retry).w.trace
    decreases if Over(n) then 0 else |n.w.script| + 1
  {
    hide SendTask.Resume, PlaceFits, Replay;
    if !Over(n) {
      var i := Issue(n.w, n.wait.request);
      ResumeAsksNothing(n.wait.place, i.reply, n.ep, i.w, body, retry);
      AloneExtends(TakeTurn(n, body, retry), body, retry);
    }
  }

  /** No turn changes what the endpoint is. */
  lemma ResumeIdentity(place: Place, reply: Reply, ep: Endpoint, w: World, body: Body, retry: RetryManager)
    requires PlaceFits(place, ep, retry)
    ensures SameIdentity(ep, SendTask.Resume(place, reply, ep, w, body, retry).ep)
  {
    hide Connect, AfterAttempt, AfterSchema, OnRegistered, OnLatest;
    if place.Creating? {
      match place.phase {
        case Trying(a) => RegisteredIdentity(a, reply, ep, w, body);
        case Resolving(a) => LatestIdentity(a, reply, ep, w, body);
        case Pinning(a, _) => SchemaIdentity(ep, w, body, OutcomeOf(reply.verdict, reply.schema), a);
        case _ =>
      }
    }
  }

  lemma AttemptIdentity(ep: Endpoint, w: World, body: Body, out: Outcome<nat>, a: nat)
    ensures SameIdentity(ep, AfterAttempt(ep, w, body, out, a).ep)
  {
    hide Connect, Final;
  }

  lemma SchemaIdentity(ep: Endpoint, w: World, body: Body, out: Outcome<SchemaInfo>, a: nat)
    ensures SameIdentity(ep, AfterSchema(ep, w, body, out, a).ep)
  {
    hide AfterAttempt;
    var (ep', out') := Stamp(ep, out);
    AttemptIdentity(ep', w, body, out', a);
  }

  lemma RegisteredIdentity(a: nat, reply: Reply, ep: Endpoint, w: World, body: Body)
    ensures SameIdentity(ep, OnRegistered(a, reply, ep, w, body).ep)
  {
    hide AfterAttempt, Connect;
    match OutcomeOf(reply.verdict, reply.id)
    case Ok(id) =>
      var h := StartHealthCheck(ep.(clientId := id), w);
      AttemptIdentity(h.ep, h.w, body, Ok(id), a);
    case Raised(error) => AttemptIdentity(ep, w, body, Raised(RegistrationError(error)), a);
    case Cancelled => AttemptIdentity(ep, w, body, Cancelled, a);
  }

  lemma LatestIdentity(a: nat, reply: Reply, ep: Endpoint, w: World, body: Body)
    requires ep.schemaRef.Some?
    ensures SameIdentity(ep, OnLatest(a, reply, ep, w, body).ep)
  {
    hide AfterSchema, Connect;
    SchemaIdentity(ep, w, body, OutcomeOf(reply.verdict, reply.schema), a);
    SchemaIdentity(ep, w, body, Raised(BadVersion), a);
  }

  // ----- what the call publishes -----

  /** Every publish from event `from` on carries this body, and the time at which it was made. */
  predicate Carries(trace: seq<Event>, from: nat, body: Body) {
    forall i :: from <= i < |trace| && trace[i].request.Publish? ==>
      trace[i].request.message.body == body && trace[i].request.message.publishTime == trace[i].reply.clock
  }

  lemma CarriesOn(a: seq<Event>, b: seq<Event>, c: seq<Event>, body: Body)
    requires a <= b <= c && Carries(b, |a|, body) && Carries(c, |b|, body)
    ensures a <= c && Carries(c, |a|, body)
  {
    assert forall i :: 0 <= i < |b| ==> c[i] == b[i];
  }

  lemma CreateCarries(ep: Endpoint, w: World, body: Body)
    requires ep.retry.Valid()
    ensures var w' := Create(ep, w).w; w.trace <= w'.trace && Carries(w'.trace, |w.trace|, body)
  {
    hide Create, React;
    CreateConverses(ep, w);
    var c, t := Create(ep, w), Terms(ep.retry, ep.schemaRef, None);
    var h := c.w.trace[|w.trace|..];
    forall i | |w.trace| <= i < |c.w.trace|
      ensures !c.w.trace[i].request.Publish?
    {
      var k := i - |w.trace|;
      assert h[k] == c.w.trace[i];
      assert k > 0 ==> Fulfils(h[k].request, React(h[..k], t), t);
    }
  }

  lemma RecreateCarries(ep: Endpoint, w: World, error: Error, body: Body)
    requires ep.retry.Valid()
    ensures var w' := Recreate(ep, w, error).w; w.trace <= w'.trace && Carries(w'.trace, |w.trace|, body)
  {
    hide Create, HandleLookup, LookupAndRecreate, LookupNewBroker;
    if error.Unrecoverable? {
      CreateCarries(ep, w, body);
    } else {
      Delivery.RecreateIsLookupThenCreate(ep, w, error);
      var e := LookupEvent(ep, w);
      var l := LookupNewBroker(ep, w);
      if HandleLookup(ep, w).0.Ok? {
        CreateCarries(l.ep, l.w, body);
        CarriesOn(w.trace, l.w.trace, Create(l.ep, l.w).w.trace, body);
      }
    }
  }

  lemma SendOnceCarries(ep: Endpoint, w: World, body: Body)
    ensures var w' := SendOnce(ep, w, body).w; w.trace <= w'.trace && Carries(w'.trace, |w.trace|, body)
  {
    hide Replay;
  }

  /** Whatever is retried and recreated: nothing but this body is published. */
  lemma {:induction false} SendCarries(ep: Endpoint, w: World, body: Body, retry: RetryManager, attempts: nat)
    requires ep.retry.Valid() && retry.Valid() && attempts <= retry.maxRetries
    ensures var w' := SendLoop(ep, w, body, retry, attempts).w;
            w.trace <= w'.trace && Carries(w'.trace, |w.trace|, body)
    decreases |w.script|
  {
    hide Recreate, Pause, SendOnce, Carries;
    var r := SendLoop(ep, w, body, retry, attempts);
    var s := SendOnce(ep, w, body);
    SendOnceCarries(ep, w, body);
    Delivery.SendOnceShrinks(ep, w, body);
    if s.out.Raised? {
      if NeedsRecreation(s.out.error, retry, attempts) {
        var c := Recreate(s.ep, s.w, s.out.error);
        RecreateCarries(s.ep, s.w, s.out.error, body);
        CarriesOn(w.trace, s.w.trace, c.w.trace, body);
        if c.out.Ok? {
          SendCarries(c.ep, c.w, body, retry, 0);
          CarriesOn(w.trace, c.w.trace, r.w.trace, body);
        }
      } else if retry.IsRetryable(s.out.error) {
        var p := Pause(s.ep, s.w, retry, attempts);
        var e := PauseEvent(s.ep, s.w, retry, attempts);
        PauseCarries(s.w.trace, e, body);
        CarriesOn(w.trace, s.w.trace, p.w.trace, body);
        if !p.out.Cancelled? {
          Delivery.PauseShrinks(s.ep, s.w, retry, attempts);
          SendCarries(p.ep, p.w, body, retry, attempts + 1);
          CarriesOn(w.trace, p.w.trace, r.w.trace, body);
        }
      }
    }
  }

  lemma PauseCarries(trace: seq<Event>, e: Event, body: Body)
    requires e.request.Sleep?
    ensures trace <= trace + [e] && Carries(trace + [e], |trace|, body)
  {
  }
}
