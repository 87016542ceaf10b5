/** `Producer.send` and `send_with_key` after they have let go of the lock, cut at their awaits, so
    that several calls can interleave on the same endpoint.  A call that waits holds the request it
    has made; a turn takes the answer, in the endpoint as it is by then, and runs to the next await. */
module SendTask {
  import opened Wire
  import opened Retry
  import opened Connections
  import opened Network
  import opened Endpoint
  import opened Sending
  import opened CreateTask

  /** Where a call waits. */
  datatype Place =
    | Publishing(attempts: nat)   // `TopicProducer.send`
    | Pausing(attempts: nat)      // the backoff after it
    | Relooking(error: Error)     // the lookup of `_lookup_and_recreate`
    | Creating(phase: Phase)      // an await of `TopicProducer.create`

  datatype Wait = Awaiting(place: Place, request: Request) | Ended(out: Outcome<nat>)

  /** The code has run to the next await, or to its end. */
  datatype Turn = Turn(wait: Wait, ep: Endpoint, w: World)

  function AwaitLookup(ep: Endpoint, w: World, place: Place): Turn {
    var addr := ep.route.connectUrl;
    var c := Connect(w.pool, addr, addr);
    Turn(Awaiting(place, Lookup(ep.topic, c.channel, addr)), ep, w.(pool := c.pool))
  }

  /** `_connect` and the registration. */
  function AwaitRegistration(ep: Endpoint, w: World, a: nat): Turn {
    var c := Connect(w.pool, ep.route.brokerUrl, ep.route.connectUrl);
    Turn(Awaiting(Creating(Trying(a)), RegisterRequest(ep, w.settings, c.channel)),
         ep.(stub := Some(c.channel), nextRequest := ep.nextRequest + 1), w.(pool := c.pool))
  }

  function AwaitSchema(ep: Endpoint, w: World, query: Query, phase: Phase): Turn {
    var c := Connect(w.pool, w.settings.uri, w.settings.uri);
    Turn(Awaiting(Creating(phase), Request.Registry(ep.topic, c.channel, query)), ep, w.(pool := c.pool))
  }

  function AwaitSleep(ep: Endpoint, w: World, retry: RetryManager, a: nat, place: Place): Turn {
    Turn(Awaiting(place, Sleep(ep.topic, retry.Low(a), retry.High(a))), ep, w)
  }

  /** The head of the retry loop: an endpoint without a stub is created first. */
  function AwaitPublish(ep: Endpoint, w: World, body: Body, a: nat): Turn {
    if ep.stub.None? then AwaitLookup(ep, w, Creating(Arriving))
    else Turn(Awaiting(Publishing(a), PublishRequest(ep, w, body)), ep.(nextRequest := ep.nextRequest + 1), w)
  }

  /** After a try of `create` that ended with `out`. */
  function AfterAttempt(ep: Endpoint, w: World, body: Body, out: Outcome<nat>, a: nat): Turn {
    if !Final(ep, out, a) then AwaitLookup(ep, w, Creating(Retrying(a)))
    else if out.Ok? then AwaitPublish(ep, w, body, 0)
    else Turn(Ended(out), ep, w)
  }

  function AfterSchema(ep: Endpoint, w: World, body: Body, out: Outcome<SchemaInfo>, a: nat): Turn {
    var (ep', out') := Stamp(ep, out);
    AfterAttempt(ep', w, body, out', a)
  }

  predicate PlaceFits(place: Place, ep: Endpoint, retry: RetryManager) {
    && ep.retry.Valid() && retry.Valid()
    && match place
       case Publishing(a) => a <= retry.maxRetries
       case Pausing(a) => a < retry.maxRetries
       case Relooking(_) => true
       case Creating(phase) => Fits(Task(ep, phase)) && !phase.Done?
  }

  function OnPublished(a: nat, reply: Reply, ep: Endpoint, w: World, retry: RetryManager): Turn {
    var out := OutcomeOf(reply.verdict, reply.id);
    if !out.Raised? then Turn(Ended(out), ep, w)
    else if NeedsRecreation(out.error, retry, a) then AwaitLookup(ep, w, Relooking(out.error))
    else if !retry.IsRetryable(out.error) then Turn(Ended(out), ep, w)
    else AwaitSleep(ep, w, retry, a, Pausing(a))
  }

  function OnRegistered(a: nat, reply: Reply, ep: Endpoint, w: World, body: Body): Turn {
    match OutcomeOf(reply.verdict, reply.id)
    case Ok(id) =>
      var h := StartHealthCheck(ep.(clientId := id), w);
      if ep.schemaRef.None? then AfterAttempt(h.ep, h.w, body, Ok(id), a)
      else AwaitSchema(h.ep, h.w, LatestOf(ep.schemaRef.value.subject), Resolving(a))
    case Raised(error) => AfterAttempt(ep, w, body, Raised(RegistrationError(error)), a)
    case Cancelled => AfterAttempt(ep, w, body, Cancelled, a)
  }

  function OnLatest(a: nat, reply: Reply, ep: Endpoint, w: World, body: Body): Turn
    requires ep.schemaRef.Some?
  {
    var latest := OutcomeOf(reply.verdict, reply.schema);
    if !latest.Ok? then AfterSchema(ep, w, body, latest, a)
    else
      match ep.schemaRef.value
      case Pinned(_, version) =>
        if version > latest.value.version then AfterSchema(ep, w, body, Raised(BadVersion), a)
        else if version == latest.value.version then AfterSchema(ep, w, body, latest, a)
        else AwaitSchema(ep, w, VersionOf(latest.value.schemaId, version), Pinning(a, latest.value.schemaId))
      case AtLeast(_, version) =>
        AfterSchema(ep, w, body, if latest.value.version < version then Raised(BadVersion) else latest, a)
      case UseLatest(_) => AfterSchema(ep, w, body, latest, a)
  }

  /** A lookup whose failure is swallowed. */
  function Rerouted(ep: Endpoint, reply: Reply): Endpoint {
    if reply.verdict.Served? then ep.(route := reply.address) else ep
  }

  /** The answer to the request made at `place` has come. */
  function Resume(place: Place, reply: Reply, ep: Endpoint, w: World, body: Body, retry: RetryManager): Turn
    requires PlaceFits(place, ep, retry)
  {
    match place
    case Publishing(a) => OnPublished(a, reply, ep, w, retry)
    case Pausing(a) =>
      if reply.verdict.Interrupted? then Turn(Ended(Cancelled), ep, w) else AwaitPublish(ep, w, body, a + 1)
    case Relooking(error) =>
      (match OutcomeOf(reply.verdict, reply.address)
       case Ok(address) => AwaitLookup(ep.(route := address), w, Creating(Arriving))
       case Raised(_) => Turn(Ended(Raised(error)), ep, w)
       case Cancelled => Turn(Ended(Cancelled), ep, w))
    case Creating(phase) =>
      match phase
      case Arriving =>
        if reply.verdict.Interrupted? then Turn(Ended(Cancelled), ep, w)
        else AwaitRegistration(Rerouted(ep, reply), w, 0)
      case Trying(a) => OnRegistered(a, reply, ep, w, body)
      case Resolving(a) => OnLatest(a, reply, ep, w, body)
      case Pinning(a, _) => AfterSchema(ep, w, body, OutcomeOf(reply.verdict, reply.schema), a)
      case Retrying(a) =>
        if reply.verdict.Interrupted? then Turn(Ended(Cancelled), ep, w)
        else AwaitSleep(Rerouted(ep, reply), w, ep.retry, a, Creating(Backing(a)))
      case Backing(a) =>
        if reply.verdict.Interrupted? then Turn(Ended(Cancelled), ep, w) else AwaitRegistration(ep, w, a + 1)
  }

  // ----- a call on its own is the retry loop -----

  function LoopStep(ep: Endpoint, w: World, body: Body, retry: RetryManager, a: nat): Step<nat>
    requires ep.retry.Valid() && a <= retry.maxRetries
  {
    var r := SendLoop(ep, w, body, retry, a);
    Step(r.out, r.ep, r.w)
  }

  /** What follows a recreation. */
  function AfterCreate(c: Step<nat>, body: Body, retry: RetryManager): Step<nat>
    requires c.ep.retry.Valid() && retry.Valid()
  {
    if c.out.Ok? then LoopStep(c.ep, c.w, body, retry, 0) else c
  }

  /** What is left of `create` once the answer at `phase` has come, in the words of `Endpoint`. */
  function CreateRest(phase: Phase, reply: Reply, ep: Endpoint, w: World): Step<nat>
    requires Fits(Task(ep, phase)) && !phase.Done?
  {
    match phase
    case Arriving =>
      if reply.verdict.Interrupted? then Step(Cancelled, ep, w) else CreateLoop(Rerouted(ep, reply), w, 0)
    case Trying(a) =>
      (match OutcomeOf(reply.verdict, reply.id)
       case Ok(id) =>
         var t := Settle(ep.(clientId := id), w);
         AfterTry(t.ep, t.out, t.w, a)
       case Raised(error) => AfterTry(ep, Raised(RegistrationError(error)), w, a)
       case Cancelled => AfterTry(ep, Cancelled, w, a))
    case Resolving(a) =>
      var (out, w') := ResolveRest(ep.topic, ep.schemaRef.value, OutcomeOf(reply.verdict, reply.schema), w);
      var (ep', out') := Stamp(ep, out);
      AfterTry(ep', out', w', a)
    case Pinning(a, _) =>
      var (ep', out') := Stamp(ep, OutcomeOf(reply.verdict, reply.schema));
      AfterTry(ep', out', w, a)
    case Retrying(a) =>
      if reply.verdict.Interrupted? then Step(Cancelled, ep, w)
      else AfterRecovery(Pause(Rerouted(ep, reply), w, ep.retry, a), a)
    case Backing(a) =>
      AfterRecovery(Step(if reply.verdict.Interrupted? then Cancelled else Ok(()), ep, w), a)
  }

  /** `ResolveSchema` after the latest version is known. */
  function ResolveRest(topic: string, ref: SchemaRef, latest: Outcome<SchemaInfo>, w: World)
    : (Outcome<SchemaInfo>, World)
  {
    if !latest.Ok? then (latest, w)
    else
      match ref
      case Pinned(_, version) =>
        if version > latest.value.version then (Raised(BadVersion), w)
        else if version == latest.value.version then (latest, w)
        else Ask(topic, w, VersionOf(latest.value.schemaId, version))
      case AtLeast(_, version) =>
        if latest.value.version < version then (Raised(BadVersion), w) else (latest, w)
      case UseLatest(_) => (latest, w)
  }

  /** What is left of the call once the answer at `place` has come. */
  function ReplyRest(place: Place, reply: Reply, ep: Endpoint, w: World, body: Body, retry: RetryManager): Step<nat>
    requires PlaceFits(place, ep, retry)
  {
    match place
    case Publishing(a) => AfterSend(Step(OutcomeOf(reply.verdict, reply.id), ep, w), body, retry, a)
    case Pausing(a) =>
      if reply.verdict.Interrupted? then Step(Cancelled, ep, w) else LoopStep(ep, w, body, retry, a + 1)
    case Relooking(error) =>
      (match OutcomeOf(reply.verdict, reply.address)
       case Ok(address) => AfterCreate(SafeCreate(ep.(route := address), w), body, retry)
       case Raised(_) => Step(Raised(error), ep, w)
       case Cancelled => Step(Cancelled, ep, w))
    case Creating(phase) => AfterCreate(SafeRest(phase, reply, ep, w), body, retry)
  }

  /** `create` keeps the endpoint's retry manager. */
  function SafeCreate(ep: Endpoint, w: World): (c: Step<nat>)
    requires ep.retry.Valid()
    ensures c == Create(ep, w) && c.ep.retry == ep.retry
  {
    CreateShrinks(ep, w);
    Create(ep, w)
  }

  function SafeRest(phase: Phase, reply: Reply, ep: Endpoint, w: World): (c: Step<nat>)
    requires Fits(Task(ep, phase)) && !phase.Done?
    ensures c == CreateRest(phase, reply, ep, w) && c.ep.retry == ep.retry
  {
    RestKeepsRetry(phase, reply, ep, w);
    CreateRest(phase, reply, ep, w)
  }

  lemma AfterTryRetry(ep: Endpoint, out: Outcome<nat>, w: World, a: nat)
    requires ep.retry.Valid() && a <= ep.retry.maxRetries
    ensures AfterTry(ep, out, w, a).ep.retry == ep.retry
  {
    hide Recover, CreateLoop;
    if !Final(ep, out, a) {
      var r := Recover(ep, w, a);
      if !r.out.Cancelled? {
        CreateLoopShrinks(r.ep, r.w, a + 1);
      }
    }
  }

  lemma RestKeepsRetry(phase: Phase, reply: Reply, ep: Endpoint, w: World)
    requires Fits(Task(ep, phase)) && !phase.Done?
    ensures CreateRest(phase, reply, ep, w).ep.retry == ep.retry
  {
    hide AfterTry, CreateLoop, ResolveSchema, Ask, Issue, Connect;
    match phase
    case Arriving => CreateLoopShrinks(Rerouted(ep, reply), w, 0);
    case Trying(a) =>
      match OutcomeOf(reply.verdict, reply.id) {
        case Ok(id) =>
          var t := Settle(ep.(clientId := id), w);
          AfterTryRetry(t.ep, t.out, t.w, a);
        case Raised(error) => AfterTryRetry(ep, Raised(RegistrationError(error)), w, a);
        case Cancelled => AfterTryRetry(ep, Cancelled, w, a);
      }
    case Resolving(a) =>
      var (out, w') := ResolveRest(ep.topic, ep.schemaRef.value, OutcomeOf(reply.verdict, reply.schema), w);
      var (ep', out') := Stamp(ep, out);
      AfterTryRetry(ep', out', w', a);
    case Pinning(a, _) =>
      var (ep', out') := Stamp(ep, OutcomeOf(reply.verdict, reply.schema));
      AfterTryRetry(ep', out', w, a);
    case Retrying(a) =>
      var p := Pause(Rerouted(ep, reply), w, ep.retry, a);
      CreateLoopShrinks(p.ep, p.w, a + 1);
    case Backing(a) => CreateLoopShrinks(ep, w, a + 1);
  }

  /** What the retry loop does with the end of one attempt. */
  function AfterSend(s: Step<nat>, body: Body, retry: RetryManager, a: nat): Step<nat>
    requires s.ep.retry.Valid() && retry.Valid() && a <= retry.maxRetries
  {
    if !s.out.Raised? then s
    else if NeedsRecreation(s.out.error, retry, a) then AfterCreate(Recreate(s.ep, s.w, s.out.error), body, retry)
    else if !retry.IsRetryable(s.out.error) then s
    else
      var p := Pause(s.ep, s.w, retry, a);
      if p.out.Cancelled? then Step(Cancelled, p.ep, p.w) else LoopStep(p.ep, p.w, body, retry, a + 1)
  }

  predicate TurnFits(t: Turn, retry: RetryManager) {
    t.wait.Awaiting? ==> PlaceFits(t.wait.place, t.ep, retry)
  }

  /** What is left of the call while it waits. */
  function TurnRest(t: Turn, body: Body, retry: RetryManager): Step<nat>
    requires TurnFits(t, retry)
  {
    match t.wait
    case Ended(out) => Step(out, t.ep, t.w)
    case Awaiting(place, q) =>
      var i := Issue(t.w, q);
      ReplyRest(place, i.reply, t.ep, i.w, body, retry)
  }

  lemma LookupRest(ep: Endpoint, w: World, body: Body, retry: RetryManager)
    requires ep.retry.Valid() && retry.Valid()
    ensures var t := AwaitLookup(ep, w, Creating(Arriving));
            TurnFits(t, retry) && TurnRest(t, body, retry) == AfterCreate(SafeCreate(ep, w), body, retry)
  {
    hide CreateLoop, AfterCreate, Issue, Connect;
  }

  lemma RetryRest(ep: Endpoint, w: World, body: Body, retry: RetryManager, a: nat)
    requires ep.retry.Valid() && retry.Valid() && a < ep.retry.maxRetries
    ensures var t, r := AwaitLookup(ep, w, Creating(Retrying(a))), Recover(ep, w, a);
            && TurnFits(t, retry) && r.ep.retry == ep.retry && AfterRecovery(r, a).ep.retry == ep.retry
            && TurnRest(t, body, retry) == AfterCreate(AfterRecovery(r, a), body, retry)
  {
    hide CreateLoop, AfterCreate, Issue, Connect;
    var r := Recover(ep, w, a);
    CreateLoopShrinks(r.ep, r.w, a + 1);
  }

  lemma RelookRest(ep: Endpoint, w: World, body: Body, retry: RetryManager, error: Error)
    requires ep.retry.Valid() && retry.Valid()
    ensures var t, c := AwaitLookup(ep, w, Relooking(error)), LookupAndRecreate(ep, w, error);
            TurnFits(t, retry) && c.ep.retry.Valid() && TurnRest(t, body, retry) == AfterCreate(c, body, retry)
  {
    hide Create, Issue, Connect, LoopStep;
  }

  lemma RegistrationRest(ep: Endpoint, w: World, body: Body, retry: RetryManager, a: nat)
    requires ep.retry.Valid() && retry.Valid() && a <= ep.retry.maxRetries
    ensures var t, c := AwaitRegistration(ep, w, a), CreateLoop(ep, w, a);
            TurnFits(t, retry) && c.ep.retry.Valid() && TurnRest(t, body, retry) == AfterCreate(c, body, retry)
  {
    hide AfterCreate, Issue, Connect, Settle, Recover;
    CreateLoopShrinks(ep, w, a);
    var t := AwaitRegistration(ep, w, a);
    var i := Issue(t.w, t.wait.request);
    assert SafeRest(Trying(a), i.reply, t.ep, i.w) == CreateLoop(ep, w, a);
  }

  lemma SchemaRest(ep: Endpoint, w: World, body: Body, retry: RetryManager, a: nat)
    requires PlaceFits(Creating(Resolving(a)), ep, retry)
    ensures var t := AwaitSchema(ep, w, LatestOf(ep.schemaRef.value.subject), Resolving(a));
            var (out, w') := ResolveSchema(ep.topic, ep.schemaRef.value, w);
            var (ep', out') := Stamp(ep, out);
            && TurnFits(t, retry) && AfterTry(ep', out', w', a).ep.retry == ep.retry
            && TurnRest(t, body, retry) == AfterCreate(AfterTry(ep', out', w', a), body, retry)
  {
    hide AfterTry, AfterCreate, Issue, Connect;
    var (out, w') := ResolveSchema(ep.topic, ep.schemaRef.value, w);
    var (ep', out') := Stamp(ep, out);
    AfterTryRetry(ep', out', w', a);
  }

  lemma SleepRest(ep: Endpoint, w: World, body: Body, retry: RetryManager, a: nat)
    requires PlaceFits(Creating(Backing(a)), ep, retry)
    ensures var t := AwaitSleep(ep, w, ep.retry, a, Creating(Backing(a)));
            var c := AfterRecovery(Pause(ep, w, ep.retry, a), a);
            TurnFits(t, retry) && c.ep.retry.Valid() && TurnRest(t, body, retry) == AfterCreate(c, body, retry)
  {
    hide AfterCreate, CreateLoop, Issue;
    var p := Pause(ep, w, ep.retry, a);
    CreateLoopShrinks(p.ep, p.w, a + 1);
  }

  lemma PauseRest(ep: Endpoint, w: World, body: Body, retry: RetryManager, a: nat)
    requires PlaceFits(Pausing(a), ep, retry)
    ensures var t, p := AwaitSleep(ep, w, retry, a, Pausing(a)), Pause(ep, w, retry, a);
            TurnFits(t, retry) && TurnRest(t, body, retry) ==
              if p.out.Cancelled? then Step(Cancelled, p.ep, p.w) else LoopStep(p.ep, p.w, body, retry, a + 1)
  {
    hide LoopStep, Issue;
  }

  /** The retry loop is what follows its first attempt. */
  lemma LoopUnfolds(ep: Endpoint, w: World, body: Body, retry: RetryManager, a: nat)
    requires ep.retry.Valid() && retry.Valid() && a <= retry.maxRetries
    ensures var s := SendOnce(ep, w, body);
            s.ep.retry == ep.retry && LoopStep(ep, w, body, retry, a) == AfterSend(s, body, retry, a)
  {
    hide Recreate, Issue;
  }

  lemma PublishRest(ep: Endpoint, w: World, body: Body, retry: RetryManager, a: nat)
    requires ep.retry.Valid() && retry.Valid() && a <= retry.maxRetries
    ensures var t := AwaitPublish(ep, w, body, a);
            TurnFits(t, retry) && TurnRest(t, body, retry) == LoopStep(ep, w, body, retry, a)
  {
    hide LoopStep, AfterSend, AfterCreate, Create;
    LoopUnfolds(ep, w, body, retry, a);
    if ep.stub.None? {
      UnconnectedIsRecreated(ep, w, body, retry, a);
      LookupRest(ep, w, body, retry);
    }
  }

  lemma UnconnectedIsRecreated(ep: Endpoint, w: World, body: Body, retry: RetryManager, a: nat)
    requires ep.retry.Valid() && retry.Valid() && a <= retry.maxRetries && ep.stub.None?
    ensures AfterSend(SendOnce(ep, w, body), body, retry, a) == AfterCreate(SafeCreate(ep, w), body, retry)
  {
    hide Create, AfterCreate;
  }

  lemma AttemptRest(ep: Endpoint, w: World, body: Body, retry: RetryManager, out: Outcome<nat>, a: nat)
    requires ep.retry.Valid() && retry.Valid() && a <= ep.retry.maxRetries
    ensures var t, c := AfterAttempt(ep, w, body, out, a), AfterTry(ep, out, w, a);
            TurnFits(t, retry) && c.ep.retry == ep.retry && TurnRest(t, body, retry) == AfterCreate(c, body, retry)
  {
    hide AwaitLookup, AwaitPublish, Recover, AfterRecovery, LoopStep, ReplyRest;
    AfterTryRetry(ep, out, w, a);
    if !Final(ep, out, a) {
      RetryRest(ep, w, body, retry, a);
    } else if out.Ok? {
      PublishRest(ep, w, body, retry, 0);
    }
  }

  lemma PublishedRest(a: nat, reply: Reply, ep: Endpoint, w: World, body: Body, retry: RetryManager)
    requires PlaceFits(Publishing(a), ep, retry)
    ensures var t := OnPublished(a, reply, ep, w, retry);
            && TurnFits(t, retry)
            && TurnRest(t, body, retry) == AfterSend(Step(OutcomeOf(reply.verdict, reply.id), ep, w), body, retry, a)
  {
    hide AwaitLookup, AwaitSleep, LookupAndRecreate, Pause, LoopStep, AfterCreate, ReplyRest, Create;
    var out := OutcomeOf(reply.verdict, reply.id);
    if out.Raised? {
      if NeedsRecreation(out.error, retry, a) {
        RelookRest(ep, w, body, retry, out.error);
      } else if retry.IsRetryable(out.error) {
        PauseRest(ep, w, body, retry, a);
      }
    }
  }

  lemma RegisteredRest(a: nat, reply: Reply, ep: Endpoint, w: World, body: Body, retry: RetryManager)
    requires PlaceFits(Creating(Trying(a)), ep, retry)
    ensures var t, c := OnRegistered(a, reply, ep, w, body), SafeRest(Trying(a), reply, ep, w);
            TurnFits(t, retry) && TurnRest(t, body, retry) == AfterCreate(c, body, retry)
  {
    hide AfterAttempt, AwaitSchema, AfterTry, AfterCreate, ResolveSchema, Connect, ReplyRest;
    match OutcomeOf(reply.verdict, reply.id)
    case Ok(id) =>
      var h := StartHealthCheck(ep.(clientId := id), w);
      if ep.schemaRef.None? {
        AttemptRest(h.ep, h.w, body, retry, Ok(id), a);
      } else {
        SchemaRest(h.ep, h.w, body, retry, a);
      }
    case Raised(error) => AttemptRest(ep, w, body, retry, Raised(RegistrationError(error)), a);
    case Cancelled => AttemptRest(ep, w, body, retry, Cancelled, a);
  }

  lemma StampRest(ep: Endpoint, w: World, body: Body, retry: RetryManager, out: Outcome<SchemaInfo>, a: nat)
    requires ep.retry.Valid() && retry.Valid() && a <= ep.retry.maxRetries
    ensures var t := AfterSchema(ep, w, body, out, a);
            var (ep', out') := Stamp(ep, out);
            var c := AfterTry(ep', out', w, a);
            TurnFits(t, retry) && c.ep.retry == ep.retry && TurnRest(t, body, retry) == AfterCreate(c, body, retry)
  {
    hide AfterAttempt, AfterTry, AfterCreate, ReplyRest;
    var (ep', out') := Stamp(ep, out);
    AttemptRest(ep', w, body, retry, out', a);
  }

  lemma PinRest(ep: Endpoint, w: World, body: Body, retry: RetryManager, id: nat, a: nat)
    requires PlaceFits(Creating(Pinning(a, id)), ep, retry)
    ensures var query := VersionOf(id, ep.schemaRef.value.version);
            var t := AwaitSchema(ep, w, query, Pinning(a, id));
            var (out, w') := Ask(ep.topic, w, query);
            var (ep', out') := Stamp(ep, out);
            var c := AfterTry(ep', out', w', a);
            TurnFits(t, retry) && c.ep.retry == ep.retry && TurnRest(t, body, retry) == AfterCreate(c, body, retry)
  {
    hide AfterTry, AfterCreate, Issue, Connect;
    var (out, w') := Ask(ep.topic, w, VersionOf(id, ep.schemaRef.value.version));
    var (ep', out') := Stamp(ep, out);
    AfterTryRetry(ep', out', w', a);
  }

  lemma LatestRest(a: nat, reply: Reply, ep: Endpoint, w: World, body: Body, retry: RetryManager)
    requires PlaceFits(Creating(Resolving(a)), ep, retry)
    ensures var t, c := OnLatest(a, reply, ep, w, body), SafeRest(Resolving(a), reply, ep, w);
            TurnFits(t, retry) && TurnRest(t, body, retry) == AfterCreate(c, body, retry)
  {
    hide AfterSchema, AwaitSchema, AfterTry, AfterCreate, Ask, Stamp, ReplyRest;
    var latest := OutcomeOf(reply.verdict, reply.schema);
    StampRest(ep, w, body, retry, latest, a);
    StampRest(ep, w, body, retry, Raised(BadVersion), a);
    if latest.Ok? && ep.schemaRef.value.Pinned? {
      PinRest(ep, w, body, retry, latest.value.schemaId, a);
    }
  }

  /** No turn changes what the whole call comes to, if no other call interferes. */
  lemma ResumeRest(place: Place, reply: Reply, ep: Endpoint, w: World, body: Body, retry: RetryManager)
    requires PlaceFits(place, ep, retry)
    ensures var t := Resume(place, reply, ep, w, body, retry);
            TurnFits(t, retry) && TurnRest(t, body, retry) == ReplyRest(place, reply, ep, w, body, retry)
  {
    hide OnPublished, OnRegistered, OnLatest, AfterSchema, AwaitLookup, AwaitRegistration, AwaitSleep;
    hide AwaitPublish, Pause, TurnRest, LoopStep, AfterSend, AfterCreate, AfterRecovery, AfterTry, Create, CreateLoop;
    match place
    case Publishing(a) => PublishedRest(a, reply, ep, w, body, retry);
    case Pausing(a) => PausedRest(a, reply, ep, w, body, retry);
    case Relooking(error) => RelookedRest(error, reply, ep, w, body, retry);
    case Creating(phase) => CreatingRest(phase, reply, ep, w, body, retry);
  }

  lemma PausedRest(a: nat, reply: Reply, ep: Endpoint, w: World, body: Body, retry: RetryManager)
    requires PlaceFits(Pausing(a), ep, retry)
    ensures var t := Resume(Pausing(a), reply, ep, w, body, retry);
            TurnFits(t, retry) && TurnRest(t, body, retry) == ReplyRest(Pausing(a), reply, ep, w, body, retry)
  {
    hide AwaitPublish, LoopStep;
    PublishRest(ep, w, body, retry, a + 1);
  }

  lemma RelookedRest(error: Error, reply: Reply, ep: Endpoint, w: World, body: Body, retry: RetryManager)
    requires PlaceFits(Relooking(error), ep, retry)
    ensures var t := Resume(Relooking(error), reply, ep, w, body, retry);
            TurnFits(t, retry) && TurnRest(t, body, retry) == ReplyRest(Relooking(error), reply, ep, w, body, retry)
  {
    hide AwaitLookup, AfterCreate, Create;
    LookupRest(ep.(route := reply.address), w, body, retry);
  }

  lemma CreatingRest(phase: Phase, reply: Reply, ep: Endpoint, w: World, body: Body, retry: RetryManager)
    requires PlaceFits(Creating(phase), ep, retry)
    ensures var t := Resume(Creating(phase), reply, ep, w, body, retry);
            TurnFits(t, retry) && TurnRest(t, body, retry) == AfterCreate(SafeRest(phase, reply, ep, w), body, retry)
  {
    hide OnRegistered, OnLatest, AfterSchema, AwaitRegistration, AwaitSleep, Pause, AfterRecovery, AfterTry, CreateLoop;
    hide Settle, ResolveRest, ReplyRest;
    match phase
    case Arriving => RegistrationRest(Rerouted(ep, reply), w, body, retry, 0);
    case Trying(a) => RegisteredRest(a, reply, ep, w, body, retry);
    case Resolving(a) => LatestRest(a, reply, ep, w, body, retry);
    case Pinning(a, _) => StampRest(ep, w, body, retry, OutcomeOf(reply.verdict, reply.schema), a);
    case Retrying(a) => SleepRest(Rerouted(ep, reply), w, body, retry, a);
    case Backing(a) =>
      RegistrationRest(ep, w, body, retry, a + 1);
      RecoveredRest(ep, w, reply, a);
  }

  lemma RecoveredRest(ep: Endpoint, w: World, reply: Reply, a: nat)
    requires ep.retry.Valid() && a < ep.retry.maxRetries
    ensures AfterRecovery(Step(if reply.verdict.Interrupted? then Cancelled else Ok(()), ep, w), a)
         == if reply.verdict.Interrupted? then Step(Cancelled, ep, w) else CreateLoop(ep, w, a + 1)
  {
    hide CreateLoop;
  }

  /** Code between two awaits asks nothing, it only opens channels. */
  predicate AsksNothing(w: World, t: Turn) {
    t.w == w.(pool := t.w.pool)
  }

  lemma AttemptAsksNothing(ep: Endpoint, w: World, body: Body, out: Outcome<nat>, a: nat)
    ensures var t := AfterAttempt(ep, w, body, out, a); AsksNothing(w, t) && (out.Cancelled? ==> t.wait.Ended?)
  {
    hide Connect;
  }

  lemma SchemaAsksNothing(ep: Endpoint, w: World, body: Body, out: Outcome<SchemaInfo>, a: nat)
    ensures var t := AfterSchema(ep, w, body, out, a); AsksNothing(w, t) && (out.Cancelled? ==> t.wait.Ended?)
  {
    hide AfterAttempt;
    var (ep', out') := Stamp(ep, out);
    AttemptAsksNothing(ep', w, body, out', a);
  }

  lemma RegisteredAsksNothing(a: nat, reply: Reply, ep: Endpoint, w: World, body: Body)
    ensures var t := OnRegistered(a, reply, ep, w, body);
            AsksNothing(w, t) && (reply.verdict.Interrupted? ==> t.wait.Ended?)
  {
    hide AfterAttempt, Connect;
    match OutcomeOf(reply.verdict, reply.id)
    case Ok(id) =>
      var h := StartHealthCheck(ep.(clientId := id), w);
      AttemptAsksNothing(h.ep, h.w, body, Ok(id), a);
    case Raised(error) => AttemptAsksNothing(ep, w, body, Raised(RegistrationError(error)), a);
    case Cancelled => AttemptAsksNothing(ep, w, body, Cancelled, a);
  }

  lemma LatestAsksNothing(a: nat, reply: Reply, ep: Endpoint, w: World, body: Body)
    requires ep.schemaRef.Some?
    ensures var t := OnLatest(a, reply, ep, w, body);
            AsksNothing(w, t) && (reply.verdict.Interrupted? ==> t.wait.Ended?)
  {
    hide AfterSchema, Connect;
    SchemaAsksNothing(ep, w, body, OutcomeOf(reply.verdict, reply.schema), a);
    SchemaAsksNothing(ep, w, body, Raised(BadVersion), a);
  }

  /** A cancelled await ends the call. */
  lemma ResumeAsksNothing(place: Place, reply: Reply, ep: Endpoint, w: World, body: Body, retry: RetryManager)
    requires PlaceFits(place, ep, retry)
    ensures var t := Resume(place, reply, ep, w, body, retry);
            AsksNothing(w, t) && (reply.verdict.Interrupted? ==> t.wait.Ended?)
  {
    hide OnRegistered, OnLatest, AfterSchema, Connect;
    if place.Creating? {
      match place.phase {
        case Trying(a) => RegisteredAsksNothing(a, reply, ep, w, body);
        case Resolving(a) => LatestAsksNothing(a, reply, ep, w, body);
        case Pinning(a, _) => SchemaAsksNothing(ep, w, body, OutcomeOf(reply.verdict, reply.schema), a);
        case _ =>
      }
    }
  }

  predicate Over(t: Turn) {
    t.wait.Ended?
  }

  /** One turn: the next answer of the script. */
  function TakeTurn(t: Turn, body: Body, retry: RetryManager): (t': Turn)
    requires TurnFits(t, retry) && !Over(t)
    ensures TurnFits(t', retry) && (Over(t') || |t'.w.script| < |t.w.script|)
  {
    var i := Issue(t.w, t.wait.request);
    ResumeRest(t.wait.place, i.reply, t.ep, i.w, body, retry);
    ResumeAsksNothing(t.wait.place, i.reply, t.ep, i.w, body, retry);
    Resume(t.wait.place, i.reply, t.ep, i.w, body, retry)
  }

  /** A call that nobody interferes with. */
  function Alone(t: Turn, body: Body, retry: RetryManager): (r: Turn)
    requires TurnFits(t, retry)
    ensures Over(r)
    decreases if Over(t) then 0 else |t.w.script| + 1
  {
    if Over(t) then t else Alone(TakeTurn(t, body, retry), body, retry)
  }

  lemma {:induction false} AloneIsRest(t: Turn, body: Body, retry: RetryManager)
    requires TurnFits(t, retry)
    ensures var r := Alone(t, body, retry); Step(r.wait.out, r.ep, r.w) == TurnRest(t, body, retry)
    decreases if Over(t) then 0 else |t.w.script| + 1
  {
    hide Resume, ReplyRest, Issue, PlaceFits;
    if !Over(t) {
      var i := Issue(t.w, t.wait.request);
      ResumeRest(t.wait.place, i.reply, t.ep, i.w, body, retry);
      AloneIsRest(TakeTurn(t, body, retry), body, retry);
    }
  }

  /** A call that nobody interferes with does exactly what the retry loop of `send` does. */
  lemma AloneIsSend(ep: Endpoint, w: World, body: Body, retry: RetryManager)
    requires ep.retry.Valid() && retry.Valid()
    ensures TurnFits(AwaitPublish(ep, w, body, 0), retry)
    ensures var t, r := Alone(AwaitPublish(ep, w, body, 0), body, retry), SendLoop(ep, w, body, retry, 0);
            t.wait == Ended(r.out) && t.ep == r.ep && t.w == r.w
  {
    hide SendLoop, Alone, TurnRest;
    PublishRest(ep, w, body, retry, 0);
    AloneIsRest(AwaitPublish(ep, w, body, 0), body, retry);
  }
}
