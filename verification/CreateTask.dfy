/** `TopicProducer.create` cut at its awaits, so that several of them can interleave.  A task holds
    the endpoint and the point that `create` has reached; a step is one request with its answer
    and the code up to the next await. */
module CreateTask {
  import opened Wire
  import opened Retry
  import opened Connections
  import opened Network
  import opened Endpoint
  import opened EndpointHistory
  import opened EndpointBudget
  import opened Schemas

  /** The await that comes next; `attempts` is the counter of the retry loop. */
  datatype Phase =
    | Arriving                                // the lookup before the loop
    | Trying(attempts: nat)                   // connect, then the registration
    | Resolving(attempts: nat)                // the latest version of the schema
    | Pinning(attempts: nat, schemaId: nat)   // the pinned version of the schema
    | Retrying(attempts: nat)                 // the lookup after a failed try
    | Backing(attempts: nat)                  // the backoff
    | Done(out: Outcome<nat>)

  datatype Task = Task(ep: Endpoint, phase: Phase)

  function Start(ep: Endpoint): Task {
    Task(ep, Arriving)
  }

  predicate Fits(t: Task) {
    && t.ep.retry.Valid()
    && match t.phase
       case Arriving => true
       case Trying(a) => a <= t.ep.retry.maxRetries
       case Resolving(a) => a <= t.ep.retry.maxRetries && t.ep.schemaRef.Some?
       case Pinning(a, _) => a <= t.ep.retry.maxRetries && t.ep.schemaRef.Some? && t.ep.schemaRef.value.Pinned?
       case Retrying(a) => a < t.ep.retry.maxRetries
       case Backing(a) => a < t.ep.retry.maxRetries
       case Done(_) => true
  }

  /** After a try that ended with `out`: leave the loop or go round again. */
  function EndTry(ep: Endpoint, out: Outcome<nat>, a: nat): Task {
    Task(ep, if Final(ep, out, a) then Done(out) else Retrying(a))
  }

  /** `_try_create` once the schema lookup has ended with `out`. */
  function Stamp(ep: Endpoint, out: Outcome<SchemaInfo>): (Endpoint, Outcome<nat>) {
    match out
    case Ok(info) => (ep.(schemaId := Some(info.schemaId), schemaVersion := Some(info.version)), Ok(ep.clientId))
    case Raised(error) => (ep, Raised(error))
    case Cancelled => (ep, Cancelled)
  }

  function Conclude(ep: Endpoint, out: Outcome<SchemaInfo>, a: nat): Task {
    var (ep', out') := Stamp(ep, out);
    EndTry(ep', out', a)
  }

  function Registered(ep: Endpoint, w: World, a: nat): (Task, World) {
    var r := Registration(ep, w);
    if !r.out.Ok? then (EndTry(r.ep, r.out, a), r.w)
    else
      var h := StartHealthCheck(r.ep, r.w);
      (if h.ep.schemaRef.None? then EndTry(h.ep, Ok(h.ep.clientId), a) else Task(h.ep, Resolving(a)), h.w)
  }

  function Resolved(ep: Endpoint, w: World, a: nat): (Task, World)
    requires ep.schemaRef.Some?
  {
    var ref := ep.schemaRef.value;
    var (latest, w') := Ask(ep.topic, w, LatestOf(ref.subject));
    if !latest.Ok? then (Conclude(ep, latest, a), w')
    else
      match ref
      case Pinned(_, version) =>
        if version > latest.value.version then (Conclude(ep, Raised(BadVersion), a), w')
        else if version == latest.value.version then (Conclude(ep, latest, a), w')
        else (Task(ep, Pinning(a, latest.value.schemaId)), w')
      case AtLeast(_, version) =>
        (Conclude(ep, if latest.value.version < version then Raised(BadVersion) else latest, a), w')
      case UseLatest(_) => (Conclude(ep, latest, a), w')
  }

  /** One step of one task. */
  function Advance(t: Task, w: World): (Task, World)
    requires Fits(t)
  {
    match t.phase
    case Arriving =>
      var l := LookupNewBroker(t.ep, w);
      (Task(l.ep, if l.out.Cancelled? then Done(Cancelled) else Trying(0)), l.w)
    case Trying(a) => Registered(t.ep, w, a)
    case Resolving(a) => Resolved(t.ep, w, a)
    case Pinning(a, id) =>
      var (out, w') := Ask(t.ep.topic, w, VersionOf(id, t.ep.schemaRef.value.version));
      (Conclude(t.ep, out, a), w')
    case Retrying(a) =>
      var l := LookupNewBroker(t.ep, w);
      (Task(l.ep, if l.out.Cancelled? then Done(Cancelled) else Backing(a)), l.w)
    case Backing(a) =>
      var p := Pause(t.ep, w, t.ep.retry, a);
      (Task(p.ep, if p.out.Cancelled? then Done(Cancelled) else Trying(a + 1)), p.w)
    case Done(_) => (t, w)
  }

  // ----- a task on its own is `create` -----

  function AfterTry(ep: Endpoint, out: Outcome<nat>, w: World, a: nat): Step<nat>
    requires ep.retry.Valid() && a <= ep.retry.maxRetries
  {
    if Final(ep, out, a) then Step(out, ep, w) else AfterRecovery(Recover(ep, w, a), a)
  }

  function AfterRecovery(r: Step<()>, a: nat): Step<nat>
    requires r.ep.retry.Valid() && a < r.ep.retry.maxRetries
  {
    if r.out.Cancelled? then Step(Cancelled, r.ep, r.w) else CreateLoop(r.ep, r.w, a + 1)
  }

  /** What `create` still has to do from a given point, in the words of `Endpoint`. */
  function Rest(t: Task, w: World): Step<nat>
    requires Fits(t)
  {
    match t.phase
    case Arriving => Create(t.ep, w)
    case Trying(a) => CreateLoop(t.ep, w, a)
    case Resolving(a) =>
      var (out, w') := ResolveSchema(t.ep.topic, t.ep.schemaRef.value, w);
      var (ep', out') := Stamp(t.ep, out);
      AfterTry(ep', out', w', a)
    case Pinning(a, id) =>
      var (out, w') := Ask(t.ep.topic, w, VersionOf(id, t.ep.schemaRef.value.version));
      var (ep', out') := Stamp(t.ep, out);
      AfterTry(ep', out', w', a)
    case Retrying(a) => AfterRecovery(Recover(t.ep, w, a), a)
    case Backing(a) => AfterRecovery(Pause(t.ep, w, t.ep.retry, a), a)
    case Done(out) => Step(out, t.ep, w)
  }

  /** An upper bound on the steps a task has left. */
  function Left(t: Task): nat
    requires Fits(t)
  {
    var m := t.ep.retry.maxRetries;
    match t.phase
    case Arriving => 5 * m + 6
    case Trying(a) => 5 * (m - a) + 5
    case Resolving(a) => 5 * (m - a) + 4
    case Pinning(a, _) => 5 * (m - a) + 3
    case Retrying(a) => 5 * (m - a) + 2
    case Backing(a) => 5 * (m - a) + 1
    case Done(_) => 0
  }

  /** No request changes what an endpoint is. */
  lemma SameEndpoint(ep: Endpoint, w: World)
    ensures SameIdentity(ep, LookupNewBroker(ep, w).ep)
    ensures SameIdentity(ep, Registration(ep, w).ep)
    ensures SameIdentity(ep, StartHealthCheck(ep, w).ep)
  {
    hide Replay, Connect, WellFormed;
  }

  lemma RegisteredFits(t: Task, w: World)
    requires Fits(t) && t.phase.Trying?
    ensures var t' := Registered(t.ep, w, t.phase.attempts).0;
            Fits(t') && Left(t') < Left(t) && SameIdentity(t.ep, t'.ep)
  {
    hide Registration, StartHealthCheck;
    SameEndpoint(t.ep, w);
    var r := Registration(t.ep, w);
    SameEndpoint(r.ep, r.w);
  }

  lemma ResolvedFits(t: Task, w: World)
    requires Fits(t) && t.phase.Resolving?
    ensures var t' := Resolved(t.ep, w, t.phase.attempts).0;
            Fits(t') && Left(t') < Left(t) && SameIdentity(t.ep, t'.ep)
  {
    hide Ask;
  }

  lemma AdvanceFits(t: Task, w: World)
    requires Fits(t)
    ensures var t' := Advance(t, w).0;
            Fits(t') && SameIdentity(t.ep, t'.ep) && (!t.phase.Done? ==> Left(t') < Left(t))
  {
    hide LookupNewBroker, Ask, Registered, Resolved;
    match t.phase
    case Trying(_) => RegisteredFits(t, w);
    case Resolving(_) => ResolvedFits(t, w);
    case Arriving => SameEndpoint(t.ep, w);
    case Retrying(_) => SameEndpoint(t.ep, w);
    case _ =>
  }

  lemma EndTryRests(ep: Endpoint, out: Outcome<nat>, w: World, a: nat)
    requires ep.retry.Valid() && a <= ep.retry.maxRetries
    ensures Fits(EndTry(ep, out, a)) && Rest(EndTry(ep, out, a), w) == AfterTry(ep, out, w, a)
  {
    hide Recover, CreateLoop;
  }

  lemma ConcludeRests(ep: Endpoint, out: Outcome<SchemaInfo>, w: World, a: nat)
    requires ep.retry.Valid() && a <= ep.retry.maxRetries
    ensures Fits(Conclude(ep, out, a))
    ensures var (ep', out') := Stamp(ep, out); Rest(Conclude(ep, out, a), w) == AfterTry(ep', out', w, a)
  {
    hide AfterTry, Rest;
    var (ep', out') := Stamp(ep, out);
    EndTryRests(ep', out', w, a);
  }

  lemma RegisteredRests(t: Task, w: World)
    requires Fits(t) && t.phase.Trying?
    ensures var (t', w') := Registered(t.ep, w, t.phase.attempts); Fits(t') && Rest(t', w') == Rest(t, w)
  {
    hide Registration, Connect, ResolveSchema, Recover;
    var a := t.phase.attempts;
    RegisteredFits(t, w);
    var r := Registration(t.ep, w);
    SameEndpoint(t.ep, w);
    if !r.out.Ok? {
      EndTryRests(r.ep, r.out, r.w, a);
    } else {
      var h := StartHealthCheck(r.ep, r.w);
      SameEndpoint(r.ep, r.w);
      if h.ep.schemaRef.None? {
        EndTryRests(h.ep, Ok(h.ep.clientId), h.w, a);
      }
    }
  }

  lemma ResolvedRests(t: Task, w: World)
    requires Fits(t) && t.phase.Resolving?
    ensures var (t', w') := Resolved(t.ep, w, t.phase.attempts); Fits(t') && Rest(t', w') == Rest(t, w)
  {
    hide Ask, AfterTry, Conclude;
    var a, ref := t.phase.attempts, t.ep.schemaRef.value;
    ResolvedFits(t, w);
    var (latest, w') := Ask(t.ep.topic, w, LatestOf(ref.subject));
    ConcludeRests(t.ep, latest, w', a);
    ConcludeRests(t.ep, Raised(BadVersion), w', a);
  }

  /** No step changes what the whole comes to. */
  lemma AdvanceIsCreate(t: Task, w: World)
    requires Fits(t)
    ensures Fits(Advance(t, w).0)
    ensures var (t', w') := Advance(t, w); Rest(t', w') == Rest(t, w)
  {
    hide LookupNewBroker, Ask, Pause, Registered, Resolved, Conclude, CreateLoop;
    AdvanceFits(t, w);
    match t.phase
    case Trying(_) => RegisteredRests(t, w);
    case Resolving(_) => ResolvedRests(t, w);
    case Pinning(a, id) =>
      var (out, w') := Ask(t.ep.topic, w, VersionOf(id, t.ep.schemaRef.value.version));
      ConcludeRests(t.ep, out, w', a);
    case _ =>
  }

  /** Let one task run until it ends, counting its steps. */
  function Drive(t: Task, w: World): (r: (Task, World, nat))
    requires Fits(t)
    ensures r.0.phase.Done? && r.2 <= Left(t)
    decreases Left(t)
  {
    if t.phase.Done? then (t, w, 0)
    else
      AdvanceFits(t, w);
      var (t', w') := Advance(t, w);
      var r := Drive(t', w');
      (r.0, r.1, r.2 + 1)
  }

  lemma {:induction false} DriveIsRest(t: Task, w: World)
    requires Fits(t)
    ensures var (t', w', _) := Drive(t, w); Step(t'.phase.out, t'.ep, w') == Rest(t, w)
    decreases Left(t)
  {
    hide Advance, Rest;
    if t.phase.Done? {
      DoneRests(t, w);
    } else {
      AdvanceFits(t, w);
      AdvanceIsCreate(t, w);
      var (t', w') := Advance(t, w);
      DriveIsRest(t', w');
    }
  }

  lemma DoneRests(t: Task, w: World)
    requires Fits(t) && t.phase.Done?
    ensures Rest(t, w) == Step(t.phase.out, t.ep, w)
  {
  }

  /** A task left to itself ends within 5m + 6 steps, and has then done exactly what `create` does. */
  lemma AloneIsCreate(ep: Endpoint, w: World)
    requires ep.retry.Valid()
    ensures var (t, w', steps) := Drive(Start(ep), w);
            && steps <= 5 * ep.retry.maxRetries + 6
            && Step(t.phase.out, t.ep, w') == Create(ep, w)
  {
    hide Create, Drive;
    DriveIsRest(Start(ep), w);
  }

  // ----- what one step keeps -----

  lemma ConcludeAdvances(ep: Endpoint, w: World, w': World, out: Outcome<SchemaInfo>, a: nat)
    requires Advances(ep, w, ep, w')
    ensures Advances(ep, w, Conclude(ep, out, a).ep, w')
  {
    hide Advances;
    var ep' := Conclude(ep, out, a).ep;
    StampAdvances(ep, w, ep, w', ep'.schemaId, ep'.schemaVersion);
  }

  lemma RegisteredAdvances(ep: Endpoint, w: World, a: nat)
    ensures var (t', w') := Registered(ep, w, a); Advances(ep, w, t'.ep, w')
  {
    hide Registration, StartHealthCheck, Advances;
    var r := Registration(ep, w);
    RegistrationAdvances(ep, w);
    if r.out.Ok? {
      var h := StartHealthCheck(r.ep, r.w);
      HealthAdvances(r.ep, r.w);
      AdvancesTransitive(ep, w, r.ep, r.w, h.ep, h.w);
    }
  }

  lemma ResolvedAdvances(ep: Endpoint, w: World, a: nat)
    requires ep.schemaRef.Some?
    ensures var (t', w') := Resolved(ep, w, a); Advances(ep, w, t'.ep, w')
  {
    hide Ask, Advances, Conclude;
    var query := LatestOf(ep.schemaRef.value.subject);
    var (latest, w') := Ask(ep.topic, w, query);
    AskAdvances(ep, w, query);
    ConcludeAdvances(ep, w, w', latest, a);
    ConcludeAdvances(ep, w, w', Raised(BadVersion), a);
  }

  /** Every step keeps what every operation of an endpoint keeps. */
  lemma AdvanceAdvances(t: Task, w: World)
    requires Fits(t)
    ensures var (t', w') := Advance(t, w); Advances(t.ep, w, t'.ep, w')
  {
    hide Registered, Resolved, LookupNewBroker, Pause, Ask, Advances, Conclude;
    match t.phase
    case Arriving => LookupAdvances(t.ep, w);
    case Trying(a) => RegisteredAdvances(t.ep, w, a);
    case Resolving(a) => ResolvedAdvances(t.ep, w, a);
    case Pinning(a, id) =>
      var query := VersionOf(id, t.ep.schemaRef.value.version);
      AskAdvances(t.ep, w, query);
      var (out, w') := Ask(t.ep.topic, w, query);
      ConcludeAdvances(t.ep, w, w', out, a);
    case Retrying(_) => LookupAdvances(t.ep, w);
    case Backing(a) => PauseAdvances(t.ep, w, t.ep.retry, a);
    case Done(_) => Standstill(t.ep, w);
  }

  lemma Standstill(ep: Endpoint, w: World)
    ensures Advances(ep, w, ep, w)
  {
    hide Replay, AllFaithful, WellFormed;
  }

  // ----- the account of one task -----

  /** Requests made since the view `v0`. */
  predicate Spent(v0: View, v: View, retry: RetryManager, tries: nat, lookups: nat, sleeps: nat, queries: nat) {
    && v.registers == v0.registers + tries && v.lookups == v0.lookups + lookups && v.sleeps == v0.sleeps + sleeps
    && v0.queries <= v.queries <= v0.queries + queries
    && SumLow(retry, 0, sleeps) <= v.slept - v0.slept <= SumHigh(retry, 0, sleeps)
  }

  /** What a task has asked for, read off the point it has reached. */
  predicate Account(v0: View, v: View, t: Task) {
    && NothingSent(v0, v)
    && match t.phase
       case Arriving => v == v0
       case Trying(a) => Spent(v0, v, t.ep.retry, a, a + 1, a, 2 * a)
       case Resolving(a) => Spent(v0, v, t.ep.retry, a + 1, a + 1, a, 2 * a) && InSync(v)
       case Pinning(a, _) => Spent(v0, v, t.ep.retry, a + 1, a + 1, a, 2 * a + 1) && InSync(v)
       case Retrying(a) => Spent(v0, v, t.ep.retry, a + 1, a + 1, a, 2 * (a + 1)) && InSync(v)
       case Backing(a) => Spent(v0, v, t.ep.retry, a + 1, a + 2, a, 2 * (a + 1))
       case Done(out) => CreateAccount(v0, v, t.ep.retry, out)
  }

  lemma EndTryAccount(v0: View, v: View, ep: Endpoint, out: Outcome<nat>, a: nat)
    requires NothingSent(v0, v) && InSync(v) && ep.retry.Valid() && a <= ep.retry.maxRetries
    requires Spent(v0, v, ep.retry, a + 1, a + 1, a, 2 * (a + 1))
    ensures Account(v0, v, EndTry(ep, out, a))
  {
  }

  lemma ConcludeAccount(v0: View, v: View, ep: Endpoint, out: Outcome<SchemaInfo>, a: nat)
    requires NothingSent(v0, v) && InSync(v) && ep.retry.Valid() && a <= ep.retry.maxRetries
    requires Spent(v0, v, ep.retry, a + 1, a + 1, a, 2 * (a + 1))
    ensures Account(v0, v, Conclude(ep, out, a))
  {
    hide Spent, Account;
    var (ep', out') := Stamp(ep, out);
    EndTryAccount(v0, v, ep', out', a);
  }

  lemma RegisteredAccount(v0: View, t: Task, w: World)
    requires Fits(t) && t.phase.Trying? && Account(v0, Seen(w, t.ep.topic), t)
    ensures var (t', w') := Registered(t.ep, w, t.phase.attempts); Account(v0, Seen(w', t.ep.topic), t')
  {
    hide Registration, StartHealthCheck, Replay, SumLow, SumHigh;
    var a := t.phase.attempts;
    var r := Registration(t.ep, w);
    RegistrationView(t.ep, w);
    SameEndpoint(t.ep, w);
    if !r.out.Ok? {
      EndTryAccount(v0, Seen(r.w, t.ep.topic), r.ep, r.out, a);
    } else {
      var h := StartHealthCheck(r.ep, r.w);
      SameEndpoint(r.ep, r.w);
      HealthUnseen(r.ep, r.w);
      if h.ep.schemaRef.None? {
        EndTryAccount(v0, Seen(h.w, t.ep.topic), h.ep, Ok(h.ep.clientId), a);
      }
    }
  }

  lemma HealthUnseen(ep: Endpoint, w: World)
    ensures Seen(StartHealthCheck(ep, w).w, ep.topic) == Seen(w, ep.topic)
  {
    hide Connect;
  }

  lemma ResolvedAccount(v0: View, t: Task, w: World)
    requires Fits(t) && t.phase.Resolving? && Account(v0, Seen(w, t.ep.topic), t)
    ensures var (t', w') := Resolved(t.ep, w, t.phase.attempts); Account(v0, Seen(w', t.ep.topic), t')
  {
    hide Ask, Replay, Conclude, SumLow, SumHigh;
    var a, query := t.phase.attempts, LatestOf(t.ep.schemaRef.value.subject);
    AskView(t.ep.topic, w, query);
    var (latest, w') := Ask(t.ep.topic, w, query);
    ConcludeAccount(v0, Seen(w', t.ep.topic), t.ep, latest, a);
    ConcludeAccount(v0, Seen(w', t.ep.topic), t.ep, Raised(BadVersion), a);
  }

  lemma BackingAccount(v0: View, t: Task, w: World)
    requires Fits(t) && t.phase.Backing? && Account(v0, Seen(w, t.ep.topic), t)
    ensures var (t', w') := Advance(t, w); Account(v0, Seen(w', t.ep.topic), t')
  {
    hide Replay, SumLow, SumHigh;
    var a := t.phase.attempts;
    PauseView(t.ep, w, t.ep.retry, a);
    SumLowLast(t.ep.retry, 0, a);
    SumHighLast(t.ep.retry, 0, a);
  }

  lemma AdvanceAccount(v0: View, t: Task, w: World)
    requires Fits(t) && Account(v0, Seen(w, t.ep.topic), t)
    ensures var (t', w') := Advance(t, w); Account(v0, Seen(w', t.ep.topic), t')
  {
    hide Registered, Resolved, LookupNewBroker, Ask, Replay, Conclude;
    match t.phase
    case Trying(_) => RegisteredAccount(v0, t, w);
    case Resolving(_) => ResolvedAccount(v0, t, w);
    case Backing(_) => BackingAccount(v0, t, w);
    case Pinning(a, id) =>
      var query := VersionOf(id, t.ep.schemaRef.value.version);
      AskView(t.ep.topic, w, query);
      var (out, w') := Ask(t.ep.topic, w, query);
      ConcludeAccount(v0, Seen(w', t.ep.topic), t.ep, out, a);
    case Arriving =>
      LookupView(t.ep, w);
      SameEndpoint(t.ep, w);
    case Retrying(_) =>
      LookupView(t.ep, w);
      SameEndpoint(t.ep, w);
    case Done(_) =>
  }

  // ----- what one step keeps of the rest -----

  /** The endpoint has a stub from its first registration on. */
  predicate Connected(t: Task) {
    t.phase.Resolving? || t.phase.Pinning? || (t.phase.Done? && t.phase.out.Ok?) ==> t.ep.stub.Some?
  }

  lemma AdvanceConnects(t: Task, w: World)
    requires Fits(t) && Connected(t)
    ensures Connected(Advance(t, w).0)
  {
    hide Replay, Connect, WellFormed, Ask;
  }

  /** A pinned version is asked for under the id of the latest answer, and a create that has
      returned has stamped the endpoint. */
  predicate Labelled(t: Task, trace: seq<Event>) {
    && (t.phase.Pinning? && t.ep.schemaRef.Some? ==>
          LabelOf(trace, t.ep.topic, t.ep.schemaRef.value).lead == Some(t.phase.schemaId))
    && (t.phase.Done? && t.phase.out.Ok? && t.ep.schemaRef.Some? ==> Stamped(t.ep, trace) && Complete(t.ep))
  }

  /** From here on the stamp stays what the registry's answers amount to. */
  predicate KeepsStamp(t: Task, w: World, t': Task, w': World) {
    Labelled(t', w'.trace) && (Stamped(t.ep, w.trace) ==> Stamped(t'.ep, w'.trace))
  }

  /** A try that ends leaves the endpoint with the new stamp, or with the old one. */
  lemma ConcludeLabels(ep: Endpoint, w: World, out: Outcome<SchemaInfo>, w': World, a: nat)
    requires ep.schemaRef.Some?
    requires StampDue(w'.trace, ep.topic, ep.schemaRef) ==
             if out.Ok? then Some(out.value) else StampDue(w.trace, ep.topic, ep.schemaRef)
    ensures var t := Conclude(ep, out, a);
            Labelled(t, w'.trace) && (Stamped(ep, w.trace) ==> Stamped(t.ep, w'.trace))
  {
    hide LabelOf, StampDue;
  }

  lemma RegisteredLabels(t: Task, w: World)
    requires Fits(t) && t.phase.Trying?
    ensures var (t', w') := Registered(t.ep, w, t.phase.attempts); KeepsStamp(t, w, t', w')
  {
    hide Registration, Connect, StampDue;
    RegistrationStamps(t.ep, w);
  }

  lemma ResolvedLabels(t: Task, w: World)
    requires Fits(t) && t.phase.Resolving?
    ensures var (t', w') := Resolved(t.ep, w, t.phase.attempts); KeepsStamp(t, w, t', w')
  {
    hide Ask, LabelOf, Conclude;
    var ref, a := t.ep.schemaRef.value, t.phase.attempts;
    var query := LatestOf(ref.subject);
    AskTrace(t.ep.topic, w, query);
    AskLabels(t.ep.topic, ref, w, query);
    var (latest, w') := Ask(t.ep.topic, w, query);
    if !latest.Ok? || Meets(ref, latest.value.version) {
      ConcludeLabels(t.ep, w, latest, w', a);
    } else {
      ConcludeLabels(t.ep, w, Raised(BadVersion), w', a);
    }
  }

  lemma PinnedLabels(t: Task, w: World)
    requires Fits(t) && t.phase.Pinning? && Labelled(t, w.trace)
    ensures var (t', w') := Advance(t, w); KeepsStamp(t, w, t', w')
  {
    hide Ask, LabelOf, Conclude;
    var ref := t.ep.schemaRef.value;
    var query := VersionOf(t.phase.schemaId, ref.version);
    AskTrace(t.ep.topic, w, query);
    AskLabels(t.ep.topic, ref, w, query);
    var (out, w') := Ask(t.ep.topic, w, query);
    ConcludeLabels(t.ep, w, out, w', t.phase.attempts);
  }

  lemma AdvanceLabels(t: Task, w: World)
    requires Fits(t) && Labelled(t, w.trace)
    ensures var (t', w') := Advance(t, w); KeepsStamp(t, w, t', w')
  {
    hide Registered, Resolved, LookupNewBroker, Ask, Pause, StampDue, Conclude;
    match t.phase
    case Trying(_) => RegisteredLabels(t, w);
    case Resolving(_) => ResolvedLabels(t, w);
    case Pinning(_, _) => PinnedLabels(t, w);
    case Backing(a) => PauseStamps(t.ep, w, t.ep.retry, a);
    case Arriving => LookupStamps(t.ep, w);
    case Retrying(_) => LookupStamps(t.ep, w);
    case Done(_) =>
  }
}
