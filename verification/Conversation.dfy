/** The conversation of one call with its environment, told from the events alone: which request each
    answer leads to, and which outcome.  Nothing here refers to the retry loops or to what they use;
    `CreateConverses` and its counterpart for `send` in `SendConversation` show that the loops hold
    exactly this conversation. */
module Conversation {
  import opened Wire
  import opened Retry
  import opened Connections
  import opened Network
  import opened Endpoint
  import opened EndpointHistory
  import opened CreateTask
  import Schemas

  datatype Reaction =
    | Looks                            // look the broker up
    | Registers
    | Queries(query: Query)            // ask the schema registry
    | Publishes
    | Sleeps(low: int, high: int)
    | Ends(out: Outcome<nat>)

  /** What the conversation is about.  `body` is what a send publishes; a create has none. */
  datatype Terms = Terms(retry: RetryManager, ref: Option<SchemaRef>, body: Option<Body>)

  /** The errors after which another try is worthwhile. */
  predicate Transient(status: Status) {
    status == Unavailable || status == DeadlineExceeded || status == ResourceExhausted
  }

  /** Registrations since the last publish, that is, tries of the current create. */
  function Tries(h: seq<Event>): nat {
    if h == [] then 0
    else
      var q := h[|h| - 1].request;
      if q.Publish? then 0 else Tries(h[..|h| - 1]) + if q.Register? then 1 else 0
  }

  /** Publishes since the last registration, that is, attempts since the start or a recreation. */
  function Attempts(h: seq<Event>): nat {
    if h == [] then 0
    else
      var q := h[|h| - 1].request;
      if q.Register? then 0 else Attempts(h[..|h| - 1]) + if q.Publish? then 1 else 0
  }

  /** The id that the broker assigned last. */
  function AssignedId(h: seq<Event>): nat {
    if h == [] then 0
    else
      var e := h[|h| - 1];
      if e.request.Register? && e.reply.verdict.Served? then e.reply.id else AssignedId(h[..|h| - 1])
  }

  /** The backoff after the k-th failure in a row: up to k times the base, at most the cap, and at
      least half of that. */
  function BackoffAfter(k: nat, r: RetryManager): Reaction {
    var high := if k * r.baseBackoffMs <= r.maxBackoffMs then k * r.baseBackoffMs else r.maxBackoffMs;
    Sleeps(if high < 4 then 1 else high / 2, high)
  }

  /** After a failed registration or registry query: another lookup if the error is transient and
      there are tries left, and the error itself otherwise. */
  function AfterFailure(h: seq<Event>, status: Status, t: Terms): Reaction {
    if Transient(status) && Tries(h) <= t.retry.maxRetries then Looks else Ends(Raised(Rpc(status)))
  }

  /** A create has done all it has to. */
  function Created(h: seq<Event>, t: Terms): Reaction {
    if t.body.Some? then Publishes else Ends(Ok(AssignedId(h)))
  }

  function AfterRegistration(h: seq<Event>, reply: Reply, t: Terms): Reaction {
    match reply.verdict
    case Served => if t.ref.None? then Created(h, t) else Queries(LatestOf(t.ref.value.subject))
    case Failed(AlreadyExists) => Ends(Raised(Unrecoverable))
    case Failed(status) => AfterFailure(h, status, t)
    case Crashed => Ends(Raised(Foreign))
    case Interrupted => Ends(Cancelled)
  }

  function AfterQuery(h: seq<Event>, query: Query, reply: Reply, t: Terms): Reaction
    requires t.ref.Some?
  {
    match reply.verdict
    case Served =>
      var version := reply.schema.version;
      if query.VersionOf? then Created(h, t)
      else
        (match t.ref.value
         case UseLatest(_) => Created(h, t)
         case AtLeast(_, least) => if version >= least then Created(h, t) else Ends(Raised(BadVersion))
         case Pinned(_, pin) =>
           if version == pin then Created(h, t)
           else if version > pin then Queries(VersionOf(reply.schema.schemaId, pin))
           else Ends(Raised(BadVersion)))
    case Failed(status) => AfterFailure(h, status, t)
    case Crashed => Ends(Raised(Foreign))
    case Interrupted => Ends(Cancelled)
  }

  function AfterPublish(h: seq<Event>, reply: Reply, t: Terms): Reaction {
    match reply.verdict
    case Served => Ends(Ok(reply.id))
    case Failed(status) =>
      if !Transient(status) then Ends(Raised(Rpc(status)))
      else if Attempts(h) <= t.retry.maxRetries then BackoffAfter(Attempts(h), t.retry)
      else Looks
    case Crashed => Ends(Raised(Foreign))
    case Interrupted => Ends(Cancelled)
  }

  /** A lookup comes first in a create, where its failure is ignored; or after a failed try, where it
      is too; or after the last failed publish, whose error stands if the lookup fails. */
  function AfterLookup(h: seq<Event>, reply: Reply, t: Terms): Reaction
    requires h != []
  {
    if reply.verdict.Interrupted? then Ends(Cancelled)
    else if |h| == 1 || h[|h| - 2].request.Lookup? then Registers
    else
      var before := h[|h| - 2];
      if !before.request.Publish? then BackoffAfter(Tries(h), t.retry)
      else if reply.verdict.Served? then Looks
      else if before.reply.verdict.Failed? then Ends(Raised(Rpc(before.reply.verdict.status)))
      else Ends(Raised(Foreign))
  }

  /** What the last event of `h` leads to. */
  function React(h: seq<Event>, t: Terms): Reaction
    requires h != []
  {
    var e := h[|h| - 1];
    match e.request
    case Lookup(_, _, _) => AfterLookup(h, e.reply, t)
    case Register(_, _, _, _, _, _, _) => AfterRegistration(h, e.reply, t)
    case Registry(_, _, query) => if t.ref.Some? then AfterQuery(h, query, e.reply, t) else Ends(Cancelled)
    case Publish(_, _, _, _) => AfterPublish(h, e.reply, t)
    case Sleep(_, _, _) =>
      if e.reply.verdict.Interrupted? then Ends(Cancelled)
      else if |h| >= 2 && h[|h| - 2].request.Publish? then Publishes
      else Registers
  }

  predicate Fulfils(q: Request, r: Reaction, t: Terms) {
    match r
    case Looks => q.Lookup?
    case Registers => q.Register?
    case Queries(query) => q.Registry? && q.query == query
    case Publishes => q.Publish? && t.body == Some(q.message.body)
    case Sleeps(low, high) => q.Sleep? && q.low == low && q.high == high
    case Ends(_) => false
  }

  /** Each event but the first is what the one before leads to. */
  ghost predicate InOrder(h: seq<Event>, t: Terms) {
    forall i :: 0 < i < |h| ==> Fulfils(h[i].request, React(h[..i], t), t)
  }

  /** A whole conversation, from the first request to the outcome. */
  ghost predicate Converses(h: seq<Event>, t: Terms, out: Outcome<nat>) {
    h != [] && InOrder(h, t) && React(h, t) == Ends(out)
  }

  lemma InOrderOn(h: seq<Event>, e: Event, t: Terms)
    requires InOrder(h, t) && (h != [] ==> Fulfils(e.request, React(h, t), t))
    ensures InOrder(h + [e], t)
  {
    hide Fulfils, React;
    var longer := h + [e];
    forall i | 0 < i < |longer|
      ensures Fulfils(longer[i].request, React(longer[..i], t), t)
    {
      if i < |h| {
        assert longer[..i] == h[..i];
      } else {
        assert longer[..i] == h;
      }
    }
  }

  lemma CountsOn(h: seq<Event>, e: Event)
    ensures Tries(h + [e]) == (if e.request.Publish? then 0 else Tries(h) + if e.request.Register? then 1 else 0)
    ensures Attempts(h + [e]) == (if e.request.Register? then 0 else Attempts(h) + if e.request.Publish? then 1 else 0)
    ensures AssignedId(h + [e]) == if e.request.Register? && e.reply.verdict.Served? then e.reply.id else AssignedId(h)
  {
    assert (h + [e])[..|h + [e]| - 1] == h;
  }

  lemma BackoffIs(k: nat, r: RetryManager)
    requires r.Valid()
    ensures BackoffAfter(k + 1, r) == Sleeps(r.Low(k), r.High(k))
  {
    assert (k + 1) * r.baseBackoffMs == r.baseBackoffMs * (k + 1);
    BackoffRange(r, k);
  }

  // ----- `create` and `subscribe` hold this conversation -----

  /** The request that a create makes next, or its outcome. */
  function Due(phase: Phase, ref: Option<SchemaRef>, r: RetryManager): Reaction {
    match phase
    case Arriving => Looks
    case Trying(_) => Registers
    case Resolving(_) => if ref.Some? then Queries(LatestOf(ref.value.subject)) else Registers
    case Pinning(_, id) =>
      if ref.Some? && ref.value.Pinned? then Queries(VersionOf(id, ref.value.version)) else Registers
    case Retrying(_) => Looks
    case Backing(a) => BackoffAfter(a + 1, r)
    case Done(out) => Ends(out)
  }

  predicate LastIs(h: seq<Event>, lookup: bool) {
    && h != []
    && var q := h[|h| - 1].request;
       if lookup then q.Lookup? else q.Register? || q.Registry?
  }

  /** What the point that a create has reached says about its conversation so far. */
  predicate PhaseTells(phase: Phase, ep: Endpoint, h: seq<Event>, t: Terms) {
    && t.ref == ep.schemaRef
    && match phase
       case Arriving => Tries(h) == 0 && (h == [] || LastIs(h, true))
       case Trying(a) => Tries(h) == a
       case Resolving(a) => Tries(h) == a + 1 && Assigned(ep, h, t)
       case Pinning(a, _) => Tries(h) == a + 1 && Assigned(ep, h, t)
       case Retrying(a) => Tries(h) == a + 1 && LastIs(h, false)
       case Backing(a) => Tries(h) == a + 1 && |h| >= 2 && LastIs(h, true) && LastIs(h[..|h| - 1], false)
       case Done(_) => true
  }

  /** A create on its own returns the id that it was assigned; it publishes nothing. */
  predicate Assigned(ep: Endpoint, h: seq<Event>, t: Terms) {
    Attempts(h) == 0 && (t.body.None? ==> AssignedId(h) == ep.clientId)
  }

  /** The step from `phase` to `phase'`, in which `e` happened, is one step of the conversation. */
  ghost predicate StepConverses(phase: Phase, e: Event, phase': Phase, ep': Endpoint, h: seq<Event>, t: Terms) {
    && Fulfils(e.request, Due(phase, t.ref, t.retry), t)
    && PhaseTells(phase', ep', h + [e], t)
    && React(h + [e], t) == Due(phase', t.ref, t.retry)
  }

  lemma LookupEvent(ep: Endpoint, w: World) returns (e: Event)
    ensures var l := LookupNewBroker(ep, w);
            && l.w.trace == w.trace + [e] && e.request.Lookup? && e.request.topic == ep.topic
            && (l.out.Cancelled? <==> e.reply.verdict.Interrupted?)
            && SameIdentity(ep, l.ep) && l.ep.clientId == ep.clientId
  {
    hide Replay, Connect;
    var w' := LookupNewBroker(ep, w).w;
    e := w'.trace[|w.trace|];
  }

  lemma PauseEvent(ep: Endpoint, w: World, retry: RetryManager, attempt: nat) returns (e: Event)
    ensures var p := Pause(ep, w, retry, attempt);
            && p.w.trace == w.trace + [e] && e.request == Sleep(ep.topic, retry.Low(attempt), retry.High(attempt))
            && (p.out.Cancelled? <==> e.reply.verdict.Interrupted?) && p.ep == ep
  {
    hide Replay;
    e := Pause(ep, w, retry, attempt).w.trace[|w.trace|];
  }

  /** The outcome of a registration, in the answer's own words. */
  function RegistrationOutcome(reply: Reply): Outcome<nat> {
    match reply.verdict
    case Served => Ok(reply.id)
    case Failed(AlreadyExists) => Raised(Unrecoverable)
    case Failed(status) => Raised(Rpc(status))
    case Crashed => Raised(Foreign)
    case Interrupted => Cancelled
  }

  lemma RegistrationEvent(ep: Endpoint, w: World) returns (e: Event)
    ensures var r := Registration(ep, w);
            && r.w.trace == w.trace + [e] && e.request.Register? && e.request.topic == ep.topic
            && r.out == RegistrationOutcome(e.reply) && SameIdentity(ep, r.ep)
            && (r.out.Ok? ==> r.ep.clientId == r.out.value)
  {
    hide Replay, Connect;
    e := Registration(ep, w).w.trace[|w.trace|];
  }

  /** A try begins with a registration; if that is not served it is all there is, and decides the
      outcome. */
  predicate BeginsTry(trace: seq<Event>, n: nat, out: Outcome<nat>) {
    && n < |trace| && trace[n].request.Register?
    && (!trace[n].reply.verdict.Served? ==> n + 1 == |trace| && out == RegistrationOutcome(trace[n].reply))
    && (out.Ok? ==> trace[n].reply.verdict.Served? && out.value == trace[n].reply.id)
  }

  lemma TryBegins(ep: Endpoint, w: World)
    ensures var t := TryCreate(ep, w); w.trace <= t.w.trace && BeginsTry(t.w.trace, |w.trace|, t.out)
  {
    hide Registration, ResolveSchema, Replay, Connect, OthersKept, AllFaithful;
    var e := RegistrationEvent(ep, w);
    var r := Registration(ep, w);
    if r.out.Ok? {
      SettleAdvances(r.ep, r.w);
    }
  }

  lemma QueryEvent(topic: string, w: World, query: Query) returns (e: Event)
    ensures var (out, w') := Ask(topic, w, query);
            && w'.trace == w.trace + [e] && e.request.Registry? && e.request.topic == topic && e.request.query == query
            && out == match e.reply.verdict
                      case Served => Ok(e.reply.schema)
                      case Failed(status) => Raised(Rpc(status))
                      case Crashed => Raised(Foreign)
                      case Interrupted => Cancelled
  {
    hide Replay, Connect;
    e := Ask(topic, w, query).1.trace[|w.trace|];
  }

  /** The end of a try, in an answer's own words. */
  lemma TryEnds(ep: Endpoint, out: Outcome<nat>, a: nat)
    ensures var phase := EndTry(ep, out, a).phase;
            && (!out.Raised? ==> phase == Done(out))
            && (out.Raised? && !out.error.Rpc? ==> phase == Done(out))
            && (out.Raised? && out.error.Rpc? ==>
                  phase == if Transient(out.error.status) && a + 1 <= ep.retry.maxRetries then Retrying(a)
                           else Done(out))
  {
  }

  lemma TryingConverses(ep: Endpoint, w: World, a: nat, h: seq<Event>, t: Terms) returns (e: Event)
    requires t.body.None? && t.retry == ep.retry && PhaseTells(Trying(a), ep, h, t)
    ensures var (k, w') := Registered(ep, w, a);
            && w'.trace == w.trace + [e] && SameIdentity(ep, k.ep) && StepConverses(Trying(a), e, k.phase, k.ep, h, t)
  {
    hide Registration, EndTry, Tries, Attempts, AssignedId, Connect;
    e := RegistrationEvent(ep, w);
    CountsOn(h, e);
    var r := Registration(ep, w);
    TryEnds(r.ep, r.out, a);
    TryEnds(r.ep, Ok(r.ep.clientId), a);
    EndTryKeeps(r.ep, r.out, a);
    var h' := h + [e];
    assert h'[..|h'| - 1] == h && h'[|h'| - 1] == e;
    SettledTry(ep, w, a);
  }

  lemma EndTryKeeps(ep: Endpoint, out: Outcome<nat>, a: nat)
    ensures EndTry(ep, out, a).ep == ep
  {
  }

  /** What a served registration leads to. */
  lemma SettledTry(ep: Endpoint, w: World, a: nat)
    ensures var r, (k, w') := Registration(ep, w), Registered(ep, w, a);
            r.out.Ok? ==>
              && SameIdentity(r.ep, k.ep) && k.ep.clientId == r.ep.clientId && w'.trace == r.w.trace
              && (r.ep.schemaRef.None? ==> k.phase == Done(Ok(r.ep.clientId)))
              && (r.ep.schemaRef.Some? ==> k.phase == Resolving(a))
  {
    hide Registration, Connect;
  }

  /** The end of a schema lookup. */
  lemma ConcludeEnds(ep: Endpoint, out: Outcome<SchemaInfo>, a: nat)
    ensures var k := Conclude(ep, out, a);
            && SameIdentity(ep, k.ep) && k.ep.clientId == ep.clientId
            && (out.Ok? ==> k.phase == Done(Ok(ep.clientId)))
            && (out.Cancelled? ==> k.phase == Done(Cancelled))
            && (out.Raised? && !out.error.Rpc? ==> k.phase == Done(Raised(out.error)))
            && (out.Raised? && out.error.Rpc? ==>
                  k.phase == if Transient(out.error.status) && a + 1 <= ep.retry.maxRetries then Retrying(a)
                             else Done(Raised(out.error)))
  {
  }

  lemma ResolvingConverses(ep: Endpoint, w: World, a: nat, h: seq<Event>, t: Terms) returns (e: Event)
    requires ep.schemaRef.Some? && t.body.None? && t.retry == ep.retry && PhaseTells(Resolving(a), ep, h, t)
    ensures var (k, w') := Resolved(ep, w, a);
            && w'.trace == w.trace + [e] && SameIdentity(ep, k.ep)
            && StepConverses(Resolving(a), e, k.phase, k.ep, h, t)
  {
    hide Ask, Conclude, Tries, Attempts, AssignedId;
    var query := LatestOf(ep.schemaRef.value.subject);
    e := QueryEvent(ep.topic, w, query);
    CountsOn(h, e);
    var (latest, w') := Ask(ep.topic, w, query);
    ConcludeEnds(ep, latest, a);
    ConcludeEnds(ep, Raised(BadVersion), a);
    var h' := h + [e];
    assert h'[..|h'| - 1] == h && h'[|h'| - 1] == e;
  }

  lemma PinningConverses(k: Task, w: World, h: seq<Event>, t: Terms) returns (e: Event)
    requires Fits(k) && k.phase.Pinning? && t.body.None? && t.retry == k.ep.retry && PhaseTells(k.phase, k.ep, h, t)
    ensures var (k', w') := Advance(k, w);
            && w'.trace == w.trace + [e] && SameIdentity(k.ep, k'.ep)
            && StepConverses(k.phase, e, k'.phase, k'.ep, h, t)
  {
    hide Ask, Conclude, Tries, Attempts, AssignedId;
    var query := VersionOf(k.phase.schemaId, k.ep.schemaRef.value.version);
    e := QueryEvent(k.ep.topic, w, query);
    CountsOn(h, e);
    ConcludeEnds(k.ep, Ask(k.ep.topic, w, query).0, k.phase.attempts);
    var h' := h + [e];
    assert h'[..|h'| - 1] == h && h'[|h'| - 1] == e;
  }

  lemma LookingConverses(k: Task, w: World, h: seq<Event>, t: Terms) returns (e: Event)
    requires Fits(k) && (k.phase.Arriving? || k.phase.Retrying?)
    requires t.retry == k.ep.retry && PhaseTells(k.phase, k.ep, h, t)
    ensures var (k', w') := Advance(k, w);
            && w'.trace == w.trace + [e] && SameIdentity(k.ep, k'.ep)
            && StepConverses(k.phase, e, k'.phase, k'.ep, h, t)
  {
    hide LookupNewBroker, Tries, Attempts, AssignedId;
    e := LookupEvent(k.ep, w);
    CountsOn(h, e);
    var h' := h + [e];
    assert h'[..|h'| - 1] == h && h'[|h'| - 1] == e;
  }

  lemma BackingConverses(k: Task, w: World, h: seq<Event>, t: Terms) returns (e: Event)
    requires Fits(k) && k.phase.Backing? && t.retry == k.ep.retry && PhaseTells(k.phase, k.ep, h, t)
    ensures var (k', w') := Advance(k, w);
            && w'.trace == w.trace + [e] && SameIdentity(k.ep, k'.ep)
            && StepConverses(k.phase, e, k'.phase, k'.ep, h, t)
  {
    hide Pause, Tries, Attempts, AssignedId;
    e := PauseEvent(k.ep, w, k.ep.retry, k.phase.attempts);
    BackoffIs(k.phase.attempts, k.ep.retry);
    CountsOn(h, e);
    var h' := h + [e];
    assert h'[..|h'| - 1] == h && h'[|h'| - 1] == e;
  }

  /** One turn of a create is one step of the conversation. */
  lemma AdvanceConverses(k: Task, w: World, h: seq<Event>, t: Terms) returns (e: Event)
    requires Fits(k) && !k.phase.Done? && t.body.None? && t.retry == k.ep.retry && PhaseTells(k.phase, k.ep, h, t)
    ensures var (k', w') := Advance(k, w);
            && w'.trace == w.trace + [e] && SameIdentity(k.ep, k'.ep)
            && StepConverses(k.phase, e, k'.phase, k'.ep, h, t)
  {
    hide Registered, Resolved, StepConverses;
    match k.phase
    case Trying(a) => e := TryingConverses(k.ep, w, a, h, t);
    case Resolving(a) => e := ResolvingConverses(k.ep, w, a, h, t);
    case Pinning(_, _) => e := PinningConverses(k, w, h, t);
    case Backing(_) => e := BackingConverses(k, w, h, t);
    case Arriving => e := LookingConverses(k, w, h, t);
    case Retrying(_) => e := LookingConverses(k, w, h, t);
  }

  /** A conversation that has come to `phase`. */
  ghost predicate Underway(h: seq<Event>, phase: Phase, ep: Endpoint, t: Terms) {
    && PhaseTells(phase, ep, h, t) && InOrder(h, t)
    && (if h == [] then phase.Arriving? else React(h, t) == Due(phase, t.ref, t.retry))
  }

  lemma {:induction false} DriveConverses(k: Task, w: World, h: seq<Event>, t: Terms) returns (h': seq<Event>)
    requires Fits(k) && t.body.None? && t.retry == k.ep.retry && Underway(h, k.phase, k.ep, t)
    ensures var (k', w', _) := Drive(k, w);
            && h <= h' && w'.trace == w.trace + h'[|h|..]
            && h' != [] && InOrder(h', t) && React(h', t) == Ends(k'.phase.out)
    decreases Left(k)
  {
    hide Advance, PhaseTells, InOrder, React, Fulfils;
    if k.phase.Done? {
      h' := h;
    } else {
      AdvanceFits(k, w);
      var e := AdvanceConverses(k, w, h, t);
      var (k', w') := Advance(k, w);
      InOrderOn(h, e, t);
      h' := DriveConverses(k', w', h + [e], t);
      assert h'[|h|..] == [e] + h'[|h| + 1..];
    }
  }

  /** Every `create` and every `subscribe` holds this conversation, and ends as it does. */
  lemma CreateConverses(ep: Endpoint, w: World)
    requires ep.retry.Valid()
    ensures var c := Create(ep, w);
            && w.trace <= c.w.trace
            && Converses(c.w.trace[|w.trace|..], Terms(ep.retry, ep.schemaRef, None), c.out)
            && c.w.trace[|w.trace|].request.Lookup?
  {
    hide Create, Drive, React, InOrder;
    var t := Terms(ep.retry, ep.schemaRef, None);
    AloneIsCreate(ep, w);
    NothingYet(t);
    var h := DriveConverses(Start(ep), w, [], t);
    FirstIsLookup(ep, w);
    assert Create(ep, w).w.trace[|w.trace|..] == h;
  }

  /** The events from `n` on are such a conversation of a create, beginning with a lookup. */
  ghost predicate CreateHeld(trace: seq<Event>, n: nat, retry: RetryManager, ref: Option<SchemaRef>,
                             out: Outcome<nat>) {
    n < |trace| && trace[n].request.Lookup? && Converses(trace[n..], Terms(retry, ref, None), out)
  }

  lemma CreateHolds(ep: Endpoint, w: World)
    requires ep.retry.Valid()
    ensures var c := Create(ep, w); CreateHeld(c.w.trace, |w.trace|, ep.retry, ep.schemaRef, c.out)
  {
    hide Create, InOrder, React;
    CreateConverses(ep, w);
  }

  lemma NothingYet(t: Terms)
    ensures InOrder([], t)
  {
  }

  lemma FirstIsLookup(ep: Endpoint, w: World)
    requires ep.retry.Valid()
    ensures var c := Create(ep, w); |w.trace| < |c.w.trace| && c.w.trace[|w.trace|].request.Lookup?
  {
    hide CreateLoop, LookupNewBroker, OthersKept, Mirrors;
    var e := LookupEvent(ep, w);
    var l := LookupNewBroker(ep, w);
    if !l.out.Cancelled? {
      CreateLoopAdvances(l.ep, l.w, 0);
    }
  }

  // ----- what that means for a failed try -----

  /** The await of event `i` was not cancelled. */
  predicate Uncut(h: seq<Event>, i: nat)
    requires i < |h|
  {
    !h[i].reply.verdict.Interrupted?
  }

  /** A registration or registry query that is answered Unavailable, DeadlineExceeded or
      ResourceExhausted is followed by a lookup, a backoff and another registration, unless one of them
      is cancelled, as long as there have been at most m tries; after m + 1 tries its own status is
      raised.  A registration answered with any other status ends the create at once: with that status,
      or as unrecoverable if the name is taken. */
  lemma FailedTry(h: seq<Event>, t: Terms, out: Outcome<nat>, i: nat)
    requires Converses(h, t, out) && i < |h| && h[i].reply.verdict.Failed?
    requires h[i].request.Register? || (h[i].request.Registry? && t.ref.Some?)
    ensures var status, tries := h[i].reply.verdict.status, Tries(h[..i + 1]);
            && (status in {Unavailable, DeadlineExceeded, ResourceExhausted} && tries <= t.retry.maxRetries ==>
                  && i + 1 < |h| && h[i + 1].request.Lookup?
                  && (Uncut(h, i + 1) ==>
                        && i + 2 < |h| && h[i + 2].request.Sleep?
                        && (Uncut(h, i + 2) ==> i + 3 < |h| && h[i + 3].request.Register?)))
            && (status in {Unavailable, DeadlineExceeded, ResourceExhausted} && tries > t.retry.maxRetries ==>
                  i + 1 == |h| && out == Raised(Rpc(status)))
            && (status == OtherStatus ==> i + 1 == |h| && out == Raised(Rpc(OtherStatus)))
            && (status == AlreadyExists ==>
                  i + 1 == |h| && out == Raised(if h[i].request.Register? then Unrecoverable else Rpc(AlreadyExists)))
  {
    hide Tries, Attempts, AssignedId, Converses;
    Last(h, i);
    AtPrefix(h, t, out, i);
    if React(h[..i + 1], t).Looks? {
      hide React, Fulfils;
      TriedAgain(h, t, out, i);
    }
  }

  lemma TriedAgain(h: seq<Event>, t: Terms, out: Outcome<nat>, i: nat)
    requires Converses(h, t, out) && i < |h| && (h[i].request.Register? || h[i].request.Registry?)
    requires React(h[..i + 1], t) == Looks
    ensures i + 1 < |h| && h[i + 1].request.Lookup?
    ensures Uncut(h, i + 1) ==>
              && i + 2 < |h| && h[i + 2].request.Sleep?
              && (Uncut(h, i + 2) ==> i + 3 < |h| && h[i + 3].request.Register?)
  {
    hide Tries, Attempts, AssignedId, Converses;
    AtPrefix(h, t, out, i);
    if Uncut(h, i + 1) {
      Last(h, i + 1);
      AtPrefix(h, t, out, i + 1);
      if Uncut(h, i + 2) {
        Last(h, i + 2);
        AtPrefix(h, t, out, i + 2);
      }
    }
  }

  lemma Last(h: seq<Event>, i: nat)
    requires i < |h|
    ensures var g := h[..i + 1]; |g| == i + 1 && g[|g| - 1] == h[i] && (i > 0 ==> g[|g| - 2] == h[i - 1])
  {
  }

  /** What event `i` leads to is what happens. */
  lemma AtPrefix(h: seq<Event>, t: Terms, out: Outcome<nat>, i: nat)
    requires Converses(h, t, out) && i < |h|
    ensures if i + 1 < |h| then Fulfils(h[i + 1].request, React(h[..i + 1], t), t)
            else React(h[..i + 1], t) == Ends(out)
  {
    hide Fulfils, React;
    if i + 1 == |h| {
      assert h[..i + 1] == h;
    }
  }

  /** A publish that is answered with one of the three statuses is backed off from and repeated with the
      same body, as long as it was at most the m-th in a row; after m + 1 in a row the broker is looked
      up, and either the endpoint is created again or that status is raised.  Any other status is
      raised at once. */
  lemma FailedPublish(h: seq<Event>, t: Terms, out: Outcome<nat>, i: nat)
    requires Converses(h, t, out) && i < |h| && h[i].request.Publish? && h[i].reply.verdict.Failed?
    ensures var status, attempts := h[i].reply.verdict.status, Attempts(h[..i + 1]);
            && (status in {Unavailable, DeadlineExceeded, ResourceExhausted} && attempts <= t.retry.maxRetries ==>
                  && i + 1 < |h| && h[i + 1].request.Sleep?
                  && (Uncut(h, i + 1) ==>
                        i + 2 < |h| && h[i + 2].request.Publish? && t.body == Some(h[i + 2].request.message.body)))
            && (status in {Unavailable, DeadlineExceeded, ResourceExhausted} && attempts > t.retry.maxRetries ==>
                  && i + 1 < |h| && h[i + 1].request.Lookup?
                  && (if h[i + 1].reply.verdict.Served? then i + 2 < |h| && h[i + 2].request.Lookup?
                      else if Uncut(h, i + 1) then i + 2 == |h| && out == Raised(Rpc(status))
                      else i + 2 == |h| && out == Cancelled))
            && (status in {AlreadyExists, OtherStatus} ==> i + 1 == |h| && out == Raised(Rpc(status)))
  {
    hide Tries, Attempts, AssignedId;
    Last(h, i);
    AtPrefix(h, t, out, i);
    if i + 1 < |h| {
      Last(h, i + 1);
      AtPrefix(h, t, out, i + 1);
    }
  }
}
