/** Which schema a message is stamped with.  `LabelOf` reads off a trace what the registry's answers
    amount to for a given reference; endpoints and messages are shown to carry exactly that, and an
    honest registry makes it a schema that existed and satisfies the reference. */
module Schemas {
  import opened Wire
  import opened Retry
  import opened Connections
  import opened Network
  import opened Endpoint
  import opened EndpointHistory
  import opened EndpointBudget
  import opened Sending
  import opened Delivery

  /** The version satisfies the reference. */
  predicate Meets(ref: SchemaRef, version: nat) {
    match ref
    case UseLatest(_) => true
    case Pinned(_, pin) => version == pin
    case AtLeast(_, low) => version >= low
  }

  // ---- what the registry's answers amount to ----

  /** `stamp` is the latest answer that settled the reference; `lead` is the schema id under which
      the pinned version is to be asked for. */
  datatype Label = Label(lead: Option<nat>, stamp: Option<SchemaInfo>)

  /** An answer about the subject settles the reference if it meets it; one that is newer than the
      pin leads to a question about the pinned version, whose answer settles it. */
  function Relabel(l: Label, e: Event, ref: SchemaRef): Label {
    if !e.request.Registry? || !e.reply.verdict.Served? then l
    else
      var info := e.reply.schema;
      match e.request.query
      case LatestOf(subject) =>
        if subject != ref.subject then l
        else if Meets(ref, info.version) then l.(stamp := Some(info))
        else if ref.Pinned? && info.version > ref.version then l.(lead := Some(info.schemaId))
        else l
      case VersionOf(id, version) =>
        if ref.Pinned? && version == ref.version && l.lead == Some(id) then l.(stamp := Some(info)) else l
  }

  function LabelOf(trace: seq<Event>, topic: string, ref: SchemaRef): Label {
    if trace == [] then Label(None, None)
    else
      var l := LabelOf(trace[..|trace| - 1], topic, ref);
      var e := trace[|trace| - 1];
      if e.request.topic == topic then Relabel(l, e, ref) else l
  }

  lemma LabelNext(trace: seq<Event>, e: Event, topic: string, ref: SchemaRef)
    ensures LabelOf(trace + [e], topic, ref) ==
            if e.request.topic == topic then Relabel(LabelOf(trace, topic, ref), e, ref) else LabelOf(trace, topic, ref)
  {
    assert (trace + [e])[..|trace + [e]| - 1] == trace;
  }

  lemma {:induction false} LabelQuiet(trace: seq<Event>, longer: seq<Event>, topic: string, ref: SchemaRef)
    requires trace <= longer
    requires forall i :: |trace| <= i < |longer| ==> longer[i].request.topic != topic || !longer[i].request.Registry?
    ensures LabelOf(longer, topic, ref) == LabelOf(trace, topic, ref)
    decreases |longer|
  {
    if |longer| > |trace| {
      LabelQuiet(trace, longer[..|longer| - 1], topic, ref);
    } else {
      assert longer == trace;
    }
  }

  // ---- an honest registry ----

  /** A registry that holds exactly `versions` under `subject`, whose schema ids are `ids`, may answer
      `query` like this.  About other subjects and foreign ids it promises nothing. */
  predicate HonestAnswer(subject: string, ids: set<nat>, versions: set<SchemaInfo>, query: Query, reply: Reply) {
    reply.verdict.Served? ==>
      match query
      case LatestOf(asked) =>
        asked == subject ==> reply.schema in versions && forall i :: i in versions ==> i.version <= reply.schema.version
      case VersionOf(id, version) =>
        id in ids ==> reply.schema in versions && reply.schema.version == version
  }

  /** What the registry holds under a subject: `history[i]` at the i-th event.  Versions may be added
      and deleted at any time; only the schema ids are the subject's for good. */
  datatype SubjectHistory = SubjectHistory(subject: string, ids: set<nat>, history: seq<set<SchemaInfo>>)

  ghost predicate Honest(r: SubjectHistory, trace: seq<Event>, from: nat) {
    && |trace| <= |r.history|
    && (forall i, s :: 0 <= i < |r.history| && s in r.history[i] ==> s.schemaId in r.ids)
    && (forall i :: from <= i < |trace| && trace[i].request.Registry? ==>
          HonestAnswer(r.subject, r.ids, r.history[i], trace[i].request.query, trace[i].reply))
  }

  /** This schema exists, satisfies the reference, and is the newest unless another one is pinned. */
  predicate Proper(info: SchemaInfo, ref: SchemaRef, versions: set<SchemaInfo>) {
    && info in versions && Meets(ref, info.version)
    && (!ref.Pinned? ==> forall i :: i in versions ==> i.version <= info.version)
  }

  /** The registry gave this topic this answer at event `i`, when it was a proper one. */
  predicate ProperAt(trace: seq<Event>, i: nat, topic: string, info: SchemaInfo, ref: SchemaRef,
                     versions: set<SchemaInfo>) {
    && i < |trace| && trace[i].request.Registry? && trace[i].request.topic == topic
    && trace[i].reply.verdict.Served? && trace[i].reply.schema == info
    && Proper(info, ref, versions)
  }

  /** Against an honest registry whatever settles a reference is proper at that moment. */
  lemma {:induction false} LabelIsProper(trace: seq<Event>, topic: string, ref: SchemaRef, r: SubjectHistory)
    requires Honest(r, trace, 0) && r.subject == ref.subject
    ensures var l := LabelOf(trace, topic, ref);
            && (l.stamp.Some? ==>
                  exists i :: 0 <= i < |trace| && ProperAt(trace, i, topic, l.stamp.value, ref, r.history[i]))
            && (l.lead.Some? ==> l.lead.value in r.ids)
  {
    if trace != [] {
      var n := |trace| - 1;
      var before, e := trace[..n], trace[n];
      LabelIsProper(before, topic, ref, r);
      var k, l := LabelOf(before, topic, ref), LabelOf(trace, topic, ref);
      if l.stamp.Some? && l.stamp == k.stamp {
        var i :| 0 <= i < n && ProperAt(before, i, topic, l.stamp.value, ref, r.history[i]);
        assert ProperAt(trace, i, topic, l.stamp.value, ref, r.history[i]);
      } else if l.stamp.Some? {
        assert HonestAnswer(r.subject, r.ids, r.history[n], e.request.query, e.reply);
        assert ProperAt(trace, n, topic, l.stamp.value, ref, r.history[n]);
      }
      if l.lead != k.lead {
        assert HonestAnswer(r.subject, r.ids, r.history[n], e.request.query, e.reply);
        assert e.reply.schema in r.history[n];
      }
    }
  }

  /** Whoever was asked for one version of a schema answered with that version. */
  predicate HonestPins(trace: seq<Event>) {
    forall i :: 0 <= i < |trace| && trace[i].request.Registry? && trace[i].request.query.VersionOf? ==>
      trace[i].reply.verdict.Served? ==> trace[i].reply.schema.version == trace[i].request.query.version
  }

  /** That much honesty is enough for the version to satisfy the reference. */
  lemma {:induction false} LabelMeets(trace: seq<Event>, topic: string, ref: SchemaRef)
    requires HonestPins(trace)
    ensures var l := LabelOf(trace, topic, ref); l.stamp.Some? ==> Meets(ref, l.stamp.value.version)
  {
    if trace != [] {
      var n := |trace| - 1;
      assert forall i :: 0 <= i < n ==> trace[..n][i] == trace[i];
      LabelMeets(trace[..n], topic, ref);
      assert trace[n] == trace[|trace| - 1];
    }
  }

  // ---- one resolution ----

  lemma AskTrace(topic: string, w: World, query: Query)
    ensures var (out, w') := Ask(topic, w, query);
            && |w'.trace| == |w.trace| + 1 && w'.trace[..|w.trace|] == w.trace
            && w'.trace == w.trace + [w'.trace[|w.trace|]]
            && w'.trace[|w.trace|].request.Registry? && w'.trace[|w.trace|].request.query == query
            && w'.trace[|w.trace|].request.topic == topic
            && out == OutcomeOf(w'.trace[|w.trace|].reply.verdict, w'.trace[|w.trace|].reply.schema)
            && out != Raised(BadVersion)
  {
    hide Replay, Connect;
  }

  lemma AskLabels(topic: string, ref: SchemaRef, w: World, query: Query)
    ensures var (out, w') := Ask(topic, w, query);
            LabelOf(w'.trace, topic, ref) == Relabel(LabelOf(w.trace, topic, ref), w'.trace[|w.trace|], ref)
  {
    hide Ask, Relabel;
    AskTrace(topic, w, query);
    LabelNext(w.trace, Ask(topic, w, query).1.trace[|w.trace|], topic, ref);
  }

  /** A resolution that succeeds returns what its answers amount to; one that fails settles nothing. */
  lemma ResolveLabels(topic: string, ref: SchemaRef, w: World)
    ensures var (out, w') := ResolveSchema(topic, ref, w);
            LabelOf(w'.trace, topic, ref).stamp ==
            if out.Ok? then Some(out.value) else LabelOf(w.trace, topic, ref).stamp
  {
    hide Ask, LabelOf;
    var query := LatestOf(ref.subject);
    AskTrace(topic, w, query);
    AskLabels(topic, ref, w, query);
    var (latest, w') := Ask(topic, w, query);
    if latest.Ok? && ref.Pinned? && ref.version < latest.value.version {
      var again := VersionOf(latest.value.schemaId, ref.version);
      AskTrace(topic, w', again);
      AskLabels(topic, ref, w', again);
    }
  }

  /** Against an honest registry the resolved schema exists, satisfies the reference and is the
      newest unless pinned; a version error means that no registered version would do. */
  lemma ResolveHonestly(topic: string, ref: SchemaRef, w: World, r: SubjectHistory)
    requires Honest(r, ResolveSchema(topic, ref, w).1.trace, |w.trace|) && r.subject == ref.subject
    ensures var (out, w') := ResolveSchema(topic, ref, w);
            && (out.Ok? ==> |w.trace| < |w'.trace| <= |r.history| && Proper(out.value, ref, r.history[|w'.trace| - 1]))
            && (out == Raised(BadVersion) ==>
                  |w.trace| < |r.history| && forall i :: i in r.history[|w.trace|] ==> !Meets(ref, i.version))
  {
    hide Replay, Connect;
    var (latest, w') := Ask(topic, w, LatestOf(ref.subject));
    AskTrace(topic, w, LatestOf(ref.subject));
    var end := ResolveSchema(topic, ref, w).1.trace;
    var i := |w.trace|;
    assert HonestAnswer(r.subject, r.ids, r.history[i], end[i].request.query, end[i].reply);
    if latest.Ok? && ref.Pinned? && ref.version < latest.value.version {
      AskTrace(topic, w', VersionOf(latest.value.schemaId, ref.version));
      assert end[i] == w'.trace[i] && latest.value in r.history[i];
      assert HonestAnswer(r.subject, r.ids, r.history[i + 1], end[i + 1].request.query, end[i + 1].reply);
    }
  }

  // ---- the endpoint ----

  /** What an endpoint with this reference has to stamp its messages with. */
  function StampDue(trace: seq<Event>, topic: string, ref: Option<SchemaRef>): Option<SchemaInfo> {
    if ref.None? then None else LabelOf(trace, topic, ref.value).stamp
  }

  /** Schema id and version together are this schema, or both absent. */
  predicate Bears(id: Option<nat>, version: Option<nat>, stamp: Option<SchemaInfo>) {
    match stamp
    case None => id.None? && version.None?
    case Some(info) => id == Some(info.schemaId) && version == Some(info.version)
  }

  /** Id and version are what the registry's answers amount to. */
  predicate Stamped(ep: Endpoint, trace: seq<Event>) {
    Bears(ep.schemaId, ep.schemaVersion, StampDue(trace, ep.topic, ep.schemaRef))
  }

  predicate Complete(ep: Endpoint) {
    ep.schemaRef.Some? ==> ep.schemaId.Some?
  }

  predicate StampKept(ep: Endpoint, w: World, ep': Endpoint, w': World) {
    Stamped(ep, w.trace) ==> Stamped(ep', w'.trace) && (Complete(ep) ==> Complete(ep'))
  }

  /** A create that returns leaves a stamp wherever there is a reference, whatever there was before. */
  predicate StampsOnReturn(out: Outcome<nat>, ep: Endpoint, w: World) {
    out.Ok? && ep.schemaRef.Some? ==> Stamped(ep, w.trace) && Complete(ep)
  }

  predicate SameStamp(ep: Endpoint, ep': Endpoint) {
    && ep'.topic == ep.topic && ep'.schemaRef == ep.schemaRef
    && ep'.schemaId == ep.schemaId && ep'.schemaVersion == ep.schemaVersion
  }

  /** A request that does not concern the registry. */
  lemma IssueLabels(w: World, q: Request, topic: string, ref: Option<SchemaRef>)
    requires !q.Registry?
    ensures StampDue(Issue(w, q).w.trace, topic, ref) == StampDue(w.trace, topic, ref)
  {
    hide Replay;
    if ref.Some? {
      LabelNext(w.trace, Event(q, Issue(w, q).reply), topic, ref.value);
    }
  }

  lemma RegistrationStamps(ep: Endpoint, w: World)
    ensures var r := Registration(ep, w);
            && SameStamp(ep, r.ep)
            && StampDue(r.w.trace, ep.topic, ep.schemaRef) == StampDue(w.trace, ep.topic, ep.schemaRef)
  {
    hide Replay, Connect, LabelOf;
    var c := Connect(w.pool, ep.route.brokerUrl, ep.route.connectUrl);
    var q := RegisterRequest(ep, w.settings, c.channel);
    IssueLabels(w.(pool := c.pool), q, ep.topic, ep.schemaRef);
  }

  lemma LookupStamps(ep: Endpoint, w: World)
    ensures var l := LookupNewBroker(ep, w);
            && SameStamp(ep, l.ep)
            && StampDue(l.w.trace, ep.topic, ep.schemaRef) == StampDue(w.trace, ep.topic, ep.schemaRef)
  {
    hide Replay, Connect, LabelOf;
    var addr := ep.route.connectUrl;
    var c := Connect(w.pool, addr, addr);
    IssueLabels(w.(pool := c.pool), Lookup(ep.topic, c.channel, addr), ep.topic, ep.schemaRef);
  }

  lemma PauseStamps(ep: Endpoint, w: World, retry: RetryManager, attempt: nat)
    ensures var p := Pause(ep, w, retry, attempt);
            p.ep == ep && StampDue(p.w.trace, ep.topic, ep.schemaRef) == StampDue(w.trace, ep.topic, ep.schemaRef)
  {
    hide Replay, LabelOf;
    IssueLabels(w, Sleep(ep.topic, retry.Low(attempt), retry.High(attempt)), ep.topic, ep.schemaRef);
  }

  lemma SettleStamps(ep: Endpoint, w: World)
    ensures var s := Settle(ep, w); StampKept(ep, w, s.ep, s.w) && StampsOnReturn(s.out, s.ep, s.w)
  {
    hide Connect, ResolveSchema, LabelOf;
    if ep.schemaRef.Some? {
      ResolveLabels(ep.topic, ep.schemaRef.value, StartHealthCheck(ep, w).w);
    }
  }

  lemma TryCreateStamps(ep: Endpoint, w: World)
    ensures var t := TryCreate(ep, w); StampKept(ep, w, t.ep, t.w) && StampsOnReturn(t.out, t.ep, t.w)
  {
    hide Registration, Settle, StampDue;
    RegistrationStamps(ep, w);
    var r := Registration(ep, w);
    SettleStamps(r.ep, r.w);
  }

  lemma RecoverStamps(ep: Endpoint, w: World, attempt: nat)
    ensures var r := Recover(ep, w, attempt); StampKept(ep, w, r.ep, r.w)
  {
    hide LookupNewBroker, Pause, StampDue;
    LookupStamps(ep, w);
    var l := LookupNewBroker(ep, w);
    PauseStamps(l.ep, l.w, ep.retry, attempt);
  }

  lemma {:induction false} CreateLoopStamps(ep: Endpoint, w: World, attempts: nat)
    requires attempts <= ep.retry.maxRetries
    ensures var c := CreateLoop(ep, w, attempts);
            StampKept(ep, w, c.ep, c.w) && StampsOnReturn(c.out, c.ep, c.w)
    decreases ep.retry.maxRetries - attempts
  {
    hide TryCreate, Recover, Stamped, Complete;
    var t := TryCreate(ep, w);
    TryCreateStamps(ep, w);
    if !Final(ep, t.out, attempts) {
      var r := Recover(t.ep, t.w, attempts);
      RecoverStamps(t.ep, t.w, attempts);
      if !r.out.Cancelled? {
        CreateLoopStamps(r.ep, r.w, attempts + 1);
      }
    }
  }

  /** However `create` ends, the endpoint bears what the registry's answers so far amount to; one
      that returns leaves a stamp wherever there is a reference. */
  lemma CreateStamps(ep: Endpoint, w: World)
    requires ep.retry.maxRetries >= 0
    ensures var c := Create(ep, w);
            StampKept(ep, w, c.ep, c.w) && StampsOnReturn(c.out, c.ep, c.w)
  {
    hide CreateLoop, LookupNewBroker, StampDue;
    LookupStamps(ep, w);
    var l := LookupNewBroker(ep, w);
    if !l.out.Cancelled? {
      SameRetry(ep, w);
      CreateLoopStamps(l.ep, l.w, 0);
    }
  }

  lemma SameRetry(ep: Endpoint, w: World)
    ensures LookupNewBroker(ep, w).ep.retry == ep.retry
  {
    hide Replay, Connect;
  }

  lemma RecreateStamps(ep: Endpoint, w: World, error: Error)
    requires ep.retry.maxRetries >= 0
    ensures var c := Recreate(ep, w, error); StampKept(ep, w, c.ep, c.w)
  {
    hide Create, HandleLookup, LookupAndRecreate, LookupNewBroker, StampDue;
    if error.Unrecoverable? {
      CreateStamps(ep, w);
    } else {
      RecreateIsLookupThenCreate(ep, w, error);
      LookupStamps(ep, w);
      var l := LookupNewBroker(ep, w);
      if HandleLookup(ep, w).0.Ok? {
        CreateStamps(l.ep, l.w);
      }
    }
  }

  // ---- the messages ----

  /** The message bears the producer's name, and the schema that is due; there is one wherever
      there is a reference. */
  predicate StampFits(m: Message, name: string, ref: Option<SchemaRef>, due: Option<SchemaInfo>) {
    && m.producerName == name
    && Bears(m.schemaId, m.schemaVersion, due)
    && (ref.Some? ==> due.Some?)
  }

  /** Every message of the topic from event `from` on bears the schema that was due when it was
      published. */
  ghost predicate AllStamped(trace: seq<Event>, topic: string, name: string, ref: Option<SchemaRef>, from: nat) {
    forall i :: from <= i < |trace| && IsPublish(trace[i], topic) ==>
      StampFits(trace[i].request.message, name, ref, StampDue(trace[..i], topic, ref))
  }

  lemma AllStampedQuiet(trace: seq<Event>, longer: seq<Event>, topic: string, name: string, ref: Option<SchemaRef>,
                        from: nat)
    requires AllStamped(trace, topic, name, ref, from) && trace <= longer
    requires forall i :: |trace| <= i < |longer| ==> !IsPublish(longer[i], topic)
    ensures AllStamped(longer, topic, name, ref, from)
  {
    hide StampFits, StampDue;
    forall i | from <= i < |longer| && IsPublish(longer[i], topic)
      ensures StampFits(longer[i].request.message, name, ref, StampDue(longer[..i], topic, ref))
    {
      assert longer[i] == trace[i] && longer[..i] == trace[..i];
    }
  }

  lemma AllStampedNext(trace: seq<Event>, e: Event, topic: string, name: string, ref: Option<SchemaRef>, from: nat)
    requires AllStamped(trace, topic, name, ref, from)
    requires IsPublish(e, topic) ==> StampFits(e.request.message, name, ref, StampDue(trace, topic, ref))
    ensures AllStamped(trace + [e], topic, name, ref, from)
  {
    hide StampFits, StampDue;
    var longer := trace + [e];
    forall i | from <= i < |longer| && IsPublish(longer[i], topic)
      ensures StampFits(longer[i].request.message, name, ref, StampDue(longer[..i], topic, ref))
    {
      if i == |trace| {
        assert longer[i] == e && longer[..i] == trace;
      } else {
        assert longer[i] == trace[i] && longer[..i] == trace[..i];
      }
    }
  }

  /** With an honest registry: what a message is stamped with existed when the registry was last asked
      to settle the reference, satisfied it, and was the newest unless another one is pinned. */
  lemma MessagesAreProper(trace: seq<Event>, topic: string, name: string, ref: SchemaRef, from: nat, r: SubjectHistory)
    requires AllStamped(trace, topic, name, Some(ref), from) && Honest(r, trace, 0) && r.subject == ref.subject
    ensures forall i :: from <= i < |trace| && IsPublish(trace[i], topic) ==> StampIsProper(trace, i, topic, ref, r)
  {
    hide LabelOf;
    forall i | from <= i < |trace| && IsPublish(trace[i], topic)
      ensures StampIsProper(trace, i, topic, ref, r)
    {
      var m, due := trace[i].request.message, StampDue(trace[..i], topic, Some(ref));
      assert StampFits(m, name, Some(ref), due);
      LabelIsProper(trace[..i], topic, ref, r);
      var j :| 0 <= j < i && ProperAt(trace[..i], j, topic, due.value, ref, r.history[j]);
      assert ProperAt(trace, j, topic, due.value, ref, r.history[j]);
    }
  }

  ghost predicate StampIsProper(trace: seq<Event>, i: nat, topic: string, ref: SchemaRef, r: SubjectHistory)
    requires i < |trace| <= |r.history| && IsPublish(trace[i], topic)
  {
    var m := trace[i].request.message;
    && m.schemaId.Some? && m.schemaVersion.Some?
    && var info := SchemaInfo(m.schemaId.value, m.schemaVersion.value);
       exists j :: 0 <= j < i && ProperAt(trace, j, topic, info, ref, r.history[j])
  }

  /** It takes less honesty for every message's version to satisfy the reference. */
  lemma MessagesMeet(trace: seq<Event>, topic: string, name: string, ref: SchemaRef, from: nat)
    requires AllStamped(trace, topic, name, Some(ref), from) && HonestPins(trace)
    ensures forall i :: from <= i < |trace| && IsPublish(trace[i], topic) ==>
              var m := trace[i].request.message;
              m.schemaId.Some? && m.schemaVersion.Some? && Meets(ref, m.schemaVersion.value)
  {
    hide LabelOf, Meets;
    forall i | from <= i < |trace| && IsPublish(trace[i], topic)
      ensures var m := trace[i].request.message;
              m.schemaId.Some? && m.schemaVersion.Some? && Meets(ref, m.schemaVersion.value)
    {
      assert StampFits(trace[i].request.message, name, Some(ref), StampDue(trace[..i], topic, Some(ref)));
      assert HonestPins(trace[..i]);
      LabelMeets(trace[..i], topic, ref);
    }
  }

  /** Endpoint and messages are in order. */
  ghost predicate WellLabelled(ep: Endpoint, w: World, from: nat) {
    && Stamped(ep, w.trace) && Complete(ep)
    && AllStamped(w.trace, ep.topic, ep.name, ep.schemaRef, from)
  }

  /** Between two points with nothing published. */
  lemma NothingSentKeeps(ep: Endpoint, w: World, ep': Endpoint, w': World, from: nat)
    requires WellLabelled(ep, w, from) && StampKept(ep, w, ep', w')
    requires SameIdentity(ep, ep') && w.trace <= w'.trace && w'.settings == w.settings
    requires NothingSent(Seen(w, ep.topic), Seen(w', ep.topic))
    ensures WellLabelled(ep', w', from)
  {
    hide Replay, AllStamped, Stamped, Complete;
    assert w'.trace[..|w.trace|] == w.trace;
    Unpublished(w'.trace, |w.trace|, ep.topic, w.settings.uri);
    AllStampedQuiet(w.trace, w'.trace, ep.topic, ep.name, ep.schemaRef, from);
  }

  /** What happens to other topics does not concern this endpoint. */
  lemma ElsewhereKeeps(ep: Endpoint, w: World, w': World, from: nat)
    requires w.trace <= w'.trace && w'.settings == w.settings && Seen(w', ep.topic) == Seen(w, ep.topic)
    ensures StampDue(w'.trace, ep.topic, ep.schemaRef) == StampDue(w.trace, ep.topic, ep.schemaRef)
    ensures Stamped(ep, w.trace) ==> Stamped(ep, w'.trace)
    ensures WellLabelled(ep, w, from) ==> WellLabelled(ep, w', from)
  {
    hide Replay, AllStamped, LabelOf;
    assert w'.trace[..|w.trace|] == w.trace;
    Unpublished(w'.trace, |w.trace|, ep.topic, w.settings.uri);
    if ep.schemaRef.Some? {
      LabelQuiet(w.trace, w'.trace, ep.topic, ep.schemaRef.value);
    }
    if WellLabelled(ep, w, from) {
      AllStampedQuiet(w.trace, w'.trace, ep.topic, ep.name, ep.schemaRef, from);
    }
  }

  lemma SendOnceStamps(ep: Endpoint, w: World, body: Body, from: nat)
    requires WellLabelled(ep, w, from)
    ensures var s := SendOnce(ep, w, body); WellLabelled(s.ep, s.w, from)
  {
    hide Replay, AllStamped, LabelOf;
    if ep.stub.Some? {
      var q := PublishRequest(ep, w, body);
      IssueLabels(w, q, ep.topic, ep.schemaRef);
      AllStampedNext(w.trace, Event(q, Issue(w, q).reply), ep.topic, ep.name, ep.schemaRef, from);
    }
  }

  lemma PauseKeeps(ep: Endpoint, w: World, retry: RetryManager, attempt: nat, from: nat)
    requires retry.Valid() && WellLabelled(ep, w, from)
    ensures WellLabelled(ep, Pause(ep, w, retry, attempt).w, from)
  {
    hide Pause, Replay, AllStamped, StampDue, OthersKept;
    var p := Pause(ep, w, retry, attempt);
    PauseStamps(ep, w, retry, attempt);
    PauseView(ep, w, retry, attempt);
    PauseAdvances(ep, w, retry, attempt);
    NothingSentKeeps(ep, w, ep, p.w, from);
  }

  lemma RecreateKeeps(ep: Endpoint, w: World, error: Error, from: nat)
    requires ep.retry.Valid() && WellLabelled(ep, w, from)
    ensures var c := Recreate(ep, w, error); WellLabelled(c.ep, c.w, from)
  {
    hide Recreate, Replay, WellLabelled, StampKept, OthersKept, AllFaithful;
    var c := Recreate(ep, w, error);
    RecreateStamps(ep, w, error);
    RecreateView(ep, w, error);
    RecreateAdvances(ep, w, error);
    NothingSentKeeps(ep, w, c.ep, c.w, from);
  }

  /** Every message of a call bears the schema that is due, across recreations and whatever fails on
      the way. */
  lemma {:induction false} SendStamps(ep: Endpoint, w: World, body: Body, retry: RetryManager, attempts: nat, from: nat)
    requires ep.retry.Valid() && retry.Valid() && attempts <= retry.maxRetries
    requires WellLabelled(ep, w, from)
    ensures var r := SendLoop(ep, w, body, retry, attempts); WellLabelled(r.ep, r.w, from)
    decreases |w.script|
  {
    hide Recreate, Pause, SendOnce, WellLabelled;
    var s := SendOnce(ep, w, body);
    SendOnceShrinks(ep, w, body);
    SendOnceStamps(ep, w, body, from);
    if s.out.Raised? {
      if NeedsRecreation(s.out.error, retry, attempts) {
        var c := Recreate(s.ep, s.w, s.out.error);
        RecreateKeeps(s.ep, s.w, s.out.error, from);
        if c.out.Ok? {
          SendStamps(c.ep, c.w, body, retry, 0, from);
        }
      } else if retry.IsRetryable(s.out.error) {
        var p := Pause(s.ep, s.w, retry, attempts);
        PauseShrinks(s.ep, s.w, retry, attempts);
        PauseKeeps(s.ep, s.w, retry, attempts, from);
        if !p.out.Cancelled? {
          SendStamps(p.ep, p.w, body, retry, attempts + 1, from);
        }
      }
    }
  }
}
