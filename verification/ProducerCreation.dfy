/** `Producer.create`: all partitions or none, and what the runs may start from. */
module ProducerCreation {
  import opened Wire
  import opened Retry
  import opened Connections
  import opened Network
  import opened Endpoint
  import opened EndpointHistory
  import opened EndpointBudget
  import opened Schemas
  import opened CreateTask
  import opened Gather
  import opened ProducerModel
  import opened ProducerRuns
  import Names

  function Fleet(ps: Producer, w: World): (eps: seq<Endpoint>)
    ensures |eps| == Width(ps.config)
    ensures forall i :: 0 <= i < |eps| ==> eps[i] == NewEndpoint(ps.config, i, w.settings.uri) && eps[i].retry.Valid()
  {
    NewEndpoints(ps.config, Width(ps.config), w.settings.uri)
  }

  /** `out` is how `create` has ended, if it has. */
  datatype Creating = Creating(out: Option<Outcome<()>>, ps: Producer, w: World)

  function EndpointsOf(tasks: seq<Task>): (eps: seq<Endpoint>)
    ensures |eps| == |tasks| && forall i :: 0 <= i < |eps| ==> eps[i] == tasks[i].ep
  {
    seq(|tasks|, i requires 0 <= i < |tasks| => tasks[i].ep)
  }

  predicate Succeeded(out: Option<Outcome<()>>) {
    out.Some? && out.value.Ok?
  }

  function Install(ps: Producer, g: Gathering): Creating {
    var routed := if ps.config.partitions == 0 then ps else ps.(router := Some(ps.config.partitions - 1));
    Creating(Ending(g), if Succeeded(Ending(g)) then routed.(producers := EndpointsOf(g.tasks)) else routed, g.w)
  }

  /** `Producer.create` with the creates of its partitions interleaved by `schedule`.  After a
      failure the remaining steps are those of creates that nobody waits for any more. */
  function CreateInterleaved(ps: Producer, schedule: seq<nat>, w: World): Creating
    requires Schedules(schedule, Width(ps.config))
  {
    Install(ps, Interleave(Begin(Fleet(ps, w), w), schedule))
  }

  lemma FleetDistinct(ps: Producer, w: World)
    ensures Distinct(Fleet(ps, w))
  {
    hide TopicOf, Fleet;
    var eps := Fleet(ps, w);
    forall i, j | 0 <= i < j < |eps|
      ensures eps[i].topic != eps[j].topic
    {
      TopicsDiffer(ps.config, i, j);
    }
  }

  /** Nothing about this topic has happened yet. */
  ghost predicate Fresh(w: World, topic: string) {
    Seen(w, topic) == Unseen(w.settings.uri) && Honours(w, topic)
  }

  lemma NewMirrors(config: Config, i: nat, w: World)
    requires Fresh(w, TopicOf(config, i))
    ensures var ep := NewEndpoint(config, i, w.settings.uri);
            Mirrors(ep, w) && Honours(w, ep.topic)
  {
    hide Replay, AllFaithful;
  }

  /** An endpoint whose create has returned is fit for use. */
  lemma ReturnedServes(ps: Producer, i: nat, w0: World, t: Task, w: World)
    requires i < Width(ps.config)
    requires var ep := NewEndpoint(ps.config, i, w0.settings.uri); Tells(ep, w0, t, w) && Returned(t)
    ensures SameIdentity(NewEndpoint(ps.config, i, w0.settings.uri), t.ep)
    ensures t.ep.stub.Some? && InSync(Seen(w, t.ep.topic))
    ensures NothingSent(Seen(w0, t.ep.topic), Seen(w, t.ep.topic))
    ensures w0.trace <= w.trace && w.settings == w0.settings ==> WellLabelled(t.ep, w, |w0.trace|)
    ensures Fresh(w0, TopicOf(ps.config, i)) ==> Mirrors(t.ep, w) && Honours(w, t.ep.topic)
  {
    hide Replay, AllFaithful, SumLow, SumHigh, TopicOf, LabelOf, NameOf;
    if w0.trace <= w.trace && w.settings == w0.settings {
      assert w.trace[..|w0.trace|] == w0.trace;
      Unpublished(w.trace, |w0.trace|, t.ep.topic, w0.settings.uri);
    }
    if Fresh(w0, TopicOf(ps.config, i)) {
      NewMirrors(ps.config, i, w0);
    }
  }

  /** All or nothing, in every interleaving.  If any create fails, or while any is under way, the
      producers are what they were; otherwise there is one endpoint per partition, entry i bound to
      partition i, every one connected, in step with its channel and stamped with the schema that is
      due, nothing is published, and the router stands before partition 0.  (A negative number of
      partitions makes a producer without endpoints.) */
  lemma CreateAllOrNothing(ps: Producer, schedule: seq<nat>, w: World)
    requires Schedules(schedule, Width(ps.config))
    ensures var c := CreateInterleaved(ps, schedule, w);
            && c.ps.config == ps.config
            && c.ps.router == (if ps.config.partitions == 0 then ps.router else Some(ps.config.partitions - 1))
            && w.trace <= c.w.trace && c.w.settings == w.settings && (WellFormed(w.pool) ==> WellFormed(c.w.pool))
            && (!Succeeded(c.out) ==> c.ps.producers == ps.producers)
            && (Succeeded(c.out) ==>
                  && |c.ps.producers| == Width(ps.config)
                  && (ps.config.partitions >= 0 ==> Ready(c.ps))
                  && InStep(c.ps, c.w) && WellStamped(c.ps, c.w, |w.trace|)
                  && NothingSentBy(ps.config, w, c.w)
                  && (AllFresh(ps.config, w) ==> Tracked(c.ps, c.w)))
  {
    hide Replay, AllFaithful, TopicOf, NameOf, Fleet, RetryOf, InSync, NothingSent, Tells, Interleave, OnlyTouches;
    hide WellLabelled, Mirrors, Honours, Fresh, Seen, WellFormed;
    var eps := Fleet(ps, w);
    FleetDistinct(ps, w);
    AlwaysOrderly(eps, schedule, w);
    var c := CreateInterleaved(ps, schedule, w);
    var g := Interleave(Begin(eps, w), schedule);
    if Succeeded(c.out) {
      forall i | 0 <= i < |eps|
        ensures c.ps.producers[i] == g.tasks[i].ep && ReadyAt(c.ps, i) && InSync(Seen(c.w, g.tasks[i].ep.topic))
        ensures NothingSent(Seen(w, TopicOf(ps.config, i)), Seen(c.w, TopicOf(ps.config, i)))
        ensures WellLabelled(g.tasks[i].ep, c.w, |w.trace|)
        ensures Fresh(w, TopicOf(ps.config, i)) ==> Mirrors(g.tasks[i].ep, c.w) && Honours(c.w, g.tasks[i].ep.topic)
      {
        assert Tells(eps[i], w, g.tasks[i], g.w);
        assert !Broken(g.tasks[i]);
        ReturnedServes(ps, i, w, g.tasks[i], g.w);
      }
    }
  }

  /** None of the producer's topics has a history. */
  ghost predicate AllFresh(config: Config, w: World) {
    forall i :: 0 <= i < Width(config) ==> Fresh(w, TopicOf(config, i))
  }

  ghost predicate NothingSentBy(config: Config, w: World, w': World) {
    forall i :: 0 <= i < Width(config) ==> NothingSent(Seen(w, TopicOf(config, i)), Seen(w', TopicOf(config, i)))
  }

  /** The endpoint is the one that the configuration asks for as number `i`, written out: topic and name
      are the configured ones, followed for a partition by its number in decimal; options that are not
      positive are replaced by the defaults. */
  ghost predicate AsConfigured(ep: Endpoint, config: Config, i: nat) {
    && (if config.partitions == 0 then ep.topic == config.topic && ep.name == config.name
        else exists s :: && Names.IsNumeral(s, i)
                         && ep.topic == config.topic + "-part-" + s && ep.name == config.name + "-" + s)
    && ep.role == ProducerRole(config.dispatch) && ep.schemaRef == config.schemaRef
    && ep.retry.maxRetries == (if config.options.maxRetries >= 1 then config.options.maxRetries else 5)
    && ep.retry.baseBackoffMs == (if config.options.baseBackoffMs >= 1 then config.options.baseBackoffMs else 200)
    && ep.retry.maxBackoffMs == (if config.options.maxBackoffMs >= 1 then config.options.maxBackoffMs else 5000)
  }

  lemma NewAsConfigured(config: Config, i: nat, uri: string)
    ensures AsConfigured(NewEndpoint(config, i, uri), config, i)
  {
    OptionsTaken(config.options.maxRetries, config.options.baseBackoffMs, config.options.maxBackoffMs);
    Names.DecimalIsNumeral(i);
  }

  /** After a successful create there is one endpoint per partition, or a single one without partitions,
      and each is as configured. */
  lemma CreatedAsConfigured(ps: Producer, schedule: seq<nat>, w: World)
    requires Schedules(schedule, Width(ps.config))
    ensures var c := CreateInterleaved(ps, schedule, w);
            Succeeded(c.out) ==>
              && |c.ps.producers| == (if ps.config.partitions == 0 then 1
                                      else if ps.config.partitions > 0 then ps.config.partitions else 0)
              && forall i :: 0 <= i < |c.ps.producers| ==> AsConfigured(c.ps.producers[i], ps.config, i)
  {
    hide TopicOf, NameOf, Fleet, RetryOf, Tells, Interleave, OnlyTouches, AsConfigured, NewEndpoint;
    var eps := Fleet(ps, w);
    FleetDistinct(ps, w);
    AlwaysOrderly(eps, schedule, w);
    var c := CreateInterleaved(ps, schedule, w);
    var g := Interleave(Begin(eps, w), schedule);
    if Succeeded(c.out) {
      forall i | 0 <= i < |c.ps.producers|
        ensures AsConfigured(c.ps.producers[i], ps.config, i)
      {
        NewAsConfigured(ps.config, i, w.settings.uri);
        SameAsConfigured(eps[i], w, g.tasks[i], g.w, ps.config, i);
      }
    }
  }

  lemma SameAsConfigured(ep: Endpoint, w0: World, t: Task, w: World, config: Config, i: nat)
    requires Tells(ep, w0, t, w) && AsConfigured(ep, config, i)
    ensures AsConfigured(t.ep, config, i)
  {
  }

  /** `create` reports a failure iff one of its creates has failed, and is over, one way or the
      other, once every create has been answered 5m + 6 times. */
  lemma CreateIsDecided(ps: Producer, schedule: seq<nat>, w: World)
    requires Schedules(schedule, Width(ps.config))
    ensures var c := CreateInterleaved(ps, schedule, w);
            var tasks := Interleave(Begin(Fleet(ps, w), w), schedule).tasks;
            && (c.out.Some? && !c.out.value.Ok? <==> exists i :: 0 <= i < |tasks| && Broken(tasks[i]))
            && (Succeeded(c.out) <==> forall i :: 0 <= i < |tasks| ==> Returned(tasks[i]))
            && ((forall i :: 0 <= i < Width(ps.config) ==>
                   multiset(schedule)[i] >= 5 * RetryOf(ps.config.options).maxRetries + 6) ==> c.out.Some?)
  {
    hide Fleet, RetryOf, Tells, Interleave, OnlyTouches;
    var eps := Fleet(ps, w);
    FleetDistinct(ps, w);
    AlwaysOrderly(eps, schedule, w);
    var tasks := Interleave(Begin(eps, w), schedule).tasks;
    forall i | 0 <= i < |eps| && multiset(schedule)[i] >= 5 * RetryOf(ps.config.options).maxRetries + 6
      ensures tasks[i].phase.Done?
    {
      CreateEnds(eps, schedule, w, i);
    }
  }

  // ----- the creates one after another -----

  predicate NoRepeats(order: seq<nat>, n: nat) {
    && (forall j :: 0 <= j < |order| ==> order[j] < n)
    && (forall j, k :: 0 <= j < k < |order| ==> order[j] != order[k])
  }

  /** The creates in `order` are still to come, the others have returned. */
  predicate Waiting(eps: seq<Endpoint>, order: seq<nat>, g: Gathering) {
    && Sound(g) && |g.tasks| == |eps| && g.failure.None?
    && (forall i :: 0 <= i < |eps| ==> g.tasks[i].ep == eps[i])
    && (forall i :: 0 <= i < |eps| ==> if i in order then g.tasks[i].phase.Arriving? else Returned(g.tasks[i]))
  }

  /** The first in line gets all the turns. */
  lemma FirstInLine(eps: seq<Endpoint>, order: seq<nat>, g: Gathering) returns (schedule: seq<nat>)
    requires Waiting(eps, order, g) && order != [] && NoRepeats(order, |eps|)
    ensures Schedules(schedule, |eps|) && eps[order[0]].retry.Valid()
    ensures var c, g' := Create(eps[order[0]], g.w), Interleave(g, schedule);
            && g'.w == c.w
            && (c.out.Ok? ==> Waiting(eps[order[0] := c.ep], order[1..], g'))
            && (!c.out.Ok? ==> g'.failure == Some(FailureOf(c.out)))
  {
    hide Create, Drive, Interleave, Left;
    var first := order[0];
    assert g.tasks[first] == Start(eps[first]);
    AloneIsCreate(eps[first], g.w);
    schedule := DriveIsASchedule(g, first);
    assert order == [first] + order[1..] && first !in order[1..];
  }

  lemma {:induction false} OneByOne(eps: seq<Endpoint>, order: seq<nat>, g: Gathering) returns (schedule: seq<nat>)
    requires Waiting(eps, order, g) && NoRepeats(order, |eps|)
    ensures Schedules(schedule, |eps|)
    ensures forall i :: 0 <= i < |eps| ==> eps[i].retry.Valid()
    ensures var c, g' := CreateAll(eps, order, g.w), Interleave(g, schedule);
            Ending(g') == Some(c.out) && g'.w == c.w && (c.out.Ok? ==> EndpointsOf(g'.tasks) == c.eps)
    decreases |order|
  {
    hide Create, Next;
    forall i | 0 <= i < |eps|
      ensures eps[i].retry.Valid()
    {
      assert Fits(g.tasks[i]);
    }
    hide Fits, RetryManager.Valid;
    if order == [] {
      schedule := [];
    } else {
      hide Waiting;
      var c := Create(eps[order[0]], g.w);
      SameLength(eps, order, g);
      schedule := FirstInLine(eps, order, g);
      if c.out.Ok? {
        var others := OneByOne(eps[order[0] := c.ep], order[1..], Interleave(g, schedule));
        InterleaveConcat(g, schedule, others);
        schedule := schedule + others;
      }
    }
  }

  lemma SameLength(eps: seq<Endpoint>, order: seq<nat>, g: Gathering)
    requires Waiting(eps, order, g)
    ensures Sound(g) && |g.tasks| == |eps|
  {
  }

  /** Running the creates one after another, in any order, is one of the interleavings. */
  lemma SequentialIsInterleaved(ps: Producer, order: seq<nat>, w: World) returns (schedule: seq<nat>)
    requires Enumerates(order, Width(ps.config))
    ensures Schedules(schedule, Width(ps.config))
    ensures var s, c := CreateProducer(ps, order, w), CreateInterleaved(ps, schedule, w);
            c.out == Some(s.out) && c.ps == s.ps && c.w == s.w
  {
    hide CreateAll, Interleave, Ending, NewEndpoints;
    var eps := Fleet(ps, w);
    schedule := OneByOne(eps, order, Begin(eps, w));
  }
}
