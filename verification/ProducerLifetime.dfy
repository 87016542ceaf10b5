/** From `Producer.create` on: what a caller has who creates a producer, its partitions interleaved in
    any way, and then calls `send` and `send_with_key` one after another. */
module ProducerLifetime {
  import opened Wire
  import opened Connections
  import opened Sending
  import opened Network
  import opened EndpointHistory
  import opened EndpointBudget
  import opened Schemas
  import opened Gather
  import opened ProducerModel
  import opened ProducerRuns
  import opened ProducerCreation
  import opened Conversation
  import opened SendConversation
  import Coherence
  import Fnv

  /** The calls `calls` on what the create left. */
  function Life(ps: Producer, schedule: seq<nat>, w: World, calls: seq<Call>): Run
    requires Schedules(schedule, Width(ps.config))
    requires Callable(CreateInterleaved(ps, schedule, w).ps)
  {
    var c := CreateInterleaved(ps, schedule, w);
    RunCalls(c.ps, c.w, calls)
  }

  ghost predicate Created(ps: Producer, schedule: seq<nat>, w: World)
    requires Schedules(schedule, Width(ps.config))
  {
    ps.config.partitions >= 0 && Succeeded(CreateInterleaved(ps, schedule, w).out)
  }

  lemma CreatedIsReady(ps: Producer, schedule: seq<nat>, w: World)
    requires Schedules(schedule, Width(ps.config)) && Created(ps, schedule, w)
    ensures var c := CreateInterleaved(ps, schedule, w);
            && Callable(c.ps) && Ready(c.ps) && c.ps.config == ps.config
            && |c.ps.producers| == Width(ps.config)
  {
    hide CreateInterleaved, Replay, AllFaithful;
    CreateAllOrNothing(ps, schedule, w);
    CallableReady(CreateInterleaved(ps, schedule, w).ps);
  }

  /** On fresh topics the logs are the calls' blocks and nothing else, in call order. */
  lemma LogsAreTheCalls(ps: Producer, schedule: seq<nat>, w: World, calls: seq<Call>) returns (copies: seq<nat>)
    requires Schedules(schedule, Width(ps.config)) && Created(ps, schedule, w) && AllFresh(ps.config, w)
    ensures Callable(CreateInterleaved(ps, schedule, w).ps)
    ensures var r := Life(ps, schedule, w, calls);
            && CopiesFit(r.receipts, copies)
            && forall p :: 0 <= p < Width(ps.config) ==>
                 Seen(r.w, TopicOf(ps.config, p)).log == Blocks(calls, r.receipts, copies, p)
  {
    hide CreateInterleaved, RunCalls, Replay, AllFaithful, TopicOf, Blocks, Ready;
    CreateAllOrNothing(ps, schedule, w);
    CreatedIsReady(ps, schedule, w);
    var c := CreateInterleaved(ps, schedule, w);
    copies := AtLeastOnceInOrder(c.ps, c.w, calls);
    forall p | 0 <= p < Width(ps.config)
      ensures Seen(c.w, TopicOf(ps.config, p)).log == []
    {
      assert Fresh(w, TopicOf(ps.config, p));
    }
  }

  ghost predicate AllCoherent(w: World, topic: string) {
    forall i :: 0 <= i < |w.trace| && IsPublish(w.trace[i], topic) ==> Coherence.CoherentAt(w, topic, i)
  }

  /** Channel and header coherence from creation on, in every life without cancelled calls.  (For a
      call after a cancellation see `Coherence.CallFitsIff`.) */
  lemma MessagesAreCoherent(ps: Producer, schedule: seq<nat>, w: World, calls: seq<Call>)
    requires Schedules(schedule, Width(ps.config)) && Created(ps, schedule, w) && AllFresh(ps.config, w)
    ensures Callable(CreateInterleaved(ps, schedule, w).ps)
    ensures var r := Life(ps, schedule, w, calls);
            Undisturbed(r.receipts) ==>
              forall p :: 0 <= p < Width(ps.config) ==> AllCoherent(r.w, TopicOf(ps.config, p))
  {
    hide CreateInterleaved, RunCalls, Replay, AllFaithful, TopicOf, RetryOf, NothingSentBy, WellStamped, InSync;
    CreateAllOrNothing(ps, schedule, w);
    CreatedIsReady(ps, schedule, w);
    var c := CreateInterleaved(ps, schedule, w);
    var r := RunCalls(c.ps, c.w, calls);
    AlwaysTracked(c.ps, c.w, calls);
    NoStraysUnlessCancelled(c.ps, c.w, calls);
    StaysReady(c.ps, c.w, calls);
    if Undisturbed(r.receipts) {
      forall p | 0 <= p < Width(ps.config)
        ensures AllCoherent(r.w, TopicOf(ps.config, p))
      {
        assert ReadyAt(r.ps, p);
        NeverStrayed(ps, w, c.w, p);
        CoherentTopic(r.w, TopicOf(ps.config, p));
      }
    }
  }

  /** Coherence of every single call of a life, whatever was cancelled before: after any calls, the
      next one puts a message on another channel than that of the broker it names iff, before it, the
      stub of its partition is not the cached channel of that partition's route. */
  lemma NextCallFitsIff(ps: Producer, schedule: seq<nat>, w: World, calls: seq<Call>, call: Call)
    requires Schedules(schedule, Width(ps.config)) && Created(ps, schedule, w) && AllFresh(ps.config, w)
    requires WellFormed(w.pool)
    ensures Callable(CreateInterleaved(ps, schedule, w).ps)
    ensures var r := Life(ps, schedule, w, calls);
            && Callable(r.ps)
            && var s := Send(r.ps, r.w, call);
               var p := s.receipt.partition;
               && p < |r.ps.producers|
               && var ep := r.ps.producers[p];
                  && ep.stub.Some? && Life(ps, schedule, w, calls + [call]).w == s.w
                  && ((exists i :: |r.w.trace| <= i < |s.w.trace| && Coherence.Astray(s.w, ep.topic, i))
                      <==> !HandleIs(r.w.pool, ep.route.brokerUrl, ep.route.connectUrl, ep.stub.value))
  {
    hide CreateInterleaved, RunCalls, SendLoop, Replay, AllFaithful, TopicOf, RetryOf;
    hide NothingSentBy, WellStamped, InSync, WellFormed, Coherence.Astray, HandleIs;
    CreateAllOrNothing(ps, schedule, w);
    CreatedIsReady(ps, schedule, w);
    var c := CreateInterleaved(ps, schedule, w);
    AlwaysTracked(c.ps, c.w, calls);
    StaysReady(c.ps, c.w, calls);
    OneMoreCall(c.ps, c.w, calls, call);
    var r := RunCalls(c.ps, c.w, calls);
    PartitionInRange(r.ps, call.key);
    var p := SelectPartition(r.ps, call.key).0;
    assert ReadyAt(r.ps, p);
    Coherence.CallFitsIff(r.ps.producers[p], r.w, BodyOf(call), RetryOf(r.ps.config.options));
  }

  lemma {:induction false} OneMoreCall(ps: Producer, w: World, calls: seq<Call>, call: Call)
    requires Ready(ps)
    ensures Callable(ps) && Callable(RunCalls(ps, w, calls).ps)
    ensures var r := RunCalls(ps, w, calls); RunCalls(ps, w, calls + [call]).w == Send(r.ps, r.w, call).w
    decreases calls
  {
    hide Send, Ready, RouterOk;
    CallableReady(ps);
    if calls == [] {
      assert calls + [call] == [call] && [call][1..] == [];
    } else {
      assert (calls + [call])[1..] == calls[1..] + [call];
      ReadyAfter(ps, w, calls[0]);
      OneMoreCall(Send(ps, w, calls[0]).ps, Send(ps, w, calls[0]).w, calls[1..], call);
    }
  }

  lemma ReadyAfter(ps: Producer, w: World, call: Call)
    requires Ready(ps)
    ensures Callable(ps) && Ready(Send(ps, w, call).ps)
  {
    hide Send, Replay, AllFaithful;
    CallableReady(ps);
    SendStep(ps, w, call);
  }

  lemma StaysReady(ps: Producer, w: World, calls: seq<Call>)
    requires Ready(ps)
    ensures Callable(ps) && Ready(RunCalls(ps, w, calls).ps) && RunCalls(ps, w, calls).ps.config == ps.config
  {
    hide RunCalls, Ready;
    var _ := AtLeastOnceInOrder(ps, w, calls);
  }

  lemma NeverStrayed(ps: Producer, w: World, w': World, p: nat)
    requires AllFresh(ps.config, w) && NothingSentBy(ps.config, w, w') && p < Width(ps.config)
    ensures Seen(w', TopicOf(ps.config, p)).strays == 0
  {
    hide Replay, AllFaithful, TopicOf;
    assert Fresh(w, TopicOf(ps.config, p));
  }

  lemma CoherentTopic(w: World, topic: string)
    requires Honours(w, topic) && Seen(w, topic).strays == 0
    ensures AllCoherent(w, topic)
  {
    hide Replay, AllFaithful;
    forall i | 0 <= i < |w.trace| && IsPublish(w.trace[i], topic)
      ensures Coherence.CoherentAt(w, topic, i)
    {
      Coherence.NoStrays(w, topic, i);
    }
  }

  /** Every message sent after a create bears its partition's producer name and exactly the schema
      that the registry's answers up to then amount to, one wherever there is a reference; whatever
      is retried, recreated or cancelled, and whatever happened to the topics before. */
  lemma MessagesAreStamped(ps: Producer, schedule: seq<nat>, w: World, calls: seq<Call>)
    requires Schedules(schedule, Width(ps.config)) && Created(ps, schedule, w)
    ensures Callable(CreateInterleaved(ps, schedule, w).ps)
    ensures var r := Life(ps, schedule, w, calls);
            && w.trace <= r.w.trace
            && forall p :: 0 <= p < Width(ps.config) ==>
                 AllStamped(r.w.trace, TopicOf(ps.config, p), NameOf(ps.config, p), ps.config.schemaRef, |w.trace|)
  {
    hide CreateInterleaved, RunCalls, Replay, AllFaithful, TopicOf, NameOf, RetryOf, NothingSentBy, InStep, Tracked;
    hide AllStamped, Stamped;
    CreateAllOrNothing(ps, schedule, w);
    CreatedIsReady(ps, schedule, w);
    var c := CreateInterleaved(ps, schedule, w);
    RunStamps(c.ps, c.w, calls, |w.trace|);
    CallsExtend(c.ps, c.w, calls);
    StaysReady(c.ps, c.w, calls);
    var r := RunCalls(c.ps, c.w, calls);
    forall p | 0 <= p < Width(ps.config)
      ensures AllStamped(r.w.trace, TopicOf(ps.config, p), NameOf(ps.config, p), ps.config.schemaRef, |w.trace|)
    {
      assert ReadyAt(r.ps, p) && WellLabelled(r.ps.producers[p], r.w, |w.trace|);
    }
  }

  /** With an honest registry: every message sent after a create has a reference's schema id and
      version that existed when they were resolved, satisfied the reference, and were the newest
      unless another version is pinned. */
  lemma SchemasAreProper(ps: Producer, schedule: seq<nat>, w: World, calls: seq<Call>, registry: SubjectHistory)
    requires Schedules(schedule, Width(ps.config)) && Created(ps, schedule, w) && ps.config.schemaRef.Some?
    requires Callable(CreateInterleaved(ps, schedule, w).ps)
    requires registry.subject == ps.config.schemaRef.value.subject
    requires Honest(registry, Life(ps, schedule, w, calls).w.trace, 0)
    ensures var trace := Life(ps, schedule, w, calls).w.trace;
            forall p, i :: 0 <= p < Width(ps.config) && |w.trace| <= i < |trace| ==>
              IsPublish(trace[i], TopicOf(ps.config, p)) ==>
              StampIsProper(trace, i, TopicOf(ps.config, p), ps.config.schemaRef.value, registry)
  {
    hide Life, TopicOf, NameOf, AllStamped, StampIsProper;
    MessagesAreStamped(ps, schedule, w, calls);
    var trace, ref := Life(ps, schedule, w, calls).w.trace, ps.config.schemaRef.value;
    forall p | 0 <= p < Width(ps.config)
      ensures forall i :: |w.trace| <= i < |trace| && IsPublish(trace[i], TopicOf(ps.config, p)) ==>
                StampIsProper(trace, i, TopicOf(ps.config, p), ref, registry)
    {
      MessagesAreProper(trace, TopicOf(ps.config, p), NameOf(ps.config, p), ref, |w.trace|, registry);
    }
  }

  /** What one call puts on the wire: every message bears its payload, its attributes or none, and its
      key; and the requests and answers of the call are one conversation, which starts with a publish
      and ends with the call's outcome. */
  lemma CallConverses(ps: Producer, w: World, call: Call)
    requires Ready(ps)
    ensures Callable(ps)
    ensures var r := Send(ps, w, call);
            && w.trace < r.w.trace
            && Converses(r.w.trace[|w.trace|..],
                         Terms(RetryOf(ps.config.options), ps.config.schemaRef, Some(Record(call))), r.receipt.out)
            && r.w.trace[|w.trace|].request.Publish?
            && forall i :: |w.trace| <= i < |r.w.trace| && r.w.trace[i].request.Publish? ==>
                 var b := r.w.trace[i].request.message.body;
                 && b.payload == call.data && b.key == call.key
                 && b.attributes == match call.attributes case None => map[] case Some(a) => a
  {
    hide SendLoop, Converses, TopicOf, NameOf, RetryOf, Width, Router.KeyRoute;
    PartitionInRange(ps, call.key);
    var p := SelectPartition(ps, call.key).0;
    assert ReadyAt(ps, p);
    BodyIsRecord(call);
    SendConverses(ps.producers[p], w, BodyOf(call));
    SendCarries(ps.producers[p], w, BodyOf(call), RetryOf(ps.config.options), 0);
  }

  /** Whatever state the producer is in, a call publishes nothing but what it was given. */
  lemma CallCarries(ps: Producer, w: World, call: Call)
    requires Callable(ps) && forall i :: 0 <= i < |ps.producers| ==> ps.producers[i].retry.Valid()
    ensures var r := Send(ps, w, call);
            w.trace <= r.w.trace && Carries(r.w.trace, |w.trace|, Record(call))
  {
    hide SendLoop, RetryOf, SelectPartition;
    BodyIsRecord(call);
    var p := SelectPartition(ps, call.key).0;
    if p < |ps.producers| {
      SendCarries(ps.producers[p], w, BodyOf(call), RetryOf(ps.config.options), 0);
    }
  }

  /** A call that chooses a partition for which there is no endpoint, before or instead of a create, is
      refused without a request; it has advanced the round robin all the same. */
  lemma OutOfRangeExactly(ps: Producer, w: World, call: Call)
    requires Callable(ps)
    ensures var n := ps.config.partitions;
            var routed := n > 0 && ps.router.Some?;
            var p := if !routed then 0
                     else if call.key.Some? then Fnv.Unbounded(Fnv.OFFSET, call.key.value) % Fnv.TWO64 % n
                     else if ps.router.value == n - 1 then 0 else ps.router.value + 1;
            var r := Send(ps, w, call);
            && r.receipt.partition == p
            && r.ps.router == (if routed && call.key.None? then Some(p) else ps.router)
            && (p >= |ps.producers| ==>
                  r.receipt.out == Raised(PartitionOutOfRange) && r.w == w && r.ps.producers == ps.producers)
  {
    hide SendLoop, Router.KeyRoute, Fnv.Unbounded, RetryOf;
    if Routed(ps) {
      if call.key.Some? {
        Router.KeyRouteIsHash(call.key.value, ps.config.partitions);
      } else {
        Router.NextPartCases(ps.router.value, ps.config.partitions);
      }
    }
  }
}
