/** danube/producer.py: the class, proved against `ProducerModel`. */
module Producer {
  import opened Wire
  import opened Retry
  import opened Network
  import opened E = Endpoint
  import opened S = Sending
  import opened Client
  import Router
  import Names
  import M = ProducerModel
  import C = CreateTask
  import G = Gather
  import P = ProducerCreation
  import L = ProducerLifetime
  import R = ProducerRuns
  import V = Conversation
  import T = TopicProducer

  class Producer {
    const client: DanubeClient
    const config: M.Config
    var producers: seq<T.TopicProducer>
    var messageRouter: Router.MessageRouter?

    ghost function RouterSet(): set<object>
      reads this
    {
      if messageRouter == null then {} else {messageRouter}
    }

    ghost predicate Valid()
      reads this, RouterSet(), producers
    {
      && (messageRouter != null ==> messageRouter.Valid() && messageRouter.partitions == config.partitions)
      && (forall i :: 0 <= i < |producers| ==> producers[i].client == client && producers[i].retryManager.Valid())
      && (forall i, j :: 0 <= i < j < |producers| ==> producers[i] != producers[j])
    }

    ghost function State(): (s: M.Producer)
      reads this, RouterSet(), producers
      ensures s.config == config
    {
      M.Producer(config, if messageRouter == null then None else Some(messageRouter.last), States(producers))
    }

    constructor (client: DanubeClient, config: M.Config)
      ensures Valid() && this.client == client
      ensures State() == M.Producer(config, None, [])
    {
      this.client := client;
      this.config := config;
      producers := [];
      messageRouter := null;
    }

    /** `create`, the per-partition creates of `gather` taking turns as `schedule` says.  `out` is how
        it has ended, if it has; after a failure the other creates go on. */
    method Create(schedule: seq<nat>) returns (out: Option<Outcome<()>>)
      requires Valid() && G.Schedules(schedule, M.Width(config))
      modifies this, client, client.manager
      ensures Valid() && (producers == old(producers) || fresh(producers))
      ensures P.Creating(out, State(), client.Now()) == P.CreateInterleaved(old(State()), schedule, old(client.Now()))
      ensures P.Succeeded(out) ==>
                forall i :: 0 <= i < |State().producers| ==> P.AsConfigured(State().producers[i], config, i)
    {
      hide G.Interleave, G.Ending, G.Begin, M.NewEndpoints, States, State, Valid;
      P.CreatedAsConfigured(State(), schedule, client.Now());
      hide P.AsConfigured;
      InstallRouter();
      var tps := BuildNew();
      out := GatherNew(tps, schedule);
      if P.Succeeded(out) {
        Adopt(tps);
      }
    }

    /** New endpoints leave the producer as it is. */
    method BuildNew() returns (tps: seq<T.TopicProducer>)
      requires Valid()
      ensures Valid() && State() == old(State()) && producers == old(producers)
      ensures Apart(tps) && fresh(tps)
      ensures forall i, j :: 0 <= i < |tps| && 0 <= j < |producers| ==> tps[i] != producers[j]
      ensures |tps| == M.Width(config) && States(tps) == P.Fleet(State(), client.Now())
    {
      hide M.NewEndpoints;
      tps := BuildEndpoints();
      assert States(producers) == old(States(producers));
    }

    /** The creates touch nothing of the producer that calls them. */
    method GatherNew(tps: seq<T.TopicProducer>, schedule: seq<nat>) returns (out: Option<Outcome<()>>)
      requires Valid() && Apart(tps) && G.Schedules(schedule, |tps|)
      requires forall i, j :: 0 <= i < |tps| && 0 <= j < |producers| ==> tps[i] != producers[j]
      modifies tps, client, client.manager
      ensures Valid() && State() == old(State()) && producers == old(producers)
      ensures G.Sound(G.Begin(old(States(tps)), old(client.Now())))
      ensures var g := G.Interleave(G.Begin(old(States(tps)), old(client.Now())), schedule);
              out == G.Ending(g) && States(tps) == P.EndpointsOf(g.tasks) && client.Now() == g.w
    {
      hide G.Interleave, G.Ending, G.Begin;
      out := Gather(tps, schedule);
      assert States(producers) == old(States(producers));
    }

    method Adopt(tps: seq<T.TopicProducer>)
      requires Valid() && Apart(tps)
      modifies this`producers
      ensures Valid() && producers == tps
      ensures State() == old(State()).(producers := States(tps))
    {
      producers := tps;
    }

    /** The router is replaced before any endpoint is created. */
    method InstallRouter()
      requires Valid()
      modifies this
      ensures Valid() && producers == old(producers)
      ensures State() == if config.partitions == 0 then old(State())
                         else old(State()).(router := Some(config.partitions - 1))
    {
      if config.partitions != 0 {
        messageRouter := new Router.MessageRouter(config.partitions);
      }
    }

    method BuildEndpoints() returns (tps: seq<T.TopicProducer>)
      ensures |tps| == M.Width(config) && fresh(tps) && Apart(tps)
      ensures States(tps) == M.NewEndpoints(config, M.Width(config), client.settings.uri)
    {
      hide M.NewEndpoints, States, Apart;
      tps := [];
      NoEndpoints();
      for pid := 0 to M.Width(config)
        invariant |tps| == pid && fresh(tps) && Apart(tps)
        invariant States(tps) == M.NewEndpoints(config, pid, client.settings.uri)
      {
        var tp := NextEndpoint(tps);
        tps := tps + [tp];
      }
    }

    lemma NoEndpoints()
      ensures Apart([]) && States([]) == M.NewEndpoints(config, 0, client.settings.uri)
    {
    }

    method NextEndpoint(tps: seq<T.TopicProducer>) returns (tp: T.TopicProducer)
      requires Apart(tps) && States(tps) == M.NewEndpoints(config, |tps|, client.settings.uri)
      ensures fresh(tp) && Apart(tps + [tp])
      ensures States(tps + [tp]) == M.NewEndpoints(config, |tps| + 1, client.settings.uri)
    {
      hide M.NewEndpoint;
      tp := BuildEndpoint(|tps|);
      StatesAppend(tps, tp);
    }

    method BuildEndpoint(pid: nat) returns (tp: T.TopicProducer)
      ensures fresh(tp) && tp.client == client && tp.retryManager.Valid()
      ensures tp.State() == M.NewEndpoint(config, pid, client.settings.uri)
    {
      var topic, name := config.topic, config.name;
      if config.partitions != 0 {
        topic := config.topic + "-part-" + Names.Decimal(pid);
        name := config.name + "-" + Names.Decimal(pid);
      }
      tp := new T.TopicProducer(client, topic, name, config.schemaRef, config.dispatch,
                                config.options.maxRetries, config.options.baseBackoffMs, config.options.maxBackoffMs);
      assert tp.State().retry == M.RetryOf(config.options);
    }

    ghost predicate Apart(tps: seq<T.TopicProducer>)
    {
      && (forall i :: 0 <= i < |tps| ==> tps[i].client == client && tps[i].retryManager.Valid())
      && (forall i, j :: 0 <= i < j < |tps| ==> tps[i] != tps[j])
    }

    ghost function Tasks(tps: seq<T.TopicProducer>, phases: seq<C.Phase>): (tasks: seq<C.Task>)
      requires |phases| == |tps|
      reads tps
      ensures |tasks| == |tps|
      ensures forall i :: 0 <= i < |tps| ==> tasks[i].phase == phases[i]
      ensures P.EndpointsOf(tasks) == States(tps)
    {
      seq(|tps|, i requires 0 <= i < |tps| reads tps => C.Task(tps[i].State(), phases[i]))
    }

    /** `asyncio.gather`: the event loop resumes the creates in the order of `schedule`. */
    method Gather(tps: seq<T.TopicProducer>, schedule: seq<nat>) returns (out: Option<Outcome<()>>)
      requires Apart(tps) && G.Schedules(schedule, |tps|)
      modifies tps, client, client.manager
      ensures G.Sound(G.Begin(old(States(tps)), old(client.Now())))
      ensures var g := G.Interleave(G.Begin(old(States(tps)), old(client.Now())), schedule);
              out == G.Ending(g) && States(tps) == P.EndpointsOf(g.tasks) && client.Now() == g.w
    {
      hide C.Advance, C.Fits, G.Interleave, G.Next, Apart;
      var phases := seq(|tps|, _ => C.Arriving);
      var failure := None;
      FreshTasks(tps);
      ghost var begin := G.Begin(States(tps), client.Now());
      assert Tasks(tps, phases) == begin.tasks;
      for k := 0 to |schedule|
        invariant |phases| == |tps|
        invariant G.Sound(begin) && G.Sound(G.Gathering(Tasks(tps, phases), failure, client.Now()))
        invariant G.Interleave(G.Gathering(Tasks(tps, phases), failure, client.Now()), schedule[k..])
               == G.Interleave(begin, schedule)
      {
        G.InterleaveTurn(G.Gathering(Tasks(tps, phases), failure, client.Now()), schedule, k);
        phases, failure := Turn(tps, phases, failure, schedule[k]);
      }
      G.InterleaveTurn(G.Gathering(Tasks(tps, phases), failure, client.Now()), schedule, |schedule|);
      out := Ending(phases, failure, Tasks(tps, phases), client.Now());
    }

    method Ending(phases: seq<C.Phase>, failure: Option<Outcome<()>>, ghost tasks: seq<C.Task>, ghost w: World)
      returns (out: Option<Outcome<()>>)
      requires |tasks| == |phases| && forall i :: 0 <= i < |tasks| ==> tasks[i].phase == phases[i]
      ensures out == G.Ending(G.Gathering(tasks, failure, w))
    {
      if failure.Some? {
        out := failure;
      } else if forall i :: 0 <= i < |phases| ==> phases[i].Done? {
        out := Some(Ok(()));
      } else {
        out := None;
      }
    }

    lemma FreshTasks(tps: seq<T.TopicProducer>)
      requires Apart(tps)
      ensures forall w :: G.Sound(G.Begin(States(tps), w))
      ensures forall w :: Tasks(tps, seq(|tps|, _ => C.Arriving)) == G.Begin(States(tps), w).tasks
    {
    }

    /** The create of endpoint `i` is resumed, unless it has ended. */
    method Turn(tps: seq<T.TopicProducer>, phases: seq<C.Phase>, failure: Option<Outcome<()>>, i: nat)
      returns (phases': seq<C.Phase>, failure': Option<Outcome<()>>)
      requires Apart(tps) && |phases| == |tps| && i < |tps|
      requires G.Sound(G.Gathering(Tasks(tps, phases), failure, client.Now()))
      modifies tps, client, client.manager
      ensures |phases'| == |tps|
      ensures G.Gathering(Tasks(tps, phases'), failure', client.Now())
           == old(G.Next(G.Gathering(Tasks(tps, phases), failure, client.Now()), i))
    {
      hide C.Advance;
      phases', failure' := phases, failure;
      if !phases[i].Done? {
        ghost var tasks := Tasks(tps, phases);
        assert C.Fits(tasks[i]);
        var next := tps[i].Resume(phases[i]);
        phases' := phases[i := next];
        if failure.None? && next.Done? && !next.out.Ok? {
          failure' := Some(G.FailureOf(next.out));
        }
        assert Tasks(tps, phases') == tasks[i := C.Task(tps[i].State(), next)] by {
          assert forall j :: 0 <= j < |tps| && j != i ==> tps[j] != tps[i];
        }
      }
    }

    /** `_select_partition`. */
    method SelectPartition() returns (partition: nat)
      requires Valid()
      modifies RouterSet()
      ensures Valid() && M.RouterOk(old(State())) && messageRouter == old(messageRouter)
      ensures (partition, State()) == M.SelectPartition(old(State()), None)
    {
      hide Router.NextPart;
      partition := 0;
      if config.partitions > 0 && messageRouter != null {
        partition := messageRouter.RoundRobin();
      }
      assert States(producers) == old(States(producers));
    }

    /** `_select_partition_for_key`. */
    method SelectPartitionForKey(key: Bytes) returns (partition: nat)
      requires Valid()
      ensures Valid() && State() == old(State()) && M.RouterOk(State())
      ensures (partition, State()) == M.SelectPartition(State(), Some(key))
    {
      hide Router.KeyRoute;
      partition := 0;
      if config.partitions > 0 && messageRouter != null {
        partition := messageRouter.RouteKey(key);
      }
    }

    lemma StateCallable()
      requires Valid()
      ensures M.Callable(State())
      ensures forall i :: 0 <= i < |State().producers| ==> State().producers[i].retry.Valid()
    {
    }

    /** A `send` without a key advances the router before anything can fail. */
    method Send(data: Bytes, attributes: Option<map<string, string>>) returns (out: Outcome<nat>)
      requires Valid()
      modifies producers, RouterSet(), client, client.manager
      ensures Valid() && M.Callable(old(State()))
      ensures var r := M.Send(old(State()), old(client.Now()), M.Call(data, attributes, None));
              out == r.receipt.out && State() == r.ps && client.Now() == r.w
      ensures old(client.trace) <= client.trace
      ensures forall i :: |old(client.trace)| <= i < |client.trace| && client.trace[i].request.Publish? ==>
                client.trace[i].request.message.body
                == Body(data, match attributes case None => map[] case Some(a) => a, None)
      ensures R.Ready(old(State())) ==>
                V.Converses(client.trace[|old(client.trace)|..],
                            V.Terms(M.RetryOf(config.options), config.schemaRef,
                                    Some(R.Record(M.Call(data, attributes, None)))),
                            out)
    {
      hide SendLoop, M.BodyOf, M.RetryOf, M.SelectPartition, M.RouterOk, State, Valid;
      StateCallable();
      L.CallCarries(State(), client.Now(), M.Call(data, attributes, None));
      if R.Ready(State()) {
        L.CallConverses(State(), client.Now(), M.Call(data, attributes, None));
      }
      hide V.Converses, R.Ready;
      var partition := SelectPartition();
      out := SendTo(partition, data, attributes, None);
    }

    method SendWithKey(data: Bytes, attributes: Option<map<string, string>>, key: Bytes) returns (out: Outcome<nat>)
      requires Valid()
      modifies producers, client, client.manager
      ensures Valid() && M.Callable(old(State()))
      ensures var r := M.Send(old(State()), old(client.Now()), M.Call(data, attributes, Some(key)));
              out == r.receipt.out && State() == r.ps && client.Now() == r.w
      ensures old(client.trace) <= client.trace
      ensures forall i :: |old(client.trace)| <= i < |client.trace| && client.trace[i].request.Publish? ==>
                client.trace[i].request.message.body
                == Body(data, match attributes case None => map[] case Some(a) => a, Some(key))
      ensures R.Ready(old(State())) ==>
                V.Converses(client.trace[|old(client.trace)|..],
                            V.Terms(M.RetryOf(config.options), config.schemaRef,
                                    Some(R.Record(M.Call(data, attributes, Some(key))))),
                            out)
    {
      hide SendLoop, M.BodyOf, M.RetryOf, M.SelectPartition, M.RouterOk, State, Valid;
      StateCallable();
      L.CallCarries(State(), client.Now(), M.Call(data, attributes, Some(key)));
      if R.Ready(State()) {
        L.CallConverses(State(), client.Now(), M.Call(data, attributes, Some(key)));
      }
      hide V.Converses, R.Ready;
      var partition := SelectPartitionForKey(key);
      out := SendTo(partition, data, attributes, Some(key));
    }

    /** The part that both send operations have in common: the range check and the retry loop. */
    method SendTo(partition: nat, data: Bytes, attributes: Option<map<string, string>>, key: Option<Bytes>)
      returns (out: Outcome<nat>)
      requires Valid()
      modifies producers, client, client.manager
      ensures Valid()
      ensures if partition >= |old(State()).producers| then
                out == Raised(PartitionOutOfRange) && State() == old(State()) && client.Now() == old(client.Now())
              else
                var r := SendLoop(old(State()).producers[partition], old(client.Now()),
                                  M.BodyOf(M.Call(data, attributes, key)), M.RetryOf(config.options), 0);
                && out == r.out && client.Now() == r.w
                && State() == old(State()).(producers := old(State()).producers[partition := r.ep])
    {
      hide SendLoop, M.BodyOf, M.RetryOf;
      if partition >= |producers| {
        return Raised(PartitionOutOfRange);
      }
      var retryManager := M.RetryOf(config.options);
      var body := M.BodyOf(M.Call(data, attributes, key));
      var tp := producers[partition];
      out := SendVia(tp, body, retryManager);
      assert forall i :: 0 <= i < |producers| && i != partition ==>
          producers[i] != tp && producers[i].State() == old(producers[i].State());
    }

    method SendVia(tp: T.TopicProducer, body: Body, retryManager: RetryManager) returns (out: Outcome<nat>)
      requires tp.client == client && tp.retryManager.Valid() && retryManager.Valid()
      modifies tp, client, client.manager
      ensures var r := SendLoop(old(tp.State()), old(client.Now()), body, retryManager, 0);
              out == r.out && tp.State() == r.ep && client.Now() == r.w
    {
      hide SendOnce, S.Recreate, Pause;
      var attempts := 0;
      while true
        invariant 0 <= attempts <= retryManager.maxRetries
        invariant Same(SendLoop(tp.State(), client.Now(), body, retryManager, attempts),
                       SendLoop(old(tp.State()), old(client.Now()), body, retryManager, 0))
        decreases |client.script|
      {
        ghost var before := client.Now();
        AttemptShrinks(tp.State(), before, body, retryManager);
        out := tp.Send(body);
        if !out.Raised? {
          return;
        }
        var error := out.error;
        if error.Unrecoverable? {
          out := Recreate(tp, error);
          if !out.Ok? {
            return;
          }
          attempts := 0;
        } else if retryManager.IsRetryable(error) {
          attempts := attempts + 1;
          if attempts > retryManager.maxRetries {
            out := Recreate(tp, error);
            if !out.Ok? {
              return;
            }
            attempts := 0;
          } else {
            var slept := Backoff(tp, retryManager, attempts - 1);
            if slept.Cancelled? {
              return Cancelled;
            }
          }
        } else {
          return;
        }
      }
    }

    method Backoff(tp: T.TopicProducer, retryManager: RetryManager, attempt: nat) returns (out: Outcome<()>)
      requires tp.client == client
      modifies client
      ensures Step(out, tp.State(), client.Now()) == Pause(tp.State(), old(client.Now()), retryManager, attempt)
      ensures tp.State() == old(tp.State()) && |client.script| <= old(|client.script|)
    {
      var reply := client.Await(Sleep(tp.topic, retryManager.Low(attempt), retryManager.High(attempt)));
      out := if reply.verdict.Interrupted? then Cancelled else Ok(());
    }

    /** `_recreate_producer`, or `_lookup_and_recreate` with the error that led to it. */
    method Recreate(tp: T.TopicProducer, originalError: Error) returns (out: Outcome<nat>)
      requires tp.client == client && tp.retryManager.Valid()
      modifies tp, client, client.manager
      ensures Step(out, tp.State(), client.Now()) == S.Recreate(old(tp.State()), old(client.Now()), originalError)
    {
      hide E.HandleLookup, E.Create;
      if originalError.Unrecoverable? {
        out := tp.Create();
        return;
      }
      var answer := tp.HandleLookup();
      match answer
      case Ok(address) =>
        tp.brokerAddr := address.brokerUrl;
        tp.connectUrl := address.connectUrl;
        tp.proxy := address.proxy;
        out := tp.Create();
      case Raised(_) => out := Raised(originalError);
      case Cancelled => out := Cancelled;
    }

    /** Every endpoint is told to stop, and the health task that it knows of is cancelled. */
    method Close()
      requires Valid()
      modifies producers
      ensures forall i :: 0 <= i < |producers| ==>
                && producers[i].stopEvent && producers[i].State() == old(producers[i].State()).(health := None)
                && producers[i].cancelled == old(producers[i].AfterStop())
    {
      for i := 0 to |producers|
        invariant forall j :: 0 <= j < i ==>
                    && producers[j].stopEvent && producers[j].State() == old(producers[j].State()).(health := None)
                    && producers[j].cancelled == old(producers[j].AfterStop())
        invariant forall j :: i <= j < |producers| ==>
                    && producers[j].State() == old(producers[j].State())
                    && producers[j].AfterStop() == old(producers[j].AfterStop())
      {
        producers[i].Stop();
      }
    }
  }

  ghost function States(producers: seq<T.TopicProducer>): (s: seq<E.Endpoint>)
    reads producers
    ensures |s| == |producers| && forall i :: 0 <= i < |producers| ==> s[i] == producers[i].State()
  {
    seq(|producers|, i requires 0 <= i < |producers| reads producers => producers[i].State())
  }

  lemma StatesAppend(tps: seq<T.TopicProducer>, tp: T.TopicProducer)
    ensures States(tps + [tp]) == States(tps) + [tp.State()]
  {
  }

  /** Equal up to the count of recreations, which only the specification keeps. */
  predicate Same(a: Sent, b: Sent) {
    a.out == b.out && a.ep == b.ep && a.w == b.w
  }

  /** Every round of the loop that is not its last consumes a reply. */
  lemma AttemptShrinks(ep: E.Endpoint, w: World, body: Body, retry: RetryManager)
    ensures var s := SendOnce(ep, w, body);
            && |s.w.script| <= |w.script| && s.ep.retry == ep.retry
            && (s.out.Raised? && !s.out.error.Unrecoverable? ==> |s.w.script| < |w.script|)
  {
  }
}
