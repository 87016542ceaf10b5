/** The health checks of a producer.  They are the same loops as a consumer's, over the stop events
    and task handles of the endpoints: in a `ConsumerSystem.State` without receive loops an entry of
    `consumers` is a `TopicProducer` and `current` are those in `Producer._producers`.  Nothing ever
    clears a producer's stop event. */
module ProducerHealth {
  import opened Wire
  import opened ConsumerSystem
  import opened ConsumerSignals

  datatype Happening =
    | EndpointBuilt                                // `TopicProducer(...)` in `create`
    | Registered(endpoint: nat)                    // a registration was accepted: a new health check
    | Installed(endpoints: set<nat>)               // `self._producers = ...`
    | HealthTurn(health: nat, answer: CheckResult)
    | Closed                                       // `Producer.close()`

  /** An accepted registration starts a health check each time, also when the schema lookup after it
      fails and `create` tries again; the handle of the earlier task is overwritten. */
  function After(s: State, e: Happening): (r: Option<State>)
    requires Shaped(s)
  {
    match e
    case EndpointBuilt => Some(s.(consumers := s.consumers + [TopicConsumer(false, None)]))
    case Registered(c) => if c < |s.consumers| then Some(StartHealth(s, c)) else None
    case Installed(cs) => if forall c <- cs :: c < |s.consumers| then Some(s.(current := cs)) else None
    case HealthTurn(h, answer) => if h < |s.health| then StepHealth(s, h, answer) else None
    case Closed => Some(OnClose(s))
  }

  lemma AfterShaped(s: State, e: Happening)
    requires Shaped(s)
    ensures After(s, e).Some? ==> Shaped(After(s, e).value)
  {
    if e.HealthTurn? && e.health < |s.health| {
      HealthShaped(s, e.health, e.answer);
    }
  }

  function Unfold(s: State, events: seq<Happening>): (r: Option<State>)
    requires Shaped(s)
    ensures r.Some? ==> Shaped(r.value)
    decreases events
  {
    if events == [] then Some(s)
    else
      AfterShaped(s, events[0]);
      var s' := After(s, events[0]);
      if s'.None? then None else Unfold(s'.value, events[1..])
  }

  /** How often task `h` has asked, if it has been started. */
  function Asked(s: State, h: nat): nat {
    if h < |s.health| then s.health[h].rpcs else 0
  }

  predicate Stopped(s: State, c: nat) {
    c < |s.consumers| && s.consumers[c].stop
  }

  /** Tasks keep their endpoints, stop events stay set, and a task that is silent asks no more;
      neither does a task started on an endpoint that has been told to stop. */
  ghost predicate Later(s: State, t: State) {
    && |s.consumers| <= |t.consumers| && |s.health| <= |t.health|
    && (forall c :: 0 <= c < |s.consumers| && s.consumers[c].stop ==> t.consumers[c].stop)
    && (forall h :: 0 <= h < |s.health| ==> t.health[h].consumer == s.health[h].consumer)
    && (forall h :: 0 <= h < |s.health| && Silent(s, h) ==> Silent(t, h) && Asked(t, h) == Asked(s, h))
    && (forall h :: |s.health| <= h < |t.health| && Stopped(s, t.health[h].consumer) ==> Asked(t, h) == 0)
  }

  lemma AfterIsLater(s: State, e: Happening)
    requires Shaped(s) && After(s, e).Some?
    ensures Later(s, After(s, e).value)
  {
    hide StepHealth, OnClose;
    match e
    case HealthTurn(h, answer) =>
      HealthStepShape(s, h, answer);
      forall g | 0 <= g < |s.health| && Silent(s, g)
        ensures Silent(After(s, e).value, g) && Asked(After(s, e).value, g) == Asked(s, g)
      {
        HealthQuiet(s, h, answer, g);
      }
    case Closed =>
      CloseShape(s);
      forall g | 0 <= g < |s.health| && Silent(s, g)
        ensures Silent(OnClose(s), g) && Asked(OnClose(s), g) == Asked(s, g)
      {
        CloseQuiet(s, g);
      }
    case _ =>
  }

  lemma LaterTransitive(s: State, t: State, u: State)
    requires Later(s, t) && Later(t, u) && Shaped(t)
    ensures Later(s, u)
  {
    forall h | |s.health| <= h < |u.health| && Stopped(s, u.health[h].consumer)
      ensures Asked(u, h) == 0
    {
      if h < |t.health| {
        assert Silent(t, h);
      }
    }
  }

  lemma {:induction false} UnfoldIsLater(s: State, events: seq<Happening>)
    requires Shaped(s)
    ensures Unfold(s, events).Some? ==> Later(s, Unfold(s, events).value)
    decreases events
  {
    hide After, Later;
    if events == [] {
      Now(s);
    } else {
      AfterShaped(s, events[0]);
      if After(s, events[0]).Some? {
        var t := After(s, events[0]).value;
        AfterIsLater(s, events[0]);
        UnfoldIsLater(t, events[1..]);
        if Unfold(t, events[1..]).Some? {
          LaterTransitive(s, t, Unfold(t, events[1..]).value);
        }
      }
    }
  }

  lemma Now(s: State)
    ensures Later(s, s)
  {
  }

  /** Once an endpoint has been told to stop, by `close` or by the broker, none of its health checks
      asks again: not the one it knows of, not one whose handle was overwritten, and not one that a
      later recreation starts. */
  lemma StoppedForGood(s: State, events: seq<Happening>, c: nat)
    requires Shaped(s) && c < |s.consumers| && s.consumers[c].stop && Unfold(s, events).Some?
    ensures var t := Unfold(s, events).value;
            && c < |t.consumers| && t.consumers[c].stop
            && forall h :: 0 <= h < |t.health| && t.health[h].consumer == c ==> Asked(t, h) == Asked(s, h)
  {
    hide Unfold;
    UnfoldIsLater(s, events);
    var t := Unfold(s, events).value;
    forall h | 0 <= h < |t.health| && t.health[h].consumer == c
      ensures Asked(t, h) == Asked(s, h)
    {
      if h < |s.health| {
        assert Silent(s, h);
      }
    }
  }

  /** A CLOSE answer tells the endpoint to stop, for good. */
  lemma CloseAnswerStopsForGood(s: State, h: nat, events: seq<Happening>)
    requires Shaped(s) && h < |s.health| && s.health[h].pc.Asking? && !s.health[h].cancelled
    ensures var told, c := After(s, HealthTurn(h, Close)), s.health[h].consumer;
            && told.Some? && Shaped(told.value) && c < |told.value.consumers| && told.value.consumers[c].stop
            && (Unfold(told.value, events).Some? ==>
                  var t := Unfold(told.value, events).value;
                  && c < |t.consumers| && t.consumers[c].stop
                  && forall g :: 0 <= g < |t.health| && t.health[g].consumer == c ==>
                       Asked(t, g) == Asked(told.value, g))
  {
    hide Unfold, Asked;
    AfterShaped(s, HealthTurn(h, Close));
    var told := After(s, HealthTurn(h, Close)).value;
    if Unfold(told, events).Some? {
      StoppedForGood(told, events, s.health[h].consumer);
    }
  }

  /** Each accepted registration starts one health check, which is the one that the endpoint then knows
      of; the earlier ones are left as they are. */
  lemma RegistrationWatches(s: State, c: nat, s': State)
    requires Shaped(s) && After(s, Registered(c)) == Some(s')
    ensures |s'.health| == |s.health| + 1 && s'.health[..|s.health|] == s.health
    ensures s'.health[|s.health|] == Health(c, Resting, false, 0)
    ensures c < |s.consumers| && |s'.consumers| == |s.consumers|
    ensures s'.consumers[c] == TopicConsumer(s.consumers[c].stop, Some(|s.health|))
    ensures forall d :: 0 <= d < |s.consumers| && d != c ==> s'.consumers[d] == s.consumers[d]
  {
  }

  /** Can this task still ask? */
  ghost predicate CanAsk(s: State, h: nat)
    requires Shaped(s)
  {
    exists events: seq<Happening> :: Unfold(s, events).Some? && Asked(Unfold(s, events).value, h) > Asked(s, h)
  }

  lemma AlertAsks(s: State, h: nat)
    requires Shaped(s) && h < |s.health| && !Silent(s, h)
    ensures CanAsk(s, h)
  {
    var turn := HealthTurn(h, Healthy);
    AfterShaped(s, turn);
    var s1 := After(s, turn).value;
    assert [turn][1..] == [] && Unfold(s1, []) == Some(s1);
    assert Unfold(s, [turn]) == Some(s1);
    if s.health[h].pc.Asking? {
      AfterShaped(s1, turn);
      var s2 := After(s1, turn).value;
      assert Unfold(s2, []) == Some(s2) && Unfold(s1, [turn]) == Some(s2);
      assert [turn, turn][1..] == [turn];
      assert Unfold(s, [turn, turn]) == Some(s2);
    }
  }

  /** Exactly which health checks `Producer.close` silences: all but those alive whose endpoint is
      not in `_producers`, has not been told to stop, and that were not cancelled: the endpoints of a
      `create` that failed or was repeated. */
  lemma ProducerCloseSilencesExactly(s: State, h: nat)
    requires Shaped(s) && h < |s.health|
    ensures var x := s.health[h];
            && Shaped(OnClose(s))
            && (CanAsk(OnClose(s), h) <==>
                  x.consumer !in s.current && !x.pc.HealthEnded? && !x.cancelled && !s.consumers[x.consumer].stop)
  {
    hide OnClose, Unfold, Later;
    AfterShaped(s, Closed);
    var closed := OnClose(s);
    SilentAfterClose(s, h);
    if Silent(closed, h) {
      forall events: seq<Happening> | Unfold(closed, events).Some?
        ensures Asked(Unfold(closed, events).value, h) == Asked(closed, h)
      {
        UnfoldIsLater(closed, events);
        SilentLater(closed, Unfold(closed, events).value, h);
      }
    } else {
      AlertAsks(closed, h);
    }
  }

  lemma SilentLater(s: State, t: State, h: nat)
    requires Later(s, t) && Silent(s, h)
    ensures Asked(t, h) == Asked(s, h)
  {
  }

  /** Such a run: the first registration is accepted, `create` then fails (in the schema lookup, or in
      another partition), so `_producers` stays empty; after `close` the health check goes on. */
  lemma OrphanAsksAfterClose(maxRetries: nat)
    ensures var r := Unfold(Init(maxRetries), [EndpointBuilt, Registered(0), Closed, HealthTurn(0, Healthy)]);
            r.Some? && r.value.shutdown && |r.value.health| == 1 && Asked(r.value, 0) == 1
  {
    var s0, turn := Init(maxRetries), HealthTurn(0, Healthy);
    var s1 := After(s0, EndpointBuilt).value;
    AfterShaped(s0, EndpointBuilt);
    var s2 := After(s1, Registered(0)).value;
    AfterShaped(s1, Registered(0));
    var s3 := After(s2, Closed).value;
    AfterShaped(s2, Closed);
    var s4 := After(s3, turn).value;
    AfterShaped(s3, turn);
    assert Unfold(s4, []) == Some(s4);
    assert [turn][1..] == [];
    assert [Closed, turn][1..] == [turn] && [Registered(0), Closed, turn][1..] == [Closed, turn];
    assert [EndpointBuilt, Registered(0), Closed, turn][1..] == [Registered(0), Closed, turn];
    assert Unfold(s3, [turn]) == Some(s4);
    assert Unfold(s2, [Closed, turn]) == Some(s4);
    assert Unfold(s1, [Registered(0), Closed, turn]) == Some(s4);
  }
}
