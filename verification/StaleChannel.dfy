/** The one way in which a sequential caller's message leaves the channel of its broker: a cancelled
    call.  The run below is a producer that registers with broker "a", has a send cancelled (by a
    time-out, say) while it moves to broker "b", and then sends again. */
module StaleChannel {
  import opened Wire
  import opened Retry
  import opened Connections
  import opened Network
  import opened Endpoint
  import opened Sending

  const RETRY := RetryManager(1, 1, 1)
  const BODY := Body([], map[], None)

  function Says(verdict: Verdict, broker: string): Reply {
    Reply(verdict, false, Address(broker, broker, false), 1, SchemaInfo(0, 0), 1, 0)
  }

  const GOOD := Says(Served, "a")
  const BUSY := Says(Failed(Unavailable), "a")
  const MOVED := Says(Served, "b")
  const STOP := Says(Interrupted, "a")

  /** After the create: publish, backoff, publish, lookup, and the next lookup is cancelled; then the
      publish of the second send. */
  const SCRIPT := [BUSY, GOOD, BUSY, MOVED, STOP, GOOD]

  /** A create whose lookup and registration are served, `rest` being what comes after. */
  function Start(rest: seq<Reply>): Step<nat> {
    var ep := Unconnected(ProducerRole(Reliable), "t", "p", None, RETRY, "a");
    Create(ep, World(Settings("a", None), [GOOD, GOOD] + rest, [], Pool(false, map[], [])))
  }

  /** The endpoint at "a" with the rest of the script before it. */
  predicate AtA(ep: Endpoint, w: World, rest: seq<Reply>) {
    && ep.role == ProducerRole(Reliable) && ep.topic == "t" && ep.name == "p" && ep.schemaRef == None
    && ep.retry == RETRY && ep.route == Address("a", "a", false) && ep.stub == Some(0)
    && w.settings == Settings("a", None) && w.script == rest
    && w.pool == Pool(false, map[KeyOf("a", "a") := 0], [Channel("a", false)])
  }

  lemma StartsAtA(rest: seq<Reply>)
    ensures var c := Start(rest); c.out == Ok(1) && AtA(c.ep, c.w, rest)
  {
    hide Replay;
    var ep := Unconnected(ProducerRole(Reliable), "t", "p", None, RETRY, "a");
    var w := World(Settings("a", None), [GOOD, GOOD] + rest, [], Pool(false, map[], []));
    var l := LookupNewBroker(ep, w);
    assert StripScheme("a") == "a";
    assert l.out.Ok? && l.w.script == [GOOD] + rest;
    assert l.ep.route == Address("a", "a", false);
    var t := TryCreate(l.ep, l.w);
    assert t.out == Ok(1) && t.w.script == rest;
  }

  /** Where the cancelled send leaves things: the route is "b", the stub still "a". */
  predicate Torn(r: Sent, w: World) {
    && r.out.Cancelled? && r.ep.stub == Some(0) && r.ep.route == Address("b", "b", false)
    && r.ep.topic == "t" && r.ep.retry == RETRY
    && r.w.settings == w.settings && r.w.script == [GOOD]
    && KeyOf("b", "b") in r.w.pool.connections && r.w.pool.connections[KeyOf("b", "b")] == 1
  }

  /** The recreation is cancelled between learning the new address and dialling it. */
  lemma Recreation(ep: Endpoint, w: World, error: Error)
    requires AtA(ep, w, [MOVED, STOP, GOOD]) && !error.Unrecoverable?
    ensures var c := Recreate(ep, w, error);
            c.out.Cancelled? && Torn(Sent(Cancelled, c.ep, c.w, 0), w)
  {
    hide Replay, CreateLoop;
    var l := HandleLookup(ep, w);
    assert l.0 == Ok(Address("b", "b", false)) && l.1.script == [STOP, GOOD];
    var l2 := LookupNewBroker(ep.(route := l.0.value), l.1);
    assert l2.out.Cancelled? && l2.w.script == [GOOD];
  }

  lemma SecondTry(ep: Endpoint, w: World)
    requires AtA(ep, w, [BUSY, MOVED, STOP, GOOD])
    ensures Torn(SendLoop(ep, w, BODY, RETRY, 1), w)
  {
    hide Replay, Recreate, Torn;
    var s := SendOnce(ep, w, BODY);
    assert s.out == Raised(Rpc(Unavailable)) && AtA(s.ep, s.w, [MOVED, STOP, GOOD]);
    Recreation(s.ep, s.w, s.out.error);
    var c := Recreate(s.ep, s.w, s.out.error);
    assert SendLoop(ep, w, BODY, RETRY, 1) == Sent(Cancelled, c.ep, c.w, 0);
    TornAlike(SendLoop(ep, w, BODY, RETRY, 1), s.w, w);
  }

  lemma TornAlike(r: Sent, w: World, w': World)
    requires Torn(r, w) && w'.settings == w.settings
    ensures Torn(r, w')
  {
  }

  lemma FirstSend(ep: Endpoint, w: World)
    requires AtA(ep, w, SCRIPT)
    ensures Torn(SendLoop(ep, w, BODY, RETRY, 0), w)
  {
    hide Replay, Recreate, Torn;
    var s := SendOnce(ep, w, BODY);
    assert s.out == Raised(Rpc(Unavailable)) && AtA(s.ep, s.w, [GOOD, BUSY, MOVED, STOP, GOOD]);
    var p := Pause(s.ep, s.w, RETRY, 0);
    assert p.out.Ok? && AtA(p.ep, p.w, [BUSY, MOVED, STOP, GOOD]);
    assert SendLoop(ep, w, BODY, RETRY, 0) == SendLoop(p.ep, p.w, BODY, RETRY, 1);
    SecondTry(p.ep, p.w);
    TornAlike(SendLoop(ep, w, BODY, RETRY, 0), p.w, w);
  }

  /** A reachable state in which a message addressed to broker "b" is published over the channel
      of broker "a", although "b" has a channel of its own. */
  lemma StaleChannelAfterCancel()
    ensures Start(SCRIPT).out == Ok(1)
    ensures var r := SendLoop(Start(SCRIPT).ep, Start(SCRIPT).w, BODY, RETRY, 0);
            var s := SendLoop(r.ep, r.w, BODY, RETRY, 0);
            && r.out.Cancelled? && s.out.Ok? && s.w.trace != []
            && var q := s.w.trace[|s.w.trace| - 1].request;
               && q.Publish? && q.message.brokerAddr == "b"
               && HandleIs(s.w.pool, "b", "b", 1) && q.channel == 0
  {
    hide Replay;
    StartsAtA(SCRIPT);
    var c := Start(SCRIPT);
    FirstSend(c.ep, c.w);
    var r := SendLoop(c.ep, c.w, BODY, RETRY, 0);
    SecondSend(r.ep, r.w);
  }

  lemma SecondSend(ep: Endpoint, w: World)
    requires ep.stub == Some(0) && ep.route.brokerUrl == "b" && ep.retry == RETRY && w.script == [GOOD]
    ensures var s := SendLoop(ep, w, BODY, RETRY, 0);
            && s.out.Ok? && s.w.pool == w.pool && |s.w.trace| == |w.trace| + 1
            && var q := s.w.trace[|w.trace|].request;
               q.Publish? && q.message.brokerAddr == "b" && q.channel == 0
  {
    hide Replay;
    var s := SendOnce(ep, w, BODY);
    assert s.out == Ok(1);
  }
}
