/** Among concurrent callers a message leaves the channel of its broker without any cancellation: while
    one call recreates the endpoint, its new route is already set and its old stub still there, and
    another call publishes with both. */
module StaleNeighbour {
  import opened Wire
  import opened Connections
  import opened Network
  import opened Endpoint
  import opened ProducerModel
  import opened ProducerRuns
  import opened SendTask
  import opened ConcurrentSends
  import opened StaleChannel
  import CreateTask

  const CONFIG := Config("t", "p", 0, None, Reliable, Options(1, 1, 1))
  const CALL := Call([], None, None)

  const A := Address("a", "a", false)
  const B := Address("b", "b", false)

  /** The first call's publish, its backoff, its second publish and its lookup; then the second
      call's publish.  Nobody is cancelled. */
  const ANSWERS := [BUSY, GOOD, BUSY, MOVED, GOOD]

  /** One endpoint with the stub of broker "a" and this route, the answers from `k` on still to come,
      and the first call, if there is one, waiting at `place`. */
  ghost predicate Scene(s: System, route: Address, k: nat, place: Option<Place>)
    requires k <= |ANSWERS|
  {
    && Sound(s) && s.ps.config == CONFIG && |s.ps.producers| == 1
    && s.ps.producers[0].stub == Some(0) && s.ps.producers[0].route == route
    && s.w.script == ANSWERS[k..] && s.w.settings == Settings("a", None)
    && KeyOf("a", "a") in s.w.pool.connections && |s.w.pool.channels| == (if route == A then 1 else 2)
    && (KeyOf("b", "b") in s.w.pool.connections <==> route == B)
    && (route == B ==> s.w.pool.connections[KeyOf("b", "b")] == 1)
    && match place
       case None => s.callers == []
       case Some(p) => |s.callers| == 1 && s.callers[0].wait.Awaiting? && s.callers[0].wait.place == p
  }

  lemma Known(s: System)
    requires Sound(s) && s.ps.config == CONFIG
    ensures |s.ps.producers| == 1 && RetryOf(CONFIG.options) == RETRY
    ensures var ep := s.ps.producers[0]; ep.retry == RETRY && ep.topic == "t" && ep.schemaRef == None
  {
    assert ReadyAt(s.ps, 0);
  }

  lemma Opening() returns (s: System)
    ensures Start(ANSWERS).out == Ok(1)
    ensures s == Idle(Producer(CONFIG, None, [Start(ANSWERS).ep]), Start(ANSWERS).w)
    ensures Scene(s, A, 0, None) && Kept(s, |s.w.trace|)
  {
    hide Replay, Create;
    StartsAtA(ANSWERS);
    s := Idle(Producer(CONFIG, None, [Start(ANSWERS).ep]), Start(ANSWERS).w);
    assert ReadyAt(s.ps, 0);
  }

  lemma Calls(s: System)
    requires Kept(s, |s.w.trace|) && Scene(s, A, 0, None)
    ensures Scene(Next(s, Enter(CALL)), A, 0, Some(Publishing(0)))
  {
    hide Replay;
    Known(s);
    EnterKept(s, |s.w.trace|, CALL);
  }

  lemma GetsAnswer(s: System, n: nat, k: nat, place: Place, next: Place)
    requires k < 3 && Kept(s, n) && Scene(s, A, k, Some(place))
    requires || (k == 0 && place == Publishing(0) && next == Pausing(0))
             || (k == 1 && place == Pausing(0) && next == Publishing(1))
             || (k == 2 && place == Publishing(1) && next == Relooking(Rpc(Unavailable)))
    ensures Scene(Next(s, Answer(0)), A, k + 1, Some(next))
  {
    hide Replay, StripScheme;
    Known(s);
    AnswerKept(s, n, 0);
    assert CallerFits(s, 0);
    assert ANSWERS[k..][1..] == ANSWERS[k + 1..];
  }

  lemma Moves(s: System, n: nat)
    requires Kept(s, n) && Scene(s, A, 3, Some(Relooking(Rpc(Unavailable))))
    ensures Scene(Next(s, Answer(0)), B, 4, Some(Creating(CreateTask.Arriving)))
  {
    hide Replay, StripScheme;
    Known(s);
    AnswerKept(s, n, 0);
    assert CallerFits(s, 0);
    assert ANSWERS[3..][1..] == ANSWERS[4..];
  }

  /** The second call has returned; its message was addressed to "b", which has channel 1, and went
      over channel 0. */
  ghost predicate Strayed(s: System) {
    && |s.callers| == 2 && s.callers[1].wait == Ended(Ok(1)) && s.w.trace != []
    && var q := s.w.trace[|s.w.trace| - 1].request;
       && q.Publish? && q.message.brokerAddr == "b"
       && HandleIs(s.w.pool, "b", "b", 1) && q.channel == 0
  }

  /** The second call publishes at once, over the old stub to the new broker. */
  lemma Interferes(s: System, n: nat)
    requires Kept(s, n) && Scene(s, B, 4, Some(Creating(CreateTask.Arriving)))
    ensures Kept(Next(s, Enter(CALL)), n)
    ensures Strayed(Next(Next(s, Enter(CALL)), Answer(1)))
  {
    hide Replay, StripScheme;
    Known(s);
    EnterKept(s, n, CALL);
    var s' := Next(s, Enter(CALL));
    Known(s');
    assert CallerFits(s', 1);
  }

  const ACTS := [Enter(CALL), Answer(0), Answer(0), Answer(0), Answer(0), Enter(CALL), Answer(1)]

  /** A run of two calls, none of them cancelled, in which a message addressed to broker "b" is
      published over the channel of broker "a". */
  lemma StrayAmongConcurrentCalls() returns (s: System)
    ensures Start(ANSWERS).out == Ok(1) && NoInterrupt(ANSWERS)
    ensures s == Idle(Producer(CONFIG, None, [Start(ANSWERS).ep]), Start(ANSWERS).w) && Kept(s, |s.w.trace|)
    ensures Strayed(Perform(s, |s.w.trace|, ACTS))
  {
    hide Next, Scene, Start, Replay, Sound, CallerOk, TurnFaithful, ReturnFaithful, Strayed;
    s := Opening();
    var n := |s.w.trace|;
    Calls(s);
    var s1 := Perform1(s, n, ACTS, 0);
    GetsAnswer(s1, n, 0, Publishing(0), Pausing(0));
    var s2 := Perform1(s1, n, ACTS, 1);
    GetsAnswer(s2, n, 1, Pausing(0), Publishing(1));
    var s3 := Perform1(s2, n, ACTS, 2);
    GetsAnswer(s3, n, 2, Publishing(1), Relooking(Rpc(Unavailable)));
    var s4 := Perform1(s3, n, ACTS, 3);
    MovesThenInterferes(s4, n);
  }

  lemma MovesThenInterferes(s: System, n: nat)
    requires Kept(s, n) && Scene(s, A, 3, Some(Relooking(Rpc(Unavailable))))
    ensures Strayed(Perform(s, n, ACTS[4..]))
  {
    hide Next, Scene, Sound, CallerOk, TurnFaithful, ReturnFaithful, Strayed;
    Moves(s, n);
    var s5 := Perform1(s, n, ACTS, 4);
    Interferes(s5, n);
    var s6 := Perform1(s5, n, ACTS, 5);
    var s7 := Perform1(s6, n, ACTS, 6);
  }

  /** One act of a run. */
  lemma Perform1(s: System, n: nat, acts: seq<Act>, k: nat) returns (s': System)
    requires Kept(s, n) && k < |acts|
    ensures s' == Next(s, acts[k]) && Kept(s', n)
    ensures Perform(s, n, acts[k..]) == Perform(s', n, acts[k + 1..])
    ensures k + 1 == |acts| ==> Perform(s', n, acts[k + 1..]) == s'
    ensures k == 0 ==> acts[k..] == acts
  {
    hide Next;
    NextKept(s, n, acts[k]);
    s' := Next(s, acts[k]);
    assert acts[k..][1..] == acts[k + 1..];
  }
}
