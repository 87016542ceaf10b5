/** The stop event and `Consumer.close`: what they stop, how soon, and what they do not reach. */
module ConsumerSignals {
  import opened ConsumerSystem
  import opened ConsumerSafety

  // ---- the stop event ----

  /** Only a receive loop of the consumer clears its stop event, and in the same step it turns to
      resubscribing; so no CLOSE signal is dropped. */
  lemma OnlyItsLoopClears(s: State, a: Action, c: nat)
    requires Shaped(s) && c < |s.consumers| && s.consumers[c].stop
    ensures var r := Next(s, a);
            r.Some? ==>
              && c < |r.value.consumers|
              && (!r.value.consumers[c].stop ==>
                    && a.LoopStep? && a.loop < |s.loops| && s.loops[a.loop].consumer == c && !s.shutdown
                    && a.loop < |r.value.loops| && r.value.loops[a.loop].pc.Subscribing?
                    && r.value.loops[a.loop].marks == s.loops[a.loop].marks + [Cleared])
  {
    hide StepLoop, StepHealth;
    match a
    case LoopStep(i, wake) =>
      if i < |s.loops| {
        LoopClears(s, i, wake, c);
      }
    case HealthStep(h, answer) =>
      if h < |s.health| {
        HealthNeverClears(s, h, answer, c);
      }
    case _ =>
  }

  lemma LoopClears(s: State, i: nat, wake: Wake, c: nat)
    requires Shaped(s) && i < |s.loops| && c < |s.consumers| && s.consumers[c].stop
    ensures var r := StepLoop(s, i, wake);
            r.Some? ==>
              && c < |r.value.consumers|
              && (!r.value.consumers[c].stop ==>
                    && s.loops[i].consumer == c && !s.shutdown
                    && i < |r.value.loops| && r.value.loops[i].pc.Subscribing?
                    && r.value.loops[i].marks == s.loops[i].marks + [Cleared])
  {
    hide Shaped;
    ShapedAt(s, i);
  }

  lemma HealthNeverClears(s: State, h: nat, answer: CheckResult, c: nat)
    requires h < |s.health| && s.health[h].consumer < |s.consumers| && c < |s.consumers| && s.consumers[c].stop
    ensures var r := StepHealth(s, h, answer);
            r.Some? ==> c < |r.value.consumers| && r.value.consumers[c].stop
  {
  }

  /** In every reachable state: after a clear a receive loop has opened another stream only once a
      resubscription had succeeded, and that resubscription came next. */
  lemma NoStreamBeforeResubscription(maxRetries: nat, actions: seq<Action>, i: nat, k: nat, j: nat)
    requires Execute(Init(maxRetries), actions).Some? && i < |Execute(Init(maxRetries), actions).value.loops|
    requires var marks := Execute(Init(maxRetries), actions).value.loops[i].marks;
             k < j < |marks| && marks[k].Cleared? && marks[j].Opened?
    ensures var marks := Execute(Init(maxRetries), actions).value.loops[i].marks;
            k + 1 < j && marks[k + 1].Resubscribed?
  {
    hide SessionsOk, LossesOk, Conserved, QueueOk;
    AlwaysSafe(maxRetries, actions);
    var s := Execute(Init(maxRetries), actions).value;
    assert LoopOk(s.loops[i], s.shutdown, s.maxRetries);
  }

  /** A message is dropped only in a step that sees a signal: `close`, or a stop event that the
      step itself clears. */
  lemma LossNeedsSignal(s: State, i: nat, wake: Wake, k: nat)
    requires Safe(s) && i < |s.loops| && k < |s.loops[i].sessions| && s.loops[i].sessions[k].fate.Intact?
    ensures s.loops[i].consumer < |s.consumers|
    ensures s.loops[i].queue < |s.queues|
    ensures var r := StepLoop(s, i, wake);
            r.Some? ==>
              && i < |r.value.loops| && |s.loops[i].sessions| <= |r.value.loops[i].sessions|
              && match r.value.loops[i].sessions[k].fate
                 case Intact => true
                 case LostToShutdown => s.shutdown
                 case LostToStop => s.consumers[s.loops[i].consumer].stop && r.value.loops[i].pc.Subscribing?
                                    && !r.value.consumers[s.loops[i].consumer].stop
  {
    hide SessionsOk, MarksOk, Shaped, Conserved, QueueOk;
    SafeShaped(s);
    ShapedAt(s, i);
    assert LoopOk(s.loops[i], s.shutdown, s.maxRetries);
  }

  /** What a loop has queued, and what it will still queue whatever happens. */
  function Committed(l: Loop): nat {
    |Queued(l.sessions)| + if l.pc.Putting? then 1 else 0
  }

  /** Under a stop event no step commits the loop to another message. */
  lemma StopCommitsNothing(s: State, i: nat, wake: Wake)
    requires Safe(s) && i < |s.loops|
    requires s.loops[i].consumer < |s.consumers| && s.consumers[s.loops[i].consumer].stop
    ensures s.loops[i].queue < |s.queues|
    ensures var r := StepLoop(s, i, wake);
            r.Some? ==> i < |r.value.loops| && Committed(r.value.loops[i]) <= Committed(s.loops[i])
  {
    hide Queued, MarksOk, Shaped, Conserved, QueueOk, LossesOk;
    SafeShaped(s);
    ShapedAt(s, i);
    var l := s.loops[i];
    assert LoopOk(l, s.shutdown, s.maxRetries);
    QueuedOpens(l.sessions);
    QueuedKept(l, 0, LostToShutdown);
    if wake.Arrived? {
      var m := wake.message;
      QueuedKept(l, m, LostToStop);
      QueuedKept(NoteRead(l, m), m, LostToStop);
      QueuedKept(NoteRead(l, m), m, LostToShutdown);
    }
    if l.pc.Putting? {
      QueuedGrows(l, l.pc.message);
    }
  }

  /** The stop event of `c` is set in every state of the run but perhaps the last. */
  ghost predicate StoppedThroughout(s: State, actions: seq<Action>, c: nat)
    requires Shaped(s)
    decreases actions
  {
    actions == [] ||
    (&& c < |s.consumers| && s.consumers[c].stop
     && (Next(s, actions[0]).Some? ==>
           (NextShaped(s, actions[0]); StoppedThroughout(Next(s, actions[0]).value, actions[1..], c))))
  }

  lemma StopStep(s: State, a: Action, i: nat)
    requires Safe(s) && i < |s.loops| && s.loops[i].consumer < |s.consumers| && s.consumers[s.loops[i].consumer].stop
    requires Next(s, a).Some?
    ensures var s' := Next(s, a).value;
            && i < |s'.loops| && s'.loops[i].consumer == s.loops[i].consumer
            && Committed(s'.loops[i]) <= Committed(s.loops[i])
  {
    hide StepLoop, StepHealth, Committed, LoopOk, Conserved, QueueOk;
    match a
    case LoopStep(j, wake) =>
      LoopFramed(s, j, wake);
      if i == j {
        StopCommitsNothing(s, i, wake);
      }
    case HealthStep(h, answer) => HealthKeeps(s, h, answer);
    case CloseConsumer => CancelCommitsNothing(s.loops[i]);
    case _ =>
  }

  lemma CancelCommitsNothing(l: Loop)
    ensures Committed(l.(cancelled := true)) == Committed(l)
  {
  }

  lemma {:induction false} StopRun(s: State, actions: seq<Action>, i: nat)
    requires Safe(s) && i < |s.loops| && StoppedThroughout(s, actions, s.loops[i].consumer)
    ensures var r := Execute(s, actions);
            r.Some? ==> i < |r.value.loops| && Committed(r.value.loops[i]) <= Committed(s.loops[i])
    decreases actions
  {
    hide Next, Safe, Committed;
    SafeShaped(s);
    if actions != [] {
      NextSafe(s, actions[0]);
      if Next(s, actions[0]).Some? {
        StopStep(s, actions[0], i);
        StopRun(Next(s, actions[0]).value, actions[1..], i);
      }
    }
  }

  /** CLOSE takes effect within one message.  Once the stop event of its consumer is set, a receive
      loop puts at most one more message into the queue before the event is cleared, and only the
      one that was already past the check and waiting in `put`. */
  lemma AtMostOneMoreMessage(maxRetries: nat, before: seq<Action>, after: seq<Action>, i: nat)
    requires var s := Execute(Init(maxRetries), before);
             s.Some? && i < |s.value.loops| && StoppedThroughout(s.value, after, s.value.loops[i].consumer)
    ensures var s := Execute(Init(maxRetries), before).value;
            var r := Execute(s, after);
            r.Some? ==>
              && i < |r.value.loops|
              && |Queued(r.value.loops[i].sessions)|
                 <= |Queued(s.loops[i].sessions)| + if s.loops[i].pc.Putting? then 1 else 0
  {
    hide Safe, Queued;
    AlwaysSafe(maxRetries, before);
    StopRun(Execute(Init(maxRetries), before).value, after, i);
  }

  // ---- close ----

  /** This health task will never send another request. */
  predicate Silent(s: State, h: nat) {
    h < |s.health| && s.health[h].consumer < |s.consumers|
    && (s.health[h].pc.HealthEnded? || s.health[h].cancelled || s.consumers[s.health[h].consumer].stop)
  }

  /** What stays as it is from `s`, a state after `close`, to a later `t`. */
  ghost predicate Quiet(s: State, t: State) {
    && s.shutdown && t.shutdown
    && |s.consumers| <= |t.consumers| && |s.queues| <= |t.queues| && |s.health| <= |t.health| && |s.loops| <= |t.loops|
    && (forall c :: 0 <= c < |s.consumers| && s.consumers[c].stop ==> t.consumers[c].stop)
    && (forall q :: 0 <= q < |s.queues| ==> All(t.queues[q]) == All(s.queues[q]))
    && (forall q :: |s.queues| <= q < |t.queues| ==> All(t.queues[q]) == [])
    && (forall h :: 0 <= h < |s.health| && Silent(s, h) ==> Silent(t, h) && t.health[h].rpcs == s.health[h].rpcs)
    && (forall h :: |s.health| <= h < |t.health| ==> t.health[h].consumer >= |s.consumers|)
    && (forall i :: 0 <= i < |s.loops| ==>
          Queued(t.loops[i].sessions) == Queued(s.loops[i].sessions) && Reads(t.loops[i]) == Reads(s.loops[i]))
  }

  function Reads(l: Loop): seq<seq<Msg>> {
    seq(|l.sessions|, k requires 0 <= k < |l.sessions| => l.sessions[k].read)
  }

  /** After `close` the next step of a receive loop is its last, and it neither reads nor queues. */
  lemma OneStepToTheEnd(s: State, i: nat, wake: Wake)
    requires Safe(s) && s.shutdown && i < |s.loops|
    ensures s.loops[i].consumer < |s.consumers| && s.loops[i].queue < |s.queues|
    ensures var r := StepLoop(s, i, wake);
            r.Some? ==>
              && |r.value.loops| == |s.loops| && r.value.loops[i].pc.LoopEnded?
              && r.value == s.(loops := s.loops[i := r.value.loops[i]])
              && Queued(r.value.loops[i].sessions) == Queued(s.loops[i].sessions)
              && Reads(r.value.loops[i]) == Reads(s.loops[i])
  {
    hide Queued, MarksOk, Shaped, Conserved, QueueOk, LossesOk, SessionsOk;
    SafeShaped(s);
    ShapedAt(s, i);
    var l := s.loops[i];
    assert LoopOk(l, s.shutdown, s.maxRetries);
    QueuedKept(l, 0, LostToShutdown);
    assert Reads(SetFate(l, LostToShutdown)) == Reads(l);
  }

  lemma HealthQuiet(s: State, h: nat, answer: CheckResult, g: nat)
    requires Shaped(s) && h < |s.health| && StepHealth(s, h, answer).Some? && Silent(s, g)
    ensures var t := StepHealth(s, h, answer).value; Silent(t, g) && t.health[g].rpcs == s.health[g].rpcs
  {
  }

  lemma CloseQuiet(s: State, g: nat)
    requires Shaped(s) && Silent(s, g)
    ensures Silent(OnClose(s), g) && OnClose(s).health[g].rpcs == s.health[g].rpcs
  {
  }

  /** One step after `close`, seen from any state since. */
  lemma NextQuiet(s: State, t: State, a: Action)
    requires Quiet(s, t) && Safe(t) && Next(t, a).Some?
    ensures Quiet(s, Next(t, a).value)
  {
    hide StepLoop, StepHealth, LoopOk, Conserved, QueueOk, Queued, Reads, OnClose, Silent;
    var u := Next(t, a).value;
    match a
    case LoopStep(i, wake) =>
      OneStepToTheEnd(t, i, wake);
      SilentAgain(t, u);
    case HealthStep(h, answer) =>
      HealthKeeps(t, h, answer);
      HealthStepShape(t, h, answer);
      forall g | 0 <= g < |s.health| && Silent(s, g)
        ensures Silent(u, g) && u.health[g].rpcs == s.health[g].rpcs
      {
        HealthQuiet(t, h, answer, g);
      }
    case CloseConsumer =>
      CloseShape(t);
      forall g | 0 <= g < |s.health| && Silent(s, g)
        ensures Silent(u, g) && u.health[g].rpcs == s.health[g].rpcs
      {
        CloseQuiet(t, g);
      }
      forall i | 0 <= i < |s.loops|
        ensures Queued(u.loops[i].sessions) == Queued(s.loops[i].sessions) && Reads(u.loops[i]) == Reads(s.loops[i])
      {
        SameReads(t.loops[i], u.loops[i]);
      }
    case Get(q) =>
      assert All(u.queues[q]) == All(t.queues[q]);
      SilentAgain(t, u);
    case ConsumerUp => SilentAgain(t, u);
    case Adopt(_) => SilentAgain(t, u);
    case Receive(_) => SilentAgain(t, u);
  }

  lemma SameReads(l: Loop, l': Loop)
    requires l'.sessions == l.sessions
    ensures Reads(l') == Reads(l)
  {
  }

  /** Silence depends on the task and its consumer's stop event alone. */
  lemma SilentAgain(t: State, u: State)
    requires |t.health| <= |u.health| && |t.consumers| <= |u.consumers|
    requires forall h :: 0 <= h < |t.health| ==> u.health[h] == t.health[h]
    requires forall c :: 0 <= c < |t.consumers| ==> u.consumers[c].stop == t.consumers[c].stop
    ensures forall h :: 0 <= h < |t.health| && Silent(t, h) ==> Silent(u, h)
  {
  }

  lemma HealthStepShape(t: State, h: nat, answer: CheckResult)
    requires Shaped(t) && h < |t.health| && StepHealth(t, h, answer).Some?
    ensures var u := StepHealth(t, h, answer).value;
            && |u.consumers| == |t.consumers| && |u.health| == |t.health|
            && (forall c :: 0 <= c < |t.consumers| && t.consumers[c].stop ==> u.consumers[c].stop)
            && (forall g :: 0 <= g < |t.health| ==> u.health[g].consumer == t.health[g].consumer)
  {
  }

  lemma CloseShape(t: State)
    requires Shaped(t)
    ensures var u := OnClose(t);
            && u.shutdown && u.queues == t.queues
            && |u.consumers| == |t.consumers| && |u.health| == |t.health| && |u.loops| == |t.loops|
            && (forall c :: 0 <= c < |t.consumers| && t.consumers[c].stop ==> u.consumers[c].stop)
            && (forall g :: 0 <= g < |t.health| ==> u.health[g].consumer == t.health[g].consumer)
            && (forall i :: 0 <= i < |t.loops| ==> u.loops[i].sessions == t.loops[i].sessions)
  {
  }

  lemma {:induction false} QuietRun(s: State, t: State, actions: seq<Action>)
    requires Quiet(s, t) && Safe(t)
    ensures Execute(t, actions).Some? ==> Quiet(s, Execute(t, actions).value)
    decreases actions
  {
    hide Next, Quiet, Safe;
    SafeShaped(t);
    if actions != [] {
      NextSafe(t, actions[0]);
      if Next(t, actions[0]).Some? {
        NextQuiet(s, t, actions[0]);
        QuietRun(s, Next(t, actions[0]).value, actions[1..]);
      }
    }
  }

  lemma QuietStart(s: State)
    requires s.shutdown
    ensures Quiet(s, s)
  {
  }

  /** Quiescence.  After `close`, whatever is called or happens later: shutdown and the stop events
      stay set; nothing more is read from a stream or put into a queue; and every health task of a
      consumer that `close` reached, forgotten ones included, has sent its last request. */
  lemma NothingAfterClose(maxRetries: nat, before: seq<Action>, after: seq<Action>)
    requires Execute(Init(maxRetries), before).Some?
    ensures var s := Execute(Init(maxRetries), before).value;
            var closed := OnClose(s);
            && Shaped(closed)
            && (forall c <- s.current :: c < |closed.consumers| && closed.consumers[c].stop)
            && (forall h :: 0 <= h < |s.health| && s.health[h].consumer in s.current ==> Silent(closed, h))
            && (Execute(closed, after).Some? ==> Quiet(closed, Execute(closed, after).value))
  {
    hide Safe, Quiet, Next;
    var s := Execute(Init(maxRetries), before).value;
    AlwaysSafe(maxRetries, before);
    SafeShaped(s);
    CloseSafe(s);
    SafeShaped(OnClose(s));
    QuietStart(OnClose(s));
    QuietRun(OnClose(s), OnClose(s), after);
  }

  /** Can this health task still send a request? */
  ghost predicate CanPoll(s: State, h: nat)
    requires Shaped(s) && h < |s.health|
  {
    exists actions: seq<Action> ::
      Execute(s, actions).Some? && h < |Execute(s, actions).value.health|
      && Execute(s, actions).value.health[h].rpcs > s.health[h].rpcs
  }

  lemma AlertPolls(s: State, h: nat)
    requires Shaped(s) && h < |s.health| && !Silent(s, h)
    ensures CanPoll(s, h)
  {
    var ask := HealthStep(h, Healthy);
    if s.health[h].pc.Resting? {
      ExecuteOne(s, ask);
      assert Execute(s, [ask]).value.health[h].rpcs > s.health[h].rpcs;
    } else {
      var s1 := Next(s, ask).value;
      assert [ask, ask][1..] == [ask];
      NextShaped(s, ask);
      ExecuteOne(s1, ask);
      assert Execute(s, [ask, ask]) == Execute(s1, [ask]);
      assert Execute(s, [ask, ask]).value.health[h].rpcs > s.health[h].rpcs;
    }
  }

  lemma ExecuteOne(s: State, a: Action)
    requires Shaped(s)
    ensures Execute(s, [a]) == Next(s, a)
  {
    NextShaped(s, a);
    assert [a][1..] == [];
  }

  /** Exactly which health tasks `close` silences.  Closing does not stop a task that is alive when
      its consumer is not among `_consumers`, has not been told to stop, and the task was not
      cancelled: a consumer left over from an earlier `subscribe`, or one whose siblings failed to
      subscribe. */
  lemma CloseSilencesExactly(maxRetries: nat, before: seq<Action>, h: nat)
    requires Execute(Init(maxRetries), before).Some? && h < |Execute(Init(maxRetries), before).value.health|
    ensures var s := Execute(Init(maxRetries), before).value;
            var x := s.health[h];
            && Shaped(OnClose(s)) && h < |OnClose(s).health| && x.consumer < |s.consumers|
            && (CanPoll(OnClose(s), h) <==>
                  x.consumer !in s.current && !x.pc.HealthEnded? && !x.cancelled && !s.consumers[x.consumer].stop)
  {
    hide Safe, Next, Quiet, Execute;
    var s := Execute(Init(maxRetries), before).value;
    AlwaysSafe(maxRetries, before);
    SafeShaped(s);
    CloseSafe(s);
    var closed := OnClose(s);
    SafeShaped(closed);
    SilentAfterClose(s, h);
    if Silent(closed, h) {
      forall actions: seq<Action> | Execute(closed, actions).Some?
        ensures h < |Execute(closed, actions).value.health| ==>
                  Execute(closed, actions).value.health[h].rpcs == closed.health[h].rpcs
      {
        QuietStart(closed);
        QuietRun(closed, closed, actions);
        QuietRpcs(closed, Execute(closed, actions).value, h);
      }
    } else {
      AlertPolls(closed, h);
    }
  }

  lemma QuietRpcs(s: State, t: State, h: nat)
    requires Quiet(s, t) && Silent(s, h)
    ensures h < |t.health| && t.health[h].rpcs == s.health[h].rpcs
  {
  }

  lemma SilentAfterClose(s: State, h: nat)
    requires Shaped(s) && h < |s.health|
    ensures var x := s.health[h];
            && h < |OnClose(s).health| && OnClose(s).health[h].consumer == x.consumer
            && (!Silent(OnClose(s), h) <==>
                  x.consumer !in s.current && !x.pc.HealthEnded? && !x.cancelled && !s.consumers[x.consumer].stop)
  {
  }

  /** Such a run: of two partitions one subscribes and the other fails, so `subscribe` raises and
      `_consumers` stays empty; after `close` the first one's health check goes on. */
  lemma OrphanPollsAfterClose(maxRetries: nat)
    ensures var r := Execute(Init(maxRetries), [ConsumerUp, CloseConsumer, HealthStep(0, Healthy)]);
            r.Some? && r.value.shutdown && |r.value.health| == 1 && r.value.health[0].rpcs == 1
  {
    var s0 := Init(maxRetries);
    var s1 := Next(s0, ConsumerUp).value;
    NextShaped(s0, ConsumerUp);
    var s2 := Next(s1, CloseConsumer).value;
    NextShaped(s1, CloseConsumer);
    var step := HealthStep(0, Healthy);
    assert [ConsumerUp, CloseConsumer, step][1..] == [CloseConsumer, step];
    assert [CloseConsumer, step][1..] == [step];
    ExecuteOne(s2, step);
    assert Execute(s1, [CloseConsumer, step]) == Execute(s2, [step]);
  }
}
