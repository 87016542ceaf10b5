/** What a single step of a consumer's tasks does, observed from outside: exactly when a receive loop
    ends, resubscribes, backs off, reads, queues or waits, and what the health checks and `close` do. */
module ConsumerSteps {
  import opened Wire
  import opened ConsumerSystem
  import opened ConsumerSafety
  import opened ConsumerSignals

  /** A receive loop that can be resumed, and its next state. */
  predicate Resumed(s: State, i: nat, wake: Wake, s': State) {
    && Shaped(s) && i < |s.loops| && i < |s'.loops| && Next(s, LoopStep(i, wake)) == Some(s')
  }

  predicate Signalled(s: State, i: nat)
    requires Shaped(s) && i < |s.loops|
  {
    s.shutdown || s.consumers[s.loops[i].consumer].stop
  }

  lemma Resume(s: State, i: nat, wake: Wake, s': State)
    requires Resumed(s, i, wake, s')
    ensures s.loops[i].consumer < |s.consumers| && s.loops[i].queue < |s.queues|
    ensures StepLoop(s, i, wake) == Some(s') && LoopFrame(s, i, s')
  {
    hide StepLoop, LoopFrame;
    ShapedAt(s, i);
    LoopFramed(s, i, wake);
  }

  /** A loop ends when it is cancelled, when a stream cannot be opened for an error that is not
      retryable, when a resubscription fails, or when it finds the consumer shut down, at its head or
      with a stream in its hands; and for no other reason. */
  lemma EndsExactly(s: State, i: nat, wake: Wake, s': State)
    requires Resumed(s, i, wake, s')
    ensures var l := s.loops[i];
            s'.loops[i].pc.LoopEnded? <==>
              || l.cancelled
              || (l.pc.Opening? && wake.Fatal?)
              || (l.pc.Subscribing? && wake.SubscribeFailed?)
              || (s.shutdown && (l.pc.Top? || l.pc.Reading?))
  {
    hide LoopFrame;
    Resume(s, i, wake, s');
  }

  /** A loop turns to resubscribing when the consumer is not connected, when opening a stream has failed
      m + 1 times in a row, or when it finds the stop event set; it does so for no other reason, and in
      the last case, and only then, it clears the event. */
  lemma ResubscribesExactly(s: State, i: nat, wake: Wake, s': State)
    requires Resumed(s, i, wake, s')
    ensures var l, c := s.loops[i], s.loops[i].consumer;
            && c < |s.consumers| && c < |s'.consumers|
            && var told := l.pc.Reading? && !s.shutdown && s.consumers[c].stop && !l.cancelled;
               && (s'.loops[i].pc.Subscribing? <==>
                     || told
                     || (!l.cancelled && l.pc.Opening? && wake.NotConnected?)
                     || (!l.cancelled && l.pc.Opening? && wake.Retryable? && l.attempts + 1 > s.maxRetries))
               && (s.consumers[c].stop && !s'.consumers[c].stop <==> told)
  {
    hide LoopFrame;
    Resume(s, i, wake, s');
    ShapedAt(s, i);
  }

  /** A loop backs off exactly after a retryable failure to open a stream, up to m times in a row. */
  lemma BacksOffExactly(s: State, i: nat, wake: Wake, s': State)
    requires Resumed(s, i, wake, s')
    ensures var l := s.loops[i];
            && (s'.loops[i].pc.BackingOff? <==>
                  !l.cancelled && l.pc.Opening? && wake.Retryable? && l.attempts + 1 <= s.maxRetries)
            && (!l.cancelled && l.pc.Opening? && wake.Retryable? ==> s'.loops[i].attempts == l.attempts + 1)
  {
    hide LoopFrame;
    Resume(s, i, wake, s');
  }

  /** A loop goes back to its head after a backoff, after a resubscription, and after a stream that ended
      or failed without a signal; from its head it opens a stream. */
  lemma ReturnsExactly(s: State, i: nat, wake: Wake, s': State)
    requires Resumed(s, i, wake, s')
    ensures var l := s.loops[i];
            && (s'.loops[i].pc.Top? <==>
                  && !l.cancelled
                  && (|| l.pc.BackingOff?
                      || (l.pc.Subscribing? && wake.SubscribeOk?)
                      || (l.pc.Reading? && wake.StreamOver? && !Signalled(s, i))))
            && (s'.loops[i].pc.Opening? <==> !l.cancelled && l.pc.Top? && !s.shutdown)
  {
    hide LoopFrame;
    Resume(s, i, wake, s');
    ShapedAt(s, i);
  }

  /** The message that arrives on a session's stream is read, as it is. */
  lemma ReadsExactly(s: State, i: nat, wake: Wake, s': State)
    requires Resumed(s, i, wake, s') && Safe(s)
    requires !s.loops[i].cancelled && s.loops[i].pc.Reading? && wake.Arrived?
    ensures var l, l' := s.loops[i], s'.loops[i];
            && |l.sessions| > 0 && |l'.sessions| == |l.sessions|
            && var k := |l.sessions| - 1;
               && l'.sessions[k].read == l.sessions[k].read + [wake.message]
               && forall j :: 0 <= j < k ==> l'.sessions[j] == l.sessions[j]
  {
    hide LoopFrame, Conserved, QueueOk, LossesOk, MarksOk, Queued;
    Resume(s, i, wake, s');
    assert LoopOk(s.loops[i], s.shutdown, s.maxRetries);
  }

  /** Nothing else is read; a session begins, with nothing read, when a stream is opened. */
  lemma ReadsNothingElse(s: State, i: nat, wake: Wake, s': State)
    requires Resumed(s, i, wake, s')
    requires !(!s.loops[i].cancelled && s.loops[i].pc.Reading? && wake.Arrived?)
    ensures var l := s.loops[i];
            Reads(s'.loops[i]) == Reads(l) + if !l.cancelled && l.pc.Opening? && wake.StreamOpened? then [[]] else []
  {
    hide LoopFrame;
    Resume(s, i, wake, s');
  }

  /** A read message goes into the queue at once if fewer than a hundred wait there; otherwise the loop
      waits with exactly that message, and puts it there when there is room.  Nothing else is queued. */
  lemma QueuesExactly(s: State, i: nat, wake: Wake, s': State)
    requires Resumed(s, i, wake, s')
    ensures var l, q := s.loops[i], s.loops[i].queue;
            && q < |s.queues| && q < |s'.queues| && s'.queues[q].taken == s.queues[q].taken
            && var waiting := s.queues[q].waiting;
               && (!l.cancelled && l.pc.Reading? && wake.Arrived? && !Signalled(s, i) ==>
                     if |waiting| < 100 then s'.queues[q].waiting == waiting + [Entry(i, wake.message)]
                     else s'.queues[q].waiting == waiting && s'.loops[i].pc == Putting(wake.message))
               && (!l.cancelled && l.pc.Putting? ==>
                     |waiting| < 100 && s'.queues[q].waiting == waiting + [Entry(i, l.pc.message)])
               && (l.cancelled || (!l.pc.Putting? && !(l.pc.Reading? && wake.Arrived? && !Signalled(s, i))) ==>
                     s'.queues[q].waiting == waiting && !s'.loops[i].pc.Putting?)
  {
    hide LoopFrame;
    Resume(s, i, wake, s');
    ShapedAt(s, i);
  }

  /** A resubscription that succeeds starts a health check for the consumer, the only one it knows of
      from then on; no other step of a loop starts any. */
  lemma WatchesExactly(s: State, i: nat, wake: Wake, s': State)
    requires Resumed(s, i, wake, s')
    ensures var l, c := s.loops[i], s.loops[i].consumer;
            && c < |s.consumers| && c < |s'.consumers|
            && if !l.cancelled && l.pc.Subscribing? && wake.SubscribeOk? then
                 s'.health == s.health + [Health(c, Resting, false, 0)] && s'.consumers[c].task == Some(|s.health|)
               else s'.health == s.health && s'.consumers[c].task == s.consumers[c].task
  {
    hide LoopFrame;
    Resume(s, i, wake, s');
    ShapedAt(s, i);
  }

  /** A health check asks exactly when it has rested, is not cancelled and its consumer has not been told
      to stop; it rests exactly after a healthy answer. */
  lemma AsksExactly(s: State, h: nat, answer: CheckResult, s': State)
    requires Shaped(s) && h < |s.health| && Next(s, HealthStep(h, answer)) == Some(s')
    ensures s.health[h].consumer < |s.consumers| && h < |s'.health|
    ensures var x, x' := s.health[h], s'.health[h];
            && (x'.pc.Asking? <==> x.pc.Resting? && !x.cancelled && !s.consumers[x.consumer].stop)
            && x'.rpcs == (if x'.pc.Asking? then x.rpcs + 1 else x.rpcs)
            && (x'.pc.Resting? <==> x.pc.Asking? && !x.cancelled && answer.Healthy?)
  {
  }

  // ----- a CLOSE answer -----

  /** A CLOSE answer to a health check that is not cancelled sets the stop event of its consumer, and
      ends the check. */
  lemma CloseAnswerStops(s: State, h: nat)
    requires Shaped(s) && h < |s.health| && s.health[h].pc.Asking? && !s.health[h].cancelled
    ensures var r, c := Next(s, HealthStep(h, Close)), s.health[h].consumer;
            && r.Some? && h < |r.value.health| && r.value.health[h].pc.HealthEnded?
            && c < |r.value.consumers| && r.value.consumers[c].stop
  {
  }

  /** No other answer does. */
  lemma OnlyCloseStops(s: State, h: nat, answer: CheckResult, c: nat)
    requires Shaped(s) && h < |s.health| && c < |s.consumers| && !s.consumers[c].stop
    requires Next(s, HealthStep(h, answer)).Some?
    ensures var s' := Next(s, HealthStep(h, answer)).value;
            && c < |s'.consumers|
            && (s'.consumers[c].stop ==>
                  s.health[h].consumer == c && answer.Close? && s.health[h].pc.Asking? && !s.health[h].cancelled)
  {
  }

  /** A receive loop of `c` has cleared the stop event between `s` and `t`: its landmarks say so. */
  ghost predicate ClearedSince(s: State, t: State, c: nat) {
    exists i :: 0 <= i < |t.loops| && ClearedBy(s, t, c, i)
  }

  ghost predicate ClearedBy(s: State, t: State, c: nat, i: nat)
    requires i < |t.loops|
  {
    && t.loops[i].consumer == c
    && exists k :: (if i < |s.loops| then |s.loops[i].marks| else 0) <= k < |t.loops[i].marks|
                   && t.loops[i].marks[k].Cleared?
  }

  /** Loops keep their consumers and landmarks. */
  predicate LoopsKept(s: State, t: State) {
    && |s.loops| <= |t.loops|
    && forall i :: 0 <= i < |s.loops| ==>
         t.loops[i].consumer == s.loops[i].consumer && s.loops[i].marks <= t.loops[i].marks
  }

  lemma NextKeepsLoops(s: State, a: Action)
    requires Shaped(s)
    ensures Next(s, a).Some? ==> LoopsKept(s, Next(s, a).value) && |s.consumers| <= |Next(s, a).value.consumers|
  {
    hide StepLoop;
    if a.LoopStep? && a.loop < |s.loops| {
      StepKeepsLoops(s, a.loop, a.wake);
    }
  }

  lemma StepKeepsLoops(s: State, i: nat, wake: Wake)
    requires Shaped(s) && i < |s.loops|
    ensures StepLoop(s, i, wake).Some? ==>
              LoopsKept(s, StepLoop(s, i, wake).value) && |s.consumers| <= |StepLoop(s, i, wake).value.consumers|
  {
    ShapedAt(s, i);
    LoopFramed(s, i, wake);
  }

  lemma ClearedLater(s: State, t: State, u: State, c: nat)
    requires LoopsKept(s, t) && LoopsKept(t, u)
    ensures LoopsKept(s, u)
    ensures ClearedSince(s, t, c) || ClearedSince(t, u, c) ==> ClearedSince(s, u, c)
  {
    if ClearedSince(s, t, c) {
      var i :| 0 <= i < |t.loops| && ClearedBy(s, t, c, i);
      assert ClearedBy(s, u, c, i);
    } else if ClearedSince(t, u, c) {
      var i :| 0 <= i < |u.loops| && ClearedBy(t, u, c, i);
      assert ClearedBy(s, u, c, i);
    }
  }

  lemma ClearedInStep(s: State, a: Action, c: nat)
    requires Shaped(s) && c < |s.consumers| && s.consumers[c].stop && Next(s, a).Some?
    ensures var t := Next(s, a).value; c < |t.consumers| && (t.consumers[c].stop || ClearedSince(s, t, c))
  {
    hide Next;
    OnlyItsLoopClears(s, a, c);
    NextKeepsLoops(s, a);
    var t := Next(s, a).value;
    if !t.consumers[c].stop {
      assert t.loops[a.loop].marks[|s.loops[a.loop].marks|].Cleared?;
      assert ClearedBy(s, t, c, a.loop);
    }
  }

  /** A CLOSE is never lost: once a stop event is set it stays set, whatever happens, until a receive loop
      of that consumer has cleared it and turned to resubscribing. */
  lemma {:induction false} StopStaysUntilCleared(s: State, actions: seq<Action>, c: nat)
    requires Shaped(s) && c < |s.consumers| && s.consumers[c].stop && Execute(s, actions).Some?
    ensures var t := Execute(s, actions).value;
            c < |t.consumers| && LoopsKept(s, t) && (t.consumers[c].stop || ClearedSince(s, t, c))
    decreases actions
  {
    hide Next, ClearedSince;
    if actions != [] {
      NextShaped(s, actions[0]);
      NextKeepsLoops(s, actions[0]);
      ClearedInStep(s, actions[0], c);
      var s1 := Next(s, actions[0]).value;
      var t := Execute(s, actions).value;
      if s1.consumers[c].stop {
        StopStaysUntilCleared(s1, actions[1..], c);
      } else {
        ExecuteKeepsLoops(s1, actions[1..]);
      }
      ClearedLater(s, s1, t, c);
    }
  }

  lemma {:induction false} ExecuteKeepsLoops(s: State, actions: seq<Action>)
    requires Shaped(s) && Execute(s, actions).Some?
    ensures LoopsKept(s, Execute(s, actions).value) && |s.consumers| <= |Execute(s, actions).value.consumers|
    decreases actions
  {
    hide Next;
    if actions != [] {
      NextShaped(s, actions[0]);
      NextKeepsLoops(s, actions[0]);
      var s1 := Next(s, actions[0]).value;
      ExecuteKeepsLoops(s1, actions[1..]);
      ClearedLater(s, s1, Execute(s, actions).value, 0);
    }
  }

  /** The two together, in every reachable state. */
  lemma CloseIsNeverLost(maxRetries: nat, before: seq<Action>, h: nat, after: seq<Action>)
    requires Execute(Init(maxRetries), before).Some?
    requires var s := Execute(Init(maxRetries), before).value;
             h < |s.health| && s.health[h].pc.Asking? && !s.health[h].cancelled
    ensures var s := Execute(Init(maxRetries), before).value;
            var told := Next(s, HealthStep(h, Close));
            && told.Some? && Shaped(told.value)
            && (Execute(told.value, after).Some? ==>
                  var t, c := Execute(told.value, after).value, s.health[h].consumer;
                  c < |t.consumers| && (t.consumers[c].stop || ClearedSince(told.value, t, c)))
  {
    hide Execute, Next, ClearedSince;
    var s := Execute(Init(maxRetries), before).value;
    CloseAnswerStops(s, h);
    NextShaped(s, HealthStep(h, Close));
    var told := Next(s, HealthStep(h, Close)).value;
    if Execute(told, after).Some? {
      StopStaysUntilCleared(told, after, s.health[h].consumer);
    }
  }

  // ----- the user's calls -----

  /** A subscription that succeeds brings up a consumer that has not been told to stop, with a health check
      that it knows of. */
  lemma ComesUpExactly(s: State, s': State)
    requires Shaped(s) && Next(s, ConsumerUp) == Some(s')
    ensures |s'.consumers| == |s.consumers| + 1 && s'.consumers[..|s.consumers|] == s.consumers
    ensures s'.consumers[|s.consumers|] == TopicConsumer(false, Some(|s.health|))
    ensures s'.health == s.health + [Health(|s.consumers|, Resting, false, 0)]
    ensures s' == s.(consumers := s'.consumers, health := s'.health)
  {
  }

  /** `close` tells exactly the current consumers to stop, cancels exactly the health checks that they
      know of, and every receive loop; it takes nothing out of a queue. */
  lemma ClosesExactly(s: State, s': State)
    requires Shaped(s) && Next(s, CloseConsumer) == Some(s')
    ensures s'.shutdown && s'.queues == s.queues && s'.current == s.current
    ensures |s'.consumers| == |s.consumers| && |s'.health| == |s.health| && |s'.loops| == |s.loops|
    ensures forall c :: 0 <= c < |s.consumers| ==>
              && s'.consumers[c].stop == (c in s.current || s.consumers[c].stop)
              && s'.consumers[c].task == if c in s.current then None else s.consumers[c].task
    ensures forall h :: 0 <= h < |s.health| ==>
              var x := s.health[h];
              && s'.health[h] == x.(cancelled := s'.health[h].cancelled)
              && (x.consumer < |s.consumers| ==>
                    (s'.health[h].cancelled <==>
                       x.cancelled || (x.consumer in s.current && s.consumers[x.consumer].task == Some(h))))
    ensures forall i :: 0 <= i < |s.loops| ==> s'.loops[i] == s.loops[i].(cancelled := true)
  {
  }

  /** `receive` makes one new queue and starts one loop, at its head, for each consumer that it is given,
      all of them on that queue; nothing else changes. */
  lemma ReceivesExactly(s: State, order: seq<nat>, s': State)
    requires Shaped(s) && Next(s, Receive(order)) == Some(s')
    ensures s' == s.(loops := s'.loops, queues := s'.queues)
    ensures |s'.queues| == |s.queues| + 1
    ensures s'.queues[..|s.queues|] == s.queues && s'.queues[|s.queues|] == Queue([], [])
    ensures |s'.loops| == |s.loops| + |order| && s'.loops[..|s.loops|] == s.loops
    ensures forall k :: 0 <= k < |order| ==>
              var l := s'.loops[|s.loops| + k];
              && l.consumer == order[k] && l.consumer in s.current && l.queue == |s.queues|
              && l.pc.Top? && l.attempts == 0 && !l.cancelled && l.sessions == []
  {
  }

  /** The user gets the message that has waited longest. */
  lemma GetsExactly(s: State, q: nat, s': State)
    requires Shaped(s) && Next(s, Get(q)) == Some(s')
    ensures q < |s.queues| && q < |s'.queues| && s' == s.(queues := s.queues[q := s'.queues[q]])
    ensures s.queues[q].waiting == [s'.queues[q].taken[|s.queues[q].taken|]] + s'.queues[q].waiting
    ensures |s'.queues[q].taken| == |s.queues[q].taken| + 1 && s.queues[q].taken <= s'.queues[q].taken
  {
  }
}
