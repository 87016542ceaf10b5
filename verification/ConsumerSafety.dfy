/** What holds in every reachable state of the consumer: the queue's bound, no message lost or
    duplicated between stream and queue except where a signal allows it, bounded retries, and the
    order of landmarks in every receive loop. */
module ConsumerSafety {
  import opened ConsumerSystem

  /** Everything in the session was queued, in order, except perhaps its last message. */
  predicate Closed(x: Session) {
    match x.fate
    case Intact => x.read == x.queued
    case _ => x.read != [] && x.queued == x.read[..|x.read| - 1]
  }

  /** The sessions of a loop in state `pc`; only a message waiting in `put` is still on its way. */
  predicate SessionsOk(l: Loop) {
    var n := |l.sessions|;
    && (forall k :: 0 <= k < n - 1 ==> Closed(l.sessions[k]))
    && (l.pc.Putting? ==> n > 0 && l.sessions[n - 1].fate.Intact?
                          && l.sessions[n - 1].read == l.sessions[n - 1].queued + [l.pc.message])
    && (l.pc.Reading? ==> n > 0 && l.sessions[n - 1].fate.Intact?)
    && (!l.pc.Putting? && n > 0 ==> Closed(l.sessions[n - 1]))
  }

  /** A message is dropped for `close` only after `close`. */
  predicate LossesOk(l: Loop, shutdown: bool) {
    forall k :: 0 <= k < |l.sessions| && l.sessions[k].fate.LostToShutdown? ==> shutdown
  }

  /** The counter stays in 0..max_retries wherever the loop goes on, and a backoff is only ever
      computed for an argument `attempts - 1` in 0..max_retries - 1. */
  predicate AttemptsOk(l: Loop, maxRetries: nat) {
    && l.attempts <= maxRetries + 1
    && (!l.pc.Subscribing? && !l.pc.LoopEnded? ==> l.attempts <= maxRetries)
    && (l.pc.BackingOff? ==> 1 <= l.attempts)
    && (l.pc.Reading? || l.pc.Putting? ==> l.attempts == 0)
  }

  /** Clearing the stop event is followed by a resubscription or by the end, and the end is final. */
  predicate MarksOk(marks: seq<Mark>) {
    && (forall k :: 0 <= k < |marks| - 1 && marks[k].Cleared? ==> marks[k + 1].Resubscribed? || marks[k + 1].Ended?)
    && (forall k :: 0 <= k < |marks| && marks[k].Ended? ==> k == |marks| - 1)
  }

  predicate LandmarksOk(l: Loop) {
    && MarksOk(l.marks)
    && (l.pc.LoopEnded? <==> l.marks != [] && l.marks[|l.marks| - 1].Ended?)
    && (l.marks != [] && l.marks[|l.marks| - 1].Cleared? ==> l.pc.Subscribing?)
    && (l.pc.Reading? || l.pc.Putting? ==> l.marks != [] && l.marks[|l.marks| - 1].Opened?)
  }

  /** After `close` every loop has been cancelled or is yet to make its first test. */
  predicate ShutdownOk(l: Loop, shutdown: bool) {
    && (l.cancelled ==> shutdown)
    && (shutdown ==> l.cancelled || l.pc.Top? || l.pc.LoopEnded?)
  }

  predicate LoopOk(l: Loop, shutdown: bool, maxRetries: nat) {
    SessionsOk(l) && LossesOk(l, shutdown) && AttemptsOk(l, maxRetries) && LandmarksOk(l) && ShutdownOk(l, shutdown)
  }

  /** All that a loop has put into its queue, session after session. */
  function Queued(sessions: seq<Session>): seq<Msg> {
    if sessions == [] then [] else Queued(sessions[..|sessions| - 1]) + sessions[|sessions| - 1].queued
  }

  /** The messages of loop `i` among `entries`, in order. */
  function Of(entries: seq<Entry>, i: nat): seq<Msg> {
    if entries == [] then []
    else
      var e := entries[|entries| - 1];
      Of(entries[..|entries| - 1], i) + if e.loop == i then [e.message] else []
  }

  function All(q: Queue): seq<Entry> {
    q.taken + q.waiting
  }

  /** Conservation: what the user got plus what waits, seen from loop `i`, is what it queued. */
  predicate Conserved(s: State, i: nat)
    requires i < |s.loops| && s.loops[i].queue < |s.queues|
  {
    Of(All(s.queues[s.loops[i].queue]), i) == Queued(s.loops[i].sessions)
  }

  /** Every entry was put there by a loop of this queue. */
  predicate Homed(s: State, q: nat)
    requires q < |s.queues|
  {
    forall k :: 0 <= k < |All(s.queues[q])| ==>
      All(s.queues[q])[k].loop < |s.loops| && s.loops[All(s.queues[q])[k].loop].queue == q
  }

  predicate QueueOk(s: State, q: nat)
    requires q < |s.queues|
  {
    |s.queues[q].waiting| <= RECEIVE_CHANNEL_BUFFER && Homed(s, q)
  }

  predicate Safe(s: State) {
    && Shaped(s)
    && (forall i :: 0 <= i < |s.loops| ==> LoopOk(s.loops[i], s.shutdown, s.maxRetries))
    && (forall i :: 0 <= i < |s.loops| ==> Conserved(s, i))
    && (forall q :: 0 <= q < |s.queues| ==> QueueOk(s, q))
  }

  // ---- one receive loop ----

  lemma NoteReadOk(l: Loop, m: Msg)
    requires SessionsOk(l) && l.pc.Reading?
    ensures var l' := NoteRead(l, m);
            && |l'.sessions| == |l.sessions| && l' == l.(sessions := l'.sessions)
            && (forall k :: 0 <= k < |l.sessions| - 1 ==> l'.sessions[k] == l.sessions[k])
            && var x, y := l.sessions[|l.sessions| - 1], l'.sessions[|l.sessions| - 1];
               y == x.(read := x.read + [m]) && x.read == x.queued
  {
  }

  lemma DropOk(l: Loop, m: Msg, fate: Fate, pc: LoopPc)
    requires SessionsOk(l) && l.pc.Reading? && !fate.Intact? && !pc.Putting? && !pc.Reading?
    ensures SessionsOk(SetFate(NoteRead(l, m), fate).(pc := pc))
  {
    NoteReadOk(l, m);
  }

  lemma KeepOk(l: Loop, m: Msg)
    requires SessionsOk(l) && l.pc.Reading?
    ensures SessionsOk(NoteRead(l, m).(pc := Putting(m)))
    ensures SessionsOk(NoteQueued(NoteRead(l, m), m).(pc := Reading))
  {
    NoteReadOk(l, m);
  }

  lemma AppendMark(marks: seq<Mark>, mark: Mark)
    requires MarksOk(marks) && (marks != [] ==> !marks[|marks| - 1].Ended?)
    requires marks != [] && marks[|marks| - 1].Cleared? ==> mark.Resubscribed? || mark.Ended?
    ensures MarksOk(marks + [mark])
  {
  }

  lemma EndOk(l: Loop, shutdown: bool, maxRetries: nat)
    requires SessionsOk(l.(pc := LoopEnded)) && LossesOk(l, shutdown) && LandmarksOk(l)
    requires l.attempts <= maxRetries + 1 && (l.cancelled ==> shutdown) && !l.pc.LoopEnded?
    ensures LoopOk(Ending(l), shutdown, maxRetries)
  {
    AppendMark(l.marks, Ended);
  }

  /** `l` comes back from its stream with all messages accounted for. */
  lemma AfterStreamOk(s: State, i: nat, l: Loop)
    requires i < |s.loops| && l.consumer < |s.consumers|
    requires SessionsOk(l.(pc := Top)) && LossesOk(l, s.shutdown) && LandmarksOk(l) && (l.pc.Reading? || l.pc.Putting?)
    requires l.attempts <= s.maxRetries && !l.cancelled
    ensures LoopOk(AfterStream(s, i, l).loops[i], s.shutdown, s.maxRetries)
  {
    if s.shutdown {
      EndOk(l, s.shutdown, s.maxRetries);
    } else {
      AppendMark(l.marks, Cleared);
    }
  }

  lemma OnMessageOk(s: State, i: nat, m: Msg)
    requires i < |s.loops| && s.loops[i].consumer < |s.consumers| && s.loops[i].queue < |s.queues|
    requires LoopOk(s.loops[i], s.shutdown, s.maxRetries) && s.loops[i].pc.Reading? && !s.loops[i].cancelled
    ensures LoopOk(OnMessage(s, i, s.loops[i], m).loops[i], s.shutdown, s.maxRetries)
  {
    hide AfterStream, SessionsOk, MarksOk;
    var l := s.loops[i];
    KeepOk(l, m);
    DropOk(l, m, LostToShutdown, LoopEnded);
    DropOk(l, m, LostToStop, Top);
    if s.shutdown {
      EndOk(SetFate(NoteRead(l, m), LostToShutdown), s.shutdown, s.maxRetries);
    } else if s.consumers[l.consumer].stop {
      AfterStreamOk(s, i, SetFate(NoteRead(l, m), LostToStop));
    }
  }

  lemma OnCancelOk(l: Loop, shutdown: bool, maxRetries: nat)
    requires LoopOk(l, shutdown, maxRetries) && l.cancelled && !l.pc.LoopEnded?
    ensures LoopOk(Ending(if l.pc.Putting? then SetFate(l, LostToShutdown) else l), shutdown, maxRetries)
  {
    EndOk(if l.pc.Putting? then SetFate(l, LostToShutdown) else l, shutdown, maxRetries);
  }

  lemma OpenedOk(l: Loop, maxRetries: nat)
    requires LoopOk(l, false, maxRetries) && l.pc.Opening?
    ensures LoopOk(l.(pc := Reading, attempts := 0, sessions := l.sessions + [Session([], [], Intact)],
                      marks := l.marks + [Opened]), false, maxRetries)
  {
    AppendMark(l.marks, Opened);
  }

  lemma PutOk(l: Loop, shutdown: bool, maxRetries: nat)
    requires LoopOk(l, shutdown, maxRetries) && l.pc.Putting?
    ensures LoopOk(NoteQueued(l, l.pc.message).(pc := Reading), shutdown, maxRetries)
  {
  }

  lemma StepReadingOk(s: State, i: nat, wake: Wake)
    requires i < |s.loops| && s.loops[i].consumer < |s.consumers| && s.loops[i].queue < |s.queues|
    requires LoopOk(s.loops[i], s.shutdown, s.maxRetries) && (s.loops[i].pc.Reading? || s.loops[i].pc.Putting?)
    requires !s.loops[i].cancelled
    ensures var r := StepLoop(s, i, wake);
            r.Some? ==> LoopOk(r.value.loops[i], s.shutdown, s.maxRetries)
  {
    hide SessionsOk, MarksOk, AfterStream, OnMessage, NoteQueued;
    var l := s.loops[i];
    match (l.pc, wake)
    case (Reading, Arrived(m)) => OnMessageOk(s, i, m);
    case (Reading, StreamOver) =>
      ReadingIsClosed(l);
      AfterStreamOk(s, i, l);
    case (Putting(m), Go) => PutOk(l, s.shutdown, s.maxRetries);
    case _ =>
  }

  lemma ReadingIsClosed(l: Loop)
    requires SessionsOk(l) && l.pc.Reading?
    ensures SessionsOk(l.(pc := Top))
  {
  }

  /** Away from the stream, sessions do not change. */
  lemma ElsewhereOk(l: Loop, pc: LoopPc)
    requires SessionsOk(l) && !l.pc.Putting? && !pc.Putting? && !pc.Reading?
    ensures SessionsOk(l.(pc := pc))
  {
  }

  /** Each step of a receive loop keeps what concerns that loop alone. */
  lemma StepLoopOk(s: State, i: nat, wake: Wake)
    requires i < |s.loops| && s.loops[i].consumer < |s.consumers| && s.loops[i].queue < |s.queues|
    requires LoopOk(s.loops[i], s.shutdown, s.maxRetries)
    ensures var r := StepLoop(s, i, wake);
            r.Some? ==> LoopOk(r.value.loops[i], s.shutdown, s.maxRetries)
  {
    var l := s.loops[i];
    if l.pc.LoopEnded? {
    } else if l.cancelled {
      OnCancelOk(l, s.shutdown, s.maxRetries);
    } else if l.pc.Reading? || l.pc.Putting? {
      StepReadingOk(s, i, wake);
    } else {
      StepElsewhereOk(s, i, wake);
    }
  }

  lemma StepElsewhereOk(s: State, i: nat, wake: Wake)
    requires i < |s.loops| && s.loops[i].consumer < |s.consumers| && s.loops[i].queue < |s.queues|
    requires LoopOk(s.loops[i], s.shutdown, s.maxRetries)
    requires !s.loops[i].pc.LoopEnded? && !s.loops[i].pc.Reading? && !s.loops[i].pc.Putting? && !s.loops[i].cancelled
    ensures var r := StepLoop(s, i, wake);
            r.Some? ==> LoopOk(r.value.loops[i], s.shutdown, s.maxRetries)
  {
    hide SessionsOk, MarksOk, AfterStream, OnMessage, Enqueue;
    var l := s.loops[i];
    forall pc: LoopPc | !pc.Putting? && !pc.Reading?
      ensures SessionsOk(l.(pc := pc))
    {
      ElsewhereOk(l, pc);
    }
    SessionsOnly(l);
    match (l.pc, wake)
    case (Top, Go) => EndOk(l, s.shutdown, s.maxRetries);
    case (Opening, StreamOpened) => OpenedOk(l, s.maxRetries);
    case (Opening, Fatal) => EndOk(l, s.shutdown, s.maxRetries);
    case (Subscribing, SubscribeOk) => AppendMark(l.marks, Resubscribed);
    case (Subscribing, SubscribeFailed) => EndOk(l, s.shutdown, s.maxRetries);
    case _ =>
  }

  /** `SessionsOk` looks at nothing but the sessions and the place in the program. */
  lemma SessionsOnly(l: Loop)
    ensures forall pc: LoopPc, attempts: nat, marks: seq<Mark>
              {:trigger SessionsOk(l.(pc := pc, attempts := attempts, marks := marks))} ::
              SessionsOk(l.(pc := pc)) ==> SessionsOk(l.(pc := pc, attempts := attempts, marks := marks))
    ensures forall pc: LoopPc, attempts: nat {:trigger SessionsOk(l.(pc := pc, attempts := attempts))} ::
              SessionsOk(l.(pc := pc)) ==> SessionsOk(l.(pc := pc, attempts := attempts))
  {
  }

  // ---- the queues ----

  lemma OfAppend(entries: seq<Entry>, e: Entry, i: nat)
    ensures Of(entries + [e], i) == Of(entries, i) + if e.loop == i then [e.message] else []
  {
    assert (entries + [e])[..|entries|] == entries;
  }

  /** A message joins the queue and the account of its loop at the same time. */
  lemma EnqueueConserves(s: State, i: nat, l: Loop, m: Msg, j: nat)
    requires Shaped(s) && i < |s.loops| && j < |s.loops|
    requires l.queue == s.loops[i].queue && l.consumer == s.loops[i].consumer
    requires l.sessions != [] && Queued(l.sessions) == Queued(s.loops[i].sessions)
    requires Conserved(s, j)
    ensures var s' := Enqueue(s, i, l, m);
            s'.loops[j].queue < |s'.queues| && Conserved(s', j)
  {
    var s' := Enqueue(s, i, l, m);
    var q := s.queues[l.queue];
    if s.loops[j].queue == l.queue {
      assert All(s'.queues[l.queue]) == All(q) + [Entry(i, m)];
      OfAppend(All(q), Entry(i, m), j);
    }
    QueuedGrows(l, m);
  }

  lemma QueuedGrows(l: Loop, m: Msg)
    requires l.sessions != []
    ensures Queued(NoteQueued(l, m).sessions) == Queued(l.sessions) + [m]
  {
    var k := |l.sessions| - 1;
    var ss := NoteQueued(l, m).sessions;
    assert ss[..k] == l.sessions[..k];
  }

  lemma QueuedKept(l: Loop, m: Msg, fate: Fate)
    ensures Queued(NoteRead(l, m).sessions) == Queued(l.sessions)
    ensures Queued(SetFate(l, fate).sessions) == Queued(l.sessions)
  {
    if l.sessions != [] {
      var k := |l.sessions| - 1;
      assert NoteRead(l, m).sessions[..k] == l.sessions[..k];
      assert SetFate(l, fate).sessions[..k] == l.sessions[..k];
    }
  }

  lemma QueuedOpens(sessions: seq<Session>)
    ensures Queued(sessions + [Session([], [], Intact)]) == Queued(sessions)
  {
    assert (sessions + [Session([], [], Intact)])[..|sessions|] == sessions;
  }

  lemma HomedGrows(s: State, i: nat, l: Loop, m: Msg, p: nat)
    requires Shaped(s) && i < |s.loops| && p < |s.queues| && QueueOk(s, p)
    requires l.queue == s.loops[i].queue && l.consumer == s.loops[i].consumer && HasRoom(s, l.queue)
    ensures QueueOk(Enqueue(s, i, l, m), p)
  {
    var s' := Enqueue(s, i, l, m);
    if p == l.queue {
      assert All(s'.queues[p]) == All(s.queues[p]) + [Entry(i, m)];
    }
  }

  /** Either the step puts one message into the loop's queue, or all queues and accounts stay. */
  ghost predicate PutsOrKeeps(s: State, i: nat, s': State)
    requires Shaped(s) && i < |s.loops|
  {
    || (exists l: Loop, m: Msg ::
          && l.queue == s.loops[i].queue && l.consumer == s.loops[i].consumer
          && l.sessions != [] && Queued(l.sessions) == Queued(s.loops[i].sessions)
          && HasRoom(s, l.queue) && s' == Enqueue(s, i, l, m))
    || (s'.queues == s.queues && |s'.loops| == |s.loops| && Queued(s'.loops[i].sessions) == Queued(s.loops[i].sessions))
  }

  lemma StepPutsOrKeeps(s: State, i: nat, wake: Wake)
    requires Shaped(s) && i < |s.loops| && LoopOk(s.loops[i], s.shutdown, s.maxRetries)
    ensures StepLoop(s, i, wake).Some? ==> PutsOrKeeps(s, i, StepLoop(s, i, wake).value)
  {
    hide Queued, Enqueue, Shaped, MarksOk, LossesOk;
    var l := s.loops[i];
    QueuedOpens(l.sessions);
    QueuedKept(l, 0, LostToShutdown);
    if wake.Arrived? {
      var m := wake.message;
      QueuedKept(l, m, LostToStop);
      QueuedKept(NoteRead(l, m), m, LostToStop);
      QueuedKept(NoteRead(l, m), m, LostToShutdown);
    }
  }

  lemma LoopStepConserves(s: State, i: nat, wake: Wake, j: nat)
    requires Safe(s) && i < |s.loops| && j < |s.loops|
    ensures var r := StepLoop(s, i, wake);
            r.Some? ==> j < |r.value.loops| && r.value.loops[j].queue < |r.value.queues| && Conserved(r.value, j)
  {
    hide StepLoop, Queued, Of, All, Enqueue, LoopOk, QueueOk;
    var r := StepLoop(s, i, wake);
    if r.Some? {
      var s' := r.value;
      LoopFramed(s, i, wake);
      StepPutsOrKeeps(s, i, wake);
      assert Conserved(s, i) && Conserved(s, j);
      if s'.queues != s.queues {
        var l: Loop, m: Msg :|
          && l.queue == s.loops[i].queue && l.consumer == s.loops[i].consumer
          && l.sessions != [] && Queued(l.sessions) == Queued(s.loops[i].sessions)
          && HasRoom(s, l.queue) && s' == Enqueue(s, i, l, m);
        EnqueueConserves(s, i, l, m, j);
      } else {
        KeepsConserved(s, i, s', j);
      }
    }
  }

  lemma KeepsConserved(s: State, i: nat, s': State, j: nat)
    requires Shaped(s) && i < |s.loops| && j < |s.loops| && LoopFrame(s, i, s') && PutsOrKeeps(s, i, s')
    requires s'.queues == s.queues && Conserved(s, j)
    ensures Conserved(s', j)
  {
    hide Queued, Of;
  }

  lemma LoopStepQueues(s: State, i: nat, wake: Wake, p: nat)
    requires Safe(s) && i < |s.loops| && p < |s.queues|
    ensures var r := StepLoop(s, i, wake);
            r.Some? ==> p < |r.value.queues| && QueueOk(r.value, p)
  {
    hide StepLoop, Queued, Of, Enqueue, LoopOk;
    var r := StepLoop(s, i, wake);
    if r.Some? {
      var s' := r.value;
      LoopFramed(s, i, wake);
      StepPutsOrKeeps(s, i, wake);
      assert QueueOk(s, p);
      if s'.queues != s.queues {
        var l: Loop, m: Msg :|
          && l.queue == s.loops[i].queue && l.consumer == s.loops[i].consumer
          && l.sessions != [] && Queued(l.sessions) == Queued(s.loops[i].sessions)
          && HasRoom(s, l.queue) && s' == Enqueue(s, i, l, m);
        HomedGrows(s, i, l, m, p);
      }
    }
  }

  lemma LoopStepSafe(s: State, i: nat, wake: Wake)
    requires Safe(s) && i < |s.loops|
    ensures StepLoop(s, i, wake).Some? ==> Safe(StepLoop(s, i, wake).value)
  {
    hide StepLoop, Conserved, QueueOk, LoopOk, Shaped;
    ShapedAt(s, i);
    var r := StepLoop(s, i, wake);
    if r.Some? {
      var s' := r.value;
      LoopFramed(s, i, wake);
      LoopFrameShaped(s, i, s');
      assert LoopOk(s.loops[i], s.shutdown, s.maxRetries);
      StepLoopOk(s, i, wake);
      forall j | 0 <= j < |s'.loops|
        ensures LoopOk(s'.loops[j], s'.shutdown, s'.maxRetries)
      {
        assert j != i ==> s'.loops[j] == s.loops[j];
        assert LoopOk(s.loops[j], s.shutdown, s.maxRetries);
      }
      forall j | 0 <= j < |s'.loops|
        ensures Conserved(s', j)
      {
        LoopStepConserves(s, i, wake, j);
      }
      forall p | 0 <= p < |s'.queues|
        ensures QueueOk(s', p)
      {
        LoopStepQueues(s, i, wake, p);
      }
    }
  }

  lemma ShapedAt(s: State, i: nat)
    requires Shaped(s) && i < |s.loops|
    ensures s.loops[i].consumer < |s.consumers| && s.loops[i].queue < |s.queues|
  {
  }

  // ---- the other steps ----

  /** Loops and queues are untouched. */
  lemma BystandersSafe(s: State, s': State)
    requires Safe(s) && Shaped(s')
    requires s'.loops == s.loops && s'.queues == s.queues && s'.shutdown == s.shutdown && s'.maxRetries == s.maxRetries
    ensures Safe(s')
  {
    hide LoopOk, Of, Queued, All;
    forall i | 0 <= i < |s'.loops|
      ensures LoopOk(s'.loops[i], s'.shutdown, s'.maxRetries) && Conserved(s', i)
    {
      assert Conserved(s, i);
    }
    forall q | 0 <= q < |s'.queues|
      ensures QueueOk(s', q)
    {
      assert QueueOk(s, q);
    }
  }

  lemma GetSafe(s: State, q: nat)
    requires Safe(s) && q < |s.queues| && s.queues[q].waiting != []
    ensures Safe(Next(s, Get(q)).value)
  {
    hide LoopOk, Of, Queued;
    var s' := Next(s, Get(q)).value;
    assert All(s'.queues[q]) == All(s.queues[q]);
    forall i | 0 <= i < |s'.loops|
      ensures LoopOk(s'.loops[i], s'.shutdown, s'.maxRetries) && Conserved(s', i)
    {
      assert Conserved(s, i);
    }
    forall p | 0 <= p < |s'.queues|
      ensures QueueOk(s', p)
    {
      assert QueueOk(s, p);
      assert All(s'.queues[p]) == All(s.queues[p]);
    }
  }

  lemma NewLoopOk(l: Loop, shutdown: bool, maxRetries: nat)
    requires l.pc.Top? && l.attempts == 0 && !l.cancelled && l.sessions == [] && l.marks == []
    ensures LoopOk(l, shutdown, maxRetries)
  {
  }

  lemma ReceiveSafe(s: State, order: seq<nat>)
    requires Safe(s) && Next(s, Receive(order)).Some?
    ensures Safe(Next(s, Receive(order)).value)
  {
    hide LoopOk, Of, Queued;
    var s' := Next(s, Receive(order)).value;
    NextShaped(s, Receive(order));
    forall i | 0 <= i < |s'.loops|
      ensures LoopOk(s'.loops[i], s'.shutdown, s'.maxRetries) && Conserved(s', i)
    {
      if i < |s.loops| {
        assert LoopOk(s.loops[i], s.shutdown, s.maxRetries) && Conserved(s, i);
      } else {
        NewLoopOk(s'.loops[i], s'.shutdown, s'.maxRetries);
        NothingYet(s'.loops[i], s'.queues[s'.loops[i].queue], i);
      }
    }
    forall q | 0 <= q < |s'.queues|
      ensures QueueOk(s', q)
    {
      assert q < |s.queues| ==> QueueOk(s, q);
    }
  }

  lemma NothingYet(l: Loop, q: Queue, i: nat)
    requires l.sessions == [] && q == Queue([], [])
    ensures Of(All(q), i) == Queued(l.sessions) == []
  {
  }

  lemma CancelledOk(l: Loop, shutdown: bool, maxRetries: nat)
    requires LoopOk(l, shutdown, maxRetries)
    ensures LoopOk(l.(cancelled := true), true, maxRetries)
  {
  }

  lemma CloseSafe(s: State)
    requires Safe(s)
    ensures Safe(OnClose(s))
  {
    hide LoopOk, Of, Queued, All;
    var s' := OnClose(s);
    NextShaped(s, CloseConsumer);
    forall i | 0 <= i < |s'.loops|
      ensures LoopOk(s'.loops[i], s'.shutdown, s'.maxRetries) && Conserved(s', i)
    {
      assert Conserved(s, i);
      CancelledOk(s.loops[i], s.shutdown, s.maxRetries);
    }
    forall q | 0 <= q < |s'.queues|
      ensures QueueOk(s', q)
    {
      assert QueueOk(s, q);
    }
  }

  /** Every step of every task, of the user and of the broker keeps all of it. */
  lemma NextSafe(s: State, a: Action)
    requires Safe(s)
    ensures Next(s, a).Some? ==> Safe(Next(s, a).value)
  {
    hide StepLoop, StepHealth, Safe, OnClose, NewLoops, LoopOk, Conserved, QueueOk;
    assert Shaped(s) by { SafeShaped(s); }
    NextShaped(s, a);
    match a
    case LoopStep(i, wake) => if i < |s.loops| { LoopStepSafe(s, i, wake); }
    case HealthStep(h, answer) =>
      if h < |s.health| && StepHealth(s, h, answer).Some? {
        HealthKeeps(s, h, answer);
        BystandersSafe(s, StepHealth(s, h, answer).value);
      }
    case Get(q) => if q < |s.queues| && s.queues[q].waiting != [] { GetSafe(s, q); }
    case Receive(order) => if Next(s, a).Some? { ReceiveSafe(s, order); }
    case CloseConsumer => CloseSafe(s);
    case ConsumerUp => BystandersSafe(s, Next(s, a).value);
    case Adopt(_) => if Next(s, a).Some? { BystandersSafe(s, Next(s, a).value); }
  }

  lemma SafeShaped(s: State)
    requires Safe(s)
    ensures Shaped(s)
  {
  }

  lemma HealthKeeps(s: State, h: nat, answer: CheckResult)
    requires h < |s.health| && s.health[h].consumer < |s.consumers| && StepHealth(s, h, answer).Some?
    ensures var s' := StepHealth(s, h, answer).value;
            s'.loops == s.loops && s'.queues == s.queues && s'.shutdown == s.shutdown && s'.maxRetries == s.maxRetries
  {
  }

  lemma {:induction false} ExecuteSafe(s: State, actions: seq<Action>)
    requires Safe(s)
    ensures Execute(s, actions).Some? ==> Safe(Execute(s, actions).value)
    decreases actions
  {
    hide Next, LoopOk, Conserved, QueueOk;
    if actions != [] {
      NextSafe(s, actions[0]);
      if Next(s, actions[0]).Some? {
        ExecuteSafe(Next(s, actions[0]).value, actions[1..]);
      }
    }
  }

  /** Shared-queue safety.  In every state that any interleaving can reach: no queue holds more than
      100 messages; what the user took plus what waits is, loop by loop, exactly what its streams
      delivered, session after session, except that a session's last message may be waiting in
      `put` or have been dropped on a stop or close signal; retries stay in bounds; and a cleared
      stop event is followed by a resubscription or the loop's end. */
  lemma AlwaysSafe(maxRetries: nat, actions: seq<Action>)
    ensures Execute(Init(maxRetries), actions).Some? ==> Safe(Execute(Init(maxRetries), actions).value)
  {
    ExecuteSafe(Init(maxRetries), actions);
  }
}
