/** danube/consumer.py, danube/topic_consumer.py and danube/health_check.py as one step system.
    A step is what one task does between two awaits, so a run is an interleaving of receive loops,
    health-check loops, the user and the broker.  A receive loop pauses, and others may run, in
    more places here than in the program (at its loop head and while opening a stream): the runs
    of the program are among the runs of this system. */
module ConsumerSystem {
  import opened Wire

  const RECEIVE_CHANNEL_BUFFER := 100

  /** A delivered message; what is in it does not matter here. */
  type Msg = nat

  datatype HealthPc = Resting | Asking | HealthEnded

  /** One `_loop` of the health-check service.  `Resting` covers both a task that has not run yet
      and the sleep between two checks: either way the next step is the `while` test. */
  datatype Health = Health(consumer: nat, pc: HealthPc, cancelled: bool, rpcs: nat)

  /** `stop` is the stop event, `task` the health task the consumer still knows of. */
  datatype TopicConsumer = TopicConsumer(stop: bool, task: Option<nat>)

  datatype LoopPc =
    | Top                    // at `while not shutdown.is_set()`
    | Opening                // in `consumer.receive()`
    | Reading                // awaiting the stream's next message
    | Putting(message: Msg)  // awaiting room in the queue
    | BackingOff
    | Subscribing            // in `consumer.subscribe()`
    | LoopEnded

  /** Why the last message that a session read is missing from the queue. */
  datatype Fate = Intact | LostToStop | LostToShutdown

  /** One opened stream: what was read from it and what of that was put into the queue. */
  datatype Session = Session(read: seq<Msg>, queued: seq<Msg>, fate: Fate)

  /** Landmarks in a receive loop's life. */
  datatype Mark = Opened | Cleared | Resubscribed | Ended

  datatype Loop = Loop(
    consumer: nat,
    queue: nat,
    pc: LoopPc,
    attempts: nat,
    cancelled: bool,
    sessions: seq<Session>,
    marks: seq<Mark>)

  datatype Entry = Entry(loop: nat, message: Msg)

  /** `taken` is what the user has already got out of the queue. */
  datatype Queue = Queue(taken: seq<Entry>, waiting: seq<Entry>)

  /** `current` are the consumers in `Consumer._consumers`.  `maxRetries` is the effective one. */
  datatype State = State(
    maxRetries: nat,
    shutdown: bool,
    consumers: seq<TopicConsumer>,
    current: set<nat>,
    loops: seq<Loop>,
    queues: seq<Queue>,
    health: seq<Health>)

  /** What a receive loop finds when it is resumed. */
  datatype Wake =
    | Go
    | StreamOpened
    | NotConnected
    | Retryable
    | Fatal
    | Arrived(message: Msg)
    | StreamOver           // the stream ended or failed
    | SubscribeOk
    | SubscribeFailed

  datatype CheckResult = Healthy | Close | CheckFailed

  datatype Action =
    | ConsumerUp                              // one `tc.subscribe()` of `Consumer.subscribe` succeeded
    | Adopt(consumers: set<nat>)              // `self._consumers = {...}` at the end of it
    | Receive(order: seq<nat>)                // `Consumer.receive()`
    | LoopStep(loop: nat, wake: Wake)
    | HealthStep(health: nat, answer: CheckResult)
    | Get(queue: nat)
    | CloseConsumer

  function Init(maxRetries: nat): State {
    State(maxRetries, false, [], {}, [], [], [])
  }

  /** `start_health_check`: the new task is remembered, an earlier one is forgotten, not cancelled. */
  function StartHealth(s: State, c: nat): State
    requires c < |s.consumers|
  {
    s.(health := s.health + [Health(c, Resting, false, 0)],
       consumers := s.consumers[c := s.consumers[c].(task := Some(|s.health|))])
  }

  function WithLoop(s: State, i: nat, l: Loop): State
    requires i < |s.loops|
  {
    s.(loops := s.loops[i := l])
  }

  function Ending(l: Loop): Loop {
    l.(pc := LoopEnded, marks := l.marks + [Ended])
  }

  function SetFate(l: Loop, fate: Fate): Loop {
    if l.sessions == [] then l
    else
      var k := |l.sessions| - 1;
      l.(sessions := l.sessions[k := l.sessions[k].(fate := fate)])
  }

  function NoteRead(l: Loop, m: Msg): Loop {
    if l.sessions == [] then l
    else
      var k := |l.sessions| - 1;
      l.(sessions := l.sessions[k := l.sessions[k].(read := l.sessions[k].read + [m])])
  }

  function NoteQueued(l: Loop, m: Msg): Loop {
    if l.sessions == [] then l
    else
      var k := |l.sessions| - 1;
      l.(sessions := l.sessions[k := l.sessions[k].(queued := l.sessions[k].queued + [m])])
  }

  predicate HasRoom(s: State, q: nat)
    requires q < |s.queues|
  {
    |s.queues[q].waiting| < RECEIVE_CHANNEL_BUFFER
  }

  /** `queue.put` once there is room. */
  function Enqueue(s: State, i: nat, l: Loop, m: Msg): State
    requires i < |s.loops| && l.queue < |s.queues|
  {
    var q := s.queues[l.queue];
    WithLoop(s.(queues := s.queues[l.queue := q.(waiting := q.waiting + [Entry(i, m)])]),
             i, NoteQueued(l, m).(pc := Reading))
  }

  /** From the end of a stream to the next await. */
  function AfterStream(s: State, i: nat, l: Loop): State
    requires i < |s.loops| && l.consumer < |s.consumers|
  {
    if s.shutdown then WithLoop(s, i, Ending(l))
    else if s.consumers[l.consumer].stop then
      WithLoop(s.(consumers := s.consumers[l.consumer := s.consumers[l.consumer].(stop := false)]),
               i, l.(pc := Subscribing, marks := l.marks + [Cleared]))
    else WithLoop(s, i, l.(pc := Top))
  }

  /** The body of `async for` for a message `m` that has just arrived. */
  function OnMessage(s: State, i: nat, l: Loop, m: Msg): State
    requires i < |s.loops| && l.consumer < |s.consumers| && l.queue < |s.queues|
  {
    var l' := NoteRead(l, m);
    if s.shutdown then WithLoop(s, i, Ending(SetFate(l', LostToShutdown)))
    else if s.consumers[l.consumer].stop then AfterStream(s, i, SetFate(l', LostToStop))
    else if HasRoom(s, l.queue) then Enqueue(s, i, l', m)
    else WithLoop(s, i, l'.(pc := Putting(m)))
  }

  /** `asyncio.CancelledError` at the loop's await: no `except Exception` stops it. */
  function OnCancel(s: State, i: nat, l: Loop): State
    requires i < |s.loops|
  {
    WithLoop(s, i, Ending(if l.pc.Putting? then SetFate(l, LostToShutdown) else l))
  }

  function StepLoop(s: State, i: nat, wake: Wake): Option<State>
    requires i < |s.loops| && s.loops[i].consumer < |s.consumers| && s.loops[i].queue < |s.queues|
  {
    var l := s.loops[i];
    if l.pc.LoopEnded? then None
    else if l.cancelled then Some(OnCancel(s, i, l))
    else
      match (l.pc, wake)
      case (Top, Go) => Some(WithLoop(s, i, if s.shutdown then Ending(l) else l.(pc := Opening)))
      case (Opening, StreamOpened) =>
        Some(WithLoop(s, i, l.(pc := Reading, attempts := 0, sessions := l.sessions + [Session([], [], Intact)],
                               marks := l.marks + [Opened])))
      case (Opening, NotConnected) => Some(WithLoop(s, i, l.(pc := Subscribing)))
      case (Opening, Retryable) =>
        var l' := l.(attempts := l.attempts + 1);
        Some(WithLoop(s, i, l'.(pc := if l'.attempts > s.maxRetries then Subscribing else BackingOff)))
      case (Opening, Fatal) => Some(WithLoop(s, i, Ending(l)))
      case (BackingOff, Go) => Some(WithLoop(s, i, l.(pc := Top)))
      case (Reading, Arrived(m)) => Some(OnMessage(s, i, l, m))
      case (Reading, StreamOver) => Some(AfterStream(s, i, l))
      case (Putting(m), Go) => if HasRoom(s, l.queue) then Some(Enqueue(s, i, l, m)) else None
      case (Subscribing, SubscribeOk) =>
        Some(WithLoop(StartHealth(s, l.consumer), i, l.(pc := Top, attempts := 0, marks := l.marks + [Resubscribed])))
      case (Subscribing, SubscribeFailed) => Some(WithLoop(s, i, Ending(l)))
      case _ => None
  }

  function WithHealth(s: State, h: nat, x: Health): State
    requires h < |s.health|
  {
    s.(health := s.health[h := x])
  }

  function StepHealth(s: State, h: nat, answer: CheckResult): Option<State>
    requires h < |s.health| && s.health[h].consumer < |s.consumers|
  {
    var x := s.health[h];
    var c := s.consumers[x.consumer];
    match x.pc
    case HealthEnded => None
    case Resting =>
      Some(WithHealth(s, h, if x.cancelled || c.stop then x.(pc := HealthEnded)
                            else x.(pc := Asking, rpcs := x.rpcs + 1)))
    case Asking =>
      if x.cancelled then Some(WithHealth(s, h, x.(pc := HealthEnded)))
      else
        match answer
        case Healthy => Some(WithHealth(s, h, x.(pc := Resting)))
        case CheckFailed => Some(WithHealth(s, h, x.(pc := HealthEnded)))
        case Close =>
          Some(WithHealth(s.(consumers := s.consumers[x.consumer := c.(stop := true)]), h, x.(pc := HealthEnded)))
  }

  /** `Consumer.close` up to its final sleep: no await, so one step. */
  function OnClose(s: State): State {
    s.(shutdown := true,
       consumers := seq(|s.consumers|, c requires 0 <= c < |s.consumers| =>
                      if c in s.current then TopicConsumer(true, None) else s.consumers[c]),
       health := seq(|s.health|, h requires 0 <= h < |s.health| =>
                   if Dismissed(s, h) then s.health[h].(cancelled := true) else s.health[h]),
       loops := seq(|s.loops|, i requires 0 <= i < |s.loops| => s.loops[i].(cancelled := true)))
  }

  /** Is `h` the task that `TopicConsumer.stop` of some current consumer cancels? */
  predicate Dismissed(s: State, h: nat)
    requires h < |s.health|
  {
    var c := s.health[h].consumer;
    c in s.current && c < |s.consumers| && s.consumers[c].task == Some(h)
  }

  function NewLoops(order: seq<nat>, queue: nat): seq<Loop> {
    seq(|order|, i requires 0 <= i < |order| => Loop(order[i], queue, Top, 0, false, [], []))
  }

  /** All indices are in range. */
  predicate Shaped(s: State) {
    && (forall c <- s.current :: c < |s.consumers|)
    && (forall i :: 0 <= i < |s.loops| ==> s.loops[i].consumer < |s.consumers| && s.loops[i].queue < |s.queues|)
    && (forall h :: 0 <= h < |s.health| ==> s.health[h].consumer < |s.consumers|)
  }

  /** The step that `a` causes, if it can happen in `s`. */
  function Next(s: State, a: Action): Option<State>
    requires Shaped(s)
  {
    match a
    case ConsumerUp =>
      Some(StartHealth(s.(consumers := s.consumers + [TopicConsumer(false, None)]), |s.consumers|))
    case Adopt(cs) => if forall c <- cs :: c < |s.consumers| then Some(s.(current := cs)) else None
    case Receive(order) =>
      if forall k :: 0 <= k < |order| ==> order[k] in s.current then
        Some(s.(loops := s.loops + NewLoops(order, |s.queues|), queues := s.queues + [Queue([], [])]))
      else None
    case LoopStep(i, wake) => if i < |s.loops| then StepLoop(s, i, wake) else None
    case HealthStep(h, answer) => if h < |s.health| then StepHealth(s, h, answer) else None
    case Get(q) =>
      if q < |s.queues| && s.queues[q].waiting != [] then
        var x := s.queues[q];
        Some(s.(queues := s.queues[q := Queue(x.taken + [x.waiting[0]], x.waiting[1..])]))
      else None
    case CloseConsumer => Some(OnClose(s))
  }

  /** What a step of a receive loop may touch besides the loop itself: its consumer's stop event
      and task, its queue, and a health task at the end of the list. */
  predicate LoopFrame(s: State, i: nat, s': State)
    requires i < |s.loops| && s.loops[i].consumer < |s.consumers| && s.loops[i].queue < |s.queues|
  {
    var l := s.loops[i];
    && s'.maxRetries == s.maxRetries && s'.shutdown == s.shutdown && s'.current == s.current
    && |s'.loops| == |s.loops| && s'.loops == s.loops[i := s'.loops[i]]
    && s'.loops[i].consumer == l.consumer && s'.loops[i].queue == l.queue && s'.loops[i].cancelled == l.cancelled
    && |s'.consumers| == |s.consumers| && s'.consumers == s.consumers[l.consumer := s'.consumers[l.consumer]]
    && |s'.queues| == |s.queues| && s'.queues == s.queues[l.queue := s'.queues[l.queue]]
    && (s'.health == s.health || s'.health == s.health + [Health(l.consumer, Resting, false, 0)])
  }

  lemma AfterStreamFramed(s: State, i: nat, l: Loop)
    requires i < |s.loops| && s.loops[i].consumer < |s.consumers| && s.loops[i].queue < |s.queues|
    requires l.consumer == s.loops[i].consumer && l.queue == s.loops[i].queue && l.cancelled == s.loops[i].cancelled
    ensures LoopFrame(s, i, AfterStream(s, i, l))
  {
  }

  lemma OnMessageFramed(s: State, i: nat, m: Msg)
    requires i < |s.loops| && s.loops[i].consumer < |s.consumers| && s.loops[i].queue < |s.queues|
    ensures LoopFrame(s, i, OnMessage(s, i, s.loops[i], m))
  {
    hide AfterStream;
    AfterStreamFramed(s, i, SetFate(NoteRead(s.loops[i], m), LostToStop));
  }

  lemma LoopFramed(s: State, i: nat, wake: Wake)
    requires i < |s.loops| && s.loops[i].consumer < |s.consumers| && s.loops[i].queue < |s.queues|
    ensures StepLoop(s, i, wake).Some? ==> LoopFrame(s, i, StepLoop(s, i, wake).value)
  {
    hide AfterStream, OnMessage;
    AfterStreamFramed(s, i, s.loops[i]);
    if wake.Arrived? {
      OnMessageFramed(s, i, wake.message);
    }
  }

  lemma LoopFrameShaped(s: State, i: nat, s': State)
    requires Shaped(s) && i < |s.loops| && LoopFrame(s, i, s')
    ensures Shaped(s')
  {
  }

  lemma HealthShaped(s: State, h: nat, answer: CheckResult)
    requires Shaped(s) && h < |s.health|
    ensures StepHealth(s, h, answer).Some? ==> Shaped(StepHealth(s, h, answer).value)
  {
  }

  lemma NextShaped(s: State, a: Action)
    requires Shaped(s)
    ensures Next(s, a).Some? ==> Shaped(Next(s, a).value)
  {
    hide StepLoop, StepHealth, LoopFrame;
    match a
    case LoopStep(i, wake) =>
      if i < |s.loops| {
        LoopFramed(s, i, wake);
        if StepLoop(s, i, wake).Some? {
          LoopFrameShaped(s, i, StepLoop(s, i, wake).value);
        }
      }
    case HealthStep(h, answer) =>
      if h < |s.health| {
        HealthShaped(s, h, answer);
      }
    case _ =>
  }

  /** The state after `actions`, if each of them could happen in turn. */
  function Execute(s: State, actions: seq<Action>): (r: Option<State>)
    requires Shaped(s)
    ensures r.Some? ==> Shaped(r.value)
    decreases actions
  {
    if actions == [] then Some(s)
    else
      NextShaped(s, actions[0]);
      var s' := Next(s, actions[0]);
      if s'.None? then None else Execute(s'.value, actions[1..])
  }
}
