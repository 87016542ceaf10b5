/** `asyncio.gather` over the creates of a producer's endpoints.  A schedule names, step by step,
    whose pending await is answered next; every interleaving is a schedule. */
module Gather {
  import opened Wire
  import opened Connections
  import opened Network
  import opened Endpoint
  import opened EndpointHistory
  import opened Schemas
  import opened CreateTask

  /** `failure` is how the first task that failed ended: `gather` raises that, and the other tasks
      go on. */
  datatype Gathering = Gathering(tasks: seq<Task>, failure: Option<Outcome<()>>, w: World)

  predicate Sound(g: Gathering) {
    forall i :: 0 <= i < |g.tasks| ==> Fits(g.tasks[i])
  }

  predicate Returned(t: Task) {
    t.phase.Done? && t.phase.out.Ok?
  }

  predicate Broken(t: Task) {
    t.phase.Done? && !t.phase.out.Ok?
  }

  function FailureOf(out: Outcome<nat>): Outcome<()> {
    match out
    case Ok(_) => Ok(())
    case Raised(error) => Raised(error)
    case Cancelled => Cancelled
  }

  function Begin(eps: seq<Endpoint>, w: World): Gathering {
    Gathering(seq(|eps|, i requires 0 <= i < |eps| => Start(eps[i])), None, w)
  }

  /** Task `i` gets its answer; a finished one waits for nothing. */
  function Next(g: Gathering, i: nat): (g': Gathering)
    requires Sound(g) && i < |g.tasks|
    ensures Sound(g') && |g'.tasks| == |g.tasks|
  {
    if g.tasks[i].phase.Done? then g
    else
      AdvanceFits(g.tasks[i], g.w);
      var (t, w) := Advance(g.tasks[i], g.w);
      Gathering(g.tasks[i := t], if g.failure.None? && Broken(t) then Some(FailureOf(t.phase.out)) else g.failure, w)
  }

  predicate Schedules(schedule: seq<nat>, n: nat) {
    forall k :: 0 <= k < |schedule| ==> schedule[k] < n
  }

  function Interleave(g: Gathering, schedule: seq<nat>): (g': Gathering)
    requires Sound(g) && Schedules(schedule, |g.tasks|)
    ensures Sound(g') && |g'.tasks| == |g.tasks|
    decreases |schedule|
  {
    if schedule == [] then g else Interleave(Next(g, schedule[0]), schedule[1..])
  }

  /** The turn at position `k`, or the end of the schedule. */
  lemma InterleaveTurn(g: Gathering, schedule: seq<nat>, k: nat)
    requires Sound(g) && Schedules(schedule, |g.tasks|) && k <= |schedule|
    ensures Interleave(g, schedule[k..]) ==
            if k == |schedule| then g else Interleave(Next(g, schedule[k]), schedule[k + 1..])
  {
    hide Next;
    if k < |schedule| {
      assert schedule[k..][1..] == schedule[k + 1..];
    }
  }

  /** How `gather` has ended, if it has. */
  function Ending(g: Gathering): Option<Outcome<()>> {
    if g.failure.Some? then g.failure
    else if forall i :: 0 <= i < |g.tasks| ==> g.tasks[i].phase.Done? then Some(Ok(()))
    else None
  }

  // ----- every interleaving -----

  /** What is known of the create of `ep`, begun in `w0`, when it has become `t` in `w`. */
  ghost predicate Tells(ep: Endpoint, w0: World, t: Task, w: World) {
    && SameIdentity(ep, t.ep) && Fits(t) && Connected(t)
    && Account(Seen(w0, ep.topic), Seen(w, ep.topic), t)
    && (Mirrors(ep, w0) && Honours(w0, ep.topic) ==> Mirrors(t.ep, w) && Honours(w, ep.topic))
    && Labelled(t, w.trace) && (Stamped(ep, w0.trace) ==> Stamped(t.ep, w.trace))
  }

  lemma BeginTells(ep: Endpoint, w: World)
    requires ep.retry.Valid()
    ensures Tells(ep, w, Start(ep), w)
  {
    hide Replay, AllFaithful, StampDue;
  }

  /** Its own step. */
  lemma OwnStepTells(ep: Endpoint, w0: World, t: Task, w: World)
    requires Tells(ep, w0, t, w)
    ensures var (t', w') := Advance(t, w); Tells(ep, w0, t', w')
  {
    hide Advance, Account, Connected, Labelled, Fits, Replay, AllFaithful, OthersKept, Stamped;
    var (t', w') := Advance(t, w);
    AdvanceAdvances(t, w);
    AdvanceFits(t, w);
    AdvanceConnects(t, w);
    AdvanceAccount(Seen(w0, ep.topic), t, w);
    AdvanceLabels(t, w);
  }

  /** A step of another task. */
  lemma OtherStepTells(ep: Endpoint, w0: World, t: Task, w: World, other: Task)
    requires Tells(ep, w0, t, w) && Fits(other) && other.ep.topic != ep.topic
    ensures Tells(ep, w0, t, Advance(other, w).1)
  {
    hide Advance, Account, Connected, Labelled, Fits, Replay, AllFaithful, Stamped;
    var (_, w') := Advance(other, w);
    AdvanceAdvances(other, w);
    assert Seen(w', ep.topic) == Seen(w, ep.topic);
    LabelledElsewhere(t, w, w');
  }

  lemma LabelledElsewhere(t: Task, w: World, w': World)
    requires Labelled(t, w.trace) && w.trace <= w'.trace && w'.settings == w.settings
    requires Seen(w', t.ep.topic) == Seen(w, t.ep.topic)
    ensures Labelled(t, w'.trace) && (Stamped(t.ep, w.trace) ==> Stamped(t.ep, w'.trace))
  {
    hide Replay, LabelOf;
    assert w'.trace[..|w.trace|] == w.trace;
    Unpublished(w'.trace, |w.trace|, t.ep.topic, w.settings.uri);
    if t.ep.schemaRef.Some? {
      LabelQuiet(w.trace, w'.trace, t.ep.topic, t.ep.schemaRef.value);
    }
  }

  ghost predicate Distinct(eps: seq<Endpoint>) {
    && (forall i, j :: 0 <= i < j < |eps| ==> eps[i].topic != eps[j].topic)
    && (forall i :: 0 <= i < |eps| ==> eps[i].retry.Valid())
  }

  /** What holds of all the creates at every moment. */
  ghost predicate Orderly(eps: seq<Endpoint>, w0: World, g: Gathering) {
    && |g.tasks| == |eps|
    && (forall i :: 0 <= i < |eps| ==> Tells(eps[i], w0, g.tasks[i], g.w))
    && (g.failure.Some? <==> exists i :: 0 <= i < |eps| && Broken(g.tasks[i]))
    && (g.failure.Some? ==> !g.failure.value.Ok?)
    && w0.trace <= g.w.trace && g.w.settings == w0.settings && (WellFormed(w0.pool) ==> WellFormed(g.w.pool))
    && OnlyTouches(eps, w0, g.w)
  }

  /** Topics that belong to none of these endpoints see nothing of it. */
  ghost predicate OnlyTouches(eps: seq<Endpoint>, w: World, w': World) {
    forall t :: (forall i :: 0 <= i < |eps| ==> eps[i].topic != t) ==>
      Seen(w', t) == Seen(w, t) && (Honours(w, t) ==> Honours(w', t))
  }

  lemma BeginOrderly(eps: seq<Endpoint>, w: World)
    requires Distinct(eps)
    ensures Sound(Begin(eps, w)) && Orderly(eps, w, Begin(eps, w))
  {
    hide Tells, Replay, AllFaithful;
    forall i | 0 <= i < |eps|
      ensures Tells(eps[i], w, Start(eps[i]), w)
    {
      BeginTells(eps[i], w);
    }
  }

  lemma NextOrderly(eps: seq<Endpoint>, w0: World, g: Gathering, i: nat)
    requires Distinct(eps) && Sound(g) && Orderly(eps, w0, g) && i < |eps|
    ensures Orderly(eps, w0, Next(g, i))
  {
    hide Tells, Advance, Seen, Honours, OnlyTouches, Fits, WellFormed;
    if !g.tasks[i].phase.Done? {
      var t, w := g.tasks[i], g.w;
      var (t', w') := Advance(t, w);
      var g' := Next(g, i);
      SameTopic(eps[i], w0, t, w);
      OwnStepTells(eps[i], w0, t, w);
      forall j | 0 <= j < |eps|
        ensures Tells(eps[j], w0, g'.tasks[j], w')
      {
        if j != i {
          OtherStepTells(eps[j], w0, g.tasks[j], w, t);
        }
      }
      forall j | 0 <= j < |eps| && Broken(g.tasks[j])
        ensures Broken(g'.tasks[j])
      {
      }
      Touching(eps, w0, t, w, i);
      assert g'.tasks[i] == t' && g'.w == w';
    }
  }

  lemma SameTopic(ep: Endpoint, w0: World, t: Task, w: World)
    requires Tells(ep, w0, t, w)
    ensures t.ep.topic == ep.topic && Fits(t)
  {
  }

  lemma Touching(eps: seq<Endpoint>, w0: World, t: Task, w: World, i: nat)
    requires Fits(t) && i < |eps| && t.ep.topic == eps[i].topic
    requires OnlyTouches(eps, w0, w) && w0.trace <= w.trace
    ensures OnlyTouches(eps, w0, Advance(t, w).1)
    ensures w0.trace <= Advance(t, w).1.trace && Advance(t, w).1.settings == w.settings
    ensures WellFormed(w.pool) ==> WellFormed(Advance(t, w).1.pool)
  {
    hide Advance, Replay, AllFaithful, Mirrors, WellFormed;
    AdvanceAdvances(t, w);
  }

  lemma {:induction false} InterleaveOrderly(eps: seq<Endpoint>, w0: World, g: Gathering, schedule: seq<nat>)
    requires Distinct(eps) && Sound(g) && Orderly(eps, w0, g) && Schedules(schedule, |eps|)
    ensures Orderly(eps, w0, Interleave(g, schedule))
    decreases |schedule|
  {
    hide Orderly, Next;
    if schedule != [] {
      SameWidth(eps, w0, g);
      NextOrderly(eps, w0, g, schedule[0]);
      InterleaveOrderly(eps, w0, Next(g, schedule[0]), schedule[1..]);
    }
  }

  lemma SameWidth(eps: seq<Endpoint>, w0: World, g: Gathering)
    requires Orderly(eps, w0, g)
    ensures |g.tasks| == |eps|
  {
  }

  /** In every interleaving, at every moment, also after one of the creates has failed: each create
      has made exactly the requests of the point it has reached, in its own topic only; its fields
      are what its history says; its stamp satisfies its reference; and a failure is reported iff
      one of them has failed. */
  lemma AlwaysOrderly(eps: seq<Endpoint>, schedule: seq<nat>, w: World)
    requires Distinct(eps) && Schedules(schedule, |eps|)
    ensures Sound(Begin(eps, w)) && Orderly(eps, w, Interleave(Begin(eps, w), schedule))
  {
    hide Orderly, Distinct;
    BeginOrderly(eps, w);
    InterleaveOrderly(eps, w, Begin(eps, w), schedule);
  }

  // ----- which failure is raised -----

  lemma {:induction false} FailureStays(g: Gathering, schedule: seq<nat>)
    requires Sound(g) && Schedules(schedule, |g.tasks|) && g.failure.Some?
    ensures Interleave(g, schedule).failure == g.failure
    decreases |schedule|
  {
    hide Advance;
    if schedule != [] {
      FailureStays(Next(g, schedule[0]), schedule[1..]);
    }
  }

  /** The first create to fail decides: what it raised is what `gather` raises, whatever becomes of the
      others. */
  lemma FirstFailureIsRaised(g: Gathering, i: nat, schedule: seq<nat>)
    requires Sound(g) && Schedules(schedule, |g.tasks|) && g.failure.None? && i < |g.tasks| && !g.tasks[i].phase.Done?
    ensures var g' := Next(g, i);
            var phase, ending := g'.tasks[i].phase, Ending(Interleave(g', schedule));
            && (phase.Done? && phase.out.Raised? ==> ending == Some(Raised(phase.out.error)))
            && (phase.Done? && phase.out.Cancelled? ==> ending == Some(Cancelled))
            && (!phase.Done? || phase.out.Ok? ==> g'.failure.None?)
  {
    hide Advance, Interleave;
    if Next(g, i).failure.Some? {
      FailureStays(Next(g, i), schedule);
    }
  }

  // ----- every create ends -----

  lemma NextLeft(g: Gathering, i: nat, j: nat)
    requires Sound(g) && i < |g.tasks| && j < |g.tasks|
    ensures var left := Left(Next(g, i).tasks[j]);
            left <= Left(g.tasks[j]) && (i == j ==> left == 0 || left < Left(g.tasks[j]))
  {
    hide Advance, Fits;
    if !g.tasks[i].phase.Done? {
      AdvanceFits(g.tasks[i], g.w);
    }
  }

  lemma {:induction false} LeftFalls(g: Gathering, schedule: seq<nat>, j: nat)
    requires Sound(g) && Schedules(schedule, |g.tasks|) && j < |g.tasks|
    ensures var left := Left(Interleave(g, schedule).tasks[j]);
            left == 0 || left + multiset(schedule)[j] <= Left(g.tasks[j])
    decreases |schedule|
  {
    hide Next, Left, Fits;
    if schedule != [] {
      NextLeft(g, schedule[0], j);
      assert schedule == [schedule[0]] + schedule[1..];
      LeftFalls(Next(g, schedule[0]), schedule[1..], j);
    }
  }

  /** However the others are scheduled, a create that has been answered 5m + 6 times has ended. */
  lemma CreateEnds(eps: seq<Endpoint>, schedule: seq<nat>, w: World, j: nat)
    requires Distinct(eps) && Schedules(schedule, |eps|) && j < |eps|
    requires multiset(schedule)[j] >= 5 * eps[j].retry.maxRetries + 6
    ensures Sound(Begin(eps, w)) && Interleave(Begin(eps, w), schedule).tasks[j].phase.Done?
  {
    hide Interleave;
    BeginOrderly(eps, w);
    LeftFalls(Begin(eps, w), schedule, j);
  }

  // ----- one after another is one of the interleavings -----

  lemma {:induction false} InterleaveConcat(g: Gathering, a: seq<nat>, b: seq<nat>)
    requires Sound(g) && Schedules(a, |g.tasks|) && Schedules(b, |g.tasks|)
    ensures Schedules(a + b, |g.tasks|) && Interleave(g, a + b) == Interleave(Interleave(g, a), b)
    decreases |a|
  {
    hide Next;
    if a == [] {
      assert a + b == b;
    } else {
      assert (a + b)[1..] == a[1..] + b;
      InterleaveConcat(Next(g, a[0]), a[1..], b);
    }
  }

  /** Giving one task all the turns. */
  lemma {:induction false} DriveIsASchedule(g: Gathering, i: nat) returns (schedule: seq<nat>)
    requires Sound(g) && i < |g.tasks| && g.failure.None? && !g.tasks[i].phase.Done?
    ensures Schedules(schedule, |g.tasks|)
    ensures var (t, w, _) := Drive(g.tasks[i], g.w);
            Interleave(g, schedule) ==
            Gathering(g.tasks[i := t], if Broken(t) then Some(FailureOf(t.phase.out)) else None, w)
    decreases Left(g.tasks[i])
  {
    hide Advance, Left, Fits, Seen;
    AdvanceFits(g.tasks[i], g.w);
    var g' := Next(g, i);
    if g'.tasks[i].phase.Done? {
      schedule := [i];
      assert Interleave(g', []) == g';
    } else {
      var rest := DriveIsASchedule(g', i);
      schedule := [i] + rest;
      assert schedule[1..] == rest;
      assert g'.tasks[i := Drive(g'.tasks[i], g'.w).0] == g.tasks[i := Drive(g'.tasks[i], g'.w).0];
    }
  }
}
