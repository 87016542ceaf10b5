/** Every backoff, wherever it happens, is drawn from a range of `calculate_backoff` for a counter that
    the retry loops allow. */
module Backoffs {
  import opened Wire
  import opened Retry
  import opened Connections
  import opened Network
  import opened Endpoint
  import opened EndpointHistory
  import opened Sending
  import opened Delivery
  import opened CreateTask
  import opened Gather
  import opened ProducerModel
  import opened ProducerRuns
  import Failures

  /** A sleep's range is the jitter range of some counter below `max_retries`. */
  predicate InRange(q: Request, retry: RetryManager) {
    q.Sleep? ==> exists a: nat | a < retry.maxRetries :: q.low == retry.Low(a) && q.high == retry.High(a)
  }

  /** So it is from event `from` on. */
  predicate AllInRange(trace: seq<Event>, from: nat, retry: RetryManager) {
    forall i :: from <= i < |trace| ==> InRange(trace[i].request, retry)
  }

  lemma Joined(a: seq<Event>, b: seq<Event>, c: seq<Event>, retry: RetryManager)
    requires a <= b <= c && AllInRange(b, |a|, retry) && AllInRange(c, |b|, retry)
    ensures a <= c && AllInRange(c, |a|, retry)
  {
    hide InRange;
    assert forall i :: 0 <= i < |b| ==> c[i] == b[i];
  }

  lemma PauseInRange(ep: Endpoint, w: World, retry: RetryManager, attempt: nat)
    requires attempt < retry.maxRetries
    ensures var p := Pause(ep, w, retry, attempt);
            p.ep == ep && w.trace <= p.w.trace && AllInRange(p.w.trace, |w.trace|, retry)
  {
    hide Replay;
  }

  lemma LookupInRange(ep: Endpoint, w: World, retry: RetryManager)
    ensures var l := LookupNewBroker(ep, w);
            l.ep.retry == ep.retry && w.trace <= l.w.trace && AllInRange(l.w.trace, |w.trace|, retry)
  {
    hide Replay, Connect;
  }

  lemma {:induction false} CreateLoopInRange(ep: Endpoint, w: World, attempts: nat)
    requires ep.retry.Valid() && attempts <= ep.retry.maxRetries
    ensures var w' := CreateLoop(ep, w, attempts).w; w.trace <= w'.trace && AllInRange(w'.trace, |w.trace|, ep.retry)
    decreases ep.retry.maxRetries - attempts
  {
    hide TryCreate, LookupNewBroker, Pause, AllInRange, Failures.RetryableEnd;
    var t := TryCreate(ep, w);
    Failures.TryCreateTail(ep, w);
    NoSleeps(w.trace, t.w.trace, ep.retry);
    if !Final(ep, t.out, attempts) {
      var l := LookupNewBroker(t.ep, t.w);
      LookupInRange(t.ep, t.w, ep.retry);
      Joined(w.trace, t.w.trace, l.w.trace, ep.retry);
      if !l.out.Cancelled? {
        var p := Pause(l.ep, l.w, ep.retry, attempts);
        PauseInRange(l.ep, l.w, ep.retry, attempts);
        Joined(w.trace, l.w.trace, p.w.trace, ep.retry);
        if !p.out.Cancelled? {
          CreateLoopInRange(p.ep, p.w, attempts + 1);
          Joined(w.trace, p.w.trace, CreateLoop(p.ep, p.w, attempts + 1).w.trace, ep.retry);
        }
      }
    }
  }

  lemma NoSleeps(trace: seq<Event>, longer: seq<Event>, retry: RetryManager)
    requires trace <= longer && forall i :: |trace| <= i < |longer| ==> !longer[i].request.Sleep?
    ensures AllInRange(longer, |trace|, retry)
  {
  }

  lemma CreateInRange(ep: Endpoint, w: World)
    requires ep.retry.Valid()
    ensures var w' := Create(ep, w).w; w.trace <= w'.trace && AllInRange(w'.trace, |w.trace|, ep.retry)
  {
    hide LookupNewBroker, CreateLoop, AllInRange;
    var l := LookupNewBroker(ep, w);
    LookupInRange(ep, w, ep.retry);
    if !l.out.Cancelled? {
      CreateLoopInRange(l.ep, l.w, 0);
      Joined(w.trace, l.w.trace, CreateLoop(l.ep, l.w, 0).w.trace, ep.retry);
    }
  }

  lemma RecreateInRange(ep: Endpoint, w: World, error: Error)
    requires ep.retry.Valid()
    ensures var w' := Recreate(ep, w, error).w; w.trace <= w'.trace && AllInRange(w'.trace, |w.trace|, ep.retry)
  {
    hide Create, HandleLookup, LookupAndRecreate, LookupNewBroker, AllInRange;
    if error.Unrecoverable? {
      CreateInRange(ep, w);
    } else {
      RecreateIsLookupThenCreate(ep, w, error);
      LookupInRange(ep, w, ep.retry);
      var l := LookupNewBroker(ep, w);
      if HandleLookup(ep, w).0.Ok? {
        CreateInRange(l.ep, l.w);
        Joined(w.trace, l.w.trace, Create(l.ep, l.w).w.trace, ep.retry);
      }
    }
  }

  lemma SendOnceInRange(ep: Endpoint, w: World, body: Body, retry: RetryManager)
    ensures var w' := SendOnce(ep, w, body).w; w.trace <= w'.trace && AllInRange(w'.trace, |w.trace|, retry)
  {
    hide Replay;
  }

  /** Every sleep of a call: the send loop's own and those of its recreations. */
  lemma {:induction false} SendInRange(ep: Endpoint, w: World, body: Body, retry: RetryManager, attempts: nat)
    requires ep.retry == retry && retry.Valid() && attempts <= retry.maxRetries
    ensures var w' := SendLoop(ep, w, body, retry, attempts).w;
            w.trace <= w'.trace && AllInRange(w'.trace, |w.trace|, retry)
    decreases |w.script|
  {
    hide Recreate, Pause, SendOnce, AllInRange;
    var s := SendOnce(ep, w, body);
    SendOnceInRange(ep, w, body, retry);
    SendOnceShrinks(ep, w, body);
    if s.out.Raised? {
      if NeedsRecreation(s.out.error, retry, attempts) {
        var c := Recreate(s.ep, s.w, s.out.error);
        RecreateInRange(s.ep, s.w, s.out.error);
        Joined(w.trace, s.w.trace, c.w.trace, retry);
        if c.out.Ok? {
          SendInRange(c.ep, c.w, body, retry, 0);
          Joined(w.trace, c.w.trace, SendLoop(c.ep, c.w, body, retry, 0).w.trace, retry);
        }
      } else if retry.IsRetryable(s.out.error) {
        var p := Pause(s.ep, s.w, retry, attempts);
        PauseInRange(s.ep, s.w, retry, attempts);
        PauseShrinks(s.ep, s.w, retry, attempts);
        Joined(w.trace, s.w.trace, p.w.trace, retry);
        if !p.out.Cancelled? {
          SendInRange(p.ep, p.w, body, retry, attempts + 1);
          Joined(w.trace, p.w.trace, SendLoop(p.ep, p.w, body, retry, attempts + 1).w.trace, retry);
        }
      }
    }
  }

  /** Every sleep of a sequential run. */
  lemma {:induction false} RunInRange(ps: Producer, w: World, calls: seq<Call>)
    requires Ready(ps)
    ensures Callable(ps)
    ensures var w' := RunCalls(ps, w, calls).w;
            w.trace <= w'.trace && AllInRange(w'.trace, |w.trace|, RetryOf(ps.config.options))
    decreases calls
  {
    hide Send, SendLoop, Replay, AllFaithful, Delivered, AllInRange, RetryOf, TopicOf, NameOf;
    CallableReady(ps);
    if calls == [] {
      NoSleeps(w.trace, w.trace, RetryOf(ps.config.options));
    } else {
      var s := Send(ps, w, calls[0]);
      OneCall(ps, w, calls[0]);
      SendStep(ps, w, calls[0]);
      RunInRange(s.ps, s.w, calls[1..]);
      Joined(w.trace, s.w.trace, RunCalls(ps, w, calls).w.trace, RetryOf(ps.config.options));
    }
  }

  lemma OneCall(ps: Producer, w: World, call: Call)
    requires Ready(ps)
    ensures Callable(ps)
    ensures var w' := Send(ps, w, call).w;
            w.trace <= w'.trace && AllInRange(w'.trace, |w.trace|, RetryOf(ps.config.options))
  {
    hide SendLoop, AllInRange, RetryOf, TopicOf, NameOf, Width, Router.KeyRoute;
    PartitionInRange(ps, call.key);
    var p := SelectPartition(ps, call.key).0;
    assert ReadyAt(ps, p);
    SendInRange(ps.producers[p], w, BodyOf(call), RetryOf(ps.config.options), 0);
  }

  /** A step of an interleaved create. */
  lemma AdvanceInRange(t: Task, w: World)
    requires Fits(t)
    ensures var (t', w') := Advance(t, w);
            t'.ep.retry == t.ep.retry && w.trace <= w'.trace && AllInRange(w'.trace, |w.trace|, t.ep.retry)
  {
    hide Replay, Connect, Conclude, EndTry, Pause, LookupNewBroker;
    AdvanceFits(t, w);
    match t.phase
    case Backing(a) => PauseInRange(t.ep, w, t.ep.retry, a);
    case Arriving => LookupInRange(t.ep, w, t.ep.retry);
    case Retrying(_) => LookupInRange(t.ep, w, t.ep.retry);
    case _ =>
  }

  /** Every sleep of interleaved creates. */
  lemma {:induction false} InterleaveInRange(g: Gathering, schedule: seq<nat>, retry: RetryManager)
    requires Sound(g) && Schedules(schedule, |g.tasks|)
    requires forall i :: 0 <= i < |g.tasks| ==> g.tasks[i].ep.retry == retry
    ensures var w' := Interleave(g, schedule).w; g.w.trace <= w'.trace && AllInRange(w'.trace, |g.w.trace|, retry)
    decreases |schedule|
  {
    hide Advance, AllInRange, Fits;
    if schedule == [] {
      NoSleeps(g.w.trace, g.w.trace, retry);
    } else {
      var t := g.tasks[schedule[0]];
      AdvanceInRange(t, g.w);
      NoSleeps(g.w.trace, g.w.trace, retry);
      var g' := Next(g, schedule[0]);
      InterleaveInRange(g', schedule[1..], retry);
      Joined(g.w.trace, g'.w.trace, Interleave(g, schedule).w.trace, retry);
    }
  }
}
