/** danube/producer.py, the retry loop of `send` and `send_with_key`, as a function on values. */
module Sending {
  import opened Wire
  import opened Retry
  import opened Connections
  import opened Network
  import opened Endpoint

  datatype Sent = Sent(out: Outcome<nat>, ep: Endpoint, w: World,
                       recreations: nat)  // how many times the endpoint was created anew

  /** `_lookup_and_recreate`: a failed lookup raises the error that led here. */
  function LookupAndRecreate(ep: Endpoint, w: World, original: Error): (r: Step<nat>)
    requires ep.retry.maxRetries >= 0
    ensures |r.w.script| <= |w.script| && r.ep.retry == ep.retry
  {
    var (out, w') := HandleLookup(ep, w);
    match out
    case Ok(address) => CreateShrinks(ep.(route := address), w'); Create(ep.(route := address), w')
    case Raised(_) => Step(Raised(original), ep, w')
    case Cancelled => Step(Cancelled, ep, w')
  }

  /** A `create` that is not cancelled consumes replies. */
  lemma CreateShrinks(ep: Endpoint, w: World)
    requires ep.retry.maxRetries >= 0
    ensures var c := Create(ep, w);
            |c.w.script| <= |w.script| && c.ep.retry == ep.retry && (!c.out.Cancelled? ==> |c.w.script| < |w.script|)
  {
    hide CreateLoop, Connect;
    var l := LookupNewBroker(ep, w);
    if !l.out.Cancelled? {
      CreateLoopShrinks(l.ep, l.w, 0);
    }
  }

  lemma {:induction false} CreateLoopShrinks(ep: Endpoint, w: World, attempts: nat)
    requires attempts <= ep.retry.maxRetries
    ensures var c := CreateLoop(ep, w, attempts); |c.w.script| <= |w.script| && c.ep.retry == ep.retry
    decreases ep.retry.maxRetries - attempts
  {
    var t := TryCreate(ep, w);
    TryCreateShrinks(ep, w);
    if !Final(ep, t.out, attempts) {
      RecoverShrinks(t.ep, t.w, attempts);
      var r := Recover(t.ep, t.w, attempts);
      hide TryCreate, Recover;
      if !r.out.Cancelled? {
        CreateLoopShrinks(r.ep, r.w, attempts + 1);
      }
    }
  }

  lemma TryCreateShrinks(ep: Endpoint, w: World)
    ensures |TryCreate(ep, w).w.script| <= |w.script|
  {
    hide Connect;
  }

  lemma RecoverShrinks(ep: Endpoint, w: World, attempts: nat)
    ensures |Recover(ep, w, attempts).w.script| <= |w.script|
  {
    hide Connect;
  }

  /** Does the loop answer this error by creating the endpoint anew? */
  predicate NeedsRecreation(error: Error, retry: RetryManager, attempts: nat) {
    error.Unrecoverable? || (retry.IsRetryable(error) && attempts + 1 > retry.maxRetries)
  }

  /** `_recreate_producer` after an unrecoverable error, `_lookup_and_recreate` otherwise. */
  function Recreate(ep: Endpoint, w: World, error: Error): (r: Step<nat>)
    requires ep.retry.maxRetries >= 0
    ensures |r.w.script| <= |w.script| && r.ep.retry == ep.retry
    ensures error.Unrecoverable? && r.out.Ok? ==> |r.w.script| < |w.script|
  {
    if error.Unrecoverable? then CreateShrinks(ep, w); Create(ep, w)
    else LookupAndRecreate(ep, w, error)
  }

  /** The `while True` loop; `attempts` is its counter and `retry` the call's own manager.
      A successful recreation resets the counter; a failed one ends the call with its error.
      The script bounds the run, not the loop: see `Network`. */
  function SendLoop(ep: Endpoint, w: World, body: Body, retry: RetryManager, attempts: nat): (r: Sent)
    requires ep.retry.maxRetries >= 0 && attempts <= retry.maxRetries
    ensures r.ep.retry == ep.retry
    decreases |w.script|
  {
    var s := SendOnce(ep, w, body);
    if !s.out.Raised? then Sent(s.out, s.ep, s.w, 0)
    else if NeedsRecreation(s.out.error, retry, attempts) then
      var c := Recreate(s.ep, s.w, s.out.error);
      if !c.out.Ok? then Sent(c.out, c.ep, c.w, 0)
      else
        var r := SendLoop(c.ep, c.w, body, retry, 0);
        r.(recreations := r.recreations + 1)
    else if !retry.IsRetryable(s.out.error) then Sent(s.out, s.ep, s.w, 0)
    else
      var p := Pause(s.ep, s.w, retry, attempts);
      if p.out.Cancelled? then Sent(Cancelled, p.ep, p.w, 0)
      else SendLoop(p.ep, p.w, body, retry, attempts + 1)
  }
}
