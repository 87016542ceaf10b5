/** One call of `send` or `send_with_key` against an adversary: what reaches the log, what the
    call may cost, when it ends and how it may fail. */
module Delivery {
  import opened Wire
  import opened Retry
  import opened Connections
  import opened Network
  import opened Endpoint
  import opened EndpointHistory
  import opened EndpointBudget
  import opened EndpointLedger
  import opened Sending

  function Copies(body: Body, n: nat): (s: seq<Body>)
    ensures |s| == n
  {
    if n == 0 then [] else Copies(body, n - 1) + [body]
  }

  lemma {:induction false} CopiesAdd(body: Body, m: nat, n: nat)
    ensures Copies(body, m + n) == Copies(body, m) + Copies(body, n)
    decreases n
  {
    if n > 0 {
      CopiesAdd(body, m, n - 1);
      assert m + n - 1 == m + (n - 1);
    }
  }

  /** `_lookup_and_recreate` is `create` after the same lookup, unless the lookup fails. */
  lemma RecreateIsLookupThenCreate(ep: Endpoint, w: World, original: Error)
    requires ep.retry.maxRetries >= 0
    ensures var l, c := LookupNewBroker(ep, w), LookupAndRecreate(ep, w, original);
            var out := HandleLookup(ep, w).0;
            && l.ep.retry == ep.retry && l.ep.topic == ep.topic
            && (out.Ok? ==> l.out.Ok? && c == Create(l.ep, l.w))
            && (out.Raised? ==> c == Step(Raised(original), l.ep, l.w))
            && (out.Cancelled? ==> c == Step(Cancelled, l.ep, l.w))
  {
    hide Create, Connect;
  }

  lemma RecreateAdvances(ep: Endpoint, w: World, error: Error)
    requires ep.retry.Valid()
    ensures var c := Recreate(ep, w, error); Advances(ep, w, c.ep, c.w)
  {
    hide Create, HandleLookup, LookupAndRecreate, LookupNewBroker, Advances;
    if error.Unrecoverable? {
      CreateAdvances(ep, w);
    } else {
      RecreateIsLookupThenCreate(ep, w, error);
      var l := LookupNewBroker(ep, w);
      LookupAdvances(ep, w);
      if HandleLookup(ep, w).0.Ok? {
        CreateAdvances(l.ep, l.w);
        AdvancesTransitive(ep, w, l.ep, l.w, Create(l.ep, l.w).ep, Create(l.ep, l.w).w);
      }
    }
  }

  lemma Identities(ep: Endpoint, w: World, ep': Endpoint, w': World)
    requires Advances(ep, w, ep', w')
    ensures SameIdentity(ep, ep') && (ep.stub.Some? ==> ep'.stub.Some?) && w'.settings == w.settings
  {
  }

  /** Every call keeps everything that `Advances` says, however it ends. */
  lemma {:induction false} SendLoopAdvances(ep: Endpoint, w: World, body: Body, retry: RetryManager, attempts: nat)
    requires ep.retry.Valid() && retry.Valid() && attempts <= retry.maxRetries
    ensures var r := SendLoop(ep, w, body, retry, attempts); Advances(ep, w, r.ep, r.w)
    decreases |w.script|
  {
    hide Advances, Recreate, Pause, SendOnce;
    var r := SendLoop(ep, w, body, retry, attempts);
    var s := SendOnce(ep, w, body);
    SendOnceAdvances(ep, w, body);
    SendOnceShrinks(ep, w, body);
    if s.out.Raised? {
      if NeedsRecreation(s.out.error, retry, attempts) {
        var c := Recreate(s.ep, s.w, s.out.error);
        RecreateAdvances(s.ep, s.w, s.out.error);
        AdvancesTransitive(ep, w, s.ep, s.w, c.ep, c.w);
        if c.out.Ok? {
          SendLoopAdvances(c.ep, c.w, body, retry, 0);
          AdvancesTransitive(ep, w, c.ep, c.w, r.ep, r.w);
        }
      } else if retry.IsRetryable(s.out.error) {
        var p := Pause(s.ep, s.w, retry, attempts);
        PauseAdvances(s.ep, s.w, retry, attempts);
        PauseShrinks(s.ep, s.w, retry, attempts);
        AdvancesTransitive(ep, w, s.ep, s.w, p.ep, p.w);
        if !p.out.Cancelled? {
          SendLoopAdvances(p.ep, p.w, body, retry, attempts + 1);
          AdvancesTransitive(ep, w, p.ep, p.w, r.ep, r.w);
        }
      }
    }
  }

  lemma SendOnceShrinks(ep: Endpoint, w: World, body: Body)
    ensures var s := SendOnce(ep, w, body);
            && |s.w.script| <= |w.script| && s.ep.retry == ep.retry && s.ep.topic == ep.topic
            && (s.out == Raised(Unrecoverable) <==> ep.stub.None?)
            && (ep.stub.Some? && s.out.Raised? ==> |s.w.script| < |w.script|)
  {
  }

  lemma PauseShrinks(ep: Endpoint, w: World, retry: RetryManager, attempt: nat)
    ensures var p := Pause(ep, w, retry, attempt);
            p.ep == ep && |p.w.script| <= |w.script| && (!p.out.Cancelled? ==> |p.w.script| < |w.script|)
  {
  }

  /** What one attempt to publish adds to the history. */
  predicate OneSend(v: View, v': View, body: Body, out: Outcome<nat>) {
    && v'.publishes == v.publishes + 1
    && (v'.log == v.log + [body] || (v'.log == v.log && !out.Ok?))
    && v'.dialled == v.dialled && v'.dialledAt == v.dialledAt && v'.route == v.route
    && v'.registers == v.registers && v'.lookups == v.lookups && v'.queries == v.queries && v'.sleeps == v.sleeps
    && (InSync(v) ==> v'.strays == v.strays)
  }

  lemma SendOnceView(ep: Endpoint, w: World, body: Body)
    ensures var s, v := SendOnce(ep, w, body), Seen(w, ep.topic);
            if ep.stub.None? then s == Step(Raised(Unrecoverable), ep, w)
            else OneSend(v, Seen(s.w, ep.topic), body, s.out)
  {
  }

  /** What a recreation adds to the history. */
  predicate RecreateAccount(v: View, v': View, m: int, out: Outcome<nat>) {
    && NothingSent(v, v')
    && 0 <= v'.registers - v.registers <= m + 1
    && v'.lookups - v.lookups <= m + 2
    && 0 <= v'.sleeps - v.sleeps <= m
    && v'.queries - v.queries <= 2 * (v'.registers - v.registers)
    && (out.Ok? || (InSync(v) && !out.Cancelled?) ==> InSync(v'))
  }

  lemma RecreateIdentity(ep: Endpoint, w: World, error: Error)
    requires ep.retry.Valid()
    ensures SameIdentity(ep, Recreate(ep, w, error).ep)
  {
    hide Advances, Recreate;
    RecreateAdvances(ep, w, error);
    Identities(ep, w, Recreate(ep, w, error).ep, Recreate(ep, w, error).w);
  }

  lemma RecreateView(ep: Endpoint, w: World, error: Error)
    requires ep.retry.Valid()
    ensures var c := Recreate(ep, w, error);
            && c.ep.topic == ep.topic
            && RecreateAccount(Seen(w, ep.topic), Seen(c.w, ep.topic), ep.retry.maxRetries, c.out)
  {
    hide Create, HandleLookup, LookupAndRecreate, LookupNewBroker, Advances, Replay, SumLow, SumHigh;
    RecreateIdentity(ep, w, error);
    if error.Unrecoverable? {
      CreateAccounted(ep, w);
    } else {
      RecreateIsLookupThenCreate(ep, w, error);
      var l := LookupNewBroker(ep, w);
      LookupView(ep, w);
      LookupKeepsRoute(ep, w);
      if HandleLookup(ep, w).0.Ok? {
        CreateAccounted(l.ep, l.w);
      }
    }
  }

  /** What the exact account of `create` means for a caller's budget. */
  lemma CreateAccounted(ep: Endpoint, w: World)
    requires ep.retry.Valid()
    ensures var c := Create(ep, w);
            var v, v' := Seen(w, ep.topic), Seen(c.w, ep.topic);
            && RecreateAccount(v, v', ep.retry.maxRetries, c.out)
            && v'.lookups - v.lookups <= ep.retry.maxRetries + 1
            && (!c.out.Cancelled? ==> InSync(v'))
  {
    hide Create, Replay, SumLow, SumHigh;
    CreateExact(ep, w);
  }

  lemma LookupKeepsRoute(ep: Endpoint, w: World)
    ensures !HandleLookup(ep, w).0.Ok? ==> Seen(LookupNewBroker(ep, w).w, ep.topic).route == Seen(w, ep.topic).route
  {
    hide Connect, WellFormed;
  }

  /** At least once: the log gains copies of this body and of nothing else, one or more of them
      when the call returned; and nothing goes out over a stale channel. */
  predicate Delivered(v: View, v': View, body: Body, out: Outcome<nat>) {
    var gained := |v'.log| - |v.log|;
    && 0 <= gained <= v'.publishes - v.publishes
    && v'.log == v.log + Copies(body, gained)
    && (out.Ok? ==> gained >= 1)
    && (InSync(v) ==> v'.strays == v.strays && (!out.Cancelled? ==> InSync(v')))
  }

  /** The same between two points inside the call. */
  predicate Progressed(v: View, v': View, body: Body) {
    Delivered(v, v', body, Raised(Foreign))
  }

  lemma DeliveredLater(u: View, v: View, w: View, body: Body, out: Outcome<nat>)
    requires Progressed(u, v, body) && Delivered(v, w, body, out)
    ensures Delivered(u, w, body, out)
  {
    CopiesAdd(body, |v.log| - |u.log|, |w.log| - |v.log|);
  }

  lemma OneSendProgress(v: View, v': View, body: Body, out: Outcome<nat>)
    requires OneSend(v, v', body, out)
    ensures Delivered(v, v', body, out) && Progressed(v, v', body)
  {
    assert Copies(body, 1) == Copies(body, 0) + [body];
  }

  lemma {:induction false} SendDelivers(ep: Endpoint, w: World, body: Body, retry: RetryManager, attempts: nat)
    requires ep.retry.Valid() && retry.Valid() && attempts <= retry.maxRetries
    ensures var r := SendLoop(ep, w, body, retry, attempts);
            Delivered(Seen(w, ep.topic), Seen(r.w, ep.topic), body, r.out)
    decreases |w.script|
  {
    hide Recreate, Pause, SendOnce, Replay, Delivered, OneSend;
    var t := ep.topic;
    var r := SendLoop(ep, w, body, retry, attempts);
    var s := SendOnce(ep, w, body);
    var v, vs, vr := Seen(w, t), Seen(s.w, t), Seen(r.w, t);
    SendOnceShrinks(ep, w, body);
    SendOnceView(ep, w, body);
    if ep.stub.Some? {
      OneSendProgress(v, vs, body, s.out);
    } else {
      NothingDelivered(v, vs, body, s.out);
    }
    if s.out.Raised? {
      if NeedsRecreation(s.out.error, retry, attempts) {
        var c := Recreate(s.ep, s.w, s.out.error);
        var vc := Seen(c.w, t);
        RecreateView(s.ep, s.w, s.out.error);
        RecreateDelivers(vs, vc, body, ep.retry.maxRetries, c.out);
        if c.out.Ok? {
          SendDelivers(c.ep, c.w, body, retry, 0);
          DeliveredLater(vs, vc, vr, body, r.out);
        }
        DeliveredLater(v, vs, vr, body, r.out);
      } else if retry.IsRetryable(s.out.error) {
        var p := Pause(s.ep, s.w, retry, attempts);
        var vp := Seen(p.w, t);
        PauseShrinks(s.ep, s.w, retry, attempts);
        PauseView(s.ep, s.w, retry, attempts);
        NothingDelivered(vs, vp, body, Cancelled);
        DeliveredLater(v, vs, vp, body, Cancelled);
        if !p.out.Cancelled? {
          SendDelivers(p.ep, p.w, body, retry, attempts + 1);
          NothingDelivered(vs, vp, body, Raised(Foreign));
          DeliveredLater(v, vs, vp, body, Raised(Foreign));
          DeliveredLater(v, vp, vr, body, r.out);
        }
      }
    }
  }

  lemma NothingDelivered(v: View, v': View, body: Body, out: Outcome<nat>)
    requires NothingSent(v, v') && !out.Ok?
    requires v'.dialled == v.dialled && v'.dialledAt == v.dialledAt && v'.route == v.route
    ensures Delivered(v, v', body, out)
  {
    assert Copies(body, 0) == [];
  }

  lemma RecreateDelivers(v: View, v': View, body: Body, m: int, out: Outcome<nat>)
    requires RecreateAccount(v, v', m, out)
    ensures !out.Ok? ==> Delivered(v, v', body, out)
    ensures !out.Cancelled? ==> Progressed(v, v', body)
  {
    assert Copies(body, 0) == [];
  }

  /** What a call may cost that recreates its endpoint `e` times and starts with counter `a`. */
  predicate WithinBudget(v: View, v': View, m: int, a: nat, e: nat) {
    && v'.publishes - v.publishes <= (e + 1) * (m + 1) - a
    && 0 <= v'.registers - v.registers <= (e + 1) * (m + 1)
    && v'.lookups - v.lookups <= (e + 1) * (m + 2)
    && v'.sleeps - v.sleeps <= (e + 1) * (2 * m) - a
    && v'.queries - v.queries <= 2 * (v'.registers - v.registers)
  }

  lemma BudgetUnfold(e: nat, m: int)
    ensures (e + 1) * (m + 1) == e * (m + 1) + (m + 1)
    ensures (e + 1) * (m + 2) == e * (m + 2) + (m + 2)
    ensures (e + 1) * (2 * m) == e * (2 * m) + 2 * m
    ensures m >= 0 ==> e * (m + 1) >= 0 && e * (m + 2) >= 0 && e * (2 * m) >= 0
  {
  }

  /** The budget of every run: `e` successful recreations allow at most (e+1)(m+1) publishes,
      (e+1)(m+1) registrations and (e+1)(m+2) lookups. */
  lemma {:induction false} SendBudget(ep: Endpoint, w: World, body: Body, retry: RetryManager, attempts: nat)
    requires ep.retry == retry && retry.Valid() && attempts <= retry.maxRetries
    ensures var r := SendLoop(ep, w, body, retry, attempts);
            WithinBudget(Seen(w, ep.topic), Seen(r.w, ep.topic), retry.maxRetries, attempts, r.recreations)
    decreases |w.script|
  {
    hide Recreate, Pause, SendOnce, Replay;
    var t, m := ep.topic, retry.maxRetries;
    var r := SendLoop(ep, w, body, retry, attempts);
    var s := SendOnce(ep, w, body);
    SendOnceShrinks(ep, w, body);
    SendOnceView(ep, w, body);
    BudgetUnfold(r.recreations, m);
    if s.out.Raised? {
      if NeedsRecreation(s.out.error, retry, attempts) {
        var c := Recreate(s.ep, s.w, s.out.error);
        RecreateView(s.ep, s.w, s.out.error);
        if c.out.Ok? {
          SendBudget(c.ep, c.w, body, retry, 0);
        }
      } else if retry.IsRetryable(s.out.error) {
        var p := Pause(s.ep, s.w, retry, attempts);
        PauseShrinks(s.ep, s.w, retry, attempts);
        PauseView(s.ep, s.w, retry, attempts);
        if !p.out.Cancelled? {
          SendBudget(p.ep, p.w, body, retry, attempts + 1);
        }
      }
    }
  }

  lemma RecreateBalanced(ep: Endpoint, w: World, error: Error)
    requires ep.retry.maxRetries >= 0
    ensures var c := Recreate(ep, w, error); Balanced(w, c.w, c.out.Cancelled?)
  {
    hide Balanced, Create, HandleLookup, LookupAndRecreate, LookupNewBroker;
    if error.Unrecoverable? {
      CreateBalanced(ep, w);
    } else {
      RecreateIsLookupThenCreate(ep, w, error);
      LookupBalanced(ep, w);
      var l := LookupNewBroker(ep, w);
      if HandleLookup(ep, w).0.Ok? {
        CreateBalanced(l.ep, l.w);
        Chain(w, l.w, Create(l.ep, l.w).w, Create(l.ep, l.w).out.Cancelled?);
      } else {
        LookupFailureIsOk(ep, w);
      }
    }
  }

  lemma LookupFailureIsOk(ep: Endpoint, w: World)
    ensures LookupNewBroker(ep, w).out.Cancelled? <==> HandleLookup(ep, w).0.Cancelled?
  {
    hide Connect;
  }

  lemma {:induction false} SendLoopBalanced(ep: Endpoint, w: World, body: Body, retry: RetryManager, attempts: nat)
    requires ep.retry.maxRetries >= 0 && attempts <= retry.maxRetries
    ensures var r := SendLoop(ep, w, body, retry, attempts); Balanced(w, r.w, r.out.Cancelled?)
    decreases |w.script|
  {
    hide Balanced, Recreate, Pause, SendOnce;
    var r := SendLoop(ep, w, body, retry, attempts);
    var s := SendOnce(ep, w, body);
    SendOnceBalanced(ep, w, body);
    SendOnceShrinks(ep, w, body);
    if s.out.Raised? {
      if NeedsRecreation(s.out.error, retry, attempts) {
        var c := Recreate(s.ep, s.w, s.out.error);
        RecreateBalanced(s.ep, s.w, s.out.error);
        Chain(w, s.w, c.w, c.out.Cancelled?);
        if c.out.Ok? {
          SendLoopBalanced(c.ep, c.w, body, retry, 0);
          Chain(w, c.w, r.w, r.out.Cancelled?);
        }
      } else if retry.IsRetryable(s.out.error) {
        var p := Pause(s.ep, s.w, retry, attempts);
        PauseBalanced(s.ep, s.w, retry, attempts);
        PauseShrinks(s.ep, s.w, retry, attempts);
        Chain(w, s.w, p.w, p.out.Cancelled?);
        if !p.out.Cancelled? {
          SendLoopBalanced(p.ep, p.w, body, retry, attempts + 1);
          Chain(w, p.w, r.w, r.out.Cancelled?);
        }
      }
    }
  }

  /** A call that nobody cancels ends, with an id or an error, before it has used up
      (e+1)(7m+6) replies, e being its successful recreations: an endless run needs a broker that
      accepts endlessly many recreations. */
  lemma SendEnds(ep: Endpoint, w: World, body: Body, retry: RetryManager)
    requires ep.retry == retry && retry.Valid() && NoInterrupt(w.script)
    ensures var r := SendLoop(ep, w, body, retry, 0);
            |w.script| >= (r.recreations + 1) * (7 * retry.maxRetries + 6) ==> !r.out.Cancelled?
  {
    hide SendLoop, Replay, AllFaithful, WellFormed, Mirrors, OthersKept;
    var r := SendLoop(ep, w, body, retry, 0);
    SendBudget(ep, w, body, retry, 0);
    SendLoopBalanced(ep, w, body, retry, 0);
    SendLoopAdvances(ep, w, body, retry, 0);
    var m, e := retry.maxRetries, r.recreations + 1;
    SumOfBudgets(e, m);
  }

  lemma SumOfBudgets(e: nat, m: int)
    ensures e * (m + 1) + e * (m + 1) + e * (m + 2) + e * (2 * m) + 2 * (e * (m + 1)) == e * (7 * m + 6)
  {
  }
}
