/** What a sequential user of a producer may rely on, over every run and every broker. */
module ProducerRuns {
  import opened Wire
  import opened Retry
  import opened Connections
  import opened Network
  import opened Endpoint
  import opened EndpointHistory
  import opened EndpointBudget
  import opened Sending
  import opened Delivery
  import opened Schemas
  import opened ProducerModel
  import Failures
  import Router
  import Fnv
  import Names

  /** A producer whose `create` has returned. */
  ghost predicate Ready(ps: Producer) {
    && ps.config.partitions >= 0 && |ps.producers| == Width(ps.config)
    && (ps.config.partitions > 0 ==> ps.router.Some? && 0 <= ps.router.value < ps.config.partitions)
    && forall i :: 0 <= i < |ps.producers| ==> ReadyAt(ps, i)
  }

  ghost predicate ReadyAt(ps: Producer, i: nat)
    requires i < |ps.producers|
  {
    var ep := ps.producers[i];
    && ep.role == ProducerRole(ps.config.dispatch) && ep.topic == TopicOf(ps.config, i)
    && ep.name == NameOf(ps.config, i) && ep.schemaRef == ps.config.schemaRef
    && ep.retry == RetryOf(ps.config.options) && ep.stub.Some?
  }

  /** Every endpoint's fields are what its history says, and its requests were built from them. */
  ghost predicate Tracked(ps: Producer, w: World) {
    forall i :: 0 <= i < |ps.producers| ==> Mirrors(ps.producers[i], w) && Honours(w, ps.producers[i].topic)
  }

  /** Every endpoint's channel belongs to its route. */
  ghost predicate InStep(ps: Producer, w: World) {
    forall i :: 0 <= i < |ps.producers| ==> InSync(Seen(w, ps.producers[i].topic))
  }

  /** Endpoints, and all their messages from event `from` on, bear the schema that is due. */
  ghost predicate WellStamped(ps: Producer, w: World, from: nat) {
    forall i :: 0 <= i < |ps.producers| ==> WellLabelled(ps.producers[i], w, from)
  }

  lemma TopicsDiffer(config: Config, i: nat, j: nat)
    requires config.partitions == 0 ==> i == j == 0
    requires i != j
    ensures TopicOf(config, i) != TopicOf(config, j)
  {
    if TopicOf(config, i) == TopicOf(config, j) {
      Names.PartitionTopicInjective(config.topic, i, j);
    }
  }

  /** A ready producer finds an endpoint for every call, so neither "partition ID out of range" nor
      "producer is not connected" can be raised. */
  lemma PartitionInRange(ps: Producer, key: Option<Bytes>)
    requires Ready(ps)
    ensures Callable(ps) && SelectPartition(ps, key).0 < |ps.producers|
    ensures var (p, ps') := SelectPartition(ps, key);
            && ps'.producers == ps.producers && ps'.config == ps.config
            && (Routed(ps) && key.None? ==>
                  p == Router.NextPart(ps.router.value, ps.config.partitions) && ps'.router == Some(p))
            && (!Routed(ps) || key.Some? ==> ps' == ps)
            && (key.Some? && Routed(ps) ==> p == Router.KeyRoute(key.value, ps.config.partitions))
            && (!Routed(ps) ==> p == 0)
  {
    forall i | 0 <= i < |ps.producers|
      ensures ps.producers[i].retry.maxRetries >= 0
    {
      assert ReadyAt(ps, i);
    }
    if Routed(ps) {
      Router.NextPartCases(ps.router.value, ps.config.partitions);
    }
  }

  /** One call: it stays within its partition and keeps the producer ready. */
  lemma SendStep(ps: Producer, w: World, call: Call)
    requires Ready(ps)
    ensures Callable(ps)
    ensures var r := Send(ps, w, call);
            var p := r.receipt.partition;
            && Ready(r.ps) && r.ps.config == ps.config
            && p == SelectPartition(ps, call.key).0 < |ps.producers|
            && Delivered(Seen(w, TopicOf(ps.config, p)), Seen(r.w, TopicOf(ps.config, p)), BodyOf(call), r.receipt.out)
            && OthersKept(TopicOf(ps.config, p), w, r.w)
            && Advances(ps.producers[p], w, r.ps.producers[p], r.w)
            && r.ps.producers == ps.producers[p := r.ps.producers[p]]
  {
    hide SendLoop, Delivered, Replay, AllFaithful, WellFormed, Mirrors, RetryOf, Width, Router.KeyRoute;
    PartitionInRange(ps, call.key);
    var (p, ps') := SelectPartition(ps, call.key);
    var retry := RetryOf(ps.config.options);
    assert ReadyAt(ps, p);
    SendLoopAdvances(ps.producers[p], w, BodyOf(call), retry, 0);
    SendDelivers(ps.producers[p], w, BodyOf(call), retry, 0);
    var r := Send(ps, w, call);
    assert ReadyAt(r.ps, p);
    forall i | 0 <= i < |r.ps.producers|
      ensures ReadyAt(r.ps, i)
    {
      assert ReadyAt(ps, i);
    }
  }

  /** The record that a call is to leave in the log: its payload and key as given, its attributes or
      none. */
  function Record(call: Call): Body {
    Body(call.data, match call.attributes case None => map[] case Some(a) => a, call.key)
  }

  /** The operations send exactly that. */
  lemma BodyIsRecord(call: Call)
    ensures BodyOf(call) == Record(call)
  {
  }

  /** What the calls that chose partition `p` may have left there: a block of copies per call. */
  function Blocks(calls: seq<Call>, receipts: seq<Receipt>, copies: seq<nat>, p: nat): seq<Body>
    requires |calls| == |receipts| == |copies|
  {
    if calls == [] then []
    else
      (if receipts[0].partition == p then Copies(Record(calls[0]), copies[0]) else [])
      + Blocks(calls[1..], receipts[1..], copies[1..], p)
  }

  /** How many copies of each call arrived, as far as the outcomes determine it. */
  predicate CopiesFit(receipts: seq<Receipt>, copies: seq<nat>) {
    |receipts| == |copies| && forall i :: 0 <= i < |receipts| && receipts[i].out.Ok? ==> copies[i] >= 1
  }

  /** A run is its first call and the run of the others. */
  lemma RunStep(ps: Producer, w: World, calls: seq<Call>)
    requires Callable(ps) && calls != []
    ensures var s := Send(ps, w, calls[0]);
            var r, rest := RunCalls(ps, w, calls), RunCalls(s.ps, s.w, calls[1..]);
            r.receipts == [s.receipt] + rest.receipts && r.ps == rest.ps && r.w == rest.w
  {
    hide Send, Callable;
  }

  /** The first call's block in front of the others'. */
  lemma BlocksStep(calls: seq<Call>, receipt: Receipt, receipts: seq<Receipt>, n: nat, copies: seq<nat>)
    requires calls != [] && |calls| == |receipts| + 1 && CopiesFit(receipts, copies)
    requires receipt.out.Ok? ==> n >= 1
    ensures CopiesFit([receipt] + receipts, [n] + copies)
    ensures forall p {:trigger Blocks(calls, [receipt] + receipts, [n] + copies, p)} ::
              Blocks(calls, [receipt] + receipts, [n] + copies, p)
              == (if receipt.partition == p then Copies(Record(calls[0]), n) else [])
                 + Blocks(calls[1..], receipts, copies, p)
  {
    hide Copies, Record;
    assert ([receipt] + receipts)[1..] == receipts && ([n] + copies)[1..] == copies;
  }

  /** At-least-once, in order.  Over any sequential run each partition's log grows by one block per
      call that chose it, in call order; the block holds copies of that call's body only, at least
      one if the call returned.  No other partition sees them. */
  lemma {:induction false} AtLeastOnceInOrder(ps: Producer, w: World, calls: seq<Call>) returns (copies: seq<nat>)
    requires Ready(ps)
    ensures Callable(ps)
    ensures var r := RunCalls(ps, w, calls);
            && Ready(r.ps) && r.ps.config == ps.config
            && CopiesFit(r.receipts, copies)
            && forall p :: 0 <= p < |ps.producers| ==>
                 Seen(r.w, TopicOf(ps.config, p)).log
                 == Seen(w, TopicOf(ps.config, p)).log + Blocks(calls, r.receipts, copies, p)
    decreases calls
  {
    hide Send, Seen, TopicOf, Ready, Callable, Copies, Record;
    CallableReady(ps);
    if calls == [] {
      copies := [];
    } else {
      hide RunCalls, Blocks, CopiesFit;
      var s := Send(ps, w, calls[0]);
      var n := FirstCall(ps, w, calls[0]);
      var rest := AtLeastOnceInOrder(s.ps, s.w, calls[1..]);
      copies := [n] + rest;
      RunStep(ps, w, calls);
      var receipts := RunCalls(s.ps, s.w, calls[1..]).receipts;
      BlocksStep(calls, s.receipt, receipts, n, rest);
    }
  }

  /** A run leaves no trace outside the producer's own partitions. */
  lemma {:induction false} OtherTopicsUntouched(ps: Producer, w: World, calls: seq<Call>, t: string)
    requires Ready(ps) && forall p :: 0 <= p < |ps.producers| ==> t != TopicOf(ps.config, p)
    ensures Callable(ps) && Seen(RunCalls(ps, w, calls).w, t) == Seen(w, t)
    decreases calls
  {
    hide Send, Replay, Delivered, Advances, TopicOf, Ready, RouterOk;
    CallableReady(ps);
    if calls != [] {
      SendStep(ps, w, calls[0]);
      var s := Send(ps, w, calls[0]);
      OtherTopicsUntouched(s.ps, s.w, calls[1..], t);
    }
  }

  lemma CallableReady(ps: Producer)
    requires Ready(ps)
    ensures Callable(ps)
  {
    PartitionInRange(ps, None);
  }

  /** The block that one call leaves in its partition, and nothing elsewhere. */
  lemma FirstCall(ps: Producer, w: World, call: Call) returns (n: nat)
    requires Ready(ps)
    ensures Callable(ps)
    ensures var s := Send(ps, w, call);
            && Ready(s.ps) && s.ps.config == ps.config && |s.ps.producers| == |ps.producers|
            && (s.receipt.out.Ok? ==> n >= 1)
            && forall p :: 0 <= p < |ps.producers| ==>
                 Seen(s.w, TopicOf(ps.config, p)).log == Seen(w, TopicOf(ps.config, p)).log
                   + if s.receipt.partition == p then Copies(Record(call), n) else []
  {
    hide Send, Seen, OthersKept, Advances, TopicOf, Ready;
    CallableReady(ps);
    BodyIsRecord(call);
    hide Record, BodyOf;
    SendStep(ps, w, call);
    var s := Send(ps, w, call);
    var t := TopicOf(ps.config, s.receipt.partition);
    n := |Seen(s.w, t).log| - |Seen(w, t).log|;
    hide Delivered, Callable;
    forall p | 0 <= p < |ps.producers| && p != s.receipt.partition
      ensures Seen(s.w, TopicOf(ps.config, p)) == Seen(w, TopicOf(ps.config, p))
    {
      OtherPartition(ps, w, call, p);
    }
  }

  lemma OtherPartition(ps: Producer, w: World, call: Call, p: nat)
    requires Ready(ps) && p < |ps.producers|
    ensures Callable(ps)
    ensures var r := Send(ps, w, call);
            p != r.receipt.partition ==> Seen(r.w, TopicOf(ps.config, p)) == Seen(w, TopicOf(ps.config, p))
  {
    hide Send, Replay, Advances, Delivered, AllFaithful;
    CallableReady(ps);
    SendStep(ps, w, call);
    var q := Send(ps, w, call).receipt.partition;
    if p != q {
      TopicsDiffer(ps.config, p, q);
    }
  }

  /** The records of a log that carry routing key `k`, in order. */
  function Keyed(log: seq<Body>, k: Bytes): seq<Body> {
    if log == [] then []
    else Keyed(log[..|log| - 1], k) + (if log[|log| - 1].key == Some(k) then [log[|log| - 1]] else [])
  }

  lemma {:induction false} KeyedConcat(a: seq<Body>, b: seq<Body>, k: Bytes)
    ensures Keyed(a + b, k) == Keyed(a, k) + Keyed(b, k)
    decreases b
  {
    if b == [] {
      assert a + b == a;
    } else {
      var b' := b[..|b| - 1];
      assert (a + b)[..|a + b| - 1] == a + b';
      KeyedConcat(a, b', k);
    }
  }

  lemma {:induction false} KeyedCopies(body: Body, n: nat, k: Bytes)
    ensures Keyed(Copies(body, n), k) == if body.key == Some(k) then Copies(body, n) else []
    decreases n
  {
    if n > 0 {
      KeyedCopies(body, n - 1, k);
      assert Copies(body, n)[..n - 1] == Copies(body, n - 1);
    }
  }

  /** The `send_with_key` calls for `k`, each repeated as often as it arrived. */
  function KeyBlocks(calls: seq<Call>, copies: seq<nat>, k: Bytes): seq<Body>
    requires |calls| == |copies|
  {
    if calls == [] then []
    else
      (if calls[0].key == Some(k) then Copies(Record(calls[0]), copies[0]) else [])
      + KeyBlocks(calls[1..], copies[1..], k)
  }

  /** The partition in which all records with key `k` belong: its FNV-1a hash, computed without
      intermediate masking, modulo the partition count. */
  function HomeOf(n: int, k: Bytes): nat {
    if n > 0 then Fnv.Unbounded(Fnv.OFFSET, k) % Fnv.TWO64 % n else 0
  }

  lemma {:induction false} KeyedBlocks(ps: Producer, w: World, calls: seq<Call>, copies: seq<nat>, p: nat, k: Bytes)
    requires Ready(ps) && |copies| == |calls|
    ensures Callable(ps)
    ensures Keyed(Blocks(calls, RunCalls(ps, w, calls).receipts, copies, p), k)
         == if p == HomeOf(ps.config.partitions, k) then KeyBlocks(calls, copies, k) else []
    decreases calls
  {
    hide Send, Replay, Delivered, OthersKept, Advances, TopicOf, RouterOk, Copies;
    hide Router.KeyRoute, Fnv.Unbounded, Keyed;
    CallableReady(ps);
    if ps.config.partitions > 0 {
      Router.KeyRouteIsHash(k, ps.config.partitions);
    }
    if calls == [] {
      KeyedCopies(Body([], map[], None), 0, k);
      CopiesNone(Body([], map[], None), k);
    } else {
      var s := Send(ps, w, calls[0]);
      SendStep(ps, w, calls[0]);
      PartitionInRange(ps, calls[0].key);
      KeyedBlocks(s.ps, s.w, calls[1..], copies[1..], p, k);
      var receipts := RunCalls(ps, w, calls).receipts;
      assert receipts[1..] == RunCalls(s.ps, s.w, calls[1..]).receipts;
      var body := Record(calls[0]);
      var block := if s.receipt.partition == p then Copies(body, copies[0]) else [];
      KeyedConcat(block, Blocks(calls[1..], receipts[1..], copies[1..], p), k);
      KeyedCopies(body, copies[0], k);
      CopiesNone(body, k);
    }
  }

  lemma CopiesNone(body: Body, k: Bytes)
    ensures Keyed([], k) == []
  {
  }

  /** Per-key order.  In every sequential mix of `send` and `send_with_key`, whatever is retried or
      recreated, what the run adds under key `k` is in one partition, FNV-1a(k) mod n, and is the
      sequence of the calls for `k` with each call repeated; no other partition gets any of it. */
  lemma PerKeyOrder(ps: Producer, w: World, calls: seq<Call>, k: Bytes) returns (copies: seq<nat>)
    requires Ready(ps)
    ensures Callable(ps)
    ensures var r := RunCalls(ps, w, calls);
            && CopiesFit(r.receipts, copies)
            && forall p :: 0 <= p < |ps.producers| ==>
                 Keyed(Seen(r.w, TopicOf(ps.config, p)).log, k)
                 == Keyed(Seen(w, TopicOf(ps.config, p)).log, k)
                    + if p == HomeOf(ps.config.partitions, k) then KeyBlocks(calls, copies, k) else []
  {
    hide RunCalls, Replay, Keyed, Blocks, KeyBlocks, TopicOf, Ready, HomeOf;
    copies := AtLeastOnceInOrder(ps, w, calls);
    var r := RunCalls(ps, w, calls);
    forall p | 0 <= p < |ps.producers|
      ensures Keyed(Seen(r.w, TopicOf(ps.config, p)).log, k)
           == Keyed(Seen(w, TopicOf(ps.config, p)).log, k)
              + if p == HomeOf(ps.config.partitions, k) then KeyBlocks(calls, copies, k) else []
    {
      KeyedBlocks(ps, w, calls, copies, p, k);
      KeyedConcat(Seen(w, TopicOf(ps.config, p)).log, Blocks(calls, r.receipts, copies, p), k);
    }
  }

  /** The partitions that the calls without a key chose. */
  function KeylessPicks(calls: seq<Call>, receipts: seq<Receipt>): seq<nat>
    requires |calls| == |receipts|
  {
    if calls == [] then []
    else (if calls[0].key.None? then [receipts[0].partition] else []) + KeylessPicks(calls[1..], receipts[1..])
  }

  /** Keyed calls, retries and failures do not disturb the round robin: the keyless calls walk the
      partitions as if they were alone. */
  lemma {:induction false} RoundRobinUndisturbed(ps: Producer, w: World, calls: seq<Call>)
    requires Ready(ps) && ps.config.partitions > 0
    ensures Callable(ps)
    ensures var picks := KeylessPicks(calls, RunCalls(ps, w, calls).receipts);
            picks == Router.Picks(ps.router.value, ps.config.partitions, |picks|)
    decreases calls
  {
    hide Replay, Delivered, OthersKept, Advances, TopicOf, Router.KeyRoute, Router.NextPart, SendLoop;
    CallableReady(ps);
    if calls != [] {
      var s := Send(ps, w, calls[0]);
      SendStep(ps, w, calls[0]);
      PartitionInRange(ps, calls[0].key);
      RoundRobinUndisturbed(s.ps, s.w, calls[1..]);
      assert RunCalls(ps, w, calls).receipts[1..] == RunCalls(s.ps, s.w, calls[1..]).receipts;
    }
  }

  /** Nobody cancelled any of these calls. */
  predicate Undisturbed(receipts: seq<Receipt>) {
    forall i :: 0 <= i < |receipts| ==> !receipts[i].out.Cancelled?
  }

  lemma SendTracks(ps: Producer, w: World, call: Call)
    requires Ready(ps) && Tracked(ps, w)
    ensures Callable(ps) && Tracked(Send(ps, w, call).ps, Send(ps, w, call).w)
  {
    hide Send, Replay, AllFaithful, WellFormed, Delivered, TopicOf, Mirrors;
    CallableReady(ps);
    SendStep(ps, w, call);
    var r := Send(ps, w, call);
    var q := r.receipt.partition;
    forall i | 0 <= i < |r.ps.producers|
      ensures Mirrors(r.ps.producers[i], r.w) && Honours(r.w, r.ps.producers[i].topic)
    {
      assert Mirrors(ps.producers[i], w) && Honours(w, ps.producers[i].topic);
      assert ReadyAt(ps, i) && ReadyAt(ps, q);
      if i != q {
        TopicsDiffer(ps.config, i, q);
        MirrorsElsewhere(ps.producers[i], w, r.w);
      }
    }
  }

  lemma MirrorsElsewhere(ep: Endpoint, w: World, w': World)
    requires Mirrors(ep, w) && Seen(w', ep.topic) == Seen(w, ep.topic)
    ensures Mirrors(ep, w')
  {
  }

  lemma SendKeepsStep(ps: Producer, w: World, call: Call)
    requires Ready(ps) && InStep(ps, w)
    ensures Callable(ps)
    ensures var r := Send(ps, w, call);
            && (!r.receipt.out.Cancelled? ==> InStep(r.ps, r.w))
            && forall i :: 0 <= i < |ps.producers| ==>
                 Seen(r.w, TopicOf(ps.config, i)).strays == Seen(w, TopicOf(ps.config, i)).strays
  {
    hide Send, Replay, AllFaithful, WellFormed, TopicOf, Advances, OthersKept, Copies;
    CallableReady(ps);
    SendStep(ps, w, call);
    var r := Send(ps, w, call);
    forall i | 0 <= i < |ps.producers|
      ensures Seen(r.w, TopicOf(ps.config, i)).strays == Seen(w, TopicOf(ps.config, i)).strays
      ensures !r.receipt.out.Cancelled? ==> InSync(Seen(r.w, TopicOf(ps.config, i)))
    {
      assert ReadyAt(ps, i) && InSync(Seen(w, ps.producers[i].topic));
      OtherPartition(ps, w, call, i);
    }
    if !r.receipt.out.Cancelled? {
      forall i | 0 <= i < |r.ps.producers|
        ensures InSync(Seen(r.w, r.ps.producers[i].topic))
      {
        assert ReadyAt(r.ps, i);
      }
    }
  }

  /** Channel and header coherence.  As long as no call is cancelled, nothing is ever published over
      a channel that was dialled for another route, and channel and route agree after every call.
      (`Coherence.NoStrays` says what that means for each message.) */
  lemma {:induction false} NoStraysUnlessCancelled(ps: Producer, w: World, calls: seq<Call>)
    requires Ready(ps) && InStep(ps, w)
    ensures Callable(ps)
    ensures var r := RunCalls(ps, w, calls);
            Undisturbed(r.receipts) ==>
              && InStep(r.ps, r.w)
              && forall i :: 0 <= i < |ps.producers| ==>
                   Seen(r.w, TopicOf(ps.config, i)).strays == Seen(w, TopicOf(ps.config, i)).strays
    decreases calls
  {
    hide Send, Replay, TopicOf, InSync, Advances, OthersKept, Delivered, RouterOk;
    CallableReady(ps);
    if calls != [] {
      var s := Send(ps, w, calls[0]);
      SendStep(ps, w, calls[0]);
      SendKeepsStep(ps, w, calls[0]);
      var r := RunCalls(ps, w, calls);
      if Undisturbed(r.receipts) {
        assert r.receipts[0] == s.receipt;
        assert r.receipts[1..] == RunCalls(s.ps, s.w, calls[1..]).receipts;
        NoStraysUnlessCancelled(s.ps, s.w, calls[1..]);
      }
    }
  }

  /** Even with cancellations, all endpoint fields stay functions of the history and the cache stays
      in order. */
  lemma {:induction false} AlwaysTracked(ps: Producer, w: World, calls: seq<Call>)
    requires Ready(ps) && Tracked(ps, w)
    ensures Callable(ps)
    ensures var r := RunCalls(ps, w, calls); Tracked(r.ps, r.w) && (WellFormed(w.pool) ==> WellFormed(r.w.pool))
    decreases calls
  {
    hide Send, Replay, TopicOf, Mirrors, OthersKept, Delivered, AllFaithful, RouterOk, WellFormed;
    CallableReady(ps);
    if calls != [] {
      var s := Send(ps, w, calls[0]);
      SendStep(ps, w, calls[0]);
      SendTracks(ps, w, calls[0]);
      AlwaysTracked(s.ps, s.w, calls[1..]);
    }
  }

  /** One call of either send operation: its cost, its end, and its failures.  With m the effective
      `max_retries` and e the recreations that succeeded during the call, see `WithinBudget`; with
      (e+1)(7m+6) replies and nobody cancelling, the call ends; a retryable error escapes only by
      exhaustion with a failed lookup, or out of a `create` that used up its tries. */
  lemma CallAccount(ps: Producer, w: World, call: Call) returns (start: seq<Event>, w1: World)
    requires Ready(ps)
    ensures Callable(ps)
    ensures var r := Send(ps, w, call);
            var m, e := RetryOf(ps.config.options).maxRetries, r.receipt.recreations;
            var t := TopicOf(ps.config, r.receipt.partition);
            && WithinBudget(Seen(w, t), Seen(r.w, t), m, 0, e)
            && (NoInterrupt(w.script) && |w.script| >= (e + 1) * (7 * m + 6) ==> !r.receipt.out.Cancelled?)
    ensures var r := Send(ps, w, call);
            var t := TopicOf(ps.config, r.receipt.partition);
            var retry := RetryOf(ps.config.options);
            r.receipt.out.Raised? && retry.IsRetryable(r.receipt.out.error) ==>
              && w.trace <= start
              && (start == w.trace || Failures.EndsInCreate(start, t))
              && (|| Failures.Exhausted(start, r.w.trace, t, retry, r.receipt.out.error)
                  || (&& w.trace <= w1.trace <= r.w.trace && Failures.EndsInCreate(r.w.trace, t)
                      && Seen(r.w, t).registers - Seen(w1, t).registers == retry.maxRetries + 1))
  {
    hide SendLoop, Replay, WithinBudget, Failures.Exhausted, Failures.EndsInCreate, RetryOf, Width, TopicOf;
    hide Router.KeyRoute, SumLow, SumHigh;
    PartitionInRange(ps, call.key);
    var p := SelectPartition(ps, call.key).0;
    assert ReadyAt(ps, p);
    var ep, retry, body := ps.producers[p], RetryOf(ps.config.options), BodyOf(call);
    SendBudget(ep, w, body, retry, 0);
    if NoInterrupt(w.script) {
      SendEnds(ep, w, body, retry);
    }
    start, w1 := Failures.WhySendFails(ep, w, body, retry, 0, w.trace);
  }

  lemma SendStampsStep(ps: Producer, w: World, call: Call, from: nat)
    requires Ready(ps) && WellStamped(ps, w, from)
    ensures Callable(ps)
    ensures var r := Send(ps, w, call); WellStamped(r.ps, r.w, from)
  {
    hide SendLoop, Replay, AllFaithful, WellFormed, Delivered, TopicOf, Width, WellLabelled, RetryOf, Router.KeyRoute;
    PartitionInRange(ps, call.key);
    SendStep(ps, w, call);
    var r := Send(ps, w, call);
    var p := r.receipt.partition;
    assert ReadyAt(ps, p);
    SendStamps(ps.producers[p], w, BodyOf(call), RetryOf(ps.config.options), 0, from);
    forall i | 0 <= i < |r.ps.producers|
      ensures WellLabelled(r.ps.producers[i], r.w, from)
    {
      assert ReadyAt(ps, i) && WellLabelled(ps.producers[i], w, from);
      if i != p {
        OtherPartition(ps, w, call, i);
        ElsewhereKeeps(ps.producers[i], w, r.w, from);
      }
    }
  }

  /** Every message of a run bears its producer's name and exactly the schema that the registry's
      answers up to its publication amount to, one wherever there is a reference; so it is across
      recreations, failed recreations and cancellations. */
  lemma {:induction false} RunStamps(ps: Producer, w: World, calls: seq<Call>, from: nat)
    requires Ready(ps) && WellStamped(ps, w, from)
    ensures Callable(ps)
    ensures var r := RunCalls(ps, w, calls); WellStamped(r.ps, r.w, from)
    decreases calls
  {
    hide Send, Replay, TopicOf, OthersKept, Delivered, AllFaithful, RouterOk, Mirrors, WellStamped;
    CallableReady(ps);
    if calls != [] {
      var s := Send(ps, w, calls[0]);
      SendStep(ps, w, calls[0]);
      SendStampsStep(ps, w, calls[0], from);
      RunStamps(s.ps, s.w, calls[1..], from);
    }
  }

  lemma {:induction false} CallsExtend(ps: Producer, w: World, calls: seq<Call>)
    requires Ready(ps)
    ensures Callable(ps) && w.trace <= RunCalls(ps, w, calls).w.trace
    decreases calls
  {
    hide Send, Replay, TopicOf, OthersKept, Delivered, AllFaithful, RouterOk, Mirrors;
    CallableReady(ps);
    if calls != [] {
      SendStep(ps, w, calls[0]);
      CallsExtend(Send(ps, w, calls[0]).ps, Send(ps, w, calls[0]).w, calls[1..]);
    }
  }
}
