/** Among any number of interleaved calls, each one by itself holds the conversation of `Conversation`:
    what it asks next and how it ends depends on its own answers alone. */
module ConcurrentConversations {
  import opened Wire
  import opened Retry
  import opened Network
  import opened Endpoint
  import opened EndpointHistory
  import opened ProducerModel
  import opened ProducerRuns
  import opened SendTask
  import opened Conversation
  import opened SendConversation
  import opened ConcurrentSends

  /** The requests and answers of caller `i` among the first `k` answers. */
  function Own(s: System, n: nat, i: nat, k: nat): seq<Event>
    requires k <= |s.turns| && n + k <= |s.w.trace|
  {
    if k == 0 then []
    else Own(s, n, i, k - 1) + if s.turns[k - 1] == i then [s.w.trace[n + k - 1]] else []
  }

  /** What call `i` is about. */
  function CallTerms(s: System, i: nat): Terms
    requires i < |s.callers|
  {
    Terms(RetryOf(s.ps.config.options), s.ps.config.schemaRef, Some(Record(s.callers[i].call)))
  }

  ghost predicate CallerConverses(s: System, n: nat, i: nat)
    requires n + |s.turns| == |s.w.trace| && i < |s.callers| && s.callers[i].partition < |s.ps.producers|
  {
    var c := s.callers[i];
    Conversing(Own(s, n, i, |s.turns|), c.wait, s.ps.producers[c.partition], CallTerms(s, i))
  }

  ghost predicate AllConverse(s: System, n: nat)
    requires Kept(s, n)
  {
    forall i :: 0 <= i < |s.callers| ==> CallerFits(s, i) && CallerConverses(s, n, i)
  }

  /** Earlier turns stay what they were. */
  lemma {:induction false} OwnStays(s: System, s': System, n: nat, i: nat, k: nat)
    requires k <= |s.turns| && n + k <= |s.w.trace|
    requires s.turns <= s'.turns && s.w.trace <= s'.w.trace
    ensures Own(s', n, i, k) == Own(s, n, i, k)
    decreases k
  {
    if k > 0 {
      OwnStays(s, s', n, i, k - 1);
    }
  }

  /** One more turn. */
  lemma OwnTurn(s: System, s': System, n: nat, i: nat, e: Event, j: nat)
    requires n + |s.turns| == |s.w.trace| && s'.turns == s.turns + [i] && s'.w.trace == s.w.trace + [e]
    ensures Own(s', n, j, |s'.turns|) == if j == i then Own(s, n, j, |s.turns|) + [e] else Own(s, n, j, |s.turns|)
  {
    OwnStays(s, s', n, j, |s.turns|);
  }

  lemma {:induction false} OwnNothing(s: System, n: nat, i: nat, k: nat)
    requires k <= |s.turns| && n + k <= |s.w.trace| && forall j :: 0 <= j < k ==> s.turns[j] != i
    ensures Own(s, n, i, k) == []
    decreases k
  {
    if k > 0 {
      OwnNothing(s, n, i, k - 1);
    }
  }

  /** Another call may have changed the endpoint's fields. */
  lemma ConversingStill(h: seq<Event>, wait: Wait, ep: Endpoint, ep': Endpoint, t: Terms)
    requires Conversing(h, wait, ep, t) && EndpointKept(ep, ep') && t.body.Some?
    ensures Conversing(h, wait, ep', t)
  {
    hide InOrder, React, Fulfils, Tries, Attempts, AssignedId;
  }

  lemma EnterConverses(s: System, n: nat, call: Call)
    requires Kept(s, n) && AllConverse(s, n)
    ensures Kept(Next(s, Enter(call)), n) && AllConverse(Next(s, Enter(call)), n)
  {
    hide AwaitPublish, Conversing, WaitFits, PlaceFits, TopicOf, NameOf, RetryOf, BodyOf;
    hide Record, Ready, TurnFaithful;
    EnterKept(s, n, call);
    ReadySelected(s.ps, call.key);
    BodyIsRecord(call);
    var p, retry := SelectPartition(s.ps, call.key).0, RetryOf(s.ps.config.options);
    ReadyEndpoint(s.ps, p);
    SameReference(s.ps, p);
    var ep, s' := s.ps.producers[p], Next(s, Enter(call));
    PublishWaits(ep, s.w, BodyOf(call), retry, 0);
    BeginConverses(ep, s.w, BodyOf(call));
    var t := AwaitPublish(ep, s.w, BodyOf(call), 0);
    forall i | 0 <= i < |s'.callers|
      ensures CallerFits(s', i) && CallerConverses(s', n, i)
    {
      assert CallerFits(s', i);
      if i < |s.callers| {
        assert CallerFits(s, i) && CallerConverses(s, n, i);
        OwnStays(s, s', n, i, |s.turns|);
        var c := s.callers[i];
        if c.partition == p {
          ConversingStill(Own(s, n, i, |s.turns|), c.wait, ep, t.ep, CallTerms(s, i));
        }
      } else {
        forall j | 0 <= j < |s'.turns|
          ensures s'.turns[j] != i
        {
          TurnInRange(s, n, j);
        }
        OwnNothing(s', n, i, |s'.turns|);
      }
    }
  }

  lemma SameReference(ps: Producer, p: nat)
    requires Ready(ps) && p < |ps.producers|
    ensures ps.producers[p].schemaRef == ps.config.schemaRef
  {
    hide TopicOf, NameOf;
    assert ReadyAt(ps, p);
  }

  lemma AnswerConverses(s: System, n: nat, i: nat)
    requires Kept(s, n) && AllConverse(s, n)
    ensures Kept(Next(s, Answer(i)), n) && AllConverse(Next(s, Answer(i)), n)
  {
    hide SendTask.Resume, Conversing, WaitFits, PlaceFits, TopicOf, NameOf, RetryOf, BodyOf;
    hide Record, Ready, TurnFaithful;
    hide Replay, Led, Asked, Own;
    AnswerKept(s, n, i);
    if i < |s.callers| && s.callers[i].wait.Awaiting? {
      var s', c, retry := Next(s, Answer(i)), s.callers[i], RetryOf(s.ps.config.options);
      assert CallerFits(s, i) && CallerOk(s, i) && CallerConverses(s, n, i);
      BodyIsRecord(c.call);
      var ep, a := s.ps.producers[c.partition], Issue(s.w, c.wait.request);
      ReadyEndpoint(s.ps, c.partition);
      SameReference(s.ps, c.partition);
      ResumeTurn(ep, c.wait, a.reply, a.w, BodyOf(c.call), retry);
      var t := SendTask.Resume(c.wait.place, a.reply, ep, a.w, BodyOf(c.call), retry);
      var h, e := Own(s, n, i, |s.turns|), Event(c.wait.request, a.reply);
      IsAsked(Turn(c.wait, ep, s.w), e, BodyOf(c.call), h, CallTerms(s, i));
      ResumeLed(ep, a.w, c.wait.place, e, BodyOf(c.call), h, CallTerms(s, i));
      Goes(h, c.wait, ep, e, t, CallTerms(s, i));
      forall j | 0 <= j < |s'.callers|
        ensures CallerFits(s', j) && CallerConverses(s', n, j)
      {
        assert CallerFits(s', j) && CallerFits(s, j) && CallerConverses(s, n, j);
        OwnTurn(s, s', n, i, e, j);
        var d := s.callers[j];
        if j != i && d.partition == c.partition {
          ConversingStill(Own(s, n, j, |s.turns|), d.wait, ep, t.ep, CallTerms(s, j));
        }
      }
    }
  }

  lemma {:induction false} PerformConverses(s: System, n: nat, acts: seq<Act>)
    requires Kept(s, n) && AllConverse(s, n)
    ensures AllConverse(Perform(s, n, acts), n)
    decreases |acts|
  {
    hide Next, AllConverse, Sound, CallerOk, TurnFaithful, ReturnFaithful;
    if acts != [] {
      NextKept(s, n, acts[0]);
      match acts[0] {
        case Enter(call) => EnterConverses(s, n, call);
        case Answer(i) => AnswerConverses(s, n, i);
      }
      PerformConverses(Next(s, acts[0]), n, acts[1..]);
    }
  }

  /** In every interleaving: the requests and answers of each call follow the rules of a call alone, and
      if it has ended, it has ended as they say. */
  lemma ConcurrentCallsConverse(ps: Producer, w: World, acts: seq<Act>)
    requires Ready(ps)
    ensures Kept(Idle(ps, w), |w.trace|)
    ensures var n, s := |w.trace|, Perform(Idle(ps, w), |w.trace|, acts);
            forall i :: 0 <= i < |s.callers| ==>
              var h := Own(s, n, i, |s.turns|);
              && InOrder(h, CallTerms(s, i))
              && (s.callers[i].wait.Ended? ==> Converses(h, CallTerms(s, i), s.callers[i].wait.out))
  {
    hide Next, Sound, CallerOk, TurnFaithful, ReturnFaithful, React, InOrder, Fulfils, PlaceTells, PlaceFits;
    IdleKept(ps, w);
    var n, s := |w.trace|, Perform(Idle(ps, w), |w.trace|, acts);
    PerformConverses(Idle(ps, w), n, acts);
    forall i | 0 <= i < |s.callers|
      ensures var h := Own(s, n, i, |s.turns|);
              && InOrder(h, CallTerms(s, i))
              && (s.callers[i].wait.Ended? ==> Converses(h, CallTerms(s, i), s.callers[i].wait.out))
    {
      assert CallerFits(s, i) && CallerConverses(s, n, i);
    }
  }
}
