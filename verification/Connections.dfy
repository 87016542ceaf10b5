/** danube/connection_manager.py: the cache of gRPC channels. */
module Connections {

  /** The dictionary key; `proxy` is derived from the two URLs. */
  datatype Key = Key(connectUrl: string, brokerUrl: string, proxy: bool)

  datatype Channel = Channel(target: string, secure: bool)

  /** The manager's state.  A channel handle is its position in order of creation. */
  datatype Pool = Pool(secure: bool, connections: map<Key, nat>, channels: seq<Channel>)

  datatype Opened = Opened(channel: nat, pool: Pool)

  function KeyOf(brokerUrl: string, connectUrl: string): Key {
    Key(connectUrl, brokerUrl, brokerUrl != connectUrl)
  }

  function StripScheme(url: string): string {
    if "https://" <= url then url[8..]
    else if "http://" <= url then url[7..]
    else url
  }

  function Connect(pool: Pool, brokerUrl: string, connectUrl: string): (r: Opened)
    ensures Grows(pool, r.pool) && HandleIs(r.pool, brokerUrl, connectUrl, r.channel)
  {
    var key := KeyOf(brokerUrl, connectUrl);
    if key in pool.connections then Opened(pool.connections[key], pool)
    else
      var handle := |pool.channels|;
      Opened(handle, pool.(connections := pool.connections[key := handle],
                           channels := pool.channels + [Channel(StripScheme(connectUrl), pool.secure)]))
  }

  /** `target` is `url` without the scheme, if it has one of the two. */
  predicate SchemeOff(url: string, target: string) {
    || url == "https://" + target
    || url == "http://" + target
    || (url == target && !("https://" <= url) && !("http://" <= url))
  }

  /** The dial target is the connect URL without its scheme, and there is only one such string. */
  lemma StripSchemeExactly(url: string, target: string)
    ensures StripScheme(url) == target <==> SchemeOff(url, target)
  {
    assert "https://" <= url ==> url == "https://" + url[8..];
    assert "http://" <= url ==> url == "http://" + url[7..];
    assert "https://" <= url ==> url[4] == 's';
    assert "http://" <= url ==> url[4] == ':';
    assert url == "https://" + target ==> url[8..] == target;
    assert url == "http://" + target ==> url[7..] == target;
  }

  /** Distinct keys own distinct channels, and a key's channel leads to its connect URL. */
  ghost predicate WellFormed(pool: Pool) {
    && (forall k :: k in pool.connections ==>
          && pool.connections[k] < |pool.channels|
          && k.proxy == (k.brokerUrl != k.connectUrl)
          && pool.channels[pool.connections[k]] == Channel(StripScheme(k.connectUrl), pool.secure))
    && (forall j, k :: j in pool.connections && k in pool.connections && pool.connections[j] == pool.connections[k]
          ==> j == k)
    && |pool.channels| == |pool.connections|
  }

  ghost predicate HandleIs(pool: Pool, brokerUrl: string, connectUrl: string, channel: nat) {
    KeyOf(brokerUrl, connectUrl) in pool.connections && pool.connections[KeyOf(brokerUrl, connectUrl)] == channel
  }

  /** Nothing is ever closed, replaced or rebound. */
  ghost predicate Grows(pool: Pool, later: Pool) {
    && pool.secure == later.secure
    && pool.channels <= later.channels
    && forall k :: k in pool.connections ==> k in later.connections && later.connections[k] == pool.connections[k]
  }

  lemma GrowsTransitive(a: Pool, b: Pool, c: Pool)
    requires Grows(a, b) && Grows(b, c)
    ensures Grows(a, c)
  {
  }

  lemma HandleKept(pool: Pool, later: Pool, brokerUrl: string, connectUrl: string, channel: nat)
    requires Grows(pool, later) && HandleIs(pool, brokerUrl, connectUrl, channel)
    ensures HandleIs(later, brokerUrl, connectUrl, channel)
  {
  }

  /** Any number of callers of `get_connection`, in the order in which they got the lock. */
  function OpenAll(pool: Pool, calls: seq<(string, string)>): (seq<nat>, Pool)
    decreases calls
  {
    if calls == [] then ([], pool)
    else
      var first := Connect(pool, calls[0].0, calls[0].1);
      var rest := OpenAll(first.pool, calls[1..]);
      ([first.channel] + rest.0, rest.1)
  }

  lemma ConnectWellFormed(pool: Pool, brokerUrl: string, connectUrl: string)
    requires WellFormed(pool)
    ensures WellFormed(Connect(pool, brokerUrl, connectUrl).pool)
  {
  }

  lemma {:induction false} OpenAllWellFormed(pool: Pool, calls: seq<(string, string)>)
    requires WellFormed(pool)
    ensures WellFormed(OpenAll(pool, calls).1)
    decreases calls
  {
    if calls != [] {
      ConnectWellFormed(pool, calls[0].0, calls[0].1);
      OpenAllWellFormed(Connect(pool, calls[0].0, calls[0].1).pool, calls[1..]);
    }
  }

  /** Every handle handed out remains the handle of its pair. */
  lemma {:induction false} HandlesStay(pool: Pool, calls: seq<(string, string)>)
    ensures var r := OpenAll(pool, calls);
            && Grows(pool, r.1) && |r.0| == |calls|
            && forall i :: 0 <= i < |calls| ==> HandleIs(r.1, calls[i].0, calls[i].1, r.0[i])
    decreases calls
  {
    if calls != [] {
      var first := Connect(pool, calls[0].0, calls[0].1);
      var rest := calls[1..];
      HandlesStay(first.pool, rest);
      var r := OpenAll(first.pool, rest);
      GrowsTransitive(pool, first.pool, r.1);
      HandleKept(first.pool, r.1, calls[0].0, calls[0].1, first.channel);
      forall i | 0 <= i < |calls|
        ensures HandleIs(r.1, calls[i].0, calls[i].1, ([first.channel] + r.0)[i])
      {
        assert i > 0 ==> calls[i] == rest[i - 1];
      }
    }
  }

  /** The cache is an injective function of (broker_url, connect_url): two calls get the same
      channel exactly when they name the same pair. */
  lemma SameChannelIffSamePair(pool: Pool, calls: seq<(string, string)>, i: nat, j: nat)
    requires WellFormed(pool) && i < |calls| && j < |calls|
    ensures |OpenAll(pool, calls).0| == |calls|
    ensures OpenAll(pool, calls).0[i] == OpenAll(pool, calls).0[j] <==> calls[i] == calls[j]
  {
    OpenAllWellFormed(pool, calls);
    HandlesStay(pool, calls);
    assert HandleIs(OpenAll(pool, calls).1, calls[i].0, calls[i].1, OpenAll(pool, calls).0[i]);
    assert HandleIs(OpenAll(pool, calls).1, calls[j].0, calls[j].1, OpenAll(pool, calls).0[j]);
  }

  /** From an empty cache, exactly one channel per distinct pair is ever created. */
  lemma OneChannelPerPair(secure: bool, calls: seq<(string, string)>)
    ensures var r := OpenAll(Pool(secure, map[], []), calls);
            |r.1.channels| == |set c <- calls :: KeyOf(c.0, c.1)|
  {
    var empty := Pool(secure, map[], []);
    OpenAllWellFormed(empty, calls);
    KeysOpened(empty, calls);
    var r := OpenAll(empty, calls);
    assert r.1.connections.Keys == set c <- calls :: KeyOf(c.0, c.1);
    assert |r.1.connections.Keys| == |r.1.connections|;
  }

  lemma {:induction false} KeysOpened(pool: Pool, calls: seq<(string, string)>)
    ensures OpenAll(pool, calls).1.connections.Keys
         == pool.connections.Keys + set c <- calls :: KeyOf(c.0, c.1)
    decreases calls
  {
    if calls != [] {
      var first := Connect(pool, calls[0].0, calls[0].1);
      KeysOpened(first.pool, calls[1..]);
      assert calls == [calls[0]] + calls[1..];
    }
  }

  class ConnectionManager {
    const secure: bool
    var connections: map<Key, nat>
    var channels: seq<Channel>

    ghost function State(): Pool
      reads this
    {
      Pool(secure, connections, channels)
    }

    constructor (secure: bool)
      ensures State() == Pool(secure, map[], [])
    {
      this.secure := secure;
      connections := map[];
      channels := [];
    }

    method GetConnection(brokerUrl: string, connectUrl: string) returns (channel: nat)
      modifies this
      ensures Opened(channel, State()) == Connect(old(State()), brokerUrl, connectUrl)
    {
      var proxy := brokerUrl != connectUrl;
      var key := Key(connectUrl, brokerUrl, proxy);
      if key in connections {
        return connections[key];
      }
      var target := CreateChannel(connectUrl);
      channel := |channels|;
      channels := channels + [Channel(target, secure)];
      connections := connections[key := channel];
    }

    /** Strips at most one scheme from the URL. */
    method CreateChannel(connectUrl: string) returns (target: string)
      ensures target == StripScheme(connectUrl)
      ensures SchemeOff(connectUrl, target)
    {
      StripSchemeExactly(connectUrl, StripScheme(connectUrl));
      target := connectUrl;
      var prefixes := ["https://", "http://"];
      for i := 0 to |prefixes|
        invariant target == connectUrl
        invariant i > 0 ==> !("https://" <= connectUrl)
        invariant i > 1 ==> !("http://" <= connectUrl)
      {
        if prefixes[i] <= target {
          target := target[|prefixes[i]|..];
          break;
        }
      }
    }
  }
}
