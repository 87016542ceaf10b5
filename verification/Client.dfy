/** The shared client object: the services every endpoint talks through.  `script` is the
    environment's side of all conversations and `trace` records them. */
module Client {
  import opened Wire
  import opened Connections
  import opened Network

  class DanubeClient {
    const settings: Settings
    const manager: ConnectionManager
    var script: seq<Reply>
    ghost var trace: seq<Event>

    constructor (settings: Settings, manager: ConnectionManager, script: seq<Reply>)
      ensures this.settings == settings && this.manager == manager
      ensures Now() == World(settings, script, [], manager.State())
    {
      this.settings := settings;
      this.manager := manager;
      this.script := script;
      trace := [];
    }

    ghost function Now(): World
      reads this, manager
    {
      World(settings, script, trace, manager.State())
    }

    /** `int(time.time() * 1000)`. */
    method Time() returns (now: nat)
      ensures now == Clock(Now())
    {
      now := if script == [] then CUT.clock else script[0].clock;
    }

    /** Await the answer to `q`. */
    method Await(q: Request) returns (reply: Reply)
      modifies this
      ensures Issued(reply, Now()) == Issue(old(Now()), q)
    {
      if script == [] {
        reply := CUT;
      } else {
        reply := script[0];
        script := script[1..];
      }
      trace := trace + [Event(q, reply)];
    }
  }
}
