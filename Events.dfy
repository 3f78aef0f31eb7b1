/**
 * The event channel: an ordered list of connections, each with a callback and
 * a `connected` flag. Callbacks are identified by an id; running them is not
 * modelled, so `Fire` returns the ids it would invoke, in order.
 */
module Events {
  type CallbackId = nat

  /** One entry of a channel; it is also the handle whose `Disconnect` the caller keeps. */
  class Connection {
    const owner: TweenEvent
    const callback: CallbackId
    var connected: bool

    constructor (owner: TweenEvent, callback: CallbackId)
      ensures this.owner == owner && this.callback == callback && connected
    {
      this.owner := owner;
      this.callback := callback;
      connected := true;
    }

    /** Clears the flag, then keeps only the connected entries of the channel. */
    method Disconnect()
      requires owner.Valid()
      modifies this, owner
      ensures !connected && owner.Valid()
      ensures owner.connections == Without(old(owner.connections), this)
    {
      connected := false;
      StillConnectedDropsOne(owner.connections, this);
      owner.connections := StillConnected(owner.connections);
      WithoutKeepsOthers(old(owner.connections), this);
    }
  }

  /** The callbacks of the connected entries, in subscription order. */
  function Invoked(cs: seq<Connection>): (r: seq<CallbackId>)
    reads cs
    ensures |r| == |StillConnected(cs)|
  {
    if cs == [] then []
    else Invoked(cs[..|cs| - 1]) + (if cs[|cs| - 1].connected then [cs[|cs| - 1].callback] else [])
  }

  /** `connections.filter(conn => conn.connected)`. */
  function StillConnected(cs: seq<Connection>): (r: seq<Connection>)
    reads cs
    ensures |r| <= |cs|
    ensures forall k :: 0 <= k < |r| ==> r[k].connected
    ensures (forall k :: 0 <= k < |cs| ==> cs[k].connected) ==> r == cs
  {
    if cs == [] then []
    else StillConnected(cs[..|cs| - 1]) + (if cs[|cs| - 1].connected then [cs[|cs| - 1]] else [])
  }

  /** `fire` calls, position by position, the callbacks of the entries `filter` would keep. */
  lemma {:induction false} InvokedFollowsStillConnected(cs: seq<Connection>)
    ensures forall k :: 0 <= k < |Invoked(cs)| ==> Invoked(cs)[k] == StillConnected(cs)[k].callback
  {
    if cs != [] {
      InvokedFollowsStillConnected(cs[..|cs| - 1]);
    }
  }

  /** The list with every occurrence of one connection removed, order kept. */
  function Without(cs: seq<Connection>, c: Connection): seq<Connection> {
    if cs == [] then []
    else Without(cs[..|cs| - 1], c) + (if cs[|cs| - 1] == c then [] else [cs[|cs| - 1]])
  }

  /** When every other entry is connected, filtering removes exactly the disconnected one. */
  lemma {:induction false} StillConnectedDropsOne(cs: seq<Connection>, c: Connection)
    requires !c.connected
    requires forall d :: d in cs && d != c ==> d.connected
    ensures StillConnected(cs) == Without(cs, c)
  {
    if cs != [] {
      var front := cs[..|cs| - 1];
      assert forall d :: d in front ==> d in cs;
      StillConnectedDropsOne(front, c);
    }
  }

  /** Removing a connection keeps exactly the other entries. */
  lemma {:induction false} WithoutKeepsOthers(cs: seq<Connection>, c: Connection)
    ensures forall d :: d in Without(cs, c) <==> d in cs && d != c
  {
    if cs != [] {
      var front := cs[..|cs| - 1];
      WithoutKeepsOthers(front, c);
      assert cs == front + [cs[|cs| - 1]];
    }
  }

  class TweenEvent {
    var connections: seq<Connection>

    /** Every entry belongs to this channel and is still connected. */
    ghost predicate Valid()
      reads this, connections
    {
      forall c :: c in connections ==> c.owner == this && c.connected
    }

    constructor ()
      ensures Valid() && connections == []
    {
      connections := [];
    }

    /** The callbacks `fire` invokes, in subscription order. */
    function Listeners(): seq<CallbackId>
      reads this, connections
    {
      Invoked(connections)
    }

    /** Appends a connected entry for the callback and hands it back as the handle. */
    method Connect(callback: CallbackId) returns (c: Connection)
      requires Valid()
      modifies this
      ensures Valid() && fresh(c)
      ensures c.owner == this && c.callback == callback && c.connected
      ensures connections == old(connections) + [c]
      ensures Listeners() == old(Listeners()) + [callback]
    {
      c := new Connection(this, callback);
      connections := connections + [c];
      assert connections[..|connections| - 1] == old(connections);
    }

    /** Visits the entries in order and reports the callbacks of the connected ones. */
    method Fire() returns (invoked: seq<CallbackId>)
      ensures invoked == Listeners()
    {
      invoked := [];
      var i := 0;
      while i < |connections|
        invariant 0 <= i <= |connections|
        invariant invoked == Invoked(connections[..i])
      {
        assert connections[..i + 1][..i] == connections[..i];
        if connections[i].connected {
          invoked := invoked + [connections[i].callback];
        }
        i := i + 1;
      }
      assert connections[..i] == connections;
    }

    /** In a valid channel every entry is live, so `fire` calls all of them in subscription order. */
    lemma ValidListenersAreAll()
      requires Valid()
      ensures |Listeners()| == |connections|
      ensures forall i :: 0 <= i < |connections| ==> Listeners()[i] == connections[i].callback
    {
      AllConnectedInvoked(connections);
    }
  }

  lemma {:induction false} AllConnectedInvoked(cs: seq<Connection>)
    requires forall c :: c in cs ==> c.connected
    ensures |Invoked(cs)| == |cs|
    ensures forall i :: 0 <= i < |cs| ==> Invoked(cs)[i] == cs[i].callback
  {
    if cs != [] {
      var front := cs[..|cs| - 1];
      assert forall c :: c in front ==> c in cs;
      AllConnectedInvoked(front);
      assert cs[|cs| - 1] in cs;
    }
  }
}
