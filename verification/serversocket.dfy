/**
 * The server-side socket layer of src/server/socket.ts: the `SocketHandler`
 * fan-out, the state-listener wrappers and their binder, `ResolverProperty`
 * and `Server` (membership, packet routing, sending).
 *
 * The transport calls the handler; the handler forwards each event to every
 * attached listener. A listener is identified by the object that attached it,
 * and the fan-out returns the (listener, event) deliveries in order. The
 * listener the Server attaches is the Server's own `Connect`, `Disconnect`
 * and `OnPacket`.
 */
module ServerSocket {
  import opened Options
  import opened Framing
  import opened Resolvers
  import opened Addressing

  datatype Event = ConnectEvent(client: Client) | DisconnectEvent(client: Client) | PacketEvent(packet: DataPacket)

  datatype Delivery = Delivery(listener: object, event: Event)

  class SocketHandler {
    var listeners: seq<object>
    const out: Sink

    constructor(out: Sink)
      ensures listeners == [] && this.out == out
    {
      listeners := [];
      this.out := out;
    }

    method Attach(listener: object)
      modifies this
      ensures listeners == old(listeners) + [listener]
    {
      listeners := listeners + [listener];
    }

    /** Forwards one event to every listener, in attach order. */
    method FanOut(event: Event) returns (deliveries: seq<Delivery>)
      ensures |deliveries| == |listeners|
      ensures forall i :: 0 <= i < |listeners| ==> deliveries[i] == Delivery(listeners[i], event)
    {
      deliveries := [];
      for i := 0 to |listeners|
        invariant |deliveries| == i
        invariant forall k :: 0 <= k < i ==> deliveries[k] == Delivery(listeners[k], event)
      {
        deliveries := deliveries + [Delivery(listeners[i], event)];
      }
    }

    method Connect(client: Client) returns (deliveries: seq<Delivery>)
      ensures |deliveries| == |listeners|
      ensures forall i :: 0 <= i < |listeners| ==> deliveries[i] == Delivery(listeners[i], ConnectEvent(client))
    {
      deliveries := FanOut(ConnectEvent(client));
    }

    method Disconnect(client: Client) returns (deliveries: seq<Delivery>)
      ensures |deliveries| == |listeners|
      ensures forall i :: 0 <= i < |listeners| ==> deliveries[i] == Delivery(listeners[i], DisconnectEvent(client))
    {
      deliveries := FanOut(DisconnectEvent(client));
    }

    method Packet(client: Client, data: seq<byte>) returns (deliveries: seq<Delivery>)
      ensures |deliveries| == |listeners|
      ensures forall i :: 0 <= i < |listeners| ==>
        deliveries[i] == Delivery(listeners[i], PacketEvent(DataPacket(client, data)))
    {
      deliveries := FanOut(PacketEvent(DataPacket(client, data)));
    }
  }

  /** `ResolverStateWrapper`: a box holding the current state listener, shared by reference. */
  class StateWrapper {
    var listener: Callback

    constructor()
      ensures listener == NoOp
    {
      listener := NoOp;
    }
  }

  /** Rebinds the listener inside a wrapper the Server also holds. */
  class ResolverStateBinder {
    const wrapper: StateWrapper

    constructor(wrapper: StateWrapper)
      ensures this.wrapper == wrapper
    {
      this.wrapper := wrapper;
    }

    method Do(callback: Callback)
      modifies wrapper
      ensures wrapper.listener == callback
    {
      wrapper.listener := callback;
    }

    method Ignore()
      modifies wrapper
      ensures wrapper.listener == NoOp
    {
      wrapper.listener := NoOp;
    }
  }

  class ResolverProperty {
    const manager: ResolverManager
    const openListener: StateWrapper
    const closeListener: StateWrapper

    constructor(manager: ResolverManager, openListener: StateWrapper, closeListener: StateWrapper)
      ensures this.manager == manager && this.openListener == openListener && this.closeListener == closeListener
    {
      this.manager := manager;
      this.openListener := openListener;
      this.closeListener := closeListener;
    }

    method System(raw: SubSpec) returns (binder: ResolverBinder)
      ensures fresh(binder)
      ensures binder.manager == manager && binder.main == SystemChannel && binder.subs == SubArray(raw)
    {
      binder := new ResolverBinder(manager, SystemChannel, SubArray(raw));
    }

    method Game(raw: SubSpec) returns (binder: ResolverBinder)
      ensures fresh(binder)
      ensures binder.manager == manager && binder.main == GameChannel && binder.subs == SubArray(raw)
    {
      binder := new ResolverBinder(manager, GameChannel, SubArray(raw));
    }

    method Debug(raw: SubSpec) returns (binder: ResolverBinder)
      ensures fresh(binder)
      ensures binder.manager == manager && binder.main == DebugChannel && binder.subs == SubArray(raw)
    {
      binder := new ResolverBinder(manager, DebugChannel, SubArray(raw));
    }

    /** `open`: a binder over the Server's own open-listener wrapper. */
    method Open() returns (binder: ResolverStateBinder)
      ensures fresh(binder) && binder.wrapper == openListener
    {
      binder := new ResolverStateBinder(openListener);
    }

    method Close() returns (binder: ResolverStateBinder)
      ensures fresh(binder) && binder.wrapper == closeListener
    {
      binder := new ResolverStateBinder(closeListener);
    }
  }

  /** A state listener's invocation: which callback ran, for which client, and the live set it saw. */
  datatype StateCall = StateCall(listener: Callback, client: Client, live: seq<Client>)

  class Server {
    const out: Sink
    const clients: ClientSet
    const manager: ResolverManager
    const openListener: StateWrapper
    const closeListener: StateWrapper

    constructor(handler: SocketHandler)
      modifies handler
      ensures handler.listeners == old(handler.listeners) + [this]
      ensures out == handler.out
      ensures fresh(clients) && fresh(manager) && fresh(openListener) && fresh(closeListener)
      ensures clients.members == [] && manager.resolvers == []
      ensures openListener.listener == NoOp && closeListener.listener == NoOp
    {
      out := handler.out;
      clients := new ClientSet();
      manager := new ResolverManager();
      openListener := new StateWrapper();
      closeListener := new StateWrapper();
      new;
      handler.Attach(this);
    }

    /** The listener's `connect`: the client joins the live set before the open listener runs. */
    method Connect(client: Client) returns (call: StateCall)
      modifies clients
      ensures clients.members == if client in old(clients.members) then old(clients.members) else old(clients.members) + [client]
      ensures call == StateCall(openListener.listener, client, clients.members)
      ensures client in call.live
    {
      clients.Add(client);
      call := StateCall(openListener.listener, client, clients.members);
    }

    /** The listener's `disconnect`: the client leaves the live set before the close listener runs. */
    method Disconnect(client: Client) returns (call: StateCall)
      modifies clients
      ensures clients.members == Without(old(clients.members), client)
      ensures call == StateCall(closeListener.listener, client, clients.members)
      ensures client !in call.live
    {
      clients.Delete(client);
      call := StateCall(closeListener.listener, client, clients.members);
    }

    /**
     * `onPacket`: a frame under two bytes is dropped; otherwise the registry
     * is called with the header's (main, sub), and each invoked receiver gets
     * the packet (client, data).
     */
    method OnPacket(client: Client, data: seq<byte>) returns (invoked: seq<Callback>)
      ensures ServerRoute(data).None? ==> invoked == []
      ensures ServerRoute(data).Some? ==>
        invoked == Matching(manager.resolvers, ServerRoute(data).value.main, ServerRoute(data).value.sub)
    {
      if |data| < 2 {
        return [];
      }
      var header := Header(data[0], data[1]);
      var main := MainOf(header) as int;
      var sub := SubOf(header) as int;
      invoked := manager.Call(main, sub);
    }

    method Send(data: seq<byte>) returns (selector: SendSelector)
      ensures fresh(selector) && fresh(selector.property)
      ensures selector.data == data && selector.out == out && selector.property.clients == clients
    {
      var property := Client();
      selector := new SendSelector(data, out, property);
    }

    /** `client`: a view over the live set itself, not a copy. */
    method Client() returns (property: ClientProperty)
      ensures fresh(property) && property.clients == clients
    {
      property := new ClientProperty(clients);
    }

    /** `on`: a property over the Server's own registry and listener wrappers. */
    method On() returns (property: ResolverProperty)
      ensures fresh(property)
      ensures property.manager == manager
      ensures property.openListener == openListener && property.closeListener == closeListener
    {
      property := new ResolverProperty(manager, openListener, closeListener);
    }
  }

  /**
   * Binding `on.open` reaches the Server: the wrapper is shared, so the next
   * connect runs the new callback.
   */
  method OpenBindingReachesConnect(server: Server, callback: Callback, client: Client) returns (call: StateCall)
    modifies server.openListener, server.clients
    ensures call.listener == callback && call.client == client && client in call.live
  {
    var property := server.On();
    var binder := property.Open();
    binder.Do(callback);
    call := server.Connect(client);
  }

  /** A packet framed for a bound game sub reaches exactly the bound receiver. */
  method BoundPacketIsDelivered(server: Server, sub: int, callback: Callback, client: Client) returns (invoked: seq<Callback>)
    requires server.manager.Valid()
    requires 0 <= sub < 4096
    modifies server.manager
    ensures invoked == [callback]
  {
    var property := server.On();
    var binder := property.Game(OneSub(sub));
    binder.Do(callback);
    UpsertAllLookup(old(server.manager.resolvers), GameChannel, [sub], callback);
    invoked := server.OnPacket(client, Frame(Route(GameChannel, sub)));
    MatchingIsLookup(server.manager.resolvers, GameChannel, sub);
    LookupUnique(server.manager.resolvers, GameChannel, sub, callback);
  }
}
