/**
 * The variant of the server in src/server/server.ts. It attaches to the
 * `SocketHandler` of src/server/socket.ts, keeps the same registry and the
 * same client addressing, has no open/close listeners, and its binder's `do`
 * accepts a list of receivers.
 *
 * Its listener's `connect`/`disconnect` are typed to receive the client id
 * itself; they are modelled as adding and removing that id.
 */
module ServerCore {
  import opened Options
  import opened Framing
  import opened Resolvers
  import opened Addressing
  import ServerSocket

  class ResolverProperty {
    const manager: ResolverManager

    constructor(manager: ResolverManager)
      ensures this.manager == manager
    {
      this.manager := manager;
    }

    method System(raw: SubSpec) returns (binder: ResolverBinder)
      ensures fresh(binder)
      ensures binder.manager == manager && binder.main == SystemChannel && binder.subs == SubArray(raw)
    {
      binder := new ResolverBinder(manager, SystemChannel, SubArray(raw));
    }

    method Game(raw: SubSpec) returns (binder: ResolverBinder)
      ensures fresh(binder)
      ensures binder.manager == manager && binder.main == GameChannel && binder.subs == SubArray(raw)
    {
      binder := new ResolverBinder(manager, GameChannel, SubArray(raw));
    }

    method Debug(raw: SubSpec) returns (binder: ResolverBinder)
      ensures fresh(binder)
      ensures binder.manager == manager && binder.main == DebugChannel && binder.subs == SubArray(raw)
    {
      binder := new ResolverBinder(manager, DebugChannel, SubArray(raw));
    }
  }

  class Server {
    const out: Sink
    const clients: ClientSet
    const manager: ResolverManager

    constructor(handler: ServerSocket.SocketHandler)
      modifies handler
      ensures handler.listeners == old(handler.listeners) + [this]
      ensures out == handler.out
      ensures fresh(clients) && fresh(manager)
      ensures clients.members == [] && manager.resolvers == []
    {
      out := handler.out;
      clients := new ClientSet();
      manager := new ResolverManager();
      new;
      handler.Attach(this);
    }

    /** `connect` only adds the id to the live set. */
    method Connect(client: Client)
      modifies clients
      ensures clients.members == if client in old(clients.members) then old(clients.members) else old(clients.members) + [client]
    {
      clients.Add(client);
    }

    /** `disconnect` only removes the id from the live set. */
    method Disconnect(client: Client)
      modifies clients
      ensures clients.members == Without(old(clients.members), client)
    {
      clients.Delete(client);
    }

    method OnPacket(client: Client, data: seq<byte>) returns (invoked: seq<Callback>)
      ensures ServerRoute(data).None? ==> invoked == []
      ensures ServerRoute(data).Some? ==>
        invoked == Matching(manager.resolvers, ServerRoute(data).value.main, ServerRoute(data).value.sub)
    {
      if |data| < 2 {
        return [];
      }
      var header := Header(data[0], data[1]);
      var main := MainOf(header) as int;
      var sub := SubOf(header) as int;
      invoked := manager.Call(main, sub);
    }

    method Send(data: seq<byte>) returns (selector: SendSelector)
      ensures fresh(selector) && fresh(selector.property)
      ensures selector.data == data && selector.out == out && selector.property.clients == clients
    {
      var property := Client();
      selector := new SendSelector(data, out, property);
    }

    method Client() returns (property: ClientProperty)
      ensures fresh(property) && property.clients == clients
    {
      property := new ClientProperty(clients);
    }

    method On() returns (property: ResolverProperty)
      ensures fresh(property) && property.manager == manager
    {
      property := new ResolverProperty(manager);
    }
  }

  /**
   * Binding a list of receivers with `do` and then routing a frame for one of
   * the subs runs only the list's last receiver.
   */
  method LastReceiverWins(server: Server, subs: seq<int>, receivers: seq<Callback>, sub: int, client: Client)
    returns (invoked: seq<Callback>)
    requires server.manager.Valid()
    requires |receivers| > 0 && sub in subs && 0 <= sub < 4096
    modifies server.manager
    ensures invoked == [receivers[|receivers| - 1]]
  {
    var property := server.On();
    var binder := property.Game(ManySubs(subs));
    binder.DoEach(ManyReceivers(receivers));
    var last := receivers[|receivers| - 1];
    UpsertEachLast(old(server.manager.resolvers), GameChannel, subs, receivers);
    UpsertAllLookup(old(server.manager.resolvers), GameChannel, subs, last);
    invoked := server.OnPacket(client, Frame(Route(GameChannel, sub)));
    MatchingIsLookup(server.manager.resolvers, GameChannel, sub);
  }
}
