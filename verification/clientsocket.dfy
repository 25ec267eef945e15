/**
 * The browser-side socket of src/public/socket.ts: the same registry as the
 * server, a state binder that only rebinds its own field, and a `Socket`
 * whose `onmessage` routes frames without a length check.
 *
 * The source declares `m_openListener`/`m_closeListener` and never assigns
 * them, so they stay undefined (`None` here): `onopen` and `onclose` set the
 * open flag and then throw a TypeError calling undefined. `WebSocket`
 * construction and `send` are transport and are not modelled.
 */
module ClientSocket {
  import opened Options
  import opened Framing
  import opened Resolvers

  /** What calling a possibly undefined state listener does. */
  datatype ListenerOutcome = Invoked(listener: Callback) | TypeError

  function CallListener(listener: Option<Callback>): (r: ListenerOutcome)
    ensures r == TypeError <==> listener.None?
    ensures listener.Some? ==> r == Invoked(listener.value)
  {
    match listener
    case None => TypeError
    case Some(cb) => Invoked(cb)
  }

  /** What `onmessage` does with one frame. */
  datatype MessageOutcome = Dispatched(route: Route, invoked: seq<Callback>) | Thrown

  /** Holds a listener of its own: rebinding it touches nothing else. */
  class ResolverStateBinder {
    var stateListener: Option<Callback>

    constructor(stateListener: Option<Callback>)
      ensures this.stateListener == stateListener
    {
      this.stateListener := stateListener;
    }

    method Do(callback: Callback)
      modifies this
      ensures stateListener == Some(callback)
    {
      stateListener := Some(callback);
    }

    method Ignore()
      modifies this
      ensures stateListener == Some(NoOp)
    {
      stateListener := Some(NoOp);
    }
  }

  class ResolverProperty {
    const manager: ResolverManager
    const openListener: Option<Callback>
    const closeListener: Option<Callback>

    constructor(manager: ResolverManager, openListener: Option<Callback>, closeListener: Option<Callback>)
      ensures this.manager == manager && this.openListener == openListener && this.closeListener == closeListener
    {
      this.manager := manager;
      this.openListener := openListener;
      this.closeListener := closeListener;
    }

    method System(raw: SubSpec) returns (binder: ResolverBinder)
      ensures fresh(binder)
      ensures binder.manager == manager && binder.main == SystemChannel && binder.subs == SubArray(raw)
    {
      binder := new ResolverBinder(manager, SystemChannel, SubArray(raw));
    }

    method Game(raw: SubSpec) returns (binder: ResolverBinder)
      ensures fresh(binder)
      ensures binder.manager == manager && binder.main == GameChannel && binder.subs == SubArray(raw)
    {
      binder := new ResolverBinder(manager, GameChannel, SubArray(raw));
    }

    method Debug(raw: SubSpec) returns (binder: ResolverBinder)
      ensures fresh(binder)
      ensures binder.manager == manager && binder.main == DebugChannel && binder.subs == SubArray(raw)
    {
      binder := new ResolverBinder(manager, DebugChannel, SubArray(raw));
    }

    /** `open`: a binder holding a copy of the socket's listener value. */
    method Open() returns (binder: ResolverStateBinder)
      ensures fresh(binder) && binder.stateListener == openListener
    {
      binder := new ResolverStateBinder(openListener);
    }

    method Close() returns (binder: ResolverStateBinder)
      ensures fresh(binder) && binder.stateListener == closeListener
    {
      binder := new ResolverStateBinder(closeListener);
    }
  }

  class Socket {
    const manager: ResolverManager
    var open: bool
    var openListener: Option<Callback>
    var closeListener: Option<Callback>

    constructor()
      ensures fresh(manager) && manager.resolvers == []
      ensures !open && openListener == None && closeListener == None
    {
      manager := new ResolverManager();
      open := false;
      openListener := None;
      closeListener := None;
    }

    /** `onmessage`: `getUint16(0)` throws on a frame under two bytes; otherwise the registry is called. */
    method OnMessage(data: seq<byte>) returns (outcome: MessageOutcome)
      ensures outcome.Thrown? <==> |data| < 2
      ensures outcome.Dispatched? ==>
        ClientRouteOf(data) == Dispatch(outcome.route) &&
        outcome.invoked == Matching(manager.resolvers, outcome.route.main, outcome.route.sub)
    {
      if |data| < 2 {
        return Thrown;
      }
      var header := Header(data[0], data[1]);
      var main := MainOf(header) as int;
      var sub := SubOf(header) as int;
      var invoked := manager.Call(main, sub);
      outcome := Dispatched(Route(main, sub), invoked);
    }

    method OnOpen() returns (outcome: ListenerOutcome)
      modifies this
      ensures open
      ensures openListener == old(openListener) && closeListener == old(closeListener)
      ensures outcome == CallListener(openListener)
    {
      open := true;
      outcome := CallListener(openListener);
    }

    method OnClose() returns (outcome: ListenerOutcome)
      modifies this
      ensures !open
      ensures openListener == old(openListener) && closeListener == old(closeListener)
      ensures outcome == CallListener(closeListener)
    {
      open := false;
      outcome := CallListener(closeListener);
    }

    method On() returns (property: ResolverProperty)
      ensures fresh(property) && property.manager == manager
      ensures property.openListener == openListener && property.closeListener == closeListener
    {
      property := new ResolverProperty(manager, openListener, closeListener);
    }
  }

  /**
   * Binding `on.open` does not reach the socket: the binder rebinds its own
   * copy, so opening still calls the undefined listener and throws.
   */
  method OpenBindingIsLost(callback: Callback) returns (isOpen: bool, outcome: ListenerOutcome)
    ensures isOpen && outcome == TypeError
  {
    var socket := new Socket();
    var property := socket.On();
    var binder := property.Open();
    binder.Do(callback);
    outcome := socket.OnOpen();
    isOpen := socket.open;
  }
}
