/** The two realtime sockets, one per backend, and the choice between them.
    A socket is reduced to what the application observes: its connected
    flag, the event handlers registered on it and the events it emitted. */
module Sockets {
  import opened Js
  import opened Storage

  /** An outbound event: its name and its JSON payload. */
  datatype Emission = Emission(event: string, payload: Record)

  datatype SocketId = ClTechSocket | AutoTaskSocket

  /** `getActiveSocket`: the CL Tech socket for exactly the tag
      `'CL_TECH'`; every other string, unknown ones included, selects the
      AutoTask socket. */
  function SocketFor(backend: string): (id: SocketId)
    ensures id == ClTechSocket <==> backend == ClTech
    ensures id == AutoTaskSocket <==> backend != ClTech
  {
    if backend == ClTech then ClTechSocket else AutoTaskSocket
  }

  /** A socket.io client created with `autoConnect: false`. `listeners`
      counts the handlers registered per event name. */
  class Socket {
    var connected: bool
    var listeners: multiset<string>
    var emitted: seq<Emission>
    const storage: LocalStorage

    constructor (storage: LocalStorage)
      ensures !connected && listeners == multiset{} && emitted == []
      ensures this.storage == storage
    {
      connected := false;
      listeners := multiset{};
      emitted := [];
      this.storage := storage;
    }

    /** The handshake's `auth` callback: hands over whatever token is
        stored at the time of the handshake (`null` when there is none). */
    method Auth() returns (token: Option<string>)
      ensures token.Some? <==> AuthTokenKey in storage.items
      ensures token.Some? ==> token.value == storage.items[AuthTokenKey]
    {
      token := storage.GetItem(AuthTokenKey);
    }

    method Connect()
      modifies this
      ensures connected && listeners == old(listeners) && emitted == old(emitted)
    {
      connected := true;
    }

    method Disconnect()
      modifies this
      ensures !connected && listeners == old(listeners) && emitted == old(emitted)
    {
      connected := false;
    }

    /** `socket.on(event, handler)`. */
    method On(event: string)
      modifies this
      ensures listeners == old(listeners) + multiset{event}
      ensures connected == old(connected) && emitted == old(emitted)
    {
      listeners := listeners + multiset{event};
    }

    /** `socket.off(event, handler)`. */
    method Off(event: string)
      modifies this
      ensures listeners == old(listeners) - multiset{event}
      ensures connected == old(connected) && emitted == old(emitted)
    {
      listeners := listeners - multiset{event};
    }

    /** `socket.emit(event, payload)`: fire and forget. */
    method Emit(event: string, payload: Record)
      modifies this
      ensures emitted == old(emitted) + [Emission(event, payload)]
      ensures connected == old(connected) && listeners == old(listeners)
    {
      emitted := emitted + [Emission(event, payload)];
    }
  }

  /** The module-level `SOCKETS` object: one socket per backend. */
  class SocketRegistry {
    const clTech: Socket
    const autoTask: Socket

    ghost predicate Valid() {
      clTech != autoTask
    }

    /** Both sockets read the one store for their handshake token, and
        start disconnected, with no handlers and no traffic. */
    constructor (storage: LocalStorage)
      ensures Valid() && fresh(clTech) && fresh(autoTask)
      ensures clTech.storage == storage && autoTask.storage == storage
      ensures !clTech.connected && !autoTask.connected
      ensures clTech.listeners == multiset{} && autoTask.listeners == multiset{}
      ensures clTech.emitted == [] && autoTask.emitted == []
    {
      clTech := new Socket(storage);
      autoTask := new Socket(storage);
    }

    function Get(id: SocketId): Socket {
      if id == ClTechSocket then clTech else autoTask
    }

    /** `getActiveSocket(backend)`. */
    function Active(backend: string): Socket {
      Get(SocketFor(backend))
    }

    /** The socket `getActiveSocket(backend)` does not return. */
    function Other(backend: string): Socket {
      Get(if SocketFor(backend) == ClTechSocket then AutoTaskSocket else ClTechSocket)
    }

    /** `connectSocket(backend)`: only the selected socket changes. */
    method ConnectSocket(backend: string)
      requires Valid()
      modifies Active(backend)
      ensures Active(backend).connected
      ensures Active(backend).listeners == old(Active(backend).listeners)
      ensures Active(backend).emitted == old(Active(backend).emitted)
      ensures unchanged(Other(backend))
    {
      var socket := Active(backend);
      socket.Connect();
    }

    /** `disconnectSocket(backend)`: only the selected socket changes. */
    method DisconnectSocket(backend: string)
      requires Valid()
      modifies Active(backend)
      ensures !Active(backend).connected
      ensures Active(backend).listeners == old(Active(backend).listeners)
      ensures Active(backend).emitted == old(Active(backend).emitted)
      ensures unchanged(Other(backend))
    {
      var socket := Active(backend);
      socket.Disconnect();
    }
  }
}
