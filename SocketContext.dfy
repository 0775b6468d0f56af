/** The realtime provider: the connected flag, the chat log and the record
    of latest realtime values, each inbound event an updater on them, and
    the three outbound actions. */
module SocketContext {
  import opened Js
  import opened Sockets

  /** `realTimeData`: a record whose keys appear as events arrive. The
      `strategies` slot maps a strategy id to its latest update. */
  datatype RealTimeData = RealTimeData(
    strategies: Option<map<Value, Record>>,
    wallet: Option<Record>,
    elections: Option<Record>,
    system: Option<Record>)

  const EmptyData: RealTimeData := RealTimeData(None, None, None, None)

  /** The provider's three state hooks as one value. */
  datatype Bag = Bag(isConnected: bool, chatMessages: seq<Record>, realTimeData: RealTimeData)

  const InitialBag: Bag := Bag(false, [], EmptyData)

  /** The inbound events the provider subscribes to, with their payloads. */
  datatype Inbound =
    | Connected
    | Disconnected
    | NewMessage(data: Record)
    | StrategyUpdate(data: Record)
    | WalletUpdate(data: Record)
    | ElectionUpdate(data: Record)
    | SystemUpdate(data: Record)

  function EventName(e: Inbound): string {
    match e
    case Connected => "connect"
    case Disconnected => "disconnect"
    case NewMessage(_) => "new-message"
    case StrategyUpdate(_) => "strategy-update"
    case WalletUpdate(_) => "wallet-update"
    case ElectionUpdate(_) => "election-update"
    case SystemUpdate(_) => "system-update"
  }

  /** The seven event names registered by the effect, in registration order. */
  const HandledEvents: seq<string> :=
    ["connect", "disconnect", "new-message", "strategy-update", "wallet-update", "election-update", "system-update"]

  /** Every inbound event has a handler registered under its name. */
  lemma EventNameHandled(e: Inbound)
    ensures EventName(e) in HandledEvents && EventName(e) in multiset(HandledEvents)
  {
  }

  /** Distinct kinds of event have distinct names, so each event reaches
      exactly its own handler. */
  lemma EventNamesDistinct(e: Inbound, f: Inbound)
    ensures EventName(e) == EventName(f) <==> (
      && e.Connected? == f.Connected? && e.Disconnected? == f.Disconnected?
      && e.NewMessage? == f.NewMessage? && e.StrategyUpdate? == f.StrategyUpdate?
      && e.WalletUpdate? == f.WalletUpdate? && e.ElectionUpdate? == f.ElectionUpdate?
      && e.SystemUpdate? == f.SystemUpdate?)
  {
  }

  /** `prev => [...prev, data]`. */
  function AppendMessage(prev: seq<Record>, data: Record): (r: seq<Record>)
    ensures |r| == |prev| + 1 && r[..|prev|] == prev && r[|prev|] == data
  {
    prev + [data]
  }

  /** `prev => ({ ...prev, strategies: { ...prev.strategies, [data.id]: data } })`:
      the update is stored under its own id; other ids and other slots keep
      their values. */
  function PutStrategy(prev: RealTimeData, data: Record): (r: RealTimeData)
    ensures r.strategies.Some?
    ensures Get(data, "id") in r.strategies.value && r.strategies.value[Get(data, "id")] == data
    ensures forall id :: id != Get(data, "id") ==>
      (id in r.strategies.value <==> prev.strategies.Some? && id in prev.strategies.value)
    ensures forall id :: id != Get(data, "id") && id in r.strategies.value ==>
      r.strategies.value[id] == prev.strategies.value[id]
    ensures r.wallet == prev.wallet && r.elections == prev.elections && r.system == prev.system
  {
    prev.(strategies := Some(prev.strategies.GetOr(map[])[Get(data, "id") := data]))
  }

  /** The inbound event applied to the provider's state: each event writes
      its own slot and nothing else. */
  function Apply(b: Bag, e: Inbound): (c: Bag)
    ensures e.Connected? ==> c.isConnected
    ensures e.Disconnected? ==> !c.isConnected
    ensures c.isConnected != b.isConnected ==> e.Connected? || e.Disconnected?
    ensures e.NewMessage? ==> c.chatMessages == b.chatMessages + [e.data]
    ensures !e.NewMessage? ==> c.chatMessages == b.chatMessages
    ensures e.StrategyUpdate? ==> c.realTimeData == PutStrategy(b.realTimeData, e.data)
    ensures c.realTimeData.strategies != b.realTimeData.strategies ==> e.StrategyUpdate?
    ensures e.WalletUpdate? ==> c.realTimeData.wallet == Some(e.data)
    ensures c.realTimeData.wallet != b.realTimeData.wallet ==> e.WalletUpdate?
    ensures e.ElectionUpdate? ==> c.realTimeData.elections == Some(e.data)
    ensures c.realTimeData.elections != b.realTimeData.elections ==> e.ElectionUpdate?
    ensures e.SystemUpdate? ==> c.realTimeData.system == Some(e.data)
    ensures c.realTimeData.system != b.realTimeData.system ==> e.SystemUpdate?
  {
    match e
    case Connected => b.(isConnected := true)
    case Disconnected => b.(isConnected := false)
    case NewMessage(data) => b.(chatMessages := AppendMessage(b.chatMessages, data))
    case StrategyUpdate(data) => b.(realTimeData := PutStrategy(b.realTimeData, data))
    case WalletUpdate(data) => b.(realTimeData := b.realTimeData.(wallet := Some(data)))
    case ElectionUpdate(data) => b.(realTimeData := b.realTimeData.(elections := Some(data)))
    case SystemUpdate(data) => b.(realTimeData := b.realTimeData.(system := Some(data)))
  }

  /** Events applied in arrival order. */
  function ApplyAll(b: Bag, events: seq<Inbound>): Bag
    decreases |events|
  {
    if events == [] then b else ApplyAll(Apply(b, events[0]), events[1..])
  }

  /** The last event to arrive is applied to the state the earlier ones
      left, so a run of events can be extended one event at a time. */
  lemma {:induction false} ApplyAllLast(b: Bag, events: seq<Inbound>)
    requires events != []
    ensures ApplyAll(b, events) == Apply(ApplyAll(b, events[..|events| - 1]), events[|events| - 1])
    decreases |events|
  {
    if |events| > 1 {
      ApplyAllLast(Apply(b, events[0]), events[1..]);
      assert events[1..][..|events| - 2] == events[..|events| - 1][1..];
    }
  }

  /** The chat payloads among `events`, in arrival order. */
  function MessagesOf(events: seq<Inbound>): seq<Record> {
    if events == [] then []
    else (if events[0].NewMessage? then [events[0].data] else []) + MessagesOf(events[1..])
  }

  /** The chat log is append-only: after any run of events it is the old
      log followed by the new chat payloads in arrival order. */
  lemma {:induction false} ChatLogAppendOnly(b: Bag, events: seq<Inbound>)
    ensures ApplyAll(b, events).chatMessages == b.chatMessages + MessagesOf(events)
    decreases |events|
  {
    if events != [] {
      ChatLogAppendOnly(Apply(b, events[0]), events[1..]);
    }
  }

  /** The connected flag after a run of events is the one set by the last
      connection event, or the old flag if there was none. */
  lemma {:induction false} LastConnectionEventWins(b: Bag, events: seq<Inbound>, k: nat)
    requires k < |events| && (events[k].Connected? || events[k].Disconnected?)
    requires forall j :: k < j < |events| ==> !events[j].Connected? && !events[j].Disconnected?
    ensures ApplyAll(b, events).isConnected == events[k].Connected?
    decreases |events|
  {
    if k == 0 {
      NoConnectionEvents(Apply(b, events[0]), events[1..]);
    } else {
      LastConnectionEventWins(Apply(b, events[0]), events[1..], k - 1);
    }
  }

  lemma {:induction false} NoConnectionEvents(b: Bag, events: seq<Inbound>)
    requires forall j :: 0 <= j < |events| ==> !events[j].Connected? && !events[j].Disconnected?
    ensures ApplyAll(b, events).isConnected == b.isConnected
    decreases |events|
  {
    if events != [] {
      NoConnectionEvents(Apply(b, events[0]), events[1..]);
    }
  }

  /** The seven handlers are registered on the socket of `backend` and
      none on the other one. */
  ghost predicate Subscribed(sockets: SocketRegistry, backend: string)
    reads sockets.clTech, sockets.autoTask
  {
    && sockets.Valid()
    && sockets.Active(backend).listeners == multiset(HandledEvents)
    && sockets.Other(backend).listeners == multiset{}
  }

  /** Each socket's connected flag and the events emitted on it. */
  ghost function Traffic(sockets: SocketRegistry): (bool, seq<Emission>, bool, seq<Emission>)
    reads sockets.clTech, sockets.autoTask
  {
    (sockets.clTech.connected, sockets.clTech.emitted, sockets.autoTask.connected, sockets.autoTask.emitted)
  }

  /** `SocketProvider`: the three state hooks, the backend it subscribed
      for, and the module-level sockets. */
  class SocketProvider {
    var isConnected: bool
    var chatMessages: seq<Record>
    var realTimeData: RealTimeData
    var currentBackend: string
    const sockets: SocketRegistry

    function Current(): Bag
      reads this
    {
      Bag(isConnected, chatMessages, realTimeData)
    }

    /** The provider's seven handlers are registered on the active socket
        and none on the other one. */
    ghost predicate Valid()
      reads this, sockets.clTech, sockets.autoTask
    {
      Subscribed(sockets, currentBackend)
    }

    /** Mounting: the initial state, then the effect registers the seven
        handlers on the socket of the current backend. */
    constructor (sockets: SocketRegistry, backend: string)
      requires sockets.Valid()
      requires sockets.clTech.listeners == multiset{} && sockets.autoTask.listeners == multiset{}
      modifies sockets.clTech, sockets.autoTask
      ensures Valid() && this.sockets == sockets && currentBackend == backend
      ensures Current() == InitialBag
      ensures sockets.clTech.connected == old(sockets.clTech.connected) && sockets.clTech.emitted == old(sockets.clTech.emitted)
      ensures sockets.autoTask.connected == old(sockets.autoTask.connected) && sockets.autoTask.emitted == old(sockets.autoTask.emitted)
    {
      isConnected := false;
      chatMessages := [];
      realTimeData := EmptyData;
      currentBackend := backend;
      this.sockets := sockets;
      new;
      Subscribe(sockets.Active(backend));
    }

    /** The effect body: `socket.on` for each of the seven events. */
    static method Subscribe(socket: Socket)
      modifies socket
      ensures socket.listeners == old(socket.listeners) + multiset(HandledEvents)
      ensures socket.connected == old(socket.connected) && socket.emitted == old(socket.emitted)
    {
      ghost var m := socket.listeners;
      socket.On("connect");
      ghost var a := multiset{"connect"};
      OnStep(m, a, "disconnect");
      socket.On("disconnect");
      a := a + multiset{"disconnect"};
      OnStep(m, a, "new-message");
      socket.On("new-message");
      a := a + multiset{"new-message"};
      OnStep(m, a, "strategy-update");
      socket.On("strategy-update");
      a := a + multiset{"strategy-update"};
      OnStep(m, a, "wallet-update");
      socket.On("wallet-update");
      a := a + multiset{"wallet-update"};
      OnStep(m, a, "election-update");
      socket.On("election-update");
      a := a + multiset{"election-update"};
      OnStep(m, a, "system-update");
      socket.On("system-update");
      a := a + multiset{"system-update"};
      HandledMultiset();
    }

    /** The effect's cleanup: `socket.off` for exactly the seven events
        that were registered. */
    static method Unsubscribe(socket: Socket)
      modifies socket
      ensures socket.listeners == old(socket.listeners) - multiset(HandledEvents)
      ensures socket.connected == old(socket.connected) && socket.emitted == old(socket.emitted)
    {
      ghost var m := socket.listeners;
      socket.Off("connect");
      ghost var a := multiset{"connect"};
      OffStep(m, a, "disconnect");
      socket.Off("disconnect");
      a := a + multiset{"disconnect"};
      OffStep(m, a, "new-message");
      socket.Off("new-message");
      a := a + multiset{"new-message"};
      OffStep(m, a, "strategy-update");
      socket.Off("strategy-update");
      a := a + multiset{"strategy-update"};
      OffStep(m, a, "wallet-update");
      socket.Off("wallet-update");
      a := a + multiset{"wallet-update"};
      OffStep(m, a, "election-update");
      socket.Off("election-update");
      a := a + multiset{"election-update"};
      OffStep(m, a, "system-update");
      socket.Off("system-update");
      a := a + multiset{"system-update"};
      HandledMultiset();
    }

    /** A change of `currentBackend` re-runs the effect: cleanup on the old
        socket, registration on the new one. The chat log and the realtime
        record are kept. */
    method ChangeBackend(backend: string)
      requires Valid()
      modifies this, sockets.clTech, sockets.autoTask
      ensures Valid() && currentBackend == backend
      ensures Current() == old(Current())
      ensures Traffic(sockets) == old(Traffic(sockets))
    {
      Resubscribe(sockets, currentBackend, backend);
      currentBackend := backend;
    }

    /** The effect's cleanup on the socket of `from`, then its
        registration on the socket of `to`; no socket connects,
        disconnects or emits. */
    static method Resubscribe(sockets: SocketRegistry, from: string, to: string)
      requires Subscribed(sockets, from)
      modifies sockets.clTech, sockets.autoTask
      ensures Subscribed(sockets, to)
      ensures Traffic(sockets) == old(Traffic(sockets))
    {
      var previous := sockets.Active(from);
      Unsubscribe(previous);
      assert previous.listeners == multiset{};
      var next := sockets.Active(to);
      Subscribe(next);
    }

    /** The socket `socket` delivers `e`: the provider's updater runs when
        its handler for that event is registered there, so events on the
        inactive socket are ignored. */
    method Receive(socket: Socket, e: Inbound)
      requires Valid() && (socket == sockets.clTech || socket == sockets.autoTask)
      modifies this
      ensures Valid() && currentBackend == old(currentBackend)
      ensures socket == sockets.Active(currentBackend) ==> Current() == Apply(old(Current()), e)
      ensures socket != sockets.Active(currentBackend) ==> Current() == old(Current())
    {
      EventNameHandled(e);
      ghost var active := socket == sockets.Active(currentBackend);
      if EventName(e) in socket.listeners {
        assert active;
        Update(e);
      } else {
        assert !active;
      }
    }

    /** The registered handler for `e` runs its updater on the state hooks. */
    method Update(e: Inbound)
      modifies this
      ensures Current() == Apply(old(Current()), e) && currentBackend == old(currentBackend)
    {
      var c := Apply(Current(), e);
      isConnected, chatMessages, realTimeData := c.isConnected, c.chatMessages, c.realTimeData;
    }

    /** `sendMessage(messageData)`: emitted on the active socket. */
    method SendMessage(messageData: Record)
      requires Valid()
      modifies sockets.Active(currentBackend)
      ensures sockets.Active(currentBackend).emitted == old(sockets.Active(currentBackend).emitted) + [Emission("send-message", messageData)]
      ensures sockets.Active(currentBackend).listeners == old(sockets.Active(currentBackend).listeners)
      ensures sockets.Active(currentBackend).connected == old(sockets.Active(currentBackend).connected)
      ensures unchanged(sockets.Other(currentBackend))
    {
      var socket := sockets.Active(currentBackend);
      socket.Emit("send-message", messageData);
    }

    /** `startStrategy(id)`: `start-strategy` with `{ strategyId: id }`. */
    method StartStrategy(strategyId: Value)
      requires Valid()
      modifies sockets.Active(currentBackend)
      ensures sockets.Active(currentBackend).emitted == old(sockets.Active(currentBackend).emitted) + [Emission("start-strategy", StrategyPayload(strategyId))]
      ensures sockets.Active(currentBackend).listeners == old(sockets.Active(currentBackend).listeners)
      ensures sockets.Active(currentBackend).connected == old(sockets.Active(currentBackend).connected)
      ensures unchanged(sockets.Other(currentBackend))
    {
      var socket := sockets.Active(currentBackend);
      socket.Emit("start-strategy", StrategyPayload(strategyId));
    }

    /** `stopStrategy(id)`: `stop-strategy` with `{ strategyId: id }`. */
    method StopStrategy(strategyId: Value)
      requires Valid()
      modifies sockets.Active(currentBackend)
      ensures sockets.Active(currentBackend).emitted == old(sockets.Active(currentBackend).emitted) + [Emission("stop-strategy", StrategyPayload(strategyId))]
      ensures sockets.Active(currentBackend).listeners == old(sockets.Active(currentBackend).listeners)
      ensures sockets.Active(currentBackend).connected == old(sockets.Active(currentBackend).connected)
      ensures unchanged(sockets.Other(currentBackend))
    {
      var socket := sockets.Active(currentBackend);
      socket.Emit("stop-strategy", StrategyPayload(strategyId));
    }
  }

  /** Adding one more name after adding `a` adds `a` plus that name. */
  lemma OnStep(m: multiset<string>, a: multiset<string>, event: string)
    ensures m + a + multiset{event} == m + (a + multiset{event})
  {
    assert forall x :: (m + a + multiset{event})[x] == (m + (a + multiset{event}))[x];
  }

  /** Removing one more name after removing `a` removes `a` plus that name. */
  lemma OffStep(m: multiset<string>, a: multiset<string>, event: string)
    ensures m - a - multiset{event} == m - (a + multiset{event})
  {
    assert forall x :: (m - a - multiset{event})[x] == (m - (a + multiset{event}))[x];
  }

  /** The registered names as a multiset, one of each. */
  lemma HandledMultiset()
    ensures multiset(HandledEvents)
      == multiset{"connect"} + multiset{"disconnect"} + multiset{"new-message"} + multiset{"strategy-update"}
        + multiset{"wallet-update"} + multiset{"election-update"} + multiset{"system-update"}
  {
  }

  /** `{ strategyId }`: the id is the payload's only property. */
  function StrategyPayload(strategyId: Value): (r: Record)
    ensures r.Keys == {"strategyId"} && Get(r, "strategyId") == strategyId
  {
    map["strategyId" := strategyId]
  }
}
