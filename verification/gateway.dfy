/**
 * The connection broker of the gateway: one DTU slot and one Modbus slot, the
 * DTU registration handshake, and the forwarding of chunks between the two.
 *
 * Every callback the source registers (a server's connection handler, a
 * socket's `data`/`close` listener, the handshake timer) becomes an `Event`;
 * handling one event is the pure function `Step`, which returns the next
 * state and the socket actions it performed. Sockets are numbered by the
 * model in the order they are accepted.
 */
module Gateway {
  import opened Wrappers
  import opened Buffer
  import Frame

  type SocketId = nat

  /** The registration check: decoding a chunk as UTF-8 and testing it against
      the `dtuCodePattern` regular expression. */
  type CodeMatcher = seq<Byte> -> bool

  /** `dtuCode` is absent when no (or an empty) `dtuCodePattern` is configured. */
  datatype Config = Config(dtuCode: Option<CodeMatcher>)

  /** Which handshake handlers run: the code as written, or the corrected
      ones, which recheck the DTU slot before promoting a socket (see
      `Handshake`) and drop the handshake listener of a socket the timer ends
      (see `Step`). */
  datatype Revision = AsWritten | Corrected

  /**
   * The closure state of the gateway.
   *   dtuSocket, modbusSocket  the two slots
   *   awaitingCode             sockets with the one-shot handshake `data` listener installed
   *   codeTimers               sockets whose handshake timer is armed
   *   dtuHandlers              sockets `setDtuSocket` installed its listeners on
   *   modbusHandlers           sockets `setModbusSocket` installed its listeners on
   *   nextId                   the id the next accepted socket gets
   */
  datatype State = State(
    dtuSocket: Option<SocketId>,
    modbusSocket: Option<SocketId>,
    awaitingCode: set<SocketId>,
    codeTimers: set<SocketId>,
    dtuHandlers: set<SocketId>,
    modbusHandlers: set<SocketId>,
    nextId: SocketId)

  datatype Event =
    | DtuConnect                                     // DTU server connection callback
    | ModbusConnect                                  // Modbus server's delayed connection callback
    | Data(socket: SocketId, chunk: seq<Byte>)       // a socket's `data` event
    | CodeTimeout(socket: SocketId)                  // the handshake timer of a socket fires
    | Close(socket: SocketId)                        // a socket's `close` event

  /** What the gateway does to a socket: `socket.write(bytes)` or `socket.end()`. */
  datatype Action = Write(socket: SocketId, bytes: seq<Byte>) | End(socket: SocketId)

  /** An exception escaping a handler; nothing catches it, so the process stops. */
  datatype Fault = Thrown(error: RangeError) | NullSocket

  datatype Transition = Transition(next: State, out: seq<Action>)

  const Init := State(None, None, {}, {}, {}, {}, 0)

  /** The sockets a slot holds: none or one. */
  function SlotSet(slot: Option<SocketId>): (r: set<SocketId>)
    ensures forall x :: x in r <==> slot == Some(x)
  {
    if slot.Some? then {slot.value} else {}
  }

  /** `setDtuSocket(socket)`: the slot holds the socket, which gains the DTU
      `close` and `data` listeners; no other socket's listeners and no other
      part of the state change. */
  function SetDtuSocket(g: State, s: SocketId): (g': State)
    ensures g'.dtuSocket == Some(s) && s in g'.dtuHandlers
    ensures g'.dtuHandlers - {s} == g.dtuHandlers - {s}
    ensures g'.(dtuSocket := g.dtuSocket, dtuHandlers := g.dtuHandlers) == g
  {
    g.(dtuSocket := Some(s), dtuHandlers := g.dtuHandlers + {s})
  }

  /** `setModbusSocket(socket)`, likewise for the Modbus slot. */
  function SetModbusSocket(g: State, s: SocketId): (g': State)
    ensures g'.modbusSocket == Some(s) && s in g'.modbusHandlers
    ensures g'.modbusHandlers - {s} == g.modbusHandlers - {s}
    ensures g'.(modbusSocket := g.modbusSocket, modbusHandlers := g.modbusHandlers) == g
  {
    g.(modbusSocket := Some(s), modbusHandlers := g.modbusHandlers + {s})
  }

  /** The one-shot handshake listener: the timer is cleared, the listener is
      gone, and the chunk either promotes the socket or gets it ended. As
      written, a matching chunk promotes the socket even when another DTU has
      meanwhile been promoted; the corrected revision ends it instead, as the
      connection handler does for a DTU arriving while the slot is full. */
  function Handshake(rev: Revision, matches: CodeMatcher, g: State, s: SocketId, chunk: seq<Byte>): (r: Transition)
    ensures r.next.awaitingCode == g.awaitingCode - {s} && r.next.codeTimers == g.codeTimers - {s}
    ensures r.next.modbusSocket == g.modbusSocket && r.next.modbusHandlers == g.modbusHandlers
    ensures r.next.nextId == g.nextId
    ensures r.out == [] <==> matches(chunk) && (rev == AsWritten || g.dtuSocket.None?)
    ensures r.out == [] ==> r.next.dtuSocket == Some(s) && r.next.dtuHandlers == g.dtuHandlers + {s}
    ensures r.out != [] ==>
      r.out == [End(s)] && r.next.dtuSocket == g.dtuSocket && r.next.dtuHandlers == g.dtuHandlers
  {
    var g1 := g.(awaitingCode := g.awaitingCode - {s}, codeTimers := g.codeTimers - {s});
    if !matches(chunk) then Transition(g1, [End(s)])
    else if rev != AsWritten && g.dtuSocket.Some? then Transition(g1, [End(s)])
    else Transition(SetDtuSocket(g1, s), [])
  }

  /** A chunk from the DTU goes to the Modbus client, if there is one. */
  function DtuData(g: State, chunk: seq<Byte>): (r: Transition)
    ensures r.next == g
    ensures |r.out| <= 1 && (r.out != [] <==> g.modbusSocket.Some?)
    ensures forall a :: a in r.out ==> a.Write? && Some(a.socket) == g.modbusSocket && a.bytes == chunk
  {
    match g.modbusSocket
    case Some(m) => Transition(g, [Write(m, chunk)])
    case None => Transition(g, [])
  }

  /** A chunk from the Modbus client goes to the DTU; with no DTU the client
      gets `buildError(chunk)` back, and a chunk `buildError` cannot read
      throws out of the handler. */
  function ModbusData(g: State, chunk: seq<Byte>): (r: Result<Transition, Fault>)
    ensures r.Ok? ==> r.value.next == g && |r.value.out| == 1
    ensures g.dtuSocket.Some? ==> r == Ok(Transition(g, [Write(g.dtuSocket.value, chunk)]))
    ensures g.dtuSocket.None? ==> (r.Ok? <==> Frame.BuildError(chunk).Ok? && g.modbusSocket.Some?)
    ensures g.dtuSocket.None? && r.Ok? ==>
      r.value.out == [Write(g.modbusSocket.value, Frame.BuildError(chunk).value)]
    ensures g.dtuSocket.None? && Frame.BuildError(chunk).Err? ==> r == Err(Thrown(Frame.BuildError(chunk).error))
  {
    match g.dtuSocket
    case Some(d) => Ok(Transition(g, [Write(d, chunk)]))
    case None =>
      match Frame.BuildError(chunk)
      case Err(e) => Err(Thrown(e))
      case Ok(reply) =>
        match g.modbusSocket
        case Some(m) => Ok(Transition(g, [Write(m, reply)]))
        case None => Err(NullSocket)
  }

  /** Handling one event. */
  function Step(rev: Revision, cfg: Config, g: State, e: Event): (r: Result<Transition, Fault>)
    ensures r.Ok? ==> |r.value.out| <= 1
    ensures r.Ok? ==> forall a :: a in r.value.out && a.Write? ==>
      a.socket in SlotSet(g.dtuSocket) + SlotSet(g.modbusSocket)
    ensures r.Err? ==> e.Data? && g.dtuSocket.None? && e.socket in g.modbusHandlers
    ensures r.Ok? && !(e.DtuConnect? || e.ModbusConnect?) ==> r.value.next.nextId == g.nextId
    ensures r.Ok? && (e.DtuConnect? || e.ModbusConnect?) ==> r.value.next.nextId == g.nextId + 1
  {
    match e
    case DtuConnect =>
      var s := g.nextId;
      var g1 := g.(nextId := s + 1);
      if g.dtuSocket.Some? then Ok(Transition(g1, [End(s)]))
      else if cfg.dtuCode.Some? then
        Ok(Transition(g1.(awaitingCode := g.awaitingCode + {s}, codeTimers := g.codeTimers + {s}), []))
      else Ok(Transition(SetDtuSocket(g1, s), []))
    case ModbusConnect =>
      var s := g.nextId;
      var g1 := g.(nextId := s + 1);
      if g.modbusSocket.Some? then Ok(Transition(g1, [End(s)]))
      else Ok(Transition(SetModbusSocket(g1, s), []))
    case CodeTimeout(s) =>
      // The timer only ever fires unpaired: pairing clears it first. As
      // written, the socket keeps its one-shot handshake listener.
      if s in g.codeTimers then
        var g1 := g.(codeTimers := g.codeTimers - {s});
        Ok(Transition(if rev == Corrected then g1.(awaitingCode := g.awaitingCode - {s}) else g1, [End(s)]))
      else Ok(Transition(g, []))
    case Data(s, chunk) =>
      if s in g.awaitingCode && cfg.dtuCode.Some? then Ok(Handshake(rev, cfg.dtuCode.value, g, s, chunk))
      else if s in g.dtuHandlers then Ok(DtuData(g, chunk))
      else if s in g.modbusHandlers then ModbusData(g, chunk)
      else Ok(Transition(g, []))
    case Close(s) =>
      // Each `close` listener empties its slot, whoever occupies it now.
      Ok(Transition(g.(dtuSocket := if s in g.dtuHandlers then None else g.dtuSocket,
                       modbusSocket := if s in g.modbusHandlers then None else g.modbusSocket,
                       awaitingCode := g.awaitingCode - {s},
                       dtuHandlers := g.dtuHandlers - {s},
                       modbusHandlers := g.modbusHandlers - {s}), []))
  }

  /** Handling a sequence of events from `g`; the actions of all steps in
      order, or the fault that stopped the process. */
  function Run(rev: Revision, cfg: Config, g: State, events: seq<Event>): (r: Result<Transition, Fault>)
    ensures r.Ok? ==> |r.value.out| <= |events|
    ensures r.Ok? ==> r.value.next.nextId >= g.nextId
    decreases |events|
  {
    if events == [] then Ok(Transition(g, []))
    else
      match Step(rev, cfg, g, events[0])
      case Err(f) => Err(f)
      case Ok(t) =>
        match Run(rev, cfg, t.next, events[1..])
        case Err(f) => Err(f)
        case Ok(rest) => Ok(Transition(rest.next, t.out + rest.out))
  }
}
