/**
 * What the broker keeps true about its two slots, what each event does to
 * them, and the end-to-end exchanges the gateway's tests describe.
 */
module Pairing {
  import opened Wrappers
  import opened Buffer
  import Frame
  import opened Gateway

  /** The facts every state the gateway reaches satisfies, under either
      revision: ids are handed out once, a socket carries the listeners of one
      role at most, the Modbus slot holds exactly the socket with Modbus
      listeners, and the DTU slot holds one of the sockets with DTU listeners. */
  predicate Inv(cfg: Config, g: State) {
    && (forall s :: s in g.awaitingCode ==> s < g.nextId)
    && (forall s :: s in g.codeTimers ==> s < g.nextId)
    && (forall s :: s in g.dtuHandlers ==> s < g.nextId)
    && (forall s :: s in g.modbusHandlers ==> s < g.nextId)
    && g.awaitingCode !! g.dtuHandlers
    && g.awaitingCode !! g.modbusHandlers
    && g.dtuHandlers !! g.modbusHandlers
    && g.codeTimers !! g.dtuHandlers
    && g.codeTimers !! g.modbusHandlers
    && (g.awaitingCode != {} ==> cfg.dtuCode.Some?)
    && g.modbusHandlers == SlotSet(g.modbusSocket)
    && SlotSet(g.dtuSocket) <= g.dtuHandlers
  }

  /** At most one DTU connection is live in the forwarding path, and it is the
      one in the slot. */
  predicate DtuPaired(g: State) {
    g.dtuHandlers == SlotSet(g.dtuSocket)
  }

  lemma InitInv(cfg: Config)
    ensures Inv(cfg, Init) && DtuPaired(Init)
  {
  }

  lemma StepPreservesInv(rev: Revision, cfg: Config, g: State, e: Event)
    requires Inv(cfg, g)
    ensures Step(rev, cfg, g, e).Ok? ==> Inv(cfg, Step(rev, cfg, g, e).value.next)
  {
  }

  lemma {:induction false} RunPreservesInv(rev: Revision, cfg: Config, g: State, events: seq<Event>)
    requires Inv(cfg, g)
    ensures Run(rev, cfg, g, events).Ok? ==> Inv(cfg, Run(rev, cfg, g, events).value.next)
    decreases |events|
  {
    if events != [] {
      StepPreservesInv(rev, cfg, g, events[0]);
      var r := Step(rev, cfg, g, events[0]);
      if r.Ok? {
        RunPreservesInv(rev, cfg, r.value.next, events[1..]);
      }
    }
  }

  /** A DTU connecting while the slot is full is ended; nothing else changes
      but the id counter. */
  lemma RejectsDtuWhileOccupied(rev: Revision, cfg: Config, g: State)
    requires g.dtuSocket.Some?
    ensures Step(rev, cfg, g, DtuConnect) == Ok(Transition(g.(nextId := g.nextId + 1), [End(g.nextId)]))
  {
  }

  /** Likewise for a second Modbus client. */
  lemma RejectsModbusWhileOccupied(rev: Revision, cfg: Config, g: State)
    requires g.modbusSocket.Some?
    ensures Step(rev, cfg, g, ModbusConnect) == Ok(Transition(g.(nextId := g.nextId + 1), [End(g.nextId)]))
  {
  }

  /** Without a configured code a free DTU slot is filled at once. */
  lemma PromotesWithoutCode(rev: Revision, g: State)
    requires g.dtuSocket.None?
    ensures var r := Step(rev, Config(None), g, DtuConnect);
      && r.Ok? && r.value.out == []
      && r.value.next.dtuSocket == Some(g.nextId)
      && g.nextId in r.value.next.dtuHandlers
  {
  }

  /** A Modbus request with no DTU present is answered with `buildError` on
      the same connection and nothing goes towards a DTU; a request the reply
      cannot be built from stops the process. */
  lemma ModbusRequestWithoutDtu(rev: Revision, cfg: Config, g: State, s: SocketId, chunk: seq<Byte>)
    requires Inv(cfg, g) && s in g.modbusHandlers && g.dtuSocket.None?
    ensures var r := Step(rev, cfg, g, Data(s, chunk));
      match Frame.BuildError(chunk)
      case Ok(reply) => r == Ok(Transition(g, [Write(s, reply)]))
      case Err(e) => r == Err(Thrown(e))
  {
  }

  /** A Modbus request with a DTU present goes to the DTU unchanged and
      nothing is written back. */
  lemma ModbusRequestWithDtu(rev: Revision, cfg: Config, g: State, s: SocketId, chunk: seq<Byte>)
    requires Inv(cfg, g) && s in g.modbusHandlers && g.dtuSocket.Some?
    ensures Step(rev, cfg, g, Data(s, chunk)) == Ok(Transition(g, [Write(g.dtuSocket.value, chunk)]))
  {
  }

  /** A chunk from a paired DTU reaches the Modbus client unchanged, or is
      dropped when there is none. */
  lemma DtuReplyForwarded(rev: Revision, cfg: Config, g: State, s: SocketId, chunk: seq<Byte>)
    requires Inv(cfg, g) && s in g.dtuHandlers
    ensures Step(rev, cfg, g, Data(s, chunk))
         == Ok(Transition(g, if g.modbusSocket.Some? then [Write(g.modbusSocket.value, chunk)] else []))
  {
  }

  /** The first chunk of a DTU under handshake is consumed: never forwarded,
      the listener and the timer are gone, and the socket is promoted exactly
      when the code matches (and, in the corrected revision, the slot is
      free); otherwise it is ended and the DTU slot is left as it was. */
  lemma HandshakeConsumesFirstChunk(rev: Revision, cfg: Config, g: State, s: SocketId, chunk: seq<Byte>)
    requires Inv(cfg, g) && s in g.awaitingCode
    ensures var r := Step(rev, cfg, g, Data(s, chunk));
      && r.Ok?
      && (forall a :: a in r.value.out ==> !a.Write?)
      && s !in r.value.next.awaitingCode && s !in r.value.next.codeTimers
      && r.value.next.modbusSocket == g.modbusSocket
      && (r.value.next.dtuSocket == Some(s)
          <==> cfg.dtuCode.value(chunk) && (rev == AsWritten || g.dtuSocket.None?))
      && (r.value.next.dtuSocket != Some(s) ==>
            r.value.out == [End(s)] && r.value.next.dtuSocket == g.dtuSocket
            && s !in r.value.next.dtuHandlers)
  {
  }

  /** The handshake timer ends a socket that sent nothing and leaves the DTU
      slot as it was. As written, the socket's handshake listener survives;
      the corrected timer removes it. */
  lemma CodeTimeoutEndsSocket(rev: Revision, cfg: Config, g: State, s: SocketId)
    requires Inv(cfg, g) && s in g.codeTimers
    ensures var r := Step(rev, cfg, g, CodeTimeout(s));
      && r == Ok(Transition(r.value.next, [End(s)]))
      && r.value.next.dtuSocket == g.dtuSocket
      && r.value.next.dtuHandlers == g.dtuHandlers
      && s !in r.value.next.codeTimers && s !in r.value.next.dtuHandlers
      && (rev == AsWritten ==> r.value.next.awaitingCode == g.awaitingCode)
      && (rev == Corrected ==> r.value.next.awaitingCode == g.awaitingCode - {s})
  {
  }

  /** A `close` on the socket in either slot empties that slot; a socket with
      no listeners of a role leaves that role's slot alone. */
  lemma CloseEmptiesSlot(rev: Revision, cfg: Config, g: State, s: SocketId)
    requires Inv(cfg, g)
    ensures var r := Step(rev, cfg, g, Close(s));
      && r.Ok? && r.value.out == []
      && r.value.next.modbusSocket == (if g.modbusSocket == Some(s) then None else g.modbusSocket)
      && (g.dtuSocket == Some(s) ==> r.value.next.dtuSocket.None?)
      && (s !in g.dtuHandlers ==> r.value.next.dtuSocket == g.dtuSocket)
      && s !in r.value.next.dtuHandlers + r.value.next.modbusHandlers + r.value.next.awaitingCode
  {
  }

  /** In the state right after the step that ends it, a socket carries no
      forwarding listeners. (As written, a later handshake chunk can still
      promote it: see `TimedOutDtuPromotedAsWritten`.) */
  lemma EndedSocketsAreUnpaired(rev: Revision, cfg: Config, g: State, e: Event)
    requires Inv(cfg, g)
    ensures var r := Step(rev, cfg, g, e);
      r.Ok? ==> forall a :: a in r.value.out && a.End? ==>
        a.socket !in r.value.next.dtuHandlers + r.value.next.modbusHandlers
  {
  }

  /** Among the modelled events, the only uncaught exception: a Modbus chunk
      `buildError` cannot read (shorter than 8 bytes, or a function code of
      0x80 or more) arriving while no DTU is connected. */
  lemma FaultsOnlyFromBuildError(rev: Revision, cfg: Config, g: State, e: Event)
    requires Inv(cfg, g)
    ensures Step(rev, cfg, g, e).Err?
        <==> e.Data? && e.socket in g.modbusHandlers && g.dtuSocket.None? && Frame.BuildError(e.chunk).Err?
  {
  }

  // ---------------------------------------------------------------------------
  // The exchanges of the gateway's tests

  /** A DTU that connects and sends nothing is ended by the handshake timer
      and never takes the slot. */
  lemma SilentDtuTimesOut(rev: Revision, matches: CodeMatcher)
    ensures var r := Run(rev, Config(Some(matches)), Init, [DtuConnect, CodeTimeout(0)]);
      && r.Ok? && r.value.out == [End(0)]
      && r.value.next.dtuSocket.None? && r.value.next.dtuHandlers == {}
  {
    var cfg := Config(Some(matches));
    var t1 := Step(rev, cfg, Init, DtuConnect).value;
    assert t1.out == [] && t1.next.codeTimers == {0} && t1.next.dtuHandlers == {};
    var t2 := Step(rev, cfg, t1.next, CodeTimeout(0)).value;
    assert t2.out == [End(0)] && t2.next.dtuSocket.None? && t2.next.dtuHandlers == {};
    var e2 := [CodeTimeout(0)];
    assert Run(rev, cfg, t1.next, e2) == Ok(Transition(t2.next, [End(0)])) by {
      RunCons(rev, cfg, t1.next, CodeTimeout(0), []);
      assert [CodeTimeout(0)] + [] == e2;
      assert Run(rev, cfg, t2.next, []) == Ok(Transition(t2.next, []));
      assert [End(0)] + [] == [End(0)];
    }
    assert Run(rev, cfg, Init, [DtuConnect] + e2) == Ok(Transition(t2.next, [End(0)])) by {
      RunCons(rev, cfg, Init, DtuConnect, e2);
      assert t1.out + [End(0)] == [End(0)];
    }
    assert [DtuConnect] + e2 == [DtuConnect, CodeTimeout(0)];
  }

  /** A Modbus client alone gets `buildError` of its request back. */
  lemma ModbusAloneGetsException(rev: Revision, cfg: Config, request: seq<Byte>)
    requires Frame.BuildError(request).Ok?
    ensures var r := Run(rev, cfg, Init, [ModbusConnect, Data(0, request)]);
      r.Ok? && r.value.out == [Write(0, Frame.BuildError(request).value)]
  {
    var out := [Write(0, Frame.BuildError(request).value)];
    var t1 := Step(rev, cfg, Init, ModbusConnect).value;
    assert t1.out == [] && t1.next.modbusSocket == Some(0) && t1.next.modbusHandlers == {0};
    var t2 := Step(rev, cfg, t1.next, Data(0, request)).value;
    assert t2 == Transition(t1.next, out);
    var e2 := [Data(0, request)];
    assert Run(rev, cfg, t1.next, e2) == Ok(Transition(t1.next, out)) by {
      RunCons(rev, cfg, t1.next, Data(0, request), []);
      assert [Data(0, request)] + [] == e2;
      assert Run(rev, cfg, t1.next, []) == Ok(Transition(t1.next, []));
      assert out + [] == out;
    }
    assert Run(rev, cfg, Init, [ModbusConnect] + e2) == Ok(Transition(t1.next, out)) by {
      RunCons(rev, cfg, Init, ModbusConnect, e2);
      assert t1.out + out == out;
    }
    assert [ModbusConnect] + e2 == [ModbusConnect, Data(0, request)];
  }

  /** A DTU that registers with a matching code (socket 0) and a Modbus client
      (socket 1): the request reaches the DTU unchanged, the DTU's reply
      reaches the client unchanged, and the code itself is never forwarded. */
  lemma RegisteredDtuRelays(rev: Revision, matches: CodeMatcher, code: seq<Byte>, request: seq<Byte>, reply: seq<Byte>)
    requires matches(code)
    ensures var r := Run(rev, Config(Some(matches)), Init,
                         [DtuConnect, Data(0, code), ModbusConnect, Data(1, request), Data(0, reply)]);
      && r.Ok? && r.value.out == [Write(0, request), Write(1, reply)]
      && r.value.next.dtuSocket == Some(0) && r.value.next.modbusSocket == Some(1)
  {
    var cfg := Config(Some(matches));
    var out := [Write(0, request), Write(1, reply)];
    var t1 := Step(rev, cfg, Init, DtuConnect).value;
    assert t1.out == [] && t1.next.awaitingCode == {0} && t1.next.dtuSocket.None?;
    var t2 := Step(rev, cfg, t1.next, Data(0, code)).value;
    assert t2.out == [] && t2.next.dtuSocket == Some(0) && t2.next.dtuHandlers == {0};
    assert t2.next.awaitingCode == {} && t2.next.modbusHandlers == {} && t2.next.nextId == 1;
    var t3 := Step(rev, cfg, t2.next, ModbusConnect).value;
    assert t3.out == [] && t3.next.modbusSocket == Some(1) && t3.next.modbusHandlers == {1};
    assert t3.next.dtuSocket == Some(0) && t3.next.dtuHandlers == {0} && t3.next.awaitingCode == {};
    var final := t3.next;
    assert Step(rev, cfg, final, Data(1, request)).value == Transition(final, [Write(0, request)]);
    assert Step(rev, cfg, final, Data(0, reply)).value == Transition(final, [Write(1, reply)]);
    var e5 := [Data(0, reply)];
    var e4 := [Data(1, request)] + e5;
    var e3 := [ModbusConnect] + e4;
    var e2 := [Data(0, code)] + e3;
    assert Run(rev, cfg, final, e5) == Ok(Transition(final, [Write(1, reply)])) by {
      RunCons(rev, cfg, final, Data(0, reply), []);
      assert [Data(0, reply)] + [] == e5;
      assert Run(rev, cfg, final, []) == Ok(Transition(final, []));
      assert [Write(1, reply)] + [] == [Write(1, reply)];
    }
    assert Run(rev, cfg, final, e4) == Ok(Transition(final, out)) by {
      RunCons(rev, cfg, final, Data(1, request), e5);
      assert [Write(0, request)] + [Write(1, reply)] == out;
    }
    assert Run(rev, cfg, t2.next, e3) == Ok(Transition(final, out)) by {
      RunCons(rev, cfg, t2.next, ModbusConnect, e4);
      assert t3.out + out == out;
    }
    assert Run(rev, cfg, t1.next, e2) == Ok(Transition(final, out)) by {
      RunCons(rev, cfg, t1.next, Data(0, code), e3);
      assert t2.out + out == out;
    }
    assert Run(rev, cfg, Init, [DtuConnect] + e2) == Ok(Transition(final, out)) by {
      RunCons(rev, cfg, Init, DtuConnect, e2);
      assert t1.out + out == out;
    }
    assert [DtuConnect] + e2 == [DtuConnect, Data(0, code), ModbusConnect, Data(1, request), Data(0, reply)];
  }

  // ---------------------------------------------------------------------------
  // Two DTUs in the handshake at once

  /** As written, a DTU that completes its handshake after another was promoted
      takes the slot while the first keeps its listeners: two DTU sockets are
      live in the forwarding path. */
  lemma AsWrittenHandshakeDisplaces(cfg: Config, g: State, s: SocketId, chunk: seq<Byte>)
    requires Inv(cfg, g) && DtuPaired(g) && s in g.awaitingCode
    requires g.dtuSocket.Some? && cfg.dtuCode.value(chunk)
    ensures var next := Step(AsWritten, cfg, g, Data(s, chunk)).value.next;
      && next.dtuSocket == Some(s)
      && g.dtuSocket.value in next.dtuHandlers
      && !DtuPaired(next)
  {
  }

  /** The concrete run: DTUs 0 and 1 both connect and send a valid code, then
      DTU 0 disconnects. Its `close` listener empties the slot although DTU 1
      is still connected, so a Modbus client (socket 2) gets an exception
      reply, while DTU 1's data is still forwarded to it. */
  lemma TwoHandshakesAsWritten(matches: CodeMatcher, code: seq<Byte>, request: seq<Byte>, reply: seq<Byte>)
    requires matches(code) && Frame.BuildError(request).Ok?
    ensures var r := Run(AsWritten, Config(Some(matches)), Init,
                         [DtuConnect, DtuConnect, Data(0, code), Data(1, code), Close(0),
                          ModbusConnect, Data(2, request), Data(1, reply)]);
      && r.Ok?
      && r.value.next.dtuSocket.None? && r.value.next.dtuHandlers == {1}
      && r.value.out == [Write(2, Frame.BuildError(request).value), Write(2, reply)]
  {
    var cfg := Config(Some(matches));
    var g1, g2, g3, g4, g5, g6 := TwoHandshakesStates(matches, code);
    var out := [Write(2, Frame.BuildError(request).value), Write(2, reply)];
    var e7 := [Data(2, request), Data(1, reply)];
    TwoHandshakesTail(cfg, g6, request, reply);
    var e6 := [ModbusConnect] + e7;
    var e5 := [Close(0)] + e6;
    var e4 := [Data(1, code)] + e5;
    var e3 := [Data(0, code)] + e4;
    var e2 := [DtuConnect] + e3;
    var e1 := [DtuConnect] + e2;
    assert [] + out == out;
    RunStep(AsWritten, cfg, g5, ModbusConnect, e7, g6, [], g6, out);
    RunStep(AsWritten, cfg, g4, Close(0), e6, g5, [], g6, out);
    RunStep(AsWritten, cfg, g3, Data(1, code), e5, g4, [], g6, out);
    RunStep(AsWritten, cfg, g2, Data(0, code), e4, g3, [], g6, out);
    RunStep(AsWritten, cfg, g1, DtuConnect, e3, g2, [], g6, out);
    RunStep(AsWritten, cfg, Init, DtuConnect, e2, g1, [], g6, out);
    assert e1 == [DtuConnect, DtuConnect, Data(0, code), Data(1, code), Close(0),
                  ModbusConnect, Data(2, request), Data(1, reply)];
  }

  /** The last two events of that run: the Modbus request gets an exception
      reply and the displaced DTU's data still reaches the client. */
  lemma TwoHandshakesTail(cfg: Config, g6: State, request: seq<Byte>, reply: seq<Byte>)
    requires g6.dtuSocket.None? && g6.dtuHandlers == {1} && g6.awaitingCode == {}
    requires g6.modbusSocket == Some(2) && g6.modbusHandlers == {2}
    requires Frame.BuildError(request).Ok?
    ensures Run(AsWritten, cfg, g6, [Data(2, request), Data(1, reply)])
         == Ok(Transition(g6, [Write(2, Frame.BuildError(request).value), Write(2, reply)]))
  {
    var w1, w2 := Write(2, Frame.BuildError(request).value), Write(2, reply);
    assert Step(AsWritten, cfg, g6, Data(2, request)) == Ok(Transition(g6, [w1]));
    assert Step(AsWritten, cfg, g6, Data(1, reply)) == Ok(Transition(g6, [w2]));
    assert Run(AsWritten, cfg, g6, [Data(1, reply)]) == Ok(Transition(g6, [w2])) by {
      RunCons(AsWritten, cfg, g6, Data(1, reply), []);
      assert [Data(1, reply)] + [] == [Data(1, reply)];
      assert Run(AsWritten, cfg, g6, []) == Ok(Transition(g6, []));
      assert [w2] + [] == [w2];
    }
    RunCons(AsWritten, cfg, g6, Data(2, request), [Data(1, reply)]);
    assert [Data(2, request)] + [Data(1, reply)] == [Data(2, request), Data(1, reply)];
    assert [w1] + [w2] == [w1, w2];
  }

  /** The states of that run after each of its first six events, none of
      which produces output. */
  lemma TwoHandshakesStates(matches: CodeMatcher, code: seq<Byte>) returns (g1: State, g2: State, g3: State, g4: State, g5: State, g6: State)
    requires matches(code)
    ensures var cfg := Config(Some(matches));
      && Step(AsWritten, cfg, Init, DtuConnect) == Ok(Transition(g1, []))
      && Step(AsWritten, cfg, g1, DtuConnect) == Ok(Transition(g2, []))
      && Step(AsWritten, cfg, g2, Data(0, code)) == Ok(Transition(g3, []))
      && Step(AsWritten, cfg, g3, Data(1, code)) == Ok(Transition(g4, []))
      && Step(AsWritten, cfg, g4, Close(0)) == Ok(Transition(g5, []))
      && Step(AsWritten, cfg, g5, ModbusConnect) == Ok(Transition(g6, []))
    ensures g4.dtuSocket == Some(1) && g4.dtuHandlers == {0, 1}
    ensures g6.dtuSocket.None? && g6.dtuHandlers == {1} && g6.awaitingCode == {}
    ensures g6.modbusSocket == Some(2) && g6.modbusHandlers == {2}
  {
    var cfg := Config(Some(matches));
    g1 := Step(AsWritten, cfg, Init, DtuConnect).value.next;
    assert g1.dtuSocket.None? && g1.awaitingCode == {0} && g1.dtuHandlers == {} && g1.nextId == 1;
    g2 := Step(AsWritten, cfg, g1, DtuConnect).value.next;
    assert g2.dtuSocket.None? && g2.awaitingCode == {0, 1} && g2.dtuHandlers == {};
    g3 := Step(AsWritten, cfg, g2, Data(0, code)).value.next;
    assert g3.awaitingCode == {1} && g3.dtuHandlers == {0};
    g4 := Step(AsWritten, cfg, g3, Data(1, code)).value.next;
    assert g4.awaitingCode == {} && g4.dtuHandlers == {0, 1};
    g5 := Step(AsWritten, cfg, g4, Close(0)).value.next;
    assert g5.dtuSocket.None? && g5.dtuHandlers == {1} && g5.modbusSocket.None? && g5.nextId == 2;
    g6 := Step(AsWritten, cfg, g5, ModbusConnect).value.next;
  }

  /** Running a non-empty sequence of events is one step followed by the rest. */
  lemma RunCons(rev: Revision, cfg: Config, g: State, e: Event, rest: seq<Event>)
    requires Step(rev, cfg, g, e).Ok?
    ensures var t := Step(rev, cfg, g, e).value;
      && (Run(rev, cfg, t.next, rest).Err? ==> Run(rev, cfg, g, [e] + rest) == Run(rev, cfg, t.next, rest))
      && (Run(rev, cfg, t.next, rest).Ok? ==>
            Run(rev, cfg, g, [e] + rest)
            == Ok(Transition(Run(rev, cfg, t.next, rest).value.next, t.out + Run(rev, cfg, t.next, rest).value.out)))
  {
  }

  /** The same, for a step whose transition and continuation are known. */
  lemma RunStep(rev: Revision, cfg: Config, g: State, e: Event, rest: seq<Event>,
                mid: State, out1: seq<Action>, last: State, out2: seq<Action>)
    requires Step(rev, cfg, g, e) == Ok(Transition(mid, out1))
    requires Run(rev, cfg, mid, rest) == Ok(Transition(last, out2))
    ensures Run(rev, cfg, g, [e] + rest) == Ok(Transition(last, out1 + out2))
  {
    RunCons(rev, cfg, g, e, rest);
  }

  /** The corrected handshake keeps at most one DTU in the forwarding path. */
  lemma CorrectedStepKeepsPairing(cfg: Config, g: State, e: Event)
    requires Inv(cfg, g) && DtuPaired(g)
    ensures var r := Step(Corrected, cfg, g, e);
      r.Ok? ==> Inv(cfg, r.value.next) && DtuPaired(r.value.next)
  {
  }

  lemma {:induction false} CorrectedRunKeepsPairing(cfg: Config, g: State, events: seq<Event>)
    requires Inv(cfg, g) && DtuPaired(g)
    ensures var r := Run(Corrected, cfg, g, events);
      r.Ok? ==> Inv(cfg, r.value.next) && DtuPaired(r.value.next)
    decreases |events|
  {
    if events != [] {
      CorrectedStepKeepsPairing(cfg, g, events[0]);
      var r := Step(Corrected, cfg, g, events[0]);
      if r.Ok? {
        CorrectedRunKeepsPairing(cfg, r.value.next, events[1..]);
      }
    }
  }

  // ---------------------------------------------------------------------------
  // A DTU ended by the handshake timer

  /** A socket that is out of the gateway for good: it has been accepted and
      holds no slot, no listener and no timer. */
  predicate Retired(g: State, s: SocketId) {
    && s < g.nextId
    && s !in g.awaitingCode && s !in g.codeTimers
    && s !in g.dtuHandlers && s !in g.modbusHandlers
    && g.dtuSocket != Some(s) && g.modbusSocket != Some(s)
  }

  /** As written, the timer ends DTU 0 but its handshake listener stays: a
      matching chunk that arrives before the socket closes promotes the ended
      socket into the DTU slot. */
  lemma TimedOutDtuPromotedAsWritten(matches: CodeMatcher, code: seq<Byte>)
    requires matches(code)
    ensures var r := Run(AsWritten, Config(Some(matches)), Init, [DtuConnect, CodeTimeout(0), Data(0, code)]);
      && r.Ok? && r.value.out == [End(0)]
      && r.value.next.dtuSocket == Some(0) && 0 in r.value.next.dtuHandlers
      && !Retired(r.value.next, 0)
  {
    var cfg := Config(Some(matches));
    var h1 := Step(AsWritten, cfg, Init, DtuConnect).value.next;
    assert h1.awaitingCode == {0} && h1.codeTimers == {0} && h1.dtuHandlers == {} && h1.nextId == 1;
    var h2 := Step(AsWritten, cfg, h1, CodeTimeout(0)).value.next;
    assert h2.awaitingCode == {0} && h2.codeTimers == {} && h2.dtuSocket.None?;
    var h3 := Step(AsWritten, cfg, h2, Data(0, code)).value.next;
    assert Step(AsWritten, cfg, h2, Data(0, code)) == Ok(Transition(h3, []));
    assert h3.dtuSocket == Some(0) && h3.dtuHandlers == {0};
    assert Run(AsWritten, cfg, h3, []) == Ok(Transition(h3, []));
    RunStep(AsWritten, cfg, h2, Data(0, code), [], h3, [], h3, []);
    assert [Data(0, code)] + [] == [Data(0, code)];
    RunStep(AsWritten, cfg, h1, CodeTimeout(0), [Data(0, code)], h2, [End(0)], h3, []);
    assert [End(0)] + [] == [End(0)];
    RunStep(AsWritten, cfg, Init, DtuConnect, [CodeTimeout(0)] + [Data(0, code)], h1, [], h3, [End(0)]);
    assert [DtuConnect] + ([CodeTimeout(0)] + [Data(0, code)]) == [DtuConnect, CodeTimeout(0), Data(0, code)];
    assert [] + [End(0)] == [End(0)];
  }

  /** Whatever happens next, a retired socket stays retired, in both
      revisions: ids are never reused and only sockets still listening for
      their code can be promoted. */
  lemma StepKeepsRetired(rev: Revision, cfg: Config, g: State, e: Event, s: SocketId)
    requires Inv(cfg, g) && Retired(g, s)
    ensures Step(rev, cfg, g, e).Ok? ==> Retired(Step(rev, cfg, g, e).value.next, s)
  {
  }

  lemma {:induction false} RunKeepsRetired(rev: Revision, cfg: Config, g: State, events: seq<Event>, s: SocketId)
    requires Inv(cfg, g) && Retired(g, s)
    ensures Run(rev, cfg, g, events).Ok? ==> Retired(Run(rev, cfg, g, events).value.next, s)
    decreases |events|
  {
    if events != [] {
      StepKeepsRetired(rev, cfg, g, events[0], s);
      StepPreservesInv(rev, cfg, g, events[0]);
      var r := Step(rev, cfg, g, events[0]);
      if r.Ok? {
        RunKeepsRetired(rev, cfg, r.value.next, events[1..], s);
      }
    }
  }

  /** In the corrected revision every socket the gateway ends is retired by
      that very step, the handshake timer's included. */
  lemma CorrectedEndRetires(cfg: Config, g: State, e: Event)
    requires Inv(cfg, g)
    ensures var r := Step(Corrected, cfg, g, e);
      r.Ok? ==> forall a :: a in r.value.out && a.End? ==> Retired(r.value.next, a.socket)
  {
  }

  /** So in a corrected run, every socket the gateway ended is still out of
      the gateway at the end: an ended DTU is never promoted. */
  lemma {:induction false} CorrectedEndedStayRetired(cfg: Config, g: State, events: seq<Event>)
    requires Inv(cfg, g)
    ensures var r := Run(Corrected, cfg, g, events);
      r.Ok? ==> forall a :: a in r.value.out && a.End? ==> Retired(r.value.next, a.socket)
    decreases |events|
  {
    if events != [] {
      var r := Step(Corrected, cfg, g, events[0]);
      if r.Ok? {
        var t := r.value;
        StepPreservesInv(Corrected, cfg, g, events[0]);
        CorrectedEndRetires(cfg, g, events[0]);
        CorrectedEndedStayRetired(cfg, t.next, events[1..]);
        if t.out != [] && t.out[0].End? {
          RunKeepsRetired(Corrected, cfg, t.next, events[1..], t.out[0].socket);
        }
      }
    }
  }
}
