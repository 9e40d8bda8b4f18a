/** The reply builders of bob_wemo_service/msg_processing.py. Each handler
    decodes the request into a message object, may call the device gateway,
    takes a fresh reference number, and answers with one message whose
    source and destination are the request's destination and source. */
module MsgProcessing {
  import opened Wrappers
  import opened Text
  import opened Values
  import opened FieldCheckers
  import opened RefNumbers
  import opened Messages

  /** The `message_types` table read from the configuration: the type code
      of each message kind. */
  datatype MessageTypes = MessageTypes(
    heartbeat: string, heartbeatAck: string,
    getDeviceState: string, getDeviceStateAck: string,
    setDeviceState: string, setDeviceStateAck: string)

  /** A request made to the device gateway. */
  datatype GatewayCall =
    | ReadStatus(name: string, addr: string, status: string, lastSeen: string)
    | TurnOn(name: string, addr: string, lastSeen: string)
    | TurnOff(name: string, addr: string, lastSeen: string)

  /** What the gateway answers: the new status and last-seen text. */
  datatype Reply = Reply(status: string, lastSeen: string)

  /** The device gateway seen from the handlers: it records every call it
      receives, and its answer is a fixed function of the calls before and
      the call itself (the physical devices and the network behind it are
      not part of this model). */
  class Gateway {
    var calls: seq<GatewayCall>
    const respond: (seq<GatewayCall>, GatewayCall) -> Reply

    constructor (respond: (seq<GatewayCall>, GatewayCall) -> Reply)
      ensures calls == [] && this.respond == respond
    {
      calls := [];
      this.respond := respond;
    }

    method Call(c: GatewayCall) returns (r: Reply)
      modifies this
      ensures calls == old(calls) + [c]
      ensures r == respond(old(calls), c)
    {
      r := respond(calls, c);
      calls := calls + [c];
    }
  }

  /** What a handler did: the replies it returned, whether a `ValueError`
      escaped it, and the reference counter and gateway log afterwards. */
  datatype Handled = Handled(replies: seq<string>, raised: bool, counter: int, calls: seq<GatewayCall>)

  /** The header keyword arguments of every reply: a fresh ref, the
      request's source as destination, its destination as source, and the
      reply's type code. */
  function ReplyHeader(m: Fields, ref: string, code: string): seq<(Key, Value)>
  {
    [(Ref, StrV(ref)), (DestAddr, StrV(m.sourceAddr)), (DestPort, StrV(m.sourcePort)),
     (SourceAddr, StrV(m.destAddr)), (SourcePort, StrV(m.destPort)), (MsgType, StrV(code))]
  }

  /** The reply list of a handler once its reply object is built. */
  function Replies(l: Layout, ack: Applied): seq<string>
  {
    if ack.raised then [] else [Encode(l, ack.fields)]
  }

  // ---------------------------------------------------------------------
  // the specifications
  // ---------------------------------------------------------------------

  /** `process_heartbeat_msg`: a heartbeat ack back to the sender. */
  function ProcessHeartbeatSpec(msg: string, counter: int, calls: seq<GatewayCall>, types: MessageTypes,
                                ipv4: Value -> bool, now: Timestamp): Handled
  {
    var d := Decode(HeaderOnly, Blank, StrV(msg), ipv4, now);
    if d.raised then Handled([], true, counter, calls)
    else
      var ref := NextRef(counter);
      var ack := ApplyAll(HeaderOnly, Blank, ReplyHeader(d.fields, IntToString(ref), types.heartbeatAck), ipv4, now);
      Handled(Replies(HeaderOnly, ack), ack.raised, ref, calls)
  }

  /** The keyword arguments of the get-device-state ack: the header, the
      device name, `str()` of the gateway's status and the first 19
      characters of `str()` of its last-seen value (no device address). */
  function GetAckArgs(m: Fields, ref: string, code: string, r: Reply): seq<(Key, Value)>
  {
    ReplyHeader(m, ref, code) +
    [(DevName, StrV(m.devName)), (DevStatus, StrV(r.status)), (DevLastSeen, StrV(Take(r.lastSeen, 19)))]
  }

  /** `get_wemo_state`: one `read_status` call with the decoded name,
      address, status and last-seen, then one ack. */
  function GetWemoStateSpec(msg: string, counter: int, calls: seq<GatewayCall>,
                            respond: (seq<GatewayCall>, GatewayCall) -> Reply,
                            types: MessageTypes, ipv4: Value -> bool, now: Timestamp): Handled
  {
    var d := Decode(DeviceState, Blank, StrV(msg), ipv4, now);
    if d.raised then Handled([], true, counter, calls)
    else
      var m := d.fields;
      var call := ReadStatus(m.devName, m.devAddr, m.devStatus, m.devLastSeen);
      var r := respond(calls, call);
      var ref := NextRef(counter);
      var ack := ApplyAll(DeviceState, Blank, GetAckArgs(m, IntToString(ref), types.getDeviceStateAck, r), ipv4, now);
      Handled(Replies(DeviceState, ack), ack.raised, ref, calls + [call])
  }

  /** The gateway call a set-device-state command asks for: "1" or "on"
      turns the device on, "0" or "off" turns it off, anything else none. */
  function CommandCall(m: Fields): Option<GatewayCall>
  {
    if m.devCmd == "1" || m.devCmd == "on" then Some(TurnOn(m.devName, m.devAddr, m.devLastSeen))
    else if m.devCmd == "0" || m.devCmd == "off" then Some(TurnOff(m.devName, m.devAddr, m.devLastSeen))
    else None
  }

  /** The keyword arguments of the set-device-state ack: the header, the
      device name, and the status and last-seen passed on as they are. */
  function SetAckArgs(m: Fields, ref: string, code: string, status: string, lastSeen: string): seq<(Key, Value)>
  {
    ReplyHeader(m, ref, code) +
    [(DevName, StrV(m.devName)), (DevStatus, StrV(status)), (DevLastSeen, StrV(lastSeen))]
  }

  /** `set_wemo_state`: at most one gateway call, chosen by the command, then
      one ack; without a valid command the ack echoes the request's status
      and last-seen. */
  function SetWemoStateSpec(msg: string, counter: int, calls: seq<GatewayCall>,
                            respond: (seq<GatewayCall>, GatewayCall) -> Reply,
                            types: MessageTypes, ipv4: Value -> bool, now: Timestamp): Handled
  {
    var d := Decode(DeviceCommand, Blank, StrV(msg), ipv4, now);
    if d.raised then Handled([], true, counter, calls)
    else
      var m := d.fields;
      var ref := NextRef(counter);
      match CommandCall(m)
      case Some(call) =>
        var r := respond(calls, call);
        var ack := ApplyAll(DeviceState, Blank, SetAckArgs(m, IntToString(ref), types.setDeviceStateAck, r.status, r.lastSeen), ipv4, now);
        Handled(Replies(DeviceState, ack), ack.raised, ref, calls + [call])
      case None =>
        var ack := ApplyAll(DeviceState, Blank, SetAckArgs(m, IntToString(ref), types.setDeviceStateAck, m.devStatus, m.devLastSeen), ipv4, now);
        Handled(Replies(DeviceState, ack), ack.raised, ref, calls)
  }

  /** The keyword arguments of the heartbeat to one destination. */
  function HeartbeatArgs(ref: string, dest: (string, string), sourceAddr: string, sourcePort: string, code: string): seq<(Key, Value)>
  {
    [(Ref, StrV(ref)), (DestAddr, StrV(dest.0)), (DestPort, StrV(dest.1)),
     (SourceAddr, StrV(sourceAddr)), (SourcePort, StrV(sourcePort)), (MsgType, StrV(code))]
  }

  /** The heartbeat to one destination, as text. */
  function HeartbeatText(ref: string, dest: (string, string), sourceAddr: string, sourcePort: string,
                         code: string, ipv4: Value -> bool, now: Timestamp): string
  {
    Encode(HeaderOnly, ApplyAll(HeaderOnly, Blank, HeartbeatArgs(ref, dest, sourceAddr, sourcePort, code), ipv4, now).fields)
  }

  // ---------------------------------------------------------------------
  // facts about running setters
  // ---------------------------------------------------------------------

  /** A header-only message has no last-seen field, so its setters never
      raise. */
  lemma {:induction false} HeaderOnlyNeverRaises(f: Fields, ps: seq<(Key, Value)>, ipv4: Value -> bool, now: Timestamp)
    ensures !ApplyAll(HeaderOnly, f, ps, ipv4, now).raised
    decreases |ps|
  {
    if ps != [] {
      HeaderOnlyNeverRaises(f, ps[..|ps| - 1], ipv4, now);
    }
  }

  /** Running `ps + qs` is running `ps`, then `qs` from where it left off. */
  lemma {:induction false} ApplyAllAppend(l: Layout, f: Fields, ps: seq<(Key, Value)>, qs: seq<(Key, Value)>,
                                          ipv4: Value -> bool, now: Timestamp)
    ensures ApplyAll(l, f, ps + qs, ipv4, now) ==
      (var a := ApplyAll(l, f, ps, ipv4, now); if a.raised then a else ApplyAll(l, a.fields, qs, ipv4, now))
    decreases |qs|
  {
    if qs == [] {
      assert ps + qs == ps;
    } else {
      var q' := qs[..|qs| - 1];
      assert (ps + qs)[..|ps + qs| - 1] == ps + q';
      assert (ps + qs)[|ps + qs| - 1] == qs[|qs| - 1];
      ApplyAllAppend(l, f, ps, q', ipv4, now);
    }
  }

  /** The text a validated field ends up holding when a blank record's
      setter is given `s`: `s` itself if accepted, else still empty. */
  function Kept(k: Key, s: string, ipv4: Value -> bool): string
  {
    if Accepts(k, StrV(s), ipv4) then s else ""
  }

  /** The header of a reply, as stored: the ref and type code if they are
      in range, and the request's address and ports swapped. */
  function SwappedHeader(m: Fields, ref: string, code: string, ipv4: Value -> bool): Fields
  {
    Blank.(ref := Kept(Ref, ref, ipv4), destAddr := m.sourceAddr, destPort := m.sourcePort,
           sourceAddr := m.destAddr, sourcePort := m.destPort, msgType := Kept(MsgType, code, ipv4))
  }

  /** The header fields of a message hold what their setters can store. */
  predicate HeaderOk(m: Fields, ipv4: Value -> bool)
  {
    forall k :: k in HeaderKeys ==> FieldOk(k, Get(m, k), ipv4)
  }

  /** A header setter given text, on a record where that field is still
      empty, leaves the text it keeps there. */
  lemma SetKept(g: Fields, k: Key, s: string, ipv4: Value -> bool, now: Timestamp)
    requires k in HeaderKeys && Get(g, k) == ""
    ensures SetField(g, k, StrV(s), ipv4, now) == Applied(Put(g, k, Kept(k, s, ipv4)), false)
  {
    var r := SetField(g, k, StrV(s), ipv4, now);
    forall k' ensures Get(r.fields, k') == Get(Put(g, k, Kept(k, s, ipv4)), k') {
    }
    FieldsExtensional(r.fields, Put(g, k, Kept(k, s, ipv4)));
  }

  /** Building a reply from the header of a well-stored request: the
      addresses and ports come out swapped and nothing raises. */
  lemma {:induction false} ReplyHeaderSwaps(l: Layout, m: Fields, ref: string, code: string, ipv4: Value -> bool, now: Timestamp)
    requires HeaderOk(m, ipv4)
    ensures ApplyAll(l, Blank, ReplyHeader(m, ref, code), ipv4, now) == Applied(SwappedHeader(m, ref, code, ipv4), false)
  {
    var ps := ReplyHeader(m, ref, code);
    var g1 := Blank.(ref := Kept(Ref, ref, ipv4));
    var g2 := g1.(destAddr := m.sourceAddr);
    var g3 := g2.(destPort := m.sourcePort);
    var g4 := g3.(sourceAddr := m.destAddr);
    var g5 := g4.(sourcePort := m.destPort);
    var g6 := g5.(msgType := Kept(MsgType, code, ipv4));
    var gs := [Blank, g1, g2, g3, g4, g5, g6];
    forall i | 0 <= i < |ps| ensures SetField(gs[i], ps[i].0, ps[i].1, ipv4, now) == Applied(gs[i + 1], false) {
      if i == 0 {
        SetKept(Blank, Ref, ref, ipv4, now);
      } else if i == 1 {
        assert SourceAddr in HeaderKeys;
        SetOwnText(g1, DestAddr, m.sourceAddr, ipv4, now);
      } else if i == 2 {
        assert SourcePort in HeaderKeys;
        SetOwnText(g2, DestPort, m.sourcePort, ipv4, now);
      } else if i == 3 {
        assert DestAddr in HeaderKeys;
        SetOwnText(g3, SourceAddr, m.destAddr, ipv4, now);
      } else if i == 4 {
        assert DestPort in HeaderKeys;
        SetOwnText(g4, SourcePort, m.destPort, ipv4, now);
      } else {
        SetKept(g5, MsgType, code, ipv4, now);
      }
    }
    assert forall i :: 0 <= i < |ps| ==> ps[i].0 in KeysOf(l);
    ApplyChain(l, ps, gs, ipv4, now);
  }

  /** A decoded request satisfies the message invariant, so in particular
      its header fields are well stored. */
  lemma DecodedHeaderOk(l: Layout, msg: string, ipv4: Value -> bool, now: Timestamp)
    ensures WellStored(l, Decode(l, Blank, StrV(msg), ipv4, now).fields, ipv4)
    ensures HeaderOk(Decode(l, Blank, StrV(msg), ipv4, now).fields, ipv4)
  {
    BlankWellStored(l, ipv4);
    DecodeKeepsInvariant(l, Blank, StrV(msg), ipv4, now);
  }

  // ---------------------------------------------------------------------
  // what the handlers promise
  // ---------------------------------------------------------------------

  /** `process_heartbeat_msg` always answers with exactly one message and
      consumes one reference; the ack's destination is the request's
      source, its source the request's destination, its type the
      heartbeat-ack code (when that code is in range), and its ref the new
      counter value. */
  lemma HeartbeatReply(msg: string, counter: int, calls: seq<GatewayCall>, types: MessageTypes,
                       ipv4: Value -> bool, now: Timestamp)
    ensures var h := ProcessHeartbeatSpec(msg, counter, calls, types, ipv4, now);
      var m := Decode(HeaderOnly, Blank, StrV(msg), ipv4, now).fields;
      && !h.raised && h.counter == NextRef(counter) && h.calls == calls
      && h.replies == [Encode(HeaderOnly, SwappedHeader(m, IntToString(NextRef(counter)), types.heartbeatAck, ipv4))]
  {
    var d := Decode(HeaderOnly, Blank, StrV(msg), ipv4, now);
    assert !d.raised by {
      if |Split(msg, ',')| >= Arity(HeaderOnly) {
        HeaderOnlyNeverRaises(Blank, Pairs(KeysOf(HeaderOnly), Split(msg, ',')), ipv4, now);
      }
    }
    DecodedHeaderOk(HeaderOnly, msg, ipv4, now);
    ReplyHeaderSwaps(HeaderOnly, d.fields, IntToString(NextRef(counter)), types.heartbeatAck, ipv4, now);
  }

  /** A device request whose last-seen piece the last-seen validator
      rejects is not handled: its decoding raises, so no gateway call is
      made, no reference is used, no reply is built, and the raise escapes
      the handler. */
  lemma BadRequestHalts(msg: string, counter: int, calls: seq<GatewayCall>,
                        respond: (seq<GatewayCall>, GatewayCall) -> Reply,
                        types: MessageTypes, ipv4: Value -> bool, now: Timestamp)
    ensures var parts := Split(msg, ',');
      |parts| >= Arity(DeviceState) && IsValidDatetime(StrV(parts[Arity(DeviceState) - 1]), "", now).ValueError? ==>
        GetWemoStateSpec(msg, counter, calls, respond, types, ipv4, now) == Handled([], true, counter, calls)
    ensures var parts := Split(msg, ',');
      |parts| >= Arity(DeviceCommand) && IsValidDatetime(StrV(parts[Arity(DeviceCommand) - 1]), "", now).ValueError? ==>
        SetWemoStateSpec(msg, counter, calls, respond, types, ipv4, now) == Handled([], true, counter, calls)
  {
    DecodeRaises(DeviceState, msg, ipv4, now);
    DecodeRaises(DeviceCommand, msg, ipv4, now);
  }

  /** A ref taken from a counter in range is stored as its decimal text. */
  lemma RefKept(counter: int, ipv4: Value -> bool)
    requires Lowest <= counter <= Highest
    ensures Kept(Ref, IntToString(NextRef(counter)), ipv4) == IntToString(NextRef(counter))
  {
    InIntRangeOfText(NextRef(counter), 100, 999);
  }

  /** `get_wemo_state` makes exactly one gateway call, `read_status` with the
      decoded name, address, status and last-seen, and consumes one
      reference. Unless the ack's last-seen setter raises, it answers with one
      message: the swapped header, the device name, the gateway's status
      (lower-cased by the status setter) and its last-seen cut to 19
      characters whenever that cut is a timestamp. */
  lemma GetWemoStateReply(msg: string, counter: int, calls: seq<GatewayCall>,
                          respond: (seq<GatewayCall>, GatewayCall) -> Reply,
                          types: MessageTypes, ipv4: Value -> bool, now: Timestamp)
    requires !Decode(DeviceState, Blank, StrV(msg), ipv4, now).raised
    ensures var h := GetWemoStateSpec(msg, counter, calls, respond, types, ipv4, now);
      var m := Decode(DeviceState, Blank, StrV(msg), ipv4, now).fields;
      var call := ReadStatus(m.devName, m.devAddr, m.devStatus, m.devLastSeen);
      var r := respond(calls, call);
      var cut := Take(r.lastSeen, 19);
      var ack := SwappedHeader(m, IntToString(NextRef(counter)), types.getDeviceStateAck, ipv4)
                   .(devName := m.devName, devStatus := Lower(r.status));
      && h.calls == calls + [call] && h.counter == NextRef(counter)
      && (h.raised <==> IsValidDatetime(StrV(cut), "", now).ValueError?)
      && (!h.raised ==> h.replies == [Encode(DeviceState, ack.(devLastSeen := IsValidDatetime(StrV(cut), "", now).value))])
      && (IsStamp(cut) ==> !h.raised && h.replies == [Encode(DeviceState, ack.(devLastSeen := cut))])
  {
    var m := Decode(DeviceState, Blank, StrV(msg), ipv4, now).fields;
    var call := ReadStatus(m.devName, m.devAddr, m.devStatus, m.devLastSeen);
    var r := respond(calls, call);
    var ref := IntToString(NextRef(counter));
    var code := types.getDeviceStateAck;
    DecodedHeaderOk(DeviceState, msg, ipv4, now);
    DeviceAck(m, ref, code, r.status, Take(r.lastSeen, 19), ipv4, now);
    assert GetAckArgs(m, ref, code, r) == SetAckArgs(m, ref, code, r.status, Take(r.lastSeen, 19));
  }

  /** An ack of the device-state layout built from a well-stored request:
      the swapped header, then the name, the lower-cased status, and what the
      last-seen validator makes of the given text (starting from an empty
      field, so text that is no timestamp leaves it empty). Only that last
      setter can raise. */
  lemma DeviceAck(m: Fields, ref: string, code: string, status: string, lastSeen: string,
                  ipv4: Value -> bool, now: Timestamp)
    requires HeaderOk(m, ipv4)
    ensures var a := ApplyAll(DeviceState, Blank, SetAckArgs(m, ref, code, status, lastSeen), ipv4, now);
      var ack := SwappedHeader(m, ref, code, ipv4).(devName := m.devName, devStatus := Lower(status));
      var seen := IsValidDatetime(StrV(lastSeen), "", now);
      && (a.raised <==> seen.ValueError?)
      && (!a.raised ==> a.fields == ack.(devLastSeen := seen.value))
      && (IsStamp(lastSeen) ==> !a.raised && a.fields == ack.(devLastSeen := lastSeen))
  {
    var header := ReplyHeader(m, ref, code);
    var tail := [(DevName, StrV(m.devName)), (DevStatus, StrV(status)), (DevLastSeen, StrV(lastSeen))];
    var g := SwappedHeader(m, ref, code, ipv4);
    var ack := g.(devName := m.devName, devStatus := Lower(status));
    assert ApplyAll(DeviceState, Blank, SetAckArgs(m, ref, code, status, lastSeen), ipv4, now) ==
           ApplyAll(DeviceState, g, tail, ipv4, now) by {
      assert SetAckArgs(m, ref, code, status, lastSeen) == header + tail;
      ApplyAllAppend(DeviceState, Blank, header, tail, ipv4, now);
      ReplyHeaderSwaps(DeviceState, m, ref, code, ipv4, now);
    }
    assert ApplyAll(DeviceState, g, tail, ipv4, now) == SetField(ack, DevLastSeen, StrV(lastSeen), ipv4, now) by {
      DeviceTail(g, m.devName, status, lastSeen, ipv4, now);
    }
    if IsStamp(lastSeen) {
      if lastSeen == "" {
        EmptyKeepsInitial("", now);
      } else {
        StampIsFixedPoint(lastSeen, "", now);
      }
    }
  }

  lemma DeviceTail(g: Fields, name: string, status: string, lastSeen: string, ipv4: Value -> bool, now: Timestamp)
    ensures ApplyAll(DeviceState, g, [(DevName, StrV(name)), (DevStatus, StrV(status)), (DevLastSeen, StrV(lastSeen))], ipv4, now)
            == SetField(g.(devName := name, devStatus := Lower(status)), DevLastSeen, StrV(lastSeen), ipv4, now)
  {
    var tail := [(DevName, StrV(name)), (DevStatus, StrV(status)), (DevLastSeen, StrV(lastSeen))];
    var g1 := g.(devName := name);
    var g2 := g1.(devStatus := Lower(status));
    assert tail[..3] == tail;
    assert SetField(g, DevName, StrV(name), ipv4, now) == Applied(g1, false);
    assert SetField(g1, DevStatus, StrV(status), ipv4, now) == Applied(g2, false);
    ApplyChain(DeviceState, tail[..2], [g, g1, g2], ipv4, now);
    ApplyAllLast(DeviceState, g, tail, 2, ipv4, now);
  }

  /** `set_wemo_state` consumes one reference. The command "1" or "on" makes
      exactly one `turn_on` call and "0" or "off" exactly one `turn_off`
      call, each with the decoded name, address and last-seen; the ack then
      carries the gateway's status (lower-cased) and what the last-seen
      validator makes of its last-seen. Any other command makes no call, and
      the ack echoes the request's status and last-seen and never raises. */
  lemma SetWemoStateReply(msg: string, counter: int, calls: seq<GatewayCall>,
                          respond: (seq<GatewayCall>, GatewayCall) -> Reply,
                          types: MessageTypes, ipv4: Value -> bool, now: Timestamp)
    requires !Decode(DeviceCommand, Blank, StrV(msg), ipv4, now).raised
    ensures var h := SetWemoStateSpec(msg, counter, calls, respond, types, ipv4, now);
      var m := Decode(DeviceCommand, Blank, StrV(msg), ipv4, now).fields;
      var header := SwappedHeader(m, IntToString(NextRef(counter)), types.setDeviceStateAck, ipv4).(devName := m.devName);
      && h.counter == NextRef(counter)
      && ((m.devCmd == "1" || m.devCmd == "on") ==> h.calls == calls + [TurnOn(m.devName, m.devAddr, m.devLastSeen)])
      && ((m.devCmd == "0" || m.devCmd == "off") ==> h.calls == calls + [TurnOff(m.devName, m.devAddr, m.devLastSeen)])
      && (CommandCall(m).Some? ==>
            var r := respond(calls, CommandCall(m).value);
            var seen := IsValidDatetime(StrV(r.lastSeen), "", now);
            && (h.raised <==> seen.ValueError?)
            && (!h.raised ==> h.replies == [Encode(DeviceState, header.(devStatus := Lower(r.status), devLastSeen := seen.value))]))
      && (CommandCall(m).None? ==>
            && h.calls == calls && !h.raised
            && h.replies == [Encode(DeviceState, header.(devStatus := m.devStatus, devLastSeen := m.devLastSeen))])
  {
    var m := Decode(DeviceCommand, Blank, StrV(msg), ipv4, now).fields;
    var ref := IntToString(NextRef(counter));
    var code := types.setDeviceStateAck;
    DecodedHeaderOk(DeviceCommand, msg, ipv4, now);
    match CommandCall(m)
    case Some(call) =>
      var r := respond(calls, call);
      DeviceAck(m, ref, code, r.status, r.lastSeen, ipv4, now);
    case None =>
      assert DevStatus in KeysOf(DeviceCommand) && DevLastSeen in KeysOf(DeviceCommand);
      assert FieldOk(DevStatus, m.devStatus, ipv4) && FieldOk(DevLastSeen, m.devLastSeen, ipv4);
      LowerOfLower(m.devStatus);
      DeviceAck(m, ref, code, m.devStatus, m.devLastSeen, ipv4, now);
  }

  /** The heartbeat to one destination carries the ref, the destination,
      the given source and the heartbeat code, each kept only where its
      setter accepts it, and nothing else. */
  lemma HeartbeatFields(ref: string, dest: (string, string), sourceAddr: string, sourcePort: string,
                        code: string, ipv4: Value -> bool, now: Timestamp)
    ensures HeartbeatText(ref, dest, sourceAddr, sourcePort, code, ipv4, now) ==
      Encode(HeaderOnly, Blank.(ref := Kept(Ref, ref, ipv4), destAddr := Kept(DestAddr, dest.0, ipv4),
                                destPort := Kept(DestPort, dest.1, ipv4), sourceAddr := Kept(SourceAddr, sourceAddr, ipv4),
                                sourcePort := Kept(SourcePort, sourcePort, ipv4), msgType := Kept(MsgType, code, ipv4)))
  {
    var ps := HeartbeatArgs(ref, dest, sourceAddr, sourcePort, code);
    var g1 := Blank.(ref := Kept(Ref, ref, ipv4));
    var g2 := g1.(destAddr := Kept(DestAddr, dest.0, ipv4));
    var g3 := g2.(destPort := Kept(DestPort, dest.1, ipv4));
    var g4 := g3.(sourceAddr := Kept(SourceAddr, sourceAddr, ipv4));
    var g5 := g4.(sourcePort := Kept(SourcePort, sourcePort, ipv4));
    var g6 := g5.(msgType := Kept(MsgType, code, ipv4));
    var gs := [Blank, g1, g2, g3, g4, g5, g6];
    forall i | 0 <= i < |ps| ensures SetField(gs[i], ps[i].0, ps[i].1, ipv4, now) == Applied(gs[i + 1], false) {
      assert ps[i].0 == HeaderKeys[i];
      SetKept(gs[i], ps[i].0, ps[i].1.s, ipv4, now);
    }
    assert forall i :: 0 <= i < |ps| ==> ps[i].0 in KeysOf(HeaderOnly);
    ApplyChain(HeaderOnly, ps, gs, ipv4, now);
  }

  // ---------------------------------------------------------------------
  // the handlers
  // ---------------------------------------------------------------------

  /** The loop body of `create_heartbeat_msg`: a new ref, then a heartbeat
      built from it for one destination. */
  method CreateHeartbeatMsg(refNum: RefNum, dest: (string, string), sourceAddr: string,
                            sourcePort: string, types: MessageTypes, ipv4: Value -> bool, now: Timestamp)
    returns (text: string)
    modifies refNum
    ensures refNum.source == NextRef(old(refNum.source))
    ensures text == HeartbeatText(IntToString(refNum.source), dest, sourceAddr, sourcePort, types.heartbeat, ipv4, now)
  {
    var ref := refNum.New();
    var message := new Message(HeaderOnly, ipv4);
    var _ := message.Assign(HeartbeatArgs(ref, dest, sourceAddr, sourcePort, types.heartbeat), now);
    text := message.Complete();
  }

  /** `create_heartbeat_msg`: one heartbeat per destination, in destination
      order, the i-th carrying the ref of the i-th `new()` call. */
  method CreateHeartbeatMsgs(refNum: RefNum, destinations: seq<(string, string)>, sourceAddr: string,
                             sourcePort: string, types: MessageTypes, ipv4: Value -> bool, now: Timestamp)
    returns (out: seq<string>)
    modifies refNum
    ensures |out| == |destinations|
    ensures refNum.source == Iterate(old(refNum.source), |destinations|)
    ensures forall i {:trigger out[i]} :: 0 <= i < |destinations| ==>
      out[i] == HeartbeatText(IntToString(Iterate(old(refNum.source), i + 1)), destinations[i],
                              sourceAddr, sourcePort, types.heartbeat, ipv4, now)
  {
    ghost var start := refNum.source;
    out := [];
    var i := 0;
    while i < |destinations|
      invariant 0 <= i <= |destinations| && |out| == i
      invariant refNum.source == Iterate(start, i)
      invariant forall j {:trigger out[j]} :: 0 <= j < i ==>
        out[j] == HeartbeatText(IntToString(Iterate(start, j + 1)), destinations[j],
                                sourceAddr, sourcePort, types.heartbeat, ipv4, now)
    {
      var text := CreateHeartbeatMsg(refNum, destinations[i], sourceAddr, sourcePort, types, ipv4, now);
      out := out + [text];
      i := i + 1;
    }
  }

  /** `process_heartbeat_msg`. */
  method ProcessHeartbeat(refNum: RefNum, msg: string, types: MessageTypes, ipv4: Value -> bool, now: Timestamp)
    returns (replies: seq<string>, raised: bool)
    modifies refNum
    ensures var h := ProcessHeartbeatSpec(msg, old(refNum.source), [], types, ipv4, now);
      replies == h.replies && raised == h.raised && refNum.source == h.counter
  {
    var message := new Message(HeaderOnly, ipv4);
    raised := message.SetComplete(StrV(msg), now);
    if raised {
      return [], true;
    }
    var ref := refNum.New();
    var out := new Message(HeaderOnly, ipv4);
    raised := out.Assign(ReplyHeader(message.Contents(), ref, types.heartbeatAck), now);
    replies := if raised then [] else [out.Complete()];
  }

  /** `get_wemo_state`. */
  method GetWemoState(refNum: RefNum, gateway: Gateway, msg: string, types: MessageTypes,
                      ipv4: Value -> bool, now: Timestamp)
    returns (replies: seq<string>, raised: bool)
    modifies refNum, gateway
    ensures var h := GetWemoStateSpec(msg, old(refNum.source), old(gateway.calls), gateway.respond, types, ipv4, now);
      replies == h.replies && raised == h.raised && refNum.source == h.counter && gateway.calls == h.calls
  {
    var message := new Message(DeviceState, ipv4);
    raised := message.SetComplete(StrV(msg), now);
    if raised {
      return [], true;
    }
    var m := message.Contents();
    var r := gateway.Call(ReadStatus(m.devName, m.devAddr, m.devStatus, m.devLastSeen));
    var ref := refNum.New();
    var out := new Message(DeviceState, ipv4);
    raised := out.Assign(GetAckArgs(m, ref, types.getDeviceStateAck, r), now);
    replies := if raised then [] else [out.Complete()];
  }

  /** `set_wemo_state`. */
  method SetWemoState(refNum: RefNum, gateway: Gateway, msg: string, types: MessageTypes,
                      ipv4: Value -> bool, now: Timestamp)
    returns (replies: seq<string>, raised: bool)
    modifies refNum, gateway
    ensures var h := SetWemoStateSpec(msg, old(refNum.source), old(gateway.calls), gateway.respond, types, ipv4, now);
      replies == h.replies && raised == h.raised && refNum.source == h.counter && gateway.calls == h.calls
  {
    var message := new Message(DeviceCommand, ipv4);
    raised := message.SetComplete(StrV(msg), now);
    if raised {
      return [], true;
    }
    var m := message.Contents();
    var status, lastSeen;
    if m.devCmd == "1" || m.devCmd == "on" {
      var r := gateway.Call(TurnOn(m.devName, m.devAddr, m.devLastSeen));
      status, lastSeen := r.status, r.lastSeen;
    } else if m.devCmd == "0" || m.devCmd == "off" {
      var r := gateway.Call(TurnOff(m.devName, m.devAddr, m.devLastSeen));
      status, lastSeen := r.status, r.lastSeen;
    } else {
      status, lastSeen := m.devStatus, m.devLastSeen;
    }
    replies, raised := SendAck(refNum, m, status, lastSeen, types, ipv4, now);
  }

  /** The ack that closes `set_wemo_state`, under a fresh reference. */
  method SendAck(refNum: RefNum, m: Fields, status: string, lastSeen: string, types: MessageTypes,
                 ipv4: Value -> bool, now: Timestamp)
    returns (replies: seq<string>, raised: bool)
    modifies refNum
    ensures refNum.source == NextRef(old(refNum.source))
    ensures var ack := ApplyAll(DeviceState, Blank, SetAckArgs(m, IntToString(refNum.source), types.setDeviceStateAck, status, lastSeen), ipv4, now);
      replies == Replies(DeviceState, ack) && raised == ack.raised
  {
    var ref := refNum.New();
    var out := new Message(DeviceState, ipv4);
    raised := out.Assign(SetAckArgs(m, ref, types.setDeviceStateAck, status, lastSeen), now);
    replies := if raised then [] else [out.Complete()];
  }
}
