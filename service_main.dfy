/** The service's work task, bob_wemo_service/service_main.py (`MainTask`):
    one pass of the `run` loop takes at most one inbound message, reads its
    header, hands it to the handler its type code names, queues the replies,
    and then polls at most one configured device (`check_wemo`). */
module ServiceMain {
  import opened Wrappers
  import opened Text
  import opened Values
  import opened RefNumbers
  import opened Messages
  import opened MsgProcessing
  import opened Configure

  /** Five minutes, in microseconds. */
  const FiveMinutes: int := 300_000_000

  /** A reading of `datetime.datetime.now()`: microseconds on one time line
      for the comparisons, and the wall-clock date and time for the text the
      handlers write. */
  datatype Clock = Clock(micros: int, wall: Timestamp)

  // ---------------------------------------------------------------------
  // the polling pointer of check_wemo
  // ---------------------------------------------------------------------

  /** The pointer and the sweep stamp after one `check_wemo`, and the index
      it polled, if any. */
  datatype Sweep = Sweep(ptr: int, ts: int, polled: Option<int>)

  /** One `check_wemo` on the pointer: back to 0 (restamping the sweep) once
      five minutes have passed and the sweep reached the end of the list;
      then, short of the last index, the pointer is incremented before it
      is used, and the new index is polled. */
  function CheckStep(ptr: int, ts: int, n: int, now: int): (s: Sweep)
    ensures s.polled.Some? ==> s.polled.value == s.ptr && s.ptr <= n - 1
  {
    var reset := now >= ts + FiveMinutes && ptr >= n - 1;
    var p := if reset then 0 else ptr;
    var t := if reset then now else ts;
    if p < n - 1 then Sweep(p + 1, t, Some(p + 1)) else Sweep(p, t, None)
  }

  /** With a non-empty list the pointer stays in range, and the index polled
      is never 0: the first device of the list is never queried. */
  lemma PointerInRange(ptr: int, ts: int, n: int, now: int)
    requires 1 <= n && 0 <= ptr <= n - 1
    ensures var s := CheckStep(ptr, ts, n, now);
      0 <= s.ptr <= n - 1 && (s.polled.Some? ==> 1 <= s.polled.value <= n - 1)
  {
  }

  /** The pointer goes back and the stamp moves only on a reset, which needs
      five elapsed minutes and a finished sweep; the stamp then becomes the
      current time. */
  lemma ResetOnlyWhenDue(ptr: int, ts: int, n: int, now: int)
    requires 0 <= ptr
    ensures var s := CheckStep(ptr, ts, n, now);
      && (s.ptr < ptr || s.ts != ts ==> now >= ts + FiveMinutes && ptr >= n - 1)
      && (s.ts == ts || s.ts == now)
  {
  }

  /** Once the sweep is due, a list of two or more devices is polled from
      index 1 again. */
  lemma ResetPollsFirstIndex(ptr: int, ts: int, n: int, now: int)
    requires 2 <= n && ptr >= n - 1 && now >= ts + FiveMinutes
    ensures CheckStep(ptr, ts, n, now) == Sweep(1, now, Some(1))
  {
  }

  /** Successive `check_wemo` calls at the given times: the pointer and
      stamp at the end, and the indices polled in order. */
  function Run(ptr: int, ts: int, n: int, times: seq<int>): (int, int, seq<int>)
    decreases |times|
  {
    if times == [] then (ptr, ts, [])
    else
      var s := CheckStep(ptr, ts, n, times[0]);
      var (p, t, polls) := Run(s.ptr, s.ts, n, times[1..]);
      (p, t, (if s.polled.Some? then [s.polled.value] else []) + polls)
  }

  /** Short of the end of the list, calls visit the following indices one
      per call, in order, whatever the times. */
  lemma {:induction false} SweepVisitsInOrder(ptr: int, ts: int, n: int, times: seq<int>)
    requires 0 <= ptr && ptr + |times| <= n - 1
    ensures Run(ptr, ts, n, times).0 == ptr + |times| && Run(ptr, ts, n, times).1 == ts
    ensures Run(ptr, ts, n, times).2 == seq(|times|, i requires 0 <= i < |times| => ptr + i + 1)
    decreases |times|
  {
    if times != [] {
      SweepVisitsInOrder(ptr + 1, ts, n, times[1..]);
    }
  }

  /** At the end of the list nothing is polled until five minutes have
      passed since the last reset. */
  lemma {:induction false} SweepWaits(ptr: int, ts: int, n: int, times: seq<int>)
    requires ptr >= n - 1
    requires forall i :: 0 <= i < |times| ==> times[i] < ts + FiveMinutes
    ensures Run(ptr, ts, n, times) == (ptr, ts, [])
    decreases |times|
  {
    if times != [] {
      var s := CheckStep(ptr, ts, n, times[0]);
      assert s == Sweep(ptr, ts, None);
      forall i | 0 <= i < |times[1..]| ensures times[1..][i] < ts + FiveMinutes {
        assert times[1..][i] == times[i + 1];
      }
      SweepWaits(ptr, ts, n, times[1..]);
      assert Run(s.ptr, s.ts, n, times[1..]) == (ptr, ts, []);
      assert Run(ptr, ts, n, times).2 == [] + Run(s.ptr, s.ts, n, times[1..]).2;
    }
  }

  // ---------------------------------------------------------------------
  // classification and dispatch
  // ---------------------------------------------------------------------

  /** The source address, source port and type code the loop keeps. */
  datatype Header = Header(sourceAddr: string, sourcePort: string, msgType: string)

  /** The header after reading a message split at its commas: fields 3, 4
      and 5 of a message with six or more fields; otherwise the previous
      values are kept, type code included. */
  function HeaderAfter(parts: seq<string>, prev: Header): (h: Header)
    ensures |parts| >= 6 ==> h == Header(parts[3], parts[4], parts[5])
    ensures |parts| < 6 ==> h == prev
  {
    if |parts| >= 6 then Header(parts[3], parts[4], parts[5]) else prev
  }

  /** A message read from the wire keeps its own header: for a message
      whose fields hold no comma, the loop takes the source address, source
      port and type code of the message that was encoded, whatever the
      previous header was. */
  lemma HeaderOfEncoded(l: Layout, f: Fields, prev: Header)
    requires NoCommas(f)
    ensures HeaderAfter(Split(Encode(l, f), ','), prev) == Header(f.sourceAddr, f.sourcePort, f.msgType)
  {
    SplitEncode(l, f);
    var keys := KeysOf(l);
    assert keys[3] == SourceAddr && keys[4] == SourcePort && keys[5] == MsgType by {
      assert keys[..6] == HeaderKeys;
    }
  }

  /** A message of fewer than six fields is not dropped: it is dispatched
      on the type code left by an earlier message, so after a heartbeat even
      a one-field message is answered with a heartbeat ack. */
  lemma ShortMessageUsesStaleType(msg: string, prev: Header, counter: int, calls: seq<GatewayCall>,
                                  respond: (seq<GatewayCall>, GatewayCall) -> Reply,
                                  types: MessageTypes, ipv4: Value -> bool, now: Timestamp)
    requires |Split(msg, ',')| < 6
    ensures HeaderAfter(Split(msg, ','), prev).msgType == prev.msgType
    ensures DistinctCodes(types) && prev.msgType == types.heartbeat ==>
      var h := Dispatch(HeaderAfter(Split(msg, ','), prev).msgType, msg, counter, calls, respond, types, ipv4, now);
      !h.raised && |h.replies| == 1 && h.calls == calls
  {
    if DistinctCodes(types) && prev.msgType == types.heartbeat {
      HeartbeatAlwaysAnswered(msg, counter, calls, respond, types, ipv4, now);
    }
  }

  /** The three tests of the loop, one after another: each handler whose
      code equals the type runs on the state the one before left, and a
      `ValueError` ends the loop before the next test. */
  function Dispatch(msgType: string, msg: string, counter: int, calls: seq<GatewayCall>,
                    respond: (seq<GatewayCall>, GatewayCall) -> Reply,
                    types: MessageTypes, ipv4: Value -> bool, now: Timestamp): Handled
  {
    var h0 := Handled([], false, counter, calls);
    var h1 := if msgType == types.heartbeat then ProcessHeartbeatSpec(msg, h0.counter, h0.calls, types, ipv4, now) else h0;
    var h2 := if !h1.raised && msgType == types.getDeviceState then
                GetWemoStateSpec(msg, h1.counter, h1.calls, respond, types, ipv4, now)
              else h1;
    if !h2.raised && msgType == types.setDeviceState then
      SetWemoStateSpec(msg, h2.counter, h2.calls, respond, types, ipv4, now)
    else h2
  }

  /** The three codes of the configuration are pairwise different. */
  predicate DistinctCodes(types: MessageTypes)
  {
    types.heartbeat != types.getDeviceState && types.heartbeat != types.setDeviceState &&
    types.getDeviceState != types.setDeviceState
  }

  /** A type matching none of the three codes queues nothing, takes no
      reference and calls no device. */
  lemma UnknownTypeDoesNothing(msgType: string, msg: string, counter: int, calls: seq<GatewayCall>,
                               respond: (seq<GatewayCall>, GatewayCall) -> Reply,
                               types: MessageTypes, ipv4: Value -> bool, now: Timestamp)
    requires msgType != types.heartbeat && msgType != types.getDeviceState && msgType != types.setDeviceState
    ensures Dispatch(msgType, msg, counter, calls, respond, types, ipv4, now) == Handled([], false, counter, calls)
  {
  }

  /** With distinct codes exactly the handler the type names runs. */
  lemma OneHandlerRuns(msgType: string, msg: string, counter: int, calls: seq<GatewayCall>,
                       respond: (seq<GatewayCall>, GatewayCall) -> Reply,
                       types: MessageTypes, ipv4: Value -> bool, now: Timestamp)
    requires DistinctCodes(types)
    ensures var h := Dispatch(msgType, msg, counter, calls, respond, types, ipv4, now);
      && (msgType == types.heartbeat ==> h == ProcessHeartbeatSpec(msg, counter, calls, types, ipv4, now))
      && (msgType == types.getDeviceState ==> h == GetWemoStateSpec(msg, counter, calls, respond, types, ipv4, now))
      && (msgType == types.setDeviceState ==> h == SetWemoStateSpec(msg, counter, calls, respond, types, ipv4, now))
  {
  }

  /** With distinct codes, a handled message that raised nothing took
      exactly one reference and answered with one reply. */
  lemma HandledTakesOneRef(msgType: string, msg: string, counter: int, calls: seq<GatewayCall>,
                           respond: (seq<GatewayCall>, GatewayCall) -> Reply,
                           types: MessageTypes, ipv4: Value -> bool, now: Timestamp)
    requires DistinctCodes(types)
    requires msgType == types.heartbeat || msgType == types.getDeviceState || msgType == types.setDeviceState
    ensures var h := Dispatch(msgType, msg, counter, calls, respond, types, ipv4, now);
      !h.raised ==> h.counter == NextRef(counter) && |h.replies| == 1
  {
    OneHandlerRuns(msgType, msg, counter, calls, respond, types, ipv4, now);
    if msgType == types.heartbeat {
      HeartbeatReply(msg, counter, calls, types, ipv4, now);
    }
  }

  /** A heartbeat is never lost: with distinct codes it always gets its ack. */
  lemma HeartbeatAlwaysAnswered(msg: string, counter: int, calls: seq<GatewayCall>,
                                respond: (seq<GatewayCall>, GatewayCall) -> Reply,
                                types: MessageTypes, ipv4: Value -> bool, now: Timestamp)
    requires DistinctCodes(types)
    ensures var h := Dispatch(types.heartbeat, msg, counter, calls, respond, types, ipv4, now);
      !h.raised && |h.replies| == 1 && h.calls == calls
  {
    OneHandlerRuns(types.heartbeat, msg, counter, calls, respond, types, ipv4, now);
    HeartbeatReply(msg, counter, calls, types, ipv4, now);
  }

  // ---------------------------------------------------------------------
  // the task
  // ---------------------------------------------------------------------

  /** The inbound part of one pass of `run` on a queue: nothing when it is
      empty, and otherwise the handlers of the first message, dispatched on
      the header read from it. */
  function Incoming(q: seq<string>, prev: Header, counter: int, calls: seq<GatewayCall>,
                    respond: (seq<GatewayCall>, GatewayCall) -> Reply,
                    types: MessageTypes, ipv4: Value -> bool, now: Timestamp): Handled
  {
    if |q| == 0 then Handled([], false, counter, calls)
    else Dispatch(HeaderAfter(Split(q[0], ','), prev).msgType, q[0], counter, calls, respond, types, ipv4, now)
  }

  /** The device query `check_wemo` sends for a device. */
  function PollCall(d: Device): GatewayCall
    reads d
  {
    ReadStatus(d.name, d.addr, d.status, d.lastSeen)
  }

  /** `'wemo' in dev_type`. */
  predicate IsWemo(d: Device)
  {
    Contains(d.devType, "wemo")
  }

  /** `MainTask`. `halted` records that an exception escaped `run`, which
      ends the task. The queues are the contents of the two asyncio queues;
      the tasks that fill the inbound one and drain the outbound one are not
      part of this model. */
  class MainTask {
    const refNum: RefNum
    const gateway: Gateway
    const types: MessageTypes
    const ipv4: Value -> bool
    var inQueue: seq<string>
    var outQueue: seq<string>
    var sleepMillis: int
    var outMsg: string
    var outMsgList: seq<string>
    var nextMsg: string
    var nextMsgSplit: seq<string>
    var msgSourceAddr: string
    var msgSourcePort: string
    var msgType: string
    var device: Device?
    var devices: seq<Device>
    var devPtr: int
    var discoverTs: int
    var halted: bool

    /** `__init__` with the `ref`, `gw`, queue, `message_types` and
        `devices` keyword arguments; the sweep stamp starts five minutes in
        the past, so the first call may reset the pointer at once. */
    constructor (refNum: RefNum, gateway: Gateway, types: MessageTypes, ipv4: Value -> bool,
                 inQueue: seq<string>, outQueue: seq<string>, devices: seq<Device>, clock: Clock)
      ensures this.refNum == refNum && this.gateway == gateway && this.types == types && this.ipv4 == ipv4
      ensures this.inQueue == inQueue && this.outQueue == outQueue && this.devices == devices
      ensures devPtr == 0 && discoverTs == clock.micros - FiveMinutes && !halted && device == null
      ensures msgSourceAddr == "" && msgSourcePort == "" && msgType == "" && nextMsg == "" && outMsgList == []
    {
      this.refNum, this.gateway, this.types, this.ipv4 := refNum, gateway, types, ipv4;
      this.inQueue, this.outQueue, this.devices := inQueue, outQueue, devices;
      sleepMillis, outMsg, outMsgList, nextMsg, nextMsgSplit := 200, "", [], "", [];
      msgSourceAddr, msgSourcePort, msgType := "", "", "";
      device, devPtr, discoverTs, halted := null, 0, clock.micros - FiveMinutes, false;
    }


    /** `check_wemo`: the pointer moves as `CheckStep` says, and a polled
        device whose type mentions "wemo" is queried once, its status and
        last-seen replaced by the answer; no other device changes, and no
        device's command does. */
    method CheckWemo(now: int)
      requires 0 <= devPtr
      modifies this`devPtr, this`discoverTs, this`device, gateway, devices
      ensures var s := CheckStep(old(devPtr), old(discoverTs), |devices|, now);
        && devPtr == s.ptr && discoverTs == s.ts && 0 <= devPtr
        && (s.polled.Some? ==> device == devices[s.polled.value])
        && (s.polled.None? ==> device == old(device))
        && (s.polled.Some? && IsWemo(devices[s.polled.value]) ==>
              var d := devices[s.polled.value];
              var c := old(PollCall(devices[s.polled.value]));
              var r := gateway.respond(old(gateway.calls), c);
              gateway.calls == old(gateway.calls) + [c] && d.status == r.status && d.lastSeen == r.lastSeen)
        && (s.polled.None? || !IsWemo(devices[s.polled.value]) ==> gateway.calls == old(gateway.calls))
        && (forall x :: x in old(devices) ==> x.cmd == old(x.cmd))
        && (forall x :: x in old(devices) && (s.polled.None? || !IsWemo(devices[s.polled.value]) || x != devices[s.polled.value]) ==>
              x.status == old(x.status) && x.lastSeen == old(x.lastSeen))
    {
      if now >= discoverTs + FiveMinutes && devPtr >= |devices| - 1 {
        devPtr := 0;
        discoverTs := now;
      }
      if devPtr < |devices| - 1 {
        devPtr := devPtr + 1;
        device := devices[devPtr];
        if Contains(device.devType, "wemo") {
          var r := gateway.Call(PollCall(device));
          device.status, device.lastSeen := r.status, r.lastSeen;
        }
      }
    }

    /** Taking the next inbound message (`get_nowait`), splitting it at its
        commas and reading its header. */
    method Receive()
      requires |inQueue| > 0
      modifies this`inQueue, this`nextMsg, this`nextMsgSplit, this`msgSourceAddr, this`msgSourcePort, this`msgType
      ensures inQueue == old(inQueue)[1..] && nextMsg == old(inQueue)[0] && nextMsgSplit == Split(nextMsg, ',')
      ensures Header(msgSourceAddr, msgSourcePort, msgType) ==
              HeaderAfter(nextMsgSplit, old(Header(msgSourceAddr, msgSourcePort, msgType)))
    {
      nextMsg := inQueue[0];
      inQueue := inQueue[1..];
      nextMsgSplit := Split(nextMsg, ',');
      if |nextMsgSplit| >= 6 {
        msgSourceAddr := nextMsgSplit[3];
        msgSourcePort := nextMsgSplit[4];
        msgType := nextMsgSplit[5];
      }
    }

    /** The three type tests of `run` on the current message: the handlers
        run as `Dispatch` says, and a raise halts the task. */
    method RunHandlers(now: Timestamp)
      requires !halted && outMsgList == []
      modifies this`outMsgList, this`halted, refNum, gateway
      ensures var h := Dispatch(msgType, nextMsg, old(refNum.source), old(gateway.calls), gateway.respond, types, ipv4, now);
        && halted == h.raised && refNum.source == h.counter && gateway.calls == h.calls
        && (!h.raised ==> outMsgList == h.replies)
    {
      var raised := false;
      if msgType == types.heartbeat {
        outMsgList, raised := ProcessHeartbeat(refNum, nextMsg, types, ipv4, now);
        if raised {
          halted := true;
          return;
        }
      }
      if msgType == types.getDeviceState {
        outMsgList, raised := GetWemoState(refNum, gateway, nextMsg, types, ipv4, now);
        if raised {
          halted := true;
          return;
        }
      }
      if msgType == types.setDeviceState {
        outMsgList, raised := SetWemoState(refNum, gateway, nextMsg, types, ipv4, now);
        if raised {
          halted := true;
          return;
        }
      }
    }

    /** Queueing the replies one by one, in order; `out_msg` is left holding
        the last of them. */
    method QueueReplies()
      modifies this`outQueue, this`outMsg
      ensures outQueue == old(outQueue) + outMsgList
      ensures |outMsgList| > 0 ==> outMsg == outMsgList[|outMsgList| - 1]
      ensures |outMsgList| == 0 ==> outMsg == old(outMsg)
    {
      if |outMsgList| > 0 {
        var queued := outQueue;
        var k := 0;
        while k < |outMsgList|
          invariant 0 <= k <= |outMsgList|
          invariant queued == outQueue + outMsgList[..k]
        {
          queued := queued + [outMsgList[k]];
          k := k + 1;
        }
        outMsg := outMsgList[|outMsgList| - 1];
        outQueue := queued;
      }
    }

    /** The inbound part of one pass of `run`: at most one message is taken;
        its header is read; the handlers run as `Dispatch` says; unless one
        raised, their replies are appended to the outbound queue in order
        and nothing else is. */
    method HandleIncoming(clock: Clock)
      requires !halted
      modifies this`outMsgList, this`sleepMillis, this`inQueue, this`nextMsg, this`nextMsgSplit,
               this`msgSourceAddr, this`msgSourcePort, this`msgType, this`halted, this`outQueue, this`outMsg,
               refNum, gateway
      ensures |old(inQueue)| == 0 ==>
        && inQueue == [] && outQueue == old(outQueue) && outMsgList == [] && sleepMillis == 200
        && nextMsg == old(nextMsg) && !halted && refNum.source == old(refNum.source) && gateway.calls == old(gateway.calls)
        && Header(msgSourceAddr, msgSourcePort, msgType) == Header(old(msgSourceAddr), old(msgSourcePort), old(msgType))
      ensures |old(inQueue)| > 0 ==>
        var msg := old(inQueue)[0];
        var hdr := HeaderAfter(Split(msg, ','), Header(old(msgSourceAddr), old(msgSourcePort), old(msgType)));
        var h := Dispatch(hdr.msgType, msg, old(refNum.source), old(gateway.calls), gateway.respond, types, ipv4, clock.wall);
        && inQueue == old(inQueue)[1..] && nextMsg == msg && sleepMillis == 10
        && Header(msgSourceAddr, msgSourcePort, msgType) == hdr
        && halted == h.raised && refNum.source == h.counter && gateway.calls == h.calls
        && (!h.raised ==> outMsgList == h.replies && outQueue == old(outQueue) + h.replies)
        && (h.raised ==> outQueue == old(outQueue))
    {
      outMsgList := [];
      sleepMillis := 200;
      if |inQueue| > 0 {
        HandleOne(clock);
      }
    }

    /** The inbound part when a message is waiting. */
    method HandleOne(clock: Clock)
      requires !halted && |inQueue| > 0 && outMsgList == []
      modifies this`outMsgList, this`sleepMillis, this`inQueue, this`nextMsg, this`nextMsgSplit,
               this`msgSourceAddr, this`msgSourcePort, this`msgType, this`halted, this`outQueue, this`outMsg,
               refNum, gateway
      ensures
        var msg := old(inQueue)[0];
        var hdr := HeaderAfter(Split(msg, ','), Header(old(msgSourceAddr), old(msgSourcePort), old(msgType)));
        var h := Dispatch(hdr.msgType, msg, old(refNum.source), old(gateway.calls), gateway.respond, types, ipv4, clock.wall);
        && inQueue == old(inQueue)[1..] && nextMsg == msg && sleepMillis == 10
        && Header(msgSourceAddr, msgSourcePort, msgType) == hdr
        && halted == h.raised && refNum.source == h.counter && gateway.calls == h.calls
        && (!h.raised ==> outMsgList == h.replies && outQueue == old(outQueue) + h.replies)
        && (h.raised ==> outQueue == old(outQueue))
    {
      sleepMillis := 10;
      ghost var counter, calls := refNum.source, gateway.calls;
      Receive();
      assert refNum.source == counter && gateway.calls == calls;
      RunHandlers(clock.wall);
      ghost var h := Dispatch(msgType, nextMsg, counter, calls, gateway.respond, types, ipv4, clock.wall);
      assert halted == h.raised && refNum.source == h.counter && gateway.calls == h.calls;
      if !halted {
        QueueReplies();
      }
    }

    /** One pass of the `run` loop: the inbound part, as `Incoming` says,
        then `check_wemo` unless a handler raised. Its device query is logged
        after the handlers' calls and answered from them. */
    method Step(clock: Clock)
      requires !halted && 0 <= devPtr
      modifies this, refNum, gateway, devices
      ensures devices == old(devices) && 0 <= devPtr
      ensures |old(inQueue)| <= 1 ==> inQueue == []
      ensures |old(inQueue)| > 0 ==> inQueue == old(inQueue)[1..] && nextMsg == old(inQueue)[0]
      ensures Header(msgSourceAddr, msgSourcePort, msgType) ==
        if |old(inQueue)| == 0 then old(Header(msgSourceAddr, msgSourcePort, msgType))
        else HeaderAfter(Split(old(inQueue)[0], ','), old(Header(msgSourceAddr, msgSourcePort, msgType)))
      ensures var h := Incoming(old(inQueue), old(Header(msgSourceAddr, msgSourcePort, msgType)), old(refNum.source),
                                old(gateway.calls), gateway.respond, types, ipv4, clock.wall);
        && halted == h.raised && refNum.source == h.counter
        && (h.raised ==> outQueue == old(outQueue) && gateway.calls == h.calls &&
                         devPtr == old(devPtr) && discoverTs == old(discoverTs))
        && (!h.raised ==> outMsgList == h.replies && outQueue == old(outQueue) + h.replies)
        && (!h.raised ==>
              var s := CheckStep(old(devPtr), old(discoverTs), |devices|, clock.micros);
              && devPtr == s.ptr && discoverTs == s.ts
              && (s.polled.Some? && IsWemo(devices[s.polled.value]) ==>
                    var d := devices[s.polled.value];
                    var c := old(PollCall(devices[s.polled.value]));
                    var r := gateway.respond(h.calls, c);
                    gateway.calls == h.calls + [c] && d.status == r.status && d.lastSeen == r.lastSeen)
              && (s.polled.None? || !IsWemo(devices[s.polled.value]) ==> gateway.calls == h.calls))
      ensures forall x :: x in old(devices) ==> x.cmd == old(x.cmd)
      ensures var s := CheckStep(old(devPtr), old(discoverTs), |devices|, clock.micros);
        forall x :: x in old(devices) && (halted || s.polled.None? || !IsWemo(devices[s.polled.value]) || x != devices[s.polled.value]) ==>
          x.status == old(x.status) && x.lastSeen == old(x.lastSeen)
    {
      ghost var h := Incoming(inQueue, Header(msgSourceAddr, msgSourcePort, msgType), refNum.source,
                              gateway.calls, gateway.respond, types, ipv4, clock.wall);
      HandleIncoming(clock);
      assert halted == h.raised && refNum.source == h.counter && gateway.calls == h.calls;
      if !halted {
        CheckWemo(clock.micros);
      }
    }
  }
}
