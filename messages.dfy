/** The comma-separated message format of bob_wemo_service/get_device_state.py
    (`GetDeviceStateMessage`) and of the five sibling message classes the
    handlers use (heartbeat, heartbeat ack, get-device-state ack, set device
    state, set-device-state ack). Each class holds string fields behind
    validating setters; `complete` renders the fields joined by commas and
    its setter splits a string and feeds the pieces back through the
    setters. The sibling classes differ only in which fields they carry,
    which `Layout` records. */
module Messages {
  import opened Wrappers
  import opened Text
  import opened Values
  import opened FieldCheckers

  /** The field layouts: the six header fields alone (heartbeat and its
      ack), the header plus name, address, status and last-seen (get device
      state, its ack, and the set-device-state ack), and the same with the
      command after the address (set device state). */
  datatype Layout = HeaderOnly | DeviceState | DeviceCommand

  datatype Key =
    | Ref | DestAddr | DestPort | SourceAddr | SourcePort | MsgType
    | DevName | DevAddr | DevCmd | DevStatus | DevLastSeen

  const HeaderKeys: seq<Key> := [Ref, DestAddr, DestPort, SourceAddr, SourcePort, MsgType]

  /** The fields of a layout in wire order; every field occurs once and the
      header comes first. */
  function KeysOf(l: Layout): (keys: seq<Key>)
    ensures |keys| >= 6 && keys[..6] == HeaderKeys
  {
    match l
    case HeaderOnly => HeaderKeys
    case DeviceState => HeaderKeys + [DevName, DevAddr, DevStatus, DevLastSeen]
    case DeviceCommand => HeaderKeys + [DevName, DevAddr, DevCmd, DevStatus, DevLastSeen]
  }


  /** How many comma fields a message of the layout carries. */
  function Arity(l: Layout): nat
  {
    |KeysOf(l)|
  }

  /** The private `_ref`, `_dest_addr`, ... attributes of a message object. */
  datatype Fields = Fields(
    ref: string, destAddr: string, destPort: string, sourceAddr: string,
    sourcePort: string, msgType: string, devName: string, devAddr: string,
    devCmd: string, devStatus: string, devLastSeen: string)

  /** Every field starts as `str()`, the empty string. */
  const Blank: Fields := Fields("", "", "", "", "", "", "", "", "", "", "")

  function Get(f: Fields, k: Key): string
  {
    match k
    case Ref => f.ref
    case DestAddr => f.destAddr
    case DestPort => f.destPort
    case SourceAddr => f.sourceAddr
    case SourcePort => f.sourcePort
    case MsgType => f.msgType
    case DevName => f.devName
    case DevAddr => f.devAddr
    case DevCmd => f.devCmd
    case DevStatus => f.devStatus
    case DevLastSeen => f.devLastSeen
  }

  /** `f` with field `k` overwritten and every other field kept. */
  function Put(f: Fields, k: Key, s: string): (g: Fields)
    ensures Get(g, k) == s
    ensures forall k' :: k' != k ==> Get(g, k') == Get(f, k')
  {
    match k
    case Ref => f.(ref := s)
    case DestAddr => f.(destAddr := s)
    case DestPort => f.(destPort := s)
    case SourceAddr => f.(sourceAddr := s)
    case SourcePort => f.(sourcePort := s)
    case MsgType => f.(msgType := s)
    case DevName => f.(devName := s)
    case DevAddr => f.(devAddr := s)
    case DevCmd => f.(devCmd := s)
    case DevStatus => f.(devStatus := s)
    case DevLastSeen => f.(devLastSeen := s)
  }

  /** Two records that agree on every field are the same record. */
  lemma FieldsExtensional(a: Fields, b: Fields)
    requires forall k :: Get(a, k) == Get(b, k)
    ensures a == b
  {
    assert Get(a, Ref) == Get(b, Ref) && Get(a, DestAddr) == Get(b, DestAddr);
    assert Get(a, DestPort) == Get(b, DestPort) && Get(a, SourceAddr) == Get(b, SourceAddr);
    assert Get(a, SourcePort) == Get(b, SourcePort) && Get(a, MsgType) == Get(b, MsgType);
    assert Get(a, DevName) == Get(b, DevName) && Get(a, DevAddr) == Get(b, DevAddr);
    assert Get(a, DevCmd) == Get(b, DevCmd) && Get(a, DevStatus) == Get(b, DevStatus);
    assert Get(a, DevLastSeen) == Get(b, DevLastSeen);
  }

  // ---------------------------------------------------------------------
  // the setters
  // ---------------------------------------------------------------------

  /** The result of running setters: the fields afterwards, and whether a
      `ValueError` escaped (the fields are then those before the failing
      setter). */
  datatype Applied = Applied(fields: Fields, raised: bool)

  /** Whether the setter of field `k` stores the value it is given: ref and
      message type need an int in [100, 999], ports an int in
      [10000, 60000], addresses must pass the IPv4 check; the name, command,
      status and last-seen setters always store something. */
  predicate Accepts(k: Key, v: Value, ipv4: Value -> bool)
  {
    match k
    case Ref => InIntRange(v, 100, 999)
    case MsgType => InIntRange(v, 100, 999)
    case DestPort => InIntRange(v, 10000, 60000)
    case SourcePort => InIntRange(v, 10000, 60000)
    case DestAddr => ipv4(v)
    case SourceAddr => ipv4(v)
    case DevAddr => ipv4(v)
    case _ => true
  }

  /** The property setter of field `k`. The validated fields store `str()` of
      an accepted value and otherwise keep their old text; the name and
      command store `str(value)`; the status stores `str(value).lower()`; the
      last-seen field stores what `is_valid_datetime` makes of the value,
      with its own old text as the fall-back, and is the only setter that can
      raise. */
  function SetField(f: Fields, k: Key, v: Value, ipv4: Value -> bool, now: Timestamp): (r: Applied)
    ensures r.raised ==> k == DevLastSeen && r.fields == f
    ensures forall k' :: k' != k ==> Get(r.fields, k') == Get(f, k')
    ensures !Accepts(k, v, ipv4) ==> r.fields == f
    ensures Accepts(k, v, ipv4) && k != DevStatus && k != DevLastSeen ==> Get(r.fields, k) == Str(v)
    ensures k == DevStatus ==> r.fields.devStatus == Lower(Str(v))
    ensures k == DevLastSeen && !r.raised ==> |r.fields.devLastSeen| <= 19
    ensures k == DevLastSeen ==>
      (r.raised <==> IsValidDatetime(v, f.devLastSeen, now).ValueError?) &&
      (!r.raised ==> r.fields.devLastSeen == IsValidDatetime(v, f.devLastSeen, now).value)
  {
    match k
    case DevStatus => Applied(Put(f, k, Lower(Str(v))), false)
    case DevLastSeen =>
      (match IsValidDatetime(v, f.devLastSeen, now)
       case Ok(s) => Applied(Put(f, k, s), false)
       case ValueError => Applied(f, true))
    case _ => if Accepts(k, v, ipv4) then Applied(Put(f, k, Str(v)), false) else Applied(f, false)
  }

  /** Assigning `(key, value)` pairs in order, as `__init__` does with its
      keyword arguments: a key the layout lacks is skipped, and the first
      setter that raises ends the run. */
  function ApplyAll(l: Layout, f: Fields, ps: seq<(Key, Value)>, ipv4: Value -> bool, now: Timestamp): (r: Applied)
    decreases |ps|
  {
    if ps == [] then Applied(f, false)
    else
      var prev := ApplyAll(l, f, ps[..|ps| - 1], ipv4, now);
      var (k, v) := ps[|ps| - 1];
      if prev.raised || k !in KeysOf(l) then prev
      else SetField(prev.fields, k, v, ipv4, now)
  }

  /** Once a setter has raised, later pairs are never reached. */
  lemma {:induction false} RaisedStaysRaised(l: Layout, f: Fields, ps: seq<(Key, Value)>, i: nat, ipv4: Value -> bool, now: Timestamp)
    requires i <= |ps| && ApplyAll(l, f, ps[..i], ipv4, now).raised
    ensures ApplyAll(l, f, ps, ipv4, now) == ApplyAll(l, f, ps[..i], ipv4, now)
    decreases |ps| - i
  {
    if i < |ps| {
      assert ps[..i + 1][..i] == ps[..i];
      RaisedStaysRaised(l, f, ps, i + 1, ipv4, now);
    } else {
      assert ps[..i] == ps;
    }
  }

  // ---------------------------------------------------------------------
  // complete: encode and decode
  // ---------------------------------------------------------------------

  /** The fields of the layout, in wire order. */
  function FieldList(l: Layout, f: Fields): (parts: seq<string>)
    ensures |parts| == Arity(l)
    ensures forall i :: 0 <= i < |parts| ==> parts[i] == Get(f, KeysOf(l)[i])
  {
    seq(Arity(l), i requires 0 <= i < Arity(l) => Get(f, KeysOf(l)[i]))
  }

  /** The `complete` getter: the fields joined by commas. */
  function Encode(l: Layout, f: Fields): string
  {
    Join(FieldList(l, f), ',')
  }

  /** For the get-device-state layout, `complete` is exactly the ten fields
      ref, dest_addr, dest_port, source_addr, source_port, msg_type,
      dev_name, dev_addr, dev_status, dev_last_seen, in that order, joined
      by commas. */
  lemma EncodeDeviceState(f: Fields)
    ensures Encode(DeviceState, f) ==
      Join([f.ref, f.destAddr, f.destPort, f.sourceAddr, f.sourcePort,
            f.msgType, f.devName, f.devAddr, f.devStatus, f.devLastSeen], ',')
  {
    assert FieldList(DeviceState, f) ==
      [f.ref, f.destAddr, f.destPort, f.sourceAddr, f.sourcePort,
       f.msgType, f.devName, f.devAddr, f.devStatus, f.devLastSeen];
  }

  /** No field contains a comma. */
  predicate NoCommas(f: Fields)
  {
    forall k :: ',' !in Get(f, k)
  }

  /** Splitting the encoding of a message whose fields hold no comma gives
      back its fields in wire order. */
  lemma SplitEncode(l: Layout, f: Fields)
    requires NoCommas(f)
    ensures Split(Encode(l, f), ',') == FieldList(l, f)
  {
    var parts := FieldList(l, f);
    assert forall i :: 0 <= i < |parts| ==> ',' !in parts[i];
    SplitJoin(parts, ',');
  }

  /** Pairs each field of the layout with its piece of a split message. */
  function Pairs(keys: seq<Key>, parts: seq<string>): (ps: seq<(Key, Value)>)
    requires |parts| >= |keys|
    ensures |ps| == |keys|
    ensures forall i :: 0 <= i < |ps| ==> ps[i] == (keys[i], StrV(parts[i]))
  {
    seq(|keys|, i requires 0 <= i < |keys| => (keys[i], StrV(parts[i])))
  }

  /** The `complete` setter: a string is split on commas and, when it has at
      least as many pieces as the layout has fields, the pieces are assigned
      to the fields in wire order through their setters (extra pieces are
      ignored); a string with fewer pieces, and any value that is not a
      string, changes nothing. */
  function Decode(l: Layout, f: Fields, v: Value, ipv4: Value -> bool, now: Timestamp): (r: Applied)
    ensures !v.StrV? ==> r == Applied(f, false)
    ensures v.StrV? && |Split(v.s, ',')| < Arity(l) ==> r == Applied(f, false)
  {
    if !v.StrV? then Applied(f, false)
    else
      var parts := Split(v.s, ',');
      if |parts| < Arity(l) then Applied(f, false)
      else ApplyAll(l, f, Pairs(KeysOf(l), parts), ipv4, now)
  }

  /** Setters other than the last-seen one never raise and leave the
      last-seen field alone. */
  lemma {:induction false} WithoutLastSeen(l: Layout, f: Fields, ps: seq<(Key, Value)>, ipv4: Value -> bool, now: Timestamp)
    requires forall i :: 0 <= i < |ps| ==> ps[i].0 != DevLastSeen
    ensures !ApplyAll(l, f, ps, ipv4, now).raised
    ensures ApplyAll(l, f, ps, ipv4, now).fields.devLastSeen == f.devLastSeen
    decreases |ps|
  {
    if ps != [] {
      var q := ps[..|ps| - 1];
      assert forall i :: 0 <= i < |q| ==> q[i] == ps[i];
      WithoutLastSeen(l, f, q, ipv4, now);
      assert Get(ApplyAll(l, f, q, ipv4, now).fields, DevLastSeen) == f.devLastSeen;
    }
  }

  /** Decoding into a fresh device message raises exactly when the message
      has enough pieces and its last one, the last-seen text, is a date or
      time the last-seen validator rejects: that setter comes last and is
      the only one that can raise. */
  lemma DecodeRaises(l: Layout, msg: string, ipv4: Value -> bool, now: Timestamp)
    requires l != HeaderOnly
    ensures Decode(l, Blank, StrV(msg), ipv4, now).raised <==>
      |Split(msg, ',')| >= Arity(l) && IsValidDatetime(StrV(Split(msg, ',')[Arity(l) - 1]), "", now).ValueError?
  {
    var parts := Split(msg, ',');
    if |parts| >= Arity(l) {
      assert Decode(l, Blank, StrV(msg), ipv4, now) == ApplyAll(l, Blank, Pairs(KeysOf(l), parts), ipv4, now);
      PairsRaise(l, parts, ipv4, now);
    }
  }

  /** Assigning pieces to a fresh device message raises exactly when the
      last piece makes the last-seen validator raise. */
  lemma PairsRaise(l: Layout, parts: seq<string>, ipv4: Value -> bool, now: Timestamp)
    requires l != HeaderOnly && |parts| >= Arity(l)
    ensures ApplyAll(l, Blank, Pairs(KeysOf(l), parts), ipv4, now).raised <==>
      IsValidDatetime(StrV(parts[Arity(l) - 1]), "", now).ValueError?
  {
    var keys := KeysOf(l);
    var n := |keys|;
    var ps := Pairs(keys, parts);
    assert keys[n - 1] == DevLastSeen && forall i :: 0 <= i < n - 1 ==> keys[i] != DevLastSeen;
    LastPairRaises(l, ps, ipv4, now);
  }

  /** A run of setters in which only the last one is the last-seen setter
      raises, from a fresh message, exactly when that last value makes the
      last-seen validator raise. */
  lemma LastPairRaises(l: Layout, ps: seq<(Key, Value)>, ipv4: Value -> bool, now: Timestamp)
    requires |ps| >= 1 && ps[|ps| - 1].0 == DevLastSeen && DevLastSeen in KeysOf(l)
    requires forall i :: 0 <= i < |ps| - 1 ==> ps[i].0 != DevLastSeen
    ensures ApplyAll(l, Blank, ps, ipv4, now).raised <==>
      IsValidDatetime(ps[|ps| - 1].1, "", now).ValueError?
  {
    var n := |ps|;
    var q := ps[..n - 1];
    assert forall i :: 0 <= i < |q| ==> q[i] == ps[i];
    WithoutLastSeen(l, Blank, q, ipv4, now);
    ApplyAllLast(l, Blank, ps, n - 1, ipv4, now);
    assert ps[..n] == ps;
  }

  // ---------------------------------------------------------------------
  // what a stored field can hold
  // ---------------------------------------------------------------------

  /** Empty, or text the range check accepts. */
  predicate RangeText(s: string, low: int, high: int)
  {
    s == "" || InIntRange(StrV(s), low, high)
  }

  /** Empty, or text the IPv4 check accepts. */
  predicate AddrText(s: string, ipv4: Value -> bool)
  {
    s == "" || ipv4(StrV(s))
  }

  /** What field `k` can hold once it has been through its setter. */
  predicate FieldOk(k: Key, s: string, ipv4: Value -> bool)
  {
    match k
    case Ref => RangeText(s, 100, 999)
    case MsgType => RangeText(s, 100, 999)
    case DestPort => RangeText(s, 10000, 60000)
    case SourcePort => RangeText(s, 10000, 60000)
    case DestAddr => AddrText(s, ipv4)
    case SourceAddr => AddrText(s, ipv4)
    case DevAddr => AddrText(s, ipv4)
    case DevStatus => IsLower(s)
    case DevLastSeen => IsStamp(s)
    case _ => true
  }

  /** The invariant of a message object: each field of its layout holds
      what its setter can store, and the fields the layout lacks are empty. */
  predicate WellStored(l: Layout, f: Fields, ipv4: Value -> bool)
  {
    forall k :: if k in KeysOf(l) then FieldOk(k, Get(f, k), ipv4) else Get(f, k) == ""
  }

  /** A fresh message satisfies the invariant. */
  lemma BlankWellStored(l: Layout, ipv4: Value -> bool)
    ensures WellStored(l, Blank, ipv4)
  {
    forall k ensures if k in KeysOf(l) then FieldOk(k, Get(Blank, k), ipv4) else Get(Blank, k) == "" {
      if k in KeysOf(l) {
        match k
        case Ref => EmptyOutOfRange(100, 999);
        case MsgType => EmptyOutOfRange(100, 999);
        case DestPort => EmptyOutOfRange(10000, 60000);
        case SourcePort => EmptyOutOfRange(10000, 60000);
        case _ =>
      }
    }
  }

  /** Every setter keeps the invariant, provided addresses are given as
      strings (the source stores a non-string address object as it is; all
      its callers pass strings). In particular a stored ref or message type
      is empty or an int string in [100, 999], a stored port empty or an int
      string in [10000, 60000], and the status is lower case. */
  lemma SetFieldKeepsInvariant(l: Layout, f: Fields, k: Key, v: Value, ipv4: Value -> bool, now: Timestamp)
    requires WellStored(l, f, ipv4) && k in KeysOf(l)
    requires k == DestAddr || k == SourceAddr || k == DevAddr ==> v.StrV?
    ensures WellStored(l, SetField(f, k, v, ipv4, now).fields, ipv4)
  {
    var g := SetField(f, k, v, ipv4, now).fields;
    assert FieldOk(k, Get(f, k), ipv4);
    if Accepts(k, v, ipv4) && v.IntV? {
      match k
      case Ref => InIntRangeOfText(v.i, 100, 999);
      case MsgType => InIntRangeOfText(v.i, 100, 999);
      case DestPort => InIntRangeOfText(v.i, 10000, 60000);
      case SourcePort => InIntRangeOfText(v.i, 10000, 60000);
      case _ =>
    }
    if k == DevLastSeen {
      ValidDatetimeKeepsStamp(v, f.devLastSeen, now);
    }
    assert FieldOk(k, Get(g, k), ipv4);
    forall k' ensures if k' in KeysOf(l) then FieldOk(k', Get(g, k'), ipv4) else Get(g, k') == "" {
    }
  }

  /** Pairs whose values are all strings, as every caller in the service
      passes them. */
  predicate AllText(ps: seq<(Key, Value)>)
  {
    forall i :: 0 <= i < |ps| ==> ps[i].1.StrV?
  }

  lemma {:induction false} ApplyAllKeepsInvariant(l: Layout, f: Fields, ps: seq<(Key, Value)>, ipv4: Value -> bool, now: Timestamp)
    requires WellStored(l, f, ipv4) && AllText(ps)
    ensures WellStored(l, ApplyAll(l, f, ps, ipv4, now).fields, ipv4)
    decreases |ps|
  {
    if ps != [] {
      var init := ps[..|ps| - 1];
      assert AllText(init) by {
        forall i | 0 <= i < |init| ensures init[i].1.StrV? { assert init[i] == ps[i]; }
      }
      ApplyAllKeepsInvariant(l, f, init, ipv4, now);
      var prev := ApplyAll(l, f, init, ipv4, now);
      var (k, v) := ps[|ps| - 1];
      if !prev.raised && k in KeysOf(l) {
        SetFieldKeepsInvariant(l, prev.fields, k, v, ipv4, now);
      }
    }
  }

  /** Decoding a string into a message keeps the invariant. */
  lemma DecodeKeepsInvariant(l: Layout, f: Fields, v: Value, ipv4: Value -> bool, now: Timestamp)
    requires WellStored(l, f, ipv4)
    ensures WellStored(l, Decode(l, f, v, ipv4, now).fields, ipv4)
  {
    if v.StrV? {
      var parts := Split(v.s, ',');
      if |parts| >= Arity(l) {
        ApplyAllKeepsInvariant(l, f, Pairs(KeysOf(l), parts), ipv4, now);
      }
    }
  }

  // ---------------------------------------------------------------------
  // the round trip
  // ---------------------------------------------------------------------

  /** The blank record with the fields `ks` copied from `f`. */
  function Overlay(f: Fields, ks: seq<Key>): (g: Fields)
    ensures forall k :: Get(g, k) == if k in ks then Get(f, k) else ""
    decreases |ks|
  {
    if ks == [] then Blank
    else
      var g := Put(Overlay(f, ks[..|ks| - 1]), ks[|ks| - 1], Get(f, ks[|ks| - 1]));
      assert forall k :: k in ks <==> k in ks[..|ks| - 1] || k == ks[|ks| - 1] by {
        assert ks == ks[..|ks| - 1] + [ks[|ks| - 1]];
      }
      g
  }

  /** A setter given the text a well-stored field holds, on a record where
      that field is still empty, stores exactly that text. */
  lemma SetOwnText(g: Fields, k: Key, s: string, ipv4: Value -> bool, now: Timestamp)
    requires FieldOk(k, s, ipv4) && Get(g, k) == ""
    ensures SetField(g, k, StrV(s), ipv4, now) == Applied(Put(g, k, s), false)
  {
    var r := SetField(g, k, StrV(s), ipv4, now);
    if k == DevLastSeen {
      if s == "" {
        EmptyKeepsInitial(g.devLastSeen, now);
      } else {
        StampIsFixedPoint(s, g.devLastSeen, now);
      }
    } else if k == DevStatus {
      LowerOfLower(s);
    }
    assert !r.raised;
    forall k' ensures Get(r.fields, k') == Get(Put(g, k, s), k') {
    }
    FieldsExtensional(r.fields, Put(g, k, s));
  }

  /** One more pair: the run so far, then that pair's setter. */
  lemma ApplyAllLast(l: Layout, f: Fields, ps: seq<(Key, Value)>, i: nat, ipv4: Value -> bool, now: Timestamp)
    requires i < |ps| && ps[i].0 in KeysOf(l) && !ApplyAll(l, f, ps[..i], ipv4, now).raised
    ensures ApplyAll(l, f, ps[..i + 1], ipv4, now) ==
            SetField(ApplyAll(l, f, ps[..i], ipv4, now).fields, ps[i].0, ps[i].1, ipv4, now)
  {
    ApplyAllStep(l, f, ps, i, ipv4, now);
  }

  /** Running the first `i + 1` setters is running the first `i`, then the
      next one unless an earlier setter raised or the layout lacks its key. */
  lemma ApplyAllStep(l: Layout, f: Fields, ps: seq<(Key, Value)>, i: nat, ipv4: Value -> bool, now: Timestamp)
    requires i < |ps|
    ensures var prev := ApplyAll(l, f, ps[..i], ipv4, now);
      ApplyAll(l, f, ps[..i + 1], ipv4, now) ==
        if prev.raised || ps[i].0 !in KeysOf(l) then prev
        else SetField(prev.fields, ps[i].0, ps[i].1, ipv4, now)
  {
    var q := ps[..i + 1];
    assert q[..|q| - 1] == ps[..i];
    assert q[|q| - 1] == ps[i];
  }

  /** A run of setters that each store without raising, going through the
      records `gs` in turn, ends at the last of them. */
  lemma {:induction false} ApplyChain(l: Layout, ps: seq<(Key, Value)>, gs: seq<Fields>, ipv4: Value -> bool, now: Timestamp)
    requires |gs| == |ps| + 1
    requires forall i :: 0 <= i < |ps| ==> ps[i].0 in KeysOf(l)
    requires forall i :: 0 <= i < |ps| ==> SetField(gs[i], ps[i].0, ps[i].1, ipv4, now) == Applied(gs[i + 1], false)
    ensures ApplyAll(l, gs[0], ps, ipv4, now) == Applied(gs[|ps|], false)
    decreases |ps|
  {
    if ps != [] {
      var n := |ps| - 1;
      ApplyChain(l, ps[..n], gs[..n + 1], ipv4, now);
    }
  }

  /** Overlaying one more key of `ks` stores that key's text last. */
  lemma OverlaySnoc(f: Fields, ks: seq<Key>, i: nat)
    requires i < |ks|
    ensures Overlay(f, ks[..i + 1]) == Put(Overlay(f, ks[..i]), ks[i], Get(f, ks[i]))
  {
    var t := ks[..i + 1];
    assert t[..|t| - 1] == ks[..i] && t[|t| - 1] == ks[i];
  }

  /** No key of a layout appears twice: none occurs before its own place. */
  lemma KeyNotBefore(l: Layout, i: nat)
    requires i < |KeysOf(l)|
    ensures KeysOf(l)[i] !in KeysOf(l)[..i]
  {
  }

  lemma {:induction false} RoundTripPrefix(l: Layout, f: Fields, i: nat, ipv4: Value -> bool, now: Timestamp)
    requires i <= Arity(l)
    requires forall k :: k in KeysOf(l) ==> FieldOk(k, Get(f, k), ipv4)
    ensures ApplyAll(l, Blank, Pairs(KeysOf(l), FieldList(l, f))[..i], ipv4, now) ==
            Applied(Overlay(f, KeysOf(l)[..i]), false)
    decreases i
  {
    if i == 0 {
      assert Pairs(KeysOf(l), FieldList(l, f))[..0] == [];
    } else {
      RoundTripPrefix(l, f, i - 1, ipv4, now);
      RoundTripStep(l, f, i - 1, ipv4, now);
    }
  }

  /** The step of the round trip: the next piece stores its field's own
      text into a field the prefix left empty. */
  lemma RoundTripStep(l: Layout, f: Fields, i: nat, ipv4: Value -> bool, now: Timestamp)
    requires i < Arity(l)
    requires FieldOk(KeysOf(l)[i], Get(f, KeysOf(l)[i]), ipv4)
    requires ApplyAll(l, Blank, Pairs(KeysOf(l), FieldList(l, f))[..i], ipv4, now) ==
             Applied(Overlay(f, KeysOf(l)[..i]), false)
    ensures ApplyAll(l, Blank, Pairs(KeysOf(l), FieldList(l, f))[..i + 1], ipv4, now) ==
            Applied(Overlay(f, KeysOf(l)[..i + 1]), false)
  {
    var keys := KeysOf(l);
    var ps := Pairs(keys, FieldList(l, f));
    var k := keys[i];
    var g := Overlay(f, keys[..i]);
    assert ps[i] == (k, StrV(Get(f, k)));
    assert Get(g, k) == "" by {
      KeyNotBefore(l, i);
    }
    assert ApplyAll(l, Blank, ps[..i + 1], ipv4, now) == SetField(g, k, StrV(Get(f, k)), ipv4, now) by {
      ApplyAllLast(l, Blank, ps, i, ipv4, now);
    }
    SetOwnText(g, k, Get(f, k), ipv4, now);
    OverlaySnoc(f, keys, i);
  }


  /** Round trip: decoding the encoding of a well-stored message whose
      fields hold no comma into a fresh message restores every field and
      raises nothing; the all-empty default is one such message. */
  lemma RoundTrip(l: Layout, f: Fields, ipv4: Value -> bool, now: Timestamp)
    requires WellStored(l, f, ipv4) && NoCommas(f)
    ensures Decode(l, Blank, StrV(Encode(l, f)), ipv4, now) == Applied(f, false)
  {
    SplitEncode(l, f);
    OverlayAll(l, f, ipv4, now);
    WellStoredOverlay(l, f, ipv4);
  }

  lemma OverlayAll(l: Layout, f: Fields, ipv4: Value -> bool, now: Timestamp)
    requires forall k :: k in KeysOf(l) ==> FieldOk(k, Get(f, k), ipv4)
    ensures ApplyAll(l, Blank, Pairs(KeysOf(l), FieldList(l, f)), ipv4, now) == Applied(Overlay(f, KeysOf(l)), false)
  {
    var keys := KeysOf(l);
    var ps := Pairs(keys, FieldList(l, f));
    var n := |keys|;
    assert ps[..n] == ps;
    assert keys[..n] == keys;
    RoundTripPrefix(l, f, n, ipv4, now);
  }

  lemma WellStoredOverlay(l: Layout, f: Fields, ipv4: Value -> bool)
    requires WellStored(l, f, ipv4)
    ensures forall k :: k in KeysOf(l) ==> FieldOk(k, Get(f, k), ipv4)
    ensures Overlay(f, KeysOf(l)) == f
  {
    var g := Overlay(f, KeysOf(l));
    forall k ensures Get(g, k) == Get(f, k) {
    }
    FieldsExtensional(g, f);
  }

  // ---------------------------------------------------------------------
  // the message object
  // ---------------------------------------------------------------------

  /** One message object: `ipv4` stands for the `check_ipv4` helper, which
      is not part of this model. */
  class Message {
    const layout: Layout
    const ipv4: Value -> bool
    var ref: string
    var destAddr: string
    var destPort: string
    var sourceAddr: string
    var sourcePort: string
    var msgType: string
    var devName: string
    var devAddr: string
    var devCmd: string
    var devStatus: string
    var devLastSeen: string
    /** The pieces of the last string given to the `complete` setter. */
    var tempList: seq<string>

    /** `__init__` before its keyword arguments: every field empty. */
    constructor (layout: Layout, ipv4: Value -> bool)
      ensures this.layout == layout && this.ipv4 == ipv4
      ensures Contents() == Blank && tempList == []
    {
      this.layout := layout;
      this.ipv4 := ipv4;
      ref, destAddr, destPort, sourceAddr, sourcePort, msgType := "", "", "", "", "", "";
      devName, devAddr, devCmd, devStatus, devLastSeen := "", "", "", "", "";
      tempList := [];
    }

    /** The ten (or six, or eleven) field getters at once. */
    function Contents(): Fields
      reads this
    {
      Fields(ref, destAddr, destPort, sourceAddr, sourcePort, msgType,
             devName, devAddr, devCmd, devStatus, devLastSeen)
    }

    /** The `complete` getter. */
    function Complete(): string
      reads this
    {
      Encode(layout, Contents())
    }

    /** Storing text in field `k`, the last step of every setter. */
    method Store(k: Key, s: string)
      modifies this
      ensures Contents() == Put(old(Contents()), k, s)
      ensures tempList == old(tempList)
    {
      match k {
        case Ref => ref := s;
        case DestAddr => destAddr := s;
        case DestPort => destPort := s;
        case SourceAddr => sourceAddr := s;
        case SourcePort => sourcePort := s;
        case MsgType => msgType := s;
        case DevName => devName := s;
        case DevAddr => devAddr := s;
        case DevCmd => devCmd := s;
        case DevStatus => devStatus := s;
        case DevLastSeen => devLastSeen := s;
      }
    }

    /** The property setter of field `k`, returning whether it raised: the
        validated fields store an accepted value and ignore any other, the
        status stores the lower-cased text, and the last-seen setter stores
        what `is_valid_datetime` returns or raises with it. */
    method Set(k: Key, v: Value, now: Timestamp) returns (raised: bool)
      requires k in KeysOf(layout)
      modifies this
      ensures Contents() == SetField(old(Contents()), k, v, ipv4, now).fields
      ensures raised == SetField(old(Contents()), k, v, ipv4, now).raised
      ensures tempList == old(tempList)
    {
      raised := false;
      if k == DevStatus {
        Store(k, Lower(Str(v)));
      } else if k == DevLastSeen {
        var checked := IsValidDatetime(v, devLastSeen, now);
        if checked.Ok? {
          Store(k, checked.value);
        } else {
          raised := true;
        }
      } else if Accepts(k, v, ipv4) {
        Store(k, Str(v));
      }
    }

    /** Runs the setters for `(key, value)` pairs in order, skipping keys the
        layout lacks and stopping at the first that raises: the keyword
        loop of `__init__`, and the body of the `complete` setter. */
    method Assign(ps: seq<(Key, Value)>, now: Timestamp) returns (raised: bool)
      modifies this
      ensures Contents() == ApplyAll(layout, old(Contents()), ps, ipv4, now).fields
      ensures raised == ApplyAll(layout, old(Contents()), ps, ipv4, now).raised
      ensures tempList == old(tempList)
    {
      raised := false;
      var i := 0;
      while i < |ps| && !raised
        invariant 0 <= i <= |ps|
        invariant ApplyAll(layout, old(Contents()), ps[..i], ipv4, now) == Applied(Contents(), raised)
        invariant tempList == old(tempList)
      {
        var (k, v) := ps[i];
        ApplyAllStep(layout, old(Contents()), ps, i, ipv4, now);
        if k in KeysOf(layout) {
          raised := Set(k, v, now);
        }
        i := i + 1;
      }
      if raised {
        RaisedStaysRaised(layout, old(Contents()), ps, i, ipv4, now);
      } else {
        assert ps[..i] == ps;
      }
    }

    /** The `complete` setter. */
    method SetComplete(v: Value, now: Timestamp) returns (raised: bool)
      modifies this
      ensures Contents() == Decode(layout, old(Contents()), v, ipv4, now).fields
      ensures raised == Decode(layout, old(Contents()), v, ipv4, now).raised
      ensures tempList == if v.StrV? then Split(v.s, ',') else old(tempList)
    {
      raised := false;
      if v.StrV? {
        tempList := Split(v.s, ',');
        if |tempList| >= Arity(layout) {
          raised := Assign(Pairs(KeysOf(layout), tempList), now);
        }
      }
    }
  }
}
