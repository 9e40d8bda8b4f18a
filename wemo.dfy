/** The pywemo wrapper of bob_wemo_service/wemo.py (`WemoAPI`): a cache of
    known devices, filled by discovery at a configured address, behind
    `read_status`, `turn_on` and `turn_off`. */
module Wemo {
  import opened Wrappers
  import opened Text
  import opened Values

  /** A device object handed out by pywemo; only its name is inspected. */
  datatype WemoDevice = WemoDevice(name: string, location: string)

  /** The pywemo library as the wrapper uses it, each call an oracle that
      may fail: `probe_wemo(address)` finds the device's port (`None` where
      it raises), `device_from_description(url, None)` builds the device
      (`None` where it raises), and `get_state(force_update=True)` gives the
      device's state as `str()` shows it, given the `on()` and `off()`
      commands sent so far, so a device may answer differently after one. */
  datatype Pywemo = Pywemo(
    probe: string -> Option<int>,
    describe: string -> Option<WemoDevice>,
    state: (WemoDevice, seq<(WemoDevice, bool)>) -> string)

  /** `'http://%s:%i/setup.xml' % (address, port)`. */
  function DescriptionUrl(address: string, port: int): (url: string)
    ensures |url| >= |address| + 19 && url[..7] == "http://" && url[|url| - 10..] == "/setup.xml"
  {
    "http://" + address + ":" + IntToString(port) + "/setup.xml"
  }

  /** The description URL names the device: the address comes right after
      `http://`, then a colon and the port, whose text reads back as the
      port. */
  lemma DescriptionUrlParts(address: string, port: int)
    ensures var url := DescriptionUrl(address, port);
      && url[7..7 + |address|] == address && url[7 + |address|] == ':'
      && ParseInt(url[8 + |address|..|url| - 10]) == Some(port)
  {
    var url := DescriptionUrl(address, port);
    assert url[8 + |address|..|url| - 10] == IntToString(port);
    ParseIntToString(port);
  }

  /** What `discover(name, address)` returns: nothing for an address that
      fails the IPv4 check or whose probe fails; otherwise the device built
      from the description at the probed port, if that succeeds. */
  function DiscoverSpec(p: Pywemo, ipv4: Value -> bool, address: string): Option<WemoDevice>
  {
    if !ipv4(StrV(address)) then None
    else match p.probe(address)
      case None => None
      case Some(port) => p.describe(DescriptionUrl(address, port))
  }

  /** The index of the first known device with the given name. */
  function FirstNamed(known: seq<WemoDevice>, name: string): (r: Option<nat>)
    ensures r.Some? ==> r.value < |known| && known[r.value].name == name &&
                        forall j :: 0 <= j < r.value ==> known[j].name != name
    ensures r.None? ==> forall j :: 0 <= j < |known| ==> known[j].name != name
    decreases |known|
  {
    if known == [] then None
    else if known[0].name == name then Some(0)
    else match FirstNamed(known[1..], name)
      case None => None
      case Some(i) => Some(i + 1)
  }

  /** The device an operation acts on: the first known one with that name,
      or else whatever discovery finds. */
  function Resolve(p: Pywemo, ipv4: Value -> bool, known: seq<WemoDevice>, name: string, address: string): Option<WemoDevice>
  {
    match FirstNamed(known, name)
    case Some(i) => Some(known[i])
    case None => DiscoverSpec(p, ipv4, address)
  }

  /** The known list after an operation: a device found by discovery (after
      a cache miss) is appended; nothing is ever removed. */
  function KnownAfter(p: Pywemo, ipv4: Value -> bool, known: seq<WemoDevice>, name: string, address: string): seq<WemoDevice>
  {
    if FirstNamed(known, name).None? && DiscoverSpec(p, ipv4, address).Some? then
      known + [DiscoverSpec(p, ipv4, address).value]
    else known
  }

  /** Discovery at an address that fails the IPv4 check finds nothing. */
  lemma DiscoverNeedsIpv4(p: Pywemo, ipv4: Value -> bool, address: string)
    requires !ipv4(StrV(address))
    ensures DiscoverSpec(p, ipv4, address).None?
  {
  }

  /** The known list never shrinks, keeps its order, and grows by exactly
      one device exactly when the lookup missed and discovery succeeded. */
  lemma KnownGrowth(p: Pywemo, ipv4: Value -> bool, known: seq<WemoDevice>, name: string, address: string)
    ensures var after := KnownAfter(p, ipv4, known, name, address);
      && |known| <= |after| && after[..|known|] == known
      && (|after| == |known| + 1 <==> FirstNamed(known, name).None? && DiscoverSpec(p, ipv4, address).Some?)
      && (|after| == |known| + 1 || after == known)
  {
  }

  /** A hit needs no discovery. When discovery finds a device that reports
      the requested name, the next lookup of that name hits it; a device
      reporting another name is appended yet never found by name, so each
      later operation on it runs discovery and appends it again. */
  lemma {:induction false} CachedAfterDiscovery(p: Pywemo, ipv4: Value -> bool, known: seq<WemoDevice>, name: string, address: string)
    requires FirstNamed(known, name).None? && DiscoverSpec(p, ipv4, address).Some?
    ensures DiscoverSpec(p, ipv4, address).value.name == name ==>
      FirstNamed(KnownAfter(p, ipv4, known, name, address), name) == Some(|known|)
    ensures DiscoverSpec(p, ipv4, address).value.name != name ==>
      FirstNamed(KnownAfter(p, ipv4, known, name, address), name).None?
  {
    var d := DiscoverSpec(p, ipv4, address).value;
    var after := known + [d];
    assert after[|known|] == d;
    assert forall j :: 0 <= j < |known| ==> after[j] == known[j];
  }

  /** One `WemoAPI` object. `commands` records the `on()` (true) and `off()`
      (false) commands sent to devices, and `probed` and `described` the
      addresses probed and the description URLs fetched. */
  class WemoApi {
    const pywemo: Pywemo
    const ipv4: Value -> bool
    var wemoDevice: Option<WemoDevice>
    var wemoPort: Option<int>
    var wemoUrl: string
    var wemoKnown: seq<WemoDevice>
    var result: Option<nat>
    var status: string
    var commands: seq<(WemoDevice, bool)>
    var probed: seq<string>
    var described: seq<string>

    /** `__init__`: the known list starts as what the initial network scan
        `discover_devices()` found, given here as `scanned`. */
    constructor (pywemo: Pywemo, ipv4: Value -> bool, scanned: seq<WemoDevice>)
      ensures this.pywemo == pywemo && this.ipv4 == ipv4
      ensures wemoKnown == scanned && wemoDevice == None && wemoPort == None && wemoUrl == ""
      ensures result == None && status == "" && commands == [] && probed == [] && described == []
    {
      this.pywemo := pywemo;
      this.ipv4 := ipv4;
      wemoDevice, wemoPort, wemoUrl := None, None, "";
      wemoKnown, result, status := scanned, None, "";
      commands, probed, described := [], [], [];
    }

    /** `discover(name, address)`: probes only an address that passes the
        IPv4 check, and fetches a description only once a port is known. */
    method Discover(name: string, address: string) returns (d: Option<WemoDevice>)
      modifies this
      ensures d == DiscoverSpec(pywemo, ipv4, address) && wemoDevice == d
      ensures wemoPort == if ipv4(StrV(address)) then pywemo.probe(address) else None
      ensures probed == old(probed) + (if ipv4(StrV(address)) then [address] else [])
      ensures wemoPort.Some? ==> wemoUrl == DescriptionUrl(address, wemoPort.value) && described == old(described) + [wemoUrl]
      ensures wemoPort.None? ==> wemoUrl == old(wemoUrl) && described == old(described)
      ensures wemoKnown == old(wemoKnown) && result == old(result) && status == old(status) && commands == old(commands)
    {
      if ipv4(StrV(address)) {
        wemoDevice := None;
        wemoPort := pywemo.probe(address);
        probed := probed + [address];
      } else {
        wemoPort := None;
      }
      if wemoPort.Some? {
        wemoUrl := DescriptionUrl(address, wemoPort.value);
        wemoDevice := pywemo.describe(wemoUrl);
        described := described + [wemoUrl];
      } else {
        wemoDevice := None;
      }
      d := wemoDevice;
    }

    /** The `next(...)` search of the known list by name. */
    method FindKnown(name: string) returns (r: Option<nat>)
      ensures r == FirstNamed(wemoKnown, name)
    {
      var i := 0;
      while i < |wemoKnown| && wemoKnown[i].name != name
        invariant 0 <= i <= |wemoKnown|
        invariant forall j :: 0 <= j < i ==> wemoKnown[j].name != name
        decreases |wemoKnown| - i
      {
        i := i + 1;
      }
      r := if i < |wemoKnown| then Some(i) else None;
    }

    /** The lookup-then-discover step the three operations share: the device
        they act on, with `result` recording the cache hit. */
    method Locate(name: string, address: string) returns (d: Option<WemoDevice>)
      modifies this
      ensures result == FirstNamed(old(wemoKnown), name)
      ensures d == Resolve(pywemo, ipv4, old(wemoKnown), name, address) && wemoDevice == d
      ensures result.Some? ==> wemoPort == old(wemoPort) && wemoUrl == old(wemoUrl) &&
                               probed == old(probed) && described == old(described)
      ensures result.None? ==> probed == old(probed) + (if ipv4(StrV(address)) then [address] else [])
      ensures wemoKnown == old(wemoKnown) && status == old(status) && commands == old(commands)
    {
      result := FindKnown(name);
      if result.Some? {
        wemoDevice := Some(wemoKnown[result.value]);
      } else {
        wemoDevice := Discover(name, address);
      }
      d := wemoDevice;
    }

    /** `read_status`: the state of the resolved device with the current
        time as its last-seen, or 'offline' with the caller's last-seen. */
    method ReadStatus(name: string, address: string, lastStatus: string, lastSeen: string, now: Timestamp)
      returns (newStatus: string, newLastSeen: string)
      modifies this
      ensures var d := Resolve(pywemo, ipv4, old(wemoKnown), name, address);
        && (d.Some? ==> newStatus == pywemo.state(d.value, commands) && newLastSeen == RenderDateTime(now))
        && (d.None? ==> newStatus == "offline" && newLastSeen == lastSeen)
        && wemoDevice == d
      ensures status == newStatus && result == FirstNamed(old(wemoKnown), name)
      ensures wemoKnown == KnownAfter(pywemo, ipv4, old(wemoKnown), name, address)
      ensures commands == old(commands)
    {
      var d := Locate(name, address);
      if d.Some? {
        status := pywemo.state(d.value, commands);
        if result.None? {
          wemoKnown := wemoKnown + [d.value];
        }
        newStatus, newLastSeen := status, RenderDateTime(now);
      } else {
        status := "offline";
        newStatus, newLastSeen := status, lastSeen;
      }
    }

    /** `turn_on` and `turn_off`: the command is sent to the resolved device
        and its status becomes 'on' or 'off' with the current time as its
        last-seen; an unresolved device gets no command and is reported
        'offline' with the caller's last-seen. */
    method Switch(name: string, address: string, lastSeen: string, on: bool, now: Timestamp)
      returns (newStatus: string, newLastSeen: string)
      modifies this
      ensures var d := Resolve(pywemo, ipv4, old(wemoKnown), name, address);
        && (d.Some? ==> newStatus == (if on then "on" else "off") && newLastSeen == RenderDateTime(now) &&
                        commands == old(commands) + [(d.value, on)])
        && (d.None? ==> newStatus == "offline" && newLastSeen == lastSeen && commands == old(commands))
        && wemoDevice == d
      ensures status == newStatus && result == FirstNamed(old(wemoKnown), name)
      ensures wemoKnown == KnownAfter(pywemo, ipv4, old(wemoKnown), name, address)
    {
      var d := Locate(name, address);
      newLastSeen := lastSeen;
      if d.Some? {
        commands := commands + [(d.value, on)];
        status := if on then "on" else "off";
        newLastSeen := RenderDateTime(now);
        if result.None? {
          wemoKnown := wemoKnown + [d.value];
        }
      } else {
        status := "offline";
      }
      newStatus := status;
    }

    /** `turn_on`. */
    method TurnOn(name: string, address: string, lastStatus: string, lastSeen: string, now: Timestamp)
      returns (newStatus: string, newLastSeen: string)
      modifies this
      ensures var d := Resolve(pywemo, ipv4, old(wemoKnown), name, address);
        && (d.Some? ==> newStatus == "on" && newLastSeen == RenderDateTime(now) && commands == old(commands) + [(d.value, true)])
        && (d.None? ==> newStatus == "offline" && newLastSeen == lastSeen && commands == old(commands))
      ensures wemoKnown == KnownAfter(pywemo, ipv4, old(wemoKnown), name, address)
    {
      newStatus, newLastSeen := Switch(name, address, lastSeen, true, now);
    }

    /** `turn_off`. */
    method TurnOff(name: string, address: string, lastStatus: string, lastSeen: string, now: Timestamp)
      returns (newStatus: string, newLastSeen: string)
      modifies this
      ensures var d := Resolve(pywemo, ipv4, old(wemoKnown), name, address);
        && (d.Some? ==> newStatus == "off" && newLastSeen == RenderDateTime(now) && commands == old(commands) + [(d.value, false)])
        && (d.None? ==> newStatus == "offline" && newLastSeen == lastSeen && commands == old(commands))
      ensures wemoKnown == KnownAfter(pywemo, ipv4, old(wemoKnown), name, address)
    {
      newStatus, newLastSeen := Switch(name, address, lastSeen, false, now);
    }
  }
}
