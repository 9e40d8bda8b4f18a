/** The configuration helpers of bob_wemo_service/configure.py that make
    decisions: the per-file/per-function log filter, the file names of the
    extra log handlers, and the device list built from the DEVICES section.
    Reading the configuration file and building logging objects are left to
    the caller: a section is given as a map from option to text. */
module Configure {
  import opened Wrappers
  import opened Text

  // ---------------------------------------------------------------------
  // MyLogHandlerFilter
  // ---------------------------------------------------------------------

  /** The two attributes of a log record the filter inspects. */
  datatype LogRecord = LogRecord(filename: string, funcName: string)

  /** A `MyLogHandlerFilter`: an empty name matches nothing in particular. */
  datatype LogFilter = LogFilter(fileName: string, funcName: string)

  /** `filter(record)`: both names set, only the file name, only the
      function name, or neither. The four conditions cover every filter, so
      the closing `else` of the source is never reached. In one line: the
      record passes exactly when every name that is set matches. */
  function Accept(f: LogFilter, rec: LogRecord): (r: bool)
    ensures r <==> (f.fileName == "" || rec.filename == f.fileName) && (f.funcName == "" || rec.funcName == f.funcName)
  {
    if |f.fileName| != 0 && |f.funcName| != 0 then
      rec.filename == f.fileName && rec.funcName == f.funcName
    else if |f.fileName| != 0 && |f.funcName| == 0 then
      rec.filename == f.fileName
    else if |f.fileName| == 0 && |f.funcName| != 0 then
      rec.funcName == f.funcName
    else if |f.fileName| == 0 && |f.funcName| == 0 then
      true
    else
      assert false; false
  }

  /** A filter with a name set rejects a record that does not carry it. */
  lemma SetNameMustMatch(f: LogFilter, rec: LogRecord)
    ensures f.fileName != "" && rec.filename != f.fileName ==> !Accept(f, rec)
    ensures f.funcName != "" && rec.funcName != f.funcName ==> !Accept(f, rec)
  {
  }

  // ---------------------------------------------------------------------
  // the extra log handlers
  // ---------------------------------------------------------------------

  /** The index of the first occurrence of `c` in `s`. */
  function FirstIndex(s: string, c: char): (r: Option<nat>)
    ensures r.Some? ==> r.value < |s| && s[r.value] == c && forall j :: 0 <= j < r.value ==> s[j] != c
    ensures r.None? ==> forall j :: 0 <= j < |s| ==> s[j] != c
    decreases |s|
  {
    if s == [] then None
    else if s[0] == c then Some(0)
    else match FirstIndex(s[1..], c)
      case None => None
      case Some(i) => Some(i + 1)
  }

  /** `s.split(sep, 1)`: the text before the first separator and everything
      after it, or the whole text when there is no separator. */
  function SplitOnce(s: string, sep: char): seq<string>
  {
    match FirstIndex(s, sep)
    case None => [s]
    case Some(i) => [s[..i], s[i + 1..]]
  }

  /** The split gives one or two pieces; with two, they rejoin to the input
      around the separator, and the first has no separator in it. */
  lemma SplitOnceParts(s: string, sep: char)
    ensures 1 <= |SplitOnce(s, sep)| <= 2
    ensures |SplitOnce(s, sep)| == 1 <==> sep !in s
    ensures |SplitOnce(s, sep)| == 1 ==> SplitOnce(s, sep)[0] == s
    ensures |SplitOnce(s, sep)| == 2 ==>
      SplitOnce(s, sep)[0] + [sep] + SplitOnce(s, sep)[1] == s && sep !in SplitOnce(s, sep)[0]
  {
    match FirstIndex(s, sep)
    case None =>
    case Some(i) =>
      assert s[..i] + [sep] + s[i + 1..] == s;
      assert sep == s[i];
  }

  /** One extra handler: the log file it writes and the filters on it. */
  datatype Handler = Handler(logFileName: string, filters: seq<LogFilter>)

  /** `handlers[n].addFilter(f)`. */
  function AttachFilter(hs: seq<Handler>, n: nat, f: LogFilter): (r: seq<Handler>)
    requires n < |hs|
    ensures |r| == |hs| && forall j :: 0 <= j < |hs| ==> r[j].logFileName == hs[j].logFileName
    ensures forall j :: 0 <= j < |hs| && j != n ==> r[j] == hs[j]
    ensures r[n].filters == hs[n].filters + [f]
  {
    hs[n := hs[n].(filters := hs[n].filters + [f])]
  }

  /** The filter an extra-handler value `file/func` asks for. */
  function ExtraFilter(value: string): LogFilter
  {
    var parts := SplitOnce(value, '/');
    LogFilter(parts[0], if |parts| >= 2 then parts[1] else "")
  }

  /** The log file name an extra-handler value asks for: `file.func.log`,
      `file.log` when there is no function part, `func.log` when the file
      part is empty. */
  function ExtraLogFileName(value: string): string
  {
    var parts := SplitOnce(value, '/');
    if |parts| >= 2 then
      (if |parts[0]| > 0 then parts[0] + "." else "") + parts[1] + ".log"
    else parts[0] + ".log"
  }

  /** The three shapes of the file name. */
  lemma ExtraLogFileNameCases(value: string)
    ensures '/' !in value ==> ExtraLogFileName(value) == value + ".log" && ExtraFilter(value) == LogFilter(value, "")
    ensures var f := ExtraFilter(value);
      '/' in value ==>
        && f.fileName + "/" + f.funcName == value
        && (f.fileName != "" ==> ExtraLogFileName(value) == f.fileName + "." + f.funcName + ".log")
        && (f.fileName == "" ==> ExtraLogFileName(value) == f.funcName + ".log")
  {
    SplitOnceParts(value, '/');
  }

  // ---------------------------------------------------------------------
  // the device list
  // ---------------------------------------------------------------------

  /** An automation device (its class, in bob_wemo_service/tools/device.py,
      is not part of this model). Name, type, address and rule come from the
      configuration; command, status and last-seen are updated later and
      start empty. */
  class Device {
    const name: string
    const devType: string
    const addr: string
    const rule: string
    var cmd: string
    var status: string
    var lastSeen: string

    constructor (name: string, devType: string, addr: string, rule: string)
      ensures this.name == name && this.devType == devType && this.addr == addr && this.rule == rule
      ensures cmd == "" && status == "" && lastSeen == ""
    {
      this.name, this.devType, this.addr, this.rule := name, devType, addr, rule;
      cmd, status, lastSeen := "", "", "";
    }
  }

  /** The configured part of a device. */
  datatype Entry = Entry(name: string, devType: string, addr: string, rule: string)

  function EntryOf(d: Device): Entry
  {
    Entry(d.name, d.devType, d.addr, d.rule)
  }

  function Entries(ds: seq<Device>): (es: seq<Entry>)
    ensures |es| == |ds| && forall j :: 0 <= j < |ds| ==> es[j] == EntryOf(ds[j])
  {
    seq(|ds|, j requires 0 <= j < |ds| => EntryOf(ds[j]))
  }

  /** The device id for number `i`: `device0i` when `str(i)` has one
      character, `devicei` when it has two. From three characters on neither
      branch of the source runs and the previous id is used again. The
      length test is written here as the number ranges it amounts to;
      `DeviceIdByLength` proves the two agree. */
  function DeviceId(i: int, prev: string): string
  {
    if 0 <= i <= 9 then "device0" + IntToString(i)
    else if 10 <= i <= 99 || -9 <= i <= -1 then "device" + IntToString(i)
    else prev
  }

  /** The four option keys of one device id. */
  function Keys(id: string): seq<string>
  {
    [id + "_name", id + "_devtype", id + "_address", id + "_rule"]
  }

  /** The device an id describes, when all four of its options exist. */
  function Described(section: map<string, string>, id: string): Option<Entry>
  {
    var k := Keys(id);
    if k[0] in section && k[1] in section && k[2] in section && k[3] in section then
      Some(Entry(section[k[0]], section[k[1]], section[k[2]], section[k[3]]))
    else None
  }

  /** The device an id contributes to the list: one when its options are
      present, none otherwise. */
  function Found(section: map<string, string>, id: string): seq<Entry>
  {
    match Described(section, id) case Some(e) => [e] case None => []
  }

  /** The devices listed for numbers 1 to `count`, and the id in force
      after them, starting from the id `id0`: a number whose options are
      missing adds nothing. */
  function Listing(section: map<string, string>, count: int, id0: string): (seq<Entry>, string)
    decreases count
  {
    if count <= 0 then ([], id0)
    else
      var (entries, prev) := Listing(section, count - 1, id0);
      var id := DeviceId(count, prev);
      (entries + Found(section, id), id)
  }

  lemma {:induction false} NatToStringLength(n: nat)
    ensures |NatToString(n)| == 1 <==> n < 10
    ensures |NatToString(n)| == 2 <==> 10 <= n < 100
    decreases n
  {
    if n >= 10 {
      NatToStringLength(n / 10);
    }
  }

  /** The ranges above are exactly the one- and two-character `str(i)`. */
  lemma DeviceIdByLength(i: int, prev: string)
    ensures DeviceId(i, prev) ==
      if |IntToString(i)| == 1 then "device0" + IntToString(i)
      else if |IntToString(i)| == 2 then "device" + IntToString(i)
      else prev
  {
    NatToStringLength(if i < 0 then -i else i);
  }

  /** One and two digit numbers get the zero-padded `deviceNN` id; from 100
      on the id stays at the last two-digit one, so the options of
      `device99` are read again for every further number. */
  lemma DeviceIdShape(i: int, prev: string)
    requires 1 <= i
    ensures i <= 9 ==> DeviceId(i, prev) == "device0" + [DigitChar(i)]
    ensures 10 <= i <= 99 ==> DeviceId(i, prev) == "device" + [DigitChar(i / 10), DigitChar(i % 10)]
    ensures 100 <= i ==> DeviceId(i, prev) == prev
  {
    if 10 <= i <= 99 {
      assert NatToString(i) == NatToString(i / 10) + [DigitChar(i % 10)];
      assert NatToString(i / 10) == [DigitChar(i / 10)];
    }
  }

  /** Ids are taken in increasing order and an id with all four options
      present contributes its device: when every id up to `count` (at most
      99) is complete, the list is exactly those devices in id order. */
  lemma {:induction false} ListedInOrder(section: map<string, string>, count: int, id0: string)
    requires 0 <= count <= 99
    requires forall j :: 1 <= j <= count ==> Described(section, DeviceId(j, "")).Some?
    ensures |Listing(section, count, id0).0| == count
    ensures forall j :: 0 <= j < count ==>
      Listing(section, count, id0).0[j] == Described(section, DeviceId(j + 1, "")).value
    decreases count
  {
    if count > 0 {
      ListedInOrder(section, count - 1, id0);
      var prev := Listing(section, count - 1, id0).1;
      assert DeviceId(count, prev) == DeviceId(count, "");
    }
  }

  /** A number whose options are missing is skipped: the list stays as it
      was, while the id moves on. */
  lemma SkipsIncomplete(section: map<string, string>, count: int, id0: string)
    requires count >= 1
    requires Described(section, DeviceId(count, Listing(section, count - 1, id0).1)).None?
    ensures Listing(section, count, id0).0 == Listing(section, count - 1, id0).0
  {
  }

  /** The `ConfigureService` object: the handler and filter lists it builds,
      the device list, and the loop counter and id it keeps as fields. */
  class ConfigureService {
    var handlers: seq<Handler>
    var filters: seq<LogFilter>
    var devices: seq<Device>
    var deviceNum: int
    var deviceId: string
    var i: int

    constructor ()
      ensures handlers == [] && filters == [] && devices == [] && deviceNum == 0 && deviceId == "" && i == 0
    {
      handlers, filters, devices := [], [], [];
      deviceNum, deviceId, i := 0, "", 0;
    }

    /** The extra-handler loop of `get_logger`, over the values of the EXTRA
        LOG HANDLERS section: one handler and one filter per value. The
        filter is attached to `handlers[i]` with `i` counted from 0, so on
        a fresh object handler `j` carries exactly filter `j`. */
    method AddExtraHandlers(values: seq<string>)
      modifies this
      ensures |handlers| == old(|handlers|) + |values| && i == |values|
      ensures |filters| == old(|filters|) + |values| && filters[..old(|filters|)] == old(filters)
      ensures forall j :: 0 <= j < |values| ==> filters[old(|filters|) + j] == ExtraFilter(values[j])
      ensures old(handlers) == [] && old(filters) == [] ==>
        forall j :: 0 <= j < |values| ==> handlers[j] == Handler(ExtraLogFileName(values[j]), [ExtraFilter(values[j])])
      ensures devices == old(devices) && deviceNum == old(deviceNum) && deviceId == old(deviceId)
    {
      var hs, fs := handlers, filters;
      ghost var fresh0 := hs == [] && fs == [];
      var n := 0;
      while n < |values|
        invariant 0 <= n <= |values|
        invariant |hs| == |old(handlers)| + n && |fs| == |old(filters)| + n && fs[..|old(filters)|] == old(filters)
        invariant forall j :: 0 <= j < n ==> fs[|old(filters)| + j] == ExtraFilter(values[j])
        invariant fresh0 ==> old(handlers) == [] && old(filters) == []
        invariant fresh0 ==> forall j :: 0 <= j < n ==> hs[j] == Handler(ExtraLogFileName(values[j]), [ExtraFilter(values[j])])
      {
        var value := values[n];
        ghost var before := hs;
        hs := hs + [Handler(ExtraLogFileName(value), [])];
        fs := fs + [ExtraFilter(value)];
        hs := AttachFilter(hs, n, fs[n]);
        if fresh0 {
          assert |before| == n && fs[n] == ExtraFilter(value);
        }
        n := n + 1;
      }
      handlers, filters, i := hs, fs, n;
    }

    /** One pass of the `get_devices` loop: the id for number `n`, and its
        device appended when all four of its options are present (a missing
        one raises `KeyError`, which the loop catches). */
    method AddDevice(section: map<string, string>, n: int)
      modifies this
      ensures deviceId == DeviceId(n, old(deviceId))
      ensures Entries(devices) == Entries(old(devices)) + Found(section, deviceId)
      ensures forall d :: d in devices ==> d in old(devices) || fresh(d)
      ensures handlers == old(handlers) && filters == old(filters) && deviceNum == old(deviceNum) && i == old(i)
    {
      deviceId := DeviceId(n, deviceId);
      var k := Keys(deviceId);
      if k[0] in section && k[1] in section && k[2] in section && k[3] in section {
        var d := new Device(section[k[0]], section[k[1]], section[k[2]], section[k[3]]);
        assert Found(section, deviceId) == [EntryOf(d)];
        assert Entries(devices + [d]) == Entries(devices) + [EntryOf(d)];
        devices := devices + [d];
      } else {
        assert Found(section, deviceId) == [];
      }
    }

    /** `get_devices` over the DEVICES section: `device_num` must be present
        and read as an int (otherwise the exception escapes, with the list
        already emptied); then ids 1 to `device_num` are tried in order. */
    method GetDevices(section: map<string, string>) returns (raised: bool)
      modifies this
      ensures raised <==> "device_num" !in section || ParseInt(section["device_num"]).None?
      ensures raised ==> devices == [] && deviceNum == old(deviceNum) && deviceId == old(deviceId) && i == old(i)
      ensures !raised ==> deviceNum == ParseInt(section["device_num"]).value + 1 &&
                          (Entries(devices), deviceId) == Listing(section, deviceNum - 1, old(deviceId)) &&
                          i == if deviceNum > 1 then deviceNum - 1 else old(i)
      ensures forall d :: d in devices ==> fresh(d)
      ensures handlers == old(handlers) && filters == old(filters)
    {
      devices := [];
      if "device_num" !in section {
        return true;
      }
      var parsed := ParseInt(section["device_num"]);
      if parsed.None? {
        return true;
      }
      raised := false;
      deviceNum := parsed.value + 1;
      var n := 1;
      ghost var id0 := old(deviceId);
      while n < deviceNum
        invariant 1 <= n && (n <= deviceNum || n == 1)
        invariant deviceNum == parsed.value + 1
        invariant (Entries(devices), deviceId) == Listing(section, n - 1, id0)
        invariant i == if n == 1 then old(i) else n - 1
        invariant forall d :: d in devices ==> fresh(d)
        invariant handlers == old(handlers) && filters == old(filters)
        decreases deviceNum - n
      {
        ghost var before := Listing(section, n - 1, id0);
        assert Listing(section, n, id0) == (before.0 + Found(section, DeviceId(n, before.1)), DeviceId(n, before.1));
        i := n;
        AddDevice(section, n);
        n := n + 1;
      }
      if deviceNum < 1 {
        assert Listing(section, n - 1, old(deviceId)) == Listing(section, deviceNum - 1, old(deviceId)) == ([], old(deviceId));
      }
    }
  }
}
