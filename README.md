# bob_wemo_service in Dafny

This project models the message-handling core of `bob_wemo_service`. The service answers a small comma-separated text protocol on behalf of Wemo smart plugs. It also polls the devices named in its configuration file.

The model covers these parts of the service:

- **Reference numbers** (`RefNumbers`, `refnum.dfy`): the shared counter `RefNum`. It starts at 100. It is pre-incremented by `new()` and wraps back to 100 past 999.
- **Field validators** (`FieldCheckers`, `field_checkers.dfy`): `in_int_range`, and `is_valid_datetime`.
  - The three regular expressions of `is_valid_datetime` are written as character predicates. Their `\d` is read as the ASCII digits only (see "## Left out").
  - Its wall-clock reading is a `now` parameter.
  - Two inputs make the Python code raise, and the model raises too: a date string naming no calendar day, and a time string with fractional seconds.
- **Message objects** (`Messages`, `messages.dfy`): `GetDeviceStateMessage` and its five sibling classes. One `class Message` holds the string fields; its `layout` says which fields a class carries.
  - Each setter is a method proved against the pure function `SetField`.
  - The `complete` getter is `Encode`. The `complete` setter is `SetComplete`, proved against `Decode`.
  - The message invariant `WellStored` is proved to be kept by every setter and by decoding.
  - Decoding the encoding of a comma-free, well-stored message restores it (`RoundTrip`).
- **Handlers** (`MsgProcessing`, `msg_processing.dfy`): `create_heartbeat_msg`, `process_heartbeat_msg`, `get_wemo_state` and `set_wemo_state`.
  - Each one is a method that works on message objects and the shared `RefNum`.
  - Each method is proved equal to a pure specification. Lemmas then state what that specification does: the swapped header, one reference used, which gateway call is made.
  - The device gateway is a `Gateway` class. It keeps a log of the calls it receives and answers through a reply oracle.
- **Wemo wrapper** (`Wemo`, `wemo.dfy`): `WemoAPI`'s known-device cache, `discover`, `read_status`, `turn_on` and `turn_off`.
  - The pywemo library is an oracle record that may fail (`Pywemo`).
  - The list of known devices is proved never to shrink. It grows by exactly one device, and only after a cache miss that discovery resolved.
- **Configuration** (`Configure`, `configure.dfy`): the decision in `MyLogHandlerFilter.filter`, the extra-handler loop of `get_logger`, and the device list built by `get_devices`.
- **The work task** (`ServiceMain`, `service_main.dfy`): `MainTask`.
  - `Step` is one pass of the `run` loop. It takes at most one inbound message, reads its header, and runs the handlers its type code selects. Unless a handler raised, it queues the replies in order, then calls `check_wemo`.
  - The polling pointer of `check_wemo` is also a pure function, `CheckStep`, with lemmas about how a sweep visits the devices.

Some behaviours of the code that the model keeps as written, since the lemmas state them:

- `check_wemo` increments the pointer before using it, so index 0 of the device list is never polled (`PointerInRange`).
- The type code survives from one message to the next, so a message with fewer than six fields is dispatched on the previous message's type. It is not dropped (`ShortMessageUsesStaleType`). In the source, the type is extracted at bob_wemo_service/service_main.py:151-155 and tested at line 170.
- Device numbers from 100 on reuse the id `device99` (`DeviceIdShape`).
- A discovered device whose reported name differs from the requested one is appended to the known list. It is never found by name afterwards, so each later request appends it again (`CachedAfterDiscovery`).
- Nothing emits periodic heartbeats. `create_heartbeat_msg` is imported at bob_wemo_service/service_main.py:10 but never called, and `last_check_hb` (line 40) is never read. `CreateHeartbeatMsgs` still models the function on its own.

## Model

| member | source | states |
|---|---|---|
| RefNumbers.NextRef | bob_wemo_service/ref_num.py:48-55 | one `new()` never goes above 999, keeps a counter in [100, 999] in range, follows any counter of 999 or more with 100, as `new()` does when the counter passes 999, and otherwise adds one |
| RefNumbers.IterateInCycle | bob_wemo_service/ref_num.py:48-55 | inside [100, 999], k calls of `new()` move the counter k places round the 900-value cycle |
| RefNumbers.FullCycle | bob_wemo_service/ref_num.py:48-55 | from any start in [100, 999], 900 calls hand out every value of the range exactly once and end back at the start |
| RefNumbers.RefNum.constructor | bob_wemo_service/ref_num.py:22-28 | a fresh allocator holds 100 |
| RefNumbers.RefNum.SetSource | bob_wemo_service/ref_num.py:36-45 | an int is stored as given; a string is stored through `int()` and raises `ValueError`, leaving the counter unchanged, when it is not a number; any other value is ignored |
| RefNumbers.RefNum.New | bob_wemo_service/ref_num.py:48-55 | the counter advances as `NextRef` says, and the returned text equals the subsequent `source` reading |
| RefNumbers.FirstReference | bob_wemo_service/ref_num.py:28-55 | the first `new()` on a fresh allocator returns "101" |
| Text.SplitJoin | bob_wemo_service/get_device_state.py:255-264 | joining separator-free pieces with commas and splitting again gives the pieces back |
| Text.JoinSplit | bob_wemo_service/get_device_state.py:255-264 | joining the pieces of any split restores the string |
| Text.ParseIntToString | bob_wemo_service/get_device_state.py:93-94 | `int(str(i)) == i` for every integer, so text stored by a range-checked setter reads back as the number it was given |
| Text.Lower | bob_wemo_service/get_device_state.py:222-227 | `lower()` keeps the length, leaves no upper-case letter and changes no character that is not an upper-case letter |
| Text.LowerMapsLetters | bob_wemo_service/get_device_state.py:222-227 | each letter A to Z becomes the same letter of the alphabet a to z |
| Text.LowerOfLower | bob_wemo_service/get_device_state.py:222-227 | lower-casing text that is already lower case changes nothing |
| FieldCheckers.InIntRangeOfText | bob_wemo_service/tools/field_checkers.py:35-53 | an int and its decimal text pass or fail the range check together, so a value stored as `str()` still passes the check it passed |
| FieldCheckers.EmptyOutOfRange | bob_wemo_service/tools/field_checkers.py:39-47 | the empty string never passes the range check |
| FieldCheckers.PatternsExclusive | bob_wemo_service/tools/field_checkers.py:28-31 | no string fully matches two of the date, time and datetime patterns, so the first match of the date, time, datetime order is the only one |
| FieldCheckers.IsValidDatetime | bob_wemo_service/tools/field_checkers.py:57-132 | every accepted result has at most 19 characters; a string matching the datetime pattern comes back as its first 19 characters; a string matching no pattern, an int or another object gives the initial value cut to 19; only a date or time string can raise |
| FieldCheckers.TimeOfText | bob_wemo_service/tools/field_checkers.py:103-115 | a time string without a fraction always names a valid time of day |
| FieldCheckers.RenderedIsStamp | bob_wemo_service/tools/field_checkers.py:63-65 | the first 19 characters of `str()` of any datetime form a `YYYY-MM-DD HH:MM:SS` stamp |
| FieldCheckers.DateTimePrefixMatches | bob_wemo_service/tools/field_checkers.py:116-119 | the first 19 characters of a datetime-pattern string are a stamp |
| FieldCheckers.StampIsFixedPoint | bob_wemo_service/tools/field_checkers.py:116-119 | feeding a 19-character stamp back to the validator returns it unchanged |
| FieldCheckers.EmptyKeepsInitial | bob_wemo_service/tools/field_checkers.py:120-132 | the empty string gives back the initial value cut to 19 characters |
| FieldCheckers.ValidDatetimeKeepsStamp | bob_wemo_service/tools/field_checkers.py:57-132 | when the initial value is a stamp or empty, any accepted result is a stamp or empty too |
| Messages.KeysOf | bob_wemo_service/get_device_state.py:255-259 | every layout starts with the six header fields in wire order |
| Messages.KeyNotBefore | bob_wemo_service/get_device_state.py:255-259 | no field occurs twice in a layout |
| Messages.Put | bob_wemo_service/get_device_state.py:91-244 | storing into one field sets that field and leaves every other field as it was |
| Messages.SetField | bob_wemo_service/get_device_state.py:91-244 | only the last-seen setter can raise, and it then changes nothing; a setter changes no other field; a rejected value leaves its field unchanged; an accepted value is stored as `str()`; the status is stored lower-cased; the last-seen setter raises exactly when `is_valid_datetime` of the value, with the old last-seen text as its initial value, raises, and otherwise stores that result, which has at most 19 characters |
| Messages.RaisedStaysRaised | bob_wemo_service/get_device_state.py:267-276 | once a setter has raised, the setters after it are never reached |
| Messages.EncodeDeviceState | bob_wemo_service/get_device_state.py:255-259 | `complete` is exactly ref, dest_addr, dest_port, source_addr, source_port, msg_type, dev_name, dev_addr, dev_status and dev_last_seen, joined by commas |
| Messages.SplitEncode | bob_wemo_service/get_device_state.py:255-264 | splitting the encoding of a comma-free message gives its fields back in wire order |
| Messages.Decode | bob_wemo_service/get_device_state.py:261-276 | a non-string, or a string with fewer pieces than the layout has fields, changes nothing and raises nothing |
| Messages.DecodeRaises | bob_wemo_service/get_device_state.py:261-276 | decoding into a fresh device message raises exactly when the message has enough pieces and its last-seen piece is one the last-seen validator rejects; no other setter can raise |
| Messages.BlankWellStored | bob_wemo_service/get_device_state.py:30-39 | a fresh message, with every field empty, satisfies the message invariant |
| Messages.SetFieldKeepsInvariant | bob_wemo_service/get_device_state.py:91-244 | every setter keeps the invariant: ref and type empty or an int string in [100, 999], ports empty or in [10000, 60000], addresses empty or passing the IPv4 check, status lower case, last-seen empty or a stamp |
| Messages.ApplyAllKeepsInvariant | bob_wemo_service/get_device_state.py:42-83 | any run of setters with string values keeps the invariant |
| Messages.DecodeKeepsInvariant | bob_wemo_service/get_device_state.py:261-276 | decoding any value into a well-stored message keeps the invariant |
| Messages.RoundTripPrefix | bob_wemo_service/get_device_state.py:264-276 | when every field of the layout holds text its setter accepts, decoding the first i pieces of the encoding into a blank message copies exactly the first i fields and raises nothing |
| Messages.RoundTrip | bob_wemo_service/get_device_state.py:247-276 | decoding the encoding of a well-stored, comma-free message into a fresh message restores every field and raises nothing |
| Messages.Message.constructor | bob_wemo_service/get_device_state.py:30-40 | `__init__` before its keyword arguments leaves every field empty and `temp_list` empty |
| Messages.Message.Store | bob_wemo_service/get_device_state.py:91-244 | storing text in one field of the object changes that field of `Contents()` alone |
| Messages.Message.Set | bob_wemo_service/get_device_state.py:91-244 | the object's fields afterwards, and whether it raised, are those `SetField` gives from the old fields |
| Messages.Message.Assign | bob_wemo_service/get_device_state.py:42-83 | running the setters for a keyword list leaves the fields `ApplyAll` gives, stopping at the first that raises |
| Messages.Message.SetComplete | bob_wemo_service/get_device_state.py:261-276 | the `complete` setter leaves the fields `Decode` gives, and stores the split pieces in `temp_list` when given a string |
| MsgProcessing.Gateway.Call | bob_wemo_service/msg_processing.py:111-115 | every gateway call is logged once, in order, and answered by the reply oracle from the calls before it |
| MsgProcessing.HeaderOnlyNeverRaises | bob_wemo_service/msg_processing.py:68-69 | decoding a heartbeat never raises: it has no last-seen field |
| MsgProcessing.ReplyHeaderSwaps | bob_wemo_service/msg_processing.py:73-80 | a reply header built from a well-stored request has the request's source as destination and its destination as source, and nothing raises |
| MsgProcessing.DecodedHeaderOk | bob_wemo_service/msg_processing.py:68-69 | a decoded request satisfies the message invariant |
| MsgProcessing.BadRequestHalts | bob_wemo_service/msg_processing.py:100-102 | a get-device-state request, or a set-device-state request (decoded the same way at lines 150-151), whose last-seen piece the validator rejects makes no gateway call, uses no reference and gives no reply, and the raise escapes |
| MsgProcessing.HeartbeatReply | bob_wemo_service/msg_processing.py:59-87 | `process_heartbeat_msg` answers with exactly one message, makes no gateway call and uses one reference; the ack's header is the request's swapped, with the heartbeat-ack code |
| MsgProcessing.RefKept | bob_wemo_service/msg_processing.py:75 | a reference taken from a counter in [100, 999] is stored in the reply as its decimal text |
| MsgProcessing.GetWemoStateReply | bob_wemo_service/msg_processing.py:92-136 | exactly one `read_status` call, with the decoded name, address, status and last-seen, and one reference used; the ack carries the swapped header, the device name, the gateway's status lower-cased and what the last-seen validator makes of the first 19 characters of the gateway's last-seen, which is that text itself when it is a timestamp; it raises exactly when that validator raises |
| MsgProcessing.DeviceAck | bob_wemo_service/msg_processing.py:179-189 | a device-state ack holds the swapped header, the name, the lower-cased status and what the last-seen validator makes of the given text; only that last setter can raise |
| MsgProcessing.SetWemoStateReply | bob_wemo_service/msg_processing.py:141-196 | "1"/"on" makes exactly one `turn_on` call and "0"/"off" exactly one `turn_off` call; any other command makes no call, never raises, and echoes the request's status and last-seen; one reference is used either way |
| MsgProcessing.HeartbeatFields | bob_wemo_service/msg_processing.py:42-50 | a heartbeat carries the ref, the destination, the given source and the heartbeat code, each kept where its setter accepts it, and nothing else |
| MsgProcessing.CreateHeartbeatMsg | bob_wemo_service/msg_processing.py:42-53 | one loop pass takes a new reference and returns the heartbeat built from it for that destination |
| MsgProcessing.CreateHeartbeatMsgs | bob_wemo_service/msg_processing.py:32-56 | one heartbeat per destination, in destination order; the i-th carries the ref of the (i+1)-th `new()` call; the counter ends advanced once per destination |
| MsgProcessing.ProcessHeartbeat | bob_wemo_service/msg_processing.py:59-87 | the replies, the raise and the new counter are those of `ProcessHeartbeatSpec` |
| MsgProcessing.GetWemoState | bob_wemo_service/msg_processing.py:92-136 | the replies, the raise, the counter and the gateway log are those of `GetWemoStateSpec` |
| MsgProcessing.SetWemoState | bob_wemo_service/msg_processing.py:141-196 | the replies, the raise, the counter and the gateway log are those of `SetWemoStateSpec` |
| MsgProcessing.SendAck | bob_wemo_service/msg_processing.py:177-193 | the closing ack takes one new reference and is built from it as the specification says |
| Wemo.DescriptionUrl | bob_wemo_service/wemo.py:70 | the description URL starts with `http://`, ends with `/setup.xml`, and is at least 19 characters longer than the address |
| Wemo.DescriptionUrlParts | bob_wemo_service/wemo.py:70 | between `http://` and `/setup.xml` the URL holds the address, then `:`, then the port as decimal text that `int()` reads back as the port |
| Wemo.FirstNamed | bob_wemo_service/wemo.py:96-98 | the lookup finds the first known device with the requested name, or reports that none has it |
| Wemo.DiscoverNeedsIpv4 | bob_wemo_service/wemo.py:55-67 | discovery at an address failing the IPv4 check finds nothing |
| Wemo.KnownGrowth | bob_wemo_service/wemo.py:114-115 | the known list never shrinks, keeps its order, and grows by exactly one device exactly when the lookup missed and discovery succeeded |
| Wemo.CachedAfterDiscovery | bob_wemo_service/wemo.py:96-115 | a device discovered under the requested name is found by the next lookup; one reporting another name is never found by name |
| Wemo.WemoApi.constructor | bob_wemo_service/wemo.py:32-50 | the known list starts as the initial scan found it, with every other attribute empty |
| Wemo.WemoApi.Discover | bob_wemo_service/wemo.py:53-83 | probes only an address passing the IPv4 check, fetches `http://address:port/setup.xml` only once a port is known, and returns the device built from it or nothing |
| Wemo.WemoApi.FindKnown | bob_wemo_service/wemo.py:96-98 | the search result is `FirstNamed` of the known list |
| Wemo.WemoApi.Locate | bob_wemo_service/wemo.py:96-103 | uses the cached device on a hit, with no probe; runs discovery only on a miss |
| Wemo.WemoApi.ReadStatus | bob_wemo_service/wemo.py:86-123 | a resolved device gives its state, which may depend on the `on()`/`off()` commands sent so far, with the current time as last-seen; an unresolved one gives 'offline' with the caller's last-seen; a newly discovered device is appended; no command is sent |
| Wemo.WemoApi.Switch | bob_wemo_service/wemo.py:127-195 | the command goes to the resolved device, whose status becomes 'on' or 'off' with the current time; an unresolved device gets no command and is 'offline' with the caller's last-seen |
| Wemo.WemoApi.TurnOn | bob_wemo_service/wemo.py:127-157 | sends `on()` once to a resolved device and reports 'on'; otherwise 'offline' with the caller's last-seen; the known list grows as `KnownAfter` says |
| Wemo.WemoApi.TurnOff | bob_wemo_service/wemo.py:161-195 | sends `off()` once to a resolved device and reports 'off'; otherwise 'offline' with the caller's last-seen; the known list grows as `KnownAfter` says |
| Configure.Accept | bob_wemo_service/configure.py:35-54 | a record passes exactly when every name the filter has set matches it: its file name if one is set, its function name if one is set, so a filter with neither set passes everything; the closing `else` is unreachable |
| Configure.SetNameMustMatch | bob_wemo_service/configure.py:36-50 | a filter with a name set rejects a record that does not carry it |
| Configure.FirstIndex | bob_wemo_service/configure.py:118 | finds the first occurrence of the separator, or reports that there is none |
| Configure.SplitOnceParts | bob_wemo_service/configure.py:118 | `split("/", 1)` gives the whole value when it has no "/", and otherwise the text before the first "/" and the rest, which rejoin to the value |
| Configure.AttachFilter | bob_wemo_service/configure.py:145 | adding a filter to handler n adds it to that handler's filters alone |
| Configure.ExtraLogFileNameCases | bob_wemo_service/configure.py:116-127 | the log name is `file.func.log`, `file.log` without a function part, or `func.log` when the file part is empty |
| Configure.Device.constructor | bob_wemo_service/configure.py:198-205 | a device holds the configured name, type, address and rule |
| Configure.DeviceIdByLength | bob_wemo_service/configure.py:184-189 | the id is `device0`+i when `str(i)` has one character and `device`+i when it has two, and otherwise stays as it was |
| Configure.DeviceIdShape | bob_wemo_service/configure.py:184-189 | one-digit numbers give `device0N`, two-digit numbers `deviceNN`, and from 100 on the previous id is kept |
| Configure.ListedInOrder | bob_wemo_service/configure.py:182-212 | when every id up to the count (at most 99) has all four options, the list is exactly those devices in id order |
| Configure.SkipsIncomplete | bob_wemo_service/configure.py:198-212 | an id with a missing option is skipped and adds nothing |
| Configure.ConfigureService.constructor | bob_wemo_service/configure.py:59-77 | the handler, filter and device lists start empty |
| Configure.ConfigureService.AddExtraHandlers | bob_wemo_service/configure.py:114-151 | one handler and one filter per extra-handler value, in order; on a fresh object handler j writes that value's log file and carries exactly filter j |
| Configure.ConfigureService.AddDevice | bob_wemo_service/configure.py:183-212 | one loop pass moves the id on and appends the device its four options describe, or nothing when one is missing |
| Configure.ConfigureService.GetDevices | bob_wemo_service/configure.py:175-212 | a missing or non-numeric `device_num` raises with the list emptied and `device_num`, `device_id` and `i` unchanged; otherwise the list and the last id are `Listing` of numbers 1 to `device_num`, every device is new, and `i` is left at the last number tried, as the `for self.i in range(...)` loop leaves it |
| ServiceMain.CheckStep | bob_wemo_service/service_main.py:107-119 | an index is polled only after the pointer moves onto it, and never past the last index |
| ServiceMain.PointerInRange | bob_wemo_service/service_main.py:107-119 | with a non-empty list the pointer stays within [0, len-1], and the polled index is never 0 |
| ServiceMain.ResetOnlyWhenDue | bob_wemo_service/service_main.py:107-115 | the pointer goes back, or the stamp moves, only when five minutes have passed and the sweep has reached the end; the stamp then becomes the current time |
| ServiceMain.ResetPollsFirstIndex | bob_wemo_service/service_main.py:107-119 | a due reset on a list of two or more devices polls index 1 next |
| ServiceMain.SweepVisitsInOrder | bob_wemo_service/service_main.py:117-119 | short of the end of the list, successive calls visit the following indices one per call, in order |
| ServiceMain.SweepWaits | bob_wemo_service/service_main.py:107-119 | at the end of the list nothing is polled until five minutes have passed since the last reset |
| ServiceMain.HeaderOfEncoded | bob_wemo_service/service_main.py:150-155 | for a message encoded from comma-free fields, the loop takes that message's own source address, source port and type code, whatever the previous header was |
| ServiceMain.ShortMessageUsesStaleType | bob_wemo_service/service_main.py:150-177 | a message with fewer than six fields keeps the previous type code and is dispatched on it; after a heartbeat even a one-field message is answered with a heartbeat ack and calls no device |
| ServiceMain.UnknownTypeDoesNothing | bob_wemo_service/service_main.py:136-199 | a type matching none of the three codes produces no reply, uses no reference and calls no device |
| ServiceMain.OneHandlerRuns | bob_wemo_service/service_main.py:170-199 | with distinct codes exactly the handler the type names runs |
| ServiceMain.HandledTakesOneRef | bob_wemo_service/service_main.py:170-199 | with distinct codes, a handled message that raised nothing used exactly one reference and has exactly one reply |
| ServiceMain.HeartbeatAlwaysAnswered | bob_wemo_service/service_main.py:170-177 | with distinct codes a heartbeat always gets one ack and calls no device |
| ServiceMain.MainTask.constructor | bob_wemo_service/service_main.py:30-99 | the keyword arguments are stored; the pointer starts at 0 and the sweep stamp five minutes in the past |
| ServiceMain.MainTask.CheckWemo | bob_wemo_service/service_main.py:103-125 | pointer and stamp move as `CheckStep` says; a polled device whose type contains "wemo" is queried exactly once and takes the answer's status and last-seen; no other device, and no polled device of another type, changes; no device's command changes |
| ServiceMain.MainTask.Receive | bob_wemo_service/service_main.py:140-155 | takes the first inbound message, splits it at commas and reads its header as `HeaderAfter` says |
| ServiceMain.MainTask.RunHandlers | bob_wemo_service/service_main.py:170-199 | the handlers run as `Dispatch` says; a raise halts the task |
| ServiceMain.MainTask.QueueReplies | bob_wemo_service/service_main.py:201-209 | the replies are appended to the outbound queue in list order, and nothing else is |
| ServiceMain.MainTask.HandleIncoming | bob_wemo_service/service_main.py:134-209 | with an empty inbound queue nothing is taken or queued; otherwise exactly one message is taken, its header read, the handlers run, and their replies queued in order unless one raised |
| ServiceMain.MainTask.HandleOne | bob_wemo_service/service_main.py:140-209 | the inbound part for a waiting message, as `HandleIncoming` states it |
| ServiceMain.MainTask.Step | bob_wemo_service/service_main.py:134-214 | one pass of `run`: at most one inbound message is taken and its header read; the handlers run as `Incoming` says, fixing the halt, the counter and the reply list; unless one raised, the replies are appended to the outbound queue in order, the pointer moves as `CheckStep` says, and a polled wemo device is queried once after the handlers' gateway calls and takes the answer; every other device, and every command, is unchanged |

## Left out

- bob_wemo_service/message_handlers.py, bob_wemo_service/tools/message_handlers.py, bob_wemo_service/start_service.py and start.py are not part of this model. They only handle sockets, asyncio queues, the event loop and shutdown.
- The tasks that fill the inbound queue and drain the outbound one are left out. The queues are `seq` fields of `MainTask`.
- Reading the configuration file, building logging handlers, formatters and loggers, and `os.makedirs` are left out. A configuration section is given as a `map`. A log handler is its file name and its filters; `os.path.join` with the log path is not modelled.
- Logging calls, the sleep intervals and the `asyncio` scheduling are left out, since they do not change state the model tracks. `sleep_time` becomes a number of milliseconds.
- The pywemo library (`discover_devices`, `probe_wemo`, `device_from_description`, `get_state`, `on`, `off`) is left out: it is an oracle record, `Pywemo`. `on()` and `off()` are recorded in `commands`. The initial scan is a constructor parameter.
- `datetime.datetime.now()` is a parameter. `check_wemo` and the handlers are given one clock reading per pass.
- `check_ipv4` lives in a module that is not part of this model. It is a predicate parameter `ipv4`.
- `int()` on a string is restricted to an optional sign followed by the ASCII digits 0 to 9. Python also allows surrounding whitespace, underscores between digits, and any Unicode decimal digit (for example, Arabic-Indic digits). So the model rejects a ref or port written in such digits, which `in_int_range` accepts.
- FieldCheckers.IsValidDatetime: the `\d{1,6}` fraction of `TIME_REGEX` and `DATETIME_REGEX` (bob_wemo_service/tools/field_checkers.py:29-31) is read as ASCII digits only. Python's `\d` on a `str` matches any Unicode decimal digit, so a datetime text whose fraction uses other digits gives the initial value in the model, where the source returns its first 19 characters. Modelling the Unicode digit class is out of scope.
- `lower()` changes only ASCII letters. There is no Unicode case mapping.
- The heartbeat, heartbeat-ack, get-device-state-ack, set-device-state and set-device-state-ack message classes are not part of this model. They are modelled by analogy with `GetDeviceStateMessage`, with these layouts:
  - the six header fields for a heartbeat and its ack;
  - ten fields, as in `GetDeviceStateMessage`, for both acks;
  - eleven fields for set-device-state, with `dev_cmd` after `dev_addr`; its setter stores `str(value)` like the name setter.
- The address setters store a non-string value as given in the source. The model stores its text, and `SetFieldKeepsInvariant` requires string addresses, which is what every caller passes.
- Several calls do not match the signature of the function they call. The model follows the evident intent:
  - the validators are called with the logger in another position (get_device_state.py:93 against tools/field_checkers.py:35);
  - `check_wemo` and the handlers call `read_status`, `turn_on` and `turn_off` with other arguments than wemo.py:86, :127 and :161 declare.
  The handlers therefore talk to an abstract `Gateway` that logs calls and answers through an oracle.
- ServiceMain.MainTask.CheckWemo: the gateway query is given the device's name, address, status and last-seen. The source passes `name=` and `addr=` only, which `read_status` does not accept.
- Configure.ConfigureService.AddExtraHandlers: states which filter each handler carries only for an object whose handler and filter lists start empty. On a non-empty object the source attaches filter `i`, counted from 0, to an older handler; only the list lengths and the new filters are stated for that case.
- bob_wemo_service/tools/device.py is not part of this model. A `Device` holds the four configured values, the status and last-seen that `check_wemo` updates, and the command field `cmd`.
- `get_servers` and `get_message_types` only copy a configuration section into a dictionary, and are left out. `MessageTypes` stands for the result of `get_message_types`.
- The model covers three kinds of exception: the `ValueError` of `int()` and `datetime`; the `KeyError` of a missing `device_num` in `get_devices`, which escapes; and the `KeyError` of a missing device option, which the loop catches and skips (`AddDevice`, `SkipsIncomplete`). Every other exception is left out, along with the `try`/`except` around the pywemo calls. In the model an exception either escapes, and ends `run`, or is caught where the source catches it.
