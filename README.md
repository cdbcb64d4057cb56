# Suricata output layer: stats-logger dispatch, DHCP JSON logger, syslog alerts

This project is a Dafny model of three pieces of Suricata's output layer, with proofs of what each promises.

- **Stats-logger registry and per-thread dispatch** (`output_stats.dfy`, module `OutputStats`).
  - The global registry of stats loggers is a class whose `list` field is a sequence. Registration appends to it and shutdown empties it.
  - Per worker thread, thread init walks the registry and calls each module's ThreadInit. It appends one store entry for each call that returns OK.
  - Dispatch, deinit and exit statistics walk registry and store in lock-step.
  - Module callbacks are recorded as a returned trace of calls.
  - `exit(EXIT_FAILURE)` and `BUG_ON` are error results (`Fatal`, `ModuleMissing`, `Abort`).
- **DHCP JSON logger** (`output_json_dhcp.dfy`, module `OutputJsonDhcp`).
  - A log-once guard on the transaction and the parser state.
  - Two option walks, one over the client's request buffer and one over the server's response buffer. Options are code/length/value triples, as in section 2 of RFC 2132.
  - The per-option decoding into named fields of an abstract JSON object (a map from key to value).
  - The thread init/deinit null checks.
- **Syslog alert output** (`alert_syslog.dfy`, module `AlertSyslog`).
  - Routing a packet to the IPv4, IPv6 or decoder-event writer.
  - The lines each writer sends for each alert, and the shared alert counter.
  - The `enabled` and `facility` configuration rules.
  - The thread lifecycle null checks.
  - `syslog()` is modelled as an append to `Syslog.lines`.
- **Shared pieces.**
  - `common.dfy` (module `Common`) holds the byte type, `Option` and `TmEcode`.
  - `text_format.dfy` (module `TextFormat`) holds the printf conversions the modules use: `%u`, `%03u`, `%02x`, the dotted quad and the colon-separated MAC. Each has a parser that reads it back.

### How the model follows the code

**Thread init appends conditionally.** Thread init does not create one store entry per registered logger. It appends an entry only when the logger's module has a ThreadInit and that ThreadInit returns OK (`src/output-stats.c:137-158`). Dispatch, deinit and exit statistics still pair the two lists by position. The model proves what that leads to:
- the lock-step pairing holds exactly when every module's ThreadInit is present and succeeds (`PairingIffAllInitSucceed`);
- otherwise, entry 0 of the store belongs to the first logger that succeeded (`StoreHeadFromFirstSuccess`);
- otherwise, dispatch on that store aborts (`DriftAbortsLog`);
- otherwise, deinit can hand a module's ThreadDeinit another module's thread data (`DriftMisroutesDeinit`).

**Reads past the end of a DHCP buffer.** The DHCP option walks read without bounds checks. The model checks every read instead:
- A walk that would read an argument byte, or the length byte of an option the switch has a case for, outside its buffer gives no object (`None`).
- The logger then returns `TmFailed` and changes nothing.
- An option on the buffer's last byte whose code has no case (End, Pad or any other) reads nothing in the switch. The code then reads its length past the end only to step beyond the buffer, so the walk ends there. The model ends the walk with the fields found so far (`WalkFrom`). So options that fill their buffer exactly and are logged are logged the same with one more End or Pad byte after them (`TrailingEndOrPad`; `EndTerminatedRequest` is one instance). A final End can still leave a request unlogged when an earlier option already reads past the buffer: the request [50, 0, 255] gives no object.

**Where the switches and formats live.** `RequestField` and `ResponseField` are the two option switches (`src/output-json-dhcp.c:98-194` and `200-285`). `AlertLine` is the format string of the IPv4 and IPv6 writers (`src/alert-syslog.c:252-262` and `302-314`). `EventLines` holds the lines of the decoder-event writer (`src/alert-syslog.c:351-361`). They are stated through the lemmas in the table below.

**How DHCP arguments are read.**
- Fixed-size decoders read their argument bytes from the buffer, not from within the option's own length, as the code does.
- Option 66 (a TFTP server *name* in section 9.4 of RFC 2132) is printed as a dotted quad of its first four bytes, as the code does.
- Pad (0) and End (255) are walked as ordinary triples.

**The DHCP time options.** Options 51, 58 and 59 compute `(int)a0<<24 | …` on a 32-bit `int`. For a first byte of 128 or more that shift is undefined behaviour in ISO C. The model takes the two's-complement value gcc and clang produce (`ShiftedInt32`), so such a byte gives a negative time.

## Model

| member | source | states |
|---|---|---|
| OutputStats.StatsLoggerList.constructor | src/output-stats.c:52 | the registry starts empty |
| OutputStats.StatsLoggerList.Register | src/output-stats.c:54-81 | an unknown module name returns -1 and leaves the registry unchanged; otherwise returns 0 and appends exactly one logger (callable, output context, name, module id) at the tail |
| OutputStats.StatsLoggerList.Registered | src/output-stats.c:227-232 | 1 exactly when some logger is registered, 0 exactly when none is |
| OutputStats.StatsLoggerList.Shutdown | src/output-stats.c:234-243 | the registry is empty afterwards |
| OutputStats.ThreadInit | src/output-stats.c:116-166 | succeeds iff every logger's name resolves to a module; the store is the handles of the loggers whose ThreadInit exists and returns OK, and ThreadInit is called for every module that has one; an unresolvable name is fatal and names a registered logger |
| OutputStats.SucceedingIndices | src/output-stats.c:137-158 | the positions of loggers whose ThreadInit succeeds, strictly increasing and complete |
| OutputStats.InitStoreBounded | src/output-stats.c:137-158 | the store never has more entries than loggers visited |
| OutputStats.InitStoreInRegistryOrder | src/output-stats.c:147-154 | store entry j is the handle of the j-th logger whose ThreadInit succeeded: registry order, one entry each, no others |
| OutputStats.InitStoreShort | src/output-stats.c:137-158 | one logger whose ThreadInit is missing or fails makes the store shorter than the registry |
| OutputStats.InitStoreAllSucceed | src/output-stats.c:137-158 | when every visited ThreadInit succeeds the store pairs one to one with the loggers |
| OutputStats.PairingIffAllInitSucceed | src/output-stats.c:137-158 | the lock-step pairing holds after thread init iff every module has a ThreadInit and it returns OK |
| OutputStats.StoreHeadFromFirstSuccess | src/output-stats.c:147-154 | store[0] holds the thread data of the first logger whose ThreadInit succeeded, whatever its registry position |
| OutputStats.Log | src/output-stats.c:83-111 | OK iff the registry is non-empty, the store has the same length and every callable is set; every other outcome is a BUG_ON abort; call i passes logger i's callable store entry i and the table; an early abort stops at a NULL callable |
| OutputStats.InitThenLogSucceeds | src/output-stats.c:98-108 | after a thread init where every module succeeds, dispatch succeeds and each logger gets its own module's thread data |
| OutputStats.DriftMisroutesDeinit | src/output-stats.c:174-184 | when registry[0] has a ThreadDeinit but no successful ThreadInit, the first deinit call hands it the data of the first logger whose ThreadInit succeeded, not its own |
| OutputStats.DriftAbortsLog | src/output-stats.c:92-108 | after a thread init where some module's ThreadInit is missing or fails, dispatch on that store aborts |
| OutputStats.ThreadDeinit | src/output-stats.c:168-192 | OK iff every logger walked in lock-step resolves, else fatal; the calls are each module's ThreadDeinit (when present) then the release of the store entry, for min(registry, store) pairs |
| OutputStats.FreedAppend | src/output-stats.c:186-188 | the entries released by two call traces in sequence are those of the first then those of the second |
| OutputStats.FreedDeinitStep | src/output-stats.c:182-188 | one deinit step, with or without the module's ThreadDeinit call, frees exactly the visited store entry |
| OutputStats.DeinitFreesEachOnce | src/output-stats.c:174-190 | the entries released by deinit are exactly the walked store prefix, each once, in order |
| OutputStats.DeinitPairedOwners | src/output-stats.c:182-184 | on a paired store every ThreadDeinit call receives thread data produced by its own module; more precisely, the data made on this thread for one of the walked logger instances of that module, with that instance's output context (`ForOwnInstance`) |
| OutputStats.ThreadExitPrintStats | src/output-stats.c:194-215 | OK iff every logger walked in lock-step resolves, else fatal; the calls are each module's ThreadExitPrintStats (when present) with its store entry |
| OutputStats.ExitPrintStatsPaired | src/output-stats.c:200-214 | at most one call per walked pair, each to a module that has the callable; on a paired store each receives its own module's thread data, made on this thread for one of the walked instances of that module with that instance's output context |
| OutputStats.OwnInstanceWidens | src/output-stats.c:174-184 | a call that is for one of the first k logger instances is also for one of the first k + 1 (the step of both walks) |
| TextFormat.Decimal | src/alert-syslog.c:252-256 | `%u` gives at least one character, all of them decimal digits |
| TextFormat.DecimalNoLeadingZero | src/alert-syslog.c:252-256 | only zero is printed by `%u` with a leading `0`, and then as the single digit |
| TextFormat.DecimalValue | src/alert-syslog.c:252-256 | the digits of `%u` denote the number printed |
| TextFormat.ParseDecimal | src/alert-syslog.c:252-256 | reading the digits back returns the number and stops at the following non-digit |
| TextFormat.DecimalOfByteLength | src/output-json-dhcp.c:139-144 | a byte value prints as one to three digits |
| TextFormat.Pad3Value | src/alert-syslog.c:258-262 | `%03u` of a value below 1000 is three digits denoting the value |
| TextFormat.JoinDottedRoundTrip | src/output-json-dhcp.c:140-144 | dot-joined decimals read back as the values joined |
| TextFormat.JoinDottedStep | src/output-json-dhcp.c:140-144 | if the values after the first read back from their dot-joined text, the whole list reads back from its text |
| TextFormat.DottedFront | src/output-json-dhcp.c:140-144 | a number, a dot and text reading back as the other values read back as all of them |
| TextFormat.ParseDottedCons | src/output-json-dhcp.c:140-144 | text made of a number, a dot and text reading back as `vs` reads back as the number followed by `vs` |
| TextFormat.ParseDottedOne | src/output-json-dhcp.c:140-144 | a single value printed with `%d` reads back as a one-element list |
| TextFormat.DottedQuadRoundTrip | src/output-json-dhcp.c:140-144 | a `%d.%d.%d.%d` address reads back as its four bytes |
| TextFormat.JoinDottedBytesLength | src/output-json-dhcp.c:139-144 | n byte values joined by dots take 2n-1 to 4n-1 characters |
| TextFormat.DottedQuadLength | src/output-json-dhcp.c:139-140 | a dotted quad is 7 to 15 characters, so it fits its 17-byte buffer |
| TextFormat.ColonHex | src/output-json-dhcp.c:127-133 | n bytes as `%02x` joined by colons take 3n-1 characters |
| TextFormat.ColonHexRoundTrip | src/output-json-dhcp.c:127-133 | colon-separated hex reads back as the bytes printed |
| TextFormat.MacStringRoundTrip | src/output-json-dhcp.c:126-134 | a MAC string is 17 characters and reads back as its six bytes |
| OutputJsonDhcp.RequestTypeName | src/output-json-dhcp.c:99-111 | request message type 3 is "request", 8 is "inform", anything else "" (each both ways) |
| OutputJsonDhcp.ResponseTypeName | src/output-json-dhcp.c:201-213 | response message type 5 is "ack", 6 is "nak", anything else "" (each both ways) |
| OutputJsonDhcp.BytesToString | src/output-json-dhcp.c:112-116 | host name and vendor class text has one character per option byte, with that byte's code |
| OutputJsonDhcp.ParamNameInverse | src/output-json-dhcp.c:163-187 | each parameter name belongs to exactly one known code, so the name identifies the code |
| OutputJsonDhcp.ParamNamesRecoverCodes | src/output-json-dhcp.c:158-192 | the parameter list has one name per known code, so at most the option's length, and the names read back as exactly the known codes in order |
| OutputJsonDhcp.ParamList | src/output-json-dhcp.c:161-189 | the inner loop of option 55 builds the in-order list of names of known codes |
| OutputJsonDhcp.ShiftedInt32Value | src/output-json-dhcp.c:244-264 | a time option is its big-endian value when the first byte is below 128, and that value less 2^32 (negative) otherwise |
| OutputJsonDhcp.BigEndianRoundTrip | src/output-json-dhcp.c:246-249 | the big-endian combination of four bytes inverts splitting a 32-bit value into bytes, both ways |
| OutputJsonDhcp.QuadFieldRoundTrip | src/output-json-dhcp.c:214-222 | an address field is a dotted quad of at most 15 characters that reads back as the first four argument bytes |
| OutputJsonDhcp.AddressFields | src/output-json-dhcp.c:214-284 | each address option (request 50 and 54, response 1, 3, 6, 54 and 66) sets its key to the dotted quad of its first four argument bytes, or is a read past the end |
| OutputJsonDhcp.ClientIdField | src/output-json-dhcp.c:124-137 | option 61 sets "client_id" iff its first byte is 1, to a 17-character string that reads back as the next six bytes |
| OutputJsonDhcp.DecodeOption | src/output-json-dhcp.c:98-194 | decoding one option, with the parameter-list loop, agrees with the per-option decoding |
| OutputJsonDhcp.OptionOffsets | src/output-json-dhcp.c:96-97 | the header (code and length) of every option the walk visits lies inside the buffer |
| OutputJsonDhcp.OptionOffsetsSteps | src/output-json-dhcp.c:96-97 | the walk starts at the given offset and steps from each option by 2 + its length, so its offsets strictly increase |
| OutputJsonDhcp.OptionOffsetsStop | src/output-json-dhcp.c:96-97 | the walk stops at or past the last byte, and reads a length outside the buffer exactly when it stops on the last byte |
| OutputJsonDhcp.UnhandledOptionSetsNothing | src/output-json-dhcp.c:98-194 | an option whose code has no case in the switch sets no field |
| OutputJsonDhcp.EndTerminatedRequest | src/output-json-dhcp.c:96-112 | example: the request [53, 1, 3, 255] (message type, then End) is logged as {"type": "request"} |
| OutputJsonDhcp.WalkFromStep | src/output-json-dhcp.c:96-98 | one step of the walk: it fails when the option at the offset reads past the buffer; otherwise it applies that option's field and goes on 2 + len bytes further |
| OutputJsonDhcp.OptionFieldExtends | src/output-json-dhcp.c:98-194 | an option decoded without reading past the buffer decodes the same when a byte is appended |
| OutputJsonDhcp.WalkEndNext | src/output-json-dhcp.c:96-97 | a walk that ends exactly at the buffer's end visits a whole option first, and the walk from the next option also ends there |
| OutputJsonDhcp.WalkFromExtendsNext | src/output-json-dhcp.c:96-98 | such a walk that decodes reads the first option inside the buffer and decodes from the next option too |
| OutputJsonDhcp.WalkFromExtendsStep | src/output-json-dhcp.c:96-98 | if the walks on buf and buf + [c] agree after the option at an offset, they agree from that offset |
| OutputJsonDhcp.WalkFromExtendsAtEnd | src/output-json-dhcp.c:96-97 | from the buffer's end, one appended byte whose code has no case leaves the object as it is |
| OutputJsonDhcp.WalkFromExtends | src/output-json-dhcp.c:96-194 | a walk that decodes and ends exactly at the buffer's end gives the same object with one more byte whose code has no case |
| OutputJsonDhcp.TrailingUnhandledCode | src/output-json-dhcp.c:96-194 | options that fill the buffer exactly and are logged are logged the same with one more byte whose code has no case |
| OutputJsonDhcp.EndAndPadUnhandled | src/output-json-dhcp.c:98-194 | neither the request nor the response switch has a case for End (255) or Pad (0) |
| OutputJsonDhcp.TrailingEndOrPad | src/output-json-dhcp.c:96-194 | options that fill the buffer exactly and are logged are logged the same when End (255) or Pad (0) follows them |
| OutputJsonDhcp.WalkOptions | src/output-json-dhcp.c:93-195 | the offset loop yields the object the options decode to; none when a case of the switch reads outside the buffer; a final byte whose code has no case ends the walk |
| OutputJsonDhcp.JsondhcpLogger | src/output-json-dhcp.c:57-320 | an already-logged transaction, or one whose id is below the state's log id, returns OK with no record and no change; otherwise both walks decoding gives one record (xid, client, server), marks the transaction logged and advances the log id; a walk leaving its buffer gives TmFailed with no change |
| OutputJsonDhcp.LogTwice | src/output-json-dhcp.c:66-73 | a transaction is written at most once: a second call emits nothing |
| OutputJsonDhcp.JsondhcpLogThreadInit | src/output-json-dhcp.c:357-380 | fails iff there is no output context; otherwise the thread uses that context's data |
| OutputJsonDhcp.JsondhcpLogThreadDeinit | src/output-json-dhcp.c:382-393 | returns OK, with or without thread data |
| AlertSyslog.Syslog.Emit | src/alert-syslog.c:252-256 | one `syslog()` call appends exactly one line |
| AlertSyslog.RawLen | src/alert-syslog.c:355 | the dump covers min(pktlen, 32) bytes |
| AlertSyslog.LinesPerAlertAt | src/alert-syslog.c:243-264 | a per-alert format yields one line per alert, line i for alert i |
| AlertSyslog.AlertLinesOnePerAlert | src/alert-syslog.c:243-264 | the IPv4 and IPv6 writers send exactly one line per alert, in alert order |
| AlertSyslog.LinesPerEventShape | src/alert-syslog.c:343-362 | when every alert gives the same number of lines with the same second line, the lines of k alerts are k such blocks |
| AlertSyslog.LinesPerEventFrom | src/alert-syslog.c:343-362 | every line the loop sends belongs to one alert's lines |
| AlertSyslog.EventLinesShape | src/alert-syslog.c:351-361 | one alert gives a header, the capped raw dump and, only for a packet from a pcap file, its packet number; the dump is its only raw line |
| AlertSyslog.DecoderEventLinesShape | src/alert-syslog.c:348-362 | the decoder-event writer sends 2 lines per alert, or 3 when pcap_cnt is non-zero, and the second of each is the dump of the first min(pktlen, 32) bytes |
| AlertSyslog.RawLinesAreDumps | src/alert-syslog.c:355-356 | every raw line the decoder-event writer sends is the capped dump |
| AlertSyslog.RawDumpCapped | src/alert-syslog.c:355 | every raw dump holds at most 32 bytes, all from the start of the packet |
| AlertSyslog.NumberThenDecimal | src/alert-syslog.c:252 | a `%u` field followed by its separator reads back as the number |
| AlertSyslog.SignatureIdsRoundTrip | src/alert-syslog.c:252-256 | the `[gid:sid:rev]` opening each alert line reads back as the alert's ids |
| AlertSyslog.UnknownProtoTag | src/alert-syslog.c:258-262 | an unknown protocol shows as `PROTO:` and three digits whose value is the protocol number |
| AlertSyslog.WriteAlertLines | src/alert-syslog.c:236-264 | no alerts: nothing emitted and counter unchanged; otherwise the counter grows by the alert count and the alert lines are appended |
| AlertSyslog.AlertSyslogIPv4 | src/alert-syslog.c:230-268 | always OK; the counter grows by exactly the alert count and one line per alert is appended; nothing changes without alerts |
| AlertSyslog.AlertSyslogIPv6 | src/alert-syslog.c:281-321 | always OK; the counter grows by exactly the alert count and one line per alert is appended; nothing changes without alerts |
| AlertSyslog.EmitEventLines | src/alert-syslog.c:351-361 | one alert's header, raw dump and, when pcap_cnt is non-zero, pcap line are appended |
| AlertSyslog.AlertSyslogDecoderEvent | src/alert-syslog.c:334-367 | always OK; the counter grows by exactly the alert count and each alert's decoder-event lines are appended; nothing changes without alerts |
| AlertSyslog.RouteOf | src/alert-syslog.c:383-391 | IPv4 packets go to the IPv4 writer, else IPv6 to the IPv6 writer, else to the decoder-event writer iff events.cnt > 0, else nowhere (each both ways) |
| AlertSyslog.AlertSyslog | src/alert-syslog.c:380-392 | always OK; a routed packet grows the counter by its alert count and appends the chosen writer's lines; an unrouted one changes nothing |
| AlertSyslog.RoutedLineCount | src/alert-syslog.c:380-392 | a packet yields one line per alert on IP, 2 or 3 per alert for decoder events, none otherwise |
| AlertSyslog.FacilityValue | src/alert-syslog.c:130 | the facility lookup gives -1 exactly for names not in the facility map |
| AlertSyslog.AlertSyslogInitCtx | src/alert-syslog.c:111-152 | disabled (none) iff "enabled" starts with "no"; a known facility name gives its value, an unknown one LOG_LOCAL0, and a missing one the value of "local0" |
| AlertSyslog.InitCtxFacilityValid | src/alert-syslog.c:130-136 | the facility opened is one the map names or LOG_LOCAL0, never the -1 of an unknown name |
| AlertSyslog.AlertSyslogThreadInit | src/alert-syslog.c:178-197 | fails iff there is no output context; otherwise the thread uses that context's log file |
| AlertSyslog.AlertSyslogThreadDeinit | src/alert-syslog.c:205-217 | returns OK, with or without thread data |
| AlertSyslog.AlertSyslogExitPrintStats | src/alert-syslog.c:400-407 | reports nothing iff there is no thread data |
| AlertSyslog.ExitPrintStatsReportsCount | src/alert-syslog.c:406 | the number at the end of the report reads back as the thread's alert counter |

## Left out

- Allocation failures are not modelled. In the code they have three different outcomes:
  - a failed `SCMalloc` of a store node in thread init is a `BUG_ON` abort (`src/output-stats.c:140-141`);
  - a failed `json_array()` for option 55 leaves out the "params" key, and the record is still logged (`src/output-json-dhcp.c:159-160`); a failed `BytesToString` likewise leaves out its key;
  - the other allocations (the thread data, the JSON objects, `MemBufferCreateNew`) return a failure code.
- `CreateJSONHeader`, `OutputJSONBuffer`, `MemBuffer` and the jansson API are left out. The JSON document is an abstract map, and the record is returned instead of written.
- `ntohl` is left out. The transaction id is taken in host order.
- OutputJsonDhcp.BytesToString: one character per byte with that byte's code. The code escapes NUL bytes, and `json_string` returns NULL for text that is not valid UTF-8, so `json_object_set_new` then sets no "host_name" or "vendor_class" key (`src/output-json-dhcp.c:113-114`, `119-120`). The model sets the key for every byte string.
- `syslog`, `openlog`, `closelog`, `SCLogInfo` and `inet_ntop` are not modelled as I/O. Lines are appended to a sequence, the facility is returned rather than opened, and addresses arrive as text in the packet.
- `SCProtoNameValid`/`known_proto` is a parameter map from protocol number to name.
- `PrintRawLineHexBuf` is modelled as a line holding the bytes it renders. Its hex text is not modelled.
- `SCGetFacilityMap` is a parameter map.
- AlertSyslog.FacilityValue: the lookup matches names exactly, while `SCMapEnumNameToValue` ignores case, so a name such as "Local1" that the code accepts falls back to LOG_LOCAL0 in the model.
- `SCMutexLock`/`SCMutexUnlock` are left out. The counter update is one atomic step, and concurrency is not modelled.
- Module registration into `tmm_modules`, `OutputRegisterModule`, the DHCP sub-module init/deinit context functions, `AlertSyslogDeInitCtx` and the no-JSON build branch are configuration plumbing and are not modelled.
- src/source-netmap.h and src/alert-syslog.h are not part of this model. They hold declarations only.
- Integer widths are not modelled: the 64-bit alert counter and `pcap_cnt`, the 32-bit option offset, and the `uint32_t` signature fields are unbounded naturals.
- OutputJsonDhcp.WalkOptions: the 32-bit `offset` is an unbounded natural. The two agree for buffers shorter than 2^32 - 257 bytes, where offset + 2 + len stays below 2^32. Longer buffers, where the C offset could wrap, are not considered.
- OutputJsonDhcp.JsondhcpLogger: where a case of the option switch reads past the end of an option buffer (undefined behaviour in C), the model returns TmFailed and changes nothing. Options that fill their buffer exactly and are logged are logged the same with a trailing End or Pad, as in the code. A buffer in which an earlier option reads past the end is not logged, whatever its last byte.
- OutputJsonDhcp.WalkOptions: a walk whose switch would read outside its buffer yields no object. The model does not say what bytes an unchecked read would see.
- OutputStats.ThreadInit: a module whose ThreadInit is present is modelled by its outcome (OK or failure). The thread data it returns is the handle naming the thread, the module and the output context.
- AlertSyslog.AlertSyslogExitPrintStats: the exact message text is not stated in the contract; ExitPrintStatsReportsCount states the count it carries.
