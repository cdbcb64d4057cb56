/** The syslog alert output: routing a packet to the IPv4, IPv6 or
    decoder-event writer, the alert lines each writer sends to syslog, the
    shared alert counter, and the "enabled"/"facility" configuration rules.

    `syslog()` is an append to `Syslog.lines`. The address text that
    `inet_ntop` produces is carried in the packet, the table of known
    protocol names is a parameter, and the hex dump of raw packet bytes is a
    `RawHex` line holding the bytes dumped. */
module AlertSyslog {
  import opened Common
  import opened TextFormat

  /** `LOG_LOCAL0`: the default facility, (16 << 3). */
  const LOG_LOCAL0: int := 128

  /** `DEFAULT_ALERT_SYSLOG_FACILITY_STR`. */
  const DefaultFacilityName: string := "local0"

  datatype PacketAlert = PacketAlert(gid: nat, sid: nat, rev: nat, msg: string, classMsg: string, prio: nat)

  /** The fields of a packet the writers read. `proto` is the IPv4 protocol
      or IPv6 layer-4 protocol, and `src`/`dst` the addresses as text, of
      the header the packet has; `pkt` is the raw packet, `pktlen` bytes. */
  datatype Packet = Packet(
    isIPv4: bool,
    isIPv6: bool,
    alerts: seq<PacketAlert>,
    eventsCnt: nat,
    proto: byte,
    src: string,
    dst: string,
    sp: nat,
    dp: nat,
    pkt: seq<byte>,
    pcapCnt: nat)

  /** One `syslog()` call: formatted text, or the text `PrintRawLineHexBuf`
      renders from the given bytes. */
  datatype SyslogLine = Text(s: string) | RawHex(bytes: seq<byte>)

  /** The shared log-file context; `alerts` counts the alerts written. */
  class LogFileCtx {
    var alerts: nat

    constructor ()
      ensures alerts == 0
    {
      alerts := 0;
    }
  }

  /** The system log, as the sequence of lines sent to it. */
  class Syslog {
    var lines: seq<SyslogLine>

    constructor ()
      ensures lines == []
    {
      lines := [];
    }

    method Emit(line: SyslogLine)
      modifies this
      ensures lines == old(lines) + [line]
    {
      lines := lines + [line];
    }
  }

  /** `AlertSyslogThread`: the thread's view of the shared context. */
  datatype AlertSyslogThread = AlertSyslogThread(fileCtx: LogFileCtx)

  // ---------------------------------------------------------------------
  // Line formats

  /** `[gid:sid:rev] msg [Classification: c] [Priority: p]`, shared by all writers. */
  function AlertHeader(a: PacketAlert): string
  {
    "[" + (Decimal(a.gid) + (":" + (Decimal(a.sid) + (":" + (Decimal(a.rev) + HeaderTail(a))))))
  }

  /** The part of the header after the revision. */
  function HeaderTail(a: PacketAlert): string
  {
    "] " + a.msg + " [Classification: " + a.classMsg + "] [Priority: " + Decimal(a.prio) + "]"
  }

  /** The text between the braces: the protocol's name when it is known,
      else `PROTO:` and the number as `%03u`. */
  function ProtoTag(proto: byte, knownProto: map<byte, string>): string
  {
    if proto in knownProto then knownProto[proto] else "PROTO:" + Pad3(proto)
  }

  /** The line the IPv4 and IPv6 writers send for one alert. */
  function AlertLine(a: PacketAlert, p: Packet, knownProto: map<byte, string>): string
  {
    AlertHeader(a) + " {" + ProtoTag(p.proto, knownProto) + "} " +
    p.src + ":" + Decimal(p.sp) + " -> " + p.dst + ":" + Decimal(p.dp)
  }

  /** One text line per alert of the first `k` of `alerts`, as `line` formats it. */
  function LinesPerAlert(alerts: seq<PacketAlert>, line: PacketAlert -> string, k: nat): seq<SyslogLine>
    requires k <= |alerts|
  {
    if k == 0 then [] else LinesPerAlert(alerts, line, k - 1) + [Text(line(alerts[k - 1]))]
  }

  /** The lines for the first `k` alerts of `p`. */
  function AlertLines(p: Packet, knownProto: map<byte, string>, k: nat): seq<SyslogLine>
    requires k <= |p.alerts|
  {
    LinesPerAlert(p.alerts, a => AlertLine(a, p, knownProto), k)
  }

  /** The number of raw bytes dumped: `pktlen < 32 ? pktlen : 32`. */
  function RawLen(p: Packet): (n: nat)
    ensures n <= |p.pkt| && n <= 32
    ensures n == 32 || n == |p.pkt|
  {
    if |p.pkt| < 32 then |p.pkt| else 32
  }

  /** The first line the decoder-event writer sends for an alert. */
  function EventHeader(a: PacketAlert): string
  {
    AlertHeader(a) + " [**] [Raw pkt: "
  }

  /** The line closing a decoder event from a pcap file. */
  function PcapLine(pcapCnt: nat): string
  {
    "] [pcap file packet: " + Decimal(pcapCnt) + "]"
  }

  /** The lines the decoder-event writer sends for one alert. */
  function EventLines(a: PacketAlert, p: Packet): seq<SyslogLine>
  {
    [Text(EventHeader(a)), RawHex(p.pkt[..RawLen(p)])] + (if p.pcapCnt != 0 then [Text(PcapLine(p.pcapCnt))] else [])
  }

  /** The lines `lines` gives for each of the first `k` of `alerts`, in order. */
  function LinesPerEvent(alerts: seq<PacketAlert>, lines: PacketAlert -> seq<SyslogLine>, k: nat): seq<SyslogLine>
    requires k <= |alerts|
  {
    if k == 0 then [] else LinesPerEvent(alerts, lines, k - 1) + lines(alerts[k - 1])
  }

  /** The decoder-event lines for the first `k` alerts of `p`. */
  function DecoderEventLines(p: Packet, k: nat): seq<SyslogLine>
    requires k <= |p.alerts|
  {
    LinesPerEvent(p.alerts, a => EventLines(a, p), k)
  }

  lemma {:induction false} LinesPerAlertAt(alerts: seq<PacketAlert>, line: PacketAlert -> string, k: nat)
    requires k <= |alerts|
    ensures |LinesPerAlert(alerts, line, k)| == k
    ensures forall i :: 0 <= i < k ==> LinesPerAlert(alerts, line, k)[i] == Text(line(alerts[i]))
  {
    if k > 0 {
      LinesPerAlertAt(alerts, line, k - 1);
    }
  }

  /** The IPv4 and IPv6 writers send exactly one line per alert, the i-th
      line for the i-th alert. */
  lemma AlertLinesOnePerAlert(p: Packet, knownProto: map<byte, string>, k: nat)
    requires k <= |p.alerts|
    ensures |AlertLines(p, knownProto, k)| == k
    ensures forall i :: 0 <= i < k ==> AlertLines(p, knownProto, k)[i] == Text(AlertLine(p.alerts[i], p, knownProto))
  {
    LinesPerAlertAt(p.alerts, a => AlertLine(a, p, knownProto), k);
  }

  /** When every alert gives `per` lines whose second is `second`, the
      lines of `k` alerts are `per` blocks, each with `second` at offset 1. */
  lemma {:induction false} LinesPerEventShape(alerts: seq<PacketAlert>, lines: PacketAlert -> seq<SyslogLine>, k: nat, per: nat, second: SyslogLine)
    requires k <= |alerts| && per >= 2
    requires forall a :: |lines(a)| == per && lines(a)[1] == second
    ensures |LinesPerEvent(alerts, lines, k)| == per * k
    ensures forall i :: 0 <= i < k ==> LinesPerEvent(alerts, lines, k)[per * i + 1] == second
  {
    if k > 0 {
      LinesPerEventShape(alerts, lines, k - 1, per, second);
      var prev := LinesPerEvent(alerts, lines, k - 1);
      var ls := LinesPerEvent(alerts, lines, k);
      assert ls == prev + lines(alerts[k - 1]);
      forall i | 0 <= i < k
        ensures ls[per * i + 1] == second
      {
        if i < k - 1 {
          assert per * i + 1 < |prev|;
        } else {
          assert per * i + 1 == |prev| + 1;
        }
      }
    }
  }

  /** Every line of `k` alerts is a line of one of them. */
  lemma {:induction false} LinesPerEventFrom(alerts: seq<PacketAlert>, lines: PacketAlert -> seq<SyslogLine>, k: nat, l: SyslogLine)
    requires k <= |alerts| && l in LinesPerEvent(alerts, lines, k)
    ensures exists j :: 0 <= j < k && l in lines(alerts[j])
  {
    if k > 0 {
      var prev := LinesPerEvent(alerts, lines, k - 1);
      assert LinesPerEvent(alerts, lines, k) == prev + lines(alerts[k - 1]);
      if l in prev {
        LinesPerEventFrom(alerts, lines, k - 1, l);
      } else {
        assert l in lines(alerts[k - 1]);
      }
    }
  }

  /** Per alert the decoder-event writer sends a header, a dump of the first
      min(pktlen, 32) raw bytes and, only when the packet came from a pcap
      file (`pcap_cnt != 0`), a line with the packet's number there. */
  lemma DecoderEventLinesShape(p: Packet, k: nat)
    requires k <= |p.alerts|
    ensures var per := if p.pcapCnt != 0 then 3 else 2;
      var ls := DecoderEventLines(p, k);
      |ls| == per * k &&
      forall i :: 0 <= i < k ==> ls[per * i + 1] == RawHex(p.pkt[..RawLen(p)]) && ls[per * i + 1].bytes <= p.pkt
  {
    var per := if p.pcapCnt != 0 then 3 else 2;
    var lines := a => EventLines(a, p);
    forall a
      ensures |lines(a)| == per && lines(a)[1] == RawHex(p.pkt[..RawLen(p)])
    {
      EventLinesShape(a, p);
    }
    LinesPerEventShape(p.alerts, lines, k, per, RawHex(p.pkt[..RawLen(p)]));
  }

  /** One alert's decoder-event lines: a header, the raw dump and, for a
      packet from a pcap file, the packet number; the dump is the only raw
      line. */
  lemma EventLinesShape(a: PacketAlert, p: Packet)
    ensures var ls := EventLines(a, p);
      |ls| == (if p.pcapCnt != 0 then 3 else 2) && ls[0] == Text(EventHeader(a)) && ls[1] == RawHex(p.pkt[..RawLen(p)]) &&
      (p.pcapCnt != 0 ==> ls[2] == Text(PcapLine(p.pcapCnt))) &&
      forall l :: l in ls && l.RawHex? ==> l == RawHex(p.pkt[..RawLen(p)])
  {
  }

  /** Every raw dump line of the decoder-event writer holds at most 32 bytes,
      all taken from the start of the packet. */
  lemma RawDumpCapped(p: Packet)
    ensures forall l :: l in DecoderEventLines(p, |p.alerts|) && l.RawHex? ==>
      |l.bytes| <= 32 && |l.bytes| <= |p.pkt| && l.bytes == p.pkt[..|l.bytes|]
  {
    forall l | l in DecoderEventLines(p, |p.alerts|) && l.RawHex?
      ensures l == RawHex(p.pkt[..RawLen(p)])
    {
      RawLinesAreDumps(p, |p.alerts|, l);
    }
  }

  /** The raw lines of the decoder-event writer are all the same dump. */
  lemma RawLinesAreDumps(p: Packet, k: nat, l: SyslogLine)
    requires k <= |p.alerts|
    requires l in DecoderEventLines(p, k) && l.RawHex?
    ensures l == RawHex(p.pkt[..RawLen(p)])
  {
    LinesPerEventFrom(p.alerts, a => EventLines(a, p), k, l);
    var j :| 0 <= j < k && l in EventLines(p.alerts[j], p);
    EventLinesShape(p.alerts[j], p);
  }

  // ---------------------------------------------------------------------
  // Reading the header back

  /** Reads a number followed by the character `c`; yields the number and
      the text after `c`. */
  function NumberThen(s: string, c: char): Option<(nat, string)>
  {
    match ParseNumber(s)
    case None => None
    case Some((v, rest)) => if rest != [] && rest[0] == c then Some((v, rest[1..])) else None
  }

  lemma NumberThenDecimal(n: nat, c: char, t: string)
    requires !IsDigit(c) && t != [] && t[0] == c
    ensures NumberThen(Decimal(n) + t, c) == Some((n, t[1..]))
  {
    ParseDecimal(n, t);
  }

  /** Reads the `[gid:sid:rev]` at the start of a line. */
  function ParseSignatureIds(s: string): Option<(nat, nat, nat)>
  {
    if s == [] || s[0] != '[' then None
    else
      match NumberThen(s[1..], ':')
      case None => None
      case Some((gid, r1)) =>
        match NumberThen(r1, ':')
        case None => None
        case Some((sid, r2)) =>
          match NumberThen(r2, ']')
          case None => None
          case Some((rev, _)) => Some((gid, sid, rev))
  }

  /** The generator id, signature id and revision read back from the start
      of every line a writer begins for an alert. */
  lemma SignatureIdsRoundTrip(a: PacketAlert, rest: string)
    ensures ParseSignatureIds(AlertHeader(a) + rest) == Some((a.gid, a.sid, a.rev))
  {
    var t3 := HeaderTail(a) + rest;
    var t2 := ":" + (Decimal(a.rev) + t3);
    var t1 := ":" + (Decimal(a.sid) + t2);
    var r3 := HeaderTail(a);
    var r2 := ":" + (Decimal(a.rev) + r3);
    var r1 := ":" + (Decimal(a.sid) + r2);
    assert r2 + rest == t2 by {
      assert (Decimal(a.rev) + r3) + rest == Decimal(a.rev) + t3;
    }
    assert r1 + rest == t1 by {
      assert (Decimal(a.sid) + r2) + rest == Decimal(a.sid) + t2;
    }
    var s := AlertHeader(a) + rest;
    assert s == "[" + (Decimal(a.gid) + t1) by {
      assert (Decimal(a.gid) + r1) + rest == Decimal(a.gid) + t1;
    }
    assert s[1..] == Decimal(a.gid) + t1;
    NumberThenDecimal(a.gid, ':', t1);
    assert t1[1..] == Decimal(a.sid) + t2;
    NumberThenDecimal(a.sid, ':', t2);
    assert t2[1..] == Decimal(a.rev) + t3;
    NumberThenDecimal(a.rev, ']', t3);
  }

  /** An unknown protocol is shown as `PROTO:` and three digits whose value
      is the protocol number. */
  lemma UnknownProtoTag(proto: byte, knownProto: map<byte, string>)
    requires proto !in knownProto
    ensures var t := ProtoTag(proto, knownProto);
      |t| == 9 && t[..6] == "PROTO:" && AllDigits(t[6..]) && DigitsValue(t[6..]) == proto
  {
    var t := ProtoTag(proto, knownProto);
    Pad3Value(proto);
    assert t[6..] == Pad3(proto);
  }

  // ---------------------------------------------------------------------
  // The writers

  /** The loop shared by the IPv4 and IPv6 writers. */
  method WriteAlertLines(fileCtx: LogFileCtx, p: Packet, knownProto: map<byte, string>, log: Syslog) returns (rc: TmEcode)
    modifies fileCtx, log
    ensures rc == TmOk
    ensures p.alerts == [] ==> unchanged(fileCtx, log)
    ensures fileCtx.alerts == old(fileCtx.alerts) + |p.alerts|
    ensures log.lines == old(log.lines) + AlertLines(p, knownProto, |p.alerts|)
  {
    if |p.alerts| == 0 {
      return TmOk;
    }
    fileCtx.alerts := fileCtx.alerts + |p.alerts|;
    var i := 0;
    while i < |p.alerts|
      invariant i <= |p.alerts|
      invariant fileCtx.alerts == old(fileCtx.alerts) + |p.alerts|
      invariant log.lines == old(log.lines) + AlertLines(p, knownProto, i)
    {
      log.Emit(Text(AlertLine(p.alerts[i], p, knownProto)));
      assert AlertLines(p, knownProto, i + 1) == AlertLines(p, knownProto, i) + [Text(AlertLine(p.alerts[i], p, knownProto))];
      i := i + 1;
    }
    rc := TmOk;
  }

  /** `AlertSyslogIPv4`. */
  method AlertSyslogIPv4(ast: AlertSyslogThread, p: Packet, knownProto: map<byte, string>, log: Syslog) returns (rc: TmEcode)
    modifies ast.fileCtx, log
    ensures rc == TmOk
    ensures p.alerts == [] ==> unchanged(ast.fileCtx, log)
    ensures ast.fileCtx.alerts == old(ast.fileCtx.alerts) + |p.alerts|
    ensures log.lines == old(log.lines) + AlertLines(p, knownProto, |p.alerts|)
  {
    rc := WriteAlertLines(ast.fileCtx, p, knownProto, log);
  }

  /** `AlertSyslogIPv6`. */
  method AlertSyslogIPv6(ast: AlertSyslogThread, p: Packet, knownProto: map<byte, string>, log: Syslog) returns (rc: TmEcode)
    modifies ast.fileCtx, log
    ensures rc == TmOk
    ensures p.alerts == [] ==> unchanged(ast.fileCtx, log)
    ensures ast.fileCtx.alerts == old(ast.fileCtx.alerts) + |p.alerts|
    ensures log.lines == old(log.lines) + AlertLines(p, knownProto, |p.alerts|)
  {
    rc := WriteAlertLines(ast.fileCtx, p, knownProto, log);
  }

  /** The body of the decoder-event loop: the lines for one alert. */
  method EmitEventLines(a: PacketAlert, p: Packet, log: Syslog)
    modifies log
    ensures log.lines == old(log.lines) + EventLines(a, p)
  {
    log.Emit(Text(EventHeader(a)));
    var n := if |p.pkt| < 32 then |p.pkt| else 32;
    log.Emit(RawHex(p.pkt[..n]));
    if p.pcapCnt != 0 {
      log.Emit(Text(PcapLine(p.pcapCnt)));
    }
  }

  /** `AlertSyslogDecoderEvent`. */
  method AlertSyslogDecoderEvent(ast: AlertSyslogThread, p: Packet, log: Syslog) returns (rc: TmEcode)
    modifies ast.fileCtx, log
    ensures rc == TmOk
    ensures p.alerts == [] ==> unchanged(ast.fileCtx, log)
    ensures ast.fileCtx.alerts == old(ast.fileCtx.alerts) + |p.alerts|
    ensures log.lines == old(log.lines) + DecoderEventLines(p, |p.alerts|)
  {
    if |p.alerts| == 0 {
      return TmOk;
    }
    ast.fileCtx.alerts := ast.fileCtx.alerts + |p.alerts|;
    var i := 0;
    while i < |p.alerts|
      invariant i <= |p.alerts|
      invariant ast.fileCtx.alerts == old(ast.fileCtx.alerts) + |p.alerts|
      invariant log.lines == old(log.lines) + DecoderEventLines(p, i)
    {
      EmitEventLines(p.alerts[i], p, log);
      assert DecoderEventLines(p, i + 1) == DecoderEventLines(p, i) + EventLines(p.alerts[i], p);
      i := i + 1;
    }
    rc := TmOk;
  }

  // ---------------------------------------------------------------------
  // Routing

  datatype Route = ToIPv4 | ToIPv6 | ToDecoderEvent | Ignored

  /** The writer `AlertSyslog` hands a packet to: IPv4 first, then IPv6,
      then the decoder-event writer when the packet has decoder events. */
  function RouteOf(p: Packet): (r: Route)
    ensures r == ToIPv4 <==> p.isIPv4
    ensures r == ToIPv6 <==> !p.isIPv4 && p.isIPv6
    ensures r == ToDecoderEvent <==> !p.isIPv4 && !p.isIPv6 && p.eventsCnt > 0
    ensures r == Ignored <==> !p.isIPv4 && !p.isIPv6 && p.eventsCnt == 0
  {
    if p.isIPv4 then ToIPv4
    else if p.isIPv6 then ToIPv6
    else if p.eventsCnt > 0 then ToDecoderEvent
    else Ignored
  }

  /** The lines `AlertSyslog` sends for a packet. */
  function RoutedLines(p: Packet, knownProto: map<byte, string>): seq<SyslogLine>
  {
    match RouteOf(p)
    case ToIPv4 => AlertLines(p, knownProto, |p.alerts|)
    case ToIPv6 => AlertLines(p, knownProto, |p.alerts|)
    case ToDecoderEvent => DecoderEventLines(p, |p.alerts|)
    case Ignored => []
  }

  /** `AlertSyslog`: always OK; the counter grows by the packet's alerts
      unless the packet is neither IP nor carries decoder events. */
  method AlertSyslog(ast: AlertSyslogThread, p: Packet, knownProto: map<byte, string>, log: Syslog) returns (rc: TmEcode)
    modifies ast.fileCtx, log
    ensures rc == TmOk
    ensures RouteOf(p) == Ignored ==> unchanged(ast.fileCtx, log)
    ensures RouteOf(p) != Ignored ==> ast.fileCtx.alerts == old(ast.fileCtx.alerts) + |p.alerts|
    ensures log.lines == old(log.lines) + RoutedLines(p, knownProto)
  {
    match RouteOf(p) {
      case ToIPv4 =>
        rc := AlertSyslogIPv4(ast, p, knownProto, log);
      case ToIPv6 =>
        rc := AlertSyslogIPv6(ast, p, knownProto, log);
      case ToDecoderEvent =>
        rc := AlertSyslogDecoderEvent(ast, p, log);
      case Ignored =>
        rc := TmOk;
    }
  }

  /** The number of lines `AlertSyslog` sends for a packet: one per alert
      for IP packets, two or three per alert for decoder events. */
  lemma RoutedLineCount(p: Packet, knownProto: map<byte, string>)
    ensures var n := |RoutedLines(p, knownProto)|;
      match RouteOf(p)
      case ToIPv4 => n == |p.alerts|
      case ToIPv6 => n == |p.alerts|
      case ToDecoderEvent => n == (if p.pcapCnt != 0 then 3 else 2) * |p.alerts|
      case Ignored => n == 0
  {
    AlertLinesOnePerAlert(p, knownProto, |p.alerts|);
    DecoderEventLinesShape(p, |p.alerts|);
  }

  // ---------------------------------------------------------------------
  // Configuration and thread lifecycle

  /** What `AlertSyslogInitCtx` sets up: the facility passed to `openlog`. */
  datatype SyslogSetup = SyslogSetup(facility: int)

  /** "enabled" disables the output when its value starts with "no". */
  predicate Disabled(conf: map<string, string>)
  {
    "enabled" in conf && |conf["enabled"]| >= 2 && conf["enabled"][..2] == "no"
  }

  /** `SCMapEnumNameToValue`: the facility a name stands for, -1 if none. */
  function FacilityValue(name: string, facilityMap: map<string, nat>): (v: int)
    ensures v == -1 <==> name !in facilityMap
  {
    if name in facilityMap then facilityMap[name] else -1
  }

  /** `AlertSyslogInitCtx`: None when the output is disabled; otherwise the
      configured facility, "local0" when none is configured, and LOG_LOCAL0
      when the name is not a facility. */
  function AlertSyslogInitCtx(conf: map<string, string>, facilityMap: map<string, nat>): (r: Option<SyslogSetup>)
    ensures r.None? <==> Disabled(conf)
    ensures r.Some? && "facility" in conf && conf["facility"] in facilityMap ==>
      r.value.facility == facilityMap[conf["facility"]]
    ensures r.Some? && "facility" in conf && conf["facility"] !in facilityMap ==>
      r.value.facility == LOG_LOCAL0
    ensures r.Some? && "facility" !in conf ==>
      r.value.facility == (if DefaultFacilityName in facilityMap then facilityMap[DefaultFacilityName] else LOG_LOCAL0)
  {
    if Disabled(conf) then None
    else
      var name := if "facility" in conf then conf["facility"] else DefaultFacilityName;
      var facility := FacilityValue(name, facilityMap);
      Some(SyslogSetup(if facility == -1 then LOG_LOCAL0 else facility))
  }

  /** The facility is never the -1 of an unknown name: it is one the map
      names, or LOG_LOCAL0. */
  lemma InitCtxFacilityValid(conf: map<string, string>, facilityMap: map<string, nat>)
    ensures var r := AlertSyslogInitCtx(conf, facilityMap);
      r.Some? ==> r.value.facility in facilityMap.Values || r.value.facility == LOG_LOCAL0
  {
    var r := AlertSyslogInitCtx(conf, facilityMap);
    if r.Some? {
      var name := if "facility" in conf then conf["facility"] else DefaultFacilityName;
      if name in facilityMap {
        assert facilityMap[name] in facilityMap.Values;
      }
    }
  }

  /** The output context the thread is initialised from. */
  datatype OutputCtx = OutputCtx(data: LogFileCtx)

  /** `AlertSyslogThreadInit`: fails without an output context, else the
      thread uses the context's log file. */
  function AlertSyslogThreadInit(initdata: Option<OutputCtx>): (r: Option<AlertSyslogThread>)
    ensures r.Some? <==> initdata.Some?
    ensures r.Some? ==> r.value.fileCtx == initdata.value.data
  {
    match initdata
    case None => None
    case Some(ctx) => Some(AlertSyslogThread(ctx.data))
  }

  /** `AlertSyslogThreadDeinit`: OK, with or without thread data. */
  function AlertSyslogThreadDeinit(data: Option<AlertSyslogThread>): (rc: TmEcode)
    ensures rc == TmOk
  {
    TmOk
  }

  /** `AlertSyslogExitPrintStats`: nothing without thread data, else the
      message reporting the thread's name and the alert count. */
  function AlertSyslogExitPrintStats(threadName: string, data: Option<AlertSyslogThread>): (r: Option<string>)
    reads if data.Some? then {data.value.fileCtx} else {}
    ensures r.None? <==> data.None?
  {
    match data
    case None => None
    case Some(ast) => Some("(" + threadName + ") Alerts " + Decimal(ast.fileCtx.alerts))
  }

  /** The count read back from the end of the message is the counter. */
  lemma ExitPrintStatsReportsCount(threadName: string, ast: AlertSyslogThread)
    ensures var m := AlertSyslogExitPrintStats(threadName, Some(ast)).value;
      var k := |"(" + threadName + ") Alerts "|;
      k <= |m| && ParseNumber(m[k..]) == Some((ast.fileCtx.alerts, ""))
  {
    var prefix := "(" + threadName + ") Alerts ";
    var m := AlertSyslogExitPrintStats(threadName, Some(ast)).value;
    assert m == prefix + Decimal(ast.fileCtx.alerts);
    assert m[|prefix|..] == Decimal(ast.fileCtx.alerts) + [];
    ParseDecimal(ast.fileCtx.alerts, []);
  }
}
