/** The DHCP transaction logger: a log-once guard, a walk over the request
    and response option buffers as code/length/value triples (section 2 of
    RFC 2132), and the decoding of recognised options into named JSON
    fields. The JSON document is an abstract map from key to value.

    Where the walk or a decoder would read a byte beyond the end of its
    buffer, the model reports it (`ReadsPastEnd`, a None walk) instead of
    reading: the walk is checked. */
module OutputJsonDhcp {
  import opened Common
  import opened TextFormat

  datatype JsonValue = JString(s: string) | JInteger(n: int) | JArray(items: seq<string>)

  type JsonObject = map<string, JsonValue>

  /** Which option buffer is walked: the client's request or the server's response. */
  datatype Side = Request | Response

  /** What decoding one option yields: nothing, one key set in the side's
      object, or a read beyond the end of the buffer. */
  datatype Field = NoField | SetField(key: string, value: JsonValue) | ReadsPastEnd

  // ---------------------------------------------------------------------
  // Per-option conversions

  /** Option 53 (DHCP message type) in a request. */
  function RequestTypeName(t: byte): (s: string)
    ensures s == "request" <==> t == 3
    ensures s == "inform" <==> t == 8
    ensures s == "" <==> t != 3 && t != 8
  {
    if t == 3 then "request" else if t == 8 then "inform" else ""
  }

  /** Option 53 (DHCP message type) in a response. */
  function ResponseTypeName(t: byte): (s: string)
    ensures s == "ack" <==> t == 5
    ensures s == "nak" <==> t == 6
    ensures s == "" <==> t != 5 && t != 6
  {
    if t == 5 then "ack" else if t == 6 then "nak" else ""
  }

  /** `BytesToString`: each byte becomes the character with that code. */
  function BytesToString(bs: seq<byte>): (s: string)
    ensures |s| == |bs| && forall i :: 0 <= i < |bs| ==> s[i] as int == bs[i]
  {
    seq(|bs|, i requires 0 <= i < |bs| => bs[i] as char)
  }

  /** The name option 55 (parameter request list) gives a requested code. */
  function ParamName(code: byte): Option<string>
  {
    if code == 1 then Some("subnet_mask")
    else if code == 3 then Some("router")
    else if code == 6 then Some("dns_server")
    else if code == 15 then Some("domain")
    else if code == 35 then Some("arp_timeout")
    else if code == 42 then Some("ntp_server")
    else if code == 66 then Some("tftp_server_name")
    else if code == 150 then Some("tftp_server_ip")
    else None
  }

  /** The code a parameter name stands for. */
  function ParamCode(name: string): Option<byte>
  {
    if name == "subnet_mask" then Some(1)
    else if name == "router" then Some(3)
    else if name == "dns_server" then Some(6)
    else if name == "domain" then Some(15)
    else if name == "arp_timeout" then Some(35)
    else if name == "ntp_server" then Some(42)
    else if name == "tftp_server_name" then Some(66)
    else if name == "tftp_server_ip" then Some(150)
    else None
  }

  lemma ParamNameInverse(code: byte)
    ensures ParamName(code).Some? ==> ParamCode(ParamName(code).value) == Some(code)
  {
  }

  /** The names of the known codes in `args`, in order; unknown codes are dropped. */
  function ParamNames(args: seq<byte>): seq<string>
  {
    if args == [] then []
    else
      var c := args[|args| - 1];
      ParamNames(args[..|args| - 1]) + (if ParamName(c).Some? then [ParamName(c).value] else [])
  }

  /** The codes in `args` that have a name, in order. */
  function KnownCodes(args: seq<byte>): seq<byte>
  {
    if args == [] then []
    else
      var c := args[|args| - 1];
      KnownCodes(args[..|args| - 1]) + (if ParamName(c).Some? then [c] else [])
  }

  /** The codes the names in `names` stand for, in order. */
  function CodesOf(names: seq<string>): seq<byte>
  {
    if names == [] then []
    else
      var n := names[|names| - 1];
      CodesOf(names[..|names| - 1]) + (if ParamCode(n).Some? then [ParamCode(n).value] else [])
  }

  /** The parameter list is as long as the option at most, and its names
      read back as exactly the known codes of the option, in order. */
  lemma {:induction false} ParamNamesRecoverCodes(args: seq<byte>)
    ensures |ParamNames(args)| == |KnownCodes(args)| <= |args|
    ensures CodesOf(ParamNames(args)) == KnownCodes(args)
  {
    if args != [] {
      var init, c := args[..|args| - 1], args[|args| - 1];
      ParamNamesRecoverCodes(init);
      ParamNameInverse(c);
      var names := ParamNames(args);
      if ParamName(c).Some? {
        assert names == ParamNames(init) + [ParamName(c).value];
        assert names[..|names| - 1] == ParamNames(init);
      } else {
        assert names == ParamNames(init);
      }
    }
  }

  /** The inner loop of option 55: one name per known code, in order. */
  method ParamList(args: seq<byte>) returns (names: seq<string>)
    ensures names == ParamNames(args)
  {
    names := [];
    var i := 0;
    while i < |args|
      invariant i <= |args|
      invariant names == ParamNames(args[..i])
    {
      var name := ParamName(args[i]);
      if name.Some? {
        names := names + [name.value];
      }
      assert args[..i + 1][..i] == args[..i];
      i := i + 1;
    }
    assert args[..i] == args;
  }

  /** The unsigned value of four bytes, most significant first. */
  function BigEndian(a0: byte, a1: byte, a2: byte, a3: byte): nat
  {
    a0 * 0x100_0000 + a1 * 0x1_0000 + a2 * 0x100 + a3
  }

  /** `(int)a0<<24 | (int)a1<<16 | (int)a2<<8 | (int)a3` on a 32-bit int:
      the big-endian value read as two's complement. */
  function ShiftedInt32(a0: byte, a1: byte, a2: byte, a3: byte): int
  {
    var u := BigEndian(a0, a1, a2, a3);
    if u < 0x8000_0000 then u else u - 0x1_0000_0000
  }

  /** Four bytes, most significant first, of a value below 2^32. */
  function BigEndianBytes(v: nat): seq<byte>
    requires v < 0x1_0000_0000
  {
    [v / 0x100_0000, v / 0x1_0000 % 0x100, v / 0x100 % 0x100, v % 0x100]
  }

  /** The lease, renewal and rebinding times are the big-endian value of
      their four bytes when the first byte is below 128, and that value
      less 2^32 (a negative number) otherwise. */
  lemma ShiftedInt32Value(a0: byte, a1: byte, a2: byte, a3: byte)
    ensures a0 < 128 ==> ShiftedInt32(a0, a1, a2, a3) == a0 * 0x100_0000 + a1 * 0x1_0000 + a2 * 0x100 + a3
    ensures a0 >= 128 ==> ShiftedInt32(a0, a1, a2, a3) == BigEndian(a0, a1, a2, a3) - 0x1_0000_0000 < 0
  {
  }

  /** Big-endian decoding inverts `BigEndianBytes` in both directions. */
  lemma BigEndianRoundTrip(v: nat, a0: byte, a1: byte, a2: byte, a3: byte)
    requires v < 0x1_0000_0000
    ensures var b := BigEndianBytes(v); BigEndian(b[0], b[1], b[2], b[3]) == v
    ensures BigEndianBytes(BigEndian(a0, a1, a2, a3)) == [a0, a1, a2, a3]
  {
    var b := BigEndianBytes(v);
    assert v / 0x100 == v / 0x1_0000 * 0x100 + v / 0x100 % 0x100;
    assert v / 0x1_0000 == v / 0x100_0000 * 0x100 + v / 0x1_0000 % 0x100;
    assert v == v / 0x100 * 0x100 + v % 0x100;
    var u := BigEndian(a0, a1, a2, a3);
    assert u / 0x100 == a0 * 0x1_0000 + a1 * 0x100 + a2;
    assert u / 0x1_0000 == a0 * 0x100 + a1;
    assert u / 0x100_0000 == a0;
  }

  // ---------------------------------------------------------------------
  // Decoding one option

  /** The option at `off` has its `n` argument bytes inside the buffer. */
  predicate ArgsInBuffer(buf: seq<byte>, off: nat, n: nat)
  {
    off + 2 + n <= |buf|
  }

  function Args(buf: seq<byte>, off: nat, n: nat): seq<byte>
    requires ArgsInBuffer(buf, off, n)
  {
    buf[off + 2 .. off + 2 + n]
  }

  /** A key whose value is the first four argument bytes as a dotted quad. */
  function QuadField(buf: seq<byte>, off: nat, key: string): Field
  {
    if ArgsInBuffer(buf, off, 4) then
      SetField(key, JString(DottedQuad(buf[off + 2], buf[off + 3], buf[off + 4], buf[off + 5])))
    else ReadsPastEnd
  }

  /** A key whose value is the first four argument bytes shifted into an int. */
  function TimeField(buf: seq<byte>, off: nat, key: string): Field
  {
    if ArgsInBuffer(buf, off, 4) then
      SetField(key, JInteger(ShiftedInt32(buf[off + 2], buf[off + 3], buf[off + 4], buf[off + 5])))
    else ReadsPastEnd
  }

  /** A key whose value is the option's `len` argument bytes as text. */
  function TextField(buf: seq<byte>, off: nat, len: nat, key: string): Field
  {
    if ArgsInBuffer(buf, off, len) then SetField(key, JString(BytesToString(Args(buf, off, len))))
    else ReadsPastEnd
  }

  /** The request-side switch on the option code. Argument bytes are read
      from the buffer past the option's own length where the code reads a
      fixed number of them. */
  function RequestField(buf: seq<byte>, off: nat): Field
    requires off + 1 < |buf|
  {
    var code, len := buf[off], buf[off + 1];
    if code == 53 then
      if ArgsInBuffer(buf, off, 1) then SetField("type", JString(RequestTypeName(buf[off + 2]))) else ReadsPastEnd
    else if code == 12 then TextField(buf, off, len, "host_name")
    else if code == 60 then TextField(buf, off, len, "vendor_class")
    else if code == 61 then
      if !ArgsInBuffer(buf, off, 1) then ReadsPastEnd
      else if buf[off + 2] != 1 then NoField
      else if !ArgsInBuffer(buf, off, 7) then ReadsPastEnd
      else SetField("client_id", JString(MacString(buf[off + 3 .. off + 9])))
    else if code == 50 then QuadField(buf, off, "client_ip")
    else if code == 54 then QuadField(buf, off, "server_ip")
    else if code == 55 then
      if ArgsInBuffer(buf, off, len) then SetField("params", JArray(ParamNames(Args(buf, off, len)))) else ReadsPastEnd
    else NoField
  }

  /** The response-side switch on the option code. Option 66 (a TFTP
      server name in section 9.4 of RFC 2132) is printed as a dotted quad. */
  function ResponseField(buf: seq<byte>, off: nat): Field
    requires off + 1 < |buf|
  {
    var code := buf[off];
    if code == 53 then
      if ArgsInBuffer(buf, off, 1) then SetField("type", JString(ResponseTypeName(buf[off + 2]))) else ReadsPastEnd
    else if code == 3 then QuadField(buf, off, "router_ip")
    else if code == 6 then QuadField(buf, off, "dns_ip")
    else if code == 66 then QuadField(buf, off, "tftp_ip")
    else if code == 58 then TimeField(buf, off, "renewal_time")
    else if code == 59 then TimeField(buf, off, "rebinding_time")
    else if code == 51 then TimeField(buf, off, "lease_time")
    else if code == 54 then QuadField(buf, off, "server_ip")
    else if code == 1 then QuadField(buf, off, "subnet_mask")
    else NoField
  }

  function OptionField(side: Side, buf: seq<byte>, off: nat): Field
    requires off + 1 < |buf|
  {
    match side
    case Request => RequestField(buf, off)
    case Response => ResponseField(buf, off)
  }

  /** The codes the switch of each side has a case for. Every case reads the
      option's length or an argument byte; any other code reads nothing. */
  predicate Handles(side: Side, code: byte)
  {
    match side
    case Request => code in {53, 12, 60, 61, 50, 54, 55}
    case Response => code in {53, 3, 6, 66, 58, 59, 51, 54, 1}
  }

  /** An option whose code has no case sets no field, whatever follows it. */
  lemma UnhandledOptionSetsNothing(side: Side, buf: seq<byte>, off: nat)
    requires off + 1 < |buf| && !Handles(side, buf[off])
    ensures OptionField(side, buf, off) == NoField
  {
  }

  /** Option 61 sets "client_id" exactly when its first argument byte is 1,
      and then to the 17-character hex rendering of the next six bytes. */
  lemma ClientIdField(buf: seq<byte>, off: nat)
    requires off + 1 < |buf| && buf[off] == 61 && ArgsInBuffer(buf, off, 7)
    ensures RequestField(buf, off).SetField? <==> buf[off + 2] == 1
    ensures RequestField(buf, off).SetField? ==>
      var f := RequestField(buf, off);
      f.key == "client_id" && f.value.JString? && |f.value.s| == 17 &&
      ParseColonHex(f.value.s) == Some(buf[off + 3 .. off + 9])
  {
    if buf[off + 2] == 1 {
      MacStringRoundTrip(buf[off + 3 .. off + 9]);
    }
  }

  /** A quad field holds a dotted quad of at most 15 characters that reads
      back as the option's first four argument bytes. */
  lemma QuadFieldRoundTrip(buf: seq<byte>, off: nat, key: string)
    requires ArgsInBuffer(buf, off, 4)
    ensures var f := QuadField(buf, off, key);
      f.SetField? && f.key == key && f.value.JString? && |f.value.s| <= 15 &&
      ParseDotted(f.value.s, 4) == Some([buf[off + 2] as nat, buf[off + 3] as nat, buf[off + 4] as nat, buf[off + 5] as nat])
  {
    DottedQuadLength(buf[off + 2], buf[off + 3], buf[off + 4], buf[off + 5]);
    DottedQuadRoundTrip(buf[off + 2], buf[off + 3], buf[off + 4], buf[off + 5]);
  }

  /** The key each address option is logged under. */
  function AddressKey(side: Side, code: byte): Option<string>
  {
    match side
    case Request =>
      if code == 50 then Some("client_ip") else if code == 54 then Some("server_ip") else None
    case Response =>
      if code == 3 then Some("router_ip") else if code == 6 then Some("dns_ip")
      else if code == 66 then Some("tftp_ip") else if code == 54 then Some("server_ip")
      else if code == 1 then Some("subnet_mask") else None
  }

  /** Every address option yields its key set to a dotted quad of at most
      15 characters that reads back as the option's first four argument
      bytes; with fewer than four bytes left the read leaves the buffer. */
  lemma AddressFields(side: Side, buf: seq<byte>, off: nat)
    requires off + 1 < |buf| && AddressKey(side, buf[off]).Some?
    ensures var f := OptionField(side, buf, off);
      if ArgsInBuffer(buf, off, 4) then
        f.SetField? && f.key == AddressKey(side, buf[off]).value && f.value.JString? && |f.value.s| <= 15 &&
        ParseDotted(f.value.s, 4) == Some([buf[off + 2] as nat, buf[off + 3] as nat, buf[off + 4] as nat, buf[off + 5] as nat])
      else f == ReadsPastEnd
  {
    var key := AddressKey(side, buf[off]).value;
    assert OptionField(side, buf, off) == QuadField(buf, off, key);
    if ArgsInBuffer(buf, off, 4) {
      QuadFieldRoundTrip(buf, off, key);
    }
  }

  /** `OptionField` computed as the source does, with the loop of option 55. */
  method DecodeOption(side: Side, buf: seq<byte>, off: nat) returns (f: Field)
    requires off + 1 < |buf|
    ensures f == OptionField(side, buf, off)
  {
    if side == Request && buf[off] == 55 && ArgsInBuffer(buf, off, buf[off + 1]) {
      var names := ParamList(Args(buf, off, buf[off + 1]));
      f := SetField("params", JArray(names));
    } else {
      f := OptionField(side, buf, off);
    }
  }

  // ---------------------------------------------------------------------
  // The option walk

  /** The offsets the walk visits from `off` on, and whether it stopped
      because the length byte of the next option lies outside the buffer. */
  datatype OffsetWalk = OffsetWalk(offsets: seq<nat>, truncated: bool)

  function OptionOffsets(buf: seq<byte>, off: nat): (w: OffsetWalk)
    ensures forall j :: 0 <= j < |w.offsets| ==> w.offsets[j] + 1 < |buf|
    ensures w.truncated ==> |buf| >= 1
    decreases |buf| - off
  {
    if off >= |buf| then OffsetWalk([], false)
    else if off + 1 >= |buf| then OffsetWalk([], true)
    else
      var w := OptionOffsets(buf, off + 2 + buf[off + 1]);
      OffsetWalk([off] + w.offsets, w.truncated)
  }

  /** Where the walk from `off` stops: one past the last option visited. */
  function WalkEnd(buf: seq<byte>, off: nat, offsets: seq<nat>): nat
    requires forall j :: 0 <= j < |offsets| ==> offsets[j] + 1 < |buf|
  {
    if offsets == [] then off else offsets[|offsets| - 1] + 2 + buf[offsets[|offsets| - 1] + 1]
  }

  /** The walk starts at `off` and steps from each option to the one
      2 + len bytes further on (code at the offset, len after it), so its
      offsets strictly increase. */
  lemma {:induction false} OptionOffsetsSteps(buf: seq<byte>, off: nat)
    ensures var os := OptionOffsets(buf, off).offsets;
      (off + 1 < |buf| ==> |os| >= 1 && os[0] == off) &&
      (off + 1 >= |buf| ==> os == []) &&
      (forall j :: 0 <= j < |os| - 1 ==> os[j + 1] == os[j] + 2 + buf[os[j] + 1]) &&
      (forall j :: 0 <= j < |os| ==> off <= os[j]) &&
      (forall j, j' :: 0 <= j < j' < |os| ==> os[j] < os[j'])
    decreases |buf| - off
  {
    if off + 1 < |buf| {
      var next := off + 2 + buf[off + 1];
      OptionOffsetsSteps(buf, next);
      var rest := OptionOffsets(buf, next).offsets;
      var os := OptionOffsets(buf, off).offsets;
      assert os == [off] + rest;
      assert forall j :: 1 <= j < |os| ==> os[j] == rest[j - 1];
    }
  }

  /** The walk stops at the first offset at or past the buffer's last
      byte, and is truncated exactly when it stops on that byte, where
      the length of the next option would be read outside the buffer. */
  lemma {:induction false} OptionOffsetsStop(buf: seq<byte>, off: nat)
    ensures var w := OptionOffsets(buf, off);
      (w.truncated <==> WalkEnd(buf, off, w.offsets) == |buf| - 1) &&
      WalkEnd(buf, off, w.offsets) >= |buf| - 1
    decreases |buf| - off
  {
    if off + 1 < |buf| {
      var next := off + 2 + buf[off + 1];
      OptionOffsetsStop(buf, next);
      var rest := OptionOffsets(buf, next).offsets;
      var os := OptionOffsets(buf, off).offsets;
      assert os == [off] + rest;
      if rest != [] {
        assert os[|os| - 1] == rest[|rest| - 1];
      }
    }
  }

  /** Applies the decoded options at `offsets`, in order, to `obj`. */
  function DecodeOptions(side: Side, buf: seq<byte>, offsets: seq<nat>, obj: JsonObject): Option<JsonObject>
    requires forall j :: 0 <= j < |offsets| ==> offsets[j] + 1 < |buf|
  {
    if offsets == [] then Some(obj)
    else
      match OptionField(side, buf, offsets[0])
      case ReadsPastEnd => None
      case NoField => DecodeOptions(side, buf, offsets[1..], obj)
      case SetField(k, v) => DecodeOptions(side, buf, offsets[1..], obj[k := v])
  }

  /** The object the walk from `off` produces starting from `obj`; None
      when some read of the walk would leave the buffer. A truncated walk
      stops on the buffer's last byte (`OptionOffsetsStop`): an option
      starting there whose code has a case reads its length or arguments
      outside the buffer, while any other code (End, Pad) reads nothing and
      the step past it leaves the loop. */
  function WalkFrom(side: Side, buf: seq<byte>, off: nat, obj: JsonObject): Option<JsonObject>
  {
    var w := OptionOffsets(buf, off);
    match DecodeOptions(side, buf, w.offsets, obj)
    case None => None
    case Some(o) => if w.truncated && Handles(side, buf[|buf| - 1]) then None else Some(o)
  }

  /** The request or response object of a transaction. */
  function OptionsObject(side: Side, buf: seq<byte>): Option<JsonObject>
  {
    WalkFrom(side, buf, 0, map[])
  }

  /** A request ending in the one-byte End option (section 3.2 of RFC 2132)
      is logged with the fields before it. */
  lemma EndTerminatedRequest()
    ensures OptionsObject(Request, [53, 1, 3, 255]) == Some(map["type" := JString("request")])
  {
    var buf: seq<byte> := [53, 1, 3, 255];
    assert OptionOffsets(buf, 3) == OffsetWalk([], true);
    assert OptionOffsets(buf, 0) == OffsetWalk([0], true);
    assert OptionField(Request, buf, 0) == SetField("type", JString("request"));
  }

  /** The object after a decoded field is applied to `obj`. */
  function ApplyField(f: Field, obj: JsonObject): JsonObject
  {
    match f
    case SetField(k, v) => obj[k := v]
    case _ => obj
  }

  /** One step of the walk: decode the option at `off`, then walk on from
      `off + 2 + len`. */
  lemma WalkFromStep(side: Side, buf: seq<byte>, off: nat, obj: JsonObject)
    requires off + 1 < |buf|
    ensures var f := OptionField(side, buf, off);
      WalkFrom(side, buf, off, obj) ==
        if f.ReadsPastEnd? then None else WalkFrom(side, buf, off + 2 + buf[off + 1], ApplyField(f, obj))
  {
    var rest := OptionOffsets(buf, off + 2 + buf[off + 1]).offsets;
    assert OptionOffsets(buf, off).offsets == [off] + rest;
    assert ([off] + rest)[1..] == rest;
  }

  /** An option decoded without reading past the buffer decodes the same
      once a byte is appended to the buffer. */
  lemma OptionFieldExtends(side: Side, buf: seq<byte>, off: nat, c: byte)
    requires off + 1 < |buf| && OptionField(side, buf, off) != ReadsPastEnd
    ensures OptionField(side, buf + [c], off) == OptionField(side, buf, off)
  {
    var b := buf + [c];
    var len := buf[off + 1];
    assert b[off] == buf[off] && b[off + 1] == len;
    if ArgsInBuffer(buf, off, 1) {
      assert b[off + 2] == buf[off + 2];
    }
    if ArgsInBuffer(buf, off, 4) {
      assert b[off + 3] == buf[off + 3] && b[off + 4] == buf[off + 4] && b[off + 5] == buf[off + 5];
    }
    if ArgsInBuffer(buf, off, 7) {
      assert b[off + 3 .. off + 9] == buf[off + 3 .. off + 9];
    }
    if ArgsInBuffer(buf, off, len) {
      assert Args(b, off, len) == Args(buf, off, len);
    }
  }

  /** The step of `WalkFromExtends`: if the walks agree after the option at
      `off`, they agree from `off`. */
  lemma WalkFromExtendsStep(side: Side, buf: seq<byte>, off: nat, obj: JsonObject, c: byte)
    requires off + 1 < |buf| && !OptionField(side, buf, off).ReadsPastEnd?
    requires var next, obj' := off + 2 + buf[off + 1], ApplyField(OptionField(side, buf, off), obj);
      WalkFrom(side, buf + [c], next, obj') == WalkFrom(side, buf, next, obj')
    ensures WalkFrom(side, buf + [c], off, obj) == WalkFrom(side, buf, off, obj)
  {
    assert (buf + [c])[off + 1] == buf[off + 1];
    OptionFieldExtends(side, buf, off, c);
    WalkFromStep(side, buf, off, obj);
    WalkFromStep(side, buf + [c], off, obj);
  }

  /** The walk from the end of the buffer, with one more byte whose code has
      no case: it stops on that byte and keeps `obj`. */
  lemma WalkFromExtendsAtEnd(side: Side, buf: seq<byte>, obj: JsonObject, c: byte)
    requires !Handles(side, c)
    ensures WalkFrom(side, buf + [c], |buf|, obj) == Some(obj) == WalkFrom(side, buf, |buf|, obj)
  {
    assert OptionOffsets(buf + [c], |buf|) == OffsetWalk([], true);
  }

  /** A walk from `off < |buf|` that decodes and ends exactly at the end of
      the buffer reads a whole option at `off` and goes on to a walk from
      the next option that does the same. */
  lemma WalkFromExtendsNext(side: Side, buf: seq<byte>, off: nat, obj: JsonObject)
    requires off < |buf|
    requires WalkEnd(buf, off, OptionOffsets(buf, off).offsets) == |buf|
    requires WalkFrom(side, buf, off, obj).Some?
    ensures off + 1 < |buf| && !OptionField(side, buf, off).ReadsPastEnd?
    ensures var next, obj' := off + 2 + buf[off + 1], ApplyField(OptionField(side, buf, off), obj);
      next <= |buf| &&
      WalkEnd(buf, next, OptionOffsets(buf, next).offsets) == |buf| &&
      WalkFrom(side, buf, next, obj').Some?
  {
    WalkEndNext(buf, off);
    WalkFromStep(side, buf, off, obj);
  }

  /** A walk from `off < |buf|` that ends exactly at the end of the buffer
      visits a whole option at `off`, and the walk from the next option
      ends there too. */
  lemma WalkEndNext(buf: seq<byte>, off: nat)
    requires off < |buf|
    requires WalkEnd(buf, off, OptionOffsets(buf, off).offsets) == |buf|
    ensures off + 1 < |buf|
    ensures var next := off + 2 + buf[off + 1];
      next <= |buf| && WalkEnd(buf, next, OptionOffsets(buf, next).offsets) == |buf|
  {
    var next := off + 2 + buf[off + 1];
    var rest := OptionOffsets(buf, next).offsets;
    assert OptionOffsets(buf, off).offsets == [off] + rest;
  }

  /** A walk from `off` that decodes and ends exactly at the end of the
      buffer decodes the same with one more byte whose code has no case. */
  lemma {:induction false} WalkFromExtends(side: Side, buf: seq<byte>, off: nat, obj: JsonObject, c: byte)
    requires !Handles(side, c) && off <= |buf|
    requires WalkEnd(buf, off, OptionOffsets(buf, off).offsets) == |buf|
    requires WalkFrom(side, buf, off, obj).Some?
    ensures WalkFrom(side, buf + [c], off, obj) == WalkFrom(side, buf, off, obj)
    decreases |buf| - off
  {
    if off == |buf| {
      WalkFromExtendsAtEnd(side, buf, obj, c);
    } else {
      WalkFromExtendsNext(side, buf, off, obj);
      WalkFromExtends(side, buf, off + 2 + buf[off + 1], ApplyField(OptionField(side, buf, off), obj), c);
      WalkFromExtendsStep(side, buf, off, obj, c);
    }
  }

  /** Options that fill their buffer exactly and are logged are logged the
      same when one more byte whose code has no case ends the buffer. */
  lemma TrailingUnhandledCode(side: Side, buf: seq<byte>, c: byte)
    requires !Handles(side, c)
    requires WalkEnd(buf, 0, OptionOffsets(buf, 0).offsets) == |buf|
    requires OptionsObject(side, buf).Some?
    ensures OptionsObject(side, buf + [c]) == OptionsObject(side, buf)
  {
    WalkFromExtends(side, buf, 0, map[], c);
  }

  /** End (255) and Pad (0) have no case on either side, so such a buffer
      ending in either is logged as it is without it. */
  lemma TrailingEndOrPad(side: Side, buf: seq<byte>)
    requires WalkEnd(buf, 0, OptionOffsets(buf, 0).offsets) == |buf|
    requires OptionsObject(side, buf).Some?
    ensures OptionsObject(side, buf + [255]) == OptionsObject(side, buf)
    ensures OptionsObject(side, buf + [0]) == OptionsObject(side, buf)
  {
    EndAndPadUnhandled(side);
    TrailingUnhandledCode(side, buf, 255);
    TrailingUnhandledCode(side, buf, 0);
  }

  /** Neither side has a case for End (255) or Pad (0). */
  lemma EndAndPadUnhandled(side: Side)
    ensures !Handles(side, 255) && !Handles(side, 0)
  {
  }

  /** The `for (offset = 0; offset < len; offset += 2 + len)` walk. */
  method WalkOptions(side: Side, buf: seq<byte>) returns (r: Option<JsonObject>)
    ensures r == OptionsObject(side, buf)
  {
    var obj: JsonObject := map[];
    var offset := 0;
    while offset < |buf|
      invariant WalkFrom(side, buf, offset, obj) == OptionsObject(side, buf)
      decreases |buf| - offset
    {
      if offset + 1 >= |buf| {
        if Handles(side, buf[offset]) {
          return None;
        }
        return Some(obj);
      }
      var len := buf[offset + 1];
      var f := DecodeOption(side, buf, offset);
      match f {
        case ReadsPastEnd =>
          return None;
        case NoField =>
        case SetField(k, v) =>
          obj := obj[k := v];
      }
      offset := offset + 2 + len;
    }
    r := Some(obj);
  }

  // ---------------------------------------------------------------------
  // The transaction logger

  class DhcpState {
    var logId: nat

    constructor (logId: nat)
      ensures this.logId == logId
    {
      this.logId := logId;
    }
  }

  class DhcpTransaction {
    var logged: bool
    const requestBuffer: seq<byte>
    const responseBuffer: seq<byte>
    /** The transaction id in host byte order. */
    const xid: nat

    constructor (requestBuffer: seq<byte>, responseBuffer: seq<byte>, xid: nat)
      ensures !logged
      ensures this.requestBuffer == requestBuffer && this.responseBuffer == responseBuffer && this.xid == xid
    {
      logged := false;
      this.requestBuffer := requestBuffer;
      this.responseBuffer := responseBuffer;
      this.xid := xid;
    }
  }

  /** The "dhcp" part of the logged record. */
  datatype DhcpRecord = DhcpRecord(xid: nat, client: JsonObject, server: JsonObject)

  /** The log-once guard: the transaction is not yet logged and the state's
      log id has not passed it. */
  predicate ShouldLog(logId: nat, logged: bool, txId: nat)
  {
    logId <= txId && !logged
  }

  /** `JsondhcpLogger`. */
  method JsondhcpLogger(state: DhcpState, tx: DhcpTransaction, txId: nat) returns (rc: TmEcode, out: Option<DhcpRecord>)
    modifies state, tx
    ensures !ShouldLog(old(state.logId), old(tx.logged), txId) ==>
      rc == TmOk && out == None && unchanged(state, tx)
    ensures ShouldLog(old(state.logId), old(tx.logged), txId) ==>
      var req, rsp := OptionsObject(Request, tx.requestBuffer), OptionsObject(Response, tx.responseBuffer);
      if req.Some? && rsp.Some? then
        rc == TmOk && out == Some(DhcpRecord(tx.xid, req.value, rsp.value)) &&
        tx.logged && state.logId == old(state.logId) + 1
      else
        rc == TmFailed && out == None && unchanged(state, tx)
  {
    if state.logId > txId || tx.logged {
      return TmOk, None;
    }
    var req := WalkOptions(Request, tx.requestBuffer);
    var rsp := WalkOptions(Response, tx.responseBuffer);
    if req.None? || rsp.None? {
      return TmFailed, None;
    }
    tx.logged := true;
    out := Some(DhcpRecord(tx.xid, req.value, rsp.value));
    state.logId := state.logId + 1;
    rc := TmOk;
  }

  /** A transaction is written at most once: a second call on the same
      transaction emits nothing and changes nothing. */
  method LogTwice(state: DhcpState, tx: DhcpTransaction, txId: nat) returns (first: Option<DhcpRecord>, second: Option<DhcpRecord>)
    modifies state, tx
    ensures second == None
    ensures first.Some? ==> tx.logged && state.logId == old(state.logId) + 1
  {
    var rc;
    rc, first := JsondhcpLogger(state, tx, txId);
    rc, second := JsondhcpLogger(state, tx, txId);
  }

  // ---------------------------------------------------------------------
  // Thread init and deinit

  /** The output context a thread is initialised from; `data` is the
      logger's file context. */
  datatype OutputCtx = OutputCtx(data: nat)

  datatype LogdhcpLogThread = LogdhcpLogThread(dhcplogCtx: nat)

  /** `JsondhcpLogThreadInit`: fails without an output context. */
  function JsondhcpLogThreadInit(initdata: Option<OutputCtx>): (r: Option<LogdhcpLogThread>)
    ensures r.Some? <==> initdata.Some?
    ensures r.Some? ==> r.value.dhcplogCtx == initdata.value.data
  {
    match initdata
    case None => None
    case Some(ctx) => Some(LogdhcpLogThread(ctx.data))
  }

  /** `JsondhcpLogThreadDeinit`: OK, with or without thread data. */
  function JsondhcpLogThreadDeinit(data: Option<LogdhcpLogThread>): (rc: TmEcode)
    ensures rc == TmOk
  {
    TmOk
  }
}
