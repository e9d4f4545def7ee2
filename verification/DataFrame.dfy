/** The DATA frame an association writes, encoded straight into one buffer, against a decoder
    that follows RFC 4666: section 3.1 for the common header, section 3.2 for the parameters
    and their padding, section 3.3.1 for what a DATA message holds. */
module DataFrame {
  import opened Common

  datatype RoutingLabel = RoutingLabel(
    originatingPointCode: uint32,
    destinationPointCode: uint32,
    serviceIndicator: byte,
    networkIndicator: byte,
    messagePriority: byte,
    signallingLinkSelection: byte)

  datatype DataRequest = DataRequest(
    key: ASKey,
    routing: RoutingLabel,
    data: seq<byte>,
    stream: uint16,
    correlationID: uint32,
    correlationIDSet: bool)

  const VERSION: byte := 1
  const CLASS_TRANSFER: byte := 1
  const TYPE_PAYLOAD_DATA: byte := 1
  const NETWORK_APPEARANCE: uint16 := 0x0200
  const ROUTING_CONTEXT: uint16 := 0x0006
  const PROTOCOL_DATA: uint16 := 0x0210
  const CORRELATION_ID: uint16 := 0x0013

  const COMMON_HEADER: nat := 8
  const PARAMETER_HEADER: nat := 4
  const UINT32_PARAMETER: nat := PARAMETER_HEADER + 4
  const ROUTING_LABEL: nat := 12
  const MAX_PROTOCOL_DATA: nat := 0xffff - PARAMETER_HEADER - ROUTING_LABEL

  // ---- Big-endian words ----

  function Bytes16(v: uint16): (b: seq<byte>)
    ensures |b| == 2
  {
    [v / 0x100, v % 0x100]
  }

  function Bytes32(v: uint32): (b: seq<byte>)
    ensures |b| == 4
  {
    [v / 0x100_0000, v / 0x1_0000 % 0x100, v / 0x100 % 0x100, v % 0x100]
  }

  function Word16(b: seq<byte>): uint16
    requires |b| >= 2
  {
    var hi: int := b[0];
    hi * 0x100 + b[1]
  }

  function Word32(b: seq<byte>): uint32
    requires |b| >= 4
  {
    var hi: int, mid: int, low: int := b[0], b[1], b[2];
    hi * 0x100_0000 + mid * 0x1_0000 + low * 0x100 + b[3]
  }

  lemma WordsRoundTrip(v: uint16, w: uint32)
    ensures Word16(Bytes16(v)) == v && Word32(Bytes32(w)) == w
  {
    assert w / 0x1_0000 == w / 0x100 / 0x100;
    assert w / 0x100_0000 == w / 0x100 / 0x100 / 0x100;
    assert w == w / 0x100 * 0x100 + w % 0x100;
    assert w / 0x100 == w / 0x100 / 0x100 * 0x100 + w / 0x100 % 0x100;
  }

  // ---- The decoder ----

  /** A parameter of section 3.2, without its header and padding. */
  datatype Param = Param(tag: uint16, value: seq<byte>)

  function Padding(length: nat): nat {
    (4 - length % 4) % 4
  }

  predicate AllZero(b: seq<byte>) {
    forall i :: 0 <= i < |b| ==> b[i] == 0
  }

  /** Section 3.2: a Tag, a Length that covers the header and the value but not the padding,
      and zero octets up to the next multiple of four. */
  function ParseParams(b: seq<byte>): Option<seq<Param>>
    decreases |b|
  {
    if b == [] then Some([])
    else if |b| < PARAMETER_HEADER then None
    else
      var length := Word16(b[2..]);
      var whole := length + Padding(length);
      if length < PARAMETER_HEADER || whole > |b| || !AllZero(b[length..whole]) then None
      else
        var rest := ParseParams(b[whole..]);
        if rest.None? then None else Some([Param(Word16(b), b[PARAMETER_HEADER..length])] + rest.value)
  }

  /** What section 3.3.1 puts in a DATA message. */
  datatype Message = Message(
    networkAppearance: Option<uint32>,
    routingContext: Option<uint32>,
    routing: RoutingLabel,
    data: seq<byte>,
    correlationID: Option<uint32>)

  function Tagged(params: seq<Param>, tag: uint16): seq<Param> {
    if params == [] then []
    else (if params[0].tag == tag then [params[0]] else []) + Tagged(params[1..], tag)
  }

  /** An optional 32-bit parameter: absent, or present once with four octets. */
  predicate Optional32(params: seq<Param>) {
    params == [] || (|params| == 1 && |params[0].value| == 4)
  }

  function Value32(params: seq<Param>): Option<uint32>
    requires Optional32(params)
  {
    if params == [] then None else Some(Word32(params[0].value))
  }

  function Interpret(params: seq<Param>): Option<Message> {
    var appearance, context := Tagged(params, NETWORK_APPEARANCE), Tagged(params, ROUTING_CONTEXT);
    var payload, correlation := Tagged(params, PROTOCOL_DATA), Tagged(params, CORRELATION_ID);
    if !Optional32(appearance) || !Optional32(context) || !Optional32(correlation) then None
    else if appearance != [] && params[0].tag != NETWORK_APPEARANCE then None
    else if |payload| != 1 || |payload[0].value| < ROUTING_LABEL then None
    else
      var v := payload[0].value;
      Some(Message(Value32(appearance), Value32(context),
                   RoutingLabel(Word32(v), Word32(v[4..]), v[8], v[9], v[10], v[11]),
                   v[ROUTING_LABEL..], Value32(correlation)))
  }

  /** Section 3.1: version, reserved octet, class, type, and a Message Length that covers the
      header, every parameter and its padding. */
  function Decode(b: seq<byte>): Option<Message> {
    if |b| < COMMON_HEADER || b[0] != VERSION || b[1] != 0 || b[2] != CLASS_TRANSFER || b[3] != TYPE_PAYLOAD_DATA then None
    else if Word32(b[4..]) != |b| then None
    else
      var params := ParseParams(b[COMMON_HEADER..]);
      if params.None? then None else Interpret(params.value)
  }

  // ---- What the encoder writes ----

  function Zeros(n: nat): (z: seq<byte>)
    ensures |z| == n
  {
    seq(n, i => 0)
  }

  function Put32(tag: uint16, v: uint32): (r: seq<byte>)
    ensures |r| == UINT32_PARAMETER
  {
    Bytes16(tag) + Bytes16(UINT32_PARAMETER) + Bytes32(v)
  }

  function Optionally(isSet: bool, b: seq<byte>): seq<byte> {
    if isSet then b else []
  }

  function LabelBytes(l: RoutingLabel): (r: seq<byte>)
    ensures |r| == ROUTING_LABEL
  {
    Bytes32(l.originatingPointCode) + Bytes32(l.destinationPointCode)
    + [l.serviceIndicator, l.networkIndicator, l.messagePriority, l.signallingLinkSelection]
  }

  function Length(r: DataRequest): nat {
    var value := ROUTING_LABEL + |r.data|;
    COMMON_HEADER + PARAMETER_HEADER + value + Padding(value)
    + (if r.key.networkAppearanceSet then UINT32_PARAMETER else 0)
    + (if r.key.routingContextSet then UINT32_PARAMETER else 0)
    + (if r.correlationIDSet then UINT32_PARAMETER else 0)
  }

  /** The Length field of Protocol Data, truncated to its sixteen bits. */
  function ProtocolDataLength(r: DataRequest): uint16 {
    (PARAMETER_HEADER + ROUTING_LABEL + |r.data|) % 0x1_0000
  }

  function Header(r: DataRequest): (h: seq<byte>)
    ensures |h| == COMMON_HEADER
  {
    [VERSION, 0, CLASS_TRANSFER, TYPE_PAYLOAD_DATA] + Bytes32(Length(r) % 0x1_0000_0000)
  }

  function ProtocolData(r: DataRequest): (b: seq<byte>)
    ensures |b| == PARAMETER_HEADER + ROUTING_LABEL + |r.data| + Padding(ROUTING_LABEL + |r.data|)
  {
    Bytes16(PROTOCOL_DATA) + Bytes16(ProtocolDataLength(r)) + LabelBytes(r.routing) + r.data + Zeros(Padding(ROUTING_LABEL + |r.data|))
  }

  function Body(r: DataRequest): (b: seq<byte>)
    ensures |b| == Length(r) - COMMON_HEADER
  {
    Optionally(r.key.networkAppearanceSet, Put32(NETWORK_APPEARANCE, r.key.networkAppearance))
    + Optionally(r.key.routingContextSet, Put32(ROUTING_CONTEXT, r.key.routingContext))
    + ProtocolData(r)
    + Optionally(r.correlationIDSet, Put32(CORRELATION_ID, r.correlationID))
  }

  function Frame(r: DataRequest): (f: seq<byte>)
    ensures |f| == Length(r)
  {
    Header(r) + Body(r)
  }

  // ---- Any list of parameters survives encoding ----

  function EncodeParam(p: Param): seq<byte>
    requires |p.value| + PARAMETER_HEADER < 0x1_0000
  {
    Bytes16(p.tag) + Bytes16(PARAMETER_HEADER + |p.value|) + p.value + Zeros(Padding(|p.value|))
  }

  ghost predicate Encodable(params: seq<Param>) {
    forall i :: 0 <= i < |params| ==> |params[i].value| + PARAMETER_HEADER < 0x1_0000
  }

  function EncodeParams(params: seq<Param>): seq<byte>
    requires Encodable(params)
  {
    if params == [] then [] else EncodeParam(params[0]) + EncodeParams(params[1..])
  }

  lemma ParseOne(p: Param, rest: seq<byte>)
    requires |p.value| + PARAMETER_HEADER < 0x1_0000
    ensures ParseParams(EncodeParam(p) + rest) ==
            match ParseParams(rest) case None => None case Some(ps) => Some([p] + ps)
  {
    var length := PARAMETER_HEADER + |p.value|;
    var b := EncodeParam(p) + rest;
    WordsRoundTrip(p.tag, 0);
    WordsRoundTrip(length, 0);
    assert Padding(length) == Padding(|p.value|);
    var whole := length + Padding(length);
    assert |EncodeParam(p)| == whole;
    assert b[0] == Bytes16(p.tag)[0] && b[1] == Bytes16(p.tag)[1];
    assert b[2..][0] == Bytes16(length)[0] && b[2..][1] == Bytes16(length)[1];
    assert Word16(b) == p.tag && Word16(b[2..]) == length;
    assert b[PARAMETER_HEADER..length] == p.value;
    assert b[whole..] == rest;
    assert b[length..whole] == Zeros(Padding(length));
  }

  /** The parser undoes the parameter encoding of section 3.2, padding included. */
  lemma {:induction false} ParamsRoundTrip(params: seq<Param>)
    requires Encodable(params)
    ensures ParseParams(EncodeParams(params)) == Some(params)
  {
    if params != [] {
      ParamsRoundTrip(params[1..]);
      ParseOne(params[0], EncodeParams(params[1..]));
      assert [params[0]] + params[1..] == params;
    }
  }

  // ---- The frame ----

  function Maybe(isSet: bool, p: Param): seq<Param> {
    if isSet then [p] else []
  }

  function ParamsOf(r: DataRequest): seq<Param> {
    Maybe(r.key.networkAppearanceSet, Param(NETWORK_APPEARANCE, Bytes32(r.key.networkAppearance)))
    + Maybe(r.key.routingContextSet, Param(ROUTING_CONTEXT, Bytes32(r.key.routingContext)))
    + [Param(PROTOCOL_DATA, LabelBytes(r.routing) + r.data)]
    + Maybe(r.correlationIDSet, Param(CORRELATION_ID, Bytes32(r.correlationID)))
  }

  function MessageOf(r: DataRequest): Message {
    Message(if r.key.networkAppearanceSet then Some(r.key.networkAppearance) else None,
            if r.key.routingContextSet then Some(r.key.routingContext) else None,
            r.routing, r.data, if r.correlationIDSet then Some(r.correlationID) else None)
  }

  lemma EncodeSplits(a: seq<Param>, b: seq<Param>)
    requires Encodable(a) && Encodable(b)
    ensures Encodable(a + b) && EncodeParams(a + b) == EncodeParams(a) + EncodeParams(b)
  {
    if a == [] {
      assert a + b == b;
    } else {
      EncodeSplits(a[1..], b);
      assert (a + b)[1..] == a[1..] + b;
    }
  }

  lemma MaybeEncodes(isSet: bool, tag: uint16, v: uint32)
    ensures Encodable(Maybe(isSet, Param(tag, Bytes32(v))))
    ensures EncodeParams(Maybe(isSet, Param(tag, Bytes32(v)))) == Optionally(isSet, Put32(tag, v))
  {
    var p := Param(tag, Bytes32(v));
    assert [p][1..] == [];
    assert EncodeParam(p) == Put32(tag, v);
  }

  lemma ProtocolDataIsEncoding(r: DataRequest)
    requires |r.data| <= MAX_PROTOCOL_DATA
    ensures ProtocolData(r) == EncodeParam(Param(PROTOCOL_DATA, LabelBytes(r.routing) + r.data))
  {
    assert LabelBytes(r.routing) + r.data + Zeros(Padding(ROUTING_LABEL + |r.data|))
        == (LabelBytes(r.routing) + r.data) + Zeros(Padding(|LabelBytes(r.routing) + r.data|));
  }

  lemma BodyIsEncoding(r: DataRequest)
    requires |r.data| <= MAX_PROTOCOL_DATA
    ensures Encodable(ParamsOf(r)) && Body(r) == EncodeParams(ParamsOf(r))
  {
    hide LabelBytes, Bytes32, ProtocolData, EncodeParam, EncodeParams, Put32;
    var a := Maybe(r.key.networkAppearanceSet, Param(NETWORK_APPEARANCE, Bytes32(r.key.networkAppearance)));
    var c := Maybe(r.key.routingContextSet, Param(ROUTING_CONTEXT, Bytes32(r.key.routingContext)));
    var p := Param(PROTOCOL_DATA, LabelBytes(r.routing) + r.data);
    var d := Maybe(r.correlationIDSet, Param(CORRELATION_ID, Bytes32(r.correlationID)));
    MaybeEncodes(r.key.networkAppearanceSet, NETWORK_APPEARANCE, r.key.networkAppearance);
    MaybeEncodes(r.key.routingContextSet, ROUTING_CONTEXT, r.key.routingContext);
    MaybeEncodes(r.correlationIDSet, CORRELATION_ID, r.correlationID);
    EncodeSplits(a, c);
    EncodeSplits(a + c, [p]);
    EncodeSplits(a + c + [p], d);
    SingleEncodes(p);
    ProtocolDataIsEncoding(r);
  }

  lemma SingleEncodes(p: Param)
    requires |p.value| + PARAMETER_HEADER < 0x1_0000
    ensures EncodeParams([p]) == EncodeParam(p)
  {
    assert [p][1..] == [];
  }

  lemma InterpretsBack(r: DataRequest)
    ensures Interpret(ParamsOf(r)) == Some(MessageOf(r))
  {
    var v := LabelBytes(r.routing) + r.data;
    WordsRoundTrip(0, r.key.networkAppearance);
    WordsRoundTrip(0, r.key.routingContext);
    WordsRoundTrip(0, r.correlationID);
    WordsRoundTrip(0, r.routing.originatingPointCode);
    WordsRoundTrip(0, r.routing.destinationPointCode);
    assert Word32(v) == Word32(Bytes32(r.routing.originatingPointCode));
    assert Word32(v[4..]) == Word32(Bytes32(r.routing.destinationPointCode));
    assert v[ROUTING_LABEL..] == r.data;
    TagsOf(r);
  }

  lemma {:induction false} TaggedSplits(a: seq<Param>, b: seq<Param>, tag: uint16)
    ensures Tagged(a + b, tag) == Tagged(a, tag) + Tagged(b, tag)
  {
    if a == [] {
      assert a + b == b;
    } else {
      TaggedSplits(a[1..], b, tag);
      assert (a + b)[1..] == a[1..] + b;
      var first := if a[0].tag == tag then [a[0]] else [];
      assert Tagged(a + b, tag) == first + Tagged(a[1..] + b, tag);
    }
  }

  lemma TaggedMaybe(isSet: bool, p: Param, tag: uint16)
    ensures Tagged(Maybe(isSet, p), tag) == if isSet && p.tag == tag then [p] else []
  {
    assert [p][1..] == [];
  }

  lemma TagsOf(r: DataRequest)
    ensures Tagged(ParamsOf(r), NETWORK_APPEARANCE) == Maybe(r.key.networkAppearanceSet, Param(NETWORK_APPEARANCE, Bytes32(r.key.networkAppearance)))
    ensures Tagged(ParamsOf(r), ROUTING_CONTEXT) == Maybe(r.key.routingContextSet, Param(ROUTING_CONTEXT, Bytes32(r.key.routingContext)))
    ensures Tagged(ParamsOf(r), PROTOCOL_DATA) == [Param(PROTOCOL_DATA, LabelBytes(r.routing) + r.data)]
    ensures Tagged(ParamsOf(r), CORRELATION_ID) == Maybe(r.correlationIDSet, Param(CORRELATION_ID, Bytes32(r.correlationID)))
  {
    OneTag(r, NETWORK_APPEARANCE);
    OneTag(r, ROUTING_CONTEXT);
    OneTag(r, PROTOCOL_DATA);
    OneTag(r, CORRELATION_ID);
  }

  lemma OneTag(r: DataRequest, tag: uint16)
    ensures var a, c := Param(NETWORK_APPEARANCE, Bytes32(r.key.networkAppearance)), Param(ROUTING_CONTEXT, Bytes32(r.key.routingContext));
            var p, d := Param(PROTOCOL_DATA, LabelBytes(r.routing) + r.data), Param(CORRELATION_ID, Bytes32(r.correlationID));
            Tagged(ParamsOf(r), tag) ==
            Maybe(r.key.networkAppearanceSet && tag == NETWORK_APPEARANCE, a) + Maybe(r.key.routingContextSet && tag == ROUTING_CONTEXT, c)
            + Maybe(tag == PROTOCOL_DATA, p) + Maybe(r.correlationIDSet && tag == CORRELATION_ID, d)
  {
    var a, c := Param(NETWORK_APPEARANCE, Bytes32(r.key.networkAppearance)), Param(ROUTING_CONTEXT, Bytes32(r.key.routingContext));
    var p, d := Param(PROTOCOL_DATA, LabelBytes(r.routing) + r.data), Param(CORRELATION_ID, Bytes32(r.correlationID));
    var ma, mc, md := Maybe(r.key.networkAppearanceSet, a), Maybe(r.key.routingContextSet, c), Maybe(r.correlationIDSet, d);
    TaggedMaybe(r.key.networkAppearanceSet, a, tag);
    TaggedMaybe(r.key.routingContextSet, c, tag);
    TaggedMaybe(true, p, tag);
    TaggedMaybe(r.correlationIDSet, d, tag);
    TaggedSplits(ma, mc, tag);
    TaggedSplits(ma + mc, [p], tag);
    TaggedSplits(ma + mc + [p], md, tag);
  }

  /** datatransfer.go:246-308. For every payload up to the bound, decoding the frame by
      sections 3.1, 3.2 and 3.3.1 of RFC 4666 gives back the parameters that were present,
      the routing label and the payload. */
  lemma FrameRoundTrip(r: DataRequest)
    requires |r.data| <= MAX_PROTOCOL_DATA
    ensures Decode(Frame(r)) == Some(MessageOf(r))
  {
    hide Interpret, ParseParams, ParamsOf, Header, Body, EncodeParams;
    BodyIsEncoding(r);
    HeaderOf(r);
    assert Frame(r)[COMMON_HEADER..] == Body(r);
    ParamsRoundTrip(ParamsOf(r));
    InterpretsBack(r);
  }

  /** The header's length is the buffer's, a multiple of four, and not truncated. */
  lemma HeaderOf(r: DataRequest)
    requires |r.data| <= MAX_PROTOCOL_DATA
    ensures var b := Frame(r);
            && |b| == Length(r) && |b| % 4 == 0 && Word32(b[4..]) == |b|
            && b[0] == VERSION && b[1] == 0 && b[2] == CLASS_TRANSFER && b[3] == TYPE_PAYLOAD_DATA
  {
    LengthIsWhole(r);
    hide Body, Length, Word32, Bytes32;
    WordThen(Length(r), Body(r));
    assert Frame(r)[4..] == Bytes32(Length(r)) + Body(r);
  }

  lemma WordThen(w: uint32, rest: seq<byte>)
    ensures Word32(Bytes32(w) + rest) == w
  {
    WordsRoundTrip(0, w);
    assert forall i :: 0 <= i < 4 ==> (Bytes32(w) + rest)[i] == Bytes32(w)[i];
  }

  lemma LengthIsWhole(r: DataRequest)
    ensures Length(r) % 4 == 0
    ensures |r.data| <= MAX_PROTOCOL_DATA ==> Length(r) < 0x1_0000_0000
  {}

  /** The bound WriteDataContext enforces is exact: the sixteen-bit length of Protocol Data
      is the parameter's length if and only if the payload is within it. */
  lemma BoundIsExact(r: DataRequest)
    ensures ProtocolDataLength(r) == PARAMETER_HEADER + ROUTING_LABEL + |r.data| <==> |r.data| <= MAX_PROTOCOL_DATA
  {}

  /** Two requests that put the same octets on the wire carry the same message. */
  lemma FramesAreUnambiguous(r: DataRequest, q: DataRequest)
    requires |r.data| <= MAX_PROTOCOL_DATA && |q.data| <= MAX_PROTOCOL_DATA && Frame(r) == Frame(q)
    ensures MessageOf(r) == MessageOf(q)
  {
    FrameRoundTrip(r);
    FrameRoundTrip(q);
  }

  // ---- Writing the buffer ----

  function Overwrite(s: seq<byte>, at: nat, x: seq<byte>): (t: seq<byte>)
    requires at + |x| <= |s|
    ensures |t| == |s|
  {
    s[..at] + x + s[at + |x|..]
  }

  lemma OverwriteNext(s: seq<byte>, at: nat, x: seq<byte>, y: seq<byte>)
    requires at + |x| + |y| <= |s|
    ensures Overwrite(Overwrite(s, at, x), at + |x|, y) == Overwrite(s, at, x + y)
  {}

  method PutUint16(b: array<byte>, at: nat, v: uint16)
    requires at + 2 <= b.Length
    modifies b
    ensures b[..] == Overwrite(old(b[..]), at, Bytes16(v))
  {
    b[at], b[at + 1] := v / 0x100, v % 0x100;
  }

  method PutUint32(b: array<byte>, at: nat, v: uint32)
    requires at + 4 <= b.Length
    modifies b
    ensures b[..] == Overwrite(old(b[..]), at, Bytes32(v))
  {
    b[at], b[at + 1], b[at + 2], b[at + 3] := v / 0x100_0000, v / 0x1_0000 % 0x100, v / 0x100 % 0x100, v % 0x100;
  }

  method Copy(b: array<byte>, at: nat, data: seq<byte>)
    requires at + |data| <= b.Length
    modifies b
    ensures b[..] == Overwrite(old(b[..]), at, data)
  {
    var i := 0;
    while i < |data|
      invariant i <= |data|
      invariant b[..] == old(b[..])[..at] + data[..i] + old(b[..])[at + i..]
    {
      b[at + i] := data[i];
      i := i + 1;
    }
    assert data[..i] == data;
  }

  method PutUint32Parameter(b: array<byte>, at: nat, tag: uint16, v: uint32) returns (written: nat)
    requires at + UINT32_PARAMETER <= b.Length
    modifies b
    ensures written == UINT32_PARAMETER && b[..] == Overwrite(old(b[..]), at, Put32(tag, v))
  {
    hide Bytes16, Bytes32, Overwrite;
    PutUint16(b, at, tag);
    PutUint16(b, at + 2, UINT32_PARAMETER);
    OverwriteNext(old(b[..]), at, Bytes16(tag), Bytes16(UINT32_PARAMETER));
    PutUint32(b, at + 4, v);
    OverwriteNext(old(b[..]), at, Bytes16(tag) + Bytes16(UINT32_PARAMETER), Bytes32(v));
    return UINT32_PARAMETER;
  }

  /** The octets written so far, in a buffer allocated zero. */
  ghost predicate Filled(s: seq<byte>, written: seq<byte>) {
    |written| <= |s| && s == written + Zeros(|s| - |written|)
  }

  lemma FilledGrows(s: seq<byte>, written: seq<byte>, x: seq<byte>, t: seq<byte>)
    requires Filled(s, written) && |written| + |x| <= |s|
    requires t == Overwrite(s, |written|, x)
    ensures Filled(t, written + x)
  {}

  /** The encoder's one buffer, written at a moving offset. */
  method EncodeDataFrame(r: DataRequest) returns (frame: array<byte>)
    ensures fresh(frame) && frame[..] == Frame(r)
  {
    hide Put32, LabelBytes, Bytes16, Bytes32, Filled, Zeros, ProtocolData;
    var protocolDataValue := ROUTING_LABEL + |r.data|;
    var protocolDataPadding := (4 - protocolDataValue % 4) % 4;
    var length := COMMON_HEADER + PARAMETER_HEADER + protocolDataValue + protocolDataPadding;
    if r.key.networkAppearanceSet { length := length + UINT32_PARAMETER; }
    if r.key.routingContextSet { length := length + UINT32_PARAMETER; }
    if r.correlationIDSet { length := length + UINT32_PARAMETER; }
    frame := NewFrame(length);
    WriteHeader(frame, length % 0x1_0000_0000);
    ghost var written := Header(r);
    assert Filled(frame[..], written);

    var offset := COMMON_HEADER;
    if r.key.networkAppearanceSet {
      offset, written := Append32(frame, offset, written, NETWORK_APPEARANCE, r.key.networkAppearance);
    }
    if r.key.routingContextSet {
      offset, written := Append32(frame, offset, written, ROUTING_CONTEXT, r.key.routingContext);
    }
    assert written == Header(r) + Optionally(r.key.networkAppearanceSet, Put32(NETWORK_APPEARANCE, r.key.networkAppearance))
                      + Optionally(r.key.routingContextSet, Put32(ROUTING_CONTEXT, r.key.routingContext));
    offset, written := AppendProtocolData(frame, offset, written, r);
    if r.correlationIDSet {
      offset, written := Append32(frame, offset, written, CORRELATION_ID, r.correlationID);
    }
    assert written == Frame(r) by { hide Header; Grouped(r); }
    AllWritten(frame[..], written);
  }

  /** The frame as the encoder appends it. */
  lemma Grouped(r: DataRequest)
    ensures Frame(r) == Header(r)
                      + Optionally(r.key.networkAppearanceSet, Put32(NETWORK_APPEARANCE, r.key.networkAppearance))
                      + Optionally(r.key.routingContextSet, Put32(ROUTING_CONTEXT, r.key.routingContext))
                      + ProtocolData(r)
                      + Optionally(r.correlationIDSet, Put32(CORRELATION_ID, r.correlationID))
  {
    hide Header, Put32, ProtocolData, Optionally;
  }

  lemma AllWritten(s: seq<byte>, written: seq<byte>)
    requires Filled(s, written) && |s| == |written|
    ensures s == written
  {}

  method NewFrame(length: nat) returns (frame: array<byte>)
    ensures fresh(frame) && frame.Length == length && frame[..] == Zeros(length)
  {
    frame := new byte[length](i => 0);
  }

  method WriteHeader(frame: array<byte>, length: uint32)
    requires COMMON_HEADER <= frame.Length && frame[..] == Zeros(frame.Length)
    modifies frame
    ensures Filled(frame[..], [VERSION, 0, CLASS_TRANSFER, TYPE_PAYLOAD_DATA] + Bytes32(length))
  {
    hide Bytes32;
    frame[0], frame[1], frame[2], frame[3] := VERSION, 0, CLASS_TRANSFER, TYPE_PAYLOAD_DATA;
    PutUint32(frame, 4, length);
  }

  method Append32(frame: array<byte>, at: nat, ghost written: seq<byte>, tag: uint16, v: uint32) returns (next: nat, ghost grown: seq<byte>)
    requires at == |written| && at + UINT32_PARAMETER <= frame.Length && Filled(frame[..], written)
    modifies frame
    ensures next == |grown| && grown == written + Put32(tag, v) && Filled(frame[..], grown)
  {
    hide Put32, Filled, Overwrite;
    var n := PutUint32Parameter(frame, at, tag, v);
    FilledGrows(old(frame[..]), written, Put32(tag, v), frame[..]);
    next, grown := at + n, written + Put32(tag, v);
  }

  method AppendProtocolData(frame: array<byte>, at: nat, ghost written: seq<byte>, r: DataRequest) returns (next: nat, ghost grown: seq<byte>)
    requires at == |written| && at + |ProtocolData(r)| <= frame.Length && Filled(frame[..], written)
    modifies frame
    ensures next == |grown| && grown == written + ProtocolData(r) && Filled(frame[..], grown)
  {
    hide LabelBytes, Bytes16, Filled, Zeros, Overwrite;
    var offset := at;
    PutUint16(frame, offset, PROTOCOL_DATA);
    FilledGrows(old(frame[..]), written, Bytes16(PROTOCOL_DATA), frame[..]);
    grown := written + Bytes16(PROTOCOL_DATA);

    label Tag:
    PutUint16(frame, offset + 2, (PARAMETER_HEADER + ROUTING_LABEL + |r.data|) % 0x1_0000);
    FilledGrows(old@Tag(frame[..]), grown, Bytes16(ProtocolDataLength(r)), frame[..]);
    grown := grown + Bytes16(ProtocolDataLength(r));
    offset := offset + PARAMETER_HEADER;

    label Head:
    PutRoutingLabel(frame, offset, r.routing);
    FilledGrows(old@Head(frame[..]), grown, LabelBytes(r.routing), frame[..]);
    grown := grown + LabelBytes(r.routing);
    offset := offset + ROUTING_LABEL;

    label Routing:
    Copy(frame, offset, r.data);
    FilledGrows(old@Routing(frame[..]), grown, r.data, frame[..]);
    grown := grown + r.data;
    // The padding octets are already zero: the buffer was allocated, not reused.
    Padded(frame[..], grown, Padding(ROUTING_LABEL + |r.data|));
    grown := grown + Zeros(Padding(ROUTING_LABEL + |r.data|));
    Regroup(written, Bytes16(PROTOCOL_DATA), Bytes16(ProtocolDataLength(r)), LabelBytes(r.routing), r.data, Zeros(Padding(ROUTING_LABEL + |r.data|)));
    next := offset + |r.data| + Padding(ROUTING_LABEL + |r.data|);
  }

  lemma Regroup(w: seq<byte>, a: seq<byte>, b: seq<byte>, c: seq<byte>, d: seq<byte>, e: seq<byte>)
    ensures w + a + b + c + d + e == w + (a + b + c + d + e)
  {}

  lemma Padded(s: seq<byte>, written: seq<byte>, n: nat)
    requires Filled(s, written) && |written| + n <= |s|
    ensures Filled(s, written + Zeros(n))
  {}

  method PutRoutingLabel(b: array<byte>, at: nat, l: RoutingLabel)
    requires at + ROUTING_LABEL <= b.Length
    modifies b
    ensures b[..] == Overwrite(old(b[..]), at, LabelBytes(l))
  {
    hide Bytes32, Overwrite;
    PutUint32(b, at, l.originatingPointCode);
    PutUint32(b, at + 4, l.destinationPointCode);
    OverwriteNext(old(b[..]), at, Bytes32(l.originatingPointCode), Bytes32(l.destinationPointCode));
    PutOctets(b, at + 8, l.serviceIndicator, l.networkIndicator, l.messagePriority, l.signallingLinkSelection);
    OverwriteNext(old(b[..]), at, Bytes32(l.originatingPointCode) + Bytes32(l.destinationPointCode),
                  [l.serviceIndicator, l.networkIndicator, l.messagePriority, l.signallingLinkSelection]);
  }

  method PutOctets(b: array<byte>, at: nat, b0: byte, b1: byte, b2: byte, b3: byte)
    requires at + 4 <= b.Length
    modifies b
    ensures b[..] == Overwrite(old(b[..]), at, [b0, b1, b2, b3])
  {
    b[at], b[at + 1], b[at + 2], b[at + 3] := b0, b1, b2, b3;
  }

  // ---- What WriteDataContext checks before it encodes ----

  datatype Refusal = NotEstablished | InvalidNetworkIndicator | ProtocolDataTooLarge | NoDataStream | InvalidStream(stream: uint16)

  /** Section 1.4.7: one signalling link selection keeps to one stream, never stream 0 while
      the peer negotiated another. */
  function StreamFor(maxMessageStream: uint16, sls: byte): uint16 {
    if maxMessageStream <= 1 then maxMessageStream else sls % maxMessageStream + 1
  }

  function CheckDataStream(maxMessageStream: uint16, stream: uint16): Option<Refusal> {
    if stream == 0 then Some(NoDataStream)
    else if stream > maxMessageStream then Some(InvalidStream(stream))
    else None
  }

  /** What passes every check before the stream's. */
  predicate Preparable(active: bool, r: DataRequest) {
    active && r.routing.networkIndicator <= 3 && |r.data| <= MAX_PROTOCOL_DATA
  }

  /** datatransfer.go:111-151. What reaches the transport decodes to the request on a stream
      the peer negotiated; what is refused is refused for the first check that fails, a
      default stream only where the peer offers none for DATA. */
  method PrepareData(active: bool, maxMessageStream: uint16, r: DataRequest)
    returns (refusal: Option<Refusal>, stream: uint16, frame: seq<byte>)
    ensures refusal.None? <==> Preparable(active, r) && maxMessageStream > 0 && r.stream <= maxMessageStream
    ensures refusal.None? ==> 1 <= stream <= maxMessageStream
    ensures refusal.None? ==> stream == if r.stream != 0 then r.stream else StreamFor(maxMessageStream, r.routing.signallingLinkSelection)
    ensures refusal.None? ==> Decode(frame) == Some(MessageOf(r)) && |frame| % 4 == 0
    ensures refusal == Some(NotEstablished) <==> !active
    ensures refusal == Some(InvalidNetworkIndicator) <==> active && r.routing.networkIndicator > 3
    ensures refusal == Some(ProtocolDataTooLarge) <==>
            active && r.routing.networkIndicator <= 3
            && ProtocolDataLength(r) != PARAMETER_HEADER + ROUTING_LABEL + |r.data|
    ensures refusal == Some(NoDataStream) <==> Preparable(active, r) && r.stream == 0 && maxMessageStream == 0
    ensures refusal == Some(InvalidStream(r.stream)) <==> Preparable(active, r) && r.stream > maxMessageStream
    ensures refusal.Some? && refusal.value.InvalidStream? ==> refusal.value.stream == r.stream
  {
    hide Decode, Frame, StreamFor;
    stream, frame := 0, [];
    if !active { return Some(NotEstablished), stream, frame; }
    if r.routing.networkIndicator > 3 { return Some(InvalidNetworkIndicator), stream, frame; }
    BoundIsExact(r);
    if |r.data| > MAX_PROTOCOL_DATA { return Some(ProtocolDataTooLarge), stream, frame; }
    stream := r.stream;
    if stream == 0 { stream := StreamFor(maxMessageStream, r.routing.signallingLinkSelection); }
    StreamInRange(maxMessageStream, r.routing.signallingLinkSelection);
    refusal := CheckDataStream(maxMessageStream, stream);
    if refusal.Some? { return; }
    var buffer := EncodeDataFrame(r);
    frame := buffer[..];
    FrameRoundTrip(r);
    HeaderOf(r);
  }

  lemma StreamInRange(maxMessageStream: uint16, sls: byte)
    ensures StreamFor(maxMessageStream, sls) <= maxMessageStream
    ensures StreamFor(maxMessageStream, sls) == 0 <==> maxMessageStream == 0
  {}
}
