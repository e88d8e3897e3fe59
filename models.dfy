/**
 * The redirector's instance types and their TDF encodings: the address type
 * enumeration, the IPv4 network address, the host-or-address choice, host and
 * port, the instance details a redirect answers with, and the fixed request.
 */
module Models {
  import opened Basics
  import opened Tdf
  import Ipv4

  // ---------------------------------------------------------------------------
  // NetworkAddressType

  datatype NetworkAddressType =
    | Server
    | Client
    | Pair
    | IpAddress
    | HostnameAddress
    | Unknown(code: u8)

  /** The wire byte of an address type; the named variants use 0 to 4. */
  function Value(t: NetworkAddressType): (b: u8)
    ensures t.Unknown? || b <= 4
  {
    match t
    case Server => 0x0
    case Client => 0x1
    case Pair => 0x2
    case IpAddress => 0x3
    case HostnameAddress => 0x4
    case Unknown(code) => code
  }

  /** The address type of a wire byte: total, and any byte outside 0 to 4 is kept as `Unknown`. */
  function FromValue(b: u8): (t: NetworkAddressType)
    ensures Value(t) == b
    ensures t.Unknown? <==> b > 4
  {
    match b
    case 0x0 => Server
    case 0x1 => Client
    case 0x2 => Pair
    case 0x3 => IpAddress
    case 0x4 => HostnameAddress
    case _ => Unknown(b)
  }

  /** Only an `Unknown` that carries one of the named codes fails to come back from its byte. */
  lemma FromValueOfValue(t: NetworkAddressType)
    ensures FromValue(Value(t)) == t <==> !(t.Unknown? && t.code <= 4)
  {
  }

  // ---------------------------------------------------------------------------
  // NetAddress

  datatype NetAddress = NetAddress(ip: Ipv4.Addr)

  /** `u32::from_be_bytes` on the octets: the first octet is the most significant byte. */
  function FromBeBytes(o: Ipv4.Addr): (v: u32)
    ensures v / 0x100_0000 == o.a
    ensures v / 0x1_0000 % 0x100 == o.b
    ensures v / 0x100 % 0x100 == o.c
    ensures v % 0x100 == o.d
  {
    var v := o.a * 0x100_0000 + o.b * 0x1_0000 + o.c * 0x100 + o.d;
    DivModUnique(v, 0x100_0000, o.a, o.b * 0x1_0000 + o.c * 0x100 + o.d);
    DivModUnique(v, 0x1_0000, o.a * 0x100 + o.b, o.c * 0x100 + o.d);
    DivModUnique(o.a * 0x100 + o.b, 0x100, o.a, o.b);
    DivModUnique(v, 0x100, o.a * 0x1_0000 + o.b * 0x100 + o.c, o.d);
    DivModUnique(o.a * 0x1_0000 + o.b * 0x100 + o.c, 0x100, o.a * 0x100 + o.b, o.c);
    v
  }

  /** `u32::to_be_bytes`, the inverse of `FromBeBytes`. */
  function ToBeBytes(v: u32): (o: Ipv4.Addr)
    ensures FromBeBytes(o) == v
  {
    var a, low3 := v / 0x100_0000, v % 0x100_0000;
    var b, low2 := low3 / 0x1_0000, low3 % 0x1_0000;
    var c, d := low2 / 0x100, low2 % 0x100;
    Ipv4.Addr(a, b, c, d)
  }

  lemma BeBytesRoundTrip(o: Ipv4.Addr)
    ensures ToBeBytes(FromBeBytes(o)) == o
  {
  }

  /** `NetAddress::default()`: the loopback address. */
  function DefaultNetAddress(): (n: NetAddress)
    ensures FromBeBytes(n.ip) == 0x7f00_0001
  {
    NetAddress(Ipv4.Localhost)
  }

  /** The default address displays as "127.0.0.1". */
  lemma DefaultDisplay()
    ensures Display(DefaultNetAddress()) == "127.0.0.1"
  {
    Ipv4.LocalhostText();
  }

  /** `Display` (and `Debug`, which delegates to it): the dotted quad, which parses back to the address. */
  function Display(n: NetAddress): (r: string)
    ensures Ipv4.Parse(r) == Some(n.ip)
  {
    Ipv4.ParseRender(n.ip);
    Ipv4.Render(n.ip)
  }

  function AddressTokens(n: NetAddress): seq<Token>
  {
    [RawU32(FromBeBytes(n.ip))]
  }

  method EncodeNetAddress(n: NetAddress, w: Writer)
    modifies w
    ensures w.tokens == old(w.tokens) + AddressTokens(n)
  {
    var value := FromBeBytes(n.ip);
    w.WriteU32(value);
  }

  function AddressAt(s: seq<Token>, p: nat): Step<NetAddress>
  {
    var v := ReadRawU32(s, p);
    if v.res.Err? then Step(Err(v.res.error), v.end)
    else Step(Ok(NetAddress(ToBeBytes(v.res.value))), v.end)
  }

  method DecodeNetAddress(r: Reader) returns (res: Res<NetAddress>)
    modifies r
    ensures Step(res, r.pos) == AddressAt(r.tokens, old(r.pos))
  {
    var value := r.ReadU32();
    if value.Err? {
      return Err(value.error);
    }
    var bytes := ToBeBytes(value.value);
    return Ok(NetAddress(bytes));
  }

  lemma AddressRoundTrip(s: seq<Token>, p: nat, n: NetAddress)
    requires Holds(s, p, AddressTokens(n))
    ensures AddressAt(s, p) == Step(Ok(n), p + |AddressTokens(n)|)
  {
    assert s[p + 0] == AddressTokens(n)[0];
    BeBytesRoundTrip(n.ip);
  }

  // ---------------------------------------------------------------------------
  // InstanceHost

  datatype InstanceHost = Host(name: string) | Address(addr: NetAddress)

  /** `InstanceHost::from(String)`: an address exactly when the text parses as IPv4, else the text unchanged. */
  function HostFrom(s: string): (h: InstanceHost)
    ensures h.Address? <==> Ipv4.Parse(s).Some?
    ensures h.Address? ==> Ipv4.Parse(s) == Some(h.addr.ip)
    ensures h.Host? ==> h.name == s
  {
    match Ipv4.Parse(s)
    case Some(ip) => Address(NetAddress(ip))
    case None => Host(s)
  }

  /** `String::from(InstanceHost)`: the name, or the address's dotted quad. */
  function HostToString(h: InstanceHost): (r: string)
    ensures h.Host? ==> r == h.name
    ensures h.Address? ==> Ipv4.Parse(r) == Some(h.addr.ip)
  {
    match h
    case Address(n) => Display(n)
    case Host(name) => name
  }

  /** Text to host and back is the identity: the parser only accepts canonical dotted quads. */
  lemma HostStringRoundTrip(s: string)
    ensures HostToString(HostFrom(s)) == s
  {
    if Ipv4.Parse(s).Some? {
      Ipv4.RenderParse(s);
    }
  }

  /** Host to text and back is the identity except for a name that reads as an IPv4 address. */
  lemma HostFromToString(h: InstanceHost)
    ensures HostFrom(HostToString(h)) == h <==> (h.Address? || Ipv4.Parse(h.name).None?)
  {
  }

  function HostTokens(h: InstanceHost): seq<Token>
  {
    match h
    case Host(name) => [StrField("HOST", name)]
    case Address(n) => [ValueTag("IP", VarIntType)] + AddressTokens(n)
  }

  method EncodeHost(h: InstanceHost, w: Writer)
    modifies w
    ensures w.tokens == old(w.tokens) + HostTokens(h)
  {
    match h
    case Host(name) =>
      w.TagStr("HOST", name);
    case Address(n) =>
      w.Tag("IP", VarIntType);
      EncodeNetAddress(n, w);
  }

  /** `InstanceHost::decode`: a `HOST` string decides the name; otherwise an `IP` address is required. */
  function HostAt(s: seq<Token>, p: nat): Step<InstanceHost>
  {
    var host := TryReadStr(s, p, "HOST");
    if host.res.Err? then Step(Err(host.res.error), host.end)
    else if host.res.value.Some? then Step(Ok(Host(host.res.value.value)), host.end)
    else
      var tag := ReadValueTag(s, host.end, "IP", VarIntType);
      if tag.res.Err? then Step(Err(tag.res.error), tag.end)
      else
        var ip := AddressAt(s, tag.end);
        if ip.res.Err? then Step(Err(ip.res.error), ip.end)
        else Step(Ok(Address(ip.res.value)), ip.end)
  }

  method DecodeHost(r: Reader) returns (res: Res<InstanceHost>)
    modifies r
    ensures Step(res, r.pos) == HostAt(r.tokens, old(r.pos))
  {
    var host := r.TryTagStr("HOST");
    if host.Err? {
      return Err(host.error);
    }
    if host.value.Some? {
      return Ok(Host(host.value.value));
    }
    var tag := r.Tag("IP", VarIntType);
    if tag.Err? {
      return Err(tag.error);
    }
    var ip := DecodeNetAddress(r);
    if ip.Err? {
      return Err(ip.error);
    }
    return Ok(Address(ip.value));
  }

  /** Each variant is written as exactly one field, under its own tag. */
  lemma HostFields(h: InstanceHost)
    ensures FieldTags(HostTokens(h)) == if h.Host? then ["HOST"] else ["IP"]
    ensures GroupEnds(HostTokens(h)) == 0
  {
    FieldTagsAllTagged(HostTokens(h)[..1]);
    assert HostTokens(h) == HostTokens(h)[..1] + HostTokens(h)[1..];
    FieldTagsAppend(HostTokens(h)[..1], HostTokens(h)[1..]);
    GroupEndsNone(HostTokens(h));
    if h.Address? {
      assert FieldTags(HostTokens(h)[1..]) == [] by {
        assert HostTokens(h)[1..][1..] == [];
      }
    }
  }

  lemma HostRoundTrip(s: seq<Token>, p: nat, h: InstanceHost)
    requires Holds(s, p, HostTokens(h))
    ensures HostAt(s, p) == Step(Ok(h), p + |HostTokens(h)|)
  {
    assert s[p + 0] == HostTokens(h)[0];
    match h
    case Host(name) =>
    case Address(n) =>
      HoldsSplit(s, p, [ValueTag("IP", VarIntType)], AddressTokens(n));
      AddressRoundTrip(s, p + 1, n);
  }

  /** Without a `HOST` string or an `IP` tag at the position, decoding fails with a missing `IP`. */
  lemma HostNeedsIp(s: seq<Token>, p: nat)
    requires !TagAt(s, p, "HOST") && !TagAt(s, p, "IP")
    ensures HostAt(s, p).res == Err(MissingTag("IP", VarIntType))
  {
  }

  // ---------------------------------------------------------------------------
  // InstanceNet

  datatype InstanceNet = InstanceNet(host: InstanceHost, port: u16)

  /** `InstanceNet::from((String, Port))`: the host text is kept recoverable, the port as given. */
  function NetFrom(host: string, port: u16): (n: InstanceNet)
    ensures n.host == HostFrom(host)
    ensures HostToString(n.host) == host
    ensures n.port == port
  {
    HostStringRoundTrip(host);
    InstanceNet(HostFrom(host), port)
  }

  function NetTokens(n: InstanceNet): seq<Token>
  {
    HostTokens(n.host) + [U16Field("PORT", n.port), GroupEnd]
  }

  method EncodeNet(n: InstanceNet, w: Writer)
    modifies w
    ensures w.tokens == old(w.tokens) + NetTokens(n)
  {
    EncodeHost(n.host, w);
    w.TagU16("PORT", n.port);
    w.TagGroupEnd();
  }

  /** `InstanceNet::decode`: the host, then `PORT`, then one byte that closes the group. */
  function NetAt(s: seq<Token>, p: nat): Step<InstanceNet>
  {
    var host := HostAt(s, p);
    if host.res.Err? then Step(Err(host.res.error), host.end)
    else
      var port := ReadU16(s, host.end, "PORT");
      if port.res.Err? then Step(Err(port.res.error), port.end)
      else
        var end := ReadRawByte(s, port.end);
        if end.res.Err? then Step(Err(end.res.error), end.end)
        else Step(Ok(InstanceNet(host.res.value, port.res.value)), end.end)
  }

  method DecodeNet(r: Reader) returns (res: Res<InstanceNet>)
    modifies r
    ensures Step(res, r.pos) == NetAt(r.tokens, old(r.pos))
  {
    var host := DecodeHost(r);
    if host.Err? {
      return Err(host.error);
    }
    var port := r.TagU16("PORT");
    if port.Err? {
      return Err(port.error);
    }
    var end := r.ReadByte();
    if end.Err? {
      return Err(end.error);
    }
    return Ok(InstanceNet(host.value, port.value));
  }

  /** The host's field, then `PORT`, then exactly one group terminator, which comes last. */
  lemma NetFraming(n: InstanceNet)
    ensures FieldTags(NetTokens(n)) == FieldTags(HostTokens(n.host)) + ["PORT"]
    ensures GroupEnds(NetTokens(n)) == 1
    ensures NetTokens(n)[|NetTokens(n)| - 2] == U16Field("PORT", n.port)
    ensures NetTokens(n)[|NetTokens(n)| - 1] == GroupEnd
  {
    var tail := [U16Field("PORT", n.port), GroupEnd];
    HostFields(n.host);
    FieldTagsAppend(HostTokens(n.host), tail);
    GroupEndsAppend(HostTokens(n.host), tail);
    assert tail[1..][1..] == [];
    assert FieldTags(tail[1..]) == [];
    assert GroupEnds(tail[1..]) == 1;
  }

  lemma NetRoundTrip(s: seq<Token>, p: nat, n: InstanceNet)
    requires Holds(s, p, NetTokens(n))
    ensures NetAt(s, p) == Step(Ok(n), p + |NetTokens(n)|)
  {
    var k := |HostTokens(n.host)|;
    HoldsSplit(s, p, HostTokens(n.host), [U16Field("PORT", n.port), GroupEnd]);
    HostRoundTrip(s, p, n.host);
    HoldsAt(s, p + k, [U16Field("PORT", n.port), GroupEnd], 0);
    HoldsAt(s, p + k, [U16Field("PORT", n.port), GroupEnd], 1);
  }

  /** The terminator is read unconditionally: without a group end after `PORT`, decoding fails. */
  lemma NetNeedsGroupEnd(s: seq<Token>, p: nat, n: InstanceNet)
    requires Holds(s, p, HostTokens(n.host) + [U16Field("PORT", n.port)])
    requires var q := p + |HostTokens(n.host)| + 1; q >= |s| || !s[q].GroupEnd?
    ensures NetAt(s, p).res.Err?
  {
    var k := |HostTokens(n.host)|;
    HoldsSplit(s, p, HostTokens(n.host), [U16Field("PORT", n.port)]);
    HostRoundTrip(s, p, n.host);
    HoldsAt(s, p + k, [U16Field("PORT", n.port)], 0);
  }

  // ---------------------------------------------------------------------------
  // InstanceDetails

  datatype InstanceDetails = InstanceDetails(net: InstanceNet, secure: bool)

  /** Everything `InstanceDetails::decode` reads: the `ADDR` union with its payload, then `SECU`. */
  function DetailsHead(d: InstanceDetails): seq<Token>
  {
    [UnionStart("ADDR", Value(Server)), ValueTag("VALU", GroupType)] + NetTokens(d.net)
      + [BoolField("SECU", d.secure)]
  }

  function DetailsTokens(d: InstanceDetails): seq<Token>
  {
    DetailsHead(d) + [BoolField("XDNS", false)]
  }

  method EncodeDetails(d: InstanceDetails, w: Writer)
    modifies w
    ensures w.tokens == old(w.tokens) + DetailsTokens(d)
  {
    w.TagUnionStart("ADDR", Value(Server));
    w.Tag("VALU", GroupType);
    EncodeNet(d.net, w);
    w.TagBool("SECU", d.secure);
    w.TagBool("XDNS", false);
  }

  /** The `ADDR` field read as a `Union<InstanceNet>`: the discriminant, the payload's tag, the net. */
  function AddrUnionAt(s: seq<Token>, p: nat): Step<Union<InstanceNet>>
  {
    var head := ReadUnionHead(s, p, "ADDR");
    if head.res.Err? then Step(Err(head.res.error), head.end)
    else if head.res.value.None? then Step(Ok(Unset), head.end)
    else
      var tag := ReadAnyTag(s, head.end);
      if tag.res.Err? then Step(Err(tag.res.error), tag.end)
      else
        var net := NetAt(s, tag.end);
        if net.res.Err? then Step(Err(net.res.error), net.end)
        else Step(Ok(Set(head.res.value.value, tag.res.value, net.res.value)), net.end)
  }

  method DecodeAddrUnion(r: Reader) returns (res: Res<Union<InstanceNet>>)
    modifies r
    ensures Step(res, r.pos) == AddrUnionAt(r.tokens, old(r.pos))
  {
    var head := r.UnionHead("ADDR");
    if head.Err? {
      return Err(head.error);
    }
    if head.value.None? {
      return Ok(Unset);
    }
    var tag := r.AnyTag();
    if tag.Err? {
      return Err(tag.error);
    }
    var net := DecodeNet(r);
    if net.Err? {
      return Err(net.error);
    }
    return Ok(Set(head.value.value, tag.value, net.value));
  }

  /** `InstanceDetails::decode`: an unset `ADDR` union is a missing `ADDR` of union type; `XDNS` is not read. */
  function DetailsAt(s: seq<Token>, p: nat): Step<InstanceDetails>
  {
    var addr := AddrUnionAt(s, p);
    if addr.res.Err? then Step(Err(addr.res.error), addr.end)
    else if addr.res.value.Unset? then Step(Err(MissingTag("ADDR", UnionType)), addr.end)
    else
      var secure := ReadBool(s, addr.end, "SECU");
      if secure.res.Err? then Step(Err(secure.res.error), secure.end)
      else Step(Ok(InstanceDetails(addr.res.value.value, secure.res.value)), secure.end)
  }

  method DecodeDetails(r: Reader) returns (res: Res<InstanceDetails>)
    modifies r
    ensures Step(res, r.pos) == DetailsAt(r.tokens, old(r.pos))
  {
    var addr := DecodeAddrUnion(r);
    if addr.Err? {
      return Err(addr.error);
    }
    if addr.value.Unset? {
      return Err(MissingTag("ADDR", UnionType));
    }
    var secure := r.TagBool("SECU");
    if secure.Err? {
      return Err(secure.error);
    }
    return Ok(InstanceDetails(addr.value.value, secure.value));
  }

  /** The union opens with the `Server` discriminant 0 and the trailing `XDNS` is false for every input. */
  lemma DetailsLayout(d: InstanceDetails)
    ensures DetailsTokens(d)[0] == UnionStart("ADDR", 0)
    ensures DetailsTokens(d)[|DetailsTokens(d)| - 1] == BoolField("XDNS", false)
  {
  }

  /** The fields in order: `ADDR`, `VALU`, the net's fields, `SECU`, `XDNS`; one group is closed. */
  lemma DetailsFields(d: InstanceDetails)
    ensures FieldTags(DetailsTokens(d)) == ["ADDR", "VALU"] + FieldTags(NetTokens(d.net)) + ["SECU", "XDNS"]
    ensures GroupEnds(DetailsTokens(d)) == 1
  {
    var front, back := DetailsFront(), DetailsBack(d);
    var net := NetTokens(d.net);
    DetailsSplit(d);
    FieldTagsAppend(front + net, back);
    FieldTagsAppend(front, net);
    GroupEndsAppend(front + net, back);
    GroupEndsAppend(front, net);
    NetFraming(d.net);
  }

  function DetailsFront(): (t: seq<Token>)
    ensures FieldTags(t) == ["ADDR", "VALU"] && GroupEnds(t) == 0
  {
    var t: seq<Token> := [UnionStart("ADDR", Value(Server)), ValueTag("VALU", GroupType)];
    FieldTagsAllTagged(t);
    GroupEndsNone(t);
    t
  }

  function DetailsBack(d: InstanceDetails): (t: seq<Token>)
    ensures FieldTags(t) == ["SECU", "XDNS"] && GroupEnds(t) == 0
  {
    var t: seq<Token> := [BoolField("SECU", d.secure), BoolField("XDNS", false)];
    FieldTagsAllTagged(t);
    GroupEndsNone(t);
    t
  }

  lemma DetailsSplit(d: InstanceDetails)
    ensures DetailsTokens(d) == DetailsFront() + NetTokens(d.net) + DetailsBack(d)
  {
  }

  /** Decoding needs only the tokens up to `SECU`: whatever follows, `XDNS` included, has no effect. */
  lemma DetailsIgnoresXdns(s: seq<Token>, p: nat, d: InstanceDetails)
    requires Holds(s, p, DetailsHead(d))
    ensures DetailsAt(s, p) == Step(Ok(d), p + |DetailsHead(d)|)
  {
    var front: seq<Token> := [UnionStart("ADDR", Value(Server)), ValueTag("VALU", GroupType)];
    var k := |NetTokens(d.net)|;
    HoldsSplit(s, p, front + NetTokens(d.net), [BoolField("SECU", d.secure)]);
    HoldsSplit(s, p, front, NetTokens(d.net));
    HoldsAt(s, p, front, 0);
    HoldsAt(s, p, front, 1);
    NetRoundTrip(s, p + 2, d.net);
    HoldsAt(s, p + 2 + k, [BoolField("SECU", d.secure)], 0);
  }

  /** A round trip gives back the net and the security flag; the reader stops in front of `XDNS`. */
  lemma DetailsRoundTrip(s: seq<Token>, p: nat, d: InstanceDetails)
    requires Holds(s, p, DetailsTokens(d))
    ensures DetailsAt(s, p) == Step(Ok(d), p + |DetailsTokens(d)| - 1)
    ensures s[p + |DetailsTokens(d)| - 1] == BoolField("XDNS", false)
  {
    HoldsSplit(s, p, DetailsHead(d), [BoolField("XDNS", false)]);
    DetailsIgnoresXdns(s, p, d);
    HoldsAt(s, p + |DetailsHead(d)|, [BoolField("XDNS", false)], 0);
  }

  /** An unset `ADDR` union fails with the missing-tag error naming `ADDR` and the union type. */
  lemma DetailsUnsetFails(s: seq<Token>, p: nat)
    requires p < |s| && s[p] == UnionUnset("ADDR")
    ensures DetailsAt(s, p) == Step(Err(MissingTag("ADDR", UnionType)), p + 1)
  {
  }

  // ---------------------------------------------------------------------------
  // InstanceRequest

  /** The fixed client description a redirect request carries. */
  function RequestTokens(): seq<Token>
  {
    [ StrField("BSDK", "3.15.6.0"),
      StrField("BTIM", "Dec 21 2012 12:47:10"),
      StrField("CLNT", "MassEffect3-pc"),
      U8Field("CLTP", 0),
      StrField("CSKU", "134845"),
      StrField("CVER", "05427.124"),
      StrField("DSDK", "8.14.7.1"),
      StrField("ENV", "prod"),
      UnionUnset("FPID"),
      U32Field("LOC", 0x656e4e5a),
      StrField("NAME", "masseffect-3-pc"),
      StrField("PLAT", "Windows"),
      StrField("PROF", "standardSecure_v3") ]
  }

  method EncodeRequest(w: Writer)
    modifies w
    ensures w.tokens == old(w.tokens) + RequestTokens()
  {
    w.TagStr("BSDK", "3.15.6.0");
    w.TagStr("BTIM", "Dec 21 2012 12:47:10");
    w.TagStr("CLNT", "MassEffect3-pc");
    w.TagU8("CLTP", 0);
    w.TagStr("CSKU", "134845");
    w.TagStr("CVER", "05427.124");
    w.TagStr("DSDK", "8.14.7.1");
    w.TagStr("ENV", "prod");
    w.TagUnionUnset("FPID");
    w.TagU32("LOC", 0x656e4e5a);
    w.TagStr("NAME", "masseffect-3-pc");
    w.TagStr("PLAT", "Windows");
    w.TagStr("PROF", "standardSecure_v3");
  }

  /** The tags of the request's fields, in the order they are written. */
  const RequestTags: seq<string> :=
    ["BSDK", "BTIM", "CLNT", "CLTP", "CSKU", "CVER", "DSDK", "ENV", "FPID", "LOC", "NAME", "PLAT", "PROF"]

  /** Thirteen tagged fields with the tags above, in that order. */
  lemma RequestFields()
    ensures FieldTags(RequestTokens()) == RequestTags
  {
    RequestTokenTags();
    FieldTagsAllTagged(RequestTokens());
  }

  lemma RequestTokenTags()
    ensures |RequestTokens()| == |RequestTags|
    ensures forall i :: 0 <= i < |RequestTags| ==> HasTag(RequestTokens()[i]) && RequestTokens()[i].tag == RequestTags[i]
  {
  }

  /** `FPID` is written as an unset union, `LOC` as the locale code 0x656e4e5a, and no group is closed. */
  lemma RequestValues()
    ensures RequestTokens()[8] == UnionUnset("FPID")
    ensures RequestTokens()[9] == U32Field("LOC", 0x656e4e5a)
    ensures GroupEnds(RequestTokens()) == 0
  {
    GroupEndsNone(RequestTokens());
  }

  // ---------------------------------------------------------------------------
  // Round trips through the writer and the reader objects

  /** Encoding into a fresh writer and decoding the written stream gives back the details. */
  method DetailsThroughStream(d: InstanceDetails) returns (res: Res<InstanceDetails>)
    ensures res == Ok(d)
  {
    var w := new Writer();
    EncodeDetails(d, w);
    var r := new Reader(w.tokens);
    DetailsRoundTrip(r.tokens, 0, d);
    res := DecodeDetails(r);
  }

  /** A redirect to "10.0.0.5":42127 over a secure connection. */
  lemma AddressScenario()
    ensures NetFrom("10.0.0.5", 42127).host == Address(NetAddress(Ipv4.Addr(10, 0, 0, 5)))
    ensures var d := InstanceDetails(NetFrom("10.0.0.5", 42127), true);
      DetailsAt(DetailsTokens(d), 0).res == Ok(d)
  {
    var ip := Ipv4.Addr(10, 0, 0, 5);
    assert Ipv4.Parse("10.0.0.5") == Some(ip) by {
      Ipv4.ParseRender(ip);
      RenderExample();
    }
    var d := InstanceDetails(NetFrom("10.0.0.5", 42127), true);
    DetailsRoundTrip(DetailsTokens(d), 0, d);
  }

  lemma RenderExample()
    ensures Ipv4.Render(Ipv4.Addr(10, 0, 0, 5)) == "10.0.0.5"
  {
    assert Ipv4.OctetText(10) == "10";
    assert Ipv4.OctetText(0) == "0";
    assert Ipv4.OctetText(5) == "5";
  }

  /** A redirect to "relay.example.net":80 without a secure connection keeps the name. */
  lemma HostnameScenario()
    ensures NetFrom("relay.example.net", 80).host == Host("relay.example.net")
    ensures var d := InstanceDetails(NetFrom("relay.example.net", 80), false);
      DetailsAt(DetailsTokens(d), 0).res == Ok(d)
  {
    var d := InstanceDetails(NetFrom("relay.example.net", 80), false);
    assert Ipv4.LeadingDigits("relay.example.net") == 0;
    DetailsRoundTrip(DetailsTokens(d), 0, d);
  }
}
