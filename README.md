# PocketRelay redirector models in Dafny

This project models the data types that the PocketRelay redirector exchanges
with a game client (`src/models.rs`), and proves properties of that model.
The client sends a fixed `InstanceRequest` describing itself. The redirector
answers with `InstanceDetails`: which server to connect to (`InstanceNet`, a
host and a port) and whether that connection is secure.

Files:

- `basics.dfy` (module `Basics`) defines Rust's `u8`, `u16` and `u32` as
  bounded subset types. It also has `Option` and a lemma that Euclidean
  division is unique.
- `ipv4.dfy` (module `Ipv4`) stands in for `std::net::Ipv4Addr`. An address
  is four octets. It has the dotted-quad rendering used by `Display` and a
  strict dotted-quad parser. Proved: parsing a rendering gives the address
  back (`ParseRender`), and every accepted text is a rendering (`RenderParse`).
- `tdf.dfy` (module `Tdf`) is an abstract view of the tag-value codec.
  - The stream is a sequence of tokens, one per writer primitive.
  - `Writer` is a class whose token sequence each write extends.
  - `Reader` is a class holding the tokens and a position. Each read method
    is proved equal to a pure read function that returns the result and the
    new position (`Step`).
  - A tag read looks at the token at the position. If another tag stands
    there, the read fails with `MissingTag`. If the tag stands there with
    another kind of value, it fails with `InvalidTagType`. `try_tag` gives
    `None` for a missing tag.
- `models.dfy` (module `Models`) is the core:
  - `NetworkAddressType`, `NetAddress`, `InstanceHost`, `InstanceNet`,
    `InstanceDetails` and `InstanceRequest`.
  - Each `encode` is a method on a `Writer`. It is proved to append exactly
    the tokens of a specification function (`HostTokens`, `NetTokens`, …).
  - Each `decode` is a method on a `Reader`. It is proved to compute exactly
    what a specification function computes (`HostAt`, `NetAt`, `DetailsAt`).
    These functions return the result and the reader's position afterwards,
    with the same early returns on error.
  - Round-trip lemmas hold for any stream in which the encoded tokens stand
    at the reader's position, whatever surrounds them.

## Model

| member | source | states |
|---|---|---|
| Models.Value | src/models.rs:168-177 | The five named kinds map to bytes 0 to 4; only `Unknown` can give a larger byte. |
| Models.FromValue | src/models.rs:179-188 | `Value(FromValue(b)) == b` for every byte; the result is `Unknown` exactly when `b > 4`. |
| Models.FromValueOfValue | src/models.rs:168-188 | `FromValue(Value(t)) == t` for every kind except an `Unknown` carrying one of the codes 0 to 4. |
| Models.FromBeBytes | src/models.rs:212-213 | `u32::from_be_bytes` of the octets: the first octet is the most significant byte, the last the least. |
| Models.ToBeBytes | src/models.rs:220-222 | `u32::to_be_bytes` is a right inverse: `FromBeBytes(ToBeBytes(v)) == v`. |
| Models.BeBytesRoundTrip | src/models.rs:210-225 | The octets survive being packed into a `u32` and split again. |
| Models.DefaultNetAddress | src/models.rs:204-208 | The default address is loopback: its big-endian value is 0x7f000001. |
| Models.DefaultDisplay | src/models.rs:204-208 | The default address displays as "127.0.0.1". |
| Models.Display | src/models.rs:229-244 | The dotted-quad text of the address, used by both `Display` and `Debug`, parses back to the address. |
| Ipv4.ParseRender | src/models.rs:239-244 | Parsing the rendering of any address gives that address. |
| Ipv4.RenderParse | src/models.rs:81-89 | The parser accepts only canonical text: rendering a parsed address gives back the input. |
| Ipv4.LocalhostText | src/models.rs:204-208 | `Ipv4Addr::LOCALHOST` renders as "127.0.0.1". |
| Models.EncodeNetAddress | src/models.rs:210-216 | Appends one raw `u32` token holding the octets' big-endian value, and nothing else. |
| Models.DecodeNetAddress | src/models.rs:218-225 | Reads one raw `u32` and splits it into octets; an end of stream or a tagged token is an error. |
| Models.AddressRoundTrip | src/models.rs:210-225 | Decoding an encoded address gives the address back and consumes exactly its token. |
| Models.HostFrom | src/models.rs:81-89 | The result is an address exactly when the text parses as IPv4, and then it is the parsed address; otherwise it is the text unchanged, as a host name. |
| Models.HostToString | src/models.rs:93-100 | A host name converts to itself; an address converts to text that parses back to the address. |
| Models.HostStringRoundTrip | src/models.rs:81-100 | Text converted to a host and back is the same text, for every string. |
| Models.HostFromToString | src/models.rs:81-100 | A host converted to text and back is the same host exactly when it is an address or a name that does not parse as IPv4. |
| Models.EncodeHost | src/models.rs:102-109 | A host name appends one `HOST` string field; an address appends an `IP` value tag and the address. |
| Models.HostFields | src/models.rs:102-109 | Each variant writes exactly one field, `HOST` or `IP`, and closes no group. |
| Models.DecodeHost | src/models.rs:111-120 | Tries `HOST` first and returns the name when present; otherwise requires `IP` and reads an address; errors return early. |
| Models.HostRoundTrip | src/models.rs:102-120 | Decoding an encoded host gives the host back and consumes exactly its tokens. |
| Models.HostNeedsIp | src/models.rs:111-120 | When neither `HOST` nor `IP` stands at the position, decoding fails with a missing `IP` of varint type. |
| Models.NetFrom | src/models.rs:45-50 | The host is `HostFrom` of the text (an address exactly when the text parses as IPv4), it converts back to the same text, and the port is kept. |
| Models.EncodeNet | src/models.rs:52-58 | Appends the host's tokens, then a `PORT` field, then one group terminator. |
| Models.NetFraming | src/models.rs:52-58 | The net's fields are the host's field followed by `PORT`; exactly one group terminator is written, and it comes last, right after `PORT`. |
| Models.DecodeNet | src/models.rs:60-67 | Reads the host, then `PORT`, then one byte; errors return early. |
| Models.NetRoundTrip | src/models.rs:52-67 | Decoding an encoded net gives host and port back and consumes the terminator. |
| Models.NetNeedsGroupEnd | src/models.rs:60-67 | The terminator byte is required: when no group terminator follows `PORT`, decoding fails. |
| Models.EncodeDetails | src/models.rs:131-139 | Appends the `ADDR` union start with the `Server` discriminant, the `VALU` group tag, the net, `SECU` with the flag, and `XDNS` false. |
| Models.DetailsLayout | src/models.rs:131-139 | The first token opens `ADDR` with discriminant 0 and the last is `XDNS` false, for every input. |
| Models.DetailsFields | src/models.rs:131-139 | The fields are `ADDR`, `VALU`, the net's fields, `SECU`, `XDNS`, in that order; exactly one group is closed. |
| Models.DecodeAddrUnion | src/models.rs:143 | Reads the `ADDR` union: unset, or a discriminant, the payload's tag and a net. |
| Models.DecodeDetails | src/models.rs:141-155 | Reads the `ADDR` union and then `SECU`; an unset union is an error; errors return early. |
| Models.DetailsIgnoresXdns | src/models.rs:141-155 | Decoding reads only through `SECU`: the result and end position do not depend on anything after it, `XDNS` included. |
| Models.DetailsRoundTrip | src/models.rs:131-155 | Decoding encoded details gives net and flag back; the reader stops on the `XDNS` false token. |
| Models.DetailsUnsetFails | src/models.rs:143-150 | An unset `ADDR` union fails with `MissingTag` naming `ADDR` and the union type. |
| Models.DetailsThroughStream | src/models.rs:131-155 | Encoding into a fresh writer and decoding with a reader on the written tokens yields the same details. |
| Models.EncodeRequest | src/models.rs:20-35 | Appends the thirteen fields of the client description with the exact values written. |
| Models.RequestFields | src/models.rs:22-34 | The request has thirteen fields, tagged BSDK, BTIM, CLNT, CLTP, CSKU, CVER, DSDK, ENV, FPID, LOC, NAME, PLAT, PROF, in that order. |
| Models.RequestValues | src/models.rs:30-31 | `FPID` is an unset union, `LOC` is the `u32` 0x656e4e5a, and no group is closed. |
| Models.AddressScenario | src/models.rs:45-50 | "10.0.0.5" becomes the address 10.0.0.5, and details built on it survive a round trip. |
| Models.HostnameScenario | src/models.rs:45-50 | "relay.example.net" stays a host name, and details built on it survive a round trip. |

## Left out

- Byte-level encoding of the tag-value codec is not modelled: varints, string bytes, tag packing and the `value_type!` macro. That codec is a library outside `src/models.rs`, so each primitive write is one abstract token.
- Tag search is not modelled. A tagged read here looks only at the token at the reader's position, with no skipping of other fields.
- `read_byte` is exact only for group terminators. In the model it reads only a group terminator; on any other token it fails. A real reader would consume a byte and could lose its place in the stream.
- `TdfType` lists only the wire types the core uses (varint, string, group, union).
- Ipv4.Parse: the standard library parser is modelled by a strict dotted-quad parser. It takes exactly four decimal octets of at most 255, has no leading zeros, and allows nothing before or after. Other quirks of the standard parser are not reproduced. Because this parser rejects leading zeros, text does round-trip unchanged here. A parser that accepted them would instead return the canonical form.
- Models.Display: the `std::fmt` formatter machinery (padding, width, error propagation) is not modelled. Only the text that both `Debug` and `Display` produce is.
- Transport, TLS, sessions and the redirector service are not part of this model.
