/**
 * An abstract view of the tag-value ("TDF") codec the redirector's types are
 * written to and read from. The stream is a sequence of tokens, one per
 * primitive the writer offers; the byte-level encoding of each token is not
 * modelled. A tag read looks at the token at the reader's position only.
 */
module Tdf {
  import opened Basics

  /** Wire types of tagged values that the core uses. */
  datatype TdfType = VarIntType | StringType | GroupType | UnionType

  datatype Token =
    | StrField(tag: string, text: string)        // tag_str
    | U8Field(tag: string, byte: u8)             // tag_u8
    | U16Field(tag: string, short: u16)          // tag_u16
    | U32Field(tag: string, word: u32)           // tag_u32
    | BoolField(tag: string, flag: bool)         // tag_bool
    | ValueTag(tag: string, ty: TdfType)         // the tag that tag_value writes before the value
    | UnionStart(tag: string, key: u8)           // tag_union_start: tag and discriminant
    | UnionUnset(tag: string)                    // tag_union_unset
    | GroupEnd                                   // tag_group_end: the terminator byte
    | RawU32(raw: u32)                           // write_u32

  predicate HasTag(t: Token) { !t.GroupEnd? && !t.RawU32? }

  datatype DecodeError =
    | MissingTag(tag: string, ty: TdfType)       // the expected tag is not at the reader's position
    | InvalidTagType(tag: string, ty: TdfType)   // the tag is there but carries another kind of value
    | UnexpectedEof(at: nat)                     // a raw read past the end of the stream
    | UnexpectedToken(at: nat)                   // a raw read where a tagged token stands

  /** Rust's `DecodeResult<T>`. */
  datatype Res<T> = Ok(value: T) | Err(error: DecodeError)

  /** What a read produced and where the reader stands afterwards. */
  datatype Step<T> = Step(res: Res<T>, end: nat)

  /** A wire-level union: unset, or a discriminant byte and a tagged payload. */
  datatype Union<T> = Set(key: u8, tag: string, value: T) | Unset

  /** Tag names of the tagged tokens of `t`, in order. */
  function FieldTags(t: seq<Token>): seq<string>
  {
    if t == [] then [] else (if HasTag(t[0]) then [t[0].tag] else []) + FieldTags(t[1..])
  }

  /** Number of group terminators in `t`. */
  function GroupEnds(t: seq<Token>): nat
  {
    if t == [] then 0 else (if t[0].GroupEnd? then 1 else 0) + GroupEnds(t[1..])
  }

  lemma {:induction false} FieldTagsAppend(a: seq<Token>, b: seq<Token>)
    ensures FieldTags(a + b) == FieldTags(a) + FieldTags(b)
  {
    if a == [] {
      assert a + b == b;
    } else {
      assert (a + b)[1..] == a[1..] + b;
      FieldTagsAppend(a[1..], b);
    }
  }

  lemma {:induction false} GroupEndsAppend(a: seq<Token>, b: seq<Token>)
    ensures GroupEnds(a + b) == GroupEnds(a) + GroupEnds(b)
  {
    if a == [] {
      assert a + b == b;
    } else {
      assert (a + b)[1..] == a[1..] + b;
      GroupEndsAppend(a[1..], b);
    }
  }

  lemma {:induction false} FieldTagsAllTagged(t: seq<Token>)
    requires forall i :: 0 <= i < |t| ==> HasTag(t[i])
    ensures |FieldTags(t)| == |t|
    ensures forall i :: 0 <= i < |t| ==> HasTag(t[i]) && FieldTags(t)[i] == t[i].tag
  {
    if t != [] {
      FieldTagsAllTagged(t[1..]);
    }
  }

  lemma {:induction false} GroupEndsNone(t: seq<Token>)
    requires forall i :: 0 <= i < |t| ==> !t[i].GroupEnd?
    ensures GroupEnds(t) == 0
  {
    if t != [] {
      GroupEndsNone(t[1..]);
    }
  }

  /** The tokens `t` stand in `s` from position `p` on. */
  predicate Holds(s: seq<Token>, p: nat, t: seq<Token>)
  {
    p + |t| <= |s| && forall i :: 0 <= i < |t| ==> s[p + i] == t[i]
  }

  lemma HoldsSplit(s: seq<Token>, p: nat, a: seq<Token>, b: seq<Token>)
    requires Holds(s, p, a + b)
    ensures Holds(s, p, a) && Holds(s, p + |a|, b)
  {
    forall i | 0 <= i < |a| ensures s[p + i] == a[i] {
      assert (a + b)[i] == a[i];
    }
    forall i | 0 <= i < |b| ensures s[p + |a| + i] == b[i] {
      assert (a + b)[|a| + i] == b[i];
    }
  }

  lemma HoldsAt(s: seq<Token>, p: nat, t: seq<Token>, i: nat)
    requires Holds(s, p, t) && i < |t|
    ensures s[p + i] == t[i]
  {
  }

  // Reads of one token. A tagged read fails with MissingTag when another tag
  // (or nothing) stands at the position and with InvalidTagType when the tag
  // carries another kind of value; a failed read does not move the position.

  predicate TagAt(s: seq<Token>, p: nat, tag: string)
  {
    p < |s| && HasTag(s[p]) && s[p].tag == tag
  }

  /** `try_tag`: an absent tag is `None`, not an error. */
  function TryReadStr(s: seq<Token>, p: nat, tag: string): Step<Option<string>>
  {
    if !TagAt(s, p, tag) then Step(Ok(None), p)
    else if s[p].StrField? then Step(Ok(Some(s[p].text)), p + 1)
    else Step(Err(InvalidTagType(tag, StringType)), p)
  }

  function ReadU16(s: seq<Token>, p: nat, tag: string): Step<u16>
  {
    if !TagAt(s, p, tag) then Step(Err(MissingTag(tag, VarIntType)), p)
    else if s[p].U16Field? then Step(Ok(s[p].short), p + 1)
    else Step(Err(InvalidTagType(tag, VarIntType)), p)
  }

  function ReadBool(s: seq<Token>, p: nat, tag: string): Step<bool>
  {
    if !TagAt(s, p, tag) then Step(Err(MissingTag(tag, VarIntType)), p)
    else if s[p].BoolField? then Step(Ok(s[p].flag), p + 1)
    else Step(Err(InvalidTagType(tag, VarIntType)), p)
  }

  /** The tag in front of a value of type `ty`; the value itself is read next. */
  function ReadValueTag(s: seq<Token>, p: nat, tag: string, ty: TdfType): Step<()>
  {
    if !TagAt(s, p, tag) then Step(Err(MissingTag(tag, ty)), p)
    else if s[p] == ValueTag(tag, ty) then Step(Ok(()), p + 1)
    else Step(Err(InvalidTagType(tag, ty)), p)
  }

  /** The head of a union: `Some(discriminant)` when set, `None` when unset. */
  function ReadUnionHead(s: seq<Token>, p: nat, tag: string): Step<Option<u8>>
  {
    if !TagAt(s, p, tag) then Step(Err(MissingTag(tag, UnionType)), p)
    else if s[p].UnionStart? then Step(Ok(Some(s[p].key)), p + 1)
    else if s[p].UnionUnset? then Step(Ok(None), p + 1)
    else Step(Err(InvalidTagType(tag, UnionType)), p)
  }

  /** Any value tag, whatever its name (a union payload's tag); returns the name. */
  function ReadAnyTag(s: seq<Token>, p: nat): Step<string>
  {
    if p >= |s| then Step(Err(UnexpectedEof(p)), p)
    else if s[p].ValueTag? then Step(Ok(s[p].tag), p + 1)
    else Step(Err(UnexpectedToken(p)), p)
  }

  function ReadRawU32(s: seq<Token>, p: nat): Step<u32>
  {
    if p >= |s| then Step(Err(UnexpectedEof(p)), p)
    else if s[p].RawU32? then Step(Ok(s[p].raw), p + 1)
    else Step(Err(UnexpectedToken(p)), p)
  }

  /** One raw byte; the only one-byte token is the group terminator, byte 0. */
  function ReadRawByte(s: seq<Token>, p: nat): Step<u8>
  {
    if p >= |s| then Step(Err(UnexpectedEof(p)), p)
    else if s[p].GroupEnd? then Step(Ok(0), p + 1)
    else Step(Err(UnexpectedToken(p)), p)
  }

  /** `TdfWriter`: every write appends one token. */
  class Writer {
    var tokens: seq<Token>

    constructor ()
      ensures tokens == []
    {
      tokens := [];
    }

    method TagStr(tag: string, text: string)
      modifies this
      ensures tokens == old(tokens) + [StrField(tag, text)]
    {
      tokens := tokens + [StrField(tag, text)];
    }

    method TagU8(tag: string, v: u8)
      modifies this
      ensures tokens == old(tokens) + [U8Field(tag, v)]
    {
      tokens := tokens + [U8Field(tag, v)];
    }

    method TagU16(tag: string, v: u16)
      modifies this
      ensures tokens == old(tokens) + [U16Field(tag, v)]
    {
      tokens := tokens + [U16Field(tag, v)];
    }

    method TagU32(tag: string, v: u32)
      modifies this
      ensures tokens == old(tokens) + [U32Field(tag, v)]
    {
      tokens := tokens + [U32Field(tag, v)];
    }

    method TagBool(tag: string, b: bool)
      modifies this
      ensures tokens == old(tokens) + [BoolField(tag, b)]
    {
      tokens := tokens + [BoolField(tag, b)];
    }

    /** The tag `tag_value` writes before handing over to the value's own encoder. */
    method Tag(tag: string, ty: TdfType)
      modifies this
      ensures tokens == old(tokens) + [ValueTag(tag, ty)]
    {
      tokens := tokens + [ValueTag(tag, ty)];
    }

    method TagUnionStart(tag: string, key: u8)
      modifies this
      ensures tokens == old(tokens) + [UnionStart(tag, key)]
    {
      tokens := tokens + [UnionStart(tag, key)];
    }

    method TagUnionUnset(tag: string)
      modifies this
      ensures tokens == old(tokens) + [UnionUnset(tag)]
    {
      tokens := tokens + [UnionUnset(tag)];
    }

    method TagGroupEnd()
      modifies this
      ensures tokens == old(tokens) + [GroupEnd]
    {
      tokens := tokens + [GroupEnd];
    }

    method WriteU32(v: u32)
      modifies this
      ensures tokens == old(tokens) + [RawU32(v)]
    {
      tokens := tokens + [RawU32(v)];
    }
  }

  /** `TdfReader`: a token stream and a position that each read advances. */
  class Reader {
    const tokens: seq<Token>
    var pos: nat

    constructor (tokens: seq<Token>)
      ensures this.tokens == tokens && pos == 0
    {
      this.tokens := tokens;
      pos := 0;
    }

    method TryTagStr(tag: string) returns (r: Res<Option<string>>)
      modifies this
      ensures Step(r, pos) == TryReadStr(tokens, old(pos), tag)
    {
      var st := TryReadStr(tokens, pos, tag);
      r, pos := st.res, st.end;
    }

    method TagU16(tag: string) returns (r: Res<u16>)
      modifies this
      ensures Step(r, pos) == ReadU16(tokens, old(pos), tag)
    {
      var st := ReadU16(tokens, pos, tag);
      r, pos := st.res, st.end;
    }

    method TagBool(tag: string) returns (r: Res<bool>)
      modifies this
      ensures Step(r, pos) == ReadBool(tokens, old(pos), tag)
    {
      var st := ReadBool(tokens, pos, tag);
      r, pos := st.res, st.end;
    }

    method Tag(tag: string, ty: TdfType) returns (r: Res<()>)
      modifies this
      ensures Step(r, pos) == ReadValueTag(tokens, old(pos), tag, ty)
    {
      var st := ReadValueTag(tokens, pos, tag, ty);
      r, pos := st.res, st.end;
    }

    method UnionHead(tag: string) returns (r: Res<Option<u8>>)
      modifies this
      ensures Step(r, pos) == ReadUnionHead(tokens, old(pos), tag)
    {
      var st := ReadUnionHead(tokens, pos, tag);
      r, pos := st.res, st.end;
    }

    method AnyTag() returns (r: Res<string>)
      modifies this
      ensures Step(r, pos) == ReadAnyTag(tokens, old(pos))
    {
      var st := ReadAnyTag(tokens, pos);
      r, pos := st.res, st.end;
    }

    method ReadU32() returns (r: Res<u32>)
      modifies this
      ensures Step(r, pos) == ReadRawU32(tokens, old(pos))
    {
      var st := ReadRawU32(tokens, pos);
      r, pos := st.res, st.end;
    }

    method ReadByte() returns (r: Res<u8>)
      modifies this
      ensures Step(r, pos) == ReadRawByte(tokens, old(pos))
    {
      var st := ReadRawByte(tokens, pos);
      r, pos := st.res, st.end;
    }
  }
}
