/**
 The loops of mongo/operations.go: section append, the encoders that go through
 a list, and decodeMsg, each proved to compute the functions of MsgCodec and
 Operations.
 */
module CodecLoops {
  import opened Common
  import opened Keys
  import opened Wire
  import opened MsgCodec
  import O = Operations

  // Adding truncated lengths one by one truncates the sum.
  lemma TruncatedSum(a: int, b: int)
    ensures ToI32(ToI32(a) + ToI32(b)) == ToI32(a + b)
  {
    var k := (a + 0x8000_0000) / 0x1_0000_0000;
    var l := (b + 0x8000_0000) / 0x1_0000_0000;
    var n := a + b + 0x8000_0000;
    assert ToI32(a) == a - k * 0x1_0000_0000 && ToI32(b) == b - l * 0x1_0000_0000;
    ModShift(n, -(k + l));
  }

  lemma ModShift(n: int, q: int)
    ensures (n + q * 0x1_0000_0000) % 0x1_0000_0000 == n % 0x1_0000_0000
  {
  }

  // The length of a document sequence, summed up in an int32 that wraps.
  method SumLength(identifier: seq<byte>, docs: seq<seq<byte>>) returns (length: i32)
    ensures length == ToI32(SequenceLength(identifier, docs))
  {
    length := ToI32(|identifier| + 5);
    for i := 0 to |docs|
      invariant length == ToI32(|identifier| + 5 + |Concat(docs[..i])|)
    {
      ConcatAppend(docs[..i], docs[i]);
      assert docs[..i + 1] == docs[..i] + [docs[i]];
      TruncatedSum(|identifier| + 5 + |Concat(docs[..i])|, |docs[i]|);
      length := ToI32(length + ToI32(|docs[i]|));
    }
    assert docs[..|docs|] == docs;
  }

  // Appends documents to a buffer one by one.
  method AppendDocuments(buffer: seq<byte>, docs: seq<seq<byte>>) returns (b: seq<byte>)
    ensures b == buffer + Concat(docs)
  {
    b := buffer;
    for i := 0 to |docs|
      invariant b == buffer + Concat(docs[..i])
    {
      ConcatAppend(docs[..i], docs[i]);
      assert docs[..i + 1] == docs[..i] + [docs[i]];
      b := b + docs[i];
    }
    assert docs[..|docs|] == docs;
  }

  method AppendSection(buffer: seq<byte>, s: Section) returns (b: seq<byte>)
    ensures b == buffer + EncodeSection(s)
  {
    match s
    case Single(doc) =>
      b := buffer + [0];
      b := b + doc;
      assert b == buffer + ([0] + doc);
    case Sequence(identifier, docs) =>
      var length := SumLength(identifier, docs);
      b := AppendDocuments(buffer + [1] + AppendI32(length) + AppendCString(identifier), docs);
      Reassociate(buffer, [1], AppendI32(length), AppendCString(identifier), Concat(docs));
  }

  lemma Reassociate(a: seq<byte>, b: seq<byte>, c: seq<byte>, d: seq<byte>, e: seq<byte>)
    ensures a + b + c + d + e == a + (b + c + d + e)
  {
  }

  method EncodeMsg(m: MsgBody) returns (b: seq<byte>)
    ensures b == EncodeBody(m)
  {
    b := Word(m.flags);
    for i := 0 to |m.sections|
      invariant b == Word(m.flags) + Spread(EncodeSection, m.sections[..i])
    {
      SpreadAppend(EncodeSection, m.sections[..i], m.sections[i]);
      assert m.sections[..i + 1] == m.sections[..i] + [m.sections[i]];
      b := AppendSection(b, m.sections[i]);
    }
    assert m.sections[..|m.sections|] == m.sections;
    if m.flags % 2 == 1 {
      b := b + Word(m.checksum);
    } else {
      assert b + [] == b;
    }
  }

  // The result of decoding the rest put after what has been read already.
  function Prepend(ss: seq<Section>, p: Parsed): Parsed {
    if p.Malformed? then p else Parsed(ss + p.sections, p.checksum)
  }

  lemma PrependOne(ss: seq<Section>, wm: seq<byte>, checksumPresent: bool)
    requires wm != [] && !(checksumPresent && |wm| == 4)
    ensures var section := ReadSection(wm);
            Prepend(ss, DecodeSections(wm, checksumPresent)) ==
              if section.Bad? then Malformed
              else Prepend(ss + [section.value], DecodeSections(section.rest, checksumPresent))
  {
    var section := ReadSection(wm);
    if section.Got? {
      var p := DecodeSections(section.rest, checksumPresent);
      if p.Parsed? {
        assert (ss + [section.value]) + p.sections == ss + ([section.value] + p.sections);
      }
    }
  }

  // decodeMsg: flags, then sections until the bytes run out; exactly four bytes
  // left under the checksum flag are the checksum.
  method DecodeMsg(src: seq<byte>) returns (r: Result<MsgBody>)
    ensures r == DecodeBody(src)
  {
    if |src| < 4 {
      return Err;
    }
    var flags, wm := Unword(src), src[4..];
    var checksumPresent := flags % 2 == 1;
    var sections: seq<Section>, checksum: u32 := [], 0;
    ghost var whole := DecodeSections(wm, checksumPresent);
    ghost var found: Option<u32> := None;
    assert whole == Prepend([], whole);
    while |wm| > 0
      invariant found.None? ==> whole == Prepend(sections, DecodeSections(wm, checksumPresent)) && checksum == 0
      invariant found.Some? ==> wm == [] && whole == Parsed(sections, found) && checksum == found.value
      decreases |wm|
    {
      if checksumPresent && |wm| == 4 {
        assert sections + [] == sections;
        checksum, found := Unword(wm), Some(Unword(wm));
        wm := wm[4..];
        continue;
      }
      PrependOne(sections, wm, checksumPresent);
      match wm[0] {
        case 0 =>
          var doc := ReadDocument(wm[1..]);
          if doc.Bad? {
            return Err;
          }
          sections, wm := sections + [Single(doc.value)], doc.rest;
        case 1 =>
          var sequence := ReadSequence(wm[1..]);
          if sequence.Bad? {
            return Err;
          }
          sections, wm := sections + [sequence.value], sequence.rest;
        case _ =>
          return Err;
      }
    }
    assert sections + [] == sections;
    r := Ok(MsgBody(flags, sections, checksum));
  }

  // ------------------------------------------------ whole messages in a buffer

  // The header with its length still to come.
  function HeaderStart(responseTo: i32, opCode: i32): (h: seq<byte>)
    ensures |h| == 16
  {
    [0, 0, 0, 0] + AppendI32(0) + AppendI32(responseTo) + AppendI32(opCode)
  }

  // The last step of every encoder: the length goes into the first four bytes, from
  // where a reader gets it back, and everything after them stays.
  method UpdateLength(buffer: seq<byte>) returns (wm: seq<byte>)
    requires |buffer| >= 4
    ensures |wm| == |buffer| && wm[4..] == buffer[4..]
    ensures ReadI32(wm) == Got(ToI32(|buffer|), buffer[4..])
  {
    hide ToI32, AppendI32, ReadI32;
    ReadAppendI32(ToI32(|buffer|), buffer[4..]);
    wm := AppendI32(ToI32(|buffer|)) + buffer[4..];
  }

  // A buffer with its length in place is the header and the body.
  lemma Sealed(responseTo: i32, opCode: i32, body: seq<byte>, wm: seq<byte>)
    requires var buffer := HeaderStart(responseTo, opCode) + body;
             |wm| == |buffer| && wm[4..] == buffer[4..] && ReadI32(wm) == Got(ToI32(|buffer|), buffer[4..])
    ensures wm == O.Header(ToI32(16 + |body|), 0, responseTo, opCode) + body
  {
    hide AppendI32, ToI32, Unword;
    var buffer := HeaderStart(responseTo, opCode) + body;
    assert buffer[4..] == (AppendI32(0) + (AppendI32(responseTo) + AppendI32(opCode))) + body;
    LengthWord(wm);
    assert wm == wm[..4] + wm[4..];
  }

  method EncodeReply(flags: i32, id: i64, from: i32, n: i32, docs: seq<seq<byte>>,
                     responseTo: i32) returns (wm: seq<byte>)
    ensures wm == O.Encode(O.Reply(flags, id, from, n, docs), responseTo)
  {
    hide AppendI32, AppendI64, ToI32, ReadI32;
    var buffer := HeaderStart(responseTo, O.OP_REPLY) + AppendI32(flags) + AppendI64(id) + AppendI32(from) +
        AppendI32(n);
    buffer := AppendDocuments(buffer, docs);
    ghost var body := O.Body(O.Reply(flags, id, from, n, docs));
    assert buffer == HeaderStart(responseTo, O.OP_REPLY) + body;
    wm := UpdateLength(buffer);
    Sealed(responseTo, O.OP_REPLY, body, wm);
  }

  method EncodeInsert(flags: i32, coll: seq<byte>, docs: seq<seq<byte>>, responseTo: i32) returns (wm: seq<byte>)
    ensures wm == O.Encode(O.Insert(flags, coll, docs), responseTo)
  {
    hide AppendI32, ToI32, ReadI32;
    var buffer := HeaderStart(responseTo, O.OP_INSERT) + AppendI32(flags) + AppendCString(coll);
    buffer := AppendDocuments(buffer, docs);
    ghost var body := O.Body(O.Insert(flags, coll, docs));
    assert buffer == HeaderStart(responseTo, O.OP_INSERT) + body;
    wm := UpdateLength(buffer);
    Sealed(responseTo, O.OP_INSERT, body, wm);
  }

  method EncodeOpMsg(m: MsgBody, responseTo: i32) returns (wm: seq<byte>)
    ensures wm == O.Encode(O.Msg(m), responseTo)
  {
    hide AppendI32, ToI32, EncodeBody, ReadI32;
    var body := EncodeMsg(m);
    wm := UpdateLength(HeaderStart(responseTo, O.OP_MSG) + body);
    Sealed(responseTo, O.OP_MSG, body, wm);
  }
}
