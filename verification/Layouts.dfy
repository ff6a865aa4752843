/**
 The layouts of the MongoDB Wire Protocol, byte by byte: where the words of each
 message lie, which way round their bytes are, and which numbers stand for which
 operation. Nothing here is told through the codec's own word functions or
 constants; everything is proved of them.
 */
module Layouts {
  import opened Common
  import opened Keys
  import opened Wire
  import opened MsgCodec
  import opened Operations

  // -------------------------------------------------------------------- words

  // Four digits to the base 256, the lowest first.
  function Base256(a: int, b: int, c: int, d: int): int {
    a + 256 * b + 65536 * c + 16777216 * d
  }

  // A little-endian 32-bit word without a sign.
  function Nat32(w: seq<byte>): u32
    requires |w| == 4
  {
    Base256(w[0], w[1], w[2], w[3])
  }

  // A little-endian 32-bit word in two's complement.
  function Int32(w: seq<byte>): i32
    requires |w| == 4
  {
    var u: int := Nat32(w);
    if u < 2147483648 then u else u - 4294967296
  }

  // A little-endian 64-bit word in two's complement.
  function Int64(w: seq<byte>): i64
    requires |w| == 8
  {
    var u: int := Base256(w[0], w[1], w[2], w[3]) + 4294967296 * Base256(w[4], w[5], w[6], w[7]);
    if u < 9223372036854775808 then u else u - 18446744073709551616
  }

  lemma WordIs(w: seq<byte>)
    requires |w| == 4
    ensures AppendI32(Int32(w)) == w && Signed(Unword(w)) == Int32(w) && Unword(w) == Nat32(w)
  {
    LengthWord(w);
  }

  lemma LongIs(w: seq<byte>)
    requires |w| == 8
    ensures AppendI64(Int64(w)) == w
  {
    hide Word, Base256;
    var lo: int := Base256(w[0], w[1], w[2], w[3]);
    var hi: int := Base256(w[4], w[5], w[6], w[7]);
    WordOf(w[..4]);
    WordOf(w[4..]);
    TwoWords(lo, hi);
    assert w == w[..4] + w[4..];
  }

  lemma TwoWords(lo: u32, hi: u32)
    ensures var u: int := lo as int + 4294967296 * hi as int;
            u % 0x1_0000_0000 == lo && u / 0x1_0000_0000 == hi && 0 <= u < 18446744073709551616
  {
  }

  lemma WordOf(w: seq<byte>)
    requires |w| == 4
    ensures Word(Nat32(w)) == w
  {
    WordUnword(w);
  }

  // The first four bytes of a document are its length.
  predicate Doc(d: seq<byte>) {
    |d| >= 4 && Int32(d[..4]) == |d|
  }

  lemma DocIs(d: seq<byte>)
    ensures Doc(d) <==> IsDocument(d)
  {
    if |d| >= 4 {
      WordIs(d[..4]);
      assert Unword(d[..4]) == Unword(d);
    }
  }

  lemma DocsAre(docs: seq<seq<byte>>)
    requires forall i :: 0 <= i < |docs| ==> Doc(docs[i])
    ensures AllDocuments(docs)
  {
    forall i | 0 <= i < |docs| ensures IsDocument(docs[i]) { DocIs(docs[i]); }
  }

  // ------------------------------------------------------------------ opcodes

  // The opcode words as they are on the wire.
  function OpBytes(op: Operation): seq<byte>
    requires !op.Unknown?
  {
    match op
    case Reply(_, _, _, _, _) => [1, 0, 0, 0]
    case Update(_, _, _, _) => [209, 7, 0, 0]
    case Insert(_, _, _) => [210, 7, 0, 0]
    case Query(_, _, _, _, _, _) => [212, 7, 0, 0]
    case GetMore(_, _, _) => [213, 7, 0, 0]
    case Delete(_, _, _) => [214, 7, 0, 0]
    case KillCursors(_) => [215, 7, 0, 0]
    case Msg(_) => [221, 7, 0, 0]
  }

  lemma OpBytesAre(op: Operation)
    requires !op.Unknown?
    ensures AppendI32(OpCode(op)) == OpBytes(op) && Int32(OpBytes(op)) == OpCode(op)
  {
    hide AppendI32;
    WordIs(OpBytes(op));
  }

  lemma HeaderParts(length: i32, reqId: i32, responseTo: i32, opCode: i32, body: seq<byte>)
    ensures var wm := Header(length, reqId, responseTo, opCode) + body;
            && |wm| == 16 + |body|
            && wm[..4] == AppendI32(length) && wm[4..8] == AppendI32(reqId) && wm[8..12] == AppendI32(responseTo)
            && wm[12..16] == AppendI32(opCode) && wm[16..] == body
  {
    hide AppendI32;
  }

  lemma WordBack(x: i32)
    ensures Int32(AppendI32(x)) == x
  {
    hide AppendI32;
    ReadAppendI32(x, []);
    assert AppendI32(x) + [] == AppendI32(x);
    WordIs(AppendI32(x));
  }

  /**
   An encoded message: its length in bytes 0 to 3 as far as a word can hold it,
   zero for the request id, the id it responds to in bytes 8 to 11, the opcode of
   its operation in bytes 12 to 15, and then the body.
   */
  lemma HeaderLayout(op: Operation, responseTo: i32)
    requires !op.Unknown?
    ensures var wm := Encode(op, responseTo);
            && |wm| == 16 + |Body(op)|
            && (|wm| < 2147483648 ==> Int32(wm[..4]) == |wm|)
            && wm[4..8] == [0, 0, 0, 0] && Int32(wm[8..12]) == responseTo
            && wm[12..16] == OpBytes(op) && wm[16..] == Body(op)
  {
    hide AppendI32, Body, ToI32, Header, Int32;
    var n := 16 + |Body(op)|;
    HeaderParts(ToI32(n), 0, responseTo, OpCode(op), Body(op));
    WordBack(ToI32(n));
    WordBack(responseTo);
    OpBytesAre(op);
    SmallWords();
    TruncatedCount(n);
  }

  // What an opcode leads to.
  predicate Dispatched(opCode: i32, op: Operation) {
    && (op.Reply? <==> opCode == 1) && (op.Update? <==> opCode == 2001) && (op.Insert? <==> opCode == 2002)
    && (op.Query? <==> opCode == 2004) && (op.GetMore? <==> opCode == 2005) && (op.Delete? <==> opCode == 2006)
    && (op.KillCursors? <==> opCode == 2007) && (op.Msg? <==> opCode == 2013)
  }

  lemma DecodersAre(body: seq<byte>)
    ensures DecodeReply(body).Got? ==> DecodeReply(body).value.Reply?
    ensures DecodeUpdate(body).Got? ==> DecodeUpdate(body).value.Update?
    ensures DecodeInsert(body).Got? ==> DecodeInsert(body).value.Insert?
    ensures DecodeQuery(body).Got? ==> DecodeQuery(body).value.Query?
    ensures DecodeGetMore(body).Got? ==> DecodeGetMore(body).value.GetMore?
    ensures DecodeDelete(body).Got? ==> DecodeDelete(body).value.Delete?
    ensures DecodeKillCursors(body).Got? ==> DecodeKillCursors(body).value.KillCursors?
  {
    hide ReadI32, ReadI64, ReadCString, ReadDocument, ReadDocuments, ReadIds;
  }

  lemma OpIsDispatched(opCode: i32, body: seq<byte>, wm: seq<byte>)
    requires DecodeOp(opCode, body, wm).Ok?
    ensures Dispatched(opCode, DecodeOp(opCode, body, wm).value)
    ensures var op := DecodeOp(opCode, body, wm).value; op.Unknown? ==> op.wm == wm && op.opCode == opCode
  {
    hide DecodeReply, DecodeUpdate, DecodeInsert, DecodeQuery, DecodeGetMore, DecodeDelete, DecodeKillCursors,
         DecodeBody;
    DecodersAre(body);
  }

  lemma CodeIs(code: seq<byte>, want: seq<byte>, opCode: i32)
    requires |code| == |want| == 4 && Int32(want) == opCode
    ensures Int32(code) == opCode <==> code == want
  {
    hide AppendI32, Int32;
    WordIs(code);
    WordIs(want);
  }

  /**
   Dispatch on the bytes of the wire: an accepted message is read as the operation
   whose opcode is in bytes 12 to 15, as unknown with any other opcode, and its
   request id is the word in bytes 4 to 7.
   */
  lemma DispatchOnBytes(wm: seq<byte>)
    requires Decode(wm).Ok?
    ensures |wm| >= 16 && Int32(wm[..4]) <= |wm|
    ensures var op, code := Decode(wm).value.op, wm[12..16];
            && (if op.Unknown? then op.wm == wm && op.opCode == Int32(code) else code == OpBytes(op))
            && (op.Unknown? <==>
                  code !in {[1, 0, 0, 0], [209, 7, 0, 0], [210, 7, 0, 0], [212, 7, 0, 0], [213, 7, 0, 0],
                      [214, 7, 0, 0], [215, 7, 0, 0], [221, 7, 0, 0]})
    ensures Decode(wm).value.reqId == Int32(wm[4..8])
  {
    hide DecodeOp, Int32, Signed, Unword;
    WordAt(wm, 0);
    WordAt(wm, 4);
    WordAt(wm, 12);
    var op, code := Decode(wm).value.op, wm[12..16];
    OpIsDispatched(Int32(code), wm[16..], wm);
    CodesAre(code);
  }

  // A message with an opcode the proxy does not know is accepted whenever it is long
  // enough for its header and for the length in it.
  lemma UnknownAccepted(wm: seq<byte>)
    requires |wm| >= 16 && Int32(wm[..4]) <= |wm|
    requires wm[12..16] !in {[1, 0, 0, 0], [209, 7, 0, 0], [210, 7, 0, 0], [212, 7, 0, 0], [213, 7, 0, 0],
                 [214, 7, 0, 0], [215, 7, 0, 0], [221, 7, 0, 0]}
    ensures Decode(wm) == Ok(Message(Int32(wm[4..8]), Unknown(Int32(wm[12..16]), wm)))
  {
    hide Int32, Signed, Unword;
    WordAt(wm, 0);
    WordAt(wm, 4);
    WordAt(wm, 12);
    CodesAre(wm[12..16]);
  }

  lemma WordAt(wm: seq<byte>, i: nat)
    requires i + 4 <= |wm|
    ensures Signed(Unword(wm[i..])) == Int32(wm[i..i + 4])
  {
    WordIs(wm[i..i + 4]);
    assert Unword(wm[i..]) == Unword(wm[i..i + 4]);
  }

  lemma CodesAre(code: seq<byte>)
    requires |code| == 4
    ensures Int32(code) == 1 <==> code == [1, 0, 0, 0]
    ensures Int32(code) == 2001 <==> code == [209, 7, 0, 0]
    ensures Int32(code) == 2002 <==> code == [210, 7, 0, 0]
    ensures Int32(code) == 2004 <==> code == [212, 7, 0, 0]
    ensures Int32(code) == 2005 <==> code == [213, 7, 0, 0]
    ensures Int32(code) == 2006 <==> code == [214, 7, 0, 0]
    ensures Int32(code) == 2007 <==> code == [215, 7, 0, 0]
    ensures Int32(code) == 2013 <==> code == [221, 7, 0, 0]
  {
    CodeIs(code, [1, 0, 0, 0], 1);
    CodeIs(code, [209, 7, 0, 0], 2001);
    CodeIs(code, [210, 7, 0, 0], 2002);
    CodeIs(code, [212, 7, 0, 0], 2004);
    CodeIs(code, [213, 7, 0, 0], 2005);
    CodeIs(code, [214, 7, 0, 0], 2006);
    CodeIs(code, [215, 7, 0, 0], 2007);
    CodeIs(code, [221, 7, 0, 0], 2013);
  }

  // ------------------------------------------------------------------- bodies

  // Each layout: the bytes are read as these fields, and these fields are written
  // as the bytes.
  predicate LaidOut(bytes: seq<byte>, op: Operation, read: Read<Operation>) {
    read == Got(op, []) && Body(op) == bytes
  }

  // OP_QUERY: flags, name, number to skip, number to return, query, selector.
  lemma QueryLayout(flags: seq<byte>, coll: seq<byte>, skip: seq<byte>, n: seq<byte>, query: seq<byte>,
                    selector: seq<byte>)
    requires |flags| == |skip| == |n| == 4 && NulFree(coll) && Doc(query) && (selector == [] || Doc(selector))
    ensures var bytes := flags + ((coll + [0]) + (skip + (n + (query + selector))));
            LaidOut(bytes, Query(Int32(flags), coll, Int32(skip), Int32(n), query, selector), DecodeQuery(bytes))
  {
    hide AppendI32, Int32, DecodeQuery, IsDocument;
    WordIs(flags);
    WordIs(skip);
    WordIs(n);
    DocIs(query);
    DocIs(selector);
    QueryRoundTrip(Query(Int32(flags), coll, Int32(skip), Int32(n), query, selector));
  }

  // OP_REPLY: flags, cursor id, starting point, number returned, documents.
  lemma ReplyLayout(flags: seq<byte>, id: seq<byte>, start: seq<byte>, n: seq<byte>, docs: seq<seq<byte>>)
    requires |flags| == |start| == |n| == 4 && |id| == 8 && forall i :: 0 <= i < |docs| ==> Doc(docs[i])
    ensures var bytes := flags + (id + (start + (n + Concat(docs))));
            LaidOut(bytes, Reply(Int32(flags), Int64(id), Int32(start), Int32(n), docs), DecodeReply(bytes))
  {
    hide AppendI32, AppendI64, Int32, Int64, DecodeReply, Concat, AllDocuments, IsDocument;
    WordIs(flags);
    LongIs(id);
    WordIs(start);
    WordIs(n);
    DocsAre(docs);
    ReplyRoundTrip(Reply(Int32(flags), Int64(id), Int32(start), Int32(n), docs));
  }

  // OP_GET_MORE: a zero word, name, number to return, cursor id.
  lemma GetMoreLayout(coll: seq<byte>, n: seq<byte>, id: seq<byte>)
    requires |n| == 4 && |id| == 8 && NulFree(coll)
    ensures var bytes := [0, 0, 0, 0] + ((coll + [0]) + (n + id));
            LaidOut(bytes, GetMore(coll, Int32(n), Int64(id)), DecodeGetMore(bytes))
  {
    hide AppendI32, AppendI64, Int32, Int64, DecodeGetMore;
    SmallWords();
    WordIs(n);
    LongIs(id);
    GetMoreRoundTrip(GetMore(coll, Int32(n), Int64(id)));
  }

  // OP_UPDATE as this proxy has it: name, flags, selector, update, and no zero word.
  lemma UpdateLayout(coll: seq<byte>, flags: seq<byte>, selector: seq<byte>, update: seq<byte>)
    requires |flags| == 4 && NulFree(coll) && Doc(selector) && Doc(update)
    ensures var bytes := (coll + [0]) + (flags + (selector + update));
            LaidOut(bytes, Update(coll, Int32(flags), selector, update), DecodeUpdate(bytes))
  {
    hide AppendI32, Int32, DecodeUpdate, IsDocument;
    WordIs(flags);
    DocIs(selector);
    DocIs(update);
    UpdateRoundTrip(Update(coll, Int32(flags), selector, update));
  }

  // OP_INSERT: flags, name, documents.
  lemma InsertLayout(flags: seq<byte>, coll: seq<byte>, docs: seq<seq<byte>>)
    requires |flags| == 4 && NulFree(coll) && forall i :: 0 <= i < |docs| ==> Doc(docs[i])
    ensures var bytes := flags + ((coll + [0]) + Concat(docs));
            LaidOut(bytes, Insert(Int32(flags), coll, docs), DecodeInsert(bytes))
  {
    hide AppendI32, Int32, DecodeInsert, Body, AllDocuments, Concat;
    DocsAre(docs);
    InsertBody(flags, coll, docs);
    InsertRoundTrip(Insert(Int32(flags), coll, docs));
  }

  lemma InsertBody(flags: seq<byte>, coll: seq<byte>, docs: seq<seq<byte>>)
    requires |flags| == 4
    ensures Body(Insert(Int32(flags), coll, docs)) == flags + ((coll + [0]) + Concat(docs))
  {
    hide AppendI32, Int32, Concat;
    WordIs(flags);
  }

  // OP_DELETE: read with a word in front, written without one.
  lemma DeleteLayout(zero: seq<byte>, coll: seq<byte>, flags: seq<byte>, selector: seq<byte>)
    requires |zero| == |flags| == 4 && NulFree(coll) && Doc(selector)
    ensures var bytes := (coll + [0]) + (flags + selector);
            var op := Delete(coll, Int32(flags), selector);
            DecodeDelete(zero + bytes) == Got(op, []) && Body(op) == bytes
  {
    hide AppendI32, Int32, DecodeDelete, IsDocument;
    WordIs(zero);
    WordIs(flags);
    DocIs(selector);
    StandardDeleteDecodes(Int32(zero), coll, Int32(flags), selector);
  }

  // OP_KILL_CURSORS: a zero word, the number of cursors, their ids.
  lemma KillCursorsLayout(n: seq<byte>, words: seq<seq<byte>>, ids: seq<i64>)
    requires |n| == 4 && Int32(n) == |ids| == |words|
    requires forall i :: 0 <= i < |ids| ==> |words[i]| == 8 && Int64(words[i]) == ids[i]
    ensures var bytes := [0, 0, 0, 0] + (n + Concat(words));
            LaidOut(bytes, KillCursors(ids), DecodeKillCursors(bytes))
  {
    hide AppendI32, AppendI64, Int32, Int64, DecodeKillCursors, ToI32, Spread, Concat;
    SmallWords();
    WordIs(n);
    TruncatedCount(|ids|);
    IdsAre(words, ids);
    KillCursorsRoundTrip(ids);
  }

  lemma {:induction false} IdsAre(words: seq<seq<byte>>, ids: seq<i64>)
    requires |words| == |ids| && forall i :: 0 <= i < |ids| ==> |words[i]| == 8 && Int64(words[i]) == ids[i]
    ensures Spread(AppendI64, ids) == Concat(words)
  {
    hide AppendI64, Int64;
    if ids != [] {
      LongIs(words[0]);
      IdsAre(words[1..], ids[1..]);
    }
  }

  // ------------------------------------------------------------------- OP_MSG

  // The bytes of a section: a zero and the document, or a one, the length of what
  // follows with the word itself, the identifier and the documents.
  predicate SectionBytes(s: Section, bytes: seq<byte>) {
    match s
    case Single(doc) => Doc(doc) && bytes == [0] + doc
    case Sequence(identifier, docs) =>
      && |bytes| >= 5 && NulFree(identifier) && (forall i :: 0 <= i < |docs| ==> Doc(docs[i]))
      && Int32(bytes[1..5]) == |bytes| - 1
      && bytes == [1] + (bytes[1..5] + ((identifier + [0]) + Concat(docs)))
  }

  lemma SectionLayout(s: Section, bytes: seq<byte>)
    requires SectionBytes(s, bytes)
    ensures WellFormed(s) && EncodeSection(s) == bytes
  {
    hide AppendI32, Int32, IsDocument, ToI32;
    match s
    case Single(doc) => DocIs(doc);
    case Sequence(identifier, docs) =>
      var word := bytes[1..5];
      WordIs(word);
      DocsAre(docs);
      assert |bytes| == 1 + (4 + ((|identifier| + 1) + |Concat(docs)|));
      SequenceBytes(identifier, docs, Int32(word));
  }

  /**
   OP_MSG: the flags, the sections one after the other, and, if the lowest bit of
   the flags is set, the checksum in the last four bytes. Such bytes are read as
   these sections, and written back the same.
   */
  lemma MsgLayout(flags: seq<byte>, sections: seq<Section>, parts: seq<seq<byte>>, checksum: seq<byte>)
    requires |flags| == 4 && |checksum| == (if flags[0] % 2 == 1 then 4 else 0)
    requires |parts| == |sections| && forall i :: 0 <= i < |sections| ==> SectionBytes(sections[i], parts[i])
    ensures var bytes := flags + (Concat(parts) + checksum);
            var m := MsgBody(Nat32(flags), sections, if checksum == [] then 0 else Nat32(checksum));
            DecodeBody(bytes) == Ok(m) && EncodeBody(m) == bytes
  {
    hide SectionBytes, WellFormed, DecodeBody, EncodeSections, Concat, Word, Nat32, ChecksumFlag;
    var m := MsgBody(Nat32(flags), sections, if checksum == [] then 0 else Nat32(checksum));
    SectionsLaidOut(sections, parts);
    WordOf(flags);
    if checksum != [] { WordOf(checksum); }
    FlagIsLowest(flags);
    assert EncodeBody(m) == flags + Concat(parts) + checksum;
    Reassociate(flags, Concat(parts), checksum);
    assert Announced(m) == m;
    WellFormedDecodes(m);
  }

  lemma Reassociate(a: seq<byte>, b: seq<byte>, c: seq<byte>)
    ensures a + b + c == a + (b + c)
  {
  }

  lemma FlagIsLowest(flags: seq<byte>)
    requires |flags| == 4
    ensures ChecksumFlag(Nat32(flags)) <==> flags[0] % 2 == 1
  {
    Parity(flags[0], flags[1], flags[2], flags[3]);
  }

  lemma Parity(a: int, b: int, c: int, d: int)
    ensures Base256(a, b, c, d) % 2 == a % 2
  {
    assert Base256(a, b, c, d) == a + 2 * (128 * b + 32768 * c + 8388608 * d);
  }

  lemma {:induction false} SectionsLaidOut(sections: seq<Section>, parts: seq<seq<byte>>)
    requires |parts| == |sections| && forall i :: 0 <= i < |sections| ==> SectionBytes(sections[i], parts[i])
    ensures AllWellFormed(sections) && EncodeSections(sections) == Concat(parts)
  {
    hide SectionBytes, WellFormed, EncodeSection;
    if sections != [] {
      SectionLayout(sections[0], parts[0]);
      SectionsLaidOut(sections[1..], parts[1..]);
      forall i | 0 <= i < |sections| ensures WellFormed(sections[i]) {
        assert i > 0 ==> sections[i] == sections[1..][i - 1];
      }
    }
  }

  // --------------------------------------------------------- what is accepted

  // The position of the first zero byte, or the length if there is none.
  function Nul(src: seq<byte>): (i: nat)
    ensures i <= |src| && (i < |src| ==> src[i] == 0) && forall j :: 0 <= j < i ==> src[j] != 0
  {
    if src == [] || src[0] == 0 then 0
    else
      var i := Nul(src[1..]);
      assert forall j :: 1 <= j < i + 1 ==> src[j] == src[1..][j - 1];
      i + 1
  }

  lemma {:induction false} NameIs(src: seq<byte>)
    ensures ReadCString(src) == if Nul(src) < |src| then Got(src[..Nul(src)], src[Nul(src) + 1..]) else Bad
  {
    if src != [] && src[0] != 0 {
      NameIs(src[1..]);
      var i := Nul(src[1..]);
      if i < |src[1..]| {
        assert [src[0]] + src[1..][..i] == src[..i + 1] && src[1..][i + 1..] == src[i + 2..];
      }
    }
  }

  // Enough bytes for a document of the length that they begin with.
  predicate DocAhead(src: seq<byte>) {
    |src| >= 4 && 4 <= Int32(src[..4]) <= |src|
  }

  lemma DocAheadIs(src: seq<byte>)
    ensures ReadDocument(src) ==
            if DocAhead(src) then Got(src[..Int32(src[..4])], src[Int32(src[..4])..]) else Bad
  {
    hide Int32, Unword, Signed;
    if |src| >= 4 { WordAt(src, 0); }
  }

  /**
   Exactly which bodies of the operations without documents, or with a list of them,
   are accepted: a reply of at least its twenty fixed bytes, whatever follows; an
   insert with flags and a name that ends; a getMore with twelve bytes after its name;
   a killCursors with as many ids as it counts, any count below one being none.
   */
  lemma ListsAccepted(src: seq<byte>)
    ensures DecodeReply(src).Got? <==> |src| >= 20
    ensures DecodeInsert(src).Got? <==> |src| >= 4 && Nul(src[4..]) < |src| - 4
    ensures DecodeGetMore(src).Got? <==>
              |src| >= 4 && Nul(src[4..]) < |src| - 4 && |src| >= 4 + Nul(src[4..]) + 1 + 12
    ensures DecodeKillCursors(src).Got? <==>
              |src| >= 8 && (Int32(src[4..8]) <= 0 || |src| >= 8 + 8 * Int32(src[4..8]))
  {
    hide Int32, Unword, Signed, ReadDocuments, ReadIds, ReadCString, Nul;
    if |src| >= 4 { NameIs(src[4..]); }
    if |src| >= 8 {
      WordAt(src, 4);
      IdsAccepted(src[8..], Int32(src[4..8]));
    }
  }

  lemma {:induction false} IdsAccepted(src: seq<byte>, n: int)
    ensures ReadIds(src, n).Got? <==> n <= 0 || |src| >= 8 * n
    decreases if n < 0 then 0 else n
  {
    hide Unword;
    if n > 0 && |src| >= 8 { IdsAccepted(src[8..], n - 1); }
  }

  // What follows a name, if the name ends.
  function AfterName(src: seq<byte>): seq<byte> {
    if Nul(src) < |src| then src[Nul(src) + 1..] else []
  }

  // What follows a document, if there is one.
  function AfterDoc(src: seq<byte>): seq<byte> {
    if DocAhead(src) then src[Int32(src[..4])..] else []
  }

  // Exactly which bodies of an update are accepted.
  lemma UpdateAccepted(src: seq<byte>)
    ensures DecodeUpdate(src).Got? <==>
              var w := AfterName(src);
              Nul(src) < |src| && |w| >= 4 && DocAhead(w[4..]) && DocAhead(AfterDoc(w[4..]))
  {
    hide Int32, Unword, Signed, ReadDocument, ReadCString, Nul, DocAhead;
    NameIs(src);
    var w := AfterName(src);
    if |w| >= 4 {
      DocAheadIs(w[4..]);
      DocAheadIs(AfterDoc(w[4..]));
    }
  }

  // Of a delete.
  lemma DeleteAccepted(src: seq<byte>)
    ensures DecodeDelete(src).Got? <==>
              && |src| >= 4 && Nul(src[4..]) < |src| - 4
              && var w := AfterName(src[4..]); |w| >= 4 && DocAhead(w[4..])
  {
    hide Int32, Unword, Signed, ReadDocument, ReadCString, Nul, DocAhead;
    if |src| >= 4 {
      NameIs(src[4..]);
      var w := AfterName(src[4..]);
      if |w| >= 4 { DocAheadIs(w[4..]); }
    }
  }

  // Of a query, whose second document may be missing.
  lemma QueryAccepted(src: seq<byte>)
    ensures DecodeQuery(src).Got? <==>
              && |src| >= 4 && Nul(src[4..]) < |src| - 4
              && var w := AfterName(src[4..]);
              && |w| >= 8 && DocAhead(w[8..]) && (AfterDoc(w[8..]) == [] || DocAhead(AfterDoc(w[8..])))
  {
    hide Int32, Unword, Signed, ReadDocument, ReadCString, Nul, DocAhead;
    if |src| >= 4 {
      NameIs(src[4..]);
      var w := AfterName(src[4..]);
      if |w| >= 8 {
        assert w[4..][4..] == w[8..];
        DocAheadIs(w[8..]);
        DocAheadIs(AfterDoc(w[8..]));
      }
    }
  }
}
