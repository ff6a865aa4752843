/**
 Decode and Encode of mongo/operations.go for every operation it knows: the
 common header, the legacy operations, OP_MSG and unknown opcodes.
 */
module Operations {
  import opened Common
  import opened Keys
  import opened Wire
  import opened MsgCodec

  const OP_REPLY: i32 := 1
  const OP_UPDATE: i32 := 2001
  const OP_INSERT: i32 := 2002
  const OP_QUERY: i32 := 2004
  const OP_GET_MORE: i32 := 2005
  const OP_DELETE: i32 := 2006
  const OP_KILL_CURSORS: i32 := 2007
  const OP_MSG: i32 := 2013

  datatype Operation =
    | Query(qflags: i32, collection: seq<byte>, skip: i32, toReturn: i32, query: seq<byte>, selector: seq<byte>)
    | Msg(body: MsgBody)
    | Reply(rflags: i32, cursorId: i64, startingFrom: i32, returned: i32, docs: seq<seq<byte>>)
    | GetMore(collection: seq<byte>, toReturn: i32, cursorId: i64)
    | Update(collection: seq<byte>, uflags: i32, selector: seq<byte>, update: seq<byte>)
    | Insert(iflags: i32, collection: seq<byte>, docs: seq<seq<byte>>)
    | Delete(collection: seq<byte>, dflags: i32, selector: seq<byte>)
    | KillCursors(ids: seq<i64>)
    | Unknown(opCode: i32, wm: seq<byte>)

  // An operation with the request id of its header.
  datatype Message = Message(reqId: i32, op: Operation)

  predicate Known(opCode: i32) {
    opCode in {OP_REPLY, OP_UPDATE, OP_INSERT, OP_QUERY, OP_GET_MORE, OP_DELETE, OP_KILL_CURSORS, OP_MSG}
  }

  function OpCode(op: Operation): i32 {
    match op
    case Query(_, _, _, _, _, _) => OP_QUERY
    case Msg(_) => OP_MSG
    case Reply(_, _, _, _, _) => OP_REPLY
    case GetMore(_, _, _) => OP_GET_MORE
    case Update(_, _, _, _) => OP_UPDATE
    case Insert(_, _, _) => OP_INSERT
    case Delete(_, _, _) => OP_DELETE
    case KillCursors(_) => OP_KILL_CURSORS
    case Unknown(opCode, _) => opCode
  }

  // ---------------------------------------------------------------- encoding

  function Body(op: Operation): seq<byte> {
    match op
    case Query(flags, coll, skip, n, query, selector) =>
      AppendI32(flags) + (AppendCString(coll) + (AppendI32(skip) + (AppendI32(n) + (query + selector))))
    case Msg(body) => EncodeBody(body)
    case Reply(flags, id, from, n, docs) =>
      AppendI32(flags) + (AppendI64(id) + (AppendI32(from) + (AppendI32(n) + Concat(docs))))
    case GetMore(coll, n, id) => AppendI32(0) + (AppendCString(coll) + (AppendI32(n) + AppendI64(id)))
    case Update(coll, flags, selector, update) => AppendCString(coll) + (AppendI32(flags) + (selector + update))
    case Insert(flags, coll, docs) => AppendI32(flags) + (AppendCString(coll) + Concat(docs))
    case Delete(coll, flags, selector) => AppendCString(coll) + (AppendI32(flags) + selector)
    case KillCursors(ids) => AppendI32(0) + (AppendI32(ToI32(|ids|)) + Spread(AppendI64, ids))
    case Unknown(_, wm) => wm
  }

  function Header(length: i32, reqId: i32, responseTo: i32, opCode: i32): (h: seq<byte>)
    ensures |h| == 16
  {
    AppendI32(length) + (AppendI32(reqId) + (AppendI32(responseTo) + AppendI32(opCode)))
  }

  function Encode(op: Operation, responseTo: i32): seq<byte> {
    if op.Unknown? then op.wm
    else Header(ToI32(16 + |Body(op)|), 0, responseTo, OpCode(op)) + Body(op)
  }

  // ---------------------------------------------------------------- decoding

  // Each decoder also returns the bytes it did not look at.

  function DecodeQuery(wm: seq<byte>): Read<Operation> {
    var (flags, wm) :- ReadI32(wm);
    var (coll, wm) :- ReadCString(wm);
    var (skip, wm) :- ReadI32(wm);
    var (n, wm) :- ReadI32(wm);
    var (query, wm) :- ReadDocument(wm);
    if wm == [] then Got(Query(flags, coll, skip, n, query, []), wm)
    else
      var (selector, wm) :- ReadDocument(wm);
      Got(Query(flags, coll, skip, n, query, selector), wm)
  }

  function DecodeReply(wm: seq<byte>): Read<Operation> {
    var (flags, wm) :- ReadI32(wm);
    var (id, wm) :- ReadI64(wm);
    var (from, wm) :- ReadI32(wm);
    var (n, wm) :- ReadI32(wm);
    var (docs, left) := ReadDocuments(wm);
    Got(Reply(flags, id, from, n, docs), left)
  }

  function DecodeGetMore(wm: seq<byte>): Read<Operation> {
    var (_, wm) :- ReadI32(wm);
    var (coll, wm) :- ReadCString(wm);
    var (n, wm) :- ReadI32(wm);
    var (id, wm) :- ReadI64(wm);
    Got(GetMore(coll, n, id), wm)
  }

  function DecodeUpdate(wm: seq<byte>): Read<Operation> {
    var (coll, wm) :- ReadCString(wm);
    var (flags, wm) :- ReadI32(wm);
    var (selector, wm) :- ReadDocument(wm);
    var (update, wm) :- ReadDocument(wm);
    Got(Update(coll, flags, selector, update), wm)
  }

  function DecodeInsert(wm: seq<byte>): Read<Operation> {
    var (flags, wm) :- ReadI32(wm);
    var (coll, wm) :- ReadCString(wm);
    var (docs, left) := ReadDocuments(wm);
    Got(Insert(flags, coll, docs), left)
  }

  function DecodeDelete(wm: seq<byte>): Read<Operation> {
    var (_, wm) :- ReadI32(wm);
    var (coll, wm) :- ReadCString(wm);
    var (flags, wm) :- ReadI32(wm);
    var (selector, wm) :- ReadDocument(wm);
    Got(Delete(coll, flags, selector), wm)
  }

  // A count that is not positive reads nothing.
  function ReadIds(src: seq<byte>, n: int): Read<seq<i64>>
    decreases if n < 0 then 0 else n
  {
    if n <= 0 then Got([], src)
    else
      var (id, rest) :- ReadI64(src);
      var (ids, left) :- ReadIds(rest, n - 1);
      Got([id] + ids, left)
  }

  function DecodeKillCursors(wm: seq<byte>): Read<Operation> {
    var (_, wm) :- ReadI32(wm);
    var (n, wm) :- ReadI32(wm);
    var (ids, left) :- ReadIds(wm, n);
    Got(KillCursors(ids), left)
  }

  function DecodeOp(opCode: i32, body: seq<byte>, wm: seq<byte>): Result<Operation> {
    if opCode == OP_MSG then
      match DecodeBody(body)
      case Err => Err
      case Ok(m) => Ok(Msg(m))
    else if !Known(opCode) then Ok(Unknown(opCode, wm))
    else
      var r := if opCode == OP_QUERY then DecodeQuery(body)
               else if opCode == OP_REPLY then DecodeReply(body)
               else if opCode == OP_GET_MORE then DecodeGetMore(body)
               else if opCode == OP_UPDATE then DecodeUpdate(body)
               else if opCode == OP_INSERT then DecodeInsert(body)
               else if opCode == OP_DELETE then DecodeDelete(body)
               else DecodeKillCursors(body);
      if r.Bad? then Err else Ok(r.value)
  }

  function Decode(wm: seq<byte>): Result<Message> {
    if |wm| < 16 || Signed(Unword(wm)) > |wm| then Err
    else
      match DecodeOp(Signed(Unword(wm[12..])), wm[16..], wm)
      case Err => Err
      case Ok(op) => Ok(Message(Signed(Unword(wm[4..])), op))
  }

  // ------------------------------------------------------------------ header

  lemma HeaderFields(length: i32, reqId: i32, responseTo: i32, opCode: i32, body: seq<byte>)
    ensures var wm := Header(length, reqId, responseTo, opCode) + body;
            && Signed(Unword(wm)) == length && Signed(Unword(wm[4..])) == reqId
            && Signed(Unword(wm[12..])) == opCode && wm[16..] == body
  {
    hide AppendI32, Unword, ToI32;
    var h := Header(length, reqId, responseTo, opCode);
    var wm := h + body;
    assert wm == AppendI32(length) + wm[4..];
    ReadAppendI32(length, wm[4..]);
    assert wm[4..] == AppendI32(reqId) + wm[8..];
    ReadAppendI32(reqId, wm[8..]);
    assert wm[12..] == AppendI32(opCode) + wm[16..];
    ReadAppendI32(opCode, wm[16..]);
  }

  lemma TruncationShrinks(n: nat)
    ensures ToI32(n) <= n
  {
    var q := (n + 0x8000_0000) / 0x1_0000_0000;
    assert q >= 0 && ToI32(n) == n - q * 0x1_0000_0000;
  }

  // The header never stands in the way: the length it carries, truncated or not,
  // is no more than what follows.
  lemma DecodeEncoded(op: Operation, responseTo: i32)
    requires !op.Unknown?
    ensures Decode(Encode(op, responseTo)) ==
            var r := DecodeOp(OpCode(op), Body(op), Encode(op, responseTo));
            if r.Err? then Err else Ok(Message(0, r.value))
  {
    hide DecodeOp, Body, ToI32, Unword, Header;
    var n := 16 + |Body(op)|;
    HeaderFields(ToI32(n), 0, responseTo, OpCode(op), Body(op));
    TruncationShrinks(n);
  }

  // ------------------------------------------------------------- round trips

  predicate Encodable(op: Operation) {
    match op
    case Query(_, coll, _, _, query, selector) =>
      NulFree(coll) && IsDocument(query) && (selector == [] || IsDocument(selector))
    case Msg(body) => AllWellFormed(body.sections)
    case Reply(_, _, _, _, docs) => AllDocuments(docs)
    case GetMore(coll, _, _) => NulFree(coll)
    case Update(coll, _, selector, update) => NulFree(coll) && IsDocument(selector) && IsDocument(update)
    case Insert(_, coll, docs) => NulFree(coll) && AllDocuments(docs)
    case KillCursors(ids) => |ids| < 0x8000_0000
    case Delete(_, _, _) => false
    case Unknown(_, _) => false
  }

  lemma QueryRoundTrip(op: Operation)
    requires op.Query? && Encodable(op)
    ensures DecodeQuery(Body(op)) == Got(op, [])
  {
    hide AppendI32, ReadI32, AppendI64, ReadI64;
    var Query(flags, coll, skip, n, query, selector) := op;
    var w5 := query + selector;
    var w4 := AppendI32(n) + w5;
    var w3 := AppendI32(skip) + w4;
    var w2 := AppendCString(coll) + w3;
    ReadAppendI32(flags, w2);
    ReadAppendCString(coll, w3);
    ReadAppendI32(skip, w4);
    ReadAppendI32(n, w5);
    ReadAppendDocument(query, selector);
    if selector != [] {
      ReadAppendDocument(selector, []);
      assert selector + [] == selector;
    }
  }

  lemma ReplyRoundTrip(op: Operation)
    requires op.Reply? && Encodable(op)
    ensures DecodeReply(Body(op)) == Got(op, [])
  {
    hide AppendI32, ReadI32, AppendI64, ReadI64;
    var Reply(flags, id, from, n, docs) := op;
    var w4 := AppendI32(n) + Concat(docs);
    var w3 := AppendI32(from) + w4;
    var w2 := AppendI64(id) + w3;
    ReadAppendI32(flags, w2);
    ReadAppendI64(id, w3);
    ReadAppendI32(from, w4);
    ReadAppendI32(n, Concat(docs));
    ReadConcat(docs);
  }

  lemma GetMoreRoundTrip(op: Operation)
    requires op.GetMore? && Encodable(op)
    ensures DecodeGetMore(Body(op)) == Got(op, [])
  {
    hide AppendI32, ReadI32, AppendI64, ReadI64;
    var GetMore(coll, n, id) := op;
    var w3 := AppendI32(n) + AppendI64(id);
    var w2 := AppendCString(coll) + w3;
    ReadAppendI32(0, w2);
    ReadAppendCString(coll, w3);
    ReadAppendI32(n, AppendI64(id));
    ReadAppendI64(id, []);
    assert AppendI64(id) + [] == AppendI64(id);
  }

  lemma UpdateRoundTrip(op: Operation)
    requires op.Update? && Encodable(op)
    ensures DecodeUpdate(Body(op)) == Got(op, [])
  {
    hide AppendI32, ReadI32, AppendI64, ReadI64;
    var Update(coll, flags, selector, update) := op;
    ReadAppendCString(coll, AppendI32(flags) + (selector + update));
    ReadAppendI32(flags, selector + update);
    ReadAppendDocument(selector, update);
    ReadAppendDocument(update, []);
    assert update + [] == update;
  }

  lemma InsertRoundTrip(op: Operation)
    requires op.Insert? && Encodable(op)
    ensures DecodeInsert(Body(op)) == Got(op, [])
  {
    hide AppendI32, ReadI32, AppendI64, ReadI64;
    var Insert(flags, coll, docs) := op;
    ReadAppendI32(flags, AppendCString(coll) + Concat(docs));
    ReadAppendCString(coll, Concat(docs));
    ReadConcat(docs);
  }

  lemma {:induction false} ReadEncodedIds(ids: seq<i64>, rest: seq<byte>)
    ensures ReadIds(Spread(AppendI64, ids) + rest, |ids|) == Got(ids, rest)
  {
    hide AppendI64, ReadI64;
    var src := Spread(AppendI64, ids) + rest;
    if ids == [] {
      assert src == rest;
    } else {
      var more := Spread(AppendI64, ids[1..]) + rest;
      assert src == AppendI64(ids[0]) + more;
      ReadAppendI64(ids[0], more);
      ReadEncodedIds(ids[1..], rest);
      assert ids == [ids[0]] + ids[1..];
    }
  }

  lemma {:induction false} ReadIdsCount(src: seq<byte>, n: int)
    requires ReadIds(src, n).Got?
    ensures |ReadIds(src, n).value| == if n < 0 then 0 else n
    decreases if n < 0 then 0 else n
  {
    if n > 0 {
      ReadIdsCount(ReadI64(src).rest, n - 1);
    }
  }

  lemma TruncatedCount(n: nat)
    ensures ToI32(n) == n <==> n < 0x8000_0000
  {
  }

  lemma DecodeKillCursorsBody(ids: seq<i64>)
    ensures DecodeKillCursors(Body(KillCursors(ids))) ==
            var r := ReadIds(Spread(AppendI64, ids), ToI32(|ids|));
            if r.Bad? then Bad else Got(KillCursors(r.value), r.rest)
  {
    hide AppendI32, ReadI32, AppendI64, ReadI64, ToI32, ReadIds, Spread;
    var n := ToI32(|ids|);
    var w3 := Spread(AppendI64, ids);
    ReadAppendI32(0, AppendI32(n) + w3);
    ReadAppendI32(n, w3);
  }

  // The count is an int32: a list of cursors survives exactly when it fits.
  lemma KillCursorsRoundTrip(ids: seq<i64>)
    ensures DecodeKillCursors(Body(KillCursors(ids))) == Got(KillCursors(ids), []) <==> |ids| < 0x8000_0000
  {
    hide ToI32, ReadI64, AppendI64, AppendI32, DecodeKillCursors, Body;
    var n := ToI32(|ids|);
    var w3 := Spread(AppendI64, ids);
    TruncatedCount(|ids|);
    DecodeKillCursorsBody(ids);
    if |ids| < 0x8000_0000 {
      ReadEncodedIds(ids, []);
      assert w3 + [] == w3;
    } else if ReadIds(w3, n).Got? {
      ReadIdsCount(w3, n);
    }
  }

  // What a decoder of the encoding returns: the same operation, with a checksum
  // that the flags do not announce read back as zero.
  function Canonical(op: Operation): Operation {
    if op.Msg? then Msg(Announced(op.body)) else op
  }

  // Each opcode leads to its own decoder.
  lemma Dispatch(op: Operation, wm: seq<byte>)
    requires Encodable(op) && !op.Msg?
    ensures var body := Body(op);
            var r := match op {
              case Query(_, _, _, _, _, _) => DecodeQuery(body)
              case Reply(_, _, _, _, _) => DecodeReply(body)
              case GetMore(_, _, _) => DecodeGetMore(body)
              case Update(_, _, _, _) => DecodeUpdate(body)
              case Insert(_, _, _) => DecodeInsert(body)
              case _ => DecodeKillCursors(body) };
            DecodeOp(OpCode(op), body, wm) == if r.Bad? then Err else Ok(r.value)
  {
    hide DecodeQuery, DecodeReply, DecodeGetMore, DecodeUpdate, DecodeInsert, DecodeDelete, DecodeKillCursors,
         DecodeBody, Body;
  }

  lemma DispatchMsg(body: MsgBody, wm: seq<byte>)
    ensures DecodeOp(OP_MSG, Body(Msg(body)), wm) ==
            var r := DecodeBody(EncodeBody(body)); if r.Err? then Err else Ok(Msg(r.value))
  {
    hide DecodeBody, EncodeBody;
  }

  lemma OpRoundTrip(op: Operation, wm: seq<byte>)
    requires Encodable(op)
    ensures DecodeOp(OpCode(op), Body(op), wm) == Ok(Canonical(op))
  {
    hide DecodeQuery, DecodeReply, DecodeGetMore, DecodeUpdate, DecodeInsert, DecodeDelete, DecodeKillCursors,
         DecodeBody, Body;
    if op.Msg? {
      DispatchMsg(op.body, wm);
      WellFormedDecodes(op.body);
    } else {
      Dispatch(op, wm);
      LegacyRoundTrip(op);
    }
  }

  lemma LegacyRoundTrip(op: Operation)
    requires Encodable(op) && !op.Msg?
    ensures var body := Body(op);
            var r := match op {
              case Query(_, _, _, _, _, _) => DecodeQuery(body)
              case Reply(_, _, _, _, _) => DecodeReply(body)
              case GetMore(_, _, _) => DecodeGetMore(body)
              case Update(_, _, _, _) => DecodeUpdate(body)
              case Insert(_, _, _) => DecodeInsert(body)
              case _ => DecodeKillCursors(body) };
            r == Got(op, [])
  {
    hide DecodeQuery, DecodeReply, DecodeGetMore, DecodeUpdate, DecodeInsert, DecodeDelete, DecodeKillCursors,
         DecodeBody, Body;
    match op
    case Query(_, _, _, _, _, _) => QueryRoundTrip(op);
    case Reply(_, _, _, _, _) => ReplyRoundTrip(op);
    case GetMore(_, _, _) => GetMoreRoundTrip(op);
    case Update(_, _, _, _) => UpdateRoundTrip(op);
    case Insert(_, _, _) => InsertRoundTrip(op);
    case KillCursors(ids) => KillCursorsRoundTrip(ids);
  }

  // What a decoder accepts, other than a delete, could have been encoded.
  lemma QueryDecoded(wm: seq<byte>)
    requires DecodeQuery(wm).Got?
    ensures DecodeQuery(wm).value.Query? && Encodable(DecodeQuery(wm).value)
  {
    hide ReadI32;
    var w1 := ReadI32(wm).rest;
    ReadCStringParts(w1);
    var w4 := ReadI32(ReadI32(ReadCString(w1).rest).rest).rest;
    ReadDocumentParts(w4);
    if ReadDocument(w4).rest != [] {
      ReadDocumentParts(ReadDocument(w4).rest);
    }
  }

  lemma ReplyDecoded(wm: seq<byte>)
    requires DecodeReply(wm).Got?
    ensures DecodeReply(wm).value.Reply? && Encodable(DecodeReply(wm).value)
  {
    hide ReadI32, ReadI64;
    ReadDocumentsParts(ReadI32(ReadI32(ReadI64(ReadI32(wm).rest).rest).rest).rest);
  }

  lemma GetMoreDecoded(wm: seq<byte>)
    requires DecodeGetMore(wm).Got?
    ensures DecodeGetMore(wm).value.GetMore? && Encodable(DecodeGetMore(wm).value)
  {
    hide ReadI32, ReadI64;
    ReadCStringParts(ReadI32(wm).rest);
  }

  lemma UpdateDecoded(wm: seq<byte>)
    requires DecodeUpdate(wm).Got?
    ensures DecodeUpdate(wm).value.Update? && Encodable(DecodeUpdate(wm).value)
  {
    hide ReadI32;
    ReadCStringParts(wm);
    var w2 := ReadI32(ReadCString(wm).rest).rest;
    ReadDocumentParts(w2);
    ReadDocumentParts(ReadDocument(w2).rest);
  }

  lemma InsertDecoded(wm: seq<byte>)
    requires DecodeInsert(wm).Got?
    ensures DecodeInsert(wm).value.Insert? && Encodable(DecodeInsert(wm).value)
  {
    hide ReadI32;
    var w1 := ReadI32(wm).rest;
    ReadCStringParts(w1);
    ReadDocumentsParts(ReadCString(w1).rest);
  }

  lemma KillCursorsDecoded(wm: seq<byte>)
    requires DecodeKillCursors(wm).Got?
    ensures DecodeKillCursors(wm).value.KillCursors? && Encodable(DecodeKillCursors(wm).value)
  {
    hide ReadI32, ReadI64, ReadIds;
    var r := ReadI32(ReadI32(wm).rest);
    ReadIdsCount(r.rest, r.value);
  }

  lemma DecodedIsEncodable(op: Operation, body: seq<byte>, wm: seq<byte>)
    requires !op.Unknown? && !op.Delete? && DecodeOp(OpCode(op), body, wm).Ok?
    ensures Encodable(DecodeOp(OpCode(op), body, wm).value)
  {
    hide DecodeQuery, DecodeReply, DecodeGetMore, DecodeUpdate, DecodeInsert, DecodeKillCursors, DecodeBody;
    match op
    case Query(_, _, _, _, _, _) => QueryDecoded(body);
    case Msg(_) => DecodedIsWellFormed(body);
    case Reply(_, _, _, _, _) => ReplyDecoded(body);
    case GetMore(_, _, _) => GetMoreDecoded(body);
    case Update(_, _, _, _) => UpdateDecoded(body);
    case Insert(_, _, _) => InsertDecoded(body);
    case KillCursors(_) => KillCursorsDecoded(body);
  }

  lemma CanonicalKeeps(op: Operation)
    ensures Encodable(Canonical(op)) <==> Encodable(op)
  {
  }

  /**
   Decode of Encode dispatches to the same operation and returns the same fields,
   all but the request id, which Encode writes as zero, if and only if the
   operation is encodable: names without a zero byte, documents with their own
   length, lists and sequences that fit their 32-bit words, and no OP_DELETE.
   */
  lemma RoundTrip(op: Operation, responseTo: i32)
    requires !op.Unknown?
    ensures Decode(Encode(op, responseTo)) == Ok(Message(0, Canonical(op))) <==> Encodable(op)
  {
    hide Decode, Encode, DecodeOp, Body, Canonical, Encodable;
    DecodeEncoded(op, responseTo);
    CanonicalKeeps(op);
    if Encodable(op) {
      OpRoundTrip(op, Encode(op, responseTo));
    } else if op.Delete? {
      DeleteNeverRoundTrips(op.collection, op.dflags, op.selector, responseTo);
      DeleteIsCanonical(op);
    } else if DecodeOp(OpCode(op), Body(op), Encode(op, responseTo)).Ok? {
      DecodedIsEncodable(op, Body(op), Encode(op, responseTo));
    }
  }

  lemma DeleteIsCanonical(op: Operation)
    requires op.Delete?
    ensures Canonical(op) == op
  {
  }

  // An operation the proxy does not know passes through byte for byte.
  lemma UnknownPassesThrough(wm: seq<byte>, responseTo: i32)
    requires Decode(wm).Ok? && !Known(Signed(Unword(wm[12..])))
    ensures Decode(wm).value.op.Unknown? && Encode(Decode(wm).value.op, responseTo) == wm
  {
    hide DecodeQuery, DecodeReply, DecodeGetMore, DecodeUpdate, DecodeInsert, DecodeDelete, DecodeKillCursors,
         DecodeBody, Body;
  }

  // An OP_MSG whose header carries its true length re-encodes to the same bytes
  // but for the two request-id words, exactly when an announced checksum is there.
  lemma MsgCanonical(wm: seq<byte>, responseTo: i32)
    requires |wm| >= 16 && Signed(Unword(wm)) == |wm| && Signed(Unword(wm[12..])) == OP_MSG && Decode(wm).Ok?
    ensures |wm| >= 20
    ensures Encode(Decode(wm).value.op, responseTo) == wm[..4] + AppendI32(0) + AppendI32(responseTo) + wm[12..]
       <==> (ChecksumFlag(Unword(wm[16..])) ==> EndsInChecksum(wm[16..]))
  {
    hide DecodeSections, EncodeBody, Word, ToI32, Unword, AppendI32, EndsInChecksum;
    var src := wm[16..];
    CanonicalForm(src);
    var op := Decode(wm).value.op;
    var want := wm[..4] + AppendI32(0) + AppendI32(responseTo) + wm[12..];
    assert want[16..] == src;
    assert Encode(op, responseTo)[16..] == Body(op);
    if Body(op) == src {
      SameHeader(wm, responseTo);
    }
  }

  lemma SameHeader(wm: seq<byte>, responseTo: i32)
    requires |wm| >= 16 && Signed(Unword(wm)) == |wm| && Signed(Unword(wm[12..])) == OP_MSG
    ensures Header(ToI32(|wm|), 0, responseTo, OP_MSG) + wm[16..] ==
        wm[..4] + AppendI32(0) + AppendI32(responseTo) + wm[12..]
  {
    hide Unword, AppendI32;
    LengthWord(wm);
    LengthWord(wm[12..]);
    assert wm[12..] == wm[12..][..4] + wm[16..];
  }

  // ------------------------------------------------ the two that do not agree

  lemma DeleteConsumes(wm: seq<byte>)
    requires DecodeDelete(wm).Got?
    ensures var d := DecodeDelete(wm).value;
            d.Delete? && |wm| >= 4 + |d.collection| + 1 + 4 + |d.selector|
  {
    var w1 := ReadI32(wm).rest;
    ReadCStringParts(w1);
    var w2 := ReadCString(w1).rest;
    ReadDocumentParts(ReadI32(w2).rest);
  }

  lemma DispatchDelete(body: seq<byte>, wm: seq<byte>)
    ensures DecodeOp(OP_DELETE, body, wm) == var r := DecodeDelete(body); if r.Bad? then Err else Ok(r.value)
  {
    hide DecodeQuery, DecodeReply, DecodeGetMore, DecodeUpdate, DecodeInsert, DecodeDelete, DecodeKillCursors,
         DecodeBody, Body;
  }

  lemma DeleteBodyLength(op: Operation)
    requires op.Delete?
    ensures |Body(op)| == |op.collection| + 1 + 4 + |op.selector|
  {
  }

  // OP_DELETE: the encoder leaves out the zero word that the decoder skips, so no
  // delete at all survives the round trip.
  lemma DeleteNeverRoundTrips(coll: seq<byte>, flags: i32, selector: seq<byte>, responseTo: i32)
    ensures Decode(Encode(Delete(coll, flags, selector), responseTo)) != Ok(Message(0, Delete(coll, flags, selector)))
  {
    hide Decode, Encode, DecodeOp, DecodeDelete, Body;
    var op := Delete(coll, flags, selector);
    DecodeEncoded(op, responseTo);
    DispatchDelete(Body(op), Encode(op, responseTo));
    DeleteBodyLength(op);
    if DecodeDelete(Body(op)).Got? {
      DeleteConsumes(Body(op));
    }
  }

  // The decoder alone does follow the standard layout of OP_DELETE.
  lemma StandardDeleteDecodes(zero: i32, coll: seq<byte>, flags: i32, selector: seq<byte>)
    requires NulFree(coll) && IsDocument(selector)
    ensures DecodeDelete(AppendI32(zero) + Body(Delete(coll, flags, selector))) ==
        Got(Delete(coll, flags, selector), [])
  {
    hide AppendI32, ReadI32, AppendI64, ReadI64;
    ReadAppendI32(zero, Body(Delete(coll, flags, selector)));
    ReadAppendCString(coll, AppendI32(flags) + selector);
    ReadAppendI32(flags, selector);
    ReadAppendDocument(selector, []);
    assert selector + [] == selector;
  }

  // The decoder takes the leading zero word for an empty collection name, and the
  // four bytes after the name's end for the flags.
  lemma ZeroWordIsName(rest: seq<byte>)
    requires rest != []
    ensures var w := [0, 0, 0] + rest;
            DecodeUpdate(AppendI32(0) + rest) ==
              match ReadDocument(w[4..])
              case Bad => Bad
              case Got(selector, w1) =>
                match ReadDocument(w1)
                case Bad => Bad
                case Got(update, left) => Got(Update([], Signed(Unword(w)), selector, update), left)
  {
    hide Unword, ReadDocument, IsDocument, AppendI32;
    SmallWords();
    assert [0, 0, 0, 0] + rest == [0] + ([0, 0, 0] + rest);
    assert ([0] + ([0, 0, 0] + rest))[1..] == [0, 0, 0] + rest;
  }

  lemma ZeroWordIsNoDocument(rest: seq<byte>)
    ensures ReadDocument([0, 0, 0, 0] + rest).Bad? && Signed(Unword([0, 0, 0, 0] + rest)) == 0
  {
    hide AppendI32, Unword, Signed;
    SmallWords();
    ReadAppendI32(0, rest);
  }

  /**
   OP_UPDATE: encoder and decoder agree with each other but not with the standard,
   which has a zero word in front. No update at all in the standard layout is read
   as what it says.
   */
  lemma StandardUpdateNeverDecodes(coll: seq<byte>, flags: i32, selector: seq<byte>, update: seq<byte>)
    ensures var op := Update(coll, flags, selector, update);
            var r := DecodeUpdate(AppendI32(0) + Body(op));
            r.Got? ==> r.value != op
  {
    hide DecodeUpdate, Unword, ReadDocument, AppendI32;
    var rest := Body(Update(coll, flags, selector, update));
    ZeroWordIsName(rest);
    if coll == [] && flags == 0 {
      SmallWords();
      assert ([0, 0, 0] + rest)[4..] == [0, 0, 0, 0] + (selector + update);
      ZeroWordIsNoDocument(selector + update);
    } else if coll == [] {
      assert [0, 0, 0] + rest == [0, 0, 0, 0] + (AppendI32(flags) + (selector + update));
      ZeroWordIsNoDocument(AppendI32(flags) + (selector + update));
    }
  }

  /**
   Standard updates that are accepted and misread: an upsert into a collection of
   one letter whose selector has 251 bytes comes out with an empty collection
   name, other flags, another selector and the same update.
   */
  lemma StandardUpdateAccepted(letter: byte, selector: seq<byte>, update: seq<byte>)
    requires letter != 0 && IsDocument(selector) && |selector| == 251 && IsDocument(update)
    ensures var standard := AppendI32(0) + Body(Update([letter], 1, selector, update));
            DecodeUpdate(standard) ==
              Got(Update([], Signed(Unword([0, 0, 0, letter])), [0, 1, 0, 0, 0] + selector, update), [])
  {
    hide DecodeUpdate, IsDocument, Unword, ToI32, AppendI32;
    SmallWords();
    Realigned(letter, selector, update);
    LongerSelector(selector);
    EmptyNameDecodes([0, 0, 0, letter], [0, 1, 0, 0, 0] + selector, update);
  }

  // The bytes of the standard layout, read from one byte further on.
  lemma Realigned(letter: byte, a: seq<byte>, b: seq<byte>)
    ensures [0, 0, 0, 0] + (([letter] + [0]) + ([1, 0, 0, 0] + (a + b))) ==
            [0] + ([0, 0, 0, letter] + (([0, 1, 0, 0, 0] + a) + b))
  {
  }

  lemma SmallWords()
    ensures AppendI32(0) == [0, 0, 0, 0] && AppendI32(1) == [1, 0, 0, 0]
  {
  }

  lemma LongerSelector(selector: seq<byte>)
    requires |selector| == 251
    ensures IsDocument([0, 1, 0, 0, 0] + selector)
  {
    var other := [0, 1, 0, 0, 0] + selector;
    assert other[0] == 0 && other[1] == 1 && other[2] == 0 && other[3] == 0;
    assert Unword(other) == 256;
  }

  lemma EmptyNameDecodes(flags: seq<byte>, selector: seq<byte>, update: seq<byte>)
    requires |flags| == 4 && IsDocument(selector) && IsDocument(update)
    ensures DecodeUpdate([0] + (flags + (selector + update))) ==
        Got(Update([], Signed(Unword(flags)), selector, update), [])
  {
    hide ToI32, IsDocument, ReadDocument;
    var rest := flags + (selector + update);
    assert ([0] + rest)[1..] == rest;
    assert Unword(rest) == Unword(flags) && rest[4..] == selector + update;
    ReadAppendDocument(selector, update);
    ReadAppendDocument(update, []);
    assert update + [] == update;
  }
}
