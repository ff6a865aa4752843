/**
 The byte level of the MongoDB Wire Protocol as mongo/operations.go and the
 driver's readers use it: little-endian words, NUL-terminated strings and
 length-prefixed documents.
 */
module Wire {
  import opened Common
  import opened Keys

  type i32 = x: int | -0x8000_0000 <= x < 0x8000_0000
  type u32 = x: int | 0 <= x < 0x1_0000_0000
  type i64 = x: int | -0x8000_0000_0000_0000 <= x < 0x8000_0000_0000_0000

  // A read takes a value off the front, or fails.
  datatype Read<+T> = Got(value: T, rest: seq<byte>) | Bad {
    predicate IsFailure() {
      Bad?
    }

    function PropagateFailure<U>(): Read<U>
      requires Bad?
    {
      Bad
    }

    function Extract(): (T, seq<byte>)
      requires Got?
    {
      (value, rest)
    }
  }

  // int32(n) for an int that need not fit.
  function ToI32(n: int): i32 {
    (n + 0x8000_0000) % 0x1_0000_0000 - 0x8000_0000
  }

  function ToU32(x: i32): u32 {
    if x < 0 then x + 0x1_0000_0000 else x
  }

  // int32(u) for an unsigned word.
  function Signed(u: u32): (x: i32)
    ensures ToU32(x) == u
  {
    if u >= 0x8000_0000 then u - 0x1_0000_0000 else u
  }

  // ------------------------------------------------------------------ words

  function Word(u: u32): (b: seq<byte>)
    ensures |b| == 4
  {
    [u % 256, u / 256 % 256, u / 65536 % 256, u / 16777216]
  }

  function Unword(b: seq<byte>): u32
    requires |b| >= 4
  {
    Little(b[0], b[1], b[2], b[3])
  }

  function Little(a: int, b: int, c: int, d: int): int {
    a + 256 * b + 65536 * c + 16777216 * d
  }

  lemma UnwordWord(u: u32, rest: seq<byte>)
    ensures Unword(Word(u) + rest) == u
  {
    Halves(u);
    var b := Word(u) + rest;
    assert b[0] == u % 256 && b[1] == u / 256 % 256 && b[2] == u / 65536 % 256 && b[3] == u / 16777216;
  }

  lemma Halves(u: int)
    requires u >= 0
    ensures u == Little(u % 256, u / 256 % 256, u / 65536 % 256, u / 16777216)
  {
    Shifts(u);
  }

  lemma WordUnword(b: seq<byte>)
    requires |b| >= 4
    ensures Word(Unword(b)) == b[..4]
  {
    Digits256(b[0], b[1], b[2], b[3]);
  }

  lemma Digits256(a: byte, b: byte, c: byte, d: byte)
    ensures var u := Little(a, b, c, d);
            u % 256 == a && u / 256 % 256 == b && u / 65536 % 256 == c && u / 16777216 == d
  {
    var w: int := c as int + 256 * d as int;
    var v: int := b as int + 256 * w;
    var u := Little(a, b, c, d);
    OffByte(a, v);
    OffByte(b, w);
    OffByte(c, d);
    assert u == a as int + 256 * v;
    Shifts(u);
  }

  lemma OffByte(a: byte, v: int)
    requires v >= 0
    ensures (a as int + 256 * v) / 256 == v && (a as int + 256 * v) % 256 == a
  {
  }

  lemma Shifts(u: int)
    requires u >= 0
    ensures u / 65536 == u / 256 / 256 && u / 16777216 == u / 256 / 256 / 256
  {
  }

  function AppendI32(x: i32): (b: seq<byte>)
    ensures |b| == 4
  {
    Word(ToU32(x))
  }

  function ReadI32(src: seq<byte>): Read<i32> {
    if |src| < 4 then Bad else Got(Signed(Unword(src)), src[4..])
  }

  function AppendI64(x: i64): (b: seq<byte>)
    ensures |b| == 8
  {
    var u := if x < 0 then x + 0x1_0000_0000_0000_0000 else x;
    Word(u % 0x1_0000_0000) + Word(u / 0x1_0000_0000)
  }

  function ReadI64(src: seq<byte>): Read<i64> {
    if |src| < 8 then Bad
    else
      var u := Unword(src) + 0x1_0000_0000 * Unword(src[4..]);
      Got(if u >= 0x8000_0000_0000_0000 then u - 0x1_0000_0000_0000_0000 else u, src[8..])
  }

  lemma ReadAppendI32(x: i32, rest: seq<byte>)
    ensures ReadI32(AppendI32(x) + rest) == Got(x, rest)
  {
    UnwordWord(ToU32(x), rest);
  }

  lemma ReadAppendI64(x: i64, rest: seq<byte>)
    ensures ReadI64(AppendI64(x) + rest) == Got(x, rest)
  {
    var u := if x < 0 then x + 0x1_0000_0000_0000_0000 else x;
    var lo, hi := u % 0x1_0000_0000, u / 0x1_0000_0000;
    var b := AppendI64(x) + rest;
    assert b == Word(lo) + (Word(hi) + rest);
    UnwordWord(lo, Word(hi) + rest);
    assert b[4..] == Word(hi) + rest;
    UnwordWord(hi, rest);
  }

  // --------------------------------------------------------------- C strings

  predicate NulFree(s: seq<byte>) {
    forall i :: 0 <= i < |s| ==> s[i] != 0
  }

  function AppendCString(s: seq<byte>): seq<byte> {
    s + [0]
  }

  function ReadCString(src: seq<byte>): Read<seq<byte>> {
    if src == [] then Bad
    else if src[0] == 0 then Got([], src[1..])
    else
      match ReadCString(src[1..])
      case Bad => Bad
      case Got(s, rest) => Got([src[0]] + s, rest)
  }

  lemma {:induction false} ReadAppendCString(s: seq<byte>, rest: seq<byte>)
    requires NulFree(s)
    ensures ReadCString(AppendCString(s) + rest) == Got(s, rest)
  {
    var b := AppendCString(s) + rest;
    if s == [] {
      assert b == [0] + rest;
    } else {
      assert b[1..] == AppendCString(s[1..]) + rest;
      ReadAppendCString(s[1..], rest);
      assert [s[0]] + s[1..] == s;
    }
  }

  lemma {:induction false} ReadCStringParts(src: seq<byte>)
    requires ReadCString(src).Got?
    ensures src == AppendCString(ReadCString(src).value) + ReadCString(src).rest
    ensures NulFree(ReadCString(src).value)
  {
    if src[0] != 0 {
      ReadCStringParts(src[1..]);
      assert src == [src[0]] + src[1..];
    }
  }

  // --------------------------------------------------------------- documents

  // A document is its own length in four bytes and then the rest.
  predicate IsDocument(d: seq<byte>) {
    |d| >= 4 && Signed(Unword(d)) == |d|
  }

  predicate AllDocuments(docs: seq<seq<byte>>) {
    forall i :: 0 <= i < |docs| ==> IsDocument(docs[i])
  }

  function ReadDocument(src: seq<byte>): Read<seq<byte>> {
    if |src| < 4 then Bad
    else
      var n := Signed(Unword(src));
      if n < 4 || n > |src| then Bad else Got(src[..n], src[n..])
  }

  function Concat(parts: seq<seq<byte>>): seq<byte> {
    if parts == [] then [] else parts[0] + Concat(parts[1..])
  }

  // The encodings of a list of things, one after the other.
  function Spread<T>(f: T -> seq<byte>, xs: seq<T>): seq<byte> {
    if xs == [] then [] else f(xs[0]) + Spread(f, xs[1..])
  }

  lemma {:induction false} SpreadAppend<T>(f: T -> seq<byte>, xs: seq<T>, x: T)
    ensures Spread(f, xs + [x]) == Spread(f, xs) + f(x)
  {
    if xs == [] {
      assert [x][1..] == [];
    } else {
      SpreadAppend(f, xs[1..], x);
      assert (xs + [x])[1..] == xs[1..] + [x];
    }
  }

  lemma {:induction false} ConcatAppend(parts: seq<seq<byte>>, more: seq<byte>)
    ensures Concat(parts + [more]) == Concat(parts) + more
  {
    if parts == [] {
      assert [more][1..] == [];
    } else {
      ConcatAppend(parts[1..], more);
      assert (parts + [more])[1..] == parts[1..] + [more];
    }
  }

  // Documents until the next read fails, and what is left then.
  function ReadDocuments(src: seq<byte>): (seq<seq<byte>>, seq<byte>) {
    match ReadDocument(src)
    case Bad => ([], src)
    case Got(d, rest) =>
      var (docs, left) := ReadDocuments(rest);
      ([d] + docs, left)
  }

  lemma ReadAppendDocument(d: seq<byte>, rest: seq<byte>)
    requires IsDocument(d)
    ensures ReadDocument(d + rest) == Got(d, rest)
  {
    assert Unword(d + rest) == Unword(d);
  }

  lemma ReadDocumentParts(src: seq<byte>)
    requires ReadDocument(src).Got?
    ensures src == ReadDocument(src).value + ReadDocument(src).rest && IsDocument(ReadDocument(src).value)
  {
    var d := ReadDocument(src).value;
    assert Unword(d) == Unword(src);
  }

  lemma {:induction false} ReadConcat(docs: seq<seq<byte>>)
    requires AllDocuments(docs)
    ensures ReadDocuments(Concat(docs)) == (docs, [])
  {
    if docs != [] {
      ReadAppendDocument(docs[0], Concat(docs[1..]));
      ReadConcat(docs[1..]);
      assert docs == [docs[0]] + docs[1..];
    }
  }

  lemma ConcatCons(d: seq<byte>, docs: seq<seq<byte>>, left: seq<byte>)
    ensures d + (Concat(docs) + left) == Concat([d] + docs) + left
  {
    assert ([d] + docs)[1..] == docs;
  }

  lemma {:induction false} ReadDocumentsParts(src: seq<byte>)
    ensures src == Concat(ReadDocuments(src).0) + ReadDocuments(src).1
    ensures AllDocuments(ReadDocuments(src).0)
  {
    match ReadDocument(src)
    case Bad => assert src == Concat([]) + src;
    case Got(d, rest) =>
      ReadDocumentParts(src);
      ReadDocumentsParts(rest);
      ConcatCons(d, ReadDocuments(rest).0, ReadDocuments(rest).1);
  }
}
