/** OP_MSG: sections, the body decoder and encoder, and why they are inverse. */
module MsgCodec {
  import opened Common
  import opened Keys
  import opened Wire

  datatype Section =
    | Single(doc: seq<byte>)
    | Sequence(identifier: seq<byte>, docs: seq<seq<byte>>)

  // sections and, when one was read, the checksum
  datatype Parsed = Parsed(sections: seq<Section>, checksum: Option<u32>) | Malformed

  datatype MsgBody = MsgBody(flags: u32, sections: seq<Section>, checksum: u32)

  predicate ChecksumFlag(flags: u32) {
    flags % 2 == 1
  }

  // ---------------------------------------------------------------- encoding

  // The length word of a document sequence counts itself, the identifier with
  // its terminator, and the documents.
  function SequenceLength(identifier: seq<byte>, docs: seq<seq<byte>>): int {
    |identifier| + 5 + |Concat(docs)|
  }

  function EncodeSection(s: Section): (b: seq<byte>)
    ensures |b| > 0
  {
    match s
    case Single(doc) => [0] + doc
    case Sequence(identifier, docs) =>
      [1] + AppendI32(ToI32(SequenceLength(identifier, docs))) + AppendCString(identifier) + Concat(docs)
  }

  function EncodeSections(ss: seq<Section>): seq<byte> {
    Spread(EncodeSection, ss)
  }

  function Tail(flags: u32, checksum: u32): (b: seq<byte>)
    ensures |b| == if ChecksumFlag(flags) then 4 else 0
  {
    if ChecksumFlag(flags) then Word(checksum) else []
  }

  function EncodeBody(m: MsgBody): seq<byte> {
    Word(m.flags) + EncodeSections(m.sections) + Tail(m.flags, m.checksum)
  }

  // ---------------------------------------------------------------- decoding

  // The reader of a document sequence: the driver's, with its checks.
  function ReadSequence(src: seq<byte>): (r: Read<Section>)
    ensures r.Got? ==> |r.rest| < |src|
  {
    if |src| < 4 then Bad
    else
      var n := Signed(Unword(src));
      if n > |src| || n < 4 then Bad
      else
        match ReadCString(src[4..n])
        case Bad => Bad
        case Got(identifier, inner) =>
          var (docs, left) := ReadDocuments(inner);
          if left != [] then Bad else Got(Sequence(identifier, docs), src[n..])
  }

  function ReadSection(src: seq<byte>): (r: Read<Section>)
    requires src != []
    ensures r.Got? ==> |r.rest| < |src|
  {
    if src[0] == 0 then
      match ReadDocument(src[1..])
      case Bad => Bad
      case Got(doc, rest) => Got(Single(doc), rest)
    else if src[0] == 1 then ReadSequence(src[1..])
    else Bad
  }

  function DecodeSections(src: seq<byte>, checksumPresent: bool): Parsed
    decreases |src|
  {
    if src == [] then Parsed([], None)
    else if checksumPresent && |src| == 4 then Parsed([], Some(Unword(src)))
    else
      match ReadSection(src)
      case Bad => Malformed
      case Got(s, rest) =>
        match DecodeSections(rest, checksumPresent)
        case Malformed => Malformed
        case Parsed(ss, checksum) => Parsed([s] + ss, checksum)
  }

  function DecodeBody(src: seq<byte>): Result<MsgBody> {
    if |src| < 4 then Err
    else
      var flags := Unword(src);
      match DecodeSections(src[4..], ChecksumFlag(flags))
      case Malformed => Err
      case Parsed(ss, checksum) => Ok(MsgBody(flags, ss, if checksum.Some? then checksum.value else 0))
  }

  // -------------------------------------------------------- decode of encode

  predicate WellFormed(s: Section) {
    match s
    case Single(doc) => IsDocument(doc)
    case Sequence(identifier, docs) =>
      NulFree(identifier) && AllDocuments(docs) && SequenceLength(identifier, docs) < 0x8000_0000
  }

  predicate AllWellFormed(ss: seq<Section>) {
    forall i :: 0 <= i < |ss| ==> WellFormed(ss[i])
  }

  lemma SequenceBytes(identifier: seq<byte>, docs: seq<seq<byte>>, n: i32)
    requires SequenceLength(identifier, docs) == n
    ensures EncodeSection(Sequence(identifier, docs)) ==
            [1] + (AppendI32(n) + (AppendCString(identifier) + Concat(docs)))
  {
    assert ToI32(n) == n;
    Nest([1], AppendI32(n), AppendCString(identifier), Concat(docs));
  }

  lemma Nest(a: seq<byte>, b: seq<byte>, c: seq<byte>, d: seq<byte>)
    ensures a + b + c + d == a + (b + (c + d))
  {
  }

  lemma Stretch(word: seq<byte>, inner: seq<byte>, rest: seq<byte>)
    requires |word| == 4
    ensures var src := ([1] + (word + inner))[1..] + rest;
            var n := 4 + |inner|;
            |src| == n + |rest| && src == word + src[4..] && src[4..n] == inner && src[n..] == rest
  {
    assert ([1] + (word + inner))[1..] == word + inner;
  }

  // How the bytes of a sequence, its type byte aside, lie before the rest.
  lemma SequenceShape(identifier: seq<byte>, docs: seq<seq<byte>>, rest: seq<byte>)
    requires SequenceLength(identifier, docs) < 0x8000_0000
    ensures var n := SequenceLength(identifier, docs);
            var src := EncodeSection(Sequence(identifier, docs))[1..] + rest;
            && n <= |src| && src == AppendI32(n) + src[4..]
            && src[4..n] == AppendCString(identifier) + Concat(docs) && src[n..] == rest
  {
    var n := SequenceLength(identifier, docs);
    SequenceBytes(identifier, docs, n);
    Stretch(AppendI32(n), AppendCString(identifier) + Concat(docs), rest);
  }

  lemma ReadEncodedSequence(identifier: seq<byte>, docs: seq<seq<byte>>, rest: seq<byte>)
    requires WellFormed(Sequence(identifier, docs))
    ensures ReadSequence(EncodeSection(Sequence(identifier, docs))[1..] + rest) == Got(Sequence(identifier, docs), rest)
  {
    var n := SequenceLength(identifier, docs);
    var src := EncodeSection(Sequence(identifier, docs))[1..] + rest;
    SequenceShape(identifier, docs, rest);
    ReadAppendI32(n, src[4..]);
    ReadAppendCString(identifier, Concat(docs));
    ReadConcat(docs);
  }

  lemma ReadEncodedSection(s: Section, rest: seq<byte>)
    requires WellFormed(s)
    ensures ReadSection(EncodeSection(s) + rest) == Got(s, rest)
    ensures |EncodeSection(s)| >= 5
  {
    var src := EncodeSection(s) + rest;
    match s
    case Single(doc) =>
      assert src[1..] == doc + rest;
      ReadAppendDocument(doc, rest);
    case Sequence(identifier, docs) =>
      assert src[1..] == EncodeSection(s)[1..] + rest;
      ReadEncodedSequence(identifier, docs, rest);
  }

  lemma DecodeOne(s: Section, rest: seq<byte>, checksumPresent: bool)
    requires WellFormed(s)
    ensures DecodeSections(EncodeSection(s) + rest, checksumPresent) ==
            var p := DecodeSections(rest, checksumPresent);
            if p.Malformed? then p else Parsed([s] + p.sections, p.checksum)
  {
    ReadEncodedSection(s, rest);
  }

  lemma DecodeTail(flags: u32, checksum: u32)
    ensures DecodeSections(Tail(flags, checksum), ChecksumFlag(flags)) ==
            Parsed([], if ChecksumFlag(flags) then Some(checksum) else None)
  {
    UnwordWord(checksum, []);
    assert Word(checksum) + [] == Word(checksum);
  }

  // A section takes at least five bytes, so no boundary between sections can be
  // mistaken for the four bytes of the checksum.
  lemma {:induction false} DecodeEncodedSections(ss: seq<Section>, flags: u32, checksum: u32)
    requires AllWellFormed(ss)
    ensures DecodeSections(EncodeSections(ss) + Tail(flags, checksum), ChecksumFlag(flags)) ==
            Parsed(ss, if ChecksumFlag(flags) then Some(checksum) else None)
  {
    var tail := Tail(flags, checksum);
    if ss == [] {
      assert EncodeSections(ss) + tail == tail;
      DecodeTail(flags, checksum);
    } else {
      var rest := EncodeSections(ss[1..]) + tail;
      assert EncodeSections(ss) + tail == EncodeSection(ss[0]) + rest;
      DecodeEncodedSections(ss[1..], flags, checksum);
      DecodeOne(ss[0], rest, ChecksumFlag(flags));
      assert ss == [ss[0]] + ss[1..];
    }
  }

  // What decoding the encoding ought to give: a checksum that the flags do not
  // announce is not written and reads back as zero.
  function Announced(m: MsgBody): MsgBody {
    if ChecksumFlag(m.flags) then m else m.(checksum := 0)
  }

  lemma WellFormedDecodes(m: MsgBody)
    requires AllWellFormed(m.sections)
    ensures DecodeBody(EncodeBody(m)) == Ok(Announced(m))
  {
    var rest := EncodeSections(m.sections) + Tail(m.flags, m.checksum);
    var src := EncodeBody(m);
    assert src == Word(m.flags) + rest;
    UnwordWord(m.flags, rest);
    assert src[4..] == rest;
    DecodeEncodedSections(m.sections, m.flags, m.checksum);
  }

  // -------------------------------------------------------- encode of decode

  lemma LengthWord(src: seq<byte>)
    requires |src| >= 4
    ensures AppendI32(Signed(Unword(src))) == src[..4]
  {
    WordUnword(src);
  }

  // An identifier and documents that fill their stretch exactly.
  lemma ReadContentsParts(stretch: seq<byte>)
    requires ReadCString(stretch).Got? && ReadDocuments(ReadCString(stretch).rest).1 == []
    ensures var docs := ReadDocuments(ReadCString(stretch).rest).0;
            && stretch == AppendCString(ReadCString(stretch).value) + Concat(docs)
            && NulFree(ReadCString(stretch).value) && AllDocuments(docs)
  {
    ReadCStringParts(stretch);
    var inner := ReadCString(stretch).rest;
    ReadDocumentsParts(inner);
    assert Concat(ReadDocuments(inner).0) + [] == Concat(ReadDocuments(inner).0);
  }

  lemma RebuildSequence(src: seq<byte>, n: i32, identifier: seq<byte>, docs: seq<seq<byte>>)
    requires 4 <= n <= |src| && Signed(Unword(src)) == n
    requires src[4..n] == AppendCString(identifier) + Concat(docs)
    ensures SequenceLength(identifier, docs) == n
    ensures [1] + src == EncodeSection(Sequence(identifier, docs)) + src[n..]
  {
    LengthWord(src);
    assert |src[4..n]| == n - 4;
    SequenceBytes(identifier, docs, n);
    assert src == (src[..4] + src[4..n]) + src[n..];
    assert [1] + src == ([1] + (src[..4] + src[4..n])) + src[n..];
  }

  lemma ReadSequenceParts(src: seq<byte>)
    requires ReadSequence(src).Got?
    ensures [1] + src == EncodeSection(ReadSequence(src).value) + ReadSequence(src).rest
    ensures WellFormed(ReadSequence(src).value)
  {
    var n := Signed(Unword(src));
    var Sequence(identifier, docs) := ReadSequence(src).value;
    ReadContentsParts(src[4..n]);
    RebuildSequence(src, n, identifier, docs);
  }

  lemma ReadSectionParts(src: seq<byte>)
    requires src != [] && ReadSection(src).Got?
    ensures src == EncodeSection(ReadSection(src).value) + ReadSection(src).rest
    ensures WellFormed(ReadSection(src).value)
  {
    assert src == [src[0]] + src[1..];
    if src[0] == 0 {
      ReadDocumentParts(src[1..]);
    } else {
      ReadSequenceParts(src[1..]);
    }
  }

  function ChecksumBytes(c: Option<u32>): seq<byte> {
    if c.Some? then Word(c.value) else []
  }

  lemma SectionsCons(s: Section, ss: seq<Section>, t: seq<byte>)
    ensures EncodeSection(s) + (EncodeSections(ss) + t) == EncodeSections([s] + ss) + t
  {
    assert ([s] + ss)[1..] == ss;
    assert EncodeSections([s] + ss) == EncodeSection(s) + EncodeSections(ss);
    Regroup(EncodeSection(s), EncodeSections(ss), t);
  }

  lemma Regroup(a: seq<byte>, b: seq<byte>, c: seq<byte>)
    ensures a + (b + c) == (a + b) + c
  {
  }

  lemma DecodeChecksum(src: seq<byte>)
    requires |src| == 4
    ensures src == EncodeSections([]) + ChecksumBytes(Some(Unword(src)))
  {
    WordUnword(src);
    assert src == src[..4];
  }

  // What was decoded, checksum or not, is all there was.
  lemma {:induction false} DecodedSectionsParts(src: seq<byte>, checksumPresent: bool)
    requires DecodeSections(src, checksumPresent).Parsed?
    ensures var p := DecodeSections(src, checksumPresent);
            && src == EncodeSections(p.sections) + ChecksumBytes(p.checksum)
            && AllWellFormed(p.sections)
            && (p.checksum.Some? ==> checksumPresent)
    decreases |src|
  {
    var p := DecodeSections(src, checksumPresent);
    if src == [] {
    } else if checksumPresent && |src| == 4 {
      DecodeChecksum(src);
    } else {
      ReadSectionParts(src);
      var s, rest := ReadSection(src).value, ReadSection(src).rest;
      DecodedSectionsParts(rest, checksumPresent);
      var q := DecodeSections(rest, checksumPresent);
      SectionsCons(s, q.sections, ChecksumBytes(q.checksum));
    }
  }

  /**
   Decoding an encoded body gives back flags, sections and checksum if and only if
   every section is well formed: documents with their own length, identifiers
   without a zero byte, and sequences whose length fits its 32-bit word.
   */
  lemma BodyRoundTrip(m: MsgBody)
    ensures DecodeBody(EncodeBody(m)) == Ok(Announced(m)) <==> AllWellFormed(m.sections)
  {
    if AllWellFormed(m.sections) {
      WellFormedDecodes(m);
    } else if DecodeBody(EncodeBody(m)).Ok? {
      DecodedIsWellFormed(EncodeBody(m));
    }
  }

  lemma DecodedIsWellFormed(src: seq<byte>)
    requires DecodeBody(src).Ok?
    ensures AllWellFormed(DecodeBody(src).value.sections)
  {
    DecodedSectionsParts(src[4..], ChecksumFlag(Unword(src)));
  }

  // After the flags come well-formed sections and then four bytes more.
  ghost predicate EndsInChecksum(src: seq<byte>)
    requires |src| >= 4
  {
    exists ss, w :: AllWellFormed(ss) && |w| == 4 && src[4..] == EncodeSections(ss) + w
  }

  // With the flag set, a checksum is read exactly if the bytes end in one.
  lemma ChecksumIsThere(src: seq<byte>)
    requires |src| >= 4 && ChecksumFlag(Unword(src)) && DecodeSections(src[4..], true).Parsed?
    ensures DecodeSections(src[4..], true).checksum.Some? <==> EndsInChecksum(src)
  {
    var p := DecodeSections(src[4..], true);
    DecodedSectionsParts(src[4..], true);
    if p.checksum.Some? {
      assert src[4..] == EncodeSections(p.sections) + Word(p.checksum.value);
    }
    if EndsInChecksum(src) {
      var ss, w :| AllWellFormed(ss) && |w| == 4 && src[4..] == EncodeSections(ss) + w;
      WordUnword(w);
      assert w == w[..4] == Tail(Unword(src), Unword(w));
      DecodeEncodedSections(ss, Unword(src), Unword(w));
    }
  }

  /**
   Re-encoding an accepted body gives the identical bytes, recomputed sequence
   lengths included, if and only if the bytes end in a checksum when the flags
   announce one.
   */
  lemma CanonicalForm(src: seq<byte>)
    requires DecodeBody(src).Ok?
    ensures AllWellFormed(DecodeBody(src).value.sections)
    ensures EncodeBody(DecodeBody(src).value) == src <==> (ChecksumFlag(Unword(src)) ==> EndsInChecksum(src))
  {
    hide Word, Unword, DecodeSections, EncodeSections, ChecksumFlag, EndsInChecksum;
    var m := DecodeBody(src).value;
    var p := DecodeSections(src[4..], ChecksumFlag(m.flags));
    WordUnword(src);
    DecodedSectionsParts(src[4..], ChecksumFlag(m.flags));
    if ChecksumFlag(m.flags) { ChecksumIsThere(src); }
    assert src == src[..4] + src[4..];
    assert src == Word(m.flags) + (EncodeSections(p.sections) + ChecksumBytes(p.checksum));
    assert EncodeBody(m) == Word(m.flags) + (EncodeSections(p.sections) + Tail(m.flags, m.checksum));
    if ChecksumFlag(m.flags) && p.checksum.None? {
      assert |EncodeBody(m)| == |src| + 4;
    }
  }

  // A body that announces a checksum and ends without one: it is accepted, and
  // re-encodes four bytes longer.
  lemma MissingChecksum()
    ensures var src: seq<byte> := [1, 0, 0, 0, 0, 5, 0, 0, 0, 0];
            DecodeBody(src) == Ok(MsgBody(1, [Single([5, 0, 0, 0, 0])], 0))
            && EncodeBody(DecodeBody(src).value) == src + [0, 0, 0, 0]
  {
    hide Word, Unword, ToI32, ReadDocument, IsDocument;
    var doc: seq<byte> := [5, 0, 0, 0, 0];
    var src: seq<byte> := [1, 0, 0, 0, 0, 5, 0, 0, 0, 0];
    FiveBytes();
    assert src[4..] == [0] + doc && ([0] + doc)[1..] == doc && doc + [] == doc;
    ReadAppendDocument(doc, []);
    assert DecodeSections([], true) == Parsed([], None);
    assert DecodeSections(src[4..], true) == Parsed([Single(doc)] + [], None);
    assert [Single(doc)] + [] == [Single(doc)] && [Single(doc)][1..] == [];
    assert EncodeSections([Single(doc)]) == EncodeSection(Single(doc)) + EncodeSections([]);
  }

  lemma FiveBytes()
    ensures Unword([1, 0, 0, 0, 0, 5, 0, 0, 0, 0]) == 1 && IsDocument([5, 0, 0, 0, 0])
    ensures Word(1) == [1, 0, 0, 0] && Word(0) == [0, 0, 0, 0]
  {
    var doc: seq<byte> := [5, 0, 0, 0, 0];
    assert Unword(doc) == 5;
  }
}
