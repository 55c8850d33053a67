/** Writing RAR5 headers, and what the walker makes of what was written. */
module Rar5Printer {
  import opened VInt
  import opened Rar5

  // The file fields, with what their flags say: a directory, a time, a checksum.
  datatype FileFields = FileFields(dir: bool, timed: bool, summed: bool, moreFlags: nat, size: nat, attributes: nat,
                                   mtime: seq<byte>, crc: seq<byte>, compression: nat, host: nat, name: seq<byte>)

  datatype Record = Record(kind: nat, payload: seq<byte>)

  // What may follow the records in the extra area: nothing, or something that is no record: one that
  // announces no bytes at all or more than there are, one whose size or whose kind does not end.
  datatype Tail = Whole | Broken(size: nat, rest: seq<byte>) | Unended(bytes: seq<byte>)
                | Untyped(payload: seq<byte>, rest: seq<byte>)

  datatype Kind = FileKind | EncryptionKind | EndKind | OtherKind(number: nat)

  // A header, with what its flags say: an extra area, a data area. The gap is whatever the body holds
  // between the known fields and the extra area.
  datatype Header = Header(crc: seq<byte>, kind: Kind, extra: bool, filled: bool, moreFlags: nat, file: FileFields,
                           gap: seq<byte>, records: seq<Record>, tail: Tail, data: seq<byte>)

  predicate Word(v: nat) {
    v < TWO_TO_THE_64
  }

  // ------------------------------------------------------------------------------------ printer

  // The numbers of the format, from the sections "General archive block format" and "File header and
  // service header" of the RAR 5.0 archive format note.
  function Number(k: Kind): nat {
    match k
    case FileKind => 2
    case EncryptionKind => 4
    case EndKind => 5
    case OtherKind(number) => number
  }

  function HeaderFlags(h: Header): nat {
    (if h.extra then 1 else 0) + (if h.filled then 2 else 0) + 4 * h.moreFlags
  }

  function FileFlags(f: FileFields): nat {
    (if f.dir then 1 else 0) + (if f.timed then 2 else 0) + (if f.summed then 4 else 0) + 8 * f.moreFlags
  }

  // Each printer takes the bytes that come after what it prints.
  function PrintFile(f: FileFields, after: seq<byte>): seq<byte> {
    Print(FileFlags(f)) + (Print(f.size) + (Print(f.attributes) + (f.mtime + (f.crc + PrintName(f, after)))))
  }

  function PrintName(f: FileFields, after: seq<byte>): seq<byte> {
    Print(f.compression) + (Print(f.host) + (Print(|f.name|) + (f.name + after)))
  }

  function PrintRecord(r: Record): seq<byte> {
    Print(r.kind) + r.payload
  }

  function PrintRecords(rs: seq<Record>): seq<byte> {
    if rs == [] then []
    else Print(|PrintRecord(rs[0])|) + (PrintRecord(rs[0]) + PrintRecords(rs[1..]))
  }

  function PrintTail(t: Tail): seq<byte> {
    match t
    case Whole => []
    case Broken(size, rest) => Print(size) + rest
    case Unended(bytes) => bytes
    case Untyped(payload, rest) => Print(|payload|) + (payload + rest)
  }

  function PrintExtra(h: Header): seq<byte> {
    PrintRecords(h.records) + PrintTail(h.tail)
  }

  function PrintIf(present: bool, value: nat): seq<byte> {
    if present then Print(value) else []
  }

  function PrintFields(h: Header): seq<byte> {
    var rest := h.gap + PrintExtra(h);
    if h.kind.FileKind? then PrintFile(h.file, rest) else rest
  }

  function PrintBody(h: Header): seq<byte> {
    Print(Number(h.kind)) + (Print(HeaderFlags(h)) + (PrintIf(h.extra, |PrintExtra(h)|) +
    (PrintIf(h.filled, |h.data|) + PrintFields(h))))
  }

  function PrintHeader(h: Header, after: seq<byte>): seq<byte> {
    h.crc + (Print(|PrintBody(h)|) + (PrintBody(h) + (h.data + after)))
  }

  function PrintAll(hs: seq<Header>, after: seq<byte>): seq<byte> {
    if hs == [] then after else PrintHeader(hs[0], PrintAll(hs[1..], after))
  }

  function PrintArchive(hs: seq<Header>, after: seq<byte>): seq<byte> {
    [0x52, 0x61, 0x72, 0x21, 0x1a, 0x07, 0x01, 0x00] + PrintAll(hs, after)
  }

  predicate WellFormedFile(f: FileFields) {
    && Word(FileFlags(f)) && Word(f.size) && Word(f.attributes) && Word(f.compression) && Word(f.host)
    && |f.mtime| == (if f.timed then 4 else 0) && |f.crc| == (if f.summed then 4 else 0)
  }

  predicate WellFormedKind(k: Kind) {
    k.OtherKind? ==> Word(k.number) && k.number !in {2, 4, 5}
  }

  // Each of these bytes asks for another.
  predicate AllContinue(bytes: seq<byte>) {
    forall i | 0 <= i < |bytes| :: bytes[i] >= 128
  }

  predicate WellFormedTail(t: Tail) {
    match t
    case Whole => true
    case Broken(size, rest) => Word(size) && (size == 0 || size > |rest|)
    case Unended(bytes) => bytes != [] && AllContinue(bytes)
    case Untyped(payload, rest) => Word(|payload|) && payload != [] && AllContinue(payload)
  }

  const TWO_MIB: nat := 2 * 1024 * 1024

  // Values fit their fields, optional parts are there only when their flag says so, and the body
  // keeps to the size limit of the format.
  predicate WellFormed(h: Header) {
    && |h.crc| == 4 && WellFormedKind(h.kind) && Word(HeaderFlags(h)) && Word(|h.data|)
    && WellFormedFile(h.file) && WellFormedTail(h.tail)
    && (forall r <- h.records :: Word(r.kind))
    && (h.extra || (h.records == [] && h.tail.Whole?))
    && (h.filled || h.data == [])
    && |PrintBody(h)| <= TWO_MIB
  }

  // What the walker makes of the flags, kinds and limit as numbers.
  lemma FileFlagsRead(f: FileFields)
    ensures Bit(FileFlags(f), FILE_DIR) == f.dir
    ensures Bit(FileFlags(f), FILE_TIME) == f.timed && Bit(FileFlags(f), FILE_CRC) == f.summed
  {
    var a, b, c := if f.dir then 1 else 0, if f.timed then 1 else 0, if f.summed then 1 else 0;
    assert FileFlags(f) == a + 2 * (b + 2 * (c + 2 * f.moreFlags));
    Halves(a, b + 2 * (c + 2 * f.moreFlags));
    Halves(b, c + 2 * f.moreFlags);
    Quarters(a, b, c + 2 * f.moreFlags);
    Halves(c, f.moreFlags);
  }

  lemma Halves(a: nat, n: nat)
    requires a <= 1
    ensures (a + 2 * n) / 2 == n && (a + 2 * n) % 2 == a
  {
  }

  lemma Quarters(a: nat, b: nat, n: nat)
    requires a <= 1 && b <= 1
    ensures (a + 2 * (b + 2 * n)) / 4 == n
  {
  }

  lemma HeaderFlagsRead(h: Header)
    ensures Bit(HeaderFlags(h), FLAG_EXTRA) == h.extra && Bit(HeaderFlags(h), FLAG_DATA) == h.filled
  {
  }

  lemma KindRead(k: Kind)
    requires WellFormedKind(k)
    ensures (Number(k) == FILE_HEADER <==> k.FileKind?) && (Number(k) == ENCRYPTION <==> k.EncryptionKind?)
    ensures (Number(k) == END_HEADER <==> k.EndKind?) && Word(Number(k))
  {
  }

  // A header as the repository's own test writer means it: zero checksum, filler data.
  predicate Tested(h: Header, headerType: nat, flags: nat, dataSize: nat) {
    && h.crc == [0, 0, 0, 0] && Number(h.kind) == headerType && HeaderFlags(h) == flags
    && h.data == if h.filled then seq(dataSize, _ => 0xCC) else []
  }

  // What that writer has to be given besides: the size of the extra area, which it does not write
  // itself, and all fields after the sizes.
  function TestedFields(h: Header): seq<byte> {
    PrintIf(h.extra, |PrintExtra(h)|) + PrintFields(h)
  }

  // Then it prints the header, unless that has both extra and data area, whose sizes it would write
  // in the wrong order.
  method TestHeader(headerType: nat, flags: nat, dataSize: nat, fields: seq<byte>) returns (out: seq<byte>)
    ensures forall h: Header ::
              Tested(h, headerType, flags, dataSize) && fields == TestedFields(h) && !(h.extra && h.filled) ==>
                out == PrintHeader(h, [])
  {
    hide Print, Bit, PrintBody, TestedFields, HeaderFlags;
    var part := PrintVInt(headerType);
    var body := part;
    part := PrintVInt(flags);
    body := body + part;
    if Bit(flags, FLAG_DATA) {
      part := PrintVInt(dataSize);
      body := body + part;
    }
    body := body + fields;
    out := [0, 0, 0, 0];
    part := PrintVInt(|body|);
    out := out + part;
    out := out + body;
    if Bit(flags, FLAG_DATA) {
      out := out + seq(dataSize, _ => 0xCC);
    }
    ghost var data := if Bit(flags, FLAG_DATA) then seq(dataSize, _ => 0xCC) else [];
    assert out == [0, 0, 0, 0] + (Print(|body|) + (body + (data + [])));
    assert body == Print(headerType) + (Print(flags) + (PrintIf(Bit(flags, FLAG_DATA), dataSize) + fields));
    forall h: Header | Tested(h, headerType, flags, dataSize) && fields == TestedFields(h) && !(h.extra && h.filled)
      ensures out == PrintHeader(h, [])
    {
      HeaderFlagsRead(h);
      TestedBody(h, dataSize);
    }
  }

  lemma TestedBody(h: Header, dataSize: nat)
    requires !(h.extra && h.filled) && (h.filled ==> |h.data| == dataSize)
    ensures PrintBody(h) ==
            Print(Number(h.kind)) + (Print(HeaderFlags(h)) + (PrintIf(h.filled, dataSize) + TestedFields(h)))
  {
    hide Print, PrintFields, PrintExtra, HeaderFlags;
    var fields := PrintFields(h);
    assert [] + fields == fields && [] + (PrintIf(h.filled, dataSize) + fields) == PrintIf(h.filled, dataSize) + fields;
  }

  // ---------------------------------------------------------------------------------- reference

  // The file name a header shows: that of a file, not a directory, if it is not empty.
  function Shown(h: Header): (names: seq<seq<byte>>)
    ensures |names| <= 1
  {
    if h.kind.FileKind? && !h.file.dir && h.file.name != [] then [h.file.name] else []
  }

  function AllShown(hs: seq<Header>): seq<seq<byte>> {
    if hs == [] then [] else Shown(hs[0]) + AllShown(hs[1..])
  }

  // Headers that end the archive listing: those meant to, and those with a broken record.
  predicate Stops(h: Header) {
    h.kind.EncryptionKind? || h.kind.EndKind? || !h.tail.Whole?
  }

  predicate MarksEncrypted(h: Header) {
    h.kind.EncryptionKind? || EncryptionRecord(h.records)
  }

  // A record of kind 1 carries the encryption parameters of its file.
  predicate EncryptionRecord(rs: seq<Record>) {
    exists r :: r in rs && r.kind == 1
  }

  // The headers up to and including the first one that stops the listing.
  function UpToStop(hs: seq<Header>): (n: seq<Header>)
    ensures n <= hs
  {
    if hs == [] then [] else if Stops(hs[0]) then [hs[0]] else
    var more := UpToStop(hs[1..]);
    [hs[0]] + more
  }

  // How many of the headers are looked at: one that fills the last place is still read whole.
  function Processed(hs: seq<Header>, room: nat): (n: nat)
    ensures n <= |hs|
  {
    if hs == [] || room == 0 then 0
    else if Stops(hs[0]) then 1
    else 1 + Processed(hs[1..], room - |Shown(hs[0])|)
  }

  function Min(a: nat, b: nat): nat {
    if a <= b then a else b
  }

  // --------------------------------------------------------------------------------- round trip

  lemma Drop(a: seq<byte>, b: seq<byte>)
    ensures (a + b)[|a|..] == b && (a + b)[..|a|] == a
  {
  }

  lemma FieldRoundTrip(value: nat, after: seq<byte>)
    requires Word(value)
    ensures ReadField(Print(value) + after) == Field(value, after)
  {
    hide Read, Print;
    RoundTrip(value, after);
  }

  lemma FieldIfRoundTrip(present: bool, value: nat, after: seq<byte>)
    requires Word(value) && (present || value == 0)
    ensures ReadFieldIf(present, PrintIf(present, value) + after) == Field(value, after)
  {
    FieldRoundTrip(value, after);
    assert [] + after == after;
  }

  lemma QuadRoundTrip(present: bool, quad: seq<byte>, after: seq<byte>)
    requires |quad| == if present then 4 else 0
    ensures SkipQuadIf(present, quad + after) == Field(0, after)
  {
  }

  lemma NameRoundTrip(f: FileFields, after: seq<byte>)
    requires WellFormedFile(f) && Word(|f.name|)
    ensures ReadName(FileFlags(f), PrintName(f, after)) ==
            Entry(if !f.dir && f.name != [] then [f.name] else [], after)
  {
    hide ReadField, Print, Bit, FileFlags;
    FileFlagsRead(f);
    var named := f.name + after;
    FieldRoundTrip(|f.name|, named);
    FieldRoundTrip(f.host, Print(|f.name|) + named);
    FieldRoundTrip(f.compression, Print(f.host) + (Print(|f.name|) + named));
    Drop(f.name, after);
  }

  // The file flags come back as the number written, and the two optional fields are passed over
  // exactly when the flags say they are there.
  lemma HeadRoundTrip(f: FileFields, after: seq<byte>)
    requires WellFormedFile(f)
    ensures ReadHead(PrintFile(f, after)) == Field(FileFlags(f), PrintName(f, after))
  {
    hide ReadField, SkipQuadIf, Print, Bit, PrintName, FileFlags;
    FileFlagsRead(f);
    var b5 := PrintName(f, after);
    var b4 := f.crc + b5;
    var b3 := f.mtime + b4;
    QuadRoundTrip(f.summed, f.crc, b5);
    QuadRoundTrip(f.timed, f.mtime, b4);
    FieldRoundTrip(f.attributes, b3);
    FieldRoundTrip(f.size, Print(f.attributes) + b3);
    FieldRoundTrip(FileFlags(f), Print(f.size) + (Print(f.attributes) + b3));
  }

  // Records are well formed up to a broken one, and mark encryption exactly if one of those before it
  // has kind 1.
  lemma {:induction false} RecordsRoundTrip(rs: seq<Record>, tail: Tail)
    requires Word(|PrintRecords(rs)|) && (forall r <- rs :: Word(r.kind)) && WellFormedTail(tail)
    ensures Scan(PrintRecords(rs) + PrintTail(tail)) == Scanned(tail.Whole?, EncryptionRecord(rs))
  {
    hide Read, Print, Scan, PrintTail;
    if rs == [] {
      TailRoundTrip(tail);
      assert [] + PrintTail(tail) == PrintTail(tail);
    } else {
      var one, rest := PrintRecord(rs[0]), PrintRecords(rs[1..]);
      RecordsRoundTrip(rs[1..], tail);
      ScanNext(rs[0], rest + PrintTail(tail));
      assert PrintRecords(rs) + PrintTail(tail) == Print(|one|) + (one + (rest + PrintTail(tail)));
      assert rs == [rs[0]] + rs[1..];
    }
  }

  lemma ScanNext(r: Record, more: seq<byte>)
    requires Word(r.kind) && Word(|PrintRecord(r)|)
    ensures var one, s := PrintRecord(r), Scan(more);
            Scan(Print(|one|) + (one + more)) == Scanned(s.ok, r.kind == 1 || s.encrypted)
  {
    hide Read, Print;
    var one := PrintRecord(r);
    RoundTrip(|one|, one + more);
    RoundTrip(r.kind, r.payload);
    var bytes, k := Print(|one|) + (one + more), |Print(|one|)|;
    assert bytes[k..] == one + more;
    assert bytes[k..k + |one|] == one && bytes[k + |one|..] == more;
  }

  lemma NeverEnds(bytes: seq<byte>)
    requires AllContinue(bytes)
    ensures Read(bytes).Bad?
  {
    hide Read;
    ReadIff(bytes, 0);
  }

  lemma TailRoundTrip(t: Tail)
    requires WellFormedTail(t)
    ensures Scan(PrintTail(t)) == Scanned(t.Whole?, false)
  {
    hide Read, Print;
    match t {
      case Whole =>
      case Broken(size, rest) => RoundTrip(size, rest);
      case Unended(bytes) => NeverEnds(bytes);
      case Untyped(payload, rest) =>
        RoundTrip(|payload|, payload + rest);
        var bytes, k := PrintTail(t), |Print(|payload|)|;
        assert bytes[k..] == payload + rest;
        assert bytes[k..k + |payload|] == payload;
        NeverEnds(payload);
    }
  }

  lemma GenericRoundTrip(h: Header)
    requires WellFormed(h)
    ensures ReadGeneric(PrintBody(h)) ==
            Generic(Number(h.kind), HeaderFlags(h), |PrintExtra(h)|, |h.data|, PrintFields(h))
  {
    ExtraFits(h);
    KindRead(h.kind);
    hide ReadField, ReadFieldIf, Print, PrintIf, PrintExtra, PrintFields, Bit, HeaderFlags, Number;
    HeaderFlagsRead(h);
    var b4 := PrintFields(h);
    var b3 := PrintIf(h.filled, |h.data|) + b4;
    var b2 := PrintIf(h.extra, |PrintExtra(h)|) + b3;
    FieldIfRoundTrip(h.filled, |h.data|, b4);
    FieldIfRoundTrip(h.extra, |PrintExtra(h)|, b3);
    FieldRoundTrip(HeaderFlags(h), b2);
    FieldRoundTrip(Number(h.kind), Print(HeaderFlags(h)) + b2);
  }

  // The parts of a body fit where the body does.
  lemma ExtraFits(h: Header)
    requires WellFormed(h)
    ensures |PrintRecords(h.records)| <= |PrintExtra(h)| <= |PrintFields(h)| <= |PrintBody(h)| <= HEADER_MAX
    ensures h.kind.FileKind? ==> |h.file.name| <= HEADER_MAX
    ensures !h.extra ==> |PrintExtra(h)| == 0
  {
  }

  lemma EntryRoundTrip(h: Header)
    requires WellFormed(h)
    ensures (if h.kind.FileKind? then ReadEntry(PrintFields(h)) else Entry([], PrintFields(h)))
            == Entry(Shown(h), h.gap + PrintExtra(h))
  {
    ExtraFits(h);
    hide Read, Print, Bit, ReadHead, ReadName, PrintBody, PrintFile, PrintName, PrintExtra;
    if h.kind.FileKind? {
      HeadRoundTrip(h.file, h.gap + PrintExtra(h));
      NameRoundTrip(h.file, h.gap + PrintExtra(h));
    }
  }

  // What the walker takes from a printed header.
  lemma {:induction false} ProcessRoundTrip(h: Header)
    requires WellFormed(h)
    ensures var s := Process(PrintBody(h));
            && s.Halt? == Stops(h)
            && s.names == Shown(h)
            && s.encrypted == MarksEncrypted(h)
            && (s.Next? ==> s.data == |h.data|)
  {
    hide Read, Print, Bit, ReadGeneric, ReadEntry, Scan, PrintBody, PrintFields, PrintRecords, PrintExtra, PrintRecord,
         EncryptionRecord, Shown, ReadHead, ReadName, Number;
    GenericRoundTrip(h);
    KindRead(h.kind);
    ExtraFits(h);
    EntryRoundTrip(h);
    ExtraRoundTrip(h);
    var extra := PrintExtra(h);
    assert (h.gap + extra)[|h.gap + extra| - |extra|..] == extra;
  }

  lemma ExtraRoundTrip(h: Header)
    requires WellFormed(h)
    ensures Scan(PrintExtra(h)) == Scanned(h.tail.Whole?, EncryptionRecord(h.records))
  {
    ExtraFits(h);
    hide Scan, PrintRecords, PrintTail, PrintBody, EncryptionRecord, PrintFields;
    RecordsRoundTrip(h.records, h.tail);
  }

  lemma FrameRoundTrip(h: Header, after: seq<byte>)
    requires WellFormed(h)
    ensures |PrintHeader(h, after)| >= 5
    ensures ReadFrame(PrintHeader(h, after)) == Frame(PrintBody(h), h.data + after)
  {
    hide PrintBody;
    FrameOf(h.crc, PrintBody(h), h.data + after);
  }

  lemma Framed(h: Header)
    requires WellFormed(h)
    ensures |h.crc| == 4 && |PrintBody(h)| <= HEADER_MAX
  {
  }

  lemma FrameOf(crc: seq<byte>, body: seq<byte>, after: seq<byte>)
    requires |crc| == 4 && |body| <= HEADER_MAX
    ensures var rest := crc + (Print(|body|) + (body + after));
            |rest| >= 5 && ReadFrame(rest) == Frame(body, after)
  {
    hide Read, Print;
    var rest := crc + (Print(|body|) + (body + after));
    Drop(crc, Print(|body|) + (body + after));
    RoundTrip(|body|, body + after);
    var k := |Print(|body|)|;
    assert rest[4..] == Print(|body|) + (body + after);
    assert rest[4..][k..] == rest[4 + k..] == body + after;
    assert rest[4 + k..4 + k + |body|] == rest[4 + k..][..|body|] == body;
    assert rest[4 + k + |body|..] == rest[4 + k..][|body|..] == after;
  }

  // Bytes in which the walk finds nothing.
  ghost predicate Barren(after: seq<byte>) {
    forall room: nat :: Walk(after, room) == Listing([], false)
  }

  lemma ShortIsBarren(after: seq<byte>)
    requires |after| < 5
    ensures Barren(after)
  {
  }

  // From a header whose body is over the size limit on, well formed or not, nothing is found.
  lemma {:induction false} OversizedIsBarren(h: Header, after: seq<byte>)
    requires |h.crc| == 4 && TWO_MIB < |PrintBody(h)| < TWO_TO_THE_64
    ensures Barren(PrintHeader(h, after))
  {
    hide Read, Print, PrintBody, Process;
    var body := PrintBody(h);
    Drop(h.crc, Print(|body|) + (body + (h.data + after)));
    RoundTrip(|body|, body + (h.data + after));
  }

  // What the walk over printed headers gives, before it is put in closed form.
  lemma {:induction false} WalkRoundTrip(hs: seq<Header>, after: seq<byte>, room: nat)
    requires forall h <- hs :: WellFormed(h)
    requires Barren(after) || exists h :: h in hs && Stops(h)
    ensures var l := Walk(PrintAll(hs, after), room);
            && l.names == AllShown(hs[..Processed(hs, room)])
            && (l.encrypted <==> exists h :: h in hs[..Processed(hs, room)] && MarksEncrypted(h))
  {
    hide Read, Print, Bit, Process, ReadFrame, PrintHeader, PrintBody, WellFormed, MarksEncrypted;
    if hs != [] && room > 0 {
      var h, more := hs[0], PrintAll(hs[1..], after);
      var n := Processed(hs, room);
      FrameRoundTrip(h, more);
      ProcessRoundTrip(h);
      assert hs[..n] == [h] + hs[1..n];
      if Stops(h) {
        assert hs[1..n] == [];
        assert AllShown([h]) == Shown(h) + AllShown([]);
      } else {
        Drop(h.data, more);
        WalkRoundTrip(hs[1..], after, room - |Shown(h)|);
        assert hs[1..n] == hs[1..][..n - 1];
        assert hs[..n][1..] == hs[1..n];
      }
    }
  }

  lemma {:induction false} ShownUpToProcessed(hs: seq<Header>, room: nat)
    ensures var all := AllShown(UpToStop(hs)); AllShown(hs[..Processed(hs, room)]) == all[..Min(room, |all|)]
  {
    if hs != [] && room > 0 {
      var n := Processed(hs, room);
      if Stops(hs[0]) {
        assert hs[..n] == [hs[0]];
        assert AllShown([hs[0]]) == Shown(hs[0]) + AllShown([]);
      } else {
        ShownUpToProcessed(hs[1..], room - |Shown(hs[0])|);
        assert hs[..n][1..] == hs[1..][..n - 1];
        assert UpToStop(hs)[1..] == UpToStop(hs[1..]);
      }
    }
  }

  // Writing any list of headers and listing the result gives the first maxNames names shown up to
  // the first header that stops the listing, in order, and reports encryption exactly when one of
  // the headers looked at is an encryption header or carries a file encryption record. Whatever
  // follows a stopping header is ignored; without one, nothing is to be found in what follows, such
  // as bytes too few for a header.
  lemma {:induction false} ListRoundTrip(hs: seq<Header>, after: seq<byte>, maxNames: nat)
    requires forall h <- hs :: WellFormed(h)
    requires Barren(after) || exists h :: h in hs && Stops(h)
    ensures var l := List(PrintArchive(hs, after), maxNames);
            var all := AllShown(UpToStop(hs));
            && l.names == all[..Min(maxNames, |all|)]
            && (l.encrypted <==> exists h :: h in hs[..Processed(hs, maxNames)] && MarksEncrypted(h))
  {
    Drop(SIGNATURE, PrintAll(hs, after));
    ShownUpToProcessed(hs, maxNames);
    WalkRoundTrip(hs, after, maxNames);
  }

  // So a header whose body is over the size limit, well formed or not, ends the listing of those
  // before it, whatever follows.
  lemma {:induction false} OversizedEndsListing(hs: seq<Header>, big: Header, after: seq<byte>, maxNames: nat)
    requires forall h <- hs :: WellFormed(h)
    requires |big.crc| == 4 && TWO_MIB < |PrintBody(big)| < TWO_TO_THE_64
    ensures List(PrintArchive(hs, PrintHeader(big, after)), maxNames)
            == List(PrintArchive(hs, []), maxNames)
  {
    hide PrintAll, PrintHeader, PrintBody, List, WellFormed, Barren;
    OversizedIsBarren(big, after);
    ShortIsBarren([]);
    ListRoundTrip(hs, PrintHeader(big, after), maxNames);
    ListRoundTrip(hs, [], maxNames);
  }

  // ------------------------------------------------------------------------------ damaged headers

  lemma CutJoin(a: seq<byte>, b: seq<byte>, m: nat)
    requires m <= |a| + |b|
    ensures (a + b)[..m] == if m < |a| then a[..m] else a + b[..m - |a|]
  {
  }

  lemma CutField(value: nat, after: seq<byte>, m: nat)
    requires Word(value) && m <= |Print(value)| + |after|
    ensures ReadField((Print(value) + after)[..m])
            == if m < |Print(value)| then NoField else Field(value, after[..m - |Print(value)|])
  {
    hide Read, Print;
    CutJoin(Print(value), after, m);
    PrintShape(value);
    if m < |Print(value)| {
      NeverEnds(Print(value)[..m]);
    } else {
      FieldRoundTrip(value, after[..m - |Print(value)|]);
    }
  }

  lemma CutFieldIf(present: bool, value: nat, after: seq<byte>, m: nat)
    requires Word(value) && (present || value == 0) && m <= |PrintIf(present, value)| + |after|
    ensures ReadFieldIf(present, (PrintIf(present, value) + after)[..m])
            == if m < |PrintIf(present, value)| then NoField else Field(value, after[..m - |PrintIf(present, value)|])
  {
    hide ReadField, Print;
    if present {
      CutField(value, after, m);
    } else {
      assert [] + after == after;
    }
  }

  lemma CutQuad(present: bool, quad: seq<byte>, after: seq<byte>, m: nat)
    requires |quad| == (if present then 4 else 0) && m <= |quad| + |after|
    ensures SkipQuadIf(present, (quad + after)[..m])
            == if m < |quad| then NoField else Field(0, after[..m - |quad|])
  {
    CutJoin(quad, after, m);
    if m >= |quad| {
      assert (quad + after[..m - |quad|])[|quad|..] == after[..m - |quad|];
    }
  }

  lemma CutGeneric(h: Header, m: nat)
    requires WellFormed(h) && m <= |PrintBody(h)|
    ensures |PrintFields(h)| <= |PrintBody(h)|
    ensures var k := |PrintBody(h)| - |PrintFields(h)|;
            ReadGeneric(PrintBody(h)[..m]) ==
            if m < k then NoGeneric
            else Generic(Number(h.kind), HeaderFlags(h), |PrintExtra(h)|, |h.data|, PrintFields(h)[..m - k])
  {
    ExtraFits(h);
    KindRead(h.kind);
    hide ReadGeneric, ReadField, ReadFieldIf, Print, PrintIf, PrintExtra, PrintFields, Bit, HeaderFlags, Number;
    HeaderFlagsRead(h);
    CutFour(Number(h.kind), HeaderFlags(h), h.extra, |PrintExtra(h)|, h.filled, |h.data|, PrintFields(h), m);
  }

  lemma CutFour(kind: nat, flags: nat, x: bool, extra: nat, d: bool, data: nat, fields: seq<byte>, m: nat)
    requires Word(kind) && Word(flags) && Word(extra) && Word(data) && (x || extra == 0) && (d || data == 0)
    requires Bit(flags, FLAG_EXTRA) == x && Bit(flags, FLAG_DATA) == d
    requires var body := Print(kind) + (Print(flags) + (PrintIf(x, extra) + (PrintIf(d, data) + fields))); m <= |body|
    ensures var body := Print(kind) + (Print(flags) + (PrintIf(x, extra) + (PrintIf(d, data) + fields)));
            var k := |body| - |fields|;
            ReadGeneric(body[..m]) ==
            if m < k then NoGeneric else Generic(kind, flags, extra, data, fields[..m - k])
  {
    hide ReadField, ReadFieldIf, Print, PrintIf, Bit;
    var b3 := PrintIf(d, data) + fields;
    var b2 := PrintIf(x, extra) + b3;
    var b1 := Print(flags) + b2;
    var m1 := m - |Print(kind)|;
    var m2 := m1 - |Print(flags)|;
    var m3 := m2 - |PrintIf(x, extra)|;
    CutField(kind, b1, m);
    if m1 >= 0 {
      CutField(flags, b2, m1);
      if m2 >= 0 {
        CutFieldIf(x, extra, b3, m2);
        if m3 >= 0 {
          CutFieldIf(d, data, fields, m3);
        }
      }
    }
  }

  lemma CutHead(f: FileFields, after: seq<byte>, m: nat)
    requires WellFormedFile(f) && m <= |PrintFile(f, after)|
    ensures |PrintName(f, after)| <= |PrintFile(f, after)|
    ensures var k := |PrintFile(f, after)| - |PrintName(f, after)|;
            ReadHead(PrintFile(f, after)[..m]) ==
            if m < k then NoField else Field(FileFlags(f), PrintName(f, after)[..m - k])
  {
    hide ReadField, SkipQuadIf, Print, Bit, PrintName, FileFlags;
    FileFlagsRead(f);
    var b5 := PrintName(f, after);
    var b4 := f.crc + b5;
    var b3 := f.mtime + b4;
    var b2 := Print(f.attributes) + b3;
    var b1 := Print(f.size) + b2;
    CutField(FileFlags(f), b1, m);
    var m1 := m - |Print(FileFlags(f))|;
    if m1 >= 0 {
      CutField(f.size, b2, m1);
      var m2 := m1 - |Print(f.size)|;
      if m2 >= 0 {
        CutField(f.attributes, b3, m2);
        var m3 := m2 - |Print(f.attributes)|;
        if m3 >= 0 {
          CutQuad(f.timed, f.mtime, b4, m3);
          if m3 >= |f.mtime| {
            CutQuad(f.summed, f.crc, b5, m3 - |f.mtime|);
          }
        }
      }
    }
  }

  lemma CutName(f: FileFields, after: seq<byte>, m: nat)
    requires WellFormedFile(f) && Word(|f.name|) && m <= |PrintName(f, after)|
    ensures |after| <= |PrintName(f, after)|
    ensures var k := |PrintName(f, after)| - |after|;
            ReadName(FileFlags(f), PrintName(f, after)[..m]) ==
            if m < k then NoEntry
            else Entry(if !f.dir && f.name != [] then [f.name] else [], after[..m - k])
  {
    hide ReadField, Print, Bit, FileFlags;
    FileFlagsRead(f);
    var b3 := f.name + after;
    var b2 := Print(|f.name|) + b3;
    var b1 := Print(f.host) + b2;
    CutField(f.compression, b1, m);
    var m1 := m - |Print(f.compression)|;
    if m1 >= 0 {
      CutField(f.host, b2, m1);
      var m2 := m1 - |Print(f.host)|;
      if m2 >= 0 {
        CutField(|f.name|, b3, m2);
        var m3 := m2 - |Print(|f.name|)|;
        if m3 >= 0 {
          CutJoin(f.name, after, m3);
          if m3 >= |f.name| {
            Drop(f.name, after[..m3 - |f.name|]);
          }
        }
      }
    }
  }

  // Up to where the body of a header holds its fields: those of every header, and with those of a file.
  function GenericEnd(h: Header): int {
    |PrintBody(h)| - |PrintFields(h)|
  }

  function FieldsEnd(h: Header): int {
    |PrintBody(h)| - |h.gap| - |PrintExtra(h)|
  }

  // A header whose body is cut short ends the listing. If the cut leaves less than its fields, it adds
  // nothing, except that an encryption header is known by its generic fields; if it leaves less than
  // the extra area the header announces, it still adds its name.
  lemma {:induction false} CutProcess(h: Header, m: nat)
    requires WellFormed(h) && m < FieldsEnd(h) + |PrintExtra(h)| && m <= |PrintBody(h)|
    ensures Process(PrintBody(h)[..m]) ==
            if m < GenericEnd(h) then Halt([], false)
            else if h.kind.EncryptionKind? then Halt([], true)
            else if m < FieldsEnd(h) then Halt([], false)
            else Halt(Shown(h), false)
  {
    hide Read, Print, Bit, ReadGeneric, ReadEntry, Scan, PrintBody, PrintExtra, PrintFields, Number, Shown;
    CutGeneric(h, m);
    KindRead(h.kind);
    ExtraFits(h);
    FieldsLength(h);
    if m >= GenericEnd(h) && h.kind.FileKind? {
      CutEntry(h, m - GenericEnd(h));
    }
  }

  lemma FieldsLength(h: Header)
    ensures GenericEnd(h) <= FieldsEnd(h)
    ensures !h.kind.FileKind? ==> GenericEnd(h) == FieldsEnd(h) && Shown(h) == []
  {
  }

  lemma CutEntry(h: Header, m: nat)
    requires WellFormed(h) && h.kind.FileKind? && m <= |PrintFields(h)|
    ensures var k := FieldsEnd(h) - GenericEnd(h);
            if m < k then ReadEntry(PrintFields(h)[..m]).NoEntry?
            else
              var e := ReadEntry(PrintFields(h)[..m]);
              e.Entry? && e.names == Shown(h) && |e.rest| == m - k
  {
    ExtraFits(h);
    hide ReadEntry, PrintBody, PrintExtra, PrintFile;
    CutFile(h.file, h.gap + PrintExtra(h), m);
  }

  lemma CutFile(f: FileFields, rest: seq<byte>, m: nat)
    requires WellFormedFile(f) && Word(|f.name|) && m <= |PrintFile(f, rest)|
    ensures var k := |PrintFile(f, rest)| - |rest|;
            if m < k then ReadEntry(PrintFile(f, rest)[..m]).NoEntry?
            else
              var e := ReadEntry(PrintFile(f, rest)[..m]);
              e.Entry? && e.names == (if !f.dir && f.name != [] then [f.name] else []) && |e.rest| == m - k
  {
    hide ReadHead, ReadName, PrintFile, PrintName, FileFlags;
    CutHead(f, rest, m);
    var k := |PrintFile(f, rest)| - |PrintName(f, rest)|;
    CutName(f, rest, if m >= k then m - k else 0);
  }

  // What the walk finds after headers none of which ends it.
  lemma {:induction false} WalkOn(hs: seq<Header>, after: seq<byte>, room: nat)
    requires forall h <- hs :: WellFormed(h) && !Stops(h)
    requires |AllShown(hs)| < room
    ensures var w := Walk(after, room - |AllShown(hs)|);
            Walk(PrintAll(hs, after), room) ==
            Listing(AllShown(hs) + w.names, (exists h <- hs :: MarksEncrypted(h)) || w.encrypted)
  {
    hide Walk, PrintHeader, PrintBody, WellFormed, MarksEncrypted, Stops, Shown;
    if hs == [] {
      assert [] + Walk(after, room).names == Walk(after, room).names;
    } else {
      var h, more := hs[0], PrintAll(hs[1..], after);
      WalkOver(h, more, room);
      WalkOn(hs[1..], after, room - |Shown(h)|);
      assert hs == [h] + hs[1..];
      var w := Walk(after, room - |AllShown(hs)|);
      assert Shown(h) + (AllShown(hs[1..]) + w.names) == (Shown(h) + AllShown(hs[1..])) + w.names;
    }
  }

  lemma WalkOver(h: Header, more: seq<byte>, room: nat)
    requires WellFormed(h) && !Stops(h) && room > 0
    ensures |Shown(h)| <= room
    ensures var w := Walk(more, room - |Shown(h)|);
            Walk(PrintHeader(h, more), room) == Listing(Shown(h) + w.names, MarksEncrypted(h) || w.encrypted)
  {
    hide Process, ReadFrame, PrintHeader, PrintBody, WellFormed, MarksEncrypted, Stops;
    FrameRoundTrip(h, more);
    ProcessRoundTrip(h);
    Drop(h.data, more);
  }

  // So whatever follows, the listing is that of the headers before the cut one, and what is left of it.
  lemma {:induction false} CutEndsListing(hs: seq<Header>, h: Header, m: nat, after: seq<byte>, maxNames: nat)
    requires (forall g <- hs :: WellFormed(g) && !Stops(g)) && |AllShown(hs)| < maxNames
    requires WellFormed(h) && m < FieldsEnd(h) + |PrintExtra(h)| && m <= |PrintBody(h)| && 1 <= m
    ensures var cut := h.crc + (Print(m) + (PrintBody(h)[..m] + after));
            List(PrintArchive(hs, cut), maxNames) ==
            Listing(AllShown(hs) + if m >= FieldsEnd(h) && !h.kind.EncryptionKind? then Shown(h) else [],
                    (exists g <- hs :: MarksEncrypted(g)) || (m >= GenericEnd(h) && h.kind.EncryptionKind?))
  {
    hide Read, Print, Process, PrintBody, PrintAll, Walk, ReadFrame, AllShown, MarksEncrypted, Shown, GenericEnd,
         FieldsEnd, WellFormed, Stops;
    var cut := h.crc + (Print(m) + (PrintBody(h)[..m] + after));
    WalkOn(hs, cut, maxNames);
    CutProcess(h, m);
    FieldsLength(h);
    Framed(h);
    FrameOf(h.crc, PrintBody(h)[..m], after);
    WalkHalts(cut, maxNames - |AllShown(hs)|, PrintBody(h)[..m], after);
    Drop(SIGNATURE, PrintAll(hs, cut));
    assert List(PrintArchive(hs, cut), maxNames) == Walk(PrintAll(hs, cut), maxNames);
  }

  lemma WalkHalts(rest: seq<byte>, room: nat, body: seq<byte>, after: seq<byte>)
    requires |rest| >= 5 && room > 0 && ReadFrame(rest) == Frame(body, after) && Process(body).Halt?
    ensures Walk(rest, room) == Listing(Process(body).names, Process(body).encrypted)
  {
    hide ReadFrame, Process;
  }
}
