/** The RAR5 header walker: which file names a .rar attachment holds and whether any of it is
    encrypted, read from the headers alone. */
module Rar5 {
  import opened VInt

  const SIGNATURE: seq<byte> := [0x52, 0x61, 0x72, 0x21, 0x1a, 0x07, 0x01, 0x00]
  const HEADER_MAX: nat := 0x20_0000
  const FLAG_EXTRA: nat := 1
  const FLAG_DATA: nat := 2
  const FILE_HEADER: nat := 2
  const ENCRYPTION: nat := 4
  const END_HEADER: nat := 5
  const FILE_DIR: nat := 1
  const FILE_TIME: nat := 2
  const FILE_CRC: nat := 4

  datatype Listing = Listing(names: seq<seq<byte>>, encrypted: bool)

  // Whether the bit of weight mask is set in v.
  predicate Bit(v: nat, mask: nat)
    requires mask > 0
  {
    (v / mask) % 2 == 1
  }

  // ------------------------------------------------------------------- specification: one header

  // A header cut out of the input: its body, and what follows it.
  datatype Frame = NoFrame | Frame(body: seq<byte>, after: seq<byte>)

  function ReadFrame(rest: seq<byte>): (f: Frame)
    requires |rest| >= 5
    ensures f.Frame? ==> |f.body| + |f.after| < |rest| && |f.body| <= HEADER_MAX
  {
    var size := Read(rest[4..]);
    if size.Bad? || size.value > HEADER_MAX || 4 + size.used + size.value > |rest| then NoFrame
    else Frame(rest[4 + size.used..4 + size.used + size.value], rest[4 + size.used + size.value..])
  }

  // A field read from the front of some bytes, and the bytes after it.
  datatype Field = NoField | Field(value: nat, rest: seq<byte>)

  function ReadField(bs: seq<byte>): (f: Field)
    ensures f.Field? ==> |f.rest| < |bs|
  {
    var r := Read(bs);
    if r.Bad? then NoField else Field(r.value, bs[r.used..])
  }

  function ReadFieldIf(present: bool, bs: seq<byte>): (f: Field)
    ensures f.Field? ==> |f.rest| <= |bs|
  {
    if present then ReadField(bs) else Field(0, bs)
  }

  // An optional field of four bytes, whose value does not matter.
  function SkipQuadIf(present: bool, bs: seq<byte>): (f: Field)
    ensures f.Field? ==> |f.rest| <= |bs|
  {
    if !present then Field(0, bs) else if |bs| < 4 then NoField else Field(0, bs[4..])
  }

  // The generic fields every header body starts with.
  datatype Generic = NoGeneric | Generic(kind: nat, flags: nat, extra: nat, data: nat, rest: seq<byte>)

  function ReadGeneric(body: seq<byte>): Generic {
    var kind := ReadField(body);
    if kind.NoField? then NoGeneric else
    var flags := ReadField(kind.rest);
    if flags.NoField? then NoGeneric else
    var extra := ReadFieldIf(Bit(flags.value, FLAG_EXTRA), flags.rest);
    if extra.NoField? then NoGeneric else
    var data := ReadFieldIf(Bit(flags.value, FLAG_DATA), extra.rest);
    if data.NoField? then NoGeneric else
    Generic(kind.value, flags.value, extra.value, data.value, data.rest)
  }

  // The file flags, and what follows the fields up to the two optional ones of four bytes.
  function ReadHead(bs: seq<byte>): (h: Field)
    ensures h.Field? ==> |h.rest| <= |bs|
  {
    var flags := ReadField(bs);
    if flags.NoField? then NoField else
    var size := ReadField(flags.rest);
    if size.NoField? then NoField else
    var attributes := ReadField(size.rest);
    if attributes.NoField? then NoField else
    var mtime := SkipQuadIf(Bit(flags.value, FILE_TIME), attributes.rest);
    if mtime.NoField? then NoField else
    var crc := SkipQuadIf(Bit(flags.value, FILE_CRC), mtime.rest);
    if crc.NoField? then NoField else
    Field(flags.value, crc.rest)
  }

  // The name a file header contributes, if any, and what follows the name.
  datatype Entry = NoEntry | Entry(names: seq<seq<byte>>, rest: seq<byte>)

  function ReadName(flags: nat, bs: seq<byte>): (e: Entry)
    ensures e.Entry? ==> |e.names| <= 1 && |e.rest| <= |bs|
  {
    var compression := ReadField(bs);
    if compression.NoField? then NoEntry else
    var host := ReadField(compression.rest);
    if host.NoField? then NoEntry else
    var length := ReadField(host.rest);
    if length.NoField? || length.value > |length.rest| then NoEntry else
    Entry(if !Bit(flags, FILE_DIR) && length.value > 0 then [length.rest[..length.value]] else [],
          length.rest[length.value..])
  }

  function ReadEntry(bs: seq<byte>): (e: Entry)
    ensures e.Entry? ==> |e.names| <= 1 && |e.rest| <= |bs|
  {
    var h := ReadHead(bs);
    if h.NoField? then NoEntry else ReadName(h.value, h.rest)
  }

  // The outcome of a run of extra records: whether all were well formed, and whether a file
  // encryption record came before any malformed one.
  datatype Scanned = Scanned(ok: bool, encrypted: bool)

  function Scan(extra: seq<byte>): Scanned
    decreases |extra|
  {
    if extra == [] then Scanned(true, false) else
    var size := Read(extra);
    if size.Bad? || size.value < 1 || size.value > |extra| - size.used then Scanned(false, false) else
    var kind := Read(extra[size.used..size.used + size.value]);
    if kind.Bad? then Scanned(false, false) else
    var more := Scan(extra[size.used + size.value..]);
    Scanned(more.ok, kind.value == 1 || more.encrypted)
  }

  // What one header body contributes, and whether the walk stops at it or skips its data area.
  datatype Step = Halt(names: seq<seq<byte>>, encrypted: bool)
                | Next(names: seq<seq<byte>>, encrypted: bool, data: nat)

  function Process(body: seq<byte>): (s: Step)
    ensures |s.names| <= 1
  {
    var g := ReadGeneric(body);
    if g.NoGeneric? then Halt([], false) else
    if g.kind == ENCRYPTION then Halt([], true) else
    var e := if g.kind == FILE_HEADER then ReadEntry(g.rest) else Entry([], g.rest);
    if e.NoEntry? then Halt([], false) else
    if g.extra > |e.rest| then Halt(e.names, false) else
    var r := Scan(e.rest[|e.rest| - g.extra..]);
    if !r.ok || g.kind == END_HEADER then Halt(e.names, r.encrypted)
    else Next(e.names, r.encrypted, g.data)
  }

  // ------------------------------------------------------------------- specification: the walk

  function Walk(rest: seq<byte>, room: nat): (l: Listing)
    ensures |l.names| <= room
    decreases |rest|
  {
    if |rest| < 5 || room == 0 then Listing([], false) else
    var f := ReadFrame(rest);
    if f.NoFrame? then Listing([], false) else
    match Process(f.body)
    case Halt(names, encrypted) => Listing(names, encrypted)
    case Next(names, encrypted, data) =>
      if data > |f.after| then Listing(names, encrypted) else
      var more := Walk(f.after[data..], room - |names|);
      Listing(names + more.names, encrypted || more.encrypted)
  }

  function List(content: seq<byte>, maxNames: int): Listing {
    if maxNames <= 0 || !(SIGNATURE <= content) then Listing([], false)
    else Walk(content[|SIGNATURE|..], maxNames)
  }

  // --------------------------------------------------------------------------------- operations

  // The in-header record loop over content[p..headerEnd].
  method ScanRecords(content: seq<byte>, start: nat, headerEnd: nat) returns (ok: bool, encrypted: bool)
    requires start <= headerEnd <= |content|
    ensures Scanned(ok, encrypted) == Scan(content[start..headerEnd])
  {
    hide Read;
    var p := start;
    encrypted := false;
    while p < headerEnd
      invariant start <= p <= headerEnd
      invariant Scan(content[start..headerEnd]) ==
                var s := Scan(content[p..headerEnd]); Scanned(s.ok, encrypted || s.encrypted)
    {
      var size := ReadVInt(content[p..headerEnd]);
      if size.Bad? || size.value < 1 || size.value > headerEnd - p - size.used {
        return false, encrypted;
      }
      var recordStart := p + size.used;
      var kind := ReadVInt(content[recordStart..recordStart + size.value]);
      Within(content, p, headerEnd, size.used, size.used + size.value);
      Advance(content, p, headerEnd, size.used + size.value);
      if kind.Bad? {
        return false, encrypted;
      }
      if kind.value == 1 {
        encrypted := true;
      }
      p := recordStart + size.value;
    }
    return true, encrypted;
  }

  // One variable integer at cursor, and the offset after it.
  method ReadFieldAt(content: seq<byte>, cursor: nat, headerEnd: nat) returns (ok: bool, value: nat, next: nat)
    requires cursor <= headerEnd <= |content|
    ensures ok == ReadField(content[cursor..headerEnd]).Field?
    ensures ok ==> && cursor <= next <= headerEnd
                   && ReadField(content[cursor..headerEnd]) == Field(value, content[next..headerEnd])
  {
    hide Read;
    var r := ReadVInt(content[cursor..headerEnd]);
    if r.Bad? { return false, 0, cursor; }
    Advance(content, cursor, headerEnd, r.used);
    return true, r.value, cursor + r.used;
  }

  // The generic fields from start on; on success their values and the offset after them.
  method ReadGenericFields(content: seq<byte>, start: nat, headerEnd: nat)
    returns (ok: bool, kind: nat, flags: nat, extraSize: nat, dataSize: nat, cursor: nat)
    requires start <= headerEnd <= |content|
    ensures ok == ReadGeneric(content[start..headerEnd]).Generic?
    ensures ok ==>
              && start <= cursor <= headerEnd
              && ReadGeneric(content[start..headerEnd]) ==
                 Generic(kind, flags, extraSize, dataSize, content[cursor..headerEnd])
  {
    hide ReadField, Bit;
    flags, extraSize, dataSize := 0, 0, 0;
    ok, kind, cursor := ReadFieldAt(content, start, headerEnd);
    if !ok { return; }
    ok, flags, cursor := ReadFieldAt(content, cursor, headerEnd);
    if !ok { return; }
    if Bit(flags, FLAG_EXTRA) {
      ok, extraSize, cursor := ReadFieldAt(content, cursor, headerEnd);
      if !ok { return; }
    }
    if Bit(flags, FLAG_DATA) {
      ok, dataSize, cursor := ReadFieldAt(content, cursor, headerEnd);
    }
  }

  // The file fields up to the optional ones of four bytes.
  method ReadHeadFields(content: seq<byte>, start: nat, headerEnd: nat)
    returns (ok: bool, flags: nat, cursor: nat)
    requires start <= headerEnd <= |content|
    ensures ok == ReadHead(content[start..headerEnd]).Field?
    ensures ok ==> start <= cursor <= headerEnd
                   && ReadHead(content[start..headerEnd]) == Field(flags, content[cursor..headerEnd])
  {
    hide ReadField, Bit;
    ok, flags, cursor := ReadFieldAt(content, start, headerEnd);
    if !ok { return; }
    var ignored;
    ok, ignored, cursor := ReadFieldAt(content, cursor, headerEnd); // unpacked size
    if !ok { return; }
    ok, ignored, cursor := ReadFieldAt(content, cursor, headerEnd); // attributes
    if !ok { return; }
    if Bit(flags, FILE_TIME) {
      if cursor + 4 > headerEnd { return false, 0, 0; }
      Advance(content, cursor, headerEnd, 4);
      cursor := cursor + 4;
    }
    if Bit(flags, FILE_CRC) {
      if cursor + 4 > headerEnd { return false, 0, 0; }
      Advance(content, cursor, headerEnd, 4);
      cursor := cursor + 4;
    }
  }

  // The remaining file fields: on success the names they add and the offset after the name.
  method ReadNameFields(content: seq<byte>, flags: nat, start: nat, headerEnd: nat)
    returns (ok: bool, names: seq<seq<byte>>, cursor: nat)
    requires start <= headerEnd <= |content|
    ensures ok == ReadName(flags, content[start..headerEnd]).Entry?
    ensures ok ==> start <= cursor <= headerEnd
                   && ReadName(flags, content[start..headerEnd]) == Entry(names, content[cursor..headerEnd])
  {
    hide ReadField, Bit;
    names := [];
    var value;
    ok, value, cursor := ReadFieldAt(content, start, headerEnd); // compression
    if !ok { return; }
    ok, value, cursor := ReadFieldAt(content, cursor, headerEnd); // host OS
    if !ok { return; }
    ok, value, cursor := ReadFieldAt(content, cursor, headerEnd); // name length
    if !ok { return; }
    if value > headerEnd - cursor { return false, [], 0; }
    if !Bit(flags, FILE_DIR) && value > 0 {
      names := [content[cursor..cursor + value]];
      Within(content, cursor, headerEnd, 0, value);
      assert content[cursor..headerEnd][..value] == content[cursor..headerEnd][0..value];
    }
    Advance(content, cursor, headerEnd, value);
    cursor := cursor + value;
  }

  // One header body: the names and encryption mark it adds, and where its data area starts and
  // ends if the walk goes on.
  method ProcessHeader(content: seq<byte>, bodyStart: nat, headerEnd: nat) returns (step: Step)
    requires bodyStart <= headerEnd <= |content|
    ensures step == Process(content[bodyStart..headerEnd])
  {
    hide ReadGeneric, ReadHead, ReadName, Scan;
    var ok, kind, flags, extraSize, dataSize, cursor := ReadGenericFields(content, bodyStart, headerEnd);
    if !ok { return Halt([], false); }
    if kind == ENCRYPTION { return Halt([], true); }
    var names := [];
    if kind == FILE_HEADER {
      var found, fileFlags, next := ReadHeadFields(content, cursor, headerEnd);
      if !found { return Halt([], false); }
      found, names, cursor := ReadNameFields(content, fileFlags, next, headerEnd);
      if !found { return Halt([], false); }
    }
    if extraSize > headerEnd - cursor { return Halt(names, false); }
    var extraStart := headerEnd - extraSize;
    Advance(content, cursor, headerEnd, headerEnd - cursor - extraSize);
    var scanned, encrypted := ScanRecords(content, extraStart, headerEnd);
    if !scanned || kind == END_HEADER { return Halt(names, encrypted); }
    return Next(names, encrypted, dataSize);
  }

  // Where the body of the header at offset starts and ends, if it has one inside the input.
  method FindBody(content: seq<byte>, offset: nat) returns (ok: bool, bodyStart: nat, headerEnd: nat)
    requires offset + 5 <= |content|
    ensures ok == ReadFrame(content[offset..]).Frame?
    ensures ok ==> && offset <= bodyStart <= headerEnd <= |content|
                   && ReadFrame(content[offset..]) == Frame(content[bodyStart..headerEnd], content[headerEnd..])
  {
    hide Read;
    ok, bodyStart, headerEnd := false, 0, 0;
    var headerStart := offset + 4;
    assert content[offset..][4..] == content[headerStart..];
    var headerSize := ReadVInt(content[headerStart..]);
    if headerSize.Bad? || headerSize.value > HEADER_MAX { return; }
    bodyStart := headerStart + headerSize.used;
    headerEnd := bodyStart + headerSize.value;
    if headerEnd > |content| { return; }
    FrameIs(content, offset, headerSize, headerEnd);
    ok := true;
  }

  method ListRar5(content: seq<byte>, maxNames: int) returns (names: seq<seq<byte>>, encrypted: bool)
    ensures Listing(names, encrypted) == List(content, maxNames)
  {
    hide ReadFrame, Process, Walk;
    names, encrypted := [], false;
    if maxNames <= 0 || |content| < |SIGNATURE| || content[..|SIGNATURE|] != SIGNATURE {
      return;
    }
    var offset := |SIGNATURE|;
    ghost var whole := List(content, maxNames);
    while offset + 5 <= |content| && |names| < maxNames
      invariant |SIGNATURE| <= offset <= |content| && |names| <= maxNames
      invariant whole == var more := Walk(content[offset..], maxNames - |names|);
                         Listing(names + more.names, encrypted || more.encrypted)
      decreases |content| - offset
    {
      var ok, bodyStart, headerEnd := FindBody(content, offset);
      if !ok {
        WalkEnds(content[offset..], maxNames - |names|);
        return;
      }
      var step := ProcessHeader(content, bodyStart, headerEnd);
      WalkAt(content, offset, maxNames - |names|, bodyStart, headerEnd, step);
      names, encrypted := names + step.names, encrypted || step.encrypted;
      if step.Halt? || step.data > |content| - headerEnd { return; }
      offset := headerEnd + step.data;
    }
    WalkEnds(content[offset..], maxNames - |names|);
  }

  lemma WalkEnds(rest: seq<byte>, room: nat)
    requires |rest| < 5 || room == 0 || ReadFrame(rest).NoFrame?
    ensures Walk(rest, room) == Listing([], false)
  {
  }

  // One round of the walk, in terms of offsets into the input.
  lemma {:induction false} WalkAt(content: seq<byte>, offset: nat, room: nat, bodyStart: nat, headerEnd: nat,
                                  step: Step)
    requires offset + 5 <= |content| && room > 0 && bodyStart <= headerEnd <= |content|
    requires ReadFrame(content[offset..]) == Frame(content[bodyStart..headerEnd], content[headerEnd..])
    requires step == Process(content[bodyStart..headerEnd])
    ensures Walk(content[offset..], room) ==
            if step.Halt? || step.data > |content| - headerEnd then Listing(step.names, step.encrypted)
            else
              var more := Walk(content[headerEnd + step.data..], room - |step.names|);
              Listing(step.names + more.names, step.encrypted || more.encrypted)
  {
    hide ReadFrame, Process;
    if step.Next? && step.data <= |content| - headerEnd {
      assert content[headerEnd..][step.data..] == content[headerEnd + step.data..];
    }
  }

  // A slice of a slice.
  lemma Within(content: seq<byte>, start: nat, end: nat, p: nat, q: nat)
    requires start <= end <= |content| && p <= q <= end - start
    ensures content[start..end][p..q] == content[start + p..start + q]
  {
    assert forall k | 0 <= k < q - p :: content[start..end][p..q][k] == content[start + (p + k)];
  }

  lemma Advance(content: seq<byte>, cursor: nat, end: nat, used: nat)
    requires cursor <= end <= |content| && cursor + used <= end
    ensures content[cursor..end][used..] == content[cursor + used..end]
  {
  }

  lemma FrameIs(content: seq<byte>, offset: nat, size: Reading, end: nat)
    requires offset + 5 <= |content| && size.Got? && size == Read(content[offset + 4..])
    requires size.value <= HEADER_MAX && end == offset + 4 + size.used + size.value <= |content|
    ensures ReadFrame(content[offset..]) == Frame(content[offset + 4 + size.used..end], content[end..])
  {
  }
}
