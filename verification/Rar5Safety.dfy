/** What the RAR5 walker guarantees on arbitrary input: it invents nothing, and cutting the input
    short can only take findings away. */
module Rar5Safety {
  import opened VInt
  import opened Rar5

  predicate Slice(part: seq<byte>, whole: seq<byte>) {
    exists p, q | 0 <= p <= q <= |whole| :: part == whole[p..q]
  }

  lemma Cut(whole: seq<byte>, p: nat, q: nat)
    requires p <= q <= |whole|
    ensures Slice(whole[p..q], whole)
  {
  }

  lemma SliceTransitive(a: seq<byte>, b: seq<byte>, c: seq<byte>)
    requires Slice(a, b) && Slice(b, c)
    ensures Slice(a, c)
  {
    var p, q :| 0 <= p <= q <= |b| && a == b[p..q];
    var r, s :| 0 <= r <= s <= |c| && b == c[r..s];
    assert a == c[r + p..r + q] by {
      assert forall k | 0 <= k < q - p :: a[k] == b[p + k] == c[r + (p + k)];
    }
  }

  // A part cut out of a slice is a slice.
  lemma CutSlice(part: seq<byte>, p: nat, q: nat, whole: seq<byte>)
    requires p <= q <= |part| && Slice(part, whole)
    ensures Slice(part[p..q], whole)
  {
    Cut(part, p, q);
    SliceTransitive(part[p..q], part, whole);
  }

  lemma DropSlice(part: seq<byte>, p: nat, whole: seq<byte>)
    requires p <= |part| && Slice(part, whole)
    ensures Slice(part[p..], whole)
  {
  }

  lemma FieldSlice(bs: seq<byte>, whole: seq<byte>)
    requires Slice(bs, whole)
    ensures var f := ReadField(bs); f.Field? ==> Slice(f.rest, whole)
  {
  }

  lemma QuadSlice(present: bool, bs: seq<byte>, whole: seq<byte>)
    requires Slice(bs, whole)
    ensures var f := SkipQuadIf(present, bs); f.Field? ==> Slice(f.rest, whole)
  {
  }

  lemma GenericSlice(body: seq<byte>, whole: seq<byte>)
    requires Slice(body, whole)
    ensures var g := ReadGeneric(body); g.Generic? ==> Slice(g.rest, whole)
  {
    hide ReadField, Bit, Slice;
    if ReadGeneric(body).Generic? {
      var kind := ReadField(body);
      FieldSlice(body, whole);
      var flags := ReadField(kind.rest);
      FieldSlice(kind.rest, whole);
      var extra := ReadFieldIf(Bit(flags.value, FLAG_EXTRA), flags.rest);
      FieldSlice(flags.rest, whole);
      FieldSlice(extra.rest, whole);
    }
  }

  lemma HeadSlice(bs: seq<byte>, whole: seq<byte>)
    requires Slice(bs, whole)
    ensures var h := ReadHead(bs); h.Field? ==> Slice(h.rest, whole)
  {
    hide ReadField, SkipQuadIf, Bit, Slice;
    if ReadHead(bs).Field? {
      var flags := ReadField(bs);
      FieldSlice(bs, whole);
      FieldSlice(flags.rest, whole);
      var attributes := ReadField(ReadField(flags.rest).rest);
      FieldSlice(ReadField(flags.rest).rest, whole);
      QuadSlice(Bit(flags.value, FILE_TIME), attributes.rest, whole);
      QuadSlice(Bit(flags.value, FILE_CRC), SkipQuadIf(Bit(flags.value, FILE_TIME), attributes.rest).rest, whole);
    }
  }

  lemma NameSlice(flags: nat, bs: seq<byte>, whole: seq<byte>)
    requires Slice(bs, whole)
    ensures var e := ReadName(flags, bs); e.Entry? ==> forall name <- e.names :: Slice(name, whole)
  {
    hide ReadField, Bit, Slice;
    var e := ReadName(flags, bs);
    if e.Entry? && e.names != [] {
      var compression := ReadField(bs);
      FieldSlice(bs, whole);
      var host := ReadField(compression.rest);
      FieldSlice(compression.rest, whole);
      var length := ReadField(host.rest);
      FieldSlice(host.rest, whole);
      CutSlice(length.rest, 0, length.value, whole);
      assert length.rest[..length.value] == length.rest[0..length.value];
    }
  }

  lemma {:induction false} ProcessSlices(body: seq<byte>, whole: seq<byte>)
    requires Slice(body, whole)
    ensures forall name <- Process(body).names :: Slice(name, whole)
  {
    hide Slice, ReadGeneric, ReadHead, ReadName, Scan;
    GenericSlice(body, whole);
    var g := ReadGeneric(body);
    if g.Generic? {
      HeadSlice(g.rest, whole);
      var h := ReadHead(g.rest);
      if h.Field? {
        NameSlice(h.value, h.rest, whole);
      }
    }
  }

  lemma {:induction false} WalkSlices(rest: seq<byte>, room: nat, whole: seq<byte>)
    requires Slice(rest, whole)
    ensures forall name <- Walk(rest, room).names :: Slice(name, whole)
    decreases |rest|
  {
    hide Slice, Read, Process;
    if |rest| >= 5 && room > 0 && ReadFrame(rest).Frame? {
      var size := Read(rest[4..]);
      var f := ReadFrame(rest);
      CutSlice(rest, 4 + size.used, 4 + size.used + size.value, whole);
      DropSlice(rest, 4 + size.used + size.value, whole);
      ProcessSlices(f.body, whole);
      var s := Process(f.body);
      if s.Next? && s.data <= |f.after| {
        DropSlice(f.after, s.data, whole);
        WalkSlices(f.after[s.data..], room - |s.names|, whole);
      }
    }
  }

  // On any input the listing holds at most maxNames names, each a run of bytes of the input.
  lemma {:induction false} ListInvents(content: seq<byte>, maxNames: int)
    ensures |List(content, maxNames).names| <= if maxNames <= 0 then 0 else maxNames
    ensures forall name <- List(content, maxNames).names :: Slice(name, content)
  {
    if maxNames > 0 && SIGNATURE <= content {
      Cut(content, 0, |content|);
      assert content[0..|content|] == content;
      DropSlice(content, |SIGNATURE|, content);
      WalkSlices(content[|SIGNATURE|..], maxNames, content);
    }
  }

  lemma FrameTruncated(rest: seq<byte>, m: nat)
    requires 5 <= m <= |rest| && ReadFrame(rest[..m]).Frame?
    ensures var cut, f := ReadFrame(rest[..m]), ReadFrame(rest);
            && f.Frame? && f.body == cut.body
            && |cut.after| <= |f.after| && cut.after == f.after[..|cut.after|]
  {
    hide Read;
    assert rest[..m][4..] == rest[4..][..m - 4];
    ReadTruncated(rest[4..], m - 4);
  }

  lemma {:induction false} WalkTruncated(rest: seq<byte>, m: nat, room: nat)
    requires m <= |rest|
    ensures Walk(rest[..m], room).names <= Walk(rest, room).names
    ensures Walk(rest[..m], room).encrypted ==> Walk(rest, room).encrypted
    decreases |rest|
  {
    hide ReadFrame, Process;
    if m >= 5 && room > 0 && ReadFrame(rest[..m]).Frame? {
      FrameTruncated(rest, m);
      var cut, f := ReadFrame(rest[..m]), ReadFrame(rest);
      var s := Process(f.body);
      if s.Next? && s.data <= |cut.after| {
        assert cut.after[s.data..] == f.after[s.data..][..|cut.after| - s.data];
        WalkTruncated(f.after[s.data..], |cut.after| - s.data, room - |s.names|);
      }
    }
  }

  // Cutting the input short gives a prefix of the names, and never a new mark of encryption.
  lemma {:induction false} ListTruncated(content: seq<byte>, m: nat, maxNames: int)
    requires m <= |content|
    ensures List(content[..m], maxNames).names <= List(content, maxNames).names
    ensures List(content[..m], maxNames).encrypted ==> List(content, maxNames).encrypted
  {
    if maxNames > 0 && SIGNATURE <= content[..m] {
      var k := |SIGNATURE|;
      assert content[..m][k..] == content[k..][..m - k];
      WalkTruncated(content[k..], m - k, maxNames);
    }
  }
}
