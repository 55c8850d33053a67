/** The walk over a message's MIME parts: what it collects, and when it gives up. */
module Mime {
  import opened Common

  datatype Limits = Limits(maxDepth: int, maxParts: int, maxBody: int, maxAttachment: int)

  // What undoing the transfer encoding makes of the first limit + 1 encoded bytes of a part: nothing
  // readable, or a text of some size. So a part whose encoding is longer than it decodes to is not
  // too big when it is cut off there, but unreadable or short.
  datatype Content = Unreadable | Readable(size: nat, text: string)

  datatype Media = Plain | Html | Image | Message | Other

  // A part. A multipart without a boundary has no children; neither does one cut short before the
  // first. A message part holds the message inside it if that can be read.
  datatype Part =
    | Multipart(children: seq<Part>)
    | Leaf(media: Media, textual: bool, attached: bool, content: Content, subject: string, inner: Option<Part>)

  datatype Failure = TooDeep | TooMany | Undecodable | TooBig

  // What is collected into the parsed mail, with attachments and images by their text.
  datatype Mail = Mail(subject: string, text: string, html: string, attachments: seq<string>, images: seq<string>)

  datatype Outcome = Outcome(mail: Mail, parts: nat, failure: Option<Failure>)

  function AppendText(dst: string, add: string): string {
    var t := TrimSpace(add);
    if t == "" then dst else if dst == "" then t else dst + "\n\n" + t
  }

  function Limit(l: Limits, p: Part): int
    requires p.Leaf?
  {
    if p.textual then l.maxBody else l.maxAttachment
  }

  // The message inside a part, if the walk goes on into it.
  function Nested(p: Part): (n: Option<Part>)
    ensures n.Some? ==> n.value < p
  {
    if p.Leaf? && p.media.Message? && !p.attached then p.inner else None
  }

  // What a leaf other than a readable message adds to the mail.
  function Collect(m: Mail, p: Part): Mail
    requires p.Leaf? && p.content.Readable?
  {
    if p.attached then m.(attachments := m.attachments + [p.content.text])
    else match p.media
      case Plain => m.(text := AppendText(m.text, p.content.text))
      case Html => m.(html := AppendText(m.html, p.content.text))
      case Image => m.(images := m.images + [p.content.text])
      case Message =>
        if p.inner.None? then m.(attachments := m.attachments + [p.content.text])
        else if m.subject == "" then m.(subject := p.subject) else m
      case Other => m.(attachments := m.attachments + [p.content.text])
  }

  // The walk from a part on, given what was collected and counted before.
  function Walk(l: Limits, p: Part, depth: int, mail: Mail, parts: nat): Outcome
    decreases p, 1
  {
    if depth > l.maxDepth then Outcome(mail, parts, Some(TooDeep))
    else if parts + 1 > l.maxParts then Outcome(mail, parts + 1, Some(TooMany))
    else match p
      case Multipart(children) => WalkAll(l, children, depth + 1, mail, parts + 1)
      case Leaf(_, _, _, content, _, _) =>
        if content.Unreadable? then Outcome(mail, parts + 1, Some(Undecodable))
        else if content.size > Limit(l, p) then Outcome(mail, parts + 1, Some(TooBig))
        else
          var collected := Collect(mail, p);
          match Nested(p)
          case None => Outcome(collected, parts + 1, None)
          case Some(inner) => Walk(l, inner, depth + 1, collected, parts + 1)
  }

  function WalkAll(l: Limits, ps: seq<Part>, depth: int, mail: Mail, parts: nat): Outcome
    decreases ps, 0
  {
    if ps == [] then Outcome(mail, parts, None) else
    var first := Walk(l, ps[0], depth, mail, parts);
    if first.failure.Some? then first else WalkAll(l, ps[1..], depth, first.mail, first.parts)
  }

  // -------------------------------------------------------------------------------- the walker

  class ParsedMail {
    var subject: string
    var textBody: string
    var htmlBody: string
    var attachments: seq<string>
    var images: seq<string>

    ghost function Now(): Mail
      reads this
    {
      Mail(subject, textBody, htmlBody, attachments, images)
    }

    constructor (subject: string)
      ensures Now() == Mail(subject, "", "", [], [])
    {
      this.subject, textBody, htmlBody, attachments, images := subject, "", "", [], [];
    }
  }

  class Counter {
    var value: nat

    constructor ()
      ensures value == 0
    {
      value := 0;
    }
  }

  method WalkBody(l: Limits, pm: ParsedMail, p: Part, depth: int, parts: Counter) returns (failure: Option<Failure>)
    modifies pm, parts
    ensures Outcome(pm.Now(), parts.value, failure) == Walk(l, p, depth, old(pm.Now()), old(parts.value))
    decreases p
  {
    if depth > l.maxDepth {
      return Some(TooDeep);
    }
    parts.value := parts.value + 1;
    if parts.value > l.maxParts {
      return Some(TooMany);
    }
    if p.Multipart? {
      for i := 0 to |p.children|
        invariant Walk(l, p, depth, old(pm.Now()), old(parts.value))
                  == WalkAll(l, p.children[i..], depth + 1, pm.Now(), parts.value)
      {
        assert p.children[i..][1..] == p.children[i + 1..];
        failure := WalkBody(l, pm, p.children[i], depth + 1, parts);
        if failure.Some? {
          return;
        }
      }
      return None;
    }
    var limit := if p.textual then l.maxBody else l.maxAttachment;
    if p.content.Unreadable? {
      return Some(Undecodable);
    }
    if p.content.size > limit {
      return Some(TooBig);
    }
    if p.attached {
      pm.attachments := pm.attachments + [p.content.text];
      return None;
    }
    match p.media {
      case Plain => pm.textBody := AppendText(pm.textBody, p.content.text);
      case Html => pm.htmlBody := AppendText(pm.htmlBody, p.content.text);
      case Image => pm.images := pm.images + [p.content.text];
      case Message =>
        if p.inner.Some? {
          if pm.subject == "" {
            pm.subject := p.subject;
          }
          failure := WalkBody(l, pm, p.inner.value, depth + 1, parts);
          return;
        }
        pm.attachments := pm.attachments + [p.content.text];
      case Other => pm.attachments := pm.attachments + [p.content.text];
    }
    return None;
  }

  // -------------------------------------------------------------- what a tree of parts looks like

  // A part and everything the walk would find below it, in document order, with their depths.
  datatype Visit = Visit(part: Part, depth: int)

  function Nodes(p: Part, depth: int): (v: seq<Visit>)
    ensures |v| >= 1
    decreases p, 1
  {
    [Visit(p, depth)] +
    match p
    case Multipart(children) => AllNodes(children, depth + 1)
    case Leaf(media, _, attached, _, _, inner) =>
      if media.Message? && !attached && inner.Some? then Nodes(inner.value, depth + 1) else []
  }

  function AllNodes(ps: seq<Part>, depth: int): seq<Visit>
    decreases ps, 0
  {
    if ps == [] then [] else Nodes(ps[0], depth) + AllNodes(ps[1..], depth)
  }

  predicate Fits(l: Limits, p: Part) {
    p.Leaf? ==> p.content.Readable? && p.content.size <= if p.textual then l.maxBody else l.maxAttachment
  }

  predicate AllFit(l: Limits, vs: seq<Visit>) {
    forall v <- vs :: v.depth <= l.maxDepth && Fits(l, v.part)
  }

  // What is wrong with a part visited after so many others.
  function Offence(l: Limits, v: Visit, parts: nat): Option<Failure> {
    if v.depth > l.maxDepth then Some(TooDeep)
    else if parts + 1 > l.maxParts then Some(TooMany)
    else if v.part.Leaf? && v.part.content.Unreadable? then Some(Undecodable)
    else if v.part.Leaf? && v.part.textual && v.part.content.size > l.maxBody then Some(TooBig)
    else if v.part.Leaf? && !v.part.textual && v.part.content.size > l.maxAttachment then Some(TooBig)
    else None
  }

  function FirstOffence(l: Limits, vs: seq<Visit>, parts: nat): Option<Failure>
    decreases |vs|
  {
    if vs == [] then None
    else if Offence(l, vs[0], parts).Some? then Offence(l, vs[0], parts)
    else FirstOffence(l, vs[1..], parts + 1)
  }

  predicate Decoded(vs: seq<Visit>) {
    forall v <- vs :: v.part.Leaf? ==> v.part.content.Readable?
  }

  // What the leaves among some visited parts add to the mail, in order.
  function CollectAll(m: Mail, vs: seq<Visit>): Mail
    requires Decoded(vs)
    decreases |vs|
  {
    if vs == [] then m
    else CollectAll(if vs[0].part.Leaf? then Collect(m, vs[0].part) else m, vs[1..])
  }

  lemma {:induction false} CollectJoin(m: Mail, a: seq<Visit>, b: seq<Visit>)
    requires Decoded(a) && Decoded(b)
    ensures Decoded(a + b) && CollectAll(m, a + b) == CollectAll(CollectAll(m, a), b)
    decreases |a|
  {
    if a == [] {
      assert a + b == b;
    } else {
      assert (a + b)[0] == a[0] && (a + b)[1..] == a[1..] + b;
      CollectJoin(if a[0].part.Leaf? then Collect(m, a[0].part) else m, a[1..], b);
    }
  }

  lemma {:induction false} OffenceJoin(l: Limits, a: seq<Visit>, b: seq<Visit>, parts: nat)
    ensures FirstOffence(l, a + b, parts) ==
            if FirstOffence(l, a, parts).Some? then FirstOffence(l, a, parts)
            else FirstOffence(l, b, parts + |a|)
    decreases |a|
  {
    if a == [] {
      assert a + b == b;
    } else {
      assert (a + b)[0] == a[0] && (a + b)[1..] == a[1..] + b;
      OffenceJoin(l, a[1..], b, parts + 1);
    }
  }

  lemma {:induction false} NoOffence(l: Limits, vs: seq<Visit>, parts: nat)
    ensures FirstOffence(l, vs, parts).None? <==> AllFit(l, vs) && (vs == [] || parts + |vs| <= l.maxParts)
    ensures FirstOffence(l, vs, parts).None? ==> Decoded(vs)
    decreases |vs|
  {
    if vs != [] {
      NoOffence(l, vs[1..], parts + 1);
      assert vs == [vs[0]] + vs[1..];
    }
  }

  // What the walk over some parts comes to, from what it finds.
  ghost predicate Explains(l: Limits, o: Outcome, vs: seq<Visit>, mail: Mail, parts: nat) {
    && o.failure == FirstOffence(l, vs, parts)
    && (o.failure.None? ==> Decoded(vs) && o.parts == parts + |vs| && o.mail == CollectAll(mail, vs))
  }

  lemma {:induction false} WalkExplained(l: Limits, p: Part, depth: int, mail: Mail, parts: nat)
    ensures Explains(l, Walk(l, p, depth, mail, parts), Nodes(p, depth), mail, parts)
    decreases p, 1
  {
    var vs := Nodes(p, depth);
    var below := vs[1..];
    assert vs == [Visit(p, depth)] + below;
    if depth <= l.maxDepth && parts + 1 <= l.maxParts && Fits(l, p) {
      match p {
        case Multipart(children) =>
          assert below == AllNodes(children, depth + 1);
          WalkAllExplained(l, children, depth + 1, mail, parts + 1);
        case Leaf(_, _, _, _, _, _) =>
          if Nested(p).Some? {
            assert below == Nodes(Nested(p).value, depth + 1);
            WalkExplained(l, Nested(p).value, depth + 1, Collect(mail, p), parts + 1);
          } else {
            assert below == [];
          }
      }
    }
  }

  lemma {:induction false} WalkAllExplained(l: Limits, ps: seq<Part>, depth: int, mail: Mail, parts: nat)
    ensures Explains(l, WalkAll(l, ps, depth, mail, parts), AllNodes(ps, depth), mail, parts)
    decreases ps, 0
  {
    if ps != [] {
      var a, b := Nodes(ps[0], depth), AllNodes(ps[1..], depth);
      OffenceJoin(l, a, b, parts);
      WalkExplained(l, ps[0], depth, mail, parts);
      var first := Walk(l, ps[0], depth, mail, parts);
      if first.failure.None? {
        WalkAllExplained(l, ps[1..], depth, first.mail, first.parts);
        if Decoded(b) {
          CollectJoin(mail, a, b);
        }
      }
    }
  }

  // -------------------------------------------------------------------- the bodies in closed form

  // Whether a part is text of one kind that goes into the body of that kind.
  predicate BodyOf(media: Media, p: Part) {
    p.Leaf? && !p.attached && p.media == media && p.content.Readable?
  }

  // The trimmed texts of one kind that are not empty, in order.
  function Texts(media: Media, vs: seq<Visit>): seq<string> {
    if vs == [] then [] else
    var p := vs[0].part;
    (if BodyOf(media, p) && TrimSpace(p.content.text) != "" then [TrimSpace(p.content.text)] else []) +
    Texts(media, vs[1..])
  }

  // The texts with a blank line between them.
  function BlankLineJoin(texts: seq<string>): string {
    if texts == [] then "" else if |texts| == 1 then texts[0]
    else texts[0] + "\n\n" + BlankLineJoin(texts[1..])
  }

  function JoinAfter(dst: string, texts: seq<string>): string {
    if texts == [] then dst else if dst == "" then BlankLineJoin(texts) else dst + "\n\n" + BlankLineJoin(texts)
  }

  lemma JoinNext(dst: string, t: string, texts: seq<string>)
    requires t != ""
    ensures JoinAfter(dst, [t] + texts) == JoinAfter(if dst == "" then t else dst + "\n\n" + t, texts)
  {
  }

  // The body that texts of a kind go into.
  function Body(m: Mail, media: Media): string {
    if media.Plain? then m.text else m.html
  }

  lemma BodyAfter(m: Mail, p: Part, media: Media)
    requires p.Leaf? && p.content.Readable? && (media.Plain? || media.Html?)
    ensures Body(Collect(m, p), media) ==
            if BodyOf(media, p) then AppendText(Body(m, media), p.content.text) else Body(m, media)
  {
  }

  lemma {:induction false} BodyIsJoin(m: Mail, vs: seq<Visit>, media: Media)
    requires Decoded(vs) && (media.Plain? || media.Html?)
    ensures Body(CollectAll(m, vs), media) == JoinAfter(Body(m, media), Texts(media, vs))
    decreases |vs|
  {
    hide TrimSpace, Body, JoinAfter;
    if vs == [] {
      JoinNone(Body(m, media));
    } else {
      var p, more := vs[0].part, Texts(media, vs[1..]);
      assert [] + more == more;
      if p.Leaf? {
        BodyIsJoin(Collect(m, p), vs[1..], media);
        BodyAfter(m, p, media);
        if TrimSpace(p.content.text) != "" {
          JoinNext(Body(m, media), TrimSpace(p.content.text), more);
        }
      } else {
        BodyIsJoin(m, vs[1..], media);
      }
    }
  }

  lemma JoinNone(dst: string)
    ensures JoinAfter(dst, []) == dst
  {
  }

  // Whether a part is kept as an attachment: marked as one, of no kind shown inline, or a message
  // that cannot be read.
  predicate KeptAsAttachment(p: Part) {
    p.Leaf? && p.content.Readable? && (p.attached || p.media.Other? || (p.media.Message? && p.inner.None?))
  }

  predicate KeptAsImage(p: Part) {
    p.Leaf? && p.content.Readable? && !p.attached && p.media.Image?
  }

  function Kept(vs: seq<Visit>, image: bool): seq<string> {
    if vs == [] then [] else
    var p := vs[0].part;
    (if (if image then KeptAsImage(p) else KeptAsAttachment(p)) then [p.content.text] else []) + Kept(vs[1..], image)
  }

  lemma {:induction false} FilesInOrder(m: Mail, vs: seq<Visit>)
    requires Decoded(vs)
    ensures CollectAll(m, vs).attachments == m.attachments + Kept(vs, false)
    ensures CollectAll(m, vs).images == m.images + Kept(vs, true)
    decreases |vs|
  {
    hide AppendText;
    if vs != [] {
      FilesInOrder(if vs[0].part.Leaf? then Collect(m, vs[0].part) else m, vs[1..]);
    }
  }

  // Whether a part is a message that the walk goes on into.
  predicate Forwarded(p: Part) {
    p.Leaf? && p.content.Readable? && !p.attached && p.media.Message? && p.inner.Some?
  }

  // The subjects of the forwarded messages, in order, that are not empty.
  function Subjects(vs: seq<Visit>): seq<string> {
    if vs == [] then [] else
    var p := vs[0].part;
    (if Forwarded(p) && p.subject != "" then [p.subject] else []) + Subjects(vs[1..])
  }

  lemma {:induction false} FirstSubject(m: Mail, vs: seq<Visit>)
    requires Decoded(vs)
    ensures CollectAll(m, vs).subject == if m.subject != "" || Subjects(vs) == [] then m.subject else Subjects(vs)[0]
    decreases |vs|
  {
    hide AppendText;
    if vs != [] {
      FirstSubject(if vs[0].part.Leaf? then Collect(m, vs[0].part) else m, vs[1..]);
    }
  }

  // The walk over a whole message fails with the first thing wrong in document order, so it succeeds
  // exactly when no part found is too deep, there are not too many of them, and every leaf decodes
  // within its limit. Then all of them have been counted, the bodies are the blank-line joins of the
  // texts found, and attachments and images are those found, all in document order and including
  // those inside forwarded messages; and the subject, if it has none itself, is the first that a
  // forwarded message has.
  lemma WalkWhole(l: Limits, p: Part, subject: string)
    ensures var o, vs := Walk(l, p, 0, Mail(subject, "", "", [], []), 0), Nodes(p, 0);
            && o.failure == FirstOffence(l, vs, 0)
            && (o.failure.None? <==> AllFit(l, vs) && |vs| <= l.maxParts)
            && (o.failure.None? ==>
                  && o.parts == |vs|
                  && o.mail.text == BlankLineJoin(Texts(Plain, vs))
                  && o.mail.html == BlankLineJoin(Texts(Html, vs))
                  && o.mail.attachments == Kept(vs, false) && o.mail.images == Kept(vs, true)
                  && o.mail.subject == if subject != "" || Subjects(vs) == [] then subject else Subjects(vs)[0])
  {
    var m := Mail(subject, "", "", [], []);
    var vs := Nodes(p, 0);
    WalkExplained(l, p, 0, m, 0);
    NoOffence(l, vs, 0);
    if FirstOffence(l, vs, 0).None? {
      BodyIsJoin(m, vs, Plain);
      BodyIsJoin(m, vs, Html);
      FilesInOrder(m, vs);
      FirstSubject(m, vs);
    }
  }
}
