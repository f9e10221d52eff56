/** X12 documents as the billing code writes and reads them (ASC X12 005010): a
    document is its segments, each a list of elements joined by `*` and terminated by
    `~`, one segment per line; reading splits on `~` after dropping newlines and strips
    every segment (`parse_837_basic`, `reconcile_837_835` in example/hl7_utils.py). */
module X12Document {
  import opened Wrappers
  import opened Text

  /** One segment's text: its elements, the segment id first, separated by `*`. */
  function Body(seg: seq<string>): string {
    Join(seg, '*')
  }

  /** The texts of a document's segments, in order. */
  function BodiesOf(doc: seq<seq<string>>): (r: seq<string>)
    ensures |r| == |doc|
    ensures forall i :: 0 <= i < |doc| ==> r[i] == Body(doc[i])
  {
    seq(|doc|, i requires 0 <= i < |doc| => Body(doc[i]))
  }

  /** `"\n".join(body + "~" for body in bodies)`: each segment terminated by `~`, one
      segment per line. */
  function Terminated(bodies: seq<string>): string {
    Join(seq(|bodies|, i requires 0 <= i < |bodies| => bodies[i] + "~"), '\n')
  }

  /** A document's text. */
  function Render(doc: seq<seq<string>>): string {
    Terminated(BodiesOf(doc))
  }

  /** `[s.strip() for s in doc.replace("\n", "").split("~") if s.strip()]` */
  function Segments(doc: string): seq<string> {
    StripNonBlank(Split(RemoveChar(doc, '\n'), '~'))
  }

  /** The segments starting with `p`, in order. */
  function WithPrefixAll(segs: seq<string>, p: string): (r: seq<string>)
    ensures |r| <= |segs|
    ensures forall i :: 0 <= i < |r| ==> p <= r[i]
  {
    if segs == [] then []
    else
      var s := segs[|segs| - 1];
      WithPrefixAll(segs[..|segs| - 1], p) + (if p <= s then [s] else [])
  }

  /** Dropping the newlines of a newline-joined text drops them from every part. */
  lemma {:induction false} RemoveNewlines(parts: seq<string>)
    ensures RemoveChar(Join(parts, '\n'), '\n') ==
      Concat(seq(|parts|, i requires 0 <= i < |parts| => RemoveChar(parts[i], '\n')))
    decreases |parts|
  {
    var removed := seq(|parts|, i requires 0 <= i < |parts| => RemoveChar(parts[i], '\n'));
    if parts == [] {
      assert RemoveChar("", '\n') == "";
    } else if |parts| == 1 {
      assert removed[1..] == [];
      assert Concat(removed) == removed[0] + Concat([]);
    } else {
      var rest := parts[1..];
      var tail := seq(|rest|, i requires 0 <= i < |rest| => RemoveChar(rest[i], '\n'));
      RemoveNewlines(rest);
      assert removed[1..] == tail;
      assert Concat(removed) == RemoveChar(parts[0], '\n') + Concat(tail);
      assert Join(parts, '\n') == (parts[0] + "\n") + Join(rest, '\n');
      RemoveCharAppend(parts[0] + "\n", Join(rest, '\n'), '\n');
      RemoveCharAppend(parts[0], "\n", '\n');
      assert RemoveChar("\n", '\n') == [];
    }
  }

  lemma {:induction false} SplitTerminated(bodies: seq<string>)
    requires forall i :: 0 <= i < |bodies| ==> '~' !in bodies[i]
    ensures Split(Concat(seq(|bodies|, i requires 0 <= i < |bodies| => bodies[i] + "~")), '~') == bodies + [""]
    decreases |bodies|
  {
    var t := seq(|bodies|, i requires 0 <= i < |bodies| => bodies[i] + "~");
    if bodies == [] {
      assert Concat(t) == "";
    } else {
      var rest := bodies[1..];
      var tr := seq(|rest|, i requires 0 <= i < |rest| => rest[i] + "~");
      assert t[1..] == tr;
      SplitTerminated(rest);
      assert Concat(t) == bodies[0] + ['~'] + Concat(tr);
      SplitAtFirst(bodies[0], Concat(tr), '~');
      assert [bodies[0]] + (rest + [""]) == bodies + [""];
    }
  }

  lemma JoinExcludes(parts: seq<string>, d: char, c: char)
    requires c != d
    requires forall i :: 0 <= i < |parts| ==> c !in parts[i]
    ensures c !in Join(parts, d)
    decreases |parts|
  {
    if |parts| > 1 {
      JoinExcludes(parts[1..], d, c);
    }
  }

  lemma {:induction false} JoinLast(parts: seq<string>, d: char)
    requires |parts| >= 1 && parts[|parts| - 1] != ""
    ensures Join(parts, d) != "" && Join(parts, d)[|Join(parts, d)| - 1] == parts[|parts| - 1][|parts[|parts| - 1]| - 1]
    decreases |parts|
  {
    if |parts| > 1 {
      JoinLast(parts[1..], d);
    }
  }

  /** An element that fits in a segment: no terminator, no newline. */
  predicate Clean(e: string) {
    '~' !in e && '\n' !in e
  }

  /** A segment that renders and reads back as written: an id and at least one more
      element, an id free of `*` that starts with a non-space, no element holding a
      terminator or newline, and a last element that ends in a non-space. */
  predicate WellFormed(seg: seq<string>) {
    && |seg| >= 2 && seg[0] != "" && !IsSpace(seg[0][0]) && '*' !in seg[0]
    && (forall j :: 0 <= j < |seg| ==> Clean(seg[j]))
    && seg[|seg| - 1] != "" && !IsSpace(seg[|seg| - 1][|seg[|seg| - 1]| - 1])
  }

  /** A well-formed segment's text is clean, starts with its id and `*`, and is not
      changed by stripping. */
  lemma BodyOfWellFormed(seg: seq<string>)
    requires WellFormed(seg)
    ensures Clean(Body(seg))
    ensures seg[0] + "*" <= Body(seg)
    ensures Strip(Body(seg)) == Body(seg)
  {
    JoinExcludes(seg, '*', '~');
    JoinExcludes(seg, '*', '\n');
    assert Body(seg) == seg[0] + ['*'] + Join(seg[1..], '*');
    JoinLast(seg, '*');
    StripUnchanged(Body(seg));
  }

  /** `tag*` starts a well-formed segment exactly when `tag` is its id. */
  lemma ElementTag(seg: seq<string>, tag: string)
    requires WellFormed(seg) && '*' !in tag
    ensures tag + "*" <= Body(seg) <==> seg[0] == tag
  {
    var b := Body(seg);
    var rest := Join(seg[1..], '*');
    assert b == seg[0] + ['*'] + rest;
    SplitAtFirst(seg[0], rest, '*');
    assert Split(b, '*')[0] == seg[0];
    if tag + "*" <= b {
      var after := b[|tag| + 1..];
      assert b == tag + ['*'] + after;
      SplitAtFirst(tag, after, '*');
      assert Split(b, '*')[0] == tag;
    }
    if seg[0] == tag {
      assert b[..|tag| + 1] == tag + "*";
    }
  }

  /** A segment the reader finds by its id: an id that starts with a non-space and
      holds no `*` or newline, at least one more element, and no element holding a
      terminator. Read back, its newlines are gone and its trailing whitespace is
      stripped. */
  predicate Readable(seg: seq<string>) {
    && |seg| >= 2 && seg[0] != "" && !IsSpace(seg[0][0]) && '*' !in seg[0] && '\n' !in seg[0]
    && forall j :: 0 <= j < |seg| ==> '~' !in seg[j]
  }

  /** One segment's text as the reader keeps it: newlines dropped, then stripped. */
  function ReadBack(body: string): string {
    Strip(RemoveChar(body, '\n'))
  }

  /** `tag*` starts an id followed by `*` exactly when the id is `tag`. */
  lemma TagPrefix(id: string, after: string, tag: string)
    requires '*' !in id && '*' !in tag
    ensures tag + "*" <= id + ['*'] + after <==> id == tag
  {
    var b := id + ['*'] + after;
    SplitAtFirst(id, after, '*');
    assert Split(b, '*')[0] == id;
    if tag + "*" <= b {
      var rest := b[|tag| + 1..];
      assert b == tag + ['*'] + rest;
      SplitAtFirst(tag, rest, '*');
      assert Split(b, '*')[0] == tag;
    }
    if id == tag {
      assert b[..|tag| + 1] == tag + "*";
    }
  }

  /** A readable segment's text holds no terminator, is not blank once its newlines
      are dropped, and reads back starting with its id and `*`. */
  lemma ReadBackOfReadable(seg: seq<string>)
    requires Readable(seg)
    ensures '~' !in Body(seg)
    ensures !IsBlank(RemoveChar(Body(seg), '\n'))
    ensures |ReadBack(Body(seg))| > |seg[0]| && ReadBack(Body(seg))[..|seg[0]| + 1] == seg[0] + "*"
  {
    var rest := Join(seg[1..], '*');
    assert Body(seg) == seg[0] + ['*'] + rest;
    JoinExcludes(seg, '*', '~');
    var x := RemoveChar(Body(seg), '\n');
    RemoveNewlinesAfterId(seg[0], rest);
    assert x[0] == seg[0][0];
    StripKeepsHead(x, |seg[0]|);
  }

  lemma RemoveNewlinesAfterId(id: string, rest: string)
    requires '\n' !in id
    ensures RemoveChar(id + ['*'] + rest, '\n') == id + ['*'] + RemoveChar(rest, '\n')
  {
    RemoveCharAppend(id + ['*'], rest, '\n');
    RemoveCharAppend(id, ['*'], '\n');
    RemoveCharAbsent(id, '\n');
    assert RemoveChar(['*'], '\n') == ['*'];
  }

  /** Read back, a readable segment starts with `tag*` exactly when its id is `tag`. */
  lemma ReadableTag(seg: seq<string>, tag: string)
    requires Readable(seg) && '*' !in tag
    ensures tag + "*" <= ReadBack(Body(seg)) <==> seg[0] == tag
  {
    ReadBackOfReadable(seg);
    var r := ReadBack(Body(seg));
    var n := |seg[0]|;
    assert r == seg[0] + ['*'] + r[n + 1..];
    TagPrefix(seg[0], r[n + 1..], tag);
  }

  /** A well-formed segment is readable, and reads back as its own text. */
  lemma ReadBackOfWellFormed(seg: seq<string>)
    requires WellFormed(seg)
    ensures Readable(seg)
    ensures ReadBack(Body(seg)) == Body(seg)
  {
    BodyOfWellFormed(seg);
    RemoveCharAbsent(Body(seg), '\n');
    assert Clean(seg[0]);
  }

  lemma WellFormedReadable(doc: seq<seq<string>>)
    requires forall i :: 0 <= i < |doc| ==> WellFormed(doc[i])
    ensures forall i :: 0 <= i < |doc| ==> Readable(doc[i])
  {
    forall i | 0 <= i < |doc|
      ensures Readable(doc[i])
    {
      ReadBackOfWellFormed(doc[i]);
    }
  }

  /** Dropping the newlines of terminated texts and splitting on `~` gives the texts,
      their newlines dropped, and an empty remainder. */
  lemma TerminatedPieces(bodies: seq<string>)
    requires forall i :: 0 <= i < |bodies| ==> '~' !in bodies[i]
    ensures Split(RemoveChar(Terminated(bodies), '\n'), '~') ==
      seq(|bodies|, i requires 0 <= i < |bodies| => RemoveChar(bodies[i], '\n')) + [""]
  {
    var t := seq(|bodies|, i requires 0 <= i < |bodies| => bodies[i] + "~");
    var pieces := seq(|bodies|, i requires 0 <= i < |bodies| => RemoveChar(bodies[i], '\n'));
    var removed := seq(|t|, i requires 0 <= i < |t| => RemoveChar(t[i], '\n'));
    forall i | 0 <= i < |bodies|
      ensures removed[i] == pieces[i] + "~" && '~' !in pieces[i]
    {
      RemoveCharAppend(bodies[i], "~", '\n');
      assert RemoveChar("~", '\n') == "~";
      RemoveCharExcludes(bodies[i], '\n', '~');
    }
    assert removed == seq(|pieces|, i requires 0 <= i < |pieces| => pieces[i] + "~");
    RemoveNewlines(t);
    SplitTerminated(pieces);
  }

  /** Reading back terminated texts free of `~`, none blank once its newlines are
      dropped, gives each text as the reader sees it. */
  lemma SegmentsOfTerminated(bodies: seq<string>)
    requires forall i :: 0 <= i < |bodies| ==> '~' !in bodies[i] && !IsBlank(RemoveChar(bodies[i], '\n'))
    ensures Segments(Terminated(bodies)) == seq(|bodies|, i requires 0 <= i < |bodies| => ReadBack(bodies[i]))
  {
    TerminatedPieces(bodies);
    var pieces := seq(|bodies|, i requires 0 <= i < |bodies| => RemoveChar(bodies[i], '\n'));
    StripNonBlankSnoc(pieces, "");
    StripNonBlankAll(pieces);
    assert Strip("") == "";
  }

  /** Reading back a rendered document of well-formed segments gives their texts. */
  lemma SegmentsOfRender(doc: seq<seq<string>>)
    requires forall i :: 0 <= i < |doc| ==> WellFormed(doc[i])
    ensures Segments(Render(doc)) == BodiesOf(doc)
  {
    var bodies := BodiesOf(doc);
    forall i | 0 <= i < |bodies|
      ensures '~' !in bodies[i] && !IsBlank(RemoveChar(bodies[i], '\n')) && ReadBack(bodies[i]) == bodies[i]
    {
      BodyOfWellFormed(doc[i]);
      RemoveCharAbsent(bodies[i], '\n');
      assert !IsSpace(bodies[i][0]);
    }
    SegmentsOfTerminated(bodies);
  }

  /** Reading back a rendered document of readable segments gives each segment's text
      as the reader sees it. */
  lemma SegmentsOfReadable(doc: seq<seq<string>>)
    requires forall i :: 0 <= i < |doc| ==> Readable(doc[i])
    ensures Segments(Render(doc)) == seq(|doc|, i requires 0 <= i < |doc| => ReadBack(Body(doc[i])))
  {
    var bodies := BodiesOf(doc);
    forall i | 0 <= i < |bodies|
      ensures '~' !in bodies[i] && !IsBlank(RemoveChar(bodies[i], '\n'))
    {
      ReadBackOfReadable(doc[i]);
    }
    SegmentsOfTerminated(bodies);
  }

  /** A rendered document with at least one readable segment is not empty. */
  lemma RenderNonEmpty(doc: seq<seq<string>>)
    requires |doc| >= 1 && forall i :: 0 <= i < |doc| ==> Readable(doc[i])
    ensures Render(doc) != ""
  {
    SegmentsOfReadable(doc);
    SegmentsOfEmpty();
  }

  /** An empty document has no segments. */
  lemma SegmentsOfEmpty()
    ensures Segments("") == []
  {
    assert RemoveChar("", '\n') == "";
    assert Split("", '~') == [""];
    StripNonBlankSnoc([], "");
  }

  /** The first segment read back with prefix `tag*` is the text of the first segment
      with id `tag`, when that one is well formed and all before it are readable. */
  lemma FirstTagged(doc: seq<seq<string>>, tag: string, k: nat)
    requires forall i :: 0 <= i < |doc| ==> Readable(doc[i])
    requires '*' !in tag
    requires k < |doc| && WellFormed(doc[k]) && doc[k][0] == tag
    requires forall j :: 0 <= j < k ==> |doc[j]| > 0 && doc[j][0] != tag
    ensures FirstWithPrefix(Segments(Render(doc)), tag + "*") == Some(Body(doc[k]))
  {
    SegmentsOfReadable(doc);
    var segs := Segments(Render(doc));
    forall j | 0 <= j < k
      ensures !(tag + "*" <= segs[j])
    {
      ReadableTag(doc[j], tag);
    }
    ReadBackOfWellFormed(doc[k]);
    ReadableTag(doc[k], tag);
    FirstWithPrefixAt(segs, tag + "*", k);
  }

  lemma WithPrefixAllSnoc(segs: seq<string>, s: string, p: string)
    ensures WithPrefixAll(segs + [s], p) == WithPrefixAll(segs, p) + (if p <= s then [s] else [])
  {
    assert (segs + [s])[..|segs|] == segs;
  }

  lemma {:induction false} WithPrefixAllAppend(a: seq<string>, b: seq<string>, p: string)
    ensures WithPrefixAll(a + b, p) == WithPrefixAll(a, p) + WithPrefixAll(b, p)
    decreases |b|
  {
    if b != [] {
      var front := b[..|b| - 1];
      var s := b[|b| - 1];
      assert a + b == (a + front) + [s];
      assert b == front + [s];
      WithPrefixAllSnoc(a + front, s, p);
      WithPrefixAllSnoc(front, s, p);
      WithPrefixAllAppend(a, front, p);
    } else {
      assert a + b == a;
    }
  }

  /** The segments read back with prefix `tag*` from a stretch of well-formed segments:
      none when no id is `tag`, all of them when every id is. */
  lemma {:induction false} TaggedStretch(doc: seq<seq<string>>, tag: string, all: bool)
    requires '*' !in tag
    requires forall i :: 0 <= i < |doc| ==> WellFormed(doc[i]) && (doc[i][0] == tag <==> all)
    ensures WithPrefixAll(BodiesOf(doc), tag + "*") == if all then BodiesOf(doc) else []
    decreases |doc|
  {
    if doc != [] {
      var front := doc[..|doc| - 1];
      assert BodiesOf(doc) == BodiesOf(front) + [Body(doc[|doc| - 1])];
      TaggedStretch(front, tag, all);
      ElementTag(doc[|doc| - 1], tag);
      WithPrefixAllSnoc(BodiesOf(front), Body(doc[|doc| - 1]), tag + "*");
    }
  }

  /** Text that fits in one element without ending the segment or the line. */
  type Element = e: string | '~' !in e && '\n' !in e

  /** An element that also holds no element separator, so it splits back out whole. */
  type Datum = e: Element | '*' !in e

  /** The trading partners of the interchange. */
  const Sender: Element := "SENDERID"
  const Receiver: Element := "RECEIVERID"

  /** The billing provider, who is also the payee of the remittance, and its NPI. */
  const ClinicName: Element := "GOOD HEALTH CLINIC"
  const ClinicNpi: Element := "1234567893"

  /** ISA02 and ISA04, authorization and security information: ten spaces. */
  const NoInformation: Element := "          "

  /** ISA06 and ISA08: the partners' ids, padded to fifteen characters. */
  const IsaSender: Element := "SENDERID      "
  const IsaReceiver: Element := "RECEIVERID    "

  /** ISA: the interchange header, with its control number. */
  function Isa(control: Element): seq<Element> {
    ["ISA", "00", NoInformation, "00", NoInformation, "ZZ", IsaSender, "ZZ", IsaReceiver,
     "250101", "1200", "^", "00501", control, "0", "T", ":"]
  }

  /** SE: the transaction trailer, with its segment count. */
  function Se(count: Element): seq<Element> {
    ["SE", count, "0001"]
  }

  /** IEA: the interchange trailer, with the header's control number. */
  function Iea(control: Element): seq<Element> {
    ["IEA", "1", control]
  }

  const Ge: seq<Element> := ["GE", "1", "1"]

  /** A segment of data elements splits back into its elements. */
  lemma SplitJoinData(seg: seq<Datum>)
    requires |seg| >= 1
    ensures Split(Body(seg), '*') == seg
  {
    SplitJoin(seg, '*');
  }
}
