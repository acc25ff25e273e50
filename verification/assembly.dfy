/**
 * The message assembler at the start of `Send` (mailer.go:252-276): it turns
 * a header and a list of bodies into the bytes written after DATA.
 *
 * The header values are put in a Go map and written in the map's iteration
 * order, which the language leaves unspecified; the model writes them in any
 * order and states its results for every order.
 */
module Assembly {
  import opened Mailer
  import Boundary

  /** One header line: `<name>: <value>` and CRLF. */
  function FieldLine(name: string, value: string): string {
    name + ": " + value + "\r\n"
  }

  /** The names of the header map, in the order they are inserted. */
  const FieldNames: seq<string> := ["From", "To", "Subject", "MIME-version"]

  /** The header map `Send` builds (mailer.go:253-257). */
  function HeaderFields(h: Header): map<string, string> {
    map["From" := h.from, "To" := h.to, "Subject" := h.subject, "MIME-version" := h.mimeVersion]
  }

  /** An order in which a range loop may visit the header map: each name exactly once. */
  predicate IsFieldOrder(order: seq<string>) {
    multiset(order) == multiset(FieldNames)
  }

  /** `f` applied to every element of `s`, in order. */
  function MapSeq<A, B>(f: A -> B, s: seq<A>): seq<B> {
    seq(|s|, i requires 0 <= i < |s| => f(s[i]))
  }

  /** The line written for key `k` of `fields`; a Go map yields "" for a missing key. */
  function LineOf(fields: map<string, string>): string -> string {
    k => FieldLine(k, if k in fields then fields[k] else "")
  }

  /** The header lines written when the header map is visited in `order`. */
  function FieldLines(h: Header, order: seq<string>): seq<string> {
    MapSeq(LineOf(HeaderFields(h)), order)
  }

  /** The four header lines, in insertion order. */
  function HeaderLines(h: Header): seq<string> {
    [FieldLine("From", h.from), FieldLine("To", h.to),
     FieldLine("Subject", h.subject), FieldLine("MIME-version", h.mimeVersion)]
  }

  /** The strings of `parts`, one after the other. */
  function Concat(parts: seq<string>): string
    decreases |parts|
  {
    if parts == [] then "" else Concat(parts[..|parts| - 1]) + parts[|parts| - 1]
  }

  /** A part's own header line, its data and CRLF. */
  function PartContent(b: Body): string {
    "Content-Type: " + b.contentType + "; charset=\"" + b.charset + "\"\r\n" + b.data + "\r\n"
  }

  /** The dash-boundary line of section 5.1.1 of RFC 2046 that opens a part. */
  function Delimiter(boundary: string): string {
    "--" + boundary + "\r\n"
  }

  /** The close-delimiter line of section 5.1.1 of RFC 2046. */
  function CloseDelimiter(boundary: string): string {
    "--" + boundary + "--\r\n"
  }

  /** The header line that announces a multipart/alternative envelope. */
  function EnvelopeLine(boundary: string): string {
    "Content-Type: multipart/alternative; boundary=\"" + boundary + "\"\r\n"
  }

  /** One part of the envelope: the delimiter line, then the part's content. */
  function DelimitedPart(boundary: string, b: Body): string {
    Delimiter(boundary) + PartContent(b)
  }

  /** One part of the envelope for each body, in the caller's order. */
  function DelimitedParts(boundary: string, bodies: seq<Body>): seq<string> {
    seq(|bodies|, i requires 0 <= i < |bodies| => DelimitedPart(boundary, bodies[i]))
  }

  /**
   * What follows the header lines: nothing for no body, the bare content of a
   * single body, and otherwise a multipart/alternative envelope.
   */
  function BodySection(bodies: seq<Body>, boundary: string): string {
    if |bodies| == 0 then ""
    else if |bodies| == 1 then PartContent(bodies[0])
    else EnvelopeLine(boundary) + Concat(DelimitedParts(boundary, bodies)) + CloseDelimiter(boundary)
  }

  /** The whole message for one visiting order of the header map and one boundary. */
  function Message(h: Header, order: seq<string>, bodies: seq<Body>, boundary: string): string
    requires IsFieldOrder(order)
  {
    Concat(FieldLines(h, order)) + BodySection(bodies, boundary)
  }

  /** `wire` is a message the assembler may produce from these inputs. */
  ghost predicate IsAssembly(h: Header, bodies: seq<Body>, draws: seq<Boundary.CharIndex>, wire: string) {
    exists order :: IsFieldOrder(order) && wire == Message(h, order, bodies, Boundary.BoundaryOf(draws))
  }

  /**
   * The assembler: the header lines in map order, then either the bodies as
   * they are or, for two bodies or more, a boundary-delimited envelope.
   */
  method AssembleMessage(h: Header, bodies: seq<Body>, draws: seq<Boundary.CharIndex>) returns (wire: string)
    requires |draws| == Boundary.BoundaryLength
    ensures IsAssembly(h, bodies, draws, wire)
  {
    var header := WriteHeader(h);
    var section := WriteBodies(bodies, draws);
    wire := header + section;
    ghost var order :| IsFieldOrder(order) && header == Concat(FieldLines(h, order));
    assert wire == Message(h, order, bodies, Boundary.BoundaryOf(draws));
  }

  /** The range loop over the header map (mailer.go:253-261), visiting the keys in any order. */
  method WriteHeader(h: Header) returns (block: string)
    ensures exists order :: IsFieldOrder(order) && block == Concat(FieldLines(h, order))
  {
    var headers := HeaderFields(h);
    block := "";
    var pending := headers.Keys;
    ghost var order: seq<string> := [];
    while pending != {}
      invariant pending <= headers.Keys
      invariant multiset(order) + multiset(pending) == multiset(headers.Keys)
      invariant block == Concat(FieldLines(h, order))
      decreases pending
    {
      var k :| k in pending;
      var v := headers[k];
      assert Concat(FieldLines(h, order + [k])) == block + FieldLine(k, v) by {
        MapSeqAppend(LineOf(headers), order, [k]);
        ConcatSnoc(FieldLines(h, order), FieldLine(k, v));
      }
      block := block + FieldLine(k, v);
      order := order + [k];
      pending := pending - {k};
    }
    assert IsFieldOrder(order) by {
      FieldNamesAreTheKeys(h);
    }
  }

  /**
   * The loop over the bodies (mailer.go:262-276); the boundary is generated
   * only when there are two bodies or more.
   */
  method WriteBodies(bodies: seq<Body>, draws: seq<Boundary.CharIndex>) returns (section: string)
    requires |draws| == Boundary.BoundaryLength
    ensures section == BodySection(bodies, Boundary.BoundaryOf(draws))
  {
    var multipart := |bodies| > 1;
    var boundary := "";
    section := "";
    if multipart {
      boundary := Boundary.GenBoundary(draws);
      section := EnvelopeLine(boundary);
    }
    assert section == Written(bodies, boundary, 0) by {
      assert bodies[..0] == [];
    }
    for i := 0 to |bodies|
      invariant section == Written(bodies, boundary, i)
    {
      WrittenGrows(bodies, boundary, i);
      if multipart {
        section := section + DelimitedPart(boundary, bodies[i]);
      } else {
        section := section + PartContent(bodies[i]);
      }
    }
    if multipart {
      section := section + CloseDelimiter(boundary);
    }
    WrittenAll(bodies, boundary);
  }

  /** What the body loop has written after its first `i` rounds. */
  function Written(bodies: seq<Body>, boundary: string, i: nat): string
    requires i <= |bodies|
  {
    if |bodies| > 1 then EnvelopeLine(boundary) + Concat(DelimitedParts(boundary, bodies[..i]))
    else if i == 0 then ""
    else PartContent(bodies[0])
  }

  /** One round of the body loop appends the part of body `i`. */
  lemma WrittenGrows(bodies: seq<Body>, boundary: string, i: nat)
    requires i < |bodies|
    ensures |bodies| > 1 ==> Written(bodies, boundary, i + 1) == Written(bodies, boundary, i) + DelimitedPart(boundary, bodies[i])
    ensures |bodies| <= 1 ==> Written(bodies, boundary, i + 1) == Written(bodies, boundary, i) + PartContent(bodies[i])
  {
    if |bodies| > 1 {
      PartsGrow(boundary, bodies, i);
      Associative(EnvelopeLine(boundary), Concat(DelimitedParts(boundary, bodies[..i])), DelimitedPart(boundary, bodies[i]));
    }
  }

  /** Concatenation is associative. */
  lemma Associative<T>(a: seq<T>, b: seq<T>, c: seq<T>)
    ensures (a + b) + c == a + (b + c)
  {
  }

  /** After the last round, the close delimiter completes the body section. */
  lemma WrittenAll(bodies: seq<Body>, boundary: string)
    ensures |bodies| > 1 ==> Written(bodies, boundary, |bodies|) + CloseDelimiter(boundary) == BodySection(bodies, boundary)
    ensures |bodies| <= 1 ==> Written(bodies, boundary, |bodies|) == BodySection(bodies, boundary)
  {
    assert bodies[..|bodies|] == bodies;
  }

  /** Appending one string to a list appends it to the concatenation. */
  lemma ConcatSnoc(parts: seq<string>, last: string)
    ensures Concat(parts + [last]) == Concat(parts) + last
  {
  }

  /** Taking one more body adds its part at the end. */
  lemma PartsGrow(boundary: string, bodies: seq<Body>, i: nat)
    requires i < |bodies|
    ensures Concat(DelimitedParts(boundary, bodies[..i + 1]))
         == Concat(DelimitedParts(boundary, bodies[..i])) + DelimitedPart(boundary, bodies[i])
  {
    assert bodies[..i + 1][..i] == bodies[..i];
    assert DelimitedParts(boundary, bodies[..i + 1])[..i] == DelimitedParts(boundary, bodies[..i]);
  }

  /** The key set of the header map holds the four names, each once. */
  lemma FieldNamesAreTheKeys(h: Header)
    ensures multiset(HeaderFields(h).Keys) == multiset(FieldNames)
  {
  }

  // Properties of the assembled message.

  /** Concatenating two lists of strings concatenates their results. */
  lemma {:induction false} ConcatAppend(a: seq<string>, b: seq<string>)
    ensures Concat(a + b) == Concat(a) + Concat(b)
    decreases |b|
  {
    if b == [] {
      assert a + b == a;
    } else {
      var init := b[..|b| - 1];
      assert (a + b)[..|a + b| - 1] == a + init;
      ConcatAppend(a, init);
      Associative(Concat(a), Concat(init), b[|b| - 1]);
    }
  }

  /** Mapping a split sequence maps each piece. */
  lemma MapSeqAppend<A, B>(f: A -> B, a: seq<A>, b: seq<A>)
    ensures MapSeq(f, a + b) == MapSeq(f, a) + MapSeq(f, b)
  {
  }

  /** Mapping two permutations of each other gives two permutations of each other. */
  lemma {:induction false} MapSeqPermute<A, B>(f: A -> B, o1: seq<A>, o2: seq<A>)
    requires multiset(o1) == multiset(o2)
    ensures multiset(MapSeq(f, o1)) == multiset(MapSeq(f, o2))
    decreases |o1|
  {
    if o1 != [] {
      var k := o1[0];
      assert k in multiset(o2);
      var j :| 0 <= j < |o2| && o2[j] == k;
      var before, after := o2[..j], o2[j + 1..];
      assert o2 == before + [k] + after;
      assert o1 == [k] + o1[1..];
      assert multiset(o1[1..]) == multiset(before + after) by {
        assert multiset(o2) == multiset(before) + multiset{k} + multiset(after);
        assert multiset(o1) == multiset{k} + multiset(o1[1..]);
        assert multiset(before + after) == multiset(before) + multiset(after);
        assert multiset(o1[1..]) == multiset(o1) - multiset{k};
        assert multiset(before + after) == multiset(o2) - multiset{k};
      }
      MapSeqPermute(f, o1[1..], before + after);
      MapSeqAppend(f, [k], o1[1..]);
      MapSeqAppend(f, before + [k], after);
      MapSeqAppend(f, before, [k]);
      MapSeqAppend(f, before, after);
    }
  }

  /**
   * Whatever order the header map is visited in, the header block holds the
   * four lines `From`, `To`, `Subject` and `MIME-version`, each exactly once,
   * and it starts the message.
   */
  lemma HeaderBlockIsPermutation(h: Header, order: seq<string>, bodies: seq<Body>, boundary: string)
    requires IsFieldOrder(order)
    ensures |FieldLines(h, order)| == 4
    ensures multiset(FieldLines(h, order)) == multiset(HeaderLines(h))
    ensures forall line | line in HeaderLines(h) :: multiset(FieldLines(h, order))[line] == 1
    ensures Concat(FieldLines(h, order)) <= Message(h, order, bodies, boundary)
  {
    MapSeqPermute(LineOf(HeaderFields(h)), order, FieldNames);
    CanonicalLines(h);
    HeaderLinesDistinct(h);
  }

  /** Visiting the header map in insertion order gives the four lines in that order. */
  lemma CanonicalLines(h: Header)
    ensures FieldLines(h, FieldNames) == HeaderLines(h)
  {
  }

  /** The four header lines differ from each other, already in their first character. */
  lemma HeaderLinesDistinct(h: Header)
    ensures forall line | line in HeaderLines(h) :: multiset(HeaderLines(h))[line] == 1
  {
    var lines := HeaderLines(h);
    assert lines[0][0] == 'F' && lines[1][0] == 'T' && lines[2][0] == 'S' && lines[3][0] == 'M';
    assert multiset(lines) == multiset{lines[0], lines[1], lines[2], lines[3]};
  }

  /** With no body the message is the header block alone. */
  lemma NoBodyLayout(h: Header, order: seq<string>, boundary: string)
    requires IsFieldOrder(order)
    ensures Message(h, order, [], boundary) == Concat(FieldLines(h, order))
  {
  }

  /**
   * With one body the header block is followed by the body's Content-Type
   * line, its data and CRLF; the boundary plays no part.
   */
  lemma SingleBodyLayout(h: Header, order: seq<string>, b: Body, boundary: string, other: string)
    requires IsFieldOrder(order)
    ensures Message(h, order, [b], boundary)
         == Concat(FieldLines(h, order)) + "Content-Type: " + b.contentType + "; charset=\"" + b.charset + "\"\r\n" + b.data + "\r\n"
    ensures Message(h, order, [b], boundary) == Message(h, order, [b], other)
  {
  }

  /** Below two bodies the assembler's result does not depend on the random draws. */
  lemma NoBoundaryBelowTwoBodies(h: Header, bodies: seq<Body>, draws: seq<Boundary.CharIndex>,
                                 other: seq<Boundary.CharIndex>, wire: string)
    requires |bodies| <= 1
    requires IsAssembly(h, bodies, draws, wire)
    ensures IsAssembly(h, bodies, other, wire)
  {
  }

  /** The parts of a split list of bodies are the parts of each piece. */
  lemma PartsAppend(boundary: string, x: seq<Body>, y: seq<Body>)
    ensures DelimitedParts(boundary, x + y) == DelimitedParts(boundary, x) + DelimitedParts(boundary, y)
  {
  }

  /**
   * With two bodies or more, body `i` sits between the parts of the bodies
   * before it and those after it, opened by the same boundary that the
   * envelope header announces and that closes the envelope.
   */
  lemma MultipartLayout(bodies: seq<Body>, boundary: string, i: nat)
    requires |bodies| > 1 && i < |bodies|
    ensures BodySection(bodies, boundary)
         == EnvelopeLine(boundary)
          + Concat(DelimitedParts(boundary, bodies[..i]))
          + ("--" + boundary + "\r\n" + PartContent(bodies[i]))
          + Concat(DelimitedParts(boundary, bodies[i + 1..]))
          + CloseDelimiter(boundary)
  {
    var before, after := bodies[..i], bodies[i + 1..];
    assert bodies == before + [bodies[i]] + after;
    PartsAppend(boundary, before + [bodies[i]], after);
    PartsAppend(boundary, before, [bodies[i]]);
    var dp := DelimitedPart(boundary, bodies[i]);
    assert DelimitedParts(boundary, [bodies[i]]) == [dp];
    ConcatAppend(DelimitedParts(boundary, before) + [dp], DelimitedParts(boundary, after));
    ConcatAppend(DelimitedParts(boundary, before), [dp]);
    assert Concat([dp]) == dp by {
      assert [dp][..0] == [];
    }
    var e, c, a := EnvelopeLine(boundary), Concat(DelimitedParts(boundary, before)), Concat(DelimitedParts(boundary, after));
    Associative(e, c + dp, a);
    Associative(e, c, dp);
  }

  /**
   * With two bodies or more the message ends with the part of the last body
   * followed by the close delimiter: the last body given is the last
   * alternative, the one section 5.1.4 of RFC 2046 makes the preferred one.
   */
  lemma LastBodyIsLastPart(h: Header, order: seq<string>, bodies: seq<Body>, boundary: string)
    requires IsFieldOrder(order) && |bodies| > 1
    ensures var m := Message(h, order, bodies, boundary);
            var tail := DelimitedPart(boundary, bodies[|bodies| - 1]) + CloseDelimiter(boundary);
            |tail| <= |m| && m[|m| - |tail|..] == tail
  {
    var parts := DelimitedParts(boundary, bodies);
    var last := DelimitedPart(boundary, bodies[|bodies| - 1]);
    var head := Concat(FieldLines(h, order)) + EnvelopeLine(boundary) + Concat(parts[..|parts| - 1]);
    var close := CloseDelimiter(boundary);
    assert Concat(parts) == Concat(parts[..|parts| - 1]) + last;
    Associative(Concat(FieldLines(h, order)), EnvelopeLine(boundary) + Concat(parts), close);
    Associative(EnvelopeLine(boundary), Concat(parts[..|parts| - 1]), last);
    Associative(Concat(FieldLines(h, order)), EnvelopeLine(boundary), Concat(parts[..|parts| - 1]) + last);
    Associative(Concat(FieldLines(h, order)) + EnvelopeLine(boundary), Concat(parts[..|parts| - 1]), last);
    Associative(head, last, close);
    assert Message(h, order, bodies, boundary) == head + (last + close);
  }
}
