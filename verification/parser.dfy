/**
 `parse_text_to_dict` (book_reader_app.py): the first line is the title;
 every later line is classified and fed to a two-part state — the chapters
 already sealed and the chapter currently open. A heading seals the open
 chapter and opens a new one; a body line is appended to the open chapter
 or dropped when none is open; at the end the open chapter is sealed.
 */
module Parser {
  import opened Wrappers
  import opened Text
  import opened Books
  import opened Classifier

  /** `data["chapters"]` so far and `current_chapter`. */
  datatype State = State(sealed: seq<Chapter>, open: Option<Chapter>)

  const Start: State := State([], None)

  /** One iteration of the loop, on an already classified line. Sealed
      chapters are never revised: only a heading seals, it seals nothing
      when no chapter is open, and otherwise it seals exactly the open
      chapter. */
  function Step(k: LineKind, st: State): (st': State)
    ensures st.sealed <= st'.sealed && |st'.sealed| <= |st.sealed| + 1
    ensures |st'.sealed| == |st.sealed| + 1 <==> k.Heading? && st.open.Some?
    ensures |st'.sealed| == |st.sealed| + 1 ==> st'.sealed[|st.sealed|] == st.open.value
    ensures !k.Heading? ==> st'.sealed == st.sealed
    ensures st'.open.Some? <==> st.open.Some? || k.Heading?
  {
    match k
    case Blank => st
    case Heading(name) =>
      var sealed := if st.open.Some? then st.sealed + [st.open.value] else st.sealed;
      State(sealed, Some(Chapter(name, [])))
    case Body(text) =>
      if st.open.Some? then
        State(st.sealed, Some(st.open.value.(paragraphs := st.open.value.paragraphs + [text])))
      else st
  }

  /** The loop over the remaining classified lines. The chapters sealed
      before are kept as a prefix, and a chapter is open at the end exactly
      when one was open at the start or some line is a heading. */
  function Run(ks: seq<LineKind>, st: State): (st': State)
    ensures st.sealed <= st'.sealed
    ensures st'.open.Some? <==> st.open.Some? || HeadingNames(ks) != []
  {
    if ks == [] then st else Run(ks[1..], Step(ks[0], st))
  }

  /** After the loop: the last open chapter, if any, is appended. */
  function Close(st: State): seq<Chapter>
  {
    if st.open.Some? then st.sealed + [st.open.value] else st.sealed
  }

  /** `parse_text_to_dict` on the result of `splitlines()`. */
  function Parse(lines: seq<string>): (b: Book)
    ensures b.Empty? <==> lines == []
    ensures b.Book? ==> b.title == Trim(lines[0])
  {
    if lines == [] then Empty
    else Book(Trim(lines[0]), Close(Run(Kinds(lines), Start)))
  }

  /** The chapters a state ends with once the remaining lines `ks` are
      processed and the state is closed, by the reference definition: the
      open chapter absorbs the body lines up to the next heading, and every
      later heading contributes the chapter `Grouped` gives it. */
  function Expected(ks: seq<LineKind>, st: State): seq<Chapter>
  {
    if st.open.Some? then
      st.sealed + [st.open.value.(paragraphs := st.open.value.paragraphs + LeadingBodies(ks))] + Grouped(ks)
    else st.sealed + Grouped(ks)
  }

  /** One step of the state machine keeps the expected outcome. */
  lemma StepKeepsExpected(ks: seq<LineKind>, st: State)
    requires ks != []
    ensures Expected(ks[1..], Step(ks[0], st)) == Expected(ks, st)
  {
    var rest := ks[1..];
    match ks[0]
    case Blank =>
    case Heading(name) =>
      assert Grouped(ks) == [Chapter(name, LeadingBodies(rest))] + Grouped(rest);
      assert Chapter(name, [] + LeadingBodies(rest)) == Chapter(name, LeadingBodies(rest));
      if st.open.Some? {
        var c := st.open.value;
        assert c.(paragraphs := c.paragraphs + LeadingBodies(ks)) == c by {
          assert LeadingBodies(ks) == [];
          assert c.paragraphs + [] == c.paragraphs;
        }
        assert st.sealed + [c] + [Chapter(name, LeadingBodies(rest))] + Grouped(rest)
            == st.sealed + [c] + Grouped(ks);
      }
    case Body(text) =>
      if st.open.Some? {
        var c := st.open.value;
        assert c.paragraphs + [text] + LeadingBodies(rest) == c.paragraphs + LeadingBodies(ks);
      }
  }

  /** The state machine, run to the end and closed, yields the expected
      chapters. */
  lemma {:induction false} RunMatchesGrouping(ks: seq<LineKind>, st: State)
    ensures Close(Run(ks, st)) == Expected(ks, st)
  {
    if ks == [] {
      assert st.open.Some? ==> st.open.value.(paragraphs := st.open.value.paragraphs + []) == st.open.value;
    } else {
      RunMatchesGrouping(ks[1..], Step(ks[0], st));
      StepKeepsExpected(ks, st);
    }
  }

  /** The state machine computes the reference meaning: the book's chapters
      are exactly `Grouped` of the classified lines after the title. */
  lemma ParseIsGrouping(lines: seq<string>)
    requires lines != []
    ensures Parse(lines) == Book(Trim(lines[0]), Grouped(Kinds(lines)))
  {
    RunMatchesGrouping(Kinds(lines), Start);
  }

  /** The chapter count equals the number of heading lines, the names come
      in heading order, and the last chapter opened is included. */
  lemma ParseChapterNames(lines: seq<string>)
    requires lines != []
    ensures Names(Parse(lines).chapters) == HeadingNames(Kinds(lines))
    ensures |Parse(lines).chapters| == |HeadingNames(Kinds(lines))|
  {
    ParseIsGrouping(lines);
    GroupedNames(Kinds(lines));
  }

  /** Concatenating all chapters' paragraphs gives, in the original order,
      exactly the body lines from the first heading on; body lines before
      the first heading are dropped. */
  lemma ParseParagraphs(lines: seq<string>)
    requires lines != []
    ensures AllParagraphs(Parse(lines).chapters) == Bodies(FromFirstHeading(Kinds(lines)))
  {
    ParseIsGrouping(lines);
    GroupedParagraphs(Kinds(lines));
  }

  /** The role of line `i` (after the title line) in terms of the raw
      text: a blank line is nothing; a marker line is always a heading
      named by its stripped remainder, whatever its length and whatever
      follows; a long unmarked line is never a heading; a short unmarked
      line is a heading exactly when the very next line has content. */
  lemma LineRole(lines: seq<string>, i: nat)
    requires 1 <= i < |lines|
    ensures |Kinds(lines)| == |lines| - 1
    ensures AllSpace(lines[i]) <==> Kinds(lines)[i - 1] == Blank
    ensures StartsWith(Trim(lines[i]), Marker) ==>
              Kinds(lines)[i - 1] == Heading(Trim(Trim(lines[i])[|Marker|..]))
    ensures !StartsWith(Trim(lines[i]), Marker) && |Trim(lines[i])| >= ShortTitleLimit ==>
              Kinds(lines)[i - 1] == Body(Trim(lines[i]))
    ensures !AllSpace(lines[i]) && !StartsWith(Trim(lines[i]), Marker)
            && (i + 1 == |lines| || AllSpace(lines[i + 1])) ==>
              Kinds(lines)[i - 1] == Body(Trim(lines[i]))
    ensures !AllSpace(lines[i]) && !StartsWith(Trim(lines[i]), Marker) && |Trim(lines[i])| < ShortTitleLimit
            && i + 1 < |lines| && !AllSpace(lines[i + 1]) ==>
              Kinds(lines)[i - 1] == Heading(Trim(lines[i]))
  {
    KindsAt(lines, i - 1);
    TrimEmptyIffAllSpace(lines[i]);
    if i + 1 < |lines| {
      TrimEmptyIffAllSpace(lines[i + 1]);
    }
  }

  /** `p` is a non-blank line of the text after the title line, stripped. */
  ghost predicate IsStrippedLine(p: string, lines: seq<string>) {
    && p != [] && Trimmed(p)
    && exists j :: 1 <= j < |lines| && p == Trim(lines[j])
  }

  /** A body line of the classified text is a non-blank line after the
      title line, stripped. */
  lemma BodyIsStrippedLine(lines: seq<string>, p: string)
    requires Body(p) in Kinds(lines)
    ensures IsStrippedLine(p, lines)
  {
    var ks := Kinds(lines);
    var j :| 0 <= j < |ks| && ks[j] == Body(p);
    KindsAt(lines, j);
    assert p == Trim(lines[j + 1]);
  }

  /** A stored paragraph is a non-blank line of the text (not the title
      line), stripped. */
  lemma ParagraphIsStrippedLine(lines: seq<string>, c: Chapter, p: string)
    requires lines != []
    requires c in Parse(lines).chapters && p in c.paragraphs
    ensures IsStrippedLine(p, lines)
  {
    var ks := Kinds(lines);
    var rest := FromFirstHeading(ks);
    ParseParagraphs(lines);
    assert p in Bodies(rest);
    BodiesOccur(rest, p);
    assert Body(p) in ks;
    BodyIsStrippedLine(lines, p);
  }

  /** Every stored paragraph is a non-blank line of the text (not the title
      line), stripped. */
  lemma ParagraphsAreStrippedLines(lines: seq<string>)
    requires lines != []
    ensures forall c, p :: c in Parse(lines).chapters && p in c.paragraphs ==> IsStrippedLine(p, lines)
  {
    forall c, p | c in Parse(lines).chapters && p in c.paragraphs
      ensures IsStrippedLine(p, lines)
    {
      ParagraphIsStrippedLine(lines, c, p);
    }
  }

  /** The title line is never used as a heading or a paragraph: the
      chapters do not depend on it. */
  lemma TitleLineNotContent(lines: seq<string>, other: string)
    requires lines != []
    ensures Parse([other] + lines[1..]).chapters == Parse(lines).chapters
    ensures Parse([other] + lines[1..]).title == Trim(other)
  {
    var lines' := [other] + lines[1..];
    KindsFromLocal(lines, lines', 1);
  }

  /** The loop of `parse_text_to_dict`, with the classification written inline as
      there; it computes `Parse`. */
  method ParseLines(lines: seq<string>) returns (b: Book)
    ensures b == Parse(lines)
  {
    if |lines| == 0 {
      return Empty;
    }
    var title := Trim(lines[0]);
    var chapters: seq<Chapter> := [];
    var current: Option<Chapter> := None;
    ghost var goal := Grouped(Kinds(lines));
    var i := 1;
    while i < |lines|
      invariant 1 <= i <= |lines|
      invariant Expected(KindsFrom(lines, i), State(chapters, current)) == goal
    {
      ghost var st := State(chapters, current);
      ghost var k := KindsFrom(lines, i)[0];
      assert k == Classify(Trim(lines[i]), NextLine(lines, i));
      StepKeepsExpected(KindsFrom(lines, i), st);
      assert KindsFrom(lines, i)[1..] == KindsFrom(lines, i + 1);
      var line := Trim(lines[i]);
      var next := if i + 1 < |lines| then Some(Trim(lines[i + 1])) else None;
      if line == [] {
        assert k == Blank;
        i := i + 1;
        continue;
      }
      var isHeading := false;
      var heading := "";
      if StartsWith(line, Marker) {
        isHeading := true;
        heading := Trim(line[|Marker|..]);
      } else if |line| < ShortTitleLimit && next.Some? && next.value != [] {
        isHeading := true;
        heading := line;
      }
      if isHeading {
        assert k == Heading(heading);
        if current.Some? {
          chapters := chapters + [current.value];
        }
        current := Some(Chapter(heading, []));
      } else {
        assert k == Body(line);
        if current.Some? {
          current := Some(current.value.(paragraphs := current.value.paragraphs + [line]));
        }
      }
      assert State(chapters, current) == Step(k, st);
      i := i + 1;
    }
    if current.Some? {
      assert current.value.(paragraphs := current.value.paragraphs + []) == current.value;
      chapters := chapters + [current.value];
    }
    ParseIsGrouping(lines);
    b := Book(title, chapters);
  }
}
