/**
 Worked inputs for `parse_text_to_dict`, each with the book the parser
 returns for it.
 */
module Samples {
  import opened Text
  import opened Books
  import opened Classifier
  import opened Parser

  const Title: string := "道德經"
  const Chapter1: string := "第一章"
  const Chapter2: string := "第二章"
  const Verse1: string := "道可道，非常道。"
  const Verse2: string := "名可名，非常名。"
  const Verse3: string := "天下皆知美之為美。"

  /** A title, two marker headings and three verse lines of eight or
      nine characters. */
  const Daodejing: seq<string> :=
    [Title, Marker + Chapter1, Verse1, Verse2, Marker + Chapter2, Verse3]

  /** One step of `KindsFrom` on a short unmarked line followed by a line
      with content. */
  lemma ShortHeadingStep(lines: seq<string>, i: nat)
    requires 1 <= i && i + 1 < |lines|
    requires Trimmed(lines[i]) && 0 < |lines[i]| < ShortTitleLimit && lines[i][0] != Marker[0]
    requires Trimmed(lines[i + 1]) && lines[i + 1] != []
    ensures KindsFrom(lines, i) == [Heading(lines[i])] + KindsFrom(lines, i + 1)
  {
  }

  /** One step of `KindsFrom` on a marker line. */
  lemma MarkerStep(lines: seq<string>, i: nat, name: string)
    requires 1 <= i < |lines|
    requires Trimmed(lines[i]) && lines[i] == Marker + name && Trimmed(name)
    ensures KindsFrom(lines, i) == [Heading(name)] + KindsFrom(lines, i + 1)
  {
  }

  /** What the step lemmas need to know of each line of the sample. */
  lemma DaodejingLines()
    ensures |Daodejing| == 6
    ensures Daodejing[1] == Marker + Chapter1 && Trimmed(Daodejing[1]) && Trimmed(Chapter1)
    ensures Daodejing[4] == Marker + Chapter2 && Trimmed(Daodejing[4]) && Trimmed(Chapter2)
    ensures Daodejing[2] == Verse1 && Trimmed(Verse1) && 0 < |Verse1| < ShortTitleLimit && Verse1[0] != Marker[0]
    ensures Daodejing[3] == Verse2 && Trimmed(Verse2) && 0 < |Verse2| < ShortTitleLimit && Verse2[0] != Marker[0]
    ensures Daodejing[5] == Verse3 && Trimmed(Verse3) && Verse3 != [] && Verse3[0] != Marker[0]
  {
  }

  lemma DaodejingFrom4()
    ensures KindsFrom(Daodejing, 4) == [Heading(Chapter2), Body(Verse3)]
  {
  }

  lemma DaodejingFrom3()
    ensures KindsFrom(Daodejing, 3) == [Heading(Verse2), Heading(Chapter2), Body(Verse3)]
  {
    DaodejingLines();
    DaodejingFrom4();
    ShortHeadingStep(Daodejing, 3);
  }

  lemma DaodejingFrom2()
    ensures KindsFrom(Daodejing, 2) == [Heading(Verse1), Heading(Verse2), Heading(Chapter2), Body(Verse3)]
  {
    DaodejingLines();
    DaodejingFrom3();
    ShortHeadingStep(Daodejing, 2);
  }

  lemma DaodejingKinds()
    ensures Kinds(Daodejing) == [Heading(Chapter1), Heading(Verse1), Heading(Verse2),
                                 Heading(Chapter2), Body(Verse3)]
  {
    DaodejingLines();
    DaodejingFrom2();
    MarkerStep(Daodejing, 1, Chapter1);
  }

  /** Every line of up to nine characters that is followed by a non-blank
      line is a heading, so in this text the two short verse lines become
      chapters of their own and only the last line, which has no successor,
      is a paragraph. */
  lemma DaodejingParse()
    ensures Parse(Daodejing)
         == Book(Title, [Chapter(Chapter1, []), Chapter(Verse1, []),
                            Chapter(Verse2, []),
                            Chapter(Chapter2, [Verse3])])
  {
    DaodejingKinds();
    DaodejingGrouped();
    ParseIsGrouping(Daodejing);
  }

  lemma DaodejingGrouped()
    ensures Grouped([Heading(Chapter1), Heading(Verse1), Heading(Verse2), Heading(Chapter2), Body(Verse3)])
         == [Chapter(Chapter1, []), Chapter(Verse1, []), Chapter(Verse2, []), Chapter(Chapter2, [Verse3])]
  {
    var k4 := [Body(Verse3)];
    var k3 := [Heading(Chapter2)] + k4;
    var k2 := [Heading(Verse2)] + k3;
    var k1 := [Heading(Verse1)] + k2;
    var ks := [Heading(Chapter1)] + k1;
    assert k4[1..] == [] && k3[1..] == k4 && k2[1..] == k3 && k1[1..] == k2 && ks[1..] == k1;
    assert LeadingBodies(k4) == [Verse3];
    assert Grouped(k4) == [];
    assert Grouped(k3) == [Chapter(Chapter2, [Verse3])];
    assert Grouped(k2) == [Chapter(Verse2, [])] + Grouped(k3);
    assert Grouped(k1) == [Chapter(Verse1, [])] + Grouped(k2);
    assert Grouped(ks) == [Chapter(Chapter1, [])] + Grouped(k1);
    assert ks == [Heading(Chapter1), Heading(Verse1), Heading(Verse2), Heading(Chapter2), Body(Verse3)];
    assert [Chapter(Chapter1, [])] + ([Chapter(Verse1, [])] + ([Chapter(Verse2, [])] + [Chapter(Chapter2, [Verse3])]))
        == [Chapter(Chapter1, []), Chapter(Verse1, []), Chapter(Verse2, []), Chapter(Chapter2, [Verse3])];
  }

  const ShortLine: string := "第一章"
  const LastLine: string := "正文"

  /** The short-heading rule looks at the next line only: a short line
      followed by a blank line is a paragraph even though a line with
      content comes later, and as no heading precedes them both paragraphs
      are dropped. */
  lemma LookaheadIsOneLine()
    ensures Parse([Title, ShortLine, "", LastLine]) == Book(Title, [])
  {
    var l := [Title, ShortLine, "", LastLine];
    TrimOfTrimmed(Title);
    TrimOfTrimmed(ShortLine);
    TrimOfTrimmed(LastLine);
    assert ShortLine[0] != Marker[0] && LastLine[0] != Marker[0];
    LineRole(l, 1);
    LineRole(l, 2);
    LineRole(l, 3);
    var ks := Kinds(l);
    assert ks == [Body(ShortLine), Blank, Body(LastLine)];
    assert ks[1..][1..] == [Body(LastLine)] && ks[1..][1..][1..] == [];
    assert HeadingNames(ks) == [];
    ParseChapterNames(l);
  }
}
