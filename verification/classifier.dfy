/**
 Line classification (book_reader_app.py, the body of the `while` loop of
 `parse_text_to_dict`) and the declarative meaning of a classified text:
 every heading opens a chapter whose paragraphs are the body lines up to
 the next heading.
 */
module Classifier {
  import opened Wrappers
  import opened Text
  import opened Books

  /** The explicit chapter marker "章：" (chapter, full-width colon). */
  const Marker: string := "章："

  /** A stripped line shorter than this may be a short heading. */
  const ShortTitleLimit: nat := 10

  /** What one line (after the title line) contributes to the book. */
  datatype LineKind = Blank | Heading(name: string) | Body(text: string)

  /** Classifies a stripped line, given the stripped line after it (`None`
      at the end of the text): a blank line is skipped; a line starting
      with the marker is a heading named by the stripped remainder;
      otherwise a line shorter than ten characters is a heading when the
      next line has content; anything else is a paragraph. */
  function Classify(line: string, next: Option<string>): LineKind
  {
    if line == [] then Blank
    else if StartsWith(line, Marker) then Heading(Trim(line[|Marker|..]))
    else if |line| < ShortTitleLimit && next.Some? && next.value != [] then Heading(line)
    else Body(line)
  }

  /** `lines[i+1].strip()`, or `None` when line `i` is the last. */
  function NextLine(lines: seq<string>, i: nat): Option<string>
    requires i < |lines|
  {
    if i + 1 < |lines| then Some(Trim(lines[i + 1])) else None
  }

  /** The classification of `lines[i..]`, each line looked at together
      with the raw line after it. */
  function KindsFrom(lines: seq<string>, i: nat): (ks: seq<LineKind>)
    requires 1 <= i <= |lines|
    ensures |ks| == |lines| - i
    decreases |lines| - i
  {
    if i == |lines| then []
    else [Classify(Trim(lines[i]), NextLine(lines, i))] + KindsFrom(lines, i + 1)
  }

  /** The classification of every line after the title line, in order. */
  function Kinds(lines: seq<string>): seq<LineKind>
  {
    if lines == [] then [] else KindsFrom(lines, 1)
  }

  /** Entry `j` of `KindsFrom(lines, i)` is the first entry of
      `KindsFrom(lines, i + j)`, the kind of `lines[i + j]`. */
  lemma {:induction false} KindsFromAt(lines: seq<string>, i: nat, j: nat)
    requires 1 <= i <= |lines| && j < |lines| - i
    ensures KindsFrom(lines, i)[j] == KindsFrom(lines, i + j)[0]
    decreases j
  {
    if j > 0 {
      KindsFromTail(lines, i);
      KindsFromAt(lines, i + 1, j - 1);
      assert KindsFrom(lines, i)[j] == KindsFrom(lines, i)[1..][j - 1];
    }
  }

  /** Dropping the first kind leaves the kinds of the following lines. */
  lemma KindsFromTail(lines: seq<string>, i: nat)
    requires 1 <= i < |lines|
    ensures KindsFrom(lines, i)[1..] == KindsFrom(lines, i + 1)
  {
  }

  /** `Kinds(lines)` has one entry per line after the title line, and entry
      `j` is the kind of `lines[j + 1]`, looked at with `lines[j + 2]`. */
  lemma KindsAt(lines: seq<string>, j: nat)
    requires j + 1 < |lines|
    ensures |Kinds(lines)| == |lines| - 1
    ensures Kinds(lines)[j] == Classify(Trim(lines[j + 1]), NextLine(lines, j + 1))
  {
    KindsFromAt(lines, 1, j);
    assert KindsFrom(lines, j + 1)[0] == Classify(Trim(lines[j + 1]), NextLine(lines, j + 1));
  }

  /** The classification of a line depends on nothing but that line and the
      line after it. */
  lemma {:induction false} KindsFromLocal(lines: seq<string>, lines': seq<string>, i: nat)
    requires 1 <= i <= |lines| == |lines'|
    requires forall j :: i <= j < |lines| ==> lines[j] == lines'[j]
    ensures KindsFrom(lines, i) == KindsFrom(lines', i)
    decreases |lines| - i
  {
    if i < |lines| {
      KindsFromLocal(lines, lines', i + 1);
    }
  }

  /** The names of the heading lines, in order. */
  function HeadingNames(ks: seq<LineKind>): (names: seq<string>)
    ensures (forall j :: 0 <= j < |ks| ==> !ks[j].Heading?) ==> names == []
  {
    if ks == [] then []
    else if ks[0].Heading? then [ks[0].name] + HeadingNames(ks[1..])
    else HeadingNames(ks[1..])
  }

  /** The texts of the body lines, in order. */
  function Bodies(ks: seq<LineKind>): seq<string>
  {
    if ks == [] then []
    else if ks[0].Body? then [ks[0].text] + Bodies(ks[1..])
    else Bodies(ks[1..])
  }

  /** The body texts that come before the first heading of `ks`. */
  function LeadingBodies(ks: seq<LineKind>): seq<string>
  {
    if ks == [] || ks[0].Heading? then []
    else if ks[0].Body? then [ks[0].text] + LeadingBodies(ks[1..])
    else LeadingBodies(ks[1..])
  }

  /** The suffix of `ks` that starts at its first heading (empty if there
      is no heading). */
  function FromFirstHeading(ks: seq<LineKind>): (rest: seq<LineKind>)
    ensures |rest| <= |ks| && rest == ks[|ks| - |rest|..]
    ensures rest == [] || rest[0].Heading?
    ensures forall j :: 0 <= j < |ks| - |rest| ==> !ks[j].Heading?
  {
    if ks == [] || ks[0].Heading? then ks else FromFirstHeading(ks[1..])
  }

  /** Every body text comes from a `Body` entry of `ks`. */
  lemma {:induction false} BodiesOccur(ks: seq<LineKind>, t: string)
    requires t in Bodies(ks)
    ensures Body(t) in ks
  {
    if ks[0] != Body(t) {
      BodiesOccur(ks[1..], t);
    }
  }

  /** The reference meaning of a classified text: one chapter per heading,
      named by the heading, holding the body lines up to the next heading.
      Body lines before the first heading belong to no chapter. */
  function Grouped(ks: seq<LineKind>): seq<Chapter>
  {
    if ks == [] then []
    else if ks[0].Heading? then [Chapter(ks[0].name, LeadingBodies(ks[1..]))] + Grouped(ks[1..])
    else Grouped(ks[1..])
  }

  /** There is exactly one chapter per heading, and the chapters carry the
      heading names in heading order. */
  lemma {:induction false} GroupedNames(ks: seq<LineKind>)
    ensures Names(Grouped(ks)) == HeadingNames(ks)
    ensures |Grouped(ks)| == |HeadingNames(ks)|
  {
    if ks != [] {
      GroupedNames(ks[1..]);
    }
  }

  /** The bodies split at the first heading: those before it, then those
      from it on. */
  lemma {:induction false} BodiesSplit(ks: seq<LineKind>)
    ensures Bodies(ks) == LeadingBodies(ks) + Bodies(FromFirstHeading(ks))
  {
    if ks != [] && !ks[0].Heading? {
      BodiesSplit(ks[1..]);
    }
  }

  /** Reading the chapters' paragraphs one after another gives, in order,
      exactly the body lines from the first heading on. */
  lemma {:induction false} GroupedParagraphs(ks: seq<LineKind>)
    ensures AllParagraphs(Grouped(ks)) == Bodies(FromFirstHeading(ks))
  {
    if ks != [] {
      GroupedParagraphs(ks[1..]);
      if ks[0].Heading? {
        BodiesSplit(ks[1..]);
      }
    }
  }
}
