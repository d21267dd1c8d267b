/**
 The structure the parser produces: a book is a title plus an ordered list
 of chapters, each holding ordered paragraph strings. `Empty` is the `{}`
 returned for a text without lines.
 */
module Books {

  /** One chapter; `name` is stored under the key "chapter" by `parse_text_to_dict`. */
  datatype Chapter = Chapter(name: string, paragraphs: seq<string>)

  datatype Book = Empty | Book(title: string, chapters: seq<Chapter>)

  /** The chapter names, in chapter order. */
  function Names(chapters: seq<Chapter>): (names: seq<string>)
    ensures |names| == |chapters|
    ensures forall k :: 0 <= k < |chapters| ==> names[k] == chapters[k].name
  {
    if chapters == [] then [] else [chapters[0].name] + Names(chapters[1..])
  }

  /** All paragraphs of all chapters, chapter by chapter, in order. */
  function AllParagraphs(chapters: seq<Chapter>): (ps: seq<string>)
    ensures forall c, p :: c in chapters && p in c.paragraphs ==> p in ps
    ensures forall p :: p in ps ==> exists c :: c in chapters && p in c.paragraphs
  {
    if chapters == [] then [] else chapters[0].paragraphs + AllParagraphs(chapters[1..])
  }
}
