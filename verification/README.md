# Text-to-book parser of the online bookshelf

A Dafny model of `parse_text_to_dict` in `book_reader_app.py`, the function
that turns an uploaded plain-text file into a book (a title and an ordered
list of chapters, each an ordered list of paragraph strings), and of the
upload loop that files each book in the session library under its title.

The model is split by concept:

- `wrappers.dfy` — `Option`.
- `text.dfy` — Python's argument-less `str.strip()` (over the exact set of
  characters for which `str.isspace()` holds, including U+3000) and
  `str.startswith`.
- `books.dfy` — `Chapter` and `Book`; `Empty` is the `{}` returned for a
  text with no lines.
- `classifier.dfy` — what one line contributes: nothing (blank), a heading
  (marker rule first, then the short-line rule with one line of lookahead),
  or a paragraph; and `Grouped`, a declarative reference meaning of a
  classified text: every heading opens a chapter holding the paragraph
  lines up to the next heading.
- `parser.dfy` — the loop of `parse_text_to_dict` as a state machine (`Step`, `Run`,
  `Close`) over the sealed chapters and the open chapter, proved equal to
  `Grouped`; the consequences for headings and paragraphs; and
  `ParseLines`, the `while` loop written imperatively and proved equal to
  the functional `Parse`.
- `library.dfy` — the title-keyed update of the library and the dispatch of
  an uploaded file on its extension.
- `samples.dfy` — worked inputs.

The input of the parser is the list of lines `splitlines()` returns.

Two behaviours of the code deserve stating on their own terms:

- The title is `lines[0]` stripped, even when that line is blank; it is not
  the first non-empty line (`Parser.Parse`, `Parser.TitleLineNotContent`).
- The short-heading lookahead is the next line only: a short line followed
  by a blank line is not a heading, whatever comes after the blank line
  (`Samples.LookaheadIsOneLine`).

A worked example (`Samples.DaodejingParse`): a title, two `章：` headings
and three verse lines of eight or nine characters give four chapters. The
first two verse lines are shorter than ten characters and each is followed
by a line with content, so each becomes a chapter of its own; only the last
verse, which has no successor, is a paragraph.

## Model

| member | source | states |
|---|---|---|
| `Text.Trim` | book_reader_app.py:44 | `strip()` yields a string that neither begins nor ends with whitespace and is no longer than its input |
| `Text.TrimIsInfix` | book_reader_app.py:44 | `strip()` only cuts whitespace from the ends: the input is a whitespace run, then the result, then a whitespace run |
| `Text.StartsWithIffPrefix` | book_reader_app.py:59 | `line.startswith("章：")` holds exactly when the line is the marker followed by some rest |
| `Text.TrimEmptyIffAllSpace` | book_reader_app.py:50-52 | a line strips to the empty string exactly when every character of it is whitespace, so `not line` skips exactly the whitespace-only lines |
| `Classifier.Classify` | book_reader_app.py:50-66 | the classification of one stripped line given the stripped next line; it carries no contract of its own, and `Parser.LineRole` states its rules over the raw lines |
| `Classifier.KindsAt` | book_reader_app.py:42-47 | every line after the title line is classified once, in order, looking at itself and the one line after it |
| `Classifier.KindsFromLocal` | book_reader_app.py:43-47 | the classification of the lines from `i` on depends only on those lines |
| `Classifier.GroupedNames` | book_reader_app.py:69-78 | the reference grouping has exactly one chapter per heading, named by the headings in order |
| `Classifier.GroupedParagraphs` | book_reader_app.py:79-81 | the reference grouping's paragraphs, read in order, are exactly the paragraph lines from the first heading on |
| `Classifier.BodiesOccur` | book_reader_app.py:79-81 | every paragraph text comes from a paragraph line |
| `Parser.Step` | book_reader_app.py:68-83 | one iteration never revises a sealed chapter: only a heading seals, it seals nothing when no chapter is open, and otherwise it appends exactly the open chapter; afterwards a chapter is open exactly when one was before or the line is a heading |
| `Parser.Run` | book_reader_app.py:42-83 | the loop keeps the chapters sealed before it as a prefix, and a chapter is open at the end exactly when one was open at the start or some remaining line is a heading |
| `Parser.Parse` | book_reader_app.py:24-37 | the result is `{}` exactly when there are no lines; otherwise the title is the first line stripped |
| `Parser.StepKeepsExpected` | book_reader_app.py:68-83 | one loop iteration keeps the chapters the reference grouping predicts for the state and the remaining lines |
| `Parser.RunMatchesGrouping` | book_reader_app.py:42-87 | the loop run to the end and closed yields the chapters the reference grouping predicts |
| `Parser.ParseIsGrouping` | book_reader_app.py:13-91 | the parser's chapters are exactly the reference grouping of the classified lines after the title |
| `Parser.ParseChapterNames` | book_reader_app.py:69-87 | the chapter count equals the number of heading lines, the names come in heading order, and the last open chapter is included |
| `Parser.ParseParagraphs` | book_reader_app.py:79-81 | paragraph lines before the first heading are dropped; all chapters' paragraphs, concatenated, are exactly the paragraph lines from the first heading on, in order |
| `Parser.LineRole` | book_reader_app.py:47-66 | a whitespace-only line is skipped and no other line is; a marker line is a heading named by its stripped remainder whatever its length or successor; an unmarked line of ten or more characters is a paragraph; an unmarked short line is a heading when the next line has content and a paragraph when it is the last line or the next line is blank |
| `Parser.BodyIsStrippedLine` | book_reader_app.py:44-52 | a paragraph line's text is a non-empty, stripped line of the text after the title line |
| `Parser.ParagraphIsStrippedLine` | book_reader_app.py:79-81 | a stored paragraph is a non-empty, stripped line of the text after the title line |
| `Parser.ParagraphsAreStrippedLines` | book_reader_app.py:44-81 | every stored paragraph is non-empty, already stripped, and one of the lines after the title line |
| `Parser.TitleLineNotContent` | book_reader_app.py:32-42 | the first line only gives the title: replacing it changes the title and no chapter |
| `Parser.ParseLines` | book_reader_app.py:42-87 | the `while` loop with the classification written inline computes the same book as `Parse` |
| `Text.EndsWithIffSuffix` | book_reader_app.py:115-118 | `file_name.endswith(ext)` holds exactly when the name is some front followed by `ext` |
| `Library.Register` | book_reader_app.py:127 | filing a book adds its title as a key, stores the book there and leaves every other entry unchanged |
| `Library.IngestOutcome` | book_reader_app.py:113-127 | one upload removes no title and changes at most one entry, and only a `.json` or a `.txt` file can change the library at all; an unsupported file is skipped |
| `Library.JsonUploadKey` | book_reader_app.py:115-127 | a loaded `.json` book is stored as it is under its title, or under "無標題書籍" when it has none; a file that fails to load leaves the library unchanged |
| `Library.TextUploadKey` | book_reader_app.py:118-127 | a `.txt` file is stored, as parsed, under its first line stripped (even a blank one) and under "無標題書籍" when it has no lines; a new "無標題書籍" entry appears only then or when the first line strips to that title |
| `Library.IngestAll` | book_reader_app.py:110-130 | the whole upload loop removes no title: the titles only accumulate |
| `Library.IngestAllSnoc` | book_reader_app.py:110-130 | the upload loop processes files one after another, so a later file wins |
| `Library.RegisterOverwrites` | book_reader_app.py:127 | a later book with the same title replaces the earlier one |
| `Samples.DaodejingParse` | book_reader_app.py:42-87 | the sample text with two marker headings and three verse lines parses into four chapters, the two short verse lines becoming headings |
| `Samples.LookaheadIsOneLine` | book_reader_app.py:47-66 | a short line followed by a blank line is not a heading, even though a line with content comes after the blank one |

## Left out

- The Streamlit user interface (page configuration, sidebar, uploader, book
  selection, rendering, lines 1-9, 94-109 and 131-154): presentation over
  an external framework. The upload loop between them (lines 110-130) is
  modelled in `library.dfy`.
- `json.load` and `bytes.decode("utf-8", errors="ignore")` (lines 117 and
  120): foreign library calls; an upload carries its decoded lines and its
  loaded JSON as given inputs.
- `str.splitlines` (line 24): the parser takes the line sequence as input;
  Unicode line-break semantics are not modelled.
- Exception handling and per-file error messages (lines 129-130): a JSON
  file whose content cannot be loaded is modelled as `None` and leaves the
  library unchanged; no message is modelled.
- Library.JsonUploadKey: a loaded JSON value is modelled as a `Book`, so
  JSON that is not an object, an object without a "title" key but with
  other keys, or an object whose "title" is not a string (a number or
  `null` is stored under a non-string key, a list raises `TypeError` at
  line 127 and the file is skipped) is not represented.
- Decoding: line 120 decodes the upload as UTF-8 with `errors="ignore"`
  and has no fallback; the decoded lines are an input of the model. The
  UTF-8/Big5 fallback of `文本转写/book_reader_app.py` (lines 38-44), an
  older JSON-only variant of the app, is not part of this model.
