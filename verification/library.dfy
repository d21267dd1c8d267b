/**
 The session library of book_reader_app.py: a map from title to book,
 filled by the upload loop. Each uploaded file is dispatched on its name:
 `.json` files are loaded as they are, `.txt` files go through the parser,
 anything else is skipped. A book is stored under its title, or under the
 default title when it has none; a later book with the same title replaces
 the earlier one.
 */
module Library {
  import opened Wrappers
  import opened Text
  import opened Books
  import Parser

  /** The key used for a book without a "title" entry. */
  const UntitledTitle: string := "無標題書籍"

  type Shelf = map<string, Book>

  /** `book_data.get("title", "無標題書籍")`: a parsed book always has a
      title entry, even an empty one; only the empty result `{}` falls back
      to the default. */
  function TitleOf(b: Book): string
  {
    match b
    case Empty => UntitledTitle
    case Book(title, _) => title
  }

  /** `st.session_state.books[book_title] = book_data`. */
  function Register(shelf: Shelf, b: Book): (shelf': Shelf)
    ensures shelf'.Keys == shelf.Keys + {TitleOf(b)}
    ensures shelf'[TitleOf(b)] == b
    ensures forall t :: t in shelf && t != TitleOf(b) ==> shelf'[t] == shelf[t]
  {
    shelf[TitleOf(b) := b]
  }

  /** Registering a second book under the same title forgets the first. */
  lemma RegisterOverwrites(shelf: Shelf, a: Book, b: Book)
    requires TitleOf(a) == TitleOf(b)
    ensures Register(Register(shelf, a), b) == Register(shelf, b)
  {
  }

  /** One uploaded file: its name, its decoded text split into lines, and
      the result of loading it as JSON (`None` when the JSON is malformed,
      which the upload loop reports and skips). */
  datatype Upload = Upload(name: string, lines: seq<string>, json: Option<Book>)

  /** One iteration of the upload loop. */
  function Ingest(shelf: Shelf, u: Upload): Shelf
  {
    if EndsWith(u.name, ".json") then
      match u.json
      case Some(b) => Register(shelf, b)
      case None => shelf
    else if EndsWith(u.name, ".txt") then Register(shelf, Parser.Parse(u.lines))
    else shelf
  }

  /** The whole upload loop, file by file. No upload removes a book, so
      the titles only accumulate. */
  function IngestAll(shelf: Shelf, us: seq<Upload>): (shelf': Shelf)
    ensures shelf.Keys <= shelf'.Keys
    decreases |us|
  {
    if us == [] then shelf else IngestAll(Ingest(shelf, us[0]), us[1..])
  }

  /** Processing a batch and then one more file is processing the longer
      batch: the loop is a left fold, so later files win. */
  lemma {:induction false} IngestAllSnoc(shelf: Shelf, us: seq<Upload>, u: Upload)
    ensures IngestAll(shelf, us + [u]) == Ingest(IngestAll(shelf, us), u)
    decreases |us|
  {
    if us != [] {
      assert (us + [u])[1..] == us[1..] + [u];
      IngestAllSnoc(Ingest(shelf, us[0]), us[1..], u);
    }
  }

  /** `shelf'` keeps every title of `shelf`, may add `t`, and differs from
      `shelf` at no title but `t`. */
  ghost predicate ChangesAtMost(shelf: Shelf, shelf': Shelf, t: string) {
    && shelf.Keys <= shelf'.Keys <= shelf.Keys + {t}
    && forall t' :: t' in shelf && t' != t ==> shelf'[t'] == shelf[t']
  }

  /** One upload touches at most one entry of the library and removes
      none, and only a `.json` or a `.txt` file can change it at all. */
  lemma IngestOutcome(shelf: Shelf, u: Upload)
    ensures exists t :: ChangesAtMost(shelf, Ingest(shelf, u), t)
    ensures Ingest(shelf, u) != shelf ==> EndsWith(u.name, ".json") || EndsWith(u.name, ".txt")
  {
    if EndsWith(u.name, ".json") && u.json.Some? {
      assert ChangesAtMost(shelf, Ingest(shelf, u), TitleOf(u.json.value));
    } else if !EndsWith(u.name, ".json") && EndsWith(u.name, ".txt") {
      assert ChangesAtMost(shelf, Ingest(shelf, u), TitleOf(Parser.Parse(u.lines)));
    } else {
      assert ChangesAtMost(shelf, Ingest(shelf, u), UntitledTitle);
    }
  }

  /** A loaded JSON book is stored as it is, under its title or, for the
      empty object, under the default title; a file that does not load
      leaves the library as it was. */
  lemma JsonUploadKey(shelf: Shelf, name: string, lines: seq<string>, b: Book)
    requires EndsWith(name, ".json")
    ensures b.Book? ==> Ingest(shelf, Upload(name, lines, Some(b)))[b.title] == b
    ensures b.Empty? ==> Ingest(shelf, Upload(name, lines, Some(b)))[UntitledTitle] == b
    ensures Ingest(shelf, Upload(name, lines, None)) == shelf
  {
  }

  /** A text file is stored, as parsed, under its first line stripped —
      even when that line is blank — and under the default title when it
      has no lines; the default title appears only then, or when the first
      line itself strips to the default title. */
  lemma TextUploadKey(shelf: Shelf, name: string, lines: seq<string>, json: Option<Book>)
    requires !EndsWith(name, ".json") && EndsWith(name, ".txt")
    ensures lines != [] ==> Ingest(shelf, Upload(name, lines, json))[Trim(lines[0])] == Parser.Parse(lines)
    ensures lines == [] ==> Ingest(shelf, Upload(name, lines, json))[UntitledTitle] == Empty
    ensures UntitledTitle in Ingest(shelf, Upload(name, lines, json)) && UntitledTitle !in shelf ==>
              lines == [] || Trim(lines[0]) == UntitledTitle
  {
  }
}
