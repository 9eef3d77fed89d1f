# comicscraper, modelled in Dafny

comicscraper scrapes webcomic pages and keeps the latest strip of each comic (title, image URL,
caption) in a MongoDB collection. It writes only when the page shows a strip the collection does
not have yet. This project models three parts of it and proves properties about them:

- **The source key and the update decision** (`comicHandler.js`, module `ComicHandler` in
  `comic_handler.dfy`). The source key is group 3 of `/^(http[s]?:\/\/)?(www\.)?([\w-]*)/`. Here it
  is a hand-written scanner: strip an optional `http://` or `https://`, then an optional `www.`,
  then take the longest run of `[A-Za-z0-9_-]`. The scanner is proved to return the regex's match,
  which is unique (`IsPatternMatch`, `PatternMatchUnique`). `parseComic` builds a candidate record
  from the fetched page. `getComic`, `checkComic` and `updateComics` run against `ComicStore`, a
  class whose `records` field is a `map` from source key to Comic document.
- **The single-record reconcile state machine** (`comic.js`, module `LatestComic` in `comic.dfy`).
  One run reads the strip from the parsed xkcd page, looks up the collection's single record and
  ends in one of three states: *initiated*, *updated* or *not updated*. The intended run is the
  function `Reconcile`. The method `ComicStore.Poll` carries it out against a class with an
  `Option` field. The function `ReconcileAsWritten` follows the callback as the code actually
  runs; see "## Findings".
- **The per-site extraction table** (`comics.js`, module `Extractors` in `comics.dfy`). `getData`
  dispatches on exact equality of the source key. Each rule finds elements by id and child
  position and builds `"https:" + src`.

The parsed page is an abstract element tree (module `Dom` in `dom.dfy`). An element has a tag,
an optional `id`, an attribute map, its element children and its text content. `GetElementById`
and `QuerySelectorTag` are depth-first searches. Both are proved to return the first match in
document order, defined separately by `Preorder` and `FirstWhere`. `Wrappers` (`wrappers.dfy`)
holds `Option` and `Result`. `Js` (`js.dfy`) holds `StartsWith`, the `_id` type and template-literal
interpolation of absent values.

Outside collaborators become parameters:
- the fetched and parsed page is an `Option<Element>`, with `None` for a failed request;
- the `_id` of a new document is a value the caller passes in;
- whether a `findOne` or `save()` reports an error is a boolean flag.

The model follows what the code does, including these behaviours:
- The key is not lower-cased, so `HTTPS://XKCD.COM` gives `HTTPS`. An input with no key
  characters gives the empty key; there is no "invalid URL" error.
- An up-to-date input is a *rejection* ("No updates; comic up to date", "Comic up to date"), not
  a success.
- The table has rules for `xkcd` and `girlgeniusonline` only.
- A rule may produce `"https:null"` as the URL, and `null` as the caption, when the image has no
  `src` or `title` attribute.
- When `checkComic` rejects a comic object because `findOne` failed, `updateComics` never
  settles, because nothing handles that rejection. A failed database read is therefore not
  reported as an error. An illegal input is rejected by `updateComics` itself before
  `checkComic` runs.

## Model

| member | source | states |
|---|---|---|
| Dom.FindIsFirstInDocumentOrder | comics.js:8 | the depth-first search returns exactly the first element, in document (pre-)order, that passes the test |
| Dom.GetElementById | comics.js:8-10 | `getElementById` gives the first element in document order with that id, and None exactly when no element of the page has it |
| Dom.QuerySelectorTag | comicHandler.js:54 | `querySelector('title')` gives the first element in document order with that tag, and None exactly when the page has none |
| Dom.Child | comics.js:9 | `children[i]` is the i-th element child, and undefined exactly when i is out of range |
| Dom.GetAttribute | comics.js:9-10 | `getAttribute` gives the attribute's value, and null exactly when the attribute is absent |
| Dom.Descend | comics.js:19-20 | a chain of `children[i]` lookups: the empty path gives the element itself; otherwise it steps to `children[path[0]]` and continues, failing as soon as an index is out of range; the result is an element of the page |
| Extractors.XkcdRule | comics.js:6-12 | succeeds iff `#ctitle` and `#comic` exist and `#comic` has a child; title is the `#ctitle` text, url is `"https:"` plus the first child's `src`, subtitle is that child's `title` attribute; any missing element fails the whole rule with no partial data |
| Extractors.GirlGeniusRule | comics.js:15-22 | succeeds iff `#datestring` and `#comicbody` exist, `#comicbody` has a second child and the caption path exists; title is the `#datestring` text, url is `"https:"` plus the second child's `src`, subtitle is the text at child path 2,0,2,0,0 |
| Extractors.GirlGeniusCaptionIsChildChain | comics.js:19-20 | the caption element is `children[2].children[0].children[2].children[0].children[0]` of `#comicbody`, and the lookup fails exactly when one of those five indices is out of range |
| Extractors.GetData | comics.js:4-23 | `xkcd` selects the xkcd rule and `girlgeniusonline` the Girl Genius rule, chosen by exact equality; any other key, and only such a key, gives UnknownSource; every URL produced begins with `https:` |
| ComicHandler.KeyRun | comicHandler.js:49 | the `[\w-]*` scanner returns the longest prefix made of ASCII letters, digits, `_` and `-` |
| ComicHandler.KeyPatternMatch | comicHandler.js:49 | the scanner's three groups form the regex's match: each optional group is taken whenever it can be, and the run is maximal |
| ComicHandler.PatternMatchUnique | comicHandler.js:49 | two matches of the key pattern on the same input are equal, so group 3 is determined by the URL |
| ComicHandler.SourceKey | comicHandler.js:49 | the key always exists, possibly empty; it consists of key characters only and equals group 3 of every match of the pattern |
| ComicHandler.SourceKeyOfParts | comicHandler.js:49 | the key of optional scheme + optional `www.` + a key run + a tail starting with a non-key character is that run, whenever the omitted groups do not occur in their place |
| ComicHandler.SourceKeyOfKey | comicHandler.js:49 | deriving a key from a key returns it unchanged |
| ComicHandler.XkcdUrlKey | comics.js:6 | the `www.` form `https://www.xkcd.com/`, an extra example beside the address in the code, derives the key `xkcd` of the xkcd rule |
| ComicHandler.XkcdBareUrlKey | comic.js:8 | `https://xkcd.com/`, the address the scrapers fetch, also derives the key `xkcd` |
| ComicHandler.GirlGeniusUrlKey | comics.js:14-15 | `http://www.girlgeniusonline.com/comic` derives the key `girlgeniusonline` of its rule |
| ComicHandler.ParseComic | comicHandler.js:44-64 | a failed fetch rejects; otherwise it succeeds iff the page has a `<title>` and `getData` has data for the URL's key (so an unknown key rejects); the record gets the new `_id`, source = the URL's key, title = the page's `<title>` text (not the rule's title), url and subtitle from the rule |
| ComicHandler.ParsedSourceIsKey | comicHandler.js:49-53 | a parsed record's source is a key, and deriving a key from it gives the URL's key again |
| ComicHandler.ComicStore.FindOne | comicHandler.js:141 | `findOne({source})` fails only on a database error; otherwise it finds a record iff one is stored under that key, and the record found has that source |
| ComicHandler.ComicStore.Save | comicHandler.js:106 | a successful save stores the record under its source and changes nothing else; a failed save changes nothing |
| ComicHandler.ComicStore.GetComic | comicHandler.js:72-86 | looks up the same key that `parseComic` stores for the URL; resolves with the record stored under that key iff one exists, and otherwise rejects with not-found (or with the lookup error) |
| ComicHandler.ComicStore.CheckComic | comicHandler.js:126-157 | rejects input that is missing or has no `_id`; rejects when the lookup fails ("Couldn't check for updates"); otherwise says "up to date" iff a record is stored under the input's source and its title equals the input's title |
| ComicHandler.ComicStore.UpdateComics | comicHandler.js:94-118 | missing input or input without `_id` is rejected with no save; a failed lookup never settles and saves nothing; up-to-date input is rejected with "No updates" and zero writes; otherwise one save is attempted: if it fails the outcome is a save rejection and the store is unchanged, and if it succeeds the record is under its source and the same input is up to date; the store's one-record-per-source invariant is kept |
| LatestComic.ComicImage | comic.js:36-37 | `$('#comic').children('img')`, as read by `.attr`, is the first `img` child of `#comic` in document order, and is empty exactly when `#comic` is absent or has no `img` child |
| LatestComic.SelectionAttr | comic.js:36-37 | `.attr(name)` is the attribute of the selected element, and undefined for an empty selection or a missing attribute |
| LatestComic.SelectionText | comic.js:35 | `.text()` is the selected element's text, and "" for an empty selection |
| LatestComic.Extract | comic.js:34-38 | title is the `#ctitle` text; url is `"https:"` followed by the `src` of the `img` child of `#comic` (`"https:undefined"` without one), so it always begins with `https:`; subtitle is that image's `title` attribute |
| LatestComic.Reconcile | comic.js:40-79 | a lookup error rejects with no change; no stored record: one save, creating the extracted record with the new `_id` (*initiated*); a differing title: one save, overwriting title, url and subtitle and keeping the `_id` (*updated*); an equal title: "Comic up to date", zero saves, no change (*not updated*); a failed save leaves the record as it was |
| LatestComic.ResolvedStoresCurrent | comic.js:47-64 | after an *initiated* or *updated* run the stored record's three fields equal the extracted ones |
| LatestComic.SecondRunIsUpToDate | comic.js:47-58 | a second run with the same strip right after a saving run is *not updated*, with no save and no change |
| LatestComic.ReconcileAsWritten | comic.js:40-79 | as the code runs: with no stored record nothing is ever created; an up-to-date run rejects and still calls `save()` once |
| LatestComic.AsWrittenNeverInitiates | comic.js:60-66 | on an empty collection the code as written stores nothing and never settles, where the intended run stores the extracted record |
| LatestComic.AsWrittenSavesWhenUpToDate | comic.js:54-66 | on an up-to-date record the code as written calls `save()` once, where the intended run calls it zero times |
| LatestComic.ComicStore.Poll | comic.js:31-85 | a failed fetch rejects with no change; otherwise the new record, the outcome and the number of saves are those of `Reconcile` on the extracted strip; the store holds at most one record, since `findOne({})` has no key and a record is created only when none exists |

## Left out

- HTTP fetching with `request-promise` (comicHandler.js:46, comic.js:33): network I/O. The page arrives as a parameter, with `None` for a failed request.
- HTML parsing by jsdom and cheerio: a foreign library. The page is the `Dom.Element` tree. `text` stands for `textContent` as given; it is not computed from the descendants.
- cheerio's `$('#ctitle')` and `$('#comic')` select every element with that id. `.text()` joins the texts of all of them, and `$('#comic').children('img')` collects the `img` children of all of them, so `.attr('src')` may read an image of a later `#comic` when the first has none. The model takes the first element with the id in both places, which is the same when ids are unique.
- The Mongoose connection lifecycle: `connect`/`disconnect` (comicHandler.js:132-139, comic.js:20-27) and the SIGINT handler (comicHandler.js:163-168). This is resource plumbing. A failing `connect` is not modelled; only `findOne` and `save()` errors are, as flags.
- `initialize` (comicHandler.js:34-36) only stores the database credentials in `config`. It is configuration and is not modelled.
- Generating `_id`: the value is a parameter.
- Insert-versus-update in Mongoose's `save()`. The `ComicHandler` store is a map keyed by `source`, so `save()` overwrites the record for that key. Under Mongoose, comicHandler.js:104-106 saves a freshly parsed document with a new `_id`, which inserts a second document for the same source. The one-record-per-source property holds only in this map-keyed model.
- The in-place mutation of the fetched Mongoose document at comic.js:49-51 is modelled as replacing the stored value with an updated copy that keeps the `_id`. Aliasing between that object and the database is not modelled.
- Promise and callback ordering. Modelled: each operation is one sequential step with a tagged outcome, which records which settlement comes first; code that runs after a `reject` is modelled where it changes the outcome or calls `save()`. Not modelled: the race between `connect` and `findOne` (comicHandler.js:132-141) and unhandled-rejection reporting.
- comicHandler.js:55-56 evaluates `comics(inputSource, page)` twice. `GetData` is a function of the key and the page, so both calls give the same result, and `ParseComic` uses one.
- `console.log` output and the exact wording of messages. Only which outcome is chosen is modelled.
- index.js: it fetches a page and logs two values; there is no logic in it.

## Findings

| source | as written | input that shows it | evidently intended | confidence | as-written member | corrected member |
|---|---|---|---|---|---|---|
| comic.js:61 | `const comic = new Comic(current)` declares a block-local binding, so `comic.save()` at line 66 runs on the outer `comic`, which is `null`, and throws | an empty collection and any fetched page | save the new record and resolve with state *initiated* | high; not executed | LatestComic.AsWrittenNeverInitiates | LatestComic.Reconcile |
| comic.js:57 | `reject('Comic up to date')` does not leave the callback, so control reaches `comic.save()` at line 66 | a stored record whose title equals the page's `#ctitle` text | reject without calling `save()` | high; not executed | LatestComic.AsWrittenSavesWhenUpToDate | LatestComic.Reconcile |
