/**
 * `comicHandler.js`: derives the source key from a comic's URL, assembles a candidate record
 * from the fetched page (`parseComic`), looks records up by key (`getComic`), and writes a
 * candidate only when the stored record for its key is stale (`checkComic`, `updateComics`).
 */
module ComicHandler {
  import opened Wrappers
  import opened Js
  import opened Dom
  import opened Extractors

  // ---------------------------------------------------------------------------------------------
  // The source key: group 3 of /^(http[s]?:\/\/)?(www\.)?([\w-]*)/
  // ---------------------------------------------------------------------------------------------

  /** `[\w-]`: an ASCII letter, digit, underscore or hyphen (JavaScript's `\w` without the `u` flag). */
  predicate IsKeyChar(c: char)
  {
    ('a' <= c <= 'z') || ('A' <= c <= 'Z') || ('0' <= c <= '9') || c == '_' || c == '-'
  }

  /** Whether every character of `s` is a key character. */
  predicate AllKeyChars(s: string)
  {
    forall i :: 0 <= i < |s| ==> IsKeyChar(s[i])
  }

  /** The three capture groups of the key pattern's match; an unmatched optional group is "". */
  datatype KeyMatch = KeyMatch(scheme: string, www: string, key: string)

  /** The text matched by the whole pattern. */
  function Matched(m: KeyMatch): string
  {
    m.scheme + m.www + m.key
  }

  /**
   * `m` is the match JavaScript's regex engine returns for `url`: anchored at the start, each
   * optional group taken whenever it can be, and the `[\w-]*` run as long as possible.
   */
  ghost predicate IsPatternMatch(url: string, m: KeyMatch)
  {
    && (m.scheme == "" || m.scheme == "http://" || m.scheme == "https://")
    && StartsWith(url, m.scheme)
    && (m.scheme == "" ==> !StartsWith(url, "http://") && !StartsWith(url, "https://"))
    && (m.www == "" || m.www == "www.")
    && StartsWith(url[|m.scheme|..], m.www)
    && (m.www == "" ==> !StartsWith(url[|m.scheme|..], "www."))
    && AllKeyChars(m.key)
    && StartsWith(url, Matched(m))
    && (|Matched(m)| == |url| || !IsKeyChar(url[|Matched(m)|]))
  }

  /** The longest prefix of `s` made of key characters: the scanner for `[\w-]*`. */
  function KeyRun(s: string): (r: string)
    ensures StartsWith(s, r)
    ensures AllKeyChars(r)
    ensures |r| == |s| || !IsKeyChar(s[|r|])
  {
    if s == [] || !IsKeyChar(s[0]) then "" else [s[0]] + KeyRun(s[1..])
  }

  /** Two maximal key-character prefixes of the same string are the same prefix. */
  lemma {:induction false} KeyRunUnique(s: string, a: string, b: string)
    requires StartsWith(s, a) && AllKeyChars(a) && (|a| == |s| || !IsKeyChar(s[|a|]))
    requires StartsWith(s, b) && AllKeyChars(b) && (|b| == |s| || !IsKeyChar(s[|b|]))
    ensures a == b
  {
    if |a| == |b| {
      assert a == s[..|a|] == b;
    }
  }

  /** The length of the optional `http[s]?://` group at the start of `s`. */
  function SchemeLength(s: string): (n: nat)
  {
    if StartsWith(s, "https://") then 8 else if StartsWith(s, "http://") then 7 else 0
  }

  /** The length of the optional `www\.` group at the start of `s`. */
  function WwwLength(s: string): (n: nat)
  {
    if StartsWith(s, "www.") then 4 else 0
  }

  /** A prefix of `s` followed by a prefix of what remains is a prefix of `s`. */
  lemma StartsWithConcat(s: string, p: string, q: string)
    requires StartsWith(s, p) && StartsWith(s[|p|..], q)
    ensures StartsWith(s, p + q)
  {
    assert s[..|p + q|] == s[..|p|] + s[|p|..][..|q|];
  }

  /** The scanner: strip an optional scheme, then an optional `www.`, then take the key run. */
  function KeyPatternMatch(url: string): (m: KeyMatch)
    ensures IsPatternMatch(url, m)
  {
    var a := SchemeLength(url);
    var rest := url[a..];
    var b := WwwLength(rest);
    var host := rest[b..];
    var m := KeyMatch(url[..a], rest[..b], KeyRun(host));
    StartsWithConcat(url, m.scheme, m.www);
    StartsWithConcat(url, m.scheme + m.www, m.key);
    assert |Matched(m)| < |url| ==> url[|Matched(m)|] == host[|m.key|];
    m
  }

  /** The scheme group is determined by the input: at most one of the two schemes can match. */
  lemma SchemeDetermined(url: string, scheme: string)
    requires scheme == "" || scheme == "http://" || scheme == "https://"
    requires StartsWith(url, scheme)
    requires scheme == "" ==> !StartsWith(url, "http://") && !StartsWith(url, "https://")
    ensures |scheme| == SchemeLength(url)
  {
    assert StartsWith(url, "http://") ==> url[4] == "http://"[4] == ':';
    assert StartsWith(url, "https://") ==> url[4] == "https://"[4] == 's';
  }

  /** The key run of a match is a maximal key-character prefix of what follows the first two groups. */
  lemma RunAfterPrefix(url: string, p: string, k: string)
    requires StartsWith(url, p + k) && (|p + k| == |url| || !IsKeyChar(url[|p + k|]))
    ensures StartsWith(url[|p|..], k)
    ensures |k| == |url[|p|..]| || !IsKeyChar(url[|p|..][|k|])
  {
    assert url[..|p + k|][|p|..] == k;
    assert url[|p|..][..|k|] == url[..|p + k|][|p|..];
    assert |k| < |url[|p|..]| ==> url[|p|..][|k|] == url[|p + k|];
  }

  /** The match is unique: the pattern's groups are determined by the input. */
  lemma PatternMatchUnique(url: string, m1: KeyMatch, m2: KeyMatch)
    requires IsPatternMatch(url, m1) && IsPatternMatch(url, m2)
    ensures m1 == m2
  {
    SchemeDetermined(url, m1.scheme);
    SchemeDetermined(url, m2.scheme);
    assert m1.scheme == url[..|m1.scheme|] == m2.scheme;
    var rest := url[|m1.scheme|..];
    assert m1.www == m2.www;
    var host := url[|m1.scheme + m1.www|..];
    RunAfterPrefix(url, m1.scheme + m1.www, m1.key);
    RunAfterPrefix(url, m2.scheme + m2.www, m2.key);
    KeyRunUnique(host, m1.key, m2.key);
  }

  /**
   * The source key of a URL: group 3 of the key pattern's match. The group always takes part
   * in the match, so there is always a key, possibly empty.
   */
  function SourceKey(url: string): (k: string)
    ensures AllKeyChars(k)
    ensures forall m :: IsPatternMatch(url, m) ==> m.key == k
  {
    var m := KeyPatternMatch(url);
    forall m' | IsPatternMatch(url, m') ensures m'.key == m.key {
      PatternMatchUnique(url, m, m');
    }
    m.key
  }

  /** A key contains neither `:` nor `.`, so deriving a key from a key returns it unchanged. */
  lemma SourceKeyOfKey(k: string)
    requires AllKeyChars(k)
    ensures SourceKey(k) == k
  {
    KeyMatchesItself(k);
  }

  /** On a key, the pattern takes neither optional group and the whole key as the run. */
  lemma KeyMatchesItself(k: string)
    requires AllKeyChars(k)
    ensures IsPatternMatch(k, KeyMatch("", "", k))
  {
    var m := KeyMatch("", "", k);
    assert !StartsWith(k, "http://") by {
      if |k| >= 7 { assert IsKeyChar(k[4]); assert "http://"[4] == ':'; }
    }
    assert !StartsWith(k, "https://") by {
      if |k| >= 8 { assert IsKeyChar(k[5]); assert "https://"[5] == ':'; }
    }
    assert !StartsWith(k, "www.") by {
      if |k| >= 4 { assert IsKeyChar(k[3]); assert "www."[3] == '.'; }
    }
    assert k[0..] == k;
    assert Matched(m) == k;
    assert IsPatternMatch(k, m);
  }

  /**
   * The key is the maximal key-character run after an optional scheme and an optional `www.`,
   * provided that, where a group is left out, the remaining text does not itself start with it.
   */
  lemma SourceKeyOfParts(scheme: string, www: string, key: string, tail: string)
    requires scheme == "" || scheme == "http://" || scheme == "https://"
    requires www == "" || www == "www."
    requires AllKeyChars(key) && (tail == "" || !IsKeyChar(tail[0]))
    requires scheme == "" ==>
      !StartsWith(www + key + tail, "http://") && !StartsWith(www + key + tail, "https://")
    requires www == "" ==> !StartsWith(key + tail, "www.")
    ensures SourceKey(scheme + www + key + tail) == key
  {
    PartsFormPatternMatch(scheme, www, key, tail);
  }

  /** The parts of `SourceKeyOfParts` are the groups of the pattern's match on their concatenation. */
  lemma PartsFormPatternMatch(scheme: string, www: string, key: string, tail: string)
    requires scheme == "" || scheme == "http://" || scheme == "https://"
    requires www == "" || www == "www."
    requires AllKeyChars(key) && (tail == "" || !IsKeyChar(tail[0]))
    requires scheme == "" ==>
      !StartsWith(www + key + tail, "http://") && !StartsWith(www + key + tail, "https://")
    requires www == "" ==> !StartsWith(key + tail, "www.")
    ensures IsPatternMatch(scheme + www + key + tail, KeyMatch(scheme, www, key))
  {
    var m := KeyMatch(scheme, www, key);
    var host := key + tail;
    var rest := www + host;
    var url := scheme + rest;
    ConcatAssoc(scheme, www, host);
    ConcatAssoc(scheme + www, key, tail);
    ConcatAssoc(www, key, tail);
    assert url == scheme + www + key + tail;
    assert url == Matched(m) + tail;
    OptionalGroup(url, scheme, rest);
    OptionalGroup(rest, www, host);
    PrefixOfConcat(Matched(m), tail);
    assert IsPatternMatch(url, m);
  }

  /** `(a + b) + c == a + (b + c)` for strings. */
  lemma ConcatAssoc(a: string, b: string, c: string)
    ensures a + b + c == a + (b + c)
  {
  }

  /** An optional group `g` in front of `rest` is a prefix of `g + rest`, and `rest` follows it. */
  lemma OptionalGroup(s: string, g: string, rest: string)
    requires s == g + rest
    ensures StartsWith(s, g) && s[|g|..] == rest
  {
    PrefixOfConcat(g, rest);
  }

  /** `a` is a prefix of `a + b`, and what follows it is `b`. */
  lemma PrefixOfConcat(a: string, b: string)
    ensures StartsWith(a + b, a) && (a + b)[|a|..] == b
    ensures b != [] ==> (a + b)[|a|] == b[0]
  {
  }

  /** The xkcd home page maps to the `xkcd` rule's key. */
  lemma XkcdUrlKey()
    ensures SourceKey("https://www.xkcd.com/") == Xkcd
  {
    assert "https://www.xkcd.com/" == "https://" + "www." + "xkcd" + ".com/";
    SourceKeyOfParts("https://", "www.", "xkcd", ".com/");
  }

  /** The address without `www.`, as the scrapers themselves fetch it, maps to the same key. */
  lemma XkcdBareUrlKey()
    ensures SourceKey("https://xkcd.com/") == Xkcd
  {
    assert "https://xkcd.com/" == "https://" + "" + "xkcd" + ".com/";
    assert ("xkcd" + ".com/")[0] == 'x';
    SourceKeyOfParts("https://", "", "xkcd", ".com/");
  }

  /** The Girl Genius comic page maps to the `girlgeniusonline` rule's key. */
  lemma GirlGeniusUrlKey()
    ensures SourceKey("http://www.girlgeniusonline.com/comic") == GirlGenius
  {
    assert "http://www.girlgeniusonline.com/comic" == "http://" + "www." + "girlgeniusonline" + ".com/comic";
    SourceKeyOfParts("http://", "www.", "girlgeniusonline", ".com/comic");
  }

  // ---------------------------------------------------------------------------------------------
  // Records, parsing and the keyed store
  // ---------------------------------------------------------------------------------------------

  /** A Comic document: the schema's four fields and the `_id` Mongoose gives a new document. */
  datatype Comic = Comic(id: Option<ObjectId>, source: string, title: string, url: string, subtitle: Option<string>)

  /** Why `parseComic` rejects ("Could not retrieve comic; ..."). */
  datatype ParseError =
    | FetchFailed                         // the request for the page failed
    | NoTitleElement                      // the page has no `<title>`, so reading its text threw
    | DataUnavailable(cause: ExtractError) // `getData` had no rule, or a rule's lookup threw

  /**
   * `parseComic(input)` once the page has been fetched (`response`, None when the request
   * failed) and parsed: a new Comic document whose `source` is the URL's key, whose `title` is
   * the page's `<title>` text and whose `url` and `subtitle` come from the site rule. `newId`
   * is the `_id` that constructing the document assigns.
   */
  function ParseComic(input: string, response: Option<Element>, newId: ObjectId): (r: Result<Comic, ParseError>)
    ensures response.None? ==> r == Failure(FetchFailed)
    ensures response.Some? ==>
      (r.Success? <==>
        QuerySelectorTag(response.value, "title").Some? && GetData(SourceKey(input), response.value).Success?)
    ensures response.Some? && GetData(SourceKey(input), response.value) == Failure(UnknownSource) ==>
      r.Failure?
    ensures r.Success? ==>
      var data := GetData(SourceKey(input), response.value).value;
      && r.value.id == Some(newId)
      && r.value.source == SourceKey(input)
      && r.value.title == QuerySelectorTag(response.value, "title").value.text
      && r.value.url == data.url
      && r.value.subtitle == data.subtitle
  {
    match response
    case None => Failure(FetchFailed)
    case Some(page) =>
      var key := SourceKey(input);
      match QuerySelectorTag(page, "title")
      case None => Failure(NoTitleElement)
      case Some(titleElement) =>
        match GetData(key, page)
        case Failure(e) => Failure(DataUnavailable(e))
        case Success(data) => Success(Comic(Some(newId), key, titleElement.text, data.url, data.subtitle))
  }

  /** The `source` of every parsed comic is a key: it consists of key characters only. */
  lemma ParsedSourceIsKey(input: string, response: Option<Element>, newId: ObjectId)
    ensures var r := ParseComic(input, response, newId);
      r.Success? ==> AllKeyChars(r.value.source) && SourceKey(r.value.source) == SourceKey(input)
  {
    SourceKeyOfKey(SourceKey(input));
  }

  /** `comic && comic.title === input.title`: the stored record for the input's key has its title. */
  predicate IsUpToDate(records: map<string, Comic>, input: Comic)
  {
    input.source in records && records[input.source].title == input.title
  }

  /** The failures of the database operations. */
  datatype StoreError =
    | IllegalInput   // "Illegal input: input must contain comic object"
    | NotFound       // "Could not retrieve comic; not found in database"
    | LookupFailed   // `findOne` reported an error
    | NoUpdates      // "No updates; comic up to date"
    | SaveFailed     // `save()` reported an error

  /** How the promise returned by `updateComics` settles. */
  datatype UpdateOutcome =
    | ComicUpdated              // resolved with "Comic updated"
    | Rejected(reason: StoreError)
    | NeverSettles              // `checkComic` rejected, and nothing handles that rejection

  /** Whether an `updateComics` argument passes the `input && input._id` guard. */
  predicate IsComicObject(input: Option<Comic>)
  {
    input.Some? && input.value.id.Some?
  }

  /**
   * The Comic collection, keyed by `source`. Each database call takes a flag saying whether the
   * database reports an error for it.
   */
  class ComicStore {
    var records: map<string, Comic>
    /** The number of successful writes so far. */
    ghost var saves: nat

    /** Every stored record sits under its own key, so there is at most one record per source. */
    ghost predicate Valid()
      reads this
    {
      forall k :: k in records ==> records[k].source == k
    }

    constructor ()
      ensures Valid() && records == map[] && saves == 0
    {
      records := map[];
      saves := 0;
    }

    /** `Comic.findOne({source: source})`. */
    method FindOne(source: string, fails: bool) returns (r: Result<Option<Comic>, StoreError>)
      requires Valid()
      ensures r.Failure? <==> fails
      ensures r.Failure? ==> r.error == LookupFailed
      ensures r.Success? ==> (r.value.Some? <==> source in records)
      ensures r.Success? && r.value.Some? ==> r.value.value == records[source] && r.value.value.source == source
    {
      if fails {
        return Failure(LookupFailed);
      }
      r := Success(if source in records then Some(records[source]) else None);
    }

    /** `comic.save()`: on success, the store holds `c` under its key and nothing else changes. */
    method Save(c: Comic, fails: bool) returns (ok: bool)
      requires Valid()
      modifies this
      ensures Valid()
      ensures ok == !fails
      ensures records == if ok then old(records)[c.source := c] else old(records)
      ensures saves == old(saves) + if ok then 1 else 0
    {
      ok := !fails;
      if ok {
        records := records[c.source := c];
        saves := saves + 1;
      }
    }

    /** `getComic(input)`: the stored record whose source is the URL's key, or a rejection. */
    method GetComic(input: string, findFails: bool) returns (r: Result<Comic, StoreError>)
      requires Valid()
      ensures findFails ==> r == Failure(LookupFailed)
      ensures !findFails ==> (r.Success? <==> SourceKey(input) in records)
      ensures !findFails && r.Failure? ==> r.error == NotFound
      ensures r.Success? ==> r.value == records[SourceKey(input)] && r.value.source == SourceKey(input)
    {
      var found := FindOne(SourceKey(input), findFails);
      match found
      case Failure(e) => r := Failure(e);
      case Success(None) => r := Failure(NotFound);
      case Success(Some(comic)) => r := Success(comic);
    }

    /** `checkComic(input)`: whether the stored record for the input's key has the input's title. */
    method CheckComic(input: Option<Comic>, findFails: bool) returns (r: Result<bool, StoreError>)
      requires Valid()
      ensures !IsComicObject(input) ==> r == Failure(IllegalInput)
      ensures IsComicObject(input) && findFails ==> r == Failure(LookupFailed)
      ensures IsComicObject(input) && !findFails ==> r == Success(IsUpToDate(records, input.value))
    {
      if !IsComicObject(input) {
        return Failure(IllegalInput);
      }
      var found := FindOne(input.value.source, findFails);
      match found
      case Failure(e) => r := Failure(e);
      case Success(stored) => r := Success(stored.Some? && stored.value.title == input.value.title);
    }

    /**
     * `updateComics(input)`: saves the input unless it is not a comic object, the lookup fails
     * or the stored record for its key is already up to date.
     */
    method UpdateComics(input: Option<Comic>, findFails: bool, saveFails: bool) returns (r: UpdateOutcome)
      requires Valid()
      modifies this
      ensures Valid()
      ensures !IsComicObject(input) ==> r == Rejected(IllegalInput)
      ensures IsComicObject(input) && findFails ==> r == NeverSettles
      ensures IsComicObject(input) && !findFails && IsUpToDate(old(records), input.value) ==>
        r == Rejected(NoUpdates)
      ensures IsComicObject(input) && !findFails && !IsUpToDate(old(records), input.value) ==>
        r == if saveFails then Rejected(SaveFailed) else ComicUpdated
      ensures r == ComicUpdated ==>
        records == old(records)[input.value.source := input.value] && saves == old(saves) + 1 &&
        IsUpToDate(records, input.value)
      ensures r != ComicUpdated ==> records == old(records) && saves == old(saves)
    {
      if !IsComicObject(input) {
        return Rejected(IllegalInput);
      }
      var upToDate := CheckComic(input, findFails);
      match upToDate
      case Failure(_) =>
        r := NeverSettles;
      case Success(true) =>
        r := Rejected(NoUpdates);
      case Success(false) =>
        var ok := Save(input.value, saveFails);
        r := if ok then ComicUpdated else Rejected(SaveFailed);
    }
  }
}
