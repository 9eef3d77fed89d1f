/**
 * The per-site extraction table of `comics.js`: `getData(source, page)` picks the rule for a
 * source key by exact string equality and reads the strip's title, image URL and caption from
 * the parsed page (a jsdom document).
 */
module Extractors {
  import opened Wrappers
  import opened Dom
  import opened Js

  /** What a site rule returns: the object literal `{title, url, subtitle}`. */
  datatype SiteData = SiteData(title: string, url: string, subtitle: Option<string>)

  /**
   * Why `getData` gives no data: no rule for the key (the function falls off its end and
   * returns `undefined`), or a lookup hit `null` / `undefined` and reading a property of it threw.
   */
  datatype ExtractError = UnknownSource | MissingElement

  const Xkcd: string := "xkcd"
  const GirlGenius: string := "girlgeniusonline"

  /** The scheme every rule prefixes to the scheme-relative `src` it reads. */
  const Https: string := "https:"

  /** Child positions from `#comicbody` down to the element holding the Girl Genius caption. */
  const GirlGeniusCaptionPath: seq<nat> := [2, 0, 2, 0, 0]

  /** A template literal `${v}` of jsdom's `getAttribute` result: a missing attribute is `null`. */
  function Render(v: Option<string>): (r: string)
  {
    Interpolate(v, "null")
  }

  /** The xkcd rule (comics.js, the `xkcd` branch). */
  function XkcdRule(page: Element): (r: Result<SiteData, ExtractError>)
    ensures r.Success? <==>
      GetElementById(page, "ctitle").Some? &&
      GetElementById(page, "comic").Some? && |GetElementById(page, "comic").value.children| > 0
    ensures r.Failure? ==> r.error == MissingElement
    ensures r.Success? ==>
      var img := GetElementById(page, "comic").value.children[0];
      && r.value.title == GetElementById(page, "ctitle").value.text
      && r.value.url == Https + Render(GetAttribute(img, "src"))
      && r.value.subtitle == GetAttribute(img, "title")
  {
    match GetElementById(page, "ctitle")
    case None => Failure(MissingElement)
    case Some(ctitle) =>
      match GetElementById(page, "comic")
      case None => Failure(MissingElement)
      case Some(comic) =>
        match Child(comic, 0)
        case None => Failure(MissingElement)
        case Some(img) =>
          Success(SiteData(ctitle.text, Https + Render(GetAttribute(img, "src")), GetAttribute(img, "title")))
  }

  /** The Girl Genius rule (comics.js, the `girlgeniusonline` branch). */
  function GirlGeniusRule(page: Element): (r: Result<SiteData, ExtractError>)
    ensures r.Success? <==>
      GetElementById(page, "datestring").Some? &&
      GetElementById(page, "comicbody").Some? && |GetElementById(page, "comicbody").value.children| > 1 &&
      Descend(GetElementById(page, "comicbody").value, GirlGeniusCaptionPath).Some?
    ensures r.Failure? ==> r.error == MissingElement
    ensures r.Success? ==>
      var body := GetElementById(page, "comicbody").value;
      && r.value.title == GetElementById(page, "datestring").value.text
      && r.value.url == Https + Render(GetAttribute(body.children[1], "src"))
      && r.value.subtitle == Some(Descend(body, GirlGeniusCaptionPath).value.text)
  {
    match GetElementById(page, "datestring")
    case None => Failure(MissingElement)
    case Some(date) =>
      match GetElementById(page, "comicbody")
      case None => Failure(MissingElement)
      case Some(body) =>
        match Child(body, 1)
        case None => Failure(MissingElement)
        case Some(img) =>
          match Descend(body, GirlGeniusCaptionPath)
          case None => Failure(MissingElement)
          case Some(caption) =>
            Success(SiteData(date.text, Https + Render(GetAttribute(img, "src")), Some(caption.text)))
  }

  /**
   * `getData(source, page)`: the rule whose key equals `source` exactly, applied to `page`;
   * `UnknownSource` when no key matches.
   */
  function GetData(source: string, page: Element): (r: Result<SiteData, ExtractError>)
    ensures source == Xkcd ==> r == XkcdRule(page)
    ensures source == GirlGenius ==> r == GirlGeniusRule(page)
    ensures r == Failure(UnknownSource) <==> source != Xkcd && source != GirlGenius
    ensures r.Success? ==> StartsWith(r.value.url, Https)
  {
    if source == Xkcd then XkcdRule(page)
    else if source == GirlGenius then GirlGeniusRule(page)
    else Failure(UnknownSource)
  }

  /**
   * The Girl Genius caption is `children[2].children[0].children[2].children[0].children[0]`
   * of `#comicbody`, and the path fails exactly when one of its five indices is out of range.
   */
  lemma {:induction false} GirlGeniusCaptionIsChildChain(body: Element)
    ensures Descend(body, GirlGeniusCaptionPath).Some? <==>
      && 2 < |body.children|
      && 0 < |body.children[2].children|
      && 2 < |body.children[2].children[0].children|
      && 0 < |body.children[2].children[0].children[2].children|
      && 0 < |body.children[2].children[0].children[2].children[0].children|
    ensures Descend(body, GirlGeniusCaptionPath).Some? ==>
      Descend(body, GirlGeniusCaptionPath).value ==
        body.children[2].children[0].children[2].children[0].children[0]
  {
    var p := GirlGeniusCaptionPath;
    assert p[1..] == [0, 2, 0, 0] && p[2..] == [2, 0, 0] && p[3..] == [0, 0] && p[4..] == [0] && p[5..] == [];
    assert p[1..][1..] == p[2..] && p[2..][1..] == p[3..] && p[3..][1..] == p[4..] && p[4..][1..] == p[5..];
  }
}
