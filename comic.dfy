/**
 * `comic.js`: fetches the xkcd home page (parsed with cheerio), extracts the current strip and
 * reconciles it with the single record of the Comic collection: the first run creates the
 * record (*initiated*), a run that sees a new title overwrites it (*updated*), and a run that
 * sees the stored title changes nothing (*not updated*).
 */
module LatestComic {
  import opened Wrappers
  import opened Js
  import opened Dom

  /** The strip read from the page: the `current` object literal. */
  datatype Strip = Strip(title: string, url: string, subtitle: Option<string>)

  /** The one stored Comic document: its `_id` and its three data fields. */
  datatype StoredComic = StoredComic(id: ObjectId, strip: Strip)

  /** The `state` reported for a run that saves. */
  datatype State = Initiated | Updated

  /** Why a run rejects. `UpToDate` is the *not updated* state: "Comic up to date". */
  datatype Failure = FetchFailed | FindFailed | UpToDate | SaveFailed

  /** How the promise of a run settles. */
  datatype Outcome =
    | Resolved(state: State, comic: StoredComic)
    | Rejected(reason: Failure)
    | NeverSettles   // an exception escaped the database callback before anything settled

  /** What one run leaves behind: the stored record, the outcome, and how often `save()` was called. */
  datatype Run = Run(stored: Option<StoredComic>, outcome: Outcome, saveCalls: nat)

  // ---------------------------------------------------------------------------------------------
  // Extraction with cheerio
  // ---------------------------------------------------------------------------------------------

  /** `$('#name')`, taken as the first element with that `id`; None for an empty selection. */
  function Select(page: Element, name: string): (r: Option<Element>)
  {
    GetElementById(page, name)
  }

  /** `$('#comic').children('img')`: the first `img` child of the `#comic` element. */
  function ComicImage(page: Element): (r: Option<Element>)
    ensures Select(page, "comic").Some? ==> r == FirstWhere(Select(page, "comic").value.children, HasTag("img"))
    ensures r.Some? ==>
      Select(page, "comic").Some? && r.value in Select(page, "comic").value.children && r.value.tag == "img"
    ensures r.None? <==>
      Select(page, "comic").None? || forall c :: c in Select(page, "comic").value.children ==> c.tag != "img"
  {
    match Select(page, "comic")
    case None => None
    case Some(comic) => FirstWhere(comic.children, HasTag("img"))
  }

  /** `.attr(name)` of a selection: `undefined` (None) for an empty selection or a missing attribute. */
  function SelectionAttr(selection: Option<Element>, name: string): (r: Option<string>)
    ensures r.Some? <==> selection.Some? && name in selection.value.attrs
    ensures r.Some? ==> r.value == selection.value.attrs[name]
  {
    match selection
    case None => None
    case Some(e) => GetAttribute(e, name)
  }

  /** `.text()` of a selection: "" for an empty selection. */
  function SelectionText(selection: Option<Element>): (r: string)
    ensures selection.Some? ==> r == selection.value.text
    ensures selection.None? ==> r == ""
  {
    match selection
    case None => ""
    case Some(e) => e.text
  }

  /**
   * The `current` strip: the `#ctitle` text, "https:" followed by the image's `src`, and the
   * image's `title` attribute. cheerio never throws here: an absent image gives `undefined`.
   */
  function Extract(page: Element): (c: Strip)
    ensures c.title == SelectionText(Select(page, "ctitle"))
    ensures StartsWith(c.url, "https:")
    ensures SelectionAttr(ComicImage(page), "src").Some? ==>
      c.url == "https:" + ComicImage(page).value.attrs["src"]
    ensures SelectionAttr(ComicImage(page), "src").None? ==> c.url == "https:undefined"
    ensures c.subtitle == SelectionAttr(ComicImage(page), "title")
  {
    var img := ComicImage(page);
    Strip(SelectionText(Select(page, "ctitle")),
          "https:" + Interpolate(SelectionAttr(img, "src"), "undefined"),
          SelectionAttr(img, "title"))
  }

  // ---------------------------------------------------------------------------------------------
  // The reconcile step (comic.js, the `findOne` callback)
  // ---------------------------------------------------------------------------------------------

  /**
   * The intended run, given the stored record, the extracted strip, whether `findOne` and
   * `save()` report an error, and the `_id` a new document would get.
   */
  function Reconcile(stored: Option<StoredComic>, current: Strip, findFails: bool, saveFails: bool, newId: ObjectId): (run: Run)
    ensures findFails ==> run == Run(stored, Rejected(FindFailed), 0)
    ensures !findFails && stored.Some? && stored.value.strip.title == current.title ==>
      run == Run(stored, Rejected(UpToDate), 0)
    ensures !findFails && (stored.None? || stored.value.strip.title != current.title) ==>
      run.saveCalls == 1 &&
      (saveFails ==> run.stored == stored && run.outcome == Rejected(SaveFailed)) &&
      (!saveFails ==> run.stored.Some? && run.stored.value.strip == current &&
                      run.outcome == Resolved(if stored.None? then Initiated else Updated, run.stored.value))
    ensures stored.Some? && run.stored.Some? ==> run.stored.value.id == stored.value.id
    ensures stored.None? && run.stored.Some? ==> run.stored.value.id == newId
  {
    if findFails then Run(stored, Rejected(FindFailed), 0)
    else match stored
      case None =>
        var created := StoredComic(newId, current);
        if saveFails then Run(stored, Rejected(SaveFailed), 1)
        else Run(Some(created), Resolved(Initiated, created), 1)
      case Some(comic) =>
        if comic.strip.title != current.title then
          var changed := comic.(strip := current);
          if saveFails then Run(stored, Rejected(SaveFailed), 1)
          else Run(Some(changed), Resolved(Updated, changed), 1)
        else Run(stored, Rejected(UpToDate), 0)
  }

  /** A run that reports *initiated* or *updated* has stored exactly the extracted fields. */
  lemma ResolvedStoresCurrent(stored: Option<StoredComic>, current: Strip, findFails: bool, saveFails: bool, newId: ObjectId)
    ensures var run := Reconcile(stored, current, findFails, saveFails, newId);
      run.outcome.Resolved? ==> run.stored == Some(run.outcome.comic) && run.outcome.comic.strip == current
  {
  }

  /**
   * Polling twice in a row with the same strip: once the first run has saved, the second finds
   * the stored title equal, rejects with "Comic up to date", calls `save()` zero times and
   * leaves the record unchanged.
   */
  lemma SecondRunIsUpToDate(stored: Option<StoredComic>, current: Strip, saveFails: bool, id1: ObjectId, id2: ObjectId, saveFails2: bool)
    requires Reconcile(stored, current, false, saveFails, id1).outcome.Resolved?
    ensures var first := Reconcile(stored, current, false, saveFails, id1);
      Reconcile(first.stored, current, false, saveFails2, id2) == Run(first.stored, Rejected(UpToDate), 0)
  {
  }

  // ---------------------------------------------------------------------------------------------
  // The callback as written
  // ---------------------------------------------------------------------------------------------

  /**
   * The `findOne` callback as the code runs it. A `reject` does not stop the callback, and
   * the `const comic` of the *initiated* branch is local to that branch, so `comic.save()` is
   * then called on the outer `comic`, which is `null` or `undefined` there and throws.
   */
  function ReconcileAsWritten(stored: Option<StoredComic>, current: Strip, findFails: bool, saveFails: bool): (run: Run)
    ensures stored.None? ==> run.stored == None && run.saveCalls == 0
    ensures !findFails && stored.Some? && stored.value.strip.title == current.title ==>
      run == Run(stored, Rejected(UpToDate), 1)
  {
    if findFails then
      // reject, then the outer `comic` is undefined: the initiated branch, and `save` throws
      Run(stored, Rejected(FindFailed), 0)
    else match stored
      case None =>
        // the new document is bound to a block-local `const`; `null.save()` throws
        Run(None, NeverSettles, 0)
      case Some(comic) =>
        if comic.strip.title != current.title then
          var changed := comic.(strip := current);
          if saveFails then Run(stored, Rejected(SaveFailed), 1)
          else Run(Some(changed), Resolved(Updated, changed), 1)
        else
          // reject('Comic up to date'), then fall through to `comic.save()` on the unchanged record
          Run(stored, Rejected(UpToDate), 1)
  }

  /** Finding: on an empty collection the code never creates the record, whatever the page says. */
  lemma AsWrittenNeverInitiates(current: Strip, saveFails: bool, newId: ObjectId)
    ensures ReconcileAsWritten(None, current, false, saveFails).stored == None
    ensures ReconcileAsWritten(None, current, false, saveFails).outcome == NeverSettles
    ensures !saveFails ==> Reconcile(None, current, false, saveFails, newId).stored == Some(StoredComic(newId, current))
  {
  }

  /** Finding: an up-to-date run still calls `save()` once, where the intended run makes no call. */
  lemma AsWrittenSavesWhenUpToDate(comic: StoredComic, saveFails: bool, newId: ObjectId)
    ensures ReconcileAsWritten(Some(comic), comic.strip, false, saveFails).saveCalls == 1
    ensures Reconcile(Some(comic), comic.strip, false, saveFails, newId).saveCalls == 0
  {
  }

  /** The single-document Comic collection of `comic.js`; `findOne({})` reads the one record. */
  class ComicStore {
    var stored: Option<StoredComic>
    /** The number of `save()` calls so far. */
    ghost var saveCalls: nat

    constructor ()
      ensures stored == None && saveCalls == 0
    {
      stored := None;
      saveCalls := 0;
    }

    /**
     * One run of the exported function: `response` is the fetched and parsed page (None when the
     * request failed), the two flags say whether `findOne` and `save()` report an error, and
     * `newId` is the `_id` of a document created now.
     */
    method Poll(response: Option<Element>, findFails: bool, saveFails: bool, newId: ObjectId) returns (r: Outcome)
      modifies this
      ensures response.None? ==> r == Rejected(FetchFailed) && stored == old(stored) && saveCalls == old(saveCalls)
      ensures response.Some? ==>
        var run := Reconcile(old(stored), Extract(response.value), findFails, saveFails, newId);
        r == run.outcome && stored == run.stored && saveCalls == old(saveCalls) + run.saveCalls
      ensures r.Resolved? ==> stored == Some(r.comic) && r.comic.strip == Extract(response.value)
      ensures r.Resolved? && r.state == Updated ==> old(stored).Some? && stored.value.id == old(stored).value.id
      ensures !r.Resolved? ==> stored == old(stored)
    {
      if response.None? {
        return Rejected(FetchFailed);
      }
      var current := Extract(response.value);
      if findFails {
        return Rejected(FindFailed);
      }
      var state: State;
      var comic: StoredComic;
      match stored {
        case None =>
          comic := StoredComic(newId, current);
          state := Initiated;
        case Some(found) =>
          if found.strip.title == current.title {
            return Rejected(UpToDate);
          }
          comic := found.(strip := current);
          state := Updated;
      }
      saveCalls := saveCalls + 1;
      if saveFails {
        return Rejected(SaveFailed);
      }
      stored := Some(comic);
      r := Resolved(state, comic);
    }
  }
}
