/**
 * The extension's redirect page: it sends the new tab to the hosted dashboard
 * with the stored theme name in the query, where the theme handler picks it
 * up again.
 */
module Redirect {
  import opened Wrappers
  import opened Storage
  import Percent
  import ThemeHandler
  import Events

  const BaseUrl := "https://suchithbalne.github.io/edge-productivity-hub/"

  /** The stored theme name, or 'Blue' when none (or an empty one) is stored. */
  function StoredTheme(items: map<string, Value>): (r: string)
    ensures r != ""
    ensures LookupText(items, ThemeHandler.ThemeKey).Some? && LookupText(items, ThemeHandler.ThemeKey) != Some("") ==>
      r == LookupText(items, ThemeHandler.ThemeKey).value
    ensures LookupText(items, ThemeHandler.ThemeKey).None? || LookupText(items, ThemeHandler.ThemeKey) == Some("") ==> r == "Blue"
  {
    TextOr(items, ThemeHandler.ThemeKey, "Blue")
  }

  /** The query part of the redirect target, `?theme=` and the encoded name. */
  function Query(items: map<string, Value>): string {
    "?" + "theme" + "=" + Percent.Encode(StoredTheme(items))
  }

  /** `getRedirectUrl()` */
  function RedirectUrl(items: map<string, Value>): string {
    BaseUrl + Query(items)
  }

  /**
   * The theme handler, reading the redirect's query, gets the stored theme
   * name back unchanged, whatever characters it holds.
   */
  lemma RoundTrip(items: map<string, Value>)
    ensures ThemeHandler.GetUrlParameter(Query(items), "theme") == Ok(StoredTheme(items))
  {
    var t := StoredTheme(items);
    ThemeHandler.EncodedParameter("theme", t);
  }

  /**
   * The hosted page's handler always acts on the redirect's query: the
   * parameter decodes and the name sent is never empty.
   */
  lemma ArrivalKeepsTheme(items: map<string, Value>)
    ensures ThemeHandler.GetUrlParameter(Query(items), "theme").Ok?
    ensures ThemeHandler.GetUrlParameter(Query(items), "theme").value != ""
  {
    RoundTrip(items);
  }

  /**
   * The hosted page loading with the redirect's query: its own store gets
   * the theme name the extension's store held, the theme is applied and
   * announced, and the query is removed from the address.
   */
  method Arrival(items: map<string, Value>, hosted: Store) returns (doc: ThemeHandler.Document, r: Result<Option<Events.Event>, Percent.DecodeError>)
    modifies hosted
    ensures doc.store == hosted
    ensures hosted.items == old(hosted.items)[ThemeHandler.ThemeKey := Text(StoredTheme(items))]
    ensures StoredTheme(hosted.items) == StoredTheme(items)
    ensures r == Ok(Some(Events.ThemeChanged(ThemeHandler.Applied(StoredTheme(items)))))
    ensures doc.search == ""
  {
    doc := new ThemeHandler.Document(Query(items), hosted);
    RoundTrip(items);
    r := doc.ContentLoaded();
  }

  /** Two stores give the same target exactly when they give the same theme name. */
  lemma SameTargetSameTheme(a: map<string, Value>, b: map<string, Value>)
    ensures RedirectUrl(a) == RedirectUrl(b) <==> StoredTheme(a) == StoredTheme(b)
  {
    if RedirectUrl(a) == RedirectUrl(b) {
      assert Query(a) == RedirectUrl(a)[|BaseUrl|..];
      assert Query(b) == RedirectUrl(b)[|BaseUrl|..];
      RoundTrip(a);
      RoundTrip(b);
    }
  }

  /** The redirect page's window: its address, its manual link (if the page has one) and the pending timer. */
  class Window {
    var href: string
    var manualLink: Option<string>
    var redirectPending: bool
    const store: Store

    constructor (store: Store, href: string, manualLink: Option<string>)
      ensures this.store == store && this.href == href && this.manualLink == manualLink && !redirectPending
    {
      this.store := store;
      this.href := href;
      this.manualLink := manualLink;
      redirectPending := false;
    }

    /** `window.onload`: schedules the redirect and points the manual link, when present, at the target. */
    method OnLoad()
      modifies this`manualLink, this`redirectPending
      ensures redirectPending
      ensures manualLink == if old(manualLink).Some? then Some(RedirectUrl(store.items)) else None
    {
      redirectPending := true;
      if manualLink.Some? {
        manualLink := Some(RedirectUrl(store.items));
      }
    }

    /**
     * The 100 ms timer: the target is computed again from the store as it
     * is then, so it agrees with the manual link exactly when the theme
     * name has not changed meanwhile.
     */
    method RedirectTimerFires()
      requires redirectPending
      modifies this`href, this`redirectPending
      ensures href == RedirectUrl(store.items) && !redirectPending
    {
      href := RedirectUrl(store.items);
      redirectPending := false;
    }
  }
}
