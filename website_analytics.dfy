/**
 * The website-time panel (src/components/WebsiteAnalytics.tsx): tracked sites with
 * a category and an optional daily limit, persisted under
 * `edge-homepage-website-data`, per-category time totals, and the merge of the
 * history data the extension's background script sends back.
 */
module WebsiteAnalytics {
  import opened Wrappers
  import opened Storage
  import opened Text
  import opened Lists
  import opened Sorting

  const Key := "edge-homepage-website-data"

  /** `timeSpent` is in seconds; `limit` is documented as seconds but see `NewLimit`. */
  datatype Site = Site(url: string, timeSpent: int, category: string, visits: int, limit: Option<int>)

  /** The add-site form: the limit field holds `parseInt` of the typed minutes (`None` for empty or NaN). */
  datatype Form = Form(url: string, category: string, limit: Option<int>)

  const BlankForm := Form("", "neutral", None)

  function SiteUrl(s: Site): string { s.url }

  function SiteTime(s: Site): int { s.timeSpent }

  function Encode(s: Site): Record {
    PutOptNum(map["url" := Str(s.url), "timeSpent" := Num(s.timeSpent), "category" := Str(s.category),
                  "visits" := Num(s.visits)], "limit", s.limit)
  }

  function Decode(r: Record): Option<Site> {
    match (GetStr(r, "url"), GetNum(r, "timeSpent"), GetStr(r, "category"), GetNum(r, "visits"), GetOptNum(r, "limit"))
    case (Some(url), Some(t), Some(c), Some(v), Some(limit)) => Some(Site(url, t, c, v, limit))
    case _ => None
  }

  lemma DecodeEncode()
    ensures forall s :: Decode(Encode(s)) == Some(s)
  {
    forall s: Site ensures Decode(Encode(s)) == Some(s) {
      var r := Encode(s);
      assert GetStr(r, "url") == Some(s.url) && GetNum(r, "timeSpent") == Some(s.timeSpent);
      assert GetStr(r, "category") == Some(s.category) && GetNum(r, "visits") == Some(s.visits);
      assert GetOptNum(r, "limit") == Some(s.limit);
    }
  }

  lemma Reload(items: map<string, Value>, sites: seq<Site>)
    requires Key in items && items[Key] == Records(EncodeList(sites, Encode))
    ensures LoadList(items, Key, Decode, []) == sites
  {
    DecodeEncode();
    LoadAfterSave(items, Key, sites, Encode, Decode, []);
    assert items[Key := Records(EncodeList(sites, Encode))] == items;
  }

  // ---------------------------------------------------------------- formatTime

  /**
   * `formatTime(seconds)`: "{s}s" under a minute, whole minutes under an hour, and
   * otherwise whole hours with the minutes left over, which are always fewer than 60.
   */
  function FormatTime(s: int): (r: string)
    ensures s < 60 ==> r == IntToString(s) + "s"
    ensures 60 <= s < 3600 ==> exists m: nat :: 1 <= m < 60 && m * 60 <= s < m * 60 + 60 && r == NatToString(m) + "m"
    ensures 3600 <= s ==> exists h: nat, m: nat ::
      h >= 1 && m < 60 && h * 3600 + m * 60 <= s < h * 3600 + m * 60 + 60 && r == NatToString(h) + "h " + NatToString(m) + "m"
  {
    if s < 60 then IntToString(s) + "s"
    else if s < 3600 then
      var m := s / 60;
      assert m * 60 <= s < m * 60 + 60;
      NatToString(m) + "m"
    else
      var h := s / 3600;
      var m := (s % 3600) / 60;
      assert h * 3600 + m * 60 <= s < h * 3600 + m * 60 + 60;
      NatToString(h) + "h " + NatToString(m) + "m"
  }

  // ---------------------------------------------------------------- addWebsite

  function StripPrefix(s: string, prefix: string): (r: string)
    ensures StartsWith(s, prefix) ==> r == s[|prefix|..]
    ensures !StartsWith(s, prefix) ==> r == s
  {
    if StartsWith(s, prefix) then s[|prefix|..] else s
  }

  /** The url cleanup of `addWebsite`: "http://", then "https://", then "www.", each at most once, in that order. */
  function CleanUrl(url: string): string {
    StripPrefix(StripPrefix(StripPrefix(url, "http://"), "https://"), "www.")
  }

  /** The cleaned url is the typed url without a leading scheme and "www.", and is a suffix of it. */
  lemma CleanUrlStrips(scheme: string, www: bool, host: string)
    requires scheme == "" || scheme == "http://" || scheme == "https://"
    requires scheme == "" ==> !StartsWith(host, "http://") && !StartsWith(host, "https://")
    requires scheme == "http://" ==> !StartsWith(host, "https://")
    requires www || !StartsWith(host, "www.")
    ensures CleanUrl(scheme + (if www then "www." else "") + host) == host
  {
    var w := if www then "www." else "";
    var u := scheme + w + host;
    assert (w + host)[..0] == "";
    if scheme == "http://" {
      assert StartsWith(u, "http://") && u[7..] == w + host;
      if www {
        assert (w + host)[0] == 'w';
        assert !StartsWith(w + host, "https://");
      } else {
        assert w + host == host;
      }
    } else if scheme == "https://" {
      assert u[..7] == "https:/";
      assert StartsWith(u, "https://") && u[8..] == w + host;
    } else {
      assert u == w + host;
      if www {
        assert u[0] == 'w';
        assert !StartsWith(u, "http://") && !StartsWith(u, "https://");
      } else {
        assert u == host;
      }
    }
    if www {
      assert StartsWith(w + host, "www.") && (w + host)[4..] == host;
    }
  }

  predicate Tracked(sites: seq<Site>, url: string) {
    exists i :: 0 <= i < |sites| && sites[i].url == url
  }

  /** The limit a new site is given: only for a distracting site with a truthy limit, stored as typed (minutes). */
  function NewLimit(form: Form): (r: Option<int>)
    ensures r.Some? <==> form.category == "distracting" && form.limit.Some? && form.limit.value != 0
    ensures r.Some? ==> r == form.limit
  {
    if form.category == "distracting" && form.limit.Some? && form.limit.value != 0 then form.limit else None
  }

  datatype AddOutcome = Added(sites: seq<Site>) | Ignored | AlreadyTracked

  /**
   * `addWebsite`: an empty url does nothing; a cleaned url already tracked raises
   * an alert; otherwise exactly one fresh record goes at the end.
   */
  function Add(sites: seq<Site>, form: Form): (r: AddOutcome)
    ensures r == Ignored <==> form.url == ""
    ensures r == AlreadyTracked <==> form.url != "" && Tracked(sites, CleanUrl(form.url))
    ensures r.Added? ==> r.sites == sites + [Site(CleanUrl(form.url), 0, form.category, 0, NewLimit(form))]
  {
    if form.url == "" then Ignored
    else if Tracked(sites, CleanUrl(form.url)) then AlreadyTracked
    else Added(sites + [Site(CleanUrl(form.url), 0, form.category, 0, NewLimit(form))])
  }

  /** Adding the same url twice in a row is refused the second time. */
  lemma AddTwiceRefused(sites: seq<Site>, form: Form)
    requires Add(sites, form).Added?
    ensures Add(Add(sites, form).sites, form) == AlreadyTracked
  {
    var r := Add(sites, form).sites;
    assert r[|sites|].url == CleanUrl(form.url);
  }

  // ---------------------------------------------------------------- edits by url

  /** `removeWebsite`: every record with the url goes, the rest stay in order. */
  function Remove(sites: seq<Site>, url: string): (r: seq<Site>)
    ensures forall s :: s in r <==> s in sites && s.url != url
    ensures !Tracked(r, url)
  {
    Without(sites, SiteUrl, url)
  }

  /** `updateCategory`: records with the url take the category; nothing else changes. */
  function UpdateCategory(sites: seq<Site>, url: string, category: string): (r: seq<Site>)
    ensures |r| == |sites|
    ensures forall i :: 0 <= i < |sites| ==>
      r[i] == if sites[i].url == url then sites[i].(category := category) else sites[i]
  {
    UpdateWhere(sites, SiteUrl, url, (s: Site) => s.(category := category))
  }

  /** The limit field as `updateLimit` converts it: `limit ? parseInt(limit) : undefined`, unconverted. */
  function LimitOf(input: string): (r: Option<int>)
    ensures input == "" ==> r.None?
    ensures input != "" ==> r == ParseInt(input)
  {
    if input == "" then None else ParseInt(input)
  }

  /** The limit `setDailyLimit` stores: the typed minutes times 60, or none for empty input. */
  function DailyLimitOf(input: string): (r: Option<int>)
    ensures input == "" ==> r.None?
    ensures input != "" && ParseInt(input).Some? ==> r == Some(ParseInt(input).value * 60)
    ensures r.Some? ==> r.value % 60 == 0
  {
    if input == "" then None
    else match ParseInt(input)
      case Some(minutes) => Some(minutes * 60)
      case None => None
  }

  /** The "Remove Limit" button passes '0': the limit becomes 0 seconds rather than absent. */
  lemma RemoveLimitStoresZero()
    ensures DailyLimitOf("0") == Some(0)
  {
    assert TrimStart("0") == "0";
    assert DigitPrefix("0") == "0";
    assert DigitsValue("0") == DigitsValue("0"[..0]) * 10 + 0;
  }

  function SetLimit(sites: seq<Site>, url: string, limit: Option<int>): (r: seq<Site>)
    ensures |r| == |sites|
    ensures forall i :: 0 <= i < |sites| ==>
      r[i] == if sites[i].url == url then sites[i].(limit := limit) else sites[i]
  {
    UpdateWhere(sites, SiteUrl, url, (s: Site) => s.(limit := limit))
  }

  // ---------------------------------------------------------------- totals

  /** `websiteData.filter(site => site.category === c).reduce((t, s) => t + s.timeSpent, 0)` */
  function Total(sites: seq<Site>, category: string): int {
    if sites == [] then 0
    else (if sites[0].category == category then sites[0].timeSpent else 0) + Total(sites[1..], category)
  }

  function Sum(sites: seq<Site>): int {
    if sites == [] then 0 else sites[0].timeSpent + Sum(sites[1..])
  }

  function TotalTime(sites: seq<Site>): int {
    Total(sites, "productive") + Total(sites, "neutral") + Total(sites, "distracting")
  }

  predicate KnownCategory(c: string) {
    c == "productive" || c == "neutral" || c == "distracting"
  }

  /** Time of sites with a category outside the three is counted in no total. */
  function Uncounted(sites: seq<Site>): int {
    if sites == [] then 0
    else (if KnownCategory(sites[0].category) then 0 else sites[0].timeSpent) + Uncounted(sites[1..])
  }

  /** The three totals split the time of the known-category sites: each site is counted exactly once. */
  lemma {:induction false} TotalsPartition(sites: seq<Site>)
    ensures TotalTime(sites) + Uncounted(sites) == Sum(sites)
  {
    if sites != [] {
      TotalsPartition(sites[1..]);
    }
  }

  lemma {:induction false} NoUncounted(sites: seq<Site>)
    requires forall i :: 0 <= i < |sites| ==> KnownCategory(sites[i].category)
    ensures Uncounted(sites) == 0
  {
    if sites != [] {
      NoUncounted(sites[1..]);
    }
  }

  /** With every site in one of the three categories, `totalTime` is the time of all sites. */
  lemma TotalTimeIsSum(sites: seq<Site>)
    requires forall i :: 0 <= i < |sites| ==> KnownCategory(sites[i].category)
    ensures TotalTime(sites) == Sum(sites)
  {
    TotalsPartition(sites);
    NoUncounted(sites);
  }

  // ---------------------------------------------------------------- history merge

  /** `websiteData.find(s => s.url === url)` */
  function Find(sites: seq<Site>, url: string): (r: Option<Site>)
    ensures r.Some? <==> Tracked(sites, url)
    ensures r.Some? ==> exists i :: 0 <= i < |sites| && sites[i] == r.value && sites[i].url == url &&
                                   forall j :: 0 <= j < i ==> sites[j].url != url
  {
    if sites == [] then None
    else if sites[0].url == url then Some(sites[0])
    else
      var r := Find(sites[1..], url);
      assert r.Some? ==> exists i :: 0 <= i < |sites[1..]| && sites[1..][i] == r.value && sites[1..][i].url == url &&
                                   forall j :: 0 <= j < i ==> sites[1..][j].url != url;
      if r.Some? then
        var i :| 0 <= i < |sites[1..]| && sites[1..][i] == r.value && sites[1..][i].url == url &&
                 forall j :: 0 <= j < i ==> sites[1..][j].url != url;
        assert sites[i + 1] == r.value;
        r
      else r
  }

  /** One reported site with the category and limit of the tracked record of the same url, if any. */
  function MergeSite(existing: seq<Site>, site: Site): Site {
    match Find(existing, site.url)
    case Some(tracked) => site.(category := tracked.category, limit := tracked.limit)
    case None => site.(category := "neutral", limit := None)
  }

  /**
   * The merge of a history response: exactly the reported sites, in their order,
   * with url, time and visits as reported.
   */
  function Merge(existing: seq<Site>, response: seq<Site>): (r: seq<Site>)
    ensures |r| == |response|
    ensures forall i :: 0 <= i < |response| ==>
      r[i].url == response[i].url && r[i].timeSpent == response[i].timeSpent && r[i].visits == response[i].visits
    ensures forall i :: 0 <= i < |response| && !Tracked(existing, response[i].url) ==>
      r[i].category == "neutral" && r[i].limit == None
  {
    if response == [] then [] else [MergeSite(existing, response[0])] + Merge(existing, response[1..])
  }

  lemma {:induction false} MergeAt(existing: seq<Site>, response: seq<Site>, i: nat)
    requires i < |response|
    ensures Merge(existing, response)[i] == MergeSite(existing, response[i])
  {
    if i > 0 {
      MergeAt(existing, response[1..], i - 1);
    }
  }

  /** A tracked site keeps the category and limit the user gave it. */
  lemma MergeKeepsSettings(existing: seq<Site>, response: seq<Site>, i: nat, j: nat)
    requires i < |response| && j < |existing| && existing[j].url == response[i].url
    requires forall k :: 0 <= k < |existing| && k != j ==> existing[k].url != existing[j].url
    ensures Merge(existing, response)[i].category == existing[j].category
    ensures Merge(existing, response)[i].limit == existing[j].limit
  {
    MergeAt(existing, response, i);
    var f := Find(existing, response[i].url);
    var k :| 0 <= k < |existing| && existing[k] == f.value && existing[k].url == response[i].url &&
             forall m :: 0 <= m < k ==> existing[m].url != response[i].url;
    assert k == j;
  }

  /** A reported site merged against the merged list gets the settings the first merge gave it. */
  lemma MergeSiteAgain(existing: seq<Site>, response: seq<Site>, i: nat)
    requires i < |response|
    ensures MergeSite(Merge(existing, response), response[i]) == MergeSite(existing, response[i])
  {
    var m := Merge(existing, response);
    var url := response[i].url;
    assert m[i].url == url;
    var f := Find(m, url);
    var k :| 0 <= k < |m| && m[k] == f.value && m[k].url == url &&
             forall j :: 0 <= j < k ==> m[j].url != url;
    MergeAt(existing, response, k);
    MergeAt(existing, response, i);
    assert response[k].url == url;
  }

  /** Merging the same response again changes nothing. */
  lemma MergeIdempotent(existing: seq<Site>, response: seq<Site>)
    ensures Merge(Merge(existing, response), response) == Merge(existing, response)
  {
    var m := Merge(existing, response);
    var mm := Merge(m, response);
    forall i | 0 <= i < |response| ensures mm[i] == m[i] {
      MergeAt(existing, response, i);
      MergeAt(m, response, i);
      MergeSiteAgain(existing, response, i);
    }
  }

  // ---------------------------------------------------------------- render-time views

  /** The details list: every site, most time first, equal times in their stored order. */
  function Details(sites: seq<Site>): (r: seq<Site>)
    ensures SortedDesc(r, SiteTime) && multiset(r) == multiset(sites)
    ensures forall t :: WithKey(r, SiteTime, t) == WithKey(sites, SiteTime, t)
  {
    SortDescSorted(sites, SiteTime);
    forall t ensures WithKey(SortDesc(sites, SiteTime), SiteTime, t) == WithKey(sites, SiteTime, t) {
      SortDescStable(sites, SiteTime, t);
    }
    SortDesc(sites, SiteTime)
  }

  /** Sorting the sorted list again changes nothing, so every later render leaves it as it is. */
  lemma DetailsIdempotent(sites: seq<Site>)
    ensures Details(Details(sites)) == Details(sites)
  {
    SortDescOfSorted(Details(sites), SiteTime);
  }

  /** The "Top Websites" list: the first five of the details list. */
  function TopSites(sites: seq<Site>): (r: seq<Site>)
    ensures |r| == if |sites| < 5 then |sites| else 5
    ensures r == Details(sites)[..|r|]
    ensures SortedDesc(r, SiteTime)
    ensures forall s :: s in r ==> s in sites
  {
    var sorted := SortDesc(sites, SiteTime);
    SortDescSorted(sites, SiteTime);
    var r := if |sorted| < 5 then sorted else sorted[..5];
    forall s | s in r ensures s in sites {
      assert s in multiset(sorted);
    }
    r
  }

  /**
   * The sites shown are taken from the list, each as often as it occurs there,
   * and no site left out has more time than a site shown.
   */
  lemma TopSitesHaveMostTime(sites: seq<Site>)
    ensures multiset(TopSites(sites)) <= multiset(sites)
    ensures forall s, t :: s in multiset(sites) - multiset(TopSites(sites)) && t in TopSites(sites) ==>
      SiteTime(s) <= SiteTime(t)
  {
    var d := Details(sites);
    var r := TopSites(sites);
    var rest := d[|r|..];
    assert d == r + rest;
    assert multiset(sites) - multiset(r) == multiset(rest);
    SortedSplit(d, |r|);
  }

  /** In a list ordered by non-increasing time, nothing after position `n` has more time than anything before it. */
  lemma SortedSplit(d: seq<Site>, n: nat)
    requires n <= |d| && SortedDesc(d, SiteTime)
    ensures forall s, t :: s in d[n..] && t in d[..n] ==> SiteTime(s) <= SiteTime(t)
  {
    forall s, t | s in d[n..] && t in d[..n] ensures SiteTime(s) <= SiteTime(t) {
      var j :| 0 <= j < |d| - n && d[n..][j] == s;
      var i :| 0 <= i < n && d[..n][i] == t;
      assert d[i] == t && d[n + j] == s;
    }
  }

  // ---------------------------------------------------------------- the component

  class Analytics {
    var websiteData: seq<Site>
    var newSite: Form
    var selectedSite: Option<string>
    var loading: bool
    var editMode: bool
    const store: Store

    ghost predicate Persisted()
      reads this, store
    {
      store.items == store.items[Key := Records(EncodeList(websiteData, Encode))]
    }

    /**
     * Mount: the stored list or [], not in edit mode. When the panel is
     * visible the first render shows the tabs, which sort that list in place,
     * so the save effect writes it back sorted.
     */
    constructor (store: Store, visible: bool)
      modifies store
      ensures this.store == store && newSite == BlankForm && selectedSite == None && !loading && !editMode
      ensures websiteData == if visible then Details(LoadList(old(store.items), Key, Decode, []))
                             else LoadList(old(store.items), Key, Decode, [])
      ensures store.items == old(store.items)[Key := Records(EncodeList(websiteData, Encode))]
      ensures Persisted()
    {
      this.store := store;
      websiteData := LoadList(store.items, Key, Decode, []);
      newSite := BlankForm;
      selectedSite := None;
      loading := false;
      editMode := false;
      new;
      if visible {
        websiteData := Details(websiteData);
      }
      store.Set(Key, Records(EncodeList(websiteData, Encode)));
    }

    /**
     * A render after a change to the list. Only the tabs view, shown while the
     * panel is visible and not in edit mode, has the "Top Websites" and details
     * lists, which call `sort` on the state list itself, reordering it most time
     * first; the save effect then writes that order. A hidden panel returns
     * before rendering anything, and the edit view lists the sites unsorted.
     */
    method Render(visible: bool)
      modifies this`websiteData, store
      ensures websiteData == if visible && !editMode then Details(old(websiteData)) else old(websiteData)
      ensures store.items == old(store.items)[Key := Records(EncodeList(websiteData, Encode))]
      ensures Persisted()
    {
      if visible && !editMode {
        websiteData := Details(websiteData);
      }
      Persist();
    }

    /** The header button switching between the tabs view and the edit view. */
    method ToggleEditMode()
      modifies this`editMode
      ensures editMode == !old(editMode)
    {
      editMode := !editMode;
    }

    /** "Add Websites Manually", offered when the list is empty: opens the edit view. */
    method AddManually()
      modifies this`editMode
      ensures editMode
    {
      editMode := true;
    }

    method Persist()
      modifies store
      ensures store.items == old(store.items)[Key := Records(EncodeList(websiteData, Encode))]
      ensures Persisted()
    {
      store.Set(Key, Records(EncodeList(websiteData, Encode)));
    }

    /** `addWebsite`, cleaning the url step by step; returns whether the duplicate alert was raised. */
    method AddWebsite() returns (alerted: bool)
      requires Persisted()
      modifies this`websiteData, this`newSite, store
      ensures alerted <==> Add(old(websiteData), old(newSite)) == AlreadyTracked
      ensures Add(old(websiteData), old(newSite)).Added? ==>
                websiteData == Add(old(websiteData), old(newSite)).sites && newSite == BlankForm
      ensures !Add(old(websiteData), old(newSite)).Added? ==> websiteData == old(websiteData) && newSite == old(newSite)
      ensures store.items == old(store.items)[Key := Records(EncodeList(websiteData, Encode))]
      ensures Persisted()
    {
      alerted := false;
      if newSite.url == "" {
        return;
      }
      var url := newSite.url;
      if StartsWith(url, "http://") { url := url[7..]; }
      if StartsWith(url, "https://") { url := url[8..]; }
      if StartsWith(url, "www.") { url := url[4..]; }
      assert url == CleanUrl(newSite.url);
      if Tracked(websiteData, url) {
        alerted := true;
        return;
      }
      var limit := if newSite.category == "distracting" && newSite.limit.Some? && newSite.limit.value != 0
                   then newSite.limit else None;
      websiteData := websiteData + [Site(url, 0, newSite.category, 0, limit)];
      newSite := BlankForm;
      Persist();
    }

    method RemoveWebsite(url: string)
      requires Persisted()
      modifies this`websiteData, this`selectedSite, store
      ensures websiteData == Remove(old(websiteData), url)
      ensures selectedSite == if old(selectedSite) == Some(url) then None else old(selectedSite)
      ensures store.items == old(store.items)[Key := Records(EncodeList(websiteData, Encode))]
      ensures Persisted()
    {
      websiteData := Remove(websiteData, url);
      if selectedSite == Some(url) {
        selectedSite := None;
      }
      Persist();
    }

    method UpdateCategoryOf(url: string, category: string)
      requires Persisted()
      modifies this`websiteData, store
      ensures websiteData == UpdateCategory(old(websiteData), url, category)
      ensures store.items == old(store.items)[Key := Records(EncodeList(websiteData, Encode))]
      ensures Persisted()
    {
      websiteData := UpdateCategory(websiteData, url, category);
      Persist();
    }

    /** `updateLimit`: the typed text as the limit, without unit conversion. */
    method UpdateLimit(url: string, input: string)
      requires Persisted()
      modifies this`websiteData, store
      ensures websiteData == SetLimit(old(websiteData), url, LimitOf(input))
      ensures store.items == old(store.items)[Key := Records(EncodeList(websiteData, Encode))]
      ensures Persisted()
    {
      websiteData := SetLimit(websiteData, url, LimitOf(input));
      Persist();
    }

    /** `setDailyLimit`: the typed minutes converted to seconds. */
    method SetDailyLimit(url: string, input: string)
      requires Persisted()
      modifies this`websiteData, store
      ensures websiteData == SetLimit(old(websiteData), url, DailyLimitOf(input))
      ensures store.items == old(store.items)[Key := Records(EncodeList(websiteData, Encode))]
      ensures Persisted()
    {
      websiteData := SetLimit(websiteData, url, DailyLimitOf(input));
      Persist();
    }

    /**
     * `requestBrowserData`: loading starts only when the extension messaging
     * API exists. `captured` is the list the response callback closes over:
     * the one rendered when the request is made.
     */
    method RequestBrowserData(extensionAvailable: bool) returns (requested: bool, captured: seq<Site>)
      modifies this`loading
      ensures requested == extensionAvailable
      ensures loading == (extensionAvailable || old(loading))
      ensures captured == websiteData
    {
      requested := extensionAvailable;
      captured := websiteData;
      if extensionAvailable {
        loading := true;
      }
    }

    /**
     * The response callback, run with the list `captured` when the request was
     * made. On an error loading stops and nothing else changes; a response with
     * site data replaces the list by its merge against `captured`, so a category
     * or limit changed while the request was pending is lost; a response without
     * data changes nothing, not even the loading flag.
     */
    method ReceiveHistory(captured: seq<Site>, lastError: bool, response: Option<seq<Site>>)
      requires Persisted()
      modifies this`websiteData, this`loading, store
      ensures lastError ==> websiteData == old(websiteData) && !loading
      ensures !lastError && response.Some? ==> websiteData == Merge(captured, response.value) && !loading
      ensures !lastError && response.None? ==> websiteData == old(websiteData) && loading == old(loading)
      ensures store.items == old(store.items)[Key := Records(EncodeList(websiteData, Encode))]
      ensures Persisted()
    {
      if lastError {
        loading := false;
        return;
      }
      if response.Some? {
        websiteData := Merge(captured, response.value);
        loading := false;
        Persist();
      }
    }

    /** `resetAllData`: after the user confirms, the list is emptied. */
    method ResetAllData(confirmed: bool)
      requires Persisted()
      modifies this`websiteData, store
      ensures websiteData == if confirmed then [] else old(websiteData)
      ensures store.items == old(store.items)[Key := Records(EncodeList(websiteData, Encode))]
      ensures Persisted()
    {
      if confirmed {
        websiteData := [];
        Persist();
      }
    }
  }
}
