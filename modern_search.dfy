/**
 * The search box (src/components/ModernSearch.tsx): a user-editable list of search
 * engines stored under `edge-homepage-search-engines`; a search opens the engine's
 * url followed by the percent-encoded trimmed query.
 */
module ModernSearch {
  import opened Wrappers
  import opened Storage
  import opened Text
  import opened Lists
  import Percent

  const Key := "edge-homepage-search-engines"
  const DefaultColor := "from-gray-500 to-gray-700"

  datatype Engine = Engine(id: string, name: string, url: string, shortcut: string, color: string)

  function EngineId(e: Engine): string { e.id }

  const Defaults: seq<Engine> := [
    Engine("google", "Google", "https://www.google.com/search?q=", "G", "from-blue-500 to-green-500"),
    Engine("bing", "Bing", "https://www.bing.com/search?q=", "B", "from-blue-500 to-cyan-500"),
    Engine("duckduckgo", "DuckDuckGo", "https://duckduckgo.com/?q=", "D", "from-orange-500 to-red-500")
  ]

  /** The add-engine form. */
  datatype Form = Form(name: string, url: string, shortcut: string, color: string)

  const BlankForm := Form("", "", "", DefaultColor)

  function Encode(e: Engine): Record {
    map["id" := Str(e.id), "name" := Str(e.name), "url" := Str(e.url),
        "shortcut" := Str(e.shortcut), "color" := Str(e.color)]
  }

  function Decode(r: Record): Option<Engine> {
    match (GetStr(r, "id"), GetStr(r, "name"), GetStr(r, "url"), GetStr(r, "shortcut"), GetStr(r, "color"))
    case (Some(id), Some(name), Some(url), Some(shortcut), Some(color)) => Some(Engine(id, name, url, shortcut, color))
    case _ => None
  }

  lemma DecodeEncode()
    ensures forall e :: Decode(Encode(e)) == Some(e)
  {
    forall e: Engine ensures Decode(Encode(e)) == Some(e) {
      var r := Encode(e);
      assert GetStr(r, "id") == Some(e.id) && GetStr(r, "name") == Some(e.name) && GetStr(r, "url") == Some(e.url);
      assert GetStr(r, "shortcut") == Some(e.shortcut) && GetStr(r, "color") == Some(e.color);
    }
  }

  lemma Reload(items: map<string, Value>, engines: seq<Engine>)
    requires Key in items && items[Key] == Records(EncodeList(engines, Encode))
    ensures LoadList(items, Key, Decode, Defaults) == engines
    ensures LoadList(items - {Key}, Key, Decode, Defaults) == Defaults
  {
    DecodeEncode();
    LoadAfterSave(items, Key, engines, Encode, Decode, Defaults);
    assert items[Key := Records(EncodeList(engines, Encode))] == items;
  }

  /**
   * `handleSearch(engineUrl)`: nothing for a blank query, otherwise the url to open.
   * The query part of that url reads back as the trimmed query and holds no
   * delimiter that would cut it short.
   */
  function SearchUrl(engineUrl: string, query: string): (r: Option<string>)
    ensures r.None? <==> AllWhitespace(query)
    ensures r.Some? ==> |r.value| >= |engineUrl| && r.value[..|engineUrl|] == engineUrl
    ensures r.Some? ==> Percent.Decode(r.value[|engineUrl|..]) == Ok(Trim(query))
    ensures r.Some? ==> forall i :: |engineUrl| <= i < |r.value| ==> r.value[i] != '&' && r.value[i] != '#'
  {
    TrimEmptyIffBlank(query);
    if Trim(query) == "" then None
    else
      var q := Percent.Encode(Trim(query));
      Percent.DecodeEncode(Trim(query));
      Percent.EncodeHasNoDelimiters(Trim(query));
      assert (engineUrl + q)[|engineUrl|..] == q;
      Some(engineUrl + q)
  }

  /** The shortcut field keeps at most the first character, upper-cased. */
  function ShortcutInput(v: string): (r: string)
    ensures |r| == if v == "" then 0 else 1
    ensures v != "" ==> r[0] == UpperChar(v[0])
  {
    ToUpper(if |v| < 1 then v else v[..1])
  }

  /** Typing into the shortcut field again keeps it as it is. */
  lemma ShortcutStable(v: string)
    ensures ShortcutInput(ShortcutInput(v)) == ShortcutInput(v)
  {
    if v != "" {
      var c := UpperChar(v[0]);
      assert UpperChar(c) == c;
    }
  }

  /**
   * `addSearchEngine`: acts only when name, url and shortcut are all non-empty;
   * the new engine takes the form's fields and the slug of its name as id.
   */
  function Add(engines: seq<Engine>, form: Form): (r: Option<seq<Engine>>)
    ensures r.Some? <==> form.name != "" && form.url != "" && form.shortcut != ""
    ensures r.Some? ==> |r.value| == |engines| + 1 && r.value[..|engines|] == engines
    ensures r.Some? ==> r.value[|engines|] == Engine(Slug(form.name), form.name, form.url, form.shortcut, form.color)
  {
    if form.name != "" && form.url != "" && form.shortcut != "" then
      Some(engines + [Engine(Slug(form.name), form.name, form.url, form.shortcut, form.color)])
    else None
  }

  /** `removeSearchEngine`: exactly the engines with another id remain, in order. */
  function Remove(engines: seq<Engine>, id: string): (r: seq<Engine>)
    ensures forall e :: e in r <==> e in engines && e.id != id
  {
    Without(engines, EngineId, id)
  }

  /** An engine just added can be removed again by the id it was given, when no other engine had that id. */
  lemma RemoveUndoesAdd(engines: seq<Engine>, form: Form)
    requires Add(engines, form).Some?
    requires forall i :: 0 <= i < |engines| ==> engines[i].id != Slug(form.name)
    ensures Remove(Add(engines, form).value, Slug(form.name)) == engines
  {
    var e := Engine(Slug(form.name), form.name, form.url, form.shortcut, form.color);
    assert Add(engines, form).value == engines + [e];
    WithoutAppendedLast(engines, e, EngineId);
    WithoutAbsent(engines, EngineId, Slug(form.name));
  }

  /** What pressing Enter leads to. */
  datatype EnterOutcome = Opened(url: string) | NothingOpened | TypeError

  class Search {
    var query: string
    var engines: seq<Engine>
    var form: Form
    const store: Store

    constructor (store: Store)
      ensures this.store == store && query == "" && form == BlankForm
      ensures engines == LoadList(store.items, Key, Decode, Defaults)
    {
      this.store := store;
      query := "";
      engines := LoadList(store.items, Key, Decode, Defaults);
      form := BlankForm;
    }

    /** `handleSearch`: returns the url given to `window.open`, if any, and clears the query after a search. */
    method HandleSearch(engineUrl: string) returns (target: Option<string>)
      modifies this`query
      ensures target == SearchUrl(engineUrl, old(query))
      ensures query == if target.Some? then "" else old(query)
    {
      target := SearchUrl(engineUrl, query);
      if target.Some? {
        query := "";
      }
    }

    /** Enter searches with the first engine; with no engine left, reading its url throws. */
    method PressEnter() returns (outcome: EnterOutcome)
      modifies this`query
      ensures engines == [] ==> outcome == TypeError && query == old(query)
      ensures engines != [] ==> match SearchUrl(engines[0].url, old(query))
        case Some(u) => outcome == Opened(u) && query == ""
        case None => outcome == NothingOpened && query == old(query)
    {
      if engines == [] {
        outcome := TypeError;
      } else {
        var target := HandleSearch(engines[0].url);
        outcome := if target.Some? then Opened(target.value) else NothingOpened;
      }
    }

    method TypeShortcut(v: string)
      modifies this`form
      ensures form == old(form).(shortcut := ShortcutInput(v))
    {
      form := form.(shortcut := ShortcutInput(v));
    }

    method AddSearchEngine()
      modifies this`engines, this`form, store
      ensures Add(old(engines), old(form)).None? ==>
                engines == old(engines) && form == old(form) && store.items == old(store.items)
      ensures Add(old(engines), old(form)).Some? ==>
                engines == Add(old(engines), old(form)).value && form == BlankForm &&
                store.items == old(store.items)[Key := Records(EncodeList(engines, Encode))]
    {
      var added := Add(engines, form);
      if added.Some? {
        engines := added.value;
        store.Set(Key, Records(EncodeList(engines, Encode)));
        form := BlankForm;
      }
    }

    method RemoveSearchEngine(id: string)
      modifies this`engines, store
      ensures engines == Remove(old(engines), id)
      ensures store.items == old(store.items)[Key := Records(EncodeList(engines, Encode))]
    {
      engines := Remove(engines, id);
      store.Set(Key, Records(EncodeList(engines, Encode)));
    }
  }
}
