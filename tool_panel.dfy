/**
 * One dock tool panel (src/components/CustomizableToolPanel.tsx): a per-category
 * list of links, stored under `edge-homepage-<category>-tools`, and an expand flag
 * stepped by the `expandPanel` event.
 */
module ToolPanel {
  import opened Wrappers
  import opened Storage
  import opened Text
  import opened Lists
  import opened Events

  datatype Tool = Tool(id: string, name: string, url: string, category: string)

  function ToolId(t: Tool): string { t.id }

  /** `edge-homepage-${category}-tools` */
  function Key(category: string): string {
    "edge-homepage-" + category + "-tools"
  }

  /** Each category has its own key, so saving one panel never touches another's list. */
  lemma KeyInjective(c1: string, c2: string)
    ensures Key(c1) == Key(c2) ==> c1 == c2
  {
    if Key(c1) == Key(c2) {
      var p := "edge-homepage-";
      assert |c1| == |c2|;
      assert c1 == Key(c1)[|p|..|p| + |c1|];
      assert c2 == Key(c2)[|p|..|p| + |c2|];
    }
  }

  function ToolsOf(category: string, entries: seq<(string, string, string)>): seq<Tool> {
    if entries == [] then []
    else [Tool(entries[0].0, entries[0].1, entries[0].2, category)] + ToolsOf(category, entries[1..])
  }

  /** `defaultTools[category] || []` */
  function Defaults(category: string): seq<Tool> {
    if category == "ai" then ToolsOf("ai", [
      ("chatgpt", "ChatGPT", "https://chat.openai.com"),
      ("claude", "Claude", "https://claude.ai"),
      ("gemini", "Gemini", "https://gemini.google.com"),
      ("copilot", "Copilot", "https://copilot.microsoft.com"),
      ("midjourney", "Midjourney", "https://www.midjourney.com")])
    else if category == "google" then ToolsOf("google", [
      ("gmail", "Gmail", "https://mail.google.com"),
      ("gdrive", "Drive", "https://drive.google.com"),
      ("gcalendar", "Calendar", "https://calendar.google.com"),
      ("gphotos", "Photos", "https://photos.google.com"),
      ("gmaps", "Maps", "https://maps.google.com"),
      ("gyoutube", "YouTube", "https://youtube.com")])
    else if category == "microsoft" then ToolsOf("microsoft", [
      ("outlook", "Outlook", "https://outlook.office.com"),
      ("onedrive", "OneDrive", "https://onedrive.live.com"),
      ("office", "Office", "https://www.office.com"),
      ("teams", "Teams", "https://teams.microsoft.com"),
      ("todo", "To Do", "https://to-do.office.com"),
      ("edge", "Edge", "https://www.microsoft.com/edge")])
    else if category == "social" then ToolsOf("social", [
      ("x", "X", "https://x.com"),
      ("facebook", "Facebook", "https://facebook.com"),
      ("instagram", "Instagram", "https://instagram.com"),
      ("linkedin", "LinkedIn", "https://linkedin.com"),
      ("reddit", "Reddit", "https://reddit.com"),
      ("discord", "Discord", "https://discord.com/app")])
    else []
  }

  /** Every default tool belongs to the panel it is shown in. */
  lemma {:induction false} ToolsOfCategory(category: string, entries: seq<(string, string, string)>)
    ensures |ToolsOf(category, entries)| == |entries|
    ensures forall t :: t in ToolsOf(category, entries) ==> t.category == category
  {
    if entries != [] {
      ToolsOfCategory(category, entries[1..]);
    }
  }

  function Encode(t: Tool): Record {
    map["id" := Str(t.id), "name" := Str(t.name), "url" := Str(t.url), "category" := Str(t.category)]
  }

  function Decode(r: Record): Option<Tool> {
    match (GetStr(r, "id"), GetStr(r, "name"), GetStr(r, "url"), GetStr(r, "category"))
    case (Some(id), Some(name), Some(url), Some(category)) => Some(Tool(id, name, url, category))
    case _ => None
  }

  lemma DecodeEncode()
    ensures forall t :: Decode(Encode(t)) == Some(t)
  {
    forall t: Tool ensures Decode(Encode(t)) == Some(t) {
      var r := Encode(t);
      assert GetStr(r, "id") == Some(t.id) && GetStr(r, "name") == Some(t.name);
      assert GetStr(r, "url") == Some(t.url) && GetStr(r, "category") == Some(t.category);
    }
  }

  /** A saved list is what the panel shows on the next load; with nothing saved it shows its defaults. */
  lemma Reload(items: map<string, Value>, category: string, tools: seq<Tool>)
    requires Key(category) in items && items[Key(category)] == Records(EncodeList(tools, Encode))
    ensures LoadList(items, Key(category), Decode, Defaults(category)) == tools
    ensures LoadList(items - {Key(category)}, Key(category), Decode, Defaults(category)) == Defaults(category)
  {
    DecodeEncode();
    LoadAfterSave(items, Key(category), tools, Encode, Decode, Defaults(category));
    assert items[Key(category) := Records(EncodeList(tools, Encode))] == items;
  }

  /**
   * `addTool`: acts only when name and url are non-empty (untrimmed); the new
   * tool's id is the slug of the name and its category is the panel's own.
   */
  function Add(tools: seq<Tool>, name: string, url: string, category: string): (r: Option<seq<Tool>>)
    ensures r.Some? <==> name != "" && url != ""
    ensures r.Some? ==> |r.value| == |tools| + 1 && r.value[..|tools|] == tools
    ensures r.Some? ==> r.value[|tools|] == Tool(Slug(name), name, url, category)
  {
    if name != "" && url != "" then Some(tools + [Tool(Slug(name), name, url, category)]) else None
  }

  /** `removeTool`: exactly the tools with another id remain, in order. */
  function Remove(tools: seq<Tool>, id: string): (r: seq<Tool>)
    ensures forall t :: t in r <==> t in tools && t.id != id
  {
    Without(tools, ToolId, id)
  }

  /** Adding keeps the panel's list to its own category when it started that way. */
  lemma AddKeepsCategory(tools: seq<Tool>, name: string, url: string, category: string)
    requires forall t :: t in tools ==> t.category == category
    requires Add(tools, name, url, category).Some?
    ensures forall t :: t in Add(tools, name, url, category).value ==> t.category == category
  {
    var r := Add(tools, name, url, category).value;
    forall t | t in r ensures t.category == category {
      var i :| 0 <= i < |r| && r[i] == t;
      if i < |tools| { assert r[i] == tools[i]; }
    }
  }

  /**
   * The `expandPanel` handler: the own category flips the flag, every other
   * category ('none' included) closes the panel.
   */
  function ExpandedAfter(own: string, expanded: bool, category: string): (r: bool)
    ensures r ==> category == own
    ensures category == own ==> r != expanded
  {
    if category == own then !expanded else false
  }

  class Panel {
    const category: string
    const position: string
    var isExpanded: bool
    var tools: seq<Tool>
    var newName: string
    var newUrl: string
    const store: Store

    /** Mount: closed, the stored list for the category or its defaults; nothing is written. */
    constructor (category: string, position: string, store: Store)
      ensures this.category == category && this.position == position && this.store == store
      ensures !isExpanded && newName == "" && newUrl == ""
      ensures tools == LoadList(store.items, Key(category), Decode, Defaults(category))
    {
      this.category := category;
      this.position := position;
      this.store := store;
      isExpanded := false;
      tools := LoadList(store.items, Key(category), Decode, Defaults(category));
      newName := "";
      newUrl := "";
    }

    /**
     * The `expandPanel` handler. Becoming expanded triggers the effect that
     * publishes `tool-panel-expanded` with the panel's category and position;
     * that publication is returned.
     */
    method HandlePanelExpand(c: string) returns (published: Option<Event>)
      modifies this`isExpanded
      ensures isExpanded == ExpandedAfter(category, old(isExpanded), c)
      ensures published == if isExpanded && !old(isExpanded) then Some(ToolPanelExpanded(category, position)) else None
    {
      var was := isExpanded;
      if c == category {
        isExpanded := !isExpanded;
      } else if c == "none" {
        isExpanded := false;
      } else {
        isExpanded := false;
      }
      published := if isExpanded && !was then Some(ToolPanelExpanded(category, position)) else None;
    }

    /** The panel's own button flips the flag without any event to the other panels. */
    method ToggleButton() returns (published: Option<Event>)
      modifies this`isExpanded
      ensures isExpanded == !old(isExpanded)
      ensures published == if isExpanded then Some(ToolPanelExpanded(category, position)) else None
    {
      isExpanded := !isExpanded;
      published := if isExpanded then Some(ToolPanelExpanded(category, position)) else None;
    }

    /** `saveTools`: the state and the category's key take the new list; no other key changes. */
    method SaveTools(updated: seq<Tool>)
      modifies this`tools, store
      ensures tools == updated
      ensures store.items == old(store.items)[Key(category) := Records(EncodeList(updated, Encode))]
    {
      tools := updated;
      store.Set(Key(category), Records(EncodeList(updated, Encode)));
    }

    method AddTool()
      modifies this`tools, this`newName, this`newUrl, store
      ensures Add(old(tools), old(newName), old(newUrl), category).None? ==>
                tools == old(tools) && newName == old(newName) && newUrl == old(newUrl) && store.items == old(store.items)
      ensures Add(old(tools), old(newName), old(newUrl), category).Some? ==>
                tools == Add(old(tools), old(newName), old(newUrl), category).value && newName == "" && newUrl == "" &&
                store.items == old(store.items)[Key(category) := Records(EncodeList(tools, Encode))]
    {
      if newName != "" && newUrl != "" {
        var id := Slug(newName);
        SaveTools(tools + [Tool(id, newName, newUrl, category)]);
        newName := "";
        newUrl := "";
      }
    }

    method RemoveTool(id: string)
      modifies this`tools, store
      ensures tools == Remove(old(tools), id)
      ensures store.items == old(store.items)[Key(category) := Records(EncodeList(tools, Encode))]
    {
      SaveTools(Remove(tools, id));
    }
  }
}
