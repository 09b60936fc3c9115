/**
 * The bookmark panel (src/components/ModernBookmarks.tsx): a list of bookmarks
 * stored under `edge-homepage-bookmarks`, or taken from the browser's bookmark
 * tree by a depth-first walk that files each link under its folder, sorted
 * newest first; shown grouped by category.
 */
module ModernBookmarks {
  import opened Wrappers
  import opened Storage
  import opened Text
  import opened Lists
  import opened Sorting

  const Key := "edge-homepage-bookmarks"
  const BrowserFlagKey := "edge-homepage-using-browser-bookmarks"

  datatype Item = Item(id: string, name: string, url: string, category: Option<string>, dateAdded: Option<int>)

  function ItemId(b: Item): string { b.id }

  const Defaults: seq<Item> := [
    Item("google", "Google", "https://google.com", None, None),
    Item("github", "GitHub", "https://github.com", None, None),
    Item("stackoverflow", "Stack Overflow", "https://stackoverflow.com", None, None)
  ]

  function Encode(b: Item): Record {
    PutOptNum(PutOptStr(map["id" := Str(b.id), "name" := Str(b.name), "url" := Str(b.url)],
                        "category", b.category), "dateAdded", b.dateAdded)
  }

  function Decode(r: Record): Option<Item> {
    match (GetStr(r, "id"), GetStr(r, "name"), GetStr(r, "url"), GetOptStr(r, "category"), GetOptNum(r, "dateAdded"))
    case (Some(id), Some(name), Some(url), Some(category), Some(dateAdded)) => Some(Item(id, name, url, category, dateAdded))
    case _ => None
  }

  lemma DecodeEncode()
    ensures forall b :: Decode(Encode(b)) == Some(b)
  {
    forall b: Item ensures Decode(Encode(b)) == Some(b) {
      var r := Encode(b);
      assert GetStr(r, "id") == Some(b.id) && GetStr(r, "name") == Some(b.name) && GetStr(r, "url") == Some(b.url);
      assert GetOptStr(r, "category") == Some(b.category) && GetOptNum(r, "dateAdded") == Some(b.dateAdded);
    }
  }

  lemma Reload(items: map<string, Value>, bookmarks: seq<Item>)
    requires Key in items && items[Key] == Records(EncodeList(bookmarks, Encode))
    ensures LoadList(items, Key, Decode, Defaults) == bookmarks
    ensures LoadList(items - {Key}, Key, Decode, Defaults) == Defaults
  {
    DecodeEncode();
    LoadAfterSave(items, Key, bookmarks, Encode, Decode, Defaults);
    assert items[Key := Records(EncodeList(bookmarks, Encode))] == items;
  }

  // ---------------------------------------------------------------- the bookmark tree

  /**
   * A node of the browser's bookmark tree. `isFolder` says whether it carries a
   * `children` array (an empty folder has one, with no entries). An absent url
   * is the empty string (both are falsy).
   */
  datatype Node = Node(id: string, title: string, url: string, dateAdded: Option<int>, isFolder: bool, children: seq<Node>)

  /** The three top-level containers of the browser's tree. */
  predicate IsRoot(c: string) {
    c == "Bookmarks Bar" || c == "Other Bookmarks" || c == "Mobile Bookmarks"
  }

  /** A folder's category: its own title when non-empty, else the one it inherited. */
  function FolderCategory(node: Node, parent: Option<string>): (r: Option<string>)
    ensures node.title != "" ==> r == Some(node.title)
    ensures node.title == "" ==> r == parent
  {
    if node.title != "" then Some(node.title) else parent
  }

  /** A link's category: "General" under a root container, otherwise the parent's (possibly none). */
  function LinkCategory(parent: Option<string>): (r: Option<string>)
    ensures r.Some? ==> !IsRoot(r.value)
    ensures parent.Some? && IsRoot(parent.value) ==> r == Some("General")
    ensures parent.None? || !IsRoot(parent.value) ==> r == parent
  {
    if parent.Some? && IsRoot(parent.value) then Some("General") else parent
  }

  /** The category a folder adds to the extracted set, if any. */
  function Added(node: Node, parent: Option<string>): seq<string> {
    var c := FolderCategory(node, parent);
    if c.Some? && c.value != "" && !IsRoot(c.value) then [c.value] else []
  }

  function ToItem(node: Node, parent: Option<string>): Item {
    Item(node.id, node.title, node.url, LinkCategory(parent), node.dateAdded)
  }

  /** The bookmarks `processNode(node, parent)` pushes, in push order. */
  function Flatten(node: Node, parent: Option<string>): seq<Item>
    decreases node, 1
  {
    if node.isFolder then FlattenAll(node.children, FolderCategory(node, parent))
    else if node.url != "" then [ToItem(node, parent)] else []
  }

  function FlattenAll(nodes: seq<Node>, parent: Option<string>): seq<Item>
    decreases nodes, 0
  {
    if nodes == [] then [] else FlattenAll(nodes[..|nodes| - 1], parent) + Flatten(nodes[|nodes| - 1], parent)
  }

  /** The categories `processNode(node, parent)` adds to the set, in order, repeats included. */
  function Categories(node: Node, parent: Option<string>): seq<string>
    decreases node, 1
  {
    if node.isFolder then Added(node, parent) + CategoriesAll(node.children, FolderCategory(node, parent))
    else []
  }

  function CategoriesAll(nodes: seq<Node>, parent: Option<string>): seq<string>
    decreases nodes, 0
  {
    if nodes == [] then [] else CategoriesAll(nodes[..|nodes| - 1], parent) + Categories(nodes[|nodes| - 1], parent)
  }

  /** Every node of the tree in depth-first pre-order. */
  function PreOrder(node: Node): seq<Node>
    decreases node, 1
  {
    [node] + if node.isFolder then PreOrderAll(node.children) else []
  }

  function PreOrderAll(nodes: seq<Node>): seq<Node>
    decreases nodes, 0
  {
    if nodes == [] then [] else PreOrderAll(nodes[..|nodes| - 1]) + PreOrder(nodes[|nodes| - 1])
  }

  /** A node the walk turns into a bookmark: no children and a non-empty url. */
  predicate IsLink(n: Node) {
    !n.isFolder && n.url != ""
  }

  function LinkIds(nodes: seq<Node>): seq<string> {
    if nodes == [] then [] else LinkIds(nodes[..|nodes| - 1]) + (if IsLink(nodes[|nodes| - 1]) then [nodes[|nodes| - 1].id] else [])
  }

  function Ids(items: seq<Item>): seq<string> {
    if items == [] then [] else Ids(items[..|items| - 1]) + [items[|items| - 1].id]
  }

  lemma {:induction false} IdsAppend(a: seq<Item>, b: seq<Item>)
    ensures Ids(a + b) == Ids(a) + Ids(b)
    decreases |b|
  {
    if b != [] {
      assert (a + b)[..|a + b| - 1] == a + b[..|b| - 1];
      IdsAppend(a, b[..|b| - 1]);
    } else {
      assert a + b == a;
    }
  }

  lemma {:induction false} LinkIdsAppend(a: seq<Node>, b: seq<Node>)
    ensures LinkIds(a + b) == LinkIds(a) + LinkIds(b)
    decreases |b|
  {
    if b != [] {
      assert (a + b)[..|a + b| - 1] == a + b[..|b| - 1];
      LinkIdsAppend(a, b[..|b| - 1]);
    } else {
      assert a + b == a;
    }
  }

  /**
   * The walk yields one bookmark per link node, in depth-first pre-order; nodes
   * with neither children nor a url are dropped.
   */
  lemma {:induction false} FlattenIsPreOrder(node: Node, parent: Option<string>)
    ensures Ids(Flatten(node, parent)) == LinkIds(PreOrder(node))
    decreases node, 1
  {
    if node.isFolder {
      FlattenAllIsPreOrder(node.children, FolderCategory(node, parent));
      LinkIdsAppend([node], PreOrderAll(node.children));
      assert LinkIds([node]) == LinkIds([]) + [];
    } else {
      assert PreOrder(node) == [node];
      assert LinkIds([node]) == LinkIds([]) + (if IsLink(node) then [node.id] else []);
      if node.url != "" {
        assert Ids([ToItem(node, parent)]) == Ids([]) + [node.id];
      }
    }
  }

  lemma {:induction false} FlattenAllIsPreOrder(nodes: seq<Node>, parent: Option<string>)
    ensures Ids(FlattenAll(nodes, parent)) == LinkIds(PreOrderAll(nodes))
    decreases nodes, 0
  {
    if nodes != [] {
      var init := nodes[..|nodes| - 1];
      var last := nodes[|nodes| - 1];
      FlattenAllIsPreOrder(init, parent);
      FlattenIsPreOrder(last, parent);
      IdsAppend(FlattenAll(init, parent), Flatten(last, parent));
      LinkIdsAppend(PreOrderAll(init), PreOrder(last));
    }
  }

  /** No extracted category is empty or one of the root containers. */
  lemma {:induction false} CategoriesNotRoot(node: Node, parent: Option<string>)
    ensures forall c :: c in Categories(node, parent) ==> c != "" && !IsRoot(c)
    decreases node, 1
  {
    if node.isFolder {
      CategoriesAllNotRoot(node.children, FolderCategory(node, parent));
    }
  }

  lemma {:induction false} CategoriesAllNotRoot(nodes: seq<Node>, parent: Option<string>)
    ensures forall c :: c in CategoriesAll(nodes, parent) ==> c != "" && !IsRoot(c)
    decreases nodes, 0
  {
    if nodes != [] {
      CategoriesAllNotRoot(nodes[..|nodes| - 1], parent);
      CategoriesNotRoot(nodes[|nodes| - 1], parent);
    }
  }

  /** No bookmark is filed under a root container: those links become "General". */
  lemma {:induction false} ItemsNotUnderRoot(node: Node, parent: Option<string>)
    ensures forall b :: b in Flatten(node, parent) ==> b.category.None? || !IsRoot(b.category.value)
    decreases node, 1
  {
    if node.isFolder {
      ItemsAllNotUnderRoot(node.children, FolderCategory(node, parent));
    }
  }

  lemma {:induction false} ItemsAllNotUnderRoot(nodes: seq<Node>, parent: Option<string>)
    ensures forall b :: b in FlattenAll(nodes, parent) ==> b.category.None? || !IsRoot(b.category.value)
    decreases nodes, 0
  {
    if nodes != [] {
      ItemsAllNotUnderRoot(nodes[..|nodes| - 1], parent);
      ItemsNotUnderRoot(nodes[|nodes| - 1], parent);
    }
  }

  /** `Set.prototype.add` on a set kept in insertion order. */
  function SetAdd(s: seq<string>, c: string): seq<string> {
    if c in s then s else s + [c]
  }

  function SetAddAll(s: seq<string>, cs: seq<string>): seq<string>
    decreases |cs|
  {
    if cs == [] then s else SetAddAll(SetAdd(s, cs[0]), cs[1..])
  }

  predicate Distinct(s: seq<string>) {
    forall i, j :: 0 <= i < j < |s| ==> s[i] != s[j]
  }

  /** Adding to the set keeps every earlier entry and each new one exactly once. */
  lemma {:induction false} SetAddAllSpec(s: seq<string>, cs: seq<string>)
    ensures forall c :: c in SetAddAll(s, cs) <==> c in s || c in cs
    ensures Distinct(s) ==> Distinct(SetAddAll(s, cs))
    decreases |cs|
  {
    if cs != [] {
      SetAddAllSpec(SetAdd(s, cs[0]), cs[1..]);
    }
  }

  /** The categories extracted from a whole tree are distinct, non-empty and never a root container. */
  lemma ExtractedCategories(roots: seq<Node>)
    ensures var cats := SetAddAll([], CategoriesAll(roots, None));
      Distinct(cats) && forall c :: c in cats <==> c in CategoriesAll(roots, None)
    ensures forall c :: c in SetAddAll([], CategoriesAll(roots, None)) ==> c != "" && !IsRoot(c)
  {
    SetAddAllSpec([], CategoriesAll(roots, None));
    CategoriesAllNotRoot(roots, None);
  }

  /** The newest-first sort key: `dateAdded`, with absent (or 0) treated as 0. */
  function DateKey(b: Item): int {
    if b.dateAdded.Some? then b.dateAdded.value else 0
  }

  /** The sort of the extracted bookmarks. */
  function SortNewestFirst(items: seq<Item>): (r: seq<Item>)
    ensures multiset(r) == multiset(items)
    ensures SortedDesc(r, DateKey)
  {
    SortDescSorted(items, DateKey);
    SortDesc(items, DateKey)
  }

  /** When every bookmark has a date, the newest comes first and each one is after every newer one. */
  lemma NewestFirst(items: seq<Item>)
    requires forall i :: 0 <= i < |items| ==> items[i].dateAdded.Some?
    ensures var r := SortNewestFirst(items);
      forall i, j :: 0 <= i < j < |r| ==> r[i].dateAdded.Some? && r[j].dateAdded.Some? && r[i].dateAdded.value >= r[j].dateAdded.value
  {
    var r := SortNewestFirst(items);
    forall i | 0 <= i < |r| ensures r[i].dateAdded.Some? {
      assert r[i] in multiset(items);
    }
  }

  /**
   * `processNode` pushing into the outer `extractedBookmarks` array and the
   * `extractedCategories` set.
   */
  class Extraction {
    var bookmarks: seq<Item>
    var categories: seq<string>

    constructor ()
      ensures bookmarks == [] && categories == []
    {
      bookmarks := [];
      categories := [];
    }

    method ProcessNode(node: Node, parent: Option<string>)
      modifies this
      ensures bookmarks == old(bookmarks) + Flatten(node, parent)
      ensures categories == SetAddAll(old(categories), Categories(node, parent))
      decreases node, 1
    {
      if node.isFolder {
        var current := if node.title != "" then Some(node.title) else parent;
        if current.Some? && current.value != "" && !IsRoot(current.value) {
          categories := SetAdd(categories, current.value);
          assert SetAddAll(old(categories), [current.value]) == categories;
        }
        ProcessChildren(node.children, current);
        SetAddAllAppend(old(categories), Added(node, parent), CategoriesAll(node.children, current));
      } else if node.url != "" {
        var category := if parent.Some? && IsRoot(parent.value) then Some("General") else parent;
        bookmarks := bookmarks + [Item(node.id, node.title, node.url, category, node.dateAdded)];
      }
    }

    /** `children.forEach(child => processNode(child, current))` */
    method ProcessChildren(nodes: seq<Node>, parent: Option<string>)
      modifies this
      ensures bookmarks == old(bookmarks) + FlattenAll(nodes, parent)
      ensures categories == SetAddAll(old(categories), CategoriesAll(nodes, parent))
      decreases nodes, 0
    {
      var i := 0;
      ghost var flat: seq<Item> := [];
      ghost var cats: seq<string> := [];
      while i < |nodes|
        invariant 0 <= i <= |nodes|
        invariant flat == FlattenAll(nodes[..i], parent) && cats == CategoriesAll(nodes[..i], parent)
        invariant bookmarks == old(bookmarks) + flat
        invariant categories == SetAddAll(old(categories), cats)
      {
        ProcessNode(nodes[i], parent);
        PrefixStep(nodes, i, parent);
        AppendAssoc(old(bookmarks), flat, Flatten(nodes[i], parent));
        SetAddAllAppend(old(categories), cats, Categories(nodes[i], parent));
        flat := flat + Flatten(nodes[i], parent);
        cats := cats + Categories(nodes[i], parent);
        i := i + 1;
      }
      assert nodes[..i] == nodes;
    }
  }

  /** Walking one more sibling appends that sibling's bookmarks and categories. */
  lemma PrefixStep(nodes: seq<Node>, i: nat, parent: Option<string>)
    requires i < |nodes|
    ensures FlattenAll(nodes[..i + 1], parent) == FlattenAll(nodes[..i], parent) + Flatten(nodes[i], parent)
    ensures CategoriesAll(nodes[..i + 1], parent) == CategoriesAll(nodes[..i], parent) + Categories(nodes[i], parent)
  {
    assert nodes[..i + 1][..i] == nodes[..i];
  }

  lemma AppendAssoc<T>(a: seq<T>, b: seq<T>, c: seq<T>)
    ensures (a + b) + c == a + (b + c)
  {
  }

  lemma {:induction false} SetAddAllAppend(s: seq<string>, a: seq<string>, b: seq<string>)
    ensures SetAddAll(s, a + b) == SetAddAll(SetAddAll(s, a), b)
    decreases |a|
  {
    if a != [] {
      assert (a + b)[0] == a[0] && (a + b)[1..] == a[1..] + b;
      SetAddAllAppend(SetAdd(s, a[0]), a[1..], b);
    } else {
      assert a + b == b;
    }
  }

  // ---------------------------------------------------------------- grouping

  /** The group a bookmark is shown in: `bookmark.category || 'General'`. */
  function GroupOf(b: Item): string {
    if b.category.Some? && b.category.value != "" then b.category.value else "General"
  }

  /** The bookmarks of one group, in list order. */
  function InGroup(items: seq<Item>, g: string): (r: seq<Item>)
    ensures forall b :: b in r <==> b in items && GroupOf(b) == g
  {
    if items == [] then []
    else InGroup(items[..|items| - 1], g) + (if GroupOf(items[|items| - 1]) == g then [items[|items| - 1]] else [])
  }

  lemma {:induction false} InGroupEmpty(items: seq<Item>, g: string)
    requires forall k :: 0 <= k < |items| ==> GroupOf(items[k]) != g
    ensures InGroup(items, g) == []
  {
    if items != [] {
      InGroupEmpty(items[..|items| - 1], g);
    }
  }

  /** Filing one more bookmark adds it to the end of its own group only. */
  lemma InGroupStep(items: seq<Item>, i: nat, h: string)
    requires i < |items|
    ensures InGroup(items[..i + 1], h) == InGroup(items[..i], h) + (if GroupOf(items[i]) == h then [items[i]] else [])
  {
    assert items[..i + 1][..i] == items[..i];
  }

  /**
   * The names a plain object `{}` already answers through `Object.prototype`.
   * Each is truthy and has no `push`, so filing a bookmark under one throws a
   * TypeError.
   */
  predicate Inherited(name: string) {
    name == "constructor" || name == "__proto__" || name == "toString" || name == "toLocaleString" ||
    name == "valueOf" || name == "hasOwnProperty" || name == "isPrototypeOf" || name == "propertyIsEnumerable" ||
    name == "__defineGetter__" || name == "__defineSetter__" || name == "__lookupGetter__" || name == "__lookupSetter__"
  }

  /**
   * The `reduce` that builds `groupedBookmarks`, with `keys` listing the
   * groups in creation order, which is the order `Object.entries` gives for
   * names that are not array indices. `crashed` is the TypeError the reduce throws at
   * the first bookmark whose group is an inherited name.
   */
  method GroupBookmarks(items: seq<Item>) returns (groups: map<string, seq<Item>>, keys: seq<string>, crashed: bool)
    ensures crashed <==> exists i :: 0 <= i < |items| && Inherited(GroupOf(items[i]))
    ensures !crashed ==> forall g :: g in groups <==> exists i :: 0 <= i < |items| && GroupOf(items[i]) == g
    ensures !crashed ==> forall g :: g in groups ==> groups[g] == InGroup(items, g)
    ensures forall g :: g in keys <==> g in groups
    ensures forall i, j :: 0 <= i < j < |keys| ==> keys[i] != keys[j]
  {
    groups := map[];
    keys := [];
    crashed := false;
    var i := 0;
    while i < |items|
      invariant 0 <= i <= |items|
      invariant forall k :: 0 <= k < i ==> !Inherited(GroupOf(items[k]))
      invariant forall g :: g in groups <==> exists k :: 0 <= k < i && GroupOf(items[k]) == g
      invariant forall g :: g in groups ==> groups[g] == InGroup(items[..i], g)
      invariant forall g :: g in keys <==> g in groups
      invariant forall a, b :: 0 <= a < b < |keys| ==> keys[a] != keys[b]
    {
      if Inherited(GroupOf(items[i])) {
        crashed := true;
        return;
      }
      groups, keys := File(items, i, groups, keys);
      i := i + 1;
    }
    assert items[..i] == items;
  }

  /** One step of the `reduce`: bookmark `i` joins its group, which is created empty when new. */
  method File(items: seq<Item>, i: nat, groups: map<string, seq<Item>>, keys: seq<string>)
    returns (groups': map<string, seq<Item>>, keys': seq<string>)
    requires i < |items|
    requires forall g :: g in groups <==> exists k :: 0 <= k < i && GroupOf(items[k]) == g
    requires forall g :: g in groups ==> groups[g] == InGroup(items[..i], g)
    requires forall g :: g in keys <==> g in groups
    requires forall a, b :: 0 <= a < b < |keys| ==> keys[a] != keys[b]
    ensures forall g :: g in groups' <==> exists k :: 0 <= k < i + 1 && GroupOf(items[k]) == g
    ensures forall g :: g in groups' ==> groups'[g] == InGroup(items[..i + 1], g)
    ensures forall g :: g in keys' <==> g in groups'
    ensures forall a, b :: 0 <= a < b < |keys'| ==> keys'[a] != keys'[b]
  {
    groups', keys' := groups, keys;
    var g := GroupOf(items[i]);
    if g !in groups' {
      groups' := groups'[g := []];
      keys' := keys' + [g];
      InGroupEmpty(items[..i], g);
    }
    groups' := groups'[g := groups'[g] + [items[i]]];
    forall h | h in groups' ensures groups'[h] == InGroup(items[..i + 1], h) {
      InGroupStep(items, i, h);
    }
    forall h ensures h in groups' <==> exists k :: 0 <= k < i + 1 && GroupOf(items[k]) == h {
      if h in groups' && h != g {
        assert h in groups;
      }
    }
  }

  // ---------------------------------------------------------------- list edits

  /**
   * `addBookmark`: acts only when name and url are non-empty; the id is the slug
   * of the name and an empty category is stored as absent.
   */
  function Add(items: seq<Item>, name: string, url: string, category: string): (r: Option<seq<Item>>)
    ensures r.Some? <==> name != "" && url != ""
    ensures r.Some? ==> |r.value| == |items| + 1 && r.value[..|items|] == items
    ensures r.Some? ==> r.value[|items|] == Item(Slug(name), name, url, if category == "" then None else Some(category), None)
  {
    if name != "" && url != "" then
      Some(items + [Item(Slug(name), name, url, if category == "" then None else Some(category), None)])
    else None
  }

  /** `removeBookmark`: exactly the bookmarks with another id remain, in order. */
  function Remove(items: seq<Item>, id: string): (r: seq<Item>)
    ensures forall b :: b in r <==> b in items && b.id != id
  {
    Without(items, ItemId, id)
  }

  lemma RemoveKeepsOrder(a: seq<Item>, b: seq<Item>, id: string)
    ensures Remove(a + b, id) == Remove(a, id) + Remove(b, id)
  {
    WithoutAppend(a, b, ItemId, id);
  }

  // ---------------------------------------------------------------- the component

  class Panel {
    var isExpanded: bool
    var bookmarks: seq<Item>
    var categories: seq<string>
    var newName: string
    var newUrl: string
    var newCategory: string
    var error: Option<string>
    var usingBrowserBookmarks: bool
    const store: Store

    constructor (store: Store)
      ensures this.store == store && !isExpanded && categories == [] && error == None && !usingBrowserBookmarks
      ensures newName == "" && newUrl == "" && newCategory == ""
      ensures bookmarks == LoadList(store.items, Key, Decode, Defaults)
    {
      this.store := store;
      isExpanded := false;
      bookmarks := LoadList(store.items, Key, Decode, Defaults);
      categories := [];
      newName, newUrl, newCategory := "", "", "";
      error := None;
      usingBrowserBookmarks := false;
    }

    /** The prop-sync effect: an `isOpen` prop, when given, overrides the panel's own flag. */
    method SyncOpen(propIsOpen: Option<bool>)
      modifies this`isExpanded
      ensures isExpanded == if propIsOpen.Some? then propIsOpen.value else old(isExpanded)
    {
      if propIsOpen.Some? {
        isExpanded := propIsOpen.value;
      }
    }

    /**
     * The panel's close button. The closing effect then calls the page's
     * `onClose` (reported here) when the page holds the panel open by its prop.
     */
    method Close(propIsOpen: Option<bool>, hasOnClose: bool) returns (callsOnClose: bool)
      modifies this`isExpanded
      ensures !isExpanded
      ensures callsOnClose <==> hasOnClose && propIsOpen == Some(true)
    {
      isExpanded := false;
      callsOnClose := hasOnClose && propIsOpen == Some(true);
    }

    /** Whether the mount effect fetches the browser's bookmarks. */
    function ShouldUseBrowserBookmarks(): (r: bool)
      reads this, store
      ensures r <==> LookupText(store.items, BrowserFlagKey) == Some("true")
    {
      BrowserFlagKey in store.items && store.items[BrowserFlagKey] == Text("true")
    }

    /** `saveBookmarks`: the state and the stored list both take the new list. */
    method SaveBookmarks(updated: seq<Item>)
      modifies this`bookmarks, store
      ensures bookmarks == updated
      ensures store.items == old(store.items)[Key := Records(EncodeList(updated, Encode))]
    {
      bookmarks := updated;
      store.Set(Key, Records(EncodeList(updated, Encode)));
    }

    /**
     * `fetchBrowserBookmarks`, with the tree handed over by the browser (`None` when
     * the bookmarks API is missing). The extracted list is shown but not written
     * to the bookmark key; only the browser flag is stored.
     */
    method FetchBrowserBookmarks(tree: Option<seq<Node>>)
      modifies this`bookmarks, this`categories, this`usingBrowserBookmarks, this`error, store
      ensures tree.None? ==>
        bookmarks == old(bookmarks) && categories == old(categories) && !usingBrowserBookmarks &&
        error == Some("Could not access browser bookmarks. Using local bookmarks instead.") &&
        store.items == old(store.items)[BrowserFlagKey := Text("false")]
      ensures tree.Some? ==>
        bookmarks == SortNewestFirst(FlattenAll(tree.value, None)) &&
        categories == SetAddAll([], CategoriesAll(tree.value, None)) &&
        usingBrowserBookmarks && error == None &&
        store.items == old(store.items)[BrowserFlagKey := Text("true")]
    {
      error := None;
      if tree.None? {
        error := Some("Could not access browser bookmarks. Using local bookmarks instead.");
        usingBrowserBookmarks := false;
        store.Set(BrowserFlagKey, Text("false"));
        return;
      }
      var extraction := new Extraction();
      extraction.ProcessChildren(tree.value, None);
      assert extraction.bookmarks == FlattenAll(tree.value, None);
      bookmarks := SortNewestFirst(extraction.bookmarks);
      categories := extraction.categories;
      usingBrowserBookmarks := true;
      store.Set(BrowserFlagKey, Text("true"));
    }

    method AddBookmark()
      modifies this`bookmarks, this`newName, this`newUrl, this`newCategory, store
      ensures Add(old(bookmarks), old(newName), old(newUrl), old(newCategory)).None? ==>
        bookmarks == old(bookmarks) && newName == old(newName) && newUrl == old(newUrl) &&
        newCategory == old(newCategory) && store.items == old(store.items)
      ensures Add(old(bookmarks), old(newName), old(newUrl), old(newCategory)).Some? ==>
        bookmarks == Add(old(bookmarks), old(newName), old(newUrl), old(newCategory)).value &&
        newName == "" && newUrl == "" && newCategory == "" &&
        store.items == old(store.items)[Key := Records(EncodeList(bookmarks, Encode))]
    {
      var added := Add(bookmarks, newName, newUrl, newCategory);
      if added.Some? {
        SaveBookmarks(added.value);
        newName, newUrl, newCategory := "", "", "";
      }
    }

    method RemoveBookmark(id: string)
      modifies this`bookmarks, store
      ensures bookmarks == Remove(old(bookmarks), id)
      ensures store.items == old(store.items)[Key := Records(EncodeList(bookmarks, Encode))]
    {
      SaveBookmarks(Remove(bookmarks, id));
    }
  }
}
