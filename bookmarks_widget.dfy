/**
 * The simple bookmark card (src/components/BookmarksWidget.tsx): named links with
 * a scheme-completing add, persisted under `edge-homepage-bookmarks`.
 */
module BookmarksWidget {
  import opened Wrappers
  import opened Storage
  import opened Text
  import opened Lists

  const Key := "edge-homepage-bookmarks"

  datatype Bookmark = Bookmark(id: string, name: string, url: string)

  function BookmarkId(b: Bookmark): string { b.id }

  /** The list shown when nothing is stored. */
  const Defaults: seq<Bookmark> := [
    Bookmark("1", "Google", "https://google.com"),
    Bookmark("2", "GitHub", "https://github.com"),
    Bookmark("3", "Stack Overflow", "https://stackoverflow.com")
  ]

  function Encode(b: Bookmark): Record {
    map["id" := Str(b.id), "name" := Str(b.name), "url" := Str(b.url)]
  }

  function Decode(r: Record): Option<Bookmark> {
    match (GetStr(r, "id"), GetStr(r, "name"), GetStr(r, "url"))
    case (Some(id), Some(name), Some(url)) => Some(Bookmark(id, name, url))
    case _ => None
  }

  lemma DecodeEncode()
    ensures forall b :: Decode(Encode(b)) == Some(b)
  {
    forall b: Bookmark ensures Decode(Encode(b)) == Some(b) {
      var r := Encode(b);
      assert GetStr(r, "id") == Some(b.id) && GetStr(r, "name") == Some(b.name) && GetStr(r, "url") == Some(b.url);
    }
  }

  /** The first load shows the defaults when the key is absent, and after a save it shows what was saved. */
  lemma Reload(items: map<string, Value>, bookmarks: seq<Bookmark>)
    requires Key in items && items[Key] == Records(EncodeList(bookmarks, Encode))
    ensures LoadList(items, Key, Decode, Defaults) == bookmarks
    ensures LoadList(items - {Key}, Key, Decode, Defaults) == Defaults
  {
    DecodeEncode();
    LoadAfterSave(items, Key, bookmarks, Encode, Decode, Defaults);
    assert items[Key := Records(EncodeList(bookmarks, Encode))] == items;
  }

  /** The stored url: the trimmed url if it starts with "http", else "https://" in front of it. */
  function NormalizeUrl(url: string): (r: string)
    ensures StartsWith(r, "http")
    ensures StartsWith(Trim(url), "http") ==> r == Trim(url)
    ensures !StartsWith(Trim(url), "http") ==> r == "https://" + Trim(url)
  {
    var t := Trim(url);
    if StartsWith(t, "http") then t else "https://" + t
  }

  /** A string with no whitespace at either end is its own trim. */
  lemma TrimmedFixed(s: string)
    requires s != [] && !IsWhitespace(s[0]) && !IsWhitespace(s[|s| - 1])
    ensures Trim(s) == s
  {
    assert TrimStart(s) == s;
  }

  /** Normalising a stored url again changes nothing. */
  lemma NormalizeIdempotent(url: string)
    ensures NormalizeUrl(NormalizeUrl(url)) == NormalizeUrl(url)
  {
    var t := Trim(url);
    var n := NormalizeUrl(url);
    TrimIsSlice(url);
    if StartsWith(t, "http") {
      TrimIdempotent(url);
    } else {
      assert n[0] == 'h';
      assert n[|n| - 1] == if t == [] then '/' else t[|t| - 1];
      TrimmedFixed(n);
    }
  }

  /**
   * `addBookmark`: acts only when the trimmed name and the trimmed url are both
   * non-empty, and then appends one bookmark with the trimmed name and the
   * normalised url. `None` means nothing happens.
   */
  function Add(bookmarks: seq<Bookmark>, name: string, url: string, now: nat): (r: Option<seq<Bookmark>>)
    ensures r.Some? <==> !AllWhitespace(name) && !AllWhitespace(url)
    ensures r.Some? ==> r.value == bookmarks + [Bookmark(NatToString(now), Trim(name), NormalizeUrl(url))]
  {
    TrimEmptyIffBlank(name);
    TrimEmptyIffBlank(url);
    if Trim(name) != "" && Trim(url) != "" then
      Some(bookmarks + [Bookmark(NatToString(now), Trim(name), NormalizeUrl(url))])
    else None
  }

  /** `deleteBookmark`: exactly the bookmarks with another id remain, in order. */
  function Delete(bookmarks: seq<Bookmark>, id: string): (r: seq<Bookmark>)
    ensures forall b :: b in r <==> b in bookmarks && b.id != id
  {
    Without(bookmarks, BookmarkId, id)
  }

  lemma DeleteKeepsOrder(a: seq<Bookmark>, b: seq<Bookmark>, id: string)
    ensures Delete(a + b, id) == Delete(a, id) + Delete(b, id)
  {
    WithoutAppend(a, b, BookmarkId, id);
  }

  class Widget {
    var bookmarks: seq<Bookmark>
    var newName: string
    var newUrl: string
    var isAdding: bool
    const store: Store

    ghost predicate Persisted()
      reads this, store
    {
      store.items == store.items[Key := Records(EncodeList(bookmarks, Encode))]
    }

    /** Mount: the stored list, or the defaults when nothing is stored; the save effect writes it. */
    constructor (store: Store)
      modifies store
      ensures this.store == store && newName == "" && newUrl == "" && !isAdding
      ensures bookmarks == LoadList(old(store.items), Key, Decode, Defaults)
      ensures store.items == old(store.items)[Key := Records(EncodeList(bookmarks, Encode))]
      ensures Persisted()
    {
      this.store := store;
      bookmarks := LoadList(store.items, Key, Decode, Defaults);
      newName := "";
      newUrl := "";
      isAdding := false;
      new;
      store.Set(Key, Records(EncodeList(bookmarks, Encode)));
    }

    method AddBookmark(now: nat)
      requires Persisted()
      modifies this`bookmarks, this`newName, this`newUrl, this`isAdding, store
      ensures var added := Add(old(bookmarks), old(newName), old(newUrl), now);
        (added.None? ==> bookmarks == old(bookmarks) && newName == old(newName) && newUrl == old(newUrl) && isAdding == old(isAdding)) &&
        (added.Some? ==> bookmarks == added.value && newName == "" && newUrl == "" && !isAdding)
      ensures store.items == old(store.items)[Key := Records(EncodeList(bookmarks, Encode))]
      ensures Persisted()
    {
      var added := Add(bookmarks, newName, newUrl, now);
      if added.None? {
        return;
      }
      bookmarks := added.value;
      newName := "";
      newUrl := "";
      isAdding := false;
      store.Set(Key, Records(EncodeList(bookmarks, Encode)));
    }

    method DeleteBookmark(id: string)
      requires Persisted()
      modifies this`bookmarks, store
      ensures bookmarks == Delete(old(bookmarks), id)
      ensures store.items == old(store.items)[Key := Records(EncodeList(bookmarks, Encode))]
      ensures Persisted()
    {
      bookmarks := Delete(bookmarks, id);
      store.Set(Key, Records(EncodeList(bookmarks, Encode)));
    }
  }
}
