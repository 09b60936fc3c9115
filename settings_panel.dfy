/**
 * The settings dialog (src/components/SettingsPanel.tsx): the display name
 * and the compact-layout switch, each kept under its own key.
 */
module SettingsPanel {
  import opened Wrappers
  import opened Storage
  import opened Events

  const UserNameKey := "edge-homepage-username"
  const CompactKey := "edge-homepage-compact"

  /** `String(b)` of a boolean. */
  function BoolText(b: bool): string {
    if b then "true" else "false"
  }

  /** The compact flag read at mount: only the exact text "true" switches it on. */
  function InitialCompact(items: map<string, Value>): (r: bool)
    ensures r <==> LookupText(items, CompactKey) == Some("true")
  {
    LookupText(items, CompactKey) == Some("true")
  }

  /** What the dialog shows: nothing while closed. */
  datatype View = View(userName: string, compactMode: bool)

  function Render(isOpen: bool, userName: string, compactMode: bool): (r: Option<View>)
    ensures r.None? <==> !isOpen
    ensures r.Some? ==> r.value == View(userName, compactMode)
  {
    if isOpen then Some(View(userName, compactMode)) else None
  }

  /** What the switch stores reads back as the flag that was set. */
  lemma CompactReadsBack(items: map<string, Value>, enabled: bool)
    ensures InitialCompact(items[CompactKey := Text(BoolText(enabled))]) == enabled
  {
  }

  class Panel {
    var userName: string
    var compactMode: bool
    const store: Store

    constructor (store: Store)
      ensures this.store == store
      ensures userName == TextOr(store.items, UserNameKey, "User") && compactMode == InitialCompact(store.items)
    {
      this.store := store;
      userName := TextOr(store.items, UserNameKey, "User");
      compactMode := InitialCompact(store.items);
    }

    method EditUserName(text: string)
      modifies this`userName
      ensures userName == text
    {
      userName := text;
    }

    /**
     * `saveUserName`: writes the name under its key and nothing else; no
     * `userNameChanged` event is published, so the open page and clock keep
     * their names until the next load.
     */
    method SaveUserName() returns (published: seq<Event>)
      modifies store
      ensures store.items == old(store.items)[UserNameKey := Text(userName)]
      ensures published == []
    {
      store.Set(UserNameKey, Text(userName));
      published := [];
    }

    method ToggleCompactMode(enabled: bool)
      modifies this`compactMode, store
      ensures compactMode == enabled
      ensures store.items == old(store.items)[CompactKey := Text(BoolText(enabled))]
      ensures InitialCompact(store.items) == compactMode
    {
      compactMode := enabled;
      store.Set(CompactKey, Text(BoolText(enabled)));
    }
  }
}
