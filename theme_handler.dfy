/**
 * The theme handler run on `DOMContentLoaded`: it reads the `theme` query
 * parameter, stores it, applies the matching colours to the document's
 * custom properties, publishes `themeChanged`, and strips the query from the
 * address bar.
 */
module ThemeHandler {
  import opened Wrappers
  import opened Storage
  import opened Events
  import Text
  import Percent
  import NewIndex

  const ThemeKey := "edge-homepage-theme"

  /** At `i` the query holds a '?' or '&' followed by `name=`: where `[?&]name=` matches. */
  predicate MatchAt(q: string, name: string, i: nat) {
    i < |q| && (q[i] == '?' || q[i] == '&') && Text.OccursAt(q, name + "=", i + 1)
  }

  /** The leftmost match at or after `from`, which is the one `RegExp.prototype.exec` reports. */
  function FirstMatch(q: string, name: string, from: nat): (r: Option<nat>)
    requires from <= |q|
    ensures r.Some? ==> from <= r.value && MatchAt(q, name, r.value)
    ensures r.Some? ==> forall i: nat :: from <= i < r.value ==> !MatchAt(q, name, i)
    ensures r.None? ==> forall i: nat :: from <= i ==> !MatchAt(q, name, i)
    decreases |q| - from
  {
    if from == |q| then None
    else if MatchAt(q, name, from) then Some(from)
    else FirstMatch(q, name, from + 1)
  }

  /** The capture group `([^&#]*)` from `start`: the longest run without '&' or '#'. */
  function ValueRun(q: string, start: nat): (r: string)
    requires start <= |q|
    ensures start + |r| <= |q| && r == q[start..start + |r|]
    ensures forall k :: 0 <= k < |r| ==> r[k] != '&' && r[k] != '#'
    ensures start + |r| == |q| || q[start + |r|] == '&' || q[start + |r|] == '#'
    decreases |q| - start
  {
    if start == |q| || q[start] == '&' || q[start] == '#' then ""
    else [q[start]] + ValueRun(q, start + 1)
  }

  /** `s.replace(/\+/g, ' ')` */
  function PlusToSpace(s: string): (r: string)
    ensures |r| == |s|
    ensures forall k :: 0 <= k < |s| ==> r[k] == if s[k] == '+' then ' ' else s[k]
  {
    if s == [] then [] else [if s[0] == '+' then ' ' else s[0]] + PlusToSpace(s[1..])
  }

  /**
   * `getUrlParameter(name)` on the query string `search`: '' when nothing
   * matches, otherwise the first match's value with '+' read as a space and
   * percent-decoded; a malformed escape is the URIError `decodeURIComponent`
   * throws.
   */
  function GetUrlParameter(search: string, name: string): (r: Result<string, Percent.DecodeError>)
    ensures (forall i: nat :: !MatchAt(search, name, i)) ==> r == Ok("")
  {
    match FirstMatch(search, name, 0)
    case None => Ok("")
    case Some(i) => Percent.Decode(PlusToSpace(ValueRun(search, i + 1 + |name| + 1)))
  }

  /** The value run of a text that holds `v` and then ends or reaches a delimiter is `v`. */
  lemma {:induction false} ValueRunOf(q: string, start: nat, v: string)
    requires start + |v| <= |q| && q[start..start + |v|] == v
    requires forall k :: 0 <= k < |v| ==> v[k] != '&' && v[k] != '#'
    requires start + |v| == |q| || q[start + |v|] == '&' || q[start + |v|] == '#'
    ensures ValueRun(q, start) == v
    decreases |v|
  {
    if v != [] {
      assert q[start] == v[0];
      ValueRunOf(q, start + 1, v[1..]);
    }
  }

  /** A text with no '+' is left as it is. */
  lemma PlusFree(s: string)
    requires forall k :: 0 <= k < |s| ==> s[k] != '+'
    ensures PlusToSpace(s) == s
  {
  }

  /**
   * A query that starts with `?name=v`, `v` free of '&' and '#', yields `v`
   * read through the decoder, whatever parameters follow it, including
   * another `name=`: only the first match counts.
   */
  lemma ParameterOf(name: string, v: string, rest: string)
    requires forall k :: 0 <= k < |v| ==> v[k] != '&' && v[k] != '#'
    requires rest == [] || rest[0] == '&' || rest[0] == '#'
    ensures GetUrlParameter("?" + name + "=" + v + rest, name) == Percent.Decode(PlusToSpace(v))
  {
    var q := "?" + name + "=" + v + rest;
    var start := |name| + 2;
    MatchesAtStart(name, v + rest);
    assert q == "?" + name + "=" + (v + rest);
    assert q[start..] == v + rest;
    assert q[start..start + |v|] == v;
    ValueRunOf(q, start, v);
    assert GetUrlParameter(q, name) == Percent.Decode(PlusToSpace(ValueRun(q, start)));
  }

  /** A percent-encoded value sent as the first parameter comes back as it was sent. */
  lemma EncodedParameter(name: string, t: string)
    ensures GetUrlParameter("?" + name + "=" + Percent.Encode(t), name) == Ok(t)
  {
    var e := Percent.Encode(t);
    Percent.EncodeHasNoDelimiters(t);
    ParameterOf(name, e, "");
    assert "?" + name + "=" + e + "" == "?" + name + "=" + e;
    PlusFree(e);
    Percent.DecodeEncode(t);
  }

  /** A query that opens with `?name=` matches at its first character. */
  lemma MatchesAtStart(name: string, tail: string)
    ensures FirstMatch("?" + name + "=" + tail, name, 0) == Some(0)
  {
    var q := "?" + name + "=" + tail;
    assert q[1..1 + |name + "="|] == name + "=";
    assert MatchAt(q, name, 0);
  }

  /** The colours behind the six theme names the page offers. */
  function ColorTheme(name: string): Option<(string, string)> {
    match name
    case "Green" => Some(("142 86% 28%", "142 76% 36%"))
    case "Blue" => Some(("217 91% 60%", "217 81% 70%"))
    case "Purple" => Some(("262 83% 58%", "262 73% 68%"))
    case "Orange" => Some(("25 95% 53%", "25 85% 63%"))
    case "Pink" => Some(("330 81% 60%", "330 71% 70%"))
    case "Red" => Some(("0 84% 60%", "0 74% 70%"))
    case _ => None
  }

  /** The applied theme: the named colours, or Blue's for any other name; the detail carries no name. */
  function Applied(param: string): (t: Theme)
    ensures t.name == None
    ensures ColorTheme(param).Some? ==> (t.primary, t.accent) == ColorTheme(param).value
    ensures ColorTheme(param).None? ==> (t.primary, t.accent) == ColorTheme("Blue").value
  {
    var (primary, accent) := match ColorTheme(param) case Some(c) => c case None => ("217 91% 60%", "217 81% 70%");
    Theme(None, primary, accent)
  }

  /** Since the published theme has no name, the dashboard page switches to light mode for every theme name. */
  lemma UrlThemeMakesPageLight(param: string)
    ensures NewIndex.ThemeModeFor(Applied(param)) == "light"
  {
    NewIndex.UnnamedThemeIsLight(Applied(param).primary, Applied(param).accent);
  }

  /** The four custom properties set to the theme's primary colour. */
  function Styled(style: map<string, string>, primary: string): (r: map<string, string>)
    ensures r.Keys == style.Keys + {"--primary", "--ring", "--sidebar-primary", "--sidebar-ring"}
    ensures r["--primary"] == primary && r["--ring"] == primary
    ensures r["--sidebar-primary"] == primary && r["--sidebar-ring"] == primary
    ensures forall k :: k in style && k !in {"--primary", "--ring", "--sidebar-primary", "--sidebar-ring"} ==> r[k] == style[k]
  {
    style["--primary" := primary]["--ring" := primary]["--sidebar-primary" := primary]["--sidebar-ring" := primary]
  }

  /** The document the handler runs in: its address bar's query and its root custom properties. */
  class Document {
    var search: string
    var style: map<string, string>
    const store: Store

    constructor (search: string, store: Store)
      ensures this.search == search && style == map[] && this.store == store
    {
      this.search := search;
      style := map[];
      this.store := store;
    }

    /**
     * The `DOMContentLoaded` handler. A decoding error is thrown before any
     * effect; an empty parameter does nothing; otherwise the raw parameter
     * is stored, the colours applied, `themeChanged` published and the query
     * removed from the address.
     */
    method ContentLoaded() returns (r: Result<Option<Event>, Percent.DecodeError>)
      modifies this`search, this`style, store
      ensures GetUrlParameter(old(search), "theme").Err? ==>
        r == Err(GetUrlParameter(old(search), "theme").error) &&
        search == old(search) && style == old(style) && store.items == old(store.items)
      ensures GetUrlParameter(old(search), "theme") == Ok("") ==>
        r == Ok(None) && search == old(search) && style == old(style) && store.items == old(store.items)
      ensures GetUrlParameter(old(search), "theme").Ok? && GetUrlParameter(old(search), "theme").value != "" ==>
        var p := GetUrlParameter(old(search), "theme").value;
        r == Ok(Some(ThemeChanged(Applied(p)))) &&
        store.items == old(store.items)[ThemeKey := Text(p)] &&
        style == Styled(old(style), Applied(p).primary) &&
        search == ""
      ensures r.Ok? && r.value.Some? ==> GetUrlParameter(search, "theme") == Ok("")
    {
      var param := GetUrlParameter(search, "theme");
      if param.Err? {
        return Err(param.error);
      }
      if param.value == "" {
        return Ok(None);
      }
      store.items := store.items[ThemeKey := Text(param.value)];
      var theme := Applied(param.value);
      style := Styled(style, theme.primary);
      r := Ok(Some(ThemeChanged(theme)));
      search := "";
    }
  }
}
