/**
 * The page's persisted key/value store (window.localStorage) with values kept
 * in decoded form. A value written with `JSON.stringify` of an array of flat
 * objects is a `Records` value; one written with a plain string is `Text`.
 * Each entity module supplies an encoder to `Record` and a decoder back, and
 * proves that decoding what it encoded gives the entity back: that is the
 * serialise/deserialise law the widgets rely on when they reload their lists.
 */
module Storage {
  import opened Wrappers

  /** One property of a flat JSON object. */
  datatype Field = Str(s: string) | Num(n: int) | Bool(b: bool)

  /** A flat JSON object; an `undefined` property is simply absent. */
  type Record = map<string, Field>

  /** What `JSON.parse(localStorage.getItem(key))` yields, or the raw text. */
  datatype Value =
    | Text(text: string)
    | Records(records: seq<Record>)
    | Texts(texts: seq<string>)
    | Flags(flags: seq<bool>)
    | Cache(data: Record, timestamp: int)

  class Store {
    var items: map<string, Value>

    constructor (initial: map<string, Value>)
      ensures items == initial
    {
      items := initial;
    }

    /** `localStorage.setItem(key, v)`: only `key` changes. */
    method Set(key: string, v: Value)
      modifies this
      ensures items == old(items)[key := v]
      ensures forall k :: k != key ==> (k in items <==> k in old(items))
      ensures forall k :: k != key && k in items ==> items[k] == old(items)[k]
    {
      items := items[key := v];
    }
  }

  /** `localStorage.getItem(key)`, with `null` as `None`. */
  function Lookup(items: map<string, Value>, key: string): (r: Option<Value>)
    ensures r.Some? <==> key in items
    ensures r.Some? ==> items[key] == r.value
  {
    if key in items then Some(items[key]) else None
  }

  /** The raw text stored under `key`, if it was written as text. */
  function LookupText(items: map<string, Value>, key: string): (r: Option<string>)
    ensures r.Some? <==> key in items && items[key].Text?
    ensures r.Some? ==> items[key] == Text(r.value)
  {
    if key in items && items[key].Text? then Some(items[key].text) else None
  }

  /** `localStorage.getItem(key) || fallback`: an absent or empty text selects the fallback. */
  function TextOr(items: map<string, Value>, key: string, fallback: string): (r: string)
    ensures r == fallback || LookupText(items, key) == Some(r)
    ensures LookupText(items, key).Some? && LookupText(items, key) != Some("") ==> r == LookupText(items, key).value
    ensures LookupText(items, key).None? || LookupText(items, key) == Some("") ==> r == fallback
  {
    match LookupText(items, key)
    case Some(t) => if t != "" then t else fallback
    case None => fallback
  }

  function GetStr(r: Record, k: string): Option<string> {
    if k in r && r[k].Str? then Some(r[k].s) else None
  }

  function GetNum(r: Record, k: string): Option<int> {
    if k in r && r[k].Num? then Some(r[k].n) else None
  }

  function GetBool(r: Record, k: string): Option<bool> {
    if k in r && r[k].Bool? then Some(r[k].b) else None
  }

  /** An optional string property: absent is `Some(None)`, a wrong type is `None`. */
  function GetOptStr(r: Record, k: string): Option<Option<string>> {
    if k !in r then Some(None) else if r[k].Str? then Some(Some(r[k].s)) else None
  }

  function GetOptNum(r: Record, k: string): Option<Option<int>> {
    if k !in r then Some(None) else if r[k].Num? then Some(Some(r[k].n)) else None
  }

  /** Adds `k` only when the optional value is present (`JSON.stringify` drops `undefined`). */
  function PutOptStr(r: Record, k: string, v: Option<string>): Record {
    if v.Some? then r[k := Str(v.value)] else r
  }

  function PutOptNum(r: Record, k: string, v: Option<int>): Record {
    if v.Some? then r[k := Num(v.value)] else r
  }

  /** `JSON.stringify` of a list of entities. */
  function EncodeList<T>(xs: seq<T>, enc: T -> Record): (r: seq<Record>)
    ensures |r| == |xs|
    ensures forall i :: 0 <= i < |xs| ==> r[i] == enc(xs[i])
  {
    if xs == [] then [] else [enc(xs[0])] + EncodeList(xs[1..], enc)
  }

  /** `JSON.parse` of a list of entities; fails when any element has the wrong shape. */
  function DecodeList<T>(rs: seq<Record>, dec: Record -> Option<T>): (r: Option<seq<T>>)
    ensures r.Some? ==> |r.value| == |rs|
    ensures r.Some? ==> forall i :: 0 <= i < |rs| ==> dec(rs[i]) == Some(r.value[i])
    ensures r.None? <==> exists i :: 0 <= i < |rs| && dec(rs[i]).None?
  {
    if rs == [] then Some([])
    else
      match dec(rs[0])
      case None => None
      case Some(x) =>
        match DecodeList(rs[1..], dec)
        case None => None
        case Some(tail) => Some([x] + tail)
  }

  /** Reading back a list that was written gives the same list. */
  lemma {:induction false} DecodeEncodeList<T>(xs: seq<T>, enc: T -> Record, dec: Record -> Option<T>)
    requires forall x :: dec(enc(x)) == Some(x)
    ensures DecodeList(EncodeList(xs, enc), dec) == Some(xs)
  {
    if xs != [] {
      var rs := EncodeList(xs, enc);
      DecodeEncodeList(xs[1..], enc, dec);
      assert rs[1..] == EncodeList(xs[1..], enc);
      assert dec(rs[0]) == Some(xs[0]);
      assert [xs[0]] + xs[1..] == xs;
    }
  }

  /**
   * The initial value of a persisted list: `saved ? JSON.parse(saved) : fallback`.
   * A stored value of another shape is read as absent.
   */
  function LoadList<T>(items: map<string, Value>, key: string, dec: Record -> Option<T>, fallback: seq<T>): (r: seq<T>)
    ensures key !in items ==> r == fallback
  {
    if key in items && items[key].Records? then
      match DecodeList(items[key].records, dec)
      case Some(xs) => xs
      case None => fallback
    else fallback
  }

  /** What a persisting effect writes is what the next load reads. */
  lemma LoadAfterSave<T>(items: map<string, Value>, key: string, xs: seq<T>, enc: T -> Record,
                         dec: Record -> Option<T>, fallback: seq<T>)
    requires forall x :: dec(enc(x)) == Some(x)
    ensures LoadList(items[key := Records(EncodeList(xs, enc))], key, dec, fallback) == xs
  {
    DecodeEncodeList(xs, enc, dec);
  }
}
