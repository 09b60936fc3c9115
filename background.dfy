/**
 * The extension's background script (public/background.js): on a `getHistoryData`
 * message it folds the browser-history items into one record per domain and
 * answers with the list the analytics panel merges.
 *
 * `new URL(item.url).hostname` is a parameter (`None` when the constructor
 * throws); times are integer milliseconds, so `timeSpent` is kept exactly in
 * milliseconds and rounded to seconds at the end.
 */
module Background {
  import opened Wrappers
  import opened Text
  import opened WebsiteAnalytics

  datatype HistoryItem = HistoryItem(url: string, lastVisitTime: int)

  /** One entry of `domainMap`; `timeMs` is `timeSpent` times 1000. */
  datatype DomainData = DomainData(visits: int, timeMs: int, lastVisit: int)

  /** `domainMap`: its entries, and its keys in insertion order (the order `forEach` visits them). */
  datatype Acc = Acc(order: seq<string>, data: map<string, DomainData>)

  const GapLimitMs := 30 * 60 * 1000
  const CapMs := 300 * 1000

  /** `url.hostname.replace('www.', '')`: the first "www." anywhere is removed. */
  function DomainOf(hostname: string): string {
    ReplaceFirst(hostname, "www.", "")
  }

  /** The time a visit adds after a previous one `gap` milliseconds earlier. */
  function Added(lastVisit: int, gap: int): (r: int)
    ensures lastVisit <= 0 ==> r == 0
    ensures lastVisit > 0 && gap < GapLimitMs ==> r == (if gap < CapMs then gap else CapMs)
    ensures lastVisit > 0 && gap >= GapLimitMs ==> r == 0
    ensures r <= CapMs
  {
    if lastVisit > 0 && gap < GapLimitMs then (if gap < CapMs then gap else CapMs) else 0
  }

  /** One iteration of the `forEach` body. */
  function Step(acc: Acc, item: HistoryItem, hostname: Option<string>): Acc {
    match hostname
    case None => acc
    case Some(h) =>
      var domain := DomainOf(h);
      var d := if domain in acc.data then acc.data[domain] else DomainData(0, 0, 0);
      var d' := DomainData(d.visits + 1, d.timeMs + Added(d.lastVisit, item.lastVisitTime - d.lastVisit), item.lastVisitTime);
      Acc(if domain in acc.data then acc.order else acc.order + [domain], acc.data[domain := d'])
  }

  ghost predicate Distinct(s: seq<string>) {
    forall i, j :: 0 <= i < j < |s| ==> s[i] != s[j]
  }

  /** The keys are listed once each, in insertion order. */
  ghost predicate WellFormed(acc: Acc) {
    Distinct(acc.order) && (forall d :: d in acc.order <==> d in acc.data)
  }

  /** `domainMap` after the loop has seen `items`. */
  function Aggregate(items: seq<HistoryItem>, hostname: string -> Option<string>): (r: Acc)
    ensures WellFormed(r)
  {
    if items == [] then Acc([], map[])
    else Step(Aggregate(items[..|items| - 1], hostname), items[|items| - 1], hostname(items[|items| - 1].url))
  }

  /** `Math.round(ms / 1000)`: half-way values go up. */
  function RoundToSeconds(ms: int): (r: int)
    ensures r * 1000 - 500 <= ms < r * 1000 + 500
  {
    (ms + 500) / 1000
  }

  function Record(domain: string, d: DomainData): Site {
    Site(domain, RoundToSeconds(d.timeMs), "neutral", d.visits, None)
  }

  /** The response list: one record per key, in insertion order. */
  function Output(acc: Acc): (r: seq<Site>)
    requires forall d :: d in acc.order ==> d in acc.data
    ensures |r| == |acc.order|
    ensures forall i :: 0 <= i < |r| ==> r[i] == Record(acc.order[i], acc.data[acc.order[i]])
  {
    seq(|acc.order|, i requires 0 <= i < |acc.order| => Record(acc.order[i], acc.data[acc.order[i]]))
  }

  /** The history items whose url parses. */
  function Parsed(items: seq<HistoryItem>, hostname: string -> Option<string>): nat {
    if items == [] then 0
    else Parsed(items[..|items| - 1], hostname) + (if hostname(items[|items| - 1].url).Some? then 1 else 0)
  }

  function SumVisits(order: seq<string>, data: map<string, DomainData>): int
    requires forall d :: d in order ==> d in data
  {
    if order == [] then 0 else data[order[0]].visits + SumVisits(order[1..], data)
  }

  lemma {:induction false} SumVisitsAppend(order: seq<string>, x: string, data: map<string, DomainData>)
    requires forall d :: d in order + [x] ==> d in data
    ensures SumVisits(order + [x], data) == SumVisits(order, data) + data[x].visits
  {
    if order != [] {
      assert (order + [x])[1..] == order[1..] + [x];
      SumVisitsAppend(order[1..], x, data);
    }
  }

  lemma {:induction false} SumVisitsOther(order: seq<string>, x: string, v: DomainData, data: map<string, DomainData>)
    requires forall d :: d in order ==> d in data
    requires x !in order
    ensures SumVisits(order, data[x := v]) == SumVisits(order, data)
  {
    if order != [] {
      SumVisitsOther(order[1..], x, v, data);
    }
  }

  lemma {:induction false} SumVisitsUpdate(order: seq<string>, x: string, v: DomainData, data: map<string, DomainData>)
    requires forall d :: d in order ==> d in data
    requires Distinct(order) && x in order
    ensures SumVisits(order, data[x := v]) == SumVisits(order, data) - data[x].visits + v.visits
  {
    if order[0] == x {
      assert x !in order[1..];
      SumVisitsOther(order[1..], x, v, data);
    } else {
      SumVisitsUpdate(order[1..], x, v, data);
    }
  }

  /** Each parseable item adds exactly one visit; an item that does not parse adds none. */
  lemma StepVisits(acc: Acc, item: HistoryItem, hostname: Option<string>)
    requires WellFormed(acc)
    ensures var next := Step(acc, item, hostname);
      WellFormed(next) &&
      SumVisits(next.order, next.data) == SumVisits(acc.order, acc.data) + (if hostname.Some? then 1 else 0)
  {
    if hostname.Some? {
      var next := Step(acc, item, hostname);
      var domain := DomainOf(hostname.value);
      if domain in acc.data {
        SumVisitsUpdate(acc.order, domain, next.data[domain], acc.data);
      } else {
        SumVisitsAppend(acc.order, domain, next.data);
        SumVisitsOther(acc.order, domain, next.data[domain], acc.data);
      }
    }
  }

  /** The visits of all records add up to the number of history items whose url parses. */
  lemma {:induction false} TotalVisits(items: seq<HistoryItem>, hostname: string -> Option<string>)
    ensures var acc := Aggregate(items, hostname);
      WellFormed(acc) && SumVisits(acc.order, acc.data) == Parsed(items, hostname)
  {
    if items != [] {
      var prefix := items[..|items| - 1];
      TotalVisits(prefix, hostname);
      StepVisits(Aggregate(prefix, hostname), items[|items| - 1], hostname(items[|items| - 1].url));
    }
  }

  /** The domains that occur: one per history item whose url parses. */
  predicate Seen(items: seq<HistoryItem>, hostname: string -> Option<string>, domain: string) {
    exists i :: 0 <= i < |items| && hostname(items[i].url).Some? && DomainOf(hostname(items[i].url).value) == domain
  }

  /** A step adds the item's domain to the keys, if the url parses, and no other. */
  lemma StepKeys(acc: Acc, item: HistoryItem, host: Option<string>, d: string)
    requires WellFormed(acc)
    ensures d in Step(acc, item, host).order <==> d in acc.order || (host.Some? && DomainOf(host.value) == d)
  {
  }

  /** One more item makes its own domain seen, if its url parses, and no other. */
  lemma SeenStep(items: seq<HistoryItem>, hostname: string -> Option<string>, d: string)
    requires items != []
    ensures var last := items[|items| - 1];
      Seen(items, hostname, d) <==>
      Seen(items[..|items| - 1], hostname, d) || (hostname(last.url).Some? && DomainOf(hostname(last.url).value) == d)
  {
    var prefix := items[..|items| - 1];
    if Seen(prefix, hostname, d) {
      var i :| 0 <= i < |prefix| && hostname(prefix[i].url).Some? && DomainOf(hostname(prefix[i].url).value) == d;
      assert items[i] == prefix[i];
    }
    if Seen(items, hostname, d) {
      var i :| 0 <= i < |items| && hostname(items[i].url).Some? && DomainOf(hostname(items[i].url).value) == d;
      if i < |prefix| {
        assert prefix[i] == items[i];
      }
    }
  }

  /** The records are exactly the domains of the parseable items, each once. */
  lemma {:induction false} OneRecordPerDomain(items: seq<HistoryItem>, hostname: string -> Option<string>)
    ensures var acc := Aggregate(items, hostname);
      WellFormed(acc) && forall d :: d in acc.order <==> Seen(items, hostname, d)
  {
    if items != [] {
      var prefix := items[..|items| - 1];
      var last := items[|items| - 1];
      OneRecordPerDomain(prefix, hostname);
      forall d ensures d in Aggregate(items, hostname).order <==> Seen(items, hostname, d) {
        StepKeys(Aggregate(prefix, hostname), last, hostname(last.url), d);
        SeenStep(items, hostname, d);
      }
    }
  }

  /** An item whose url does not parse leaves `domainMap` as it was. */
  lemma UnparsedChangesNothing(acc: Acc, item: HistoryItem)
    ensures Step(acc, item, None) == acc
  {
  }

  /** The body of the first loop for one item: create the entry if new, count the visit, add the time, remember the visit. */
  method Visit(order: seq<string>, data: map<string, DomainData>, item: HistoryItem, host: Option<string>)
    returns (order': seq<string>, data': map<string, DomainData>)
    ensures Acc(order', data') == Step(Acc(order, data), item, host)
  {
    order', data' := order, data;
    if host.Some? {
      var domain := DomainOf(host.value);
      if domain !in data' {
        data' := data'[domain := DomainData(0, 0, 0)];
        order' := order' + [domain];
      }
      var d := data'[domain];
      var timeMs := d.timeMs;
      if d.lastVisit > 0 {
        var gap := item.lastVisitTime - d.lastVisit;
        if gap < GapLimitMs {
          timeMs := timeMs + (if gap < CapMs then gap else CapMs);
        }
      }
      data' := data'[domain := DomainData(d.visits + 1, timeMs, item.lastVisitTime)];
    }
  }

  /** `getHistoryData`: the two loops of the background script. */
  method GetHistoryData(items: seq<HistoryItem>, hostname: string -> Option<string>) returns (websiteData: seq<Site>)
    ensures websiteData == Output(Aggregate(items, hostname))
  {
    var order: seq<string> := [];
    var data: map<string, DomainData> := map[];
    var i := 0;
    while i < |items|
      invariant 0 <= i <= |items|
      invariant Acc(order, data) == Aggregate(items[..i], hostname)
    {
      assert items[..i + 1][..i] == items[..i];
      order, data := Visit(order, data, items[i], hostname(items[i].url));
      i := i + 1;
    }
    assert items[..i] == items;
    websiteData := [];
    var k := 0;
    while k < |order|
      invariant 0 <= k <= |order|
      invariant |websiteData| == k
      invariant forall j :: 0 <= j < k ==> websiteData[j] == Record(order[j], data[order[j]])
    {
      websiteData := websiteData + [Record(order[k], data[order[k]])];
      k := k + 1;
    }
  }

  /** The message listener: only a `getHistoryData` request gets a response. */
  method OnMessage(action: string, items: seq<HistoryItem>, hostname: string -> Option<string>)
    returns (response: Option<seq<Site>>)
    ensures response.Some? <==> action == "getHistoryData"
    ensures response.Some? ==> response.value == Output(Aggregate(items, hostname))
  {
    if action == "getHistoryData" {
      var websiteData := GetHistoryData(items, hostname);
      response := Some(websiteData);
    } else {
      response := None;
    }
  }
}
