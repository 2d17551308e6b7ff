/** The search widget: the URL built for the chosen engine, scope and
    flags, the history kept of past queries, and the submit handler that
    ties them together. */
module SearchWidget {
  import opened Text

  /** `data.engine`; any other stored value is `Unrecognised`. */
  datatype Engine = Google | Bing | DuckDuckGo | Ecosia | Unrecognised

  datatype Scope = Web | Images | Videos | News | Maps

  /** The settings of a search widget the handlers read. Language and region
      hold "auto" when the user chose none. */
  datatype SearchData = SearchData(
    engine: Engine, newTab: bool, defaultScope: Scope, language: string, region: string,
    safeSearch: bool, trackHistory: bool, maxHistoryItems: int)

  /** The widget's defaults: google, same tab, web scope, no language or
      region, safe search on, history of 5 kept. */
  function DefaultSearchData(): (d: SearchData)
    ensures d.engine == Google && !d.newTab && d.defaultScope == Web
    ensures d.language == "auto" && d.region == "auto"
    ensures d.safeSearch && d.trackHistory && d.maxHistoryItems == 5
  {
    SearchData(Google, false, Web, "auto", "auto", true, true, 5)
  }

  // ---------------------------------------------------------------------
  // URLs

  /** An appended query parameter, printed as `&key=value`, by the role it
      plays. */
  datatype Param = LanguageParam(key: string, value: string)
                 | RegionParam(key: string, value: string)
                 | SafeSearchParam(key: string, value: string)

  /** A search URL: the address with the query built in, then the appended
      parameters in order. */
  datatype SearchUrl = SearchUrl(base: string, params: seq<Param>)

  function RenderParams(ps: seq<Param>): string {
    if ps == [] then "" else "&" + ps[0].key + "=" + ps[0].value + RenderParams(ps[1..])
  }

  function Render(u: SearchUrl): (s: string)
    ensures StartsWith(s, u.base)
  {
    u.base + RenderParams(u.params)
  }

  /** The scheme and host every URL for the engine starts with; an
      unrecognised engine searches Google. */
  function Host(e: Engine): string {
    match e
    case Google => "https://www.google.com/"
    case Bing => "https://www.bing.com/"
    case DuckDuckGo => "https://duckduckgo.com/"
    case Ecosia => "https://www.ecosia.org/"
    case Unrecognised => "https://www.google.com/"
  }

  /** What precedes the encoded query in the engine's address for a scope:
      the host, then the engine's path for that scope. */
  function QueryPrefix(e: Engine, s: Scope): (p: string)
    ensures StartsWith(p, Host(e))
  {
    assert (Host(e) + QueryPath(e, s))[..|Host(e)|] == Host(e);
    Host(e) + QueryPath(e, s)
  }

  /** The path and query key after the host. */
  function QueryPath(e: Engine, s: Scope): string {
    match e
    case Google =>
      (match s
       case Web => "search?q="
       case Images => "search?tbm=isch&q="
       case Videos => "search?tbm=vid&q="
       case News => "search?tbm=nws&q="
       case Maps => "maps/search/")
    case Bing =>
      (match s
       case Web => "search?q="
       case Images => "images/search?q="
       case Videos => "videos/search?q="
       case News => "news/search?q="
       case Maps => "maps?q=")
    case DuckDuckGo => "?q="
    case Ecosia =>
      (match s
       case Web => "search?q="
       case Images => "images?q="
       case Videos => "videos?q="
       case News => "news?q="
       case Maps => "maps?q=")
    case Unrecognised => "search?q="
  }

  /** What follows the encoded query in the address (DuckDuckGo selects
      its verticals after the query). */
  function QuerySuffix(e: Engine, s: Scope): string {
    if e != DuckDuckGo then ""
    else match s
      case Web => ""
      case Images => "&iax=images&ia=images"
      case Videos => "&iax=videos&ia=videos"
      case News => "&iar=news&ia=news"
      case Maps => "&iaxm=maps&ia=maps"
  }

  /** The "auto" sentinel and the empty string both mean "not set". */
  predicate IsSet(choice: string) {
    choice != "auto" && choice != ""
  }

  function Opt(b: bool, p: Param): (r: seq<Param>)
    ensures |r| <= 1 && (b <==> r == [p])
  {
    if b then [p] else []
  }

  /** `getSearchUrl` before printing. The language goes to google (`hl`),
      bing (`setlang`) and ecosia (`lang`); the region to google (`gl`) and
      duckduckgo (`kl`); the safe-search flag to google, bing and
      duckduckgo; an unrecognised engine gets the plain Google web search. */
  function BuildSearchUrl(d: SearchData, encodedQuery: string, scope: Scope): (u: SearchUrl)
    ensures u.base == QueryPrefix(d.engine, scope) + encodedQuery + QuerySuffix(d.engine, scope)
    ensures u.params == EngineParams(d)
    ensures d.engine == Unrecognised ==> u == SearchUrl(QueryPrefix(Google, Web) + encodedQuery, [])
  {
    var sc := if d.engine == Unrecognised then Web else scope;
    SearchUrl(QueryPrefix(d.engine, sc) + encodedQuery + QuerySuffix(d.engine, sc), EngineParams(d))
  }

  /** The parameters appended for the engine, in order. */
  function EngineParams(d: SearchData): seq<Param> {
    match d.engine
    case Google =>
      Opt(IsSet(d.language), LanguageParam("hl", d.language))
      + Opt(IsSet(d.region), RegionParam("gl", d.region))
      + Opt(d.safeSearch, SafeSearchParam("safe", "active"))
    case Bing =>
      Opt(IsSet(d.language), LanguageParam("setlang", d.language))
      + Opt(d.safeSearch, SafeSearchParam("adlt", "strict"))
    case DuckDuckGo =>
      Opt(IsSet(d.region), RegionParam("kl", d.region))
      + Opt(d.safeSearch, SafeSearchParam("kp", "1"))
    case Ecosia =>
      Opt(IsSet(d.language), LanguageParam("lang", d.language))
    case Unrecognised => []
  }

  predicate HasLanguage(ps: seq<Param>) { exists i :: 0 <= i < |ps| && ps[i].LanguageParam? }
  predicate HasRegion(ps: seq<Param>) { exists i :: 0 <= i < |ps| && ps[i].RegionParam? }
  predicate HasSafeSearch(ps: seq<Param>) { exists i :: 0 <= i < |ps| && ps[i].SafeSearchParam? }

  /** A language or region parameter carries the chosen value. */
  predicate CarriesChoices(ps: seq<Param>, d: SearchData) {
    forall i :: 0 <= i < |ps| ==>
      (ps[i].LanguageParam? ==> ps[i].value == d.language) &&
      (ps[i].RegionParam? ==> ps[i].value == d.region)
  }

  /** The parameter rules, both ways: the language is appended exactly for
      google, bing and ecosia with a language set; the region exactly for
      google and duckduckgo with a region set; safe search exactly for
      google, bing and duckduckgo with the flag on (never for ecosia). Any
      language or region appended carries the chosen value, and there are
      at most three parameters. */
  lemma ParamRules(d: SearchData)
    ensures HasLanguage(EngineParams(d)) <==> d.engine in {Google, Bing, Ecosia} && IsSet(d.language)
    ensures HasRegion(EngineParams(d)) <==> d.engine in {Google, DuckDuckGo} && IsSet(d.region)
    ensures HasSafeSearch(EngineParams(d)) <==> d.engine in {Google, Bing, DuckDuckGo} && d.safeSearch
    ensures CarriesChoices(EngineParams(d), d)
    ensures |EngineParams(d)| <= 3
  {
    match d.engine
    case Google => GoogleParams(d);
    case Bing =>
      PairParams(d, IsSet(d.language), LanguageParam("setlang", d.language), SafeSearchParam("adlt", "strict"));
    case DuckDuckGo =>
      PairParams(d, IsSet(d.region), RegionParam("kl", d.region), SafeSearchParam("kp", "1"));
    case Ecosia =>
      assert IsSet(d.language) ==> EngineParams(d)[0].LanguageParam?;
    case Unrecognised =>
  }

  lemma GoogleParams(d: SearchData)
    requires d.engine == Google
    ensures HasLanguage(EngineParams(d)) <==> IsSet(d.language)
    ensures HasRegion(EngineParams(d)) <==> IsSet(d.region)
    ensures HasSafeSearch(EngineParams(d)) <==> d.safeSearch
    ensures CarriesChoices(EngineParams(d), d) && |EngineParams(d)| <= 3
  {
    var a := Opt(IsSet(d.language), LanguageParam("hl", d.language));
    var b := Opt(IsSet(d.region), RegionParam("gl", d.region));
    var c := Opt(d.safeSearch, SafeSearchParam("safe", "active"));
    var ps := EngineParams(d);
    assert ps == a + b + c;
    assert IsSet(d.language) ==> ps[0].LanguageParam?;
    assert IsSet(d.region) ==> ps[|a|].RegionParam?;
    assert d.safeSearch ==> ps[|a| + |b|].SafeSearchParam?;
  }

  /** Bing and DuckDuckGo: one optional choice, then the optional
      safe-search flag. */
  lemma PairParams(d: SearchData, chosen: bool, p: Param, safe: Param)
    requires EngineParams(d) == Opt(chosen, p) + Opt(d.safeSearch, safe)
    requires !p.SafeSearchParam? && safe.SafeSearchParam?
    ensures HasLanguage(EngineParams(d)) <==> chosen && p.LanguageParam?
    ensures HasRegion(EngineParams(d)) <==> chosen && p.RegionParam?
    ensures HasSafeSearch(EngineParams(d)) <==> d.safeSearch
    ensures CarriesChoices(EngineParams(d), d) <==>
              (chosen ==> (p.LanguageParam? ==> p.value == d.language) && (p.RegionParam? ==> p.value == d.region))
    ensures |EngineParams(d)| <= 2
  {
    var a := Opt(chosen, p);
    var ps := EngineParams(d);
    if chosen { assert ps[0] == p; }
    if d.safeSearch { assert ps[|a|] == safe; }
  }

  /** `getSearchUrl(data, query, scope)`; `encode` is `encodeURIComponent`.
      The URL starts with the engine's host, and the encoded query follows
      the scope's address prefix. */
  function GetSearchUrl(d: SearchData, query: string, scope: Scope, encode: string -> string): (url: string)
    ensures StartsWith(url, Host(d.engine))
    ensures var p := UrlPrefix(d, scope);
            StartsWith(url, p) && OccursAt(url, encode(query), |p|)
  {
    var url := Render(BuildSearchUrl(d, encode(query), scope));
    RenderShape(d, encode(query), scope);
    ConcatParts(UrlPrefix(d, scope), encode(query), UrlRest(d, scope));
    StartsWithTrans(url, UrlPrefix(d, scope), Host(d.engine));
    url
  }

  /** The address up to the encoded query: an unrecognised engine uses
      Google's web search. */
  function UrlPrefix(d: SearchData, scope: Scope): (p: string)
    ensures StartsWith(p, Host(d.engine))
  {
    if d.engine == Unrecognised then QueryPrefix(Google, Web) else QueryPrefix(d.engine, scope)
  }

  /** What follows the encoded query: the engine's suffix, then the
      parameters. */
  function UrlRest(d: SearchData, scope: Scope): string {
    (if d.engine == Unrecognised then "" else QuerySuffix(d.engine, scope)) + RenderParams(EngineParams(d))
  }

  /** A printed address is prefix, encoded query, rest. */
  lemma RenderShape(d: SearchData, q: string, scope: Scope)
    ensures Render(BuildSearchUrl(d, q, scope)) == UrlPrefix(d, scope) + q + UrlRest(d, scope)
  {
    var u := BuildSearchUrl(d, q, scope);
    var suffix := if d.engine == Unrecognised then "" else QuerySuffix(d.engine, scope);
    BaseShape(d, q, scope);
    RegroupTail(UrlPrefix(d, scope), q, suffix, RenderParams(u.params));
  }

  lemma BaseShape(d: SearchData, q: string, scope: Scope)
    ensures BuildSearchUrl(d, q, scope).base ==
              UrlPrefix(d, scope) + q + (if d.engine == Unrecognised then "" else QuerySuffix(d.engine, scope))
  {
    if d.engine == Unrecognised {
      var p := QueryPrefix(Google, Web) + q;
      assert p + "" == p;
    }
  }

  lemma RegroupTail(p: string, q: string, suffix: string, params: string)
    ensures (p + q + suffix) + params == p + q + (suffix + params)
  {
  }

  // ---------------------------------------------------------------------
  // History

  datatype HistoryEntry = HistoryEntry(query: string, timestamp: int)

  /** `s.slice(0, end)`: a negative end counts from the back. */
  function SliceTo<T>(s: seq<T>, end: int): (r: seq<T>)
    ensures 0 <= end ==> |r| == if end < |s| then end else |s|
    ensures end < 0 ==> |r| == if -end < |s| then |s| + end else 0
    ensures r == s[..|r|]
  {
    var k := if end >= 0 then (if end < |s| then end else |s|)
             else (if -end < |s| then |s| + end else 0);
    s[..k]
  }

  /** `history.filter(item => item.query !== query)` */
  function WithoutQuery(h: seq<HistoryEntry>, q: string): (r: seq<HistoryEntry>)
    ensures |r| <= |h|
    ensures forall i :: 0 <= i < |r| ==> r[i].query != q
    ensures forall e :: e in r <==> e in h && e.query != q
  {
    if h == [] then []
    else if h[0].query == q then WithoutQuery(h[1..], q)
    else [h[0]] + WithoutQuery(h[1..], q)
  }

  /** Filtering works piecewise, so the entries kept stay in their
      relative order. */
  lemma {:induction false} WithoutQueryConcat(a: seq<HistoryEntry>, b: seq<HistoryEntry>, q: string)
    ensures WithoutQuery(a + b, q) == WithoutQuery(a, q) + WithoutQuery(b, q)
  {
    if a == [] {
      assert a + b == b;
    } else {
      assert (a + b)[0] == a[0] && (a + b)[1..] == a[1..] + b;
      WithoutQueryConcat(a[1..], b, q);
      if a[0].query != q {
        calc {
          WithoutQuery(a + b, q);
          [a[0]] + WithoutQuery(a[1..] + b, q);
          [a[0]] + (WithoutQuery(a[1..], q) + WithoutQuery(b, q));
          ([a[0]] + WithoutQuery(a[1..], q)) + WithoutQuery(b, q);
        }
      }
    }
  }

  /** The history update of a submitted query: the new entry first, then
      the older entries with a different query, cut to `max`. */
  function UpdateHistory(h: seq<HistoryEntry>, query: string, now: int, max: int): (r: seq<HistoryEntry>)
    ensures 0 <= max ==> |r| <= max
    ensures |r| <= 1 + |h|
    ensures max >= 1 ==> r != [] && r[0] == HistoryEntry(query, now)
    ensures forall i :: 1 <= i < |r| ==> r[i].query != query && r[i] in h
    ensures |r| <= 1 + |WithoutQuery(h, query)|
    ensures r == [] || r[1..] == WithoutQuery(h, query)[..|r| - 1]
    ensures r != [] ==> r[0] == HistoryEntry(query, now)
    ensures var kept := 1 + |WithoutQuery(h, query)|;
            0 <= max ==> |r| == if max < kept then max else kept
    ensures var kept := 1 + |WithoutQuery(h, query)|;
            max < 0 ==> |r| == if -max < kept then kept + max else 0
  {
    var all := [HistoryEntry(query, now)] + WithoutQuery(h, query);
    var r := SliceTo(all, max);
    assert forall i :: 1 <= i < |r| ==> r[i] == WithoutQuery(h, query)[i - 1];
    r
  }

  /** Submitting the newest query again moves nothing but its timestamp:
      with a history whose head already has that query and room to spare,
      the rest of the history is kept as it was. */
  lemma {:induction false} ResubmitHead(h: seq<HistoryEntry>, query: string, now: int, max: int)
    requires h != [] && h[0].query == query && |h| <= max
    requires forall i :: 1 <= i < |h| ==> h[i].query != query
    ensures UpdateHistory(h, query, now, max) == [HistoryEntry(query, now)] + h[1..]
  {
    WithoutQueryAbsent(h[1..], query);
    assert WithoutQuery(h, query) == WithoutQuery(h[1..], query);
  }

  lemma {:induction false} WithoutQueryAbsent(h: seq<HistoryEntry>, q: string)
    requires forall i :: 0 <= i < |h| ==> h[i].query != q
    ensures WithoutQuery(h, q) == h
  {
    if h != [] {
      assert h[0].query != q;
      assert forall i :: 0 <= i < |h| - 1 ==> h[1..][i] == h[i + 1];
      WithoutQueryAbsent(h[1..], q);
      assert h == [h[0]] + h[1..];
    }
  }

  // ---------------------------------------------------------------------
  // The widget's handlers

  /** Where a submitted search sends the browser. */
  datatype Navigation = OpenInNewTab(url: string) | GoTo(url: string)

  /** Where submitting `query` sends the browser. */
  function NavigationFor(d: SearchData, query: string, scope: Scope, encode: string -> string): (n: Navigation)
    ensures n.url == GetSearchUrl(d, query, scope, encode)
    ensures n.OpenInNewTab? <==> d.newTab
  {
    var url := GetSearchUrl(d, query, scope, encode);
    if d.newTab then OpenInNewTab(url) else GoTo(url)
  }

  class SearchBox {
    const data: SearchData
    /** `searchQuery`, the text in the input. */
    var searchQuery: string
    /** `selectedScope` */
    var selectedScope: Scope
    /** `searchHistory` */
    var history: seq<HistoryEntry>
    /** The histories handed to `onUpdateData`, oldest first. */
    var savedHistories: seq<seq<HistoryEntry>>
    /** The navigations performed, oldest first. */
    var navigations: seq<Navigation>

    /** Mounting: an empty input, the configured scope, and the stored
        history (none stored is the empty history). */
    constructor (d: SearchData, storedHistory: Option<seq<HistoryEntry>>)
      ensures data == d && searchQuery == "" && selectedScope == d.defaultScope
      ensures history == (if storedHistory.Some? then storedHistory.value else [])
      ensures savedHistories == [] && navigations == []
    {
      data := d;
      searchQuery := "";
      selectedScope := d.defaultScope;
      history := if storedHistory.Some? then storedHistory.value else [];
      savedHistories := [];
      navigations := [];
    }

    /** Typing in the input, or picking a history entry or a quick link. */
    method SetSearchQuery(q: string)
      modifies this
      ensures searchQuery == q
      ensures selectedScope == old(selectedScope) && history == old(history)
      ensures savedHistories == old(savedHistories) && navigations == old(navigations)
    {
      searchQuery := q;
    }

    method SetScope(s: Scope)
      modifies this
      ensures selectedScope == s
      ensures searchQuery == old(searchQuery) && history == old(history)
      ensures savedHistories == old(savedHistories) && navigations == old(navigations)
    {
      selectedScope := s;
    }

    /** `handleSearch` at time `now`: a blank query does nothing. Otherwise
        the trimmed query is searched; with history tracking on, the
        untrimmed query heads the new history, which is also saved through
        `onUpdateData`; then the browser navigates, in a new tab or in
        place. */
    method HandleSearch(now: int, encode: string -> string)
      modifies this
      ensures AllWhitespace(old(searchQuery)) ==>
                history == old(history) && savedHistories == old(savedHistories) && navigations == old(navigations)
      ensures !AllWhitespace(old(searchQuery)) ==>
                navigations == old(navigations) + [NavigationFor(data, Trim(old(searchQuery)), old(selectedScope), encode)]
      ensures !AllWhitespace(old(searchQuery)) && data.trackHistory ==>
                history == UpdateHistory(old(history), searchQuery, now, data.maxHistoryItems) &&
                savedHistories == old(savedHistories) + [history]
      ensures !data.trackHistory ==> history == old(history) && savedHistories == old(savedHistories)
      ensures searchQuery == old(searchQuery) && selectedScope == old(selectedScope)
    {
      if Trim(searchQuery) == [] {
        return;
      }
      var nav := NavigationFor(data, Trim(searchQuery), selectedScope, encode);
      if data.trackHistory {
        RecordQuery(now);
      }
      Navigate(nav);
    }

    /** The history step of `handleSearch`: the query heads the updated
        history, which is saved. */
    method RecordQuery(now: int)
      modifies this
      ensures history == UpdateHistory(old(history), searchQuery, now, data.maxHistoryItems)
      ensures savedHistories == old(savedHistories) + [history]
      ensures searchQuery == old(searchQuery) && selectedScope == old(selectedScope) && navigations == old(navigations)
    {
      var updated := UpdateHistory(history, searchQuery, now, data.maxHistoryItems);
      history := updated;
      savedHistories := savedHistories + [updated];
    }

    /** `window.open(url, "_blank")` or `window.location.href = url`. */
    method Navigate(nav: Navigation)
      modifies this
      ensures navigations == old(navigations) + [nav]
      ensures history == old(history) && savedHistories == old(savedHistories)
      ensures searchQuery == old(searchQuery) && selectedScope == old(selectedScope)
    {
      navigations := navigations + [nav];
    }

    /** `clearHistory`: the history becomes empty and the empty history is
        saved. */
    method ClearHistory()
      modifies this
      ensures history == [] && savedHistories == old(savedHistories) + [[]]
      ensures searchQuery == old(searchQuery) && selectedScope == old(selectedScope) && navigations == old(navigations)
    {
      history := [];
      savedHistories := savedHistories + [[]];
    }
  }
}
