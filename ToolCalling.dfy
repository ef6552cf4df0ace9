/** newSDK/OPFC.py: the one-round function-calling runner, the web search it
    offers the model as a tool, and the small helpers of the legacy client
    wrapper. The chat-completion API, the search engine and the page fetcher
    are parameters that return what the real services would. */
module ToolCalling {
  import opened Common
  import opened Database

  // ---------------------------------------------------------------------------
  // needs_web_search

  const SearchKeywords: seq<string> := ["найди", "что сейчас", "новости", "поиск", "в интернете", "актуально"]

  /** Some keyword among keywords[i..] is a substring of s. */
  ghost predicate Mentions(s: string, keywords: seq<string>, i: nat) {
    exists k, j :: i <= k < |keywords| && ContainsAt(s, keywords[k], j)
  }

  function AnyKeyword(s: string, keywords: seq<string>, i: nat): (r: bool)
    requires i <= |keywords|
    ensures r <==> Mentions(s, keywords, i)
    decreases |keywords| - i
  {
    if i == |keywords| then false
    else if Occurs(s, keywords[i]) then true
    else
      assert forall j :: !ContainsAt(s, keywords[i], j);
      AnyKeyword(s, keywords, i + 1)
  }

  /** needs_web_search: a keyword is a substring of the lower-cased message. */
  function NeedsWebSearch(message: string): (r: bool)
    ensures r <==> Mentions(Lower(message), SearchKeywords, 0)
  {
    AnyKeyword(Lower(message), SearchKeywords, 0)
  }

  // ---------------------------------------------------------------------------
  // _messages_to_prompt

  /** A message dictionary as the legacy completion endpoint sees it; a
      missing key is None. */
  datatype PromptMessage = PromptMessage(role: Option<string>, content: Option<string>)

  function OrEmpty(s: Option<string>): string {
    if s.Some? then s.value else ""
  }

  /** One "[role]\ncontent" block. */
  function Block(m: PromptMessage): (b: string)
    ensures StartsWith(b, "[" + OrEmpty(m.role) + "]\n") && EndsWith(b, OrEmpty(m.content))
  {
    var head := "[" + OrEmpty(m.role) + "]\n";
    var b := head + OrEmpty(m.content);
    assert b[..|head|] == head && b[|b| - |OrEmpty(m.content)|..] == OrEmpty(m.content);
    b
  }

  function Blocks(messages: seq<PromptMessage>): (r: seq<string>)
    ensures |r| == |messages|
    ensures messages != [] ==> r[0] == Block(messages[0])
  {
    if messages == [] then [] else Blocks(messages[..|messages| - 1]) + [Block(messages[|messages| - 1])]
  }

  /** _messages_to_prompt: "" for no messages; otherwise the blocks joined by
      blank lines, so the prompt opens with the first message's role. */
  method MessagesToPrompt(messages: seq<PromptMessage>) returns (prompt: string)
    ensures prompt == Join(Blocks(messages), "\n\n")
    ensures messages == [] ==> prompt == ""
    ensures messages != [] ==> StartsWith(prompt, "[" + OrEmpty(messages[0].role) + "]\n")
  {
    if messages == [] {
      return "";
    }
    var parts: seq<string> := [];
    prompt := "";
    var i := 0;
    while i < |messages|
      invariant 0 <= i <= |messages|
      invariant parts == Blocks(messages[..i])
      invariant prompt == Join(parts, "\n\n")
    {
      var m := messages[i];
      assert messages[..i + 1][..i] == messages[..i];
      parts := parts + [Block(m)];
      prompt := if i == 0 then Block(m) else prompt + "\n\n" + Block(m);
      assert parts[..|parts| - 1] == Blocks(messages[..i]);
      i := i + 1;
    }
    assert messages[..i] == messages;
    PromptStart(Blocks(messages), Block(messages[0]), "[" + OrEmpty(messages[0].role) + "]\n");
  }

  lemma PromptStart(parts: seq<string>, first: string, head: string)
    requires parts != [] && parts[0] == first && StartsWith(first, head)
    ensures StartsWith(Join(parts, "\n\n"), head)
  {
    var r := Join(parts, "\n\n");
    assert r[..|first|] == first;
    assert r[..|head|] == first[..|head|];
  }

  lemma {:induction false} BlocksConcat(a: seq<PromptMessage>, b: seq<PromptMessage>)
    ensures Blocks(a + b) == Blocks(a) + Blocks(b)
    decreases |b|
  {
    if b == [] {
      assert a + b == a;
    } else {
      var b' := b[..|b| - 1];
      assert (a + b)[..|a + b| - 1] == a + b';
      BlocksConcat(a, b');
    }
  }

  /** Prompts of two non-empty conversations concatenate with one blank line. */
  lemma PromptConcat(a: seq<PromptMessage>, b: seq<PromptMessage>)
    requires a != [] && b != []
    ensures Join(Blocks(a + b), "\n\n") == Join(Blocks(a), "\n\n") + "\n\n" + Join(Blocks(b), "\n\n")
  {
    BlocksConcat(a, b);
    JoinConcat(Blocks(a), Blocks(b), "\n\n");
  }

  // ---------------------------------------------------------------------------
  // _normalize_response

  /** The "message" entry of a legacy choice. */
  datatype MessageField = NoMessage | NonDictMessage | DictMessage(content: Option<string>, text: Option<string>)

  datatype RawChoice = RawChoice(message: MessageField, text: Option<string>)

  /** A legacy response: already an object with choices, a dictionary (whose
      "choices" key may be missing), or anything else (kept as str(resp)). */
  datatype LegacyResponse =
    | ObjectResponse(contents: seq<string>)
    | DictResponse(choices: Option<seq<RawChoice>>)
    | OtherResponse(repr: string)

  /** The content of one choice: the message's content, else its text, else
      the choice's own text, else "". */
  function ChoiceContent(c: RawChoice): string {
    match c.message
    case DictMessage(content, text) =>
      if content.Some? then content.value else if text.Some? then text.value else ""
    case _ => OrEmpty(c.text)
  }

  /** _normalize_response: the message contents of the normalized choices,
      in order. */
  method NormalizeResponse(resp: LegacyResponse) returns (contents: seq<string>)
    ensures resp.ObjectResponse? ==> contents == resp.contents
    ensures resp.OtherResponse? ==> contents == [resp.repr]
    ensures resp.DictResponse? ==>
      var choices := if resp.choices.Some? then resp.choices.value else [];
      |contents| == |choices| && forall i :: 0 <= i < |choices| ==> contents[i] == ChoiceContent(choices[i])
  {
    match resp
    case ObjectResponse(cs) =>
      contents := cs;
    case OtherResponse(repr) =>
      contents := [repr];
    case DictResponse(raw) =>
      var choices := if raw.Some? then raw.value else [];
      contents := [];
      var i := 0;
      while i < |choices|
        invariant 0 <= i <= |choices|
        invariant |contents| == i && forall j :: 0 <= j < i ==> contents[j] == ChoiceContent(choices[j])
      {
        var c := choices[i];
        var msgContent: string;
        if c.message.DictMessage? {
          msgContent := if c.message.content.Some? then c.message.content.value
                        else if c.message.text.Some? then c.message.text.value
                        else "";
        } else {
          msgContent := if c.text.Some? then c.text.value else "";
        }
        contents := contents + [msgContent];
        i := i + 1;
      }
  }

  // ---------------------------------------------------------------------------
  // _call_search_api

  /** One hit from the search engine; a missing key is None. */
  datatype RawHit = RawHit(title: Option<string>, href: Option<string>, body: Option<string>)

  /** The search engine's answer, or an exception inside the try. */
  datatype SearchApi = SearchRaised | SearchHits(hits: seq<RawHit>)

  datatype SearchResult = SearchResult(title: string, snippet: string, link: string)

  const WiktionarySuffix: string := "wiktionary.org/wiki/"

  /** A hit is kept when it has a non-empty title and a non-empty href that
      is not a bare Wiktionary article path. */
  predicate Keep(h: RawHit) {
    h.title.Some? && h.title.value != [] && h.href.Some? && h.href.value != []
    && !EndsWith(h.href.value, WiktionarySuffix)
  }

  function Shape(h: RawHit): SearchResult
    requires Keep(h)
  {
    SearchResult(h.title.value, OrEmpty(h.body), h.href.value)
  }

  /** The kept hits, shaped, in the engine's order. */
  function Formatted(hits: seq<RawHit>): (r: seq<SearchResult>)
    ensures |r| <= |hits|
    ensures forall i :: 0 <= i < |r| ==> r[i].title != [] && r[i].link != [] && !EndsWith(r[i].link, WiktionarySuffix)
  {
    if hits == [] then []
    else
      var last := hits[|hits| - 1];
      Formatted(hits[..|hits| - 1]) + (if Keep(last) then [Shape(last)] else [])
  }

  /** Formatting distributes over concatenation, so a kept hit appears
      exactly once and in its place, and a dropped one leaves no trace. */
  lemma {:induction false} FormattedConcat(a: seq<RawHit>, b: seq<RawHit>)
    ensures Formatted(a + b) == Formatted(a) + Formatted(b)
    decreases |b|
  {
    if b != [] {
      var ab := a + b;
      assert ab[..|ab| - 1] == a + b[..|b| - 1];
      FormattedConcat(a, b[..|b| - 1]);
    } else {
      assert a + b == a;
    }
  }

  lemma FormattedSingle(h: RawHit)
    ensures Formatted([h]) == if Keep(h) then [Shape(h)] else []
  {
    assert [h][..0] == [];
  }

  /** _call_search_api: the formatted results; [] when the search raises. */
  method CallSearchApi(api: SearchApi) returns (results: seq<SearchResult>)
    ensures results == if api.SearchRaised? then [] else Formatted(api.hits)
  {
    if api.SearchRaised? {
      return [];
    }
    var hits := api.hits;
    results := [];
    var i := 0;
    while i < |hits|
      invariant 0 <= i <= |hits|
      invariant results == Formatted(hits[..i])
    {
      var result := hits[i];
      assert hits[..i + 1][..i] == hits[..i];
      if Keep(result) {
        results := results + [Shape(result)];
      }
      i := i + 1;
    }
    assert hits[..i] == hits;
  }

  // ---------------------------------------------------------------------------
  // _fetch_page_content

  /** The page request: the paragraph text of the page, or an exception. */
  datatype PageFetch = FetchFailed | Fetched(text: string)

  const MaxPageLength: int := 4000

  /** _fetch_page_content: the page text cut to 4000 characters; "" when the
      request or the parsing fails. */
  function FetchPageContent(page: PageFetch): (r: string)
    ensures |r| <= MaxPageLength
    ensures page.FetchFailed? ==> r == ""
    ensures page.Fetched? ==> StartsWith(page.text, r)
    ensures page.Fetched? && |page.text| <= MaxPageLength ==> r == page.text
    ensures page.Fetched? && |page.text| > MaxPageLength ==> |r| == MaxPageLength
  {
    match page
    case FetchFailed => ""
    case Fetched(text) => if |text| <= MaxPageLength then text else text[..MaxPageLength]
  }

  // ---------------------------------------------------------------------------
  // The query cleaning of _perform_web_search

  /** The alternatives of the greeting pattern, in the order they are tried. */
  const FillerPrefixes: seq<string> := ["привет", "здравствуй", "как дела", "найди", "найди мне"]

  /** The alternative p matches at the start of s, ignoring case, and is
      followed by at least one whitespace character. */
  predicate FillerAt(s: string, p: string) {
    |p| < |s| && Lower(s[..|p|]) == p && IsSpace(s[|p|])
  }

  /** The index of the first alternative among prefixes[i..] that matches. */
  function FirstFiller(s: string, prefixes: seq<string>, i: nat): (r: Option<nat>)
    requires i <= |prefixes|
    ensures r.Some? ==>
      i <= r.value < |prefixes| && FillerAt(s, prefixes[r.value])
      && forall j :: i <= j < r.value ==> !FillerAt(s, prefixes[j])
    ensures r.None? <==> forall k :: i <= k < |prefixes| ==> !FillerAt(s, prefixes[k])
    decreases |prefixes| - i
  {
    if i == |prefixes| then None
    else if FillerAt(s, prefixes[i]) then Some(i)
    else FirstFiller(s, prefixes, i + 1)
  }

  /** The query after the greeting is removed and the rest stripped. */
  function CleanQuery(query: string): string {
    match FirstFiller(query, FillerPrefixes, 0)
    case None => Strip(query)
    case Some(k) => Strip(query[|FillerPrefixes[k]|..])
  }

  /** The search query: the cleaned query with " lang:ru" appended. */
  function SearchQuery(query: string): (r: string)
    ensures EndsWith(r, " lang:ru")
  {
    var r := CleanQuery(query) + " lang:ru";
    assert r[|r| - 8..] == " lang:ru";
    r
  }

  /** An alternative whose first letter differs, ignoring case, does not match. */
  lemma FirstLetterMismatch(s: string, p: string)
    requires s != [] && p != [] && LowerChar(s[0]) != p[0]
    ensures !FillerAt(s, p)
  {
    if |p| < |s| {
      assert Lower(s[..|p|])[0] == LowerChar(s[0]);
    }
  }

  /** The first alternative that matches is the one found. */
  lemma {:induction false} FirstFillerAt(s: string, prefixes: seq<string>, i: nat, k: nat)
    requires i <= k < |prefixes| && FillerAt(s, prefixes[k])
    requires forall j :: i <= j < k ==> !FillerAt(s, prefixes[j])
    ensures FirstFiller(s, prefixes, i) == Some(k)
    decreases k - i
  {
    if i < k {
      FirstFillerAt(s, prefixes, i + 1, k);
    }
  }

  /** Alternatives are tried in order, so "найди мне X" loses only "найди":
      whatever follows "найди " is kept, "мне" included. */
  lemma FindMeLosesOnlyFind(tail: string)
    ensures CleanQuery(FillerPrefixes[3] + [' '] + tail) == Strip(tail)
  {
    var find := FillerPrefixes[3];
    var q := find + [' '] + tail;
    FindMatchesFirst(tail);
    CleanQueryAfter(q, 3);
    StripAfterPrefix(find, ' ', tail);
  }

  /** "найди" followed by a space is the first alternative to match. */
  lemma FindMatchesFirst(tail: string)
    ensures FirstFiller(FillerPrefixes[3] + [' '] + tail, FillerPrefixes, 0) == Some(3)
  {
    var find := FillerPrefixes[3];
    var q := find + [' '] + tail;
    assert q[0] == 'н';
    NoGreetingBeforeFind(q);
    assert q[..|find|] == find && q[|find|] == ' ';
    assert Lower(find) == find;
    FirstFillerAt(q, FillerPrefixes, 0, 3);
  }

  /** None of the first three alternatives matches a text starting with "н". */
  lemma NoGreetingBeforeFind(q: string)
    requires q != [] && q[0] == 'н'
    ensures forall j :: 0 <= j < 3 ==> !FillerAt(q, FillerPrefixes[j])
  {
    FirstLetterMismatch(q, FillerPrefixes[0]);
    FirstLetterMismatch(q, FillerPrefixes[1]);
    FirstLetterMismatch(q, FillerPrefixes[2]);
  }

  /** The cleaned query once the matching alternative is known. */
  lemma CleanQueryAfter(q: string, k: nat)
    requires FirstFiller(q, FillerPrefixes, 0) == Some(k)
    ensures k < |FillerPrefixes| && CleanQuery(q) == Strip(q[|FillerPrefixes[k]|..])
  {
  }

  // ---------------------------------------------------------------------------
  // _perform_web_search

  const MaxSuccess: nat := 3
  const MaxAttempts: nat := 10

  const NoResultsText: string := "\U{1F50D} Не удалось найти актуальные результаты по вашему запросу."
  const NoPagesText: string := "\U{1F50D} Нашлись ссылки, но не удалось загрузить содержимое страниц."
  const SourcesHeader: string := "\n\n\U{1F4DA} *Источники:*\n"

  /** A result whose page loaded, with the loaded text. */
  datatype Page = Page(result: SearchResult, text: string)

  /** The candidates tried: the first ten results. */
  function Candidates(results: seq<SearchResult>): (c: seq<SearchResult>)
    ensures |c| <= MaxAttempts && |c| <= |results| && c == results[..|c|]
    ensures |results| <= MaxAttempts ==> c == results
  {
    if |results| <= MaxAttempts then results else results[..MaxAttempts]
  }

  /** Every candidate from index i on whose page loads, in order. */
  function Loaded(candidates: seq<SearchResult>, i: nat, fetch: string -> PageFetch): (r: seq<Page>)
    requires i <= |candidates|
    ensures |r| <= |candidates| - i
    decreases |candidates| - i
  {
    if i == |candidates| then []
    else
      var text := FetchPageContent(fetch(candidates[i].link));
      (if text != [] then [Page(candidates[i], text)] else []) + Loaded(candidates, i + 1, fetch)
  }

  /** What the loop collects from index i on with room for `room` more
      pages, and how many pages it requests, stopping as soon as the room is
      used up. */
  datatype Harvested = Harvested(pages: seq<Page>, attempts: nat)

  function Harvest(candidates: seq<SearchResult>, i: nat, fetch: string -> PageFetch, room: nat): (h: Harvested)
    requires i <= |candidates|
    ensures |h.pages| <= room && h.attempts <= |candidates| - i
    decreases |candidates| - i
  {
    if i == |candidates| || room == 0 then Harvested([], 0)
    else
      var text := FetchPageContent(fetch(candidates[i].link));
      var rest := Harvest(candidates, i + 1, fetch, if text != [] then room - 1 else room);
      Harvested((if text != [] then [Page(candidates[i], text)] else []) + rest.pages, 1 + rest.attempts)
  }

  /** The first n pages of a list, or all of them when there are fewer. */
  function FirstPages(pages: seq<Page>, n: nat): (r: seq<Page>)
    ensures r == pages[..if |pages| < n then |pages| else n]
  {
    if |pages| < n then pages else pages[..n]
  }

  lemma FirstPagesCons(page: Page, rest: seq<Page>, n: nat)
    ensures FirstPages([page] + rest, n + 1) == [page] + FirstPages(rest, n)
  {
    var k := if |rest| < n then |rest| else n;
    assert ([page] + rest)[..k + 1] == [page] + rest[..k];
  }

  /** Every page collected was requested and loaded, and the harvest is
      exactly the first `room` loadable candidates, in order. */
  lemma {:induction false} HarvestIsFirstLoaded(candidates: seq<SearchResult>, i: nat, fetch: string -> PageFetch, room: nat)
    requires i <= |candidates|
    ensures Harvest(candidates, i, fetch, room).pages == FirstPages(Loaded(candidates, i, fetch), room)
    decreases |candidates| - i
  {
    if i < |candidates| && room > 0 {
      var text := FetchPageContent(fetch(candidates[i].link));
      var rest := Loaded(candidates, i + 1, fetch);
      if text != [] {
        var page := Page(candidates[i], text);
        assert Loaded(candidates, i, fetch) == [page] + rest;
        assert Harvest(candidates, i, fetch, room).pages == [page] + Harvest(candidates, i + 1, fetch, room - 1).pages;
        HarvestIsFirstLoaded(candidates, i + 1, fetch, room - 1);
        FirstPagesCons(page, rest, room - 1);
      } else {
        assert Loaded(candidates, i, fetch) == rest;
        assert Harvest(candidates, i, fetch, room).pages == Harvest(candidates, i + 1, fetch, room).pages;
        HarvestIsFirstLoaded(candidates, i + 1, fetch, room);
      }
    } else {
      assert FirstPages(Loaded(candidates, i, fetch), room) == [];
    }
  }

  /** Every page loaded from index i on was requested and is non-empty. */
  lemma {:induction false} LoadedPagesLoaded(candidates: seq<SearchResult>, i: nat, fetch: string -> PageFetch)
    requires i <= |candidates|
    ensures forall k :: 0 <= k < |Loaded(candidates, i, fetch)| ==>
      var p := Loaded(candidates, i, fetch)[k];
      p.text != [] && p.text == FetchPageContent(fetch(p.result.link))
    decreases |candidates| - i
  {
    if i < |candidates| {
      LoadedPagesLoaded(candidates, i + 1, fetch);
    }
  }

  /** The loop stops right after the last page it needs: when the room is
      used up, the last page requested is one that loaded, and only the
      first `attempts` candidates were requested. */
  lemma {:induction false} StopsAtLastNeededPage(candidates: seq<SearchResult>, i: nat, fetch: string -> PageFetch, room: nat)
    requires i <= |candidates|
    ensures var h := Harvest(candidates, i, fetch, room);
      Harvest(candidates[..i + h.attempts], i, fetch, room) == h
      && (room > 0 && |h.pages| == room ==>
            h.attempts > 0 && FetchPageContent(fetch(candidates[i + h.attempts - 1].link)) != [])
    decreases |candidates| - i
  {
    var h := Harvest(candidates, i, fetch, room);
    HarvestPrefix(candidates, candidates[..i + h.attempts], i, fetch, room);
    if i < |candidates| && room > 0 {
      var text := FetchPageContent(fetch(candidates[i].link));
      var room' := if text != [] then room - 1 else room;
      StopsAtLastNeededPage(candidates, i + 1, fetch, room');
    }
  }

  /** The harvest from index i depends only on the candidates it requests. */
  lemma {:induction false} HarvestPrefix(candidates: seq<SearchResult>, cut: seq<SearchResult>, i: nat,
                                         fetch: string -> PageFetch, room: nat)
    requires i <= |cut| <= |candidates| && cut == candidates[..|cut|]
    requires i + Harvest(candidates, i, fetch, room).attempts <= |cut|
    ensures Harvest(cut, i, fetch, room) == Harvest(candidates, i, fetch, room)
    decreases |candidates| - i
  {
    if i < |candidates| && room > 0 {
      assert cut[i] == candidates[i];
      var text := FetchPageContent(fetch(candidates[i].link));
      var room' := if text != [] then room - 1 else room;
      HarvestPrefix(candidates, cut, i + 1, fetch, room');
    } else if i == |candidates| {
      assert cut == candidates;
    }
  }

  function PageBlock(p: Page): string {
    "Источник: " + p.result.title + " (" + p.result.link + ")\n" + p.text + "\n"
  }

  function SourceLine(r: SearchResult): string {
    "\U{1F517} [" + r.title + "](" + r.link + ")"
  }

  /** The page_texts list of a harvest. */
  function PageBlocks(pages: seq<Page>): (r: seq<string>)
    ensures |r| == |pages|
  {
    if pages == [] then [] else PageBlocks(pages[..|pages| - 1]) + [PageBlock(pages[|pages| - 1])]
  }

  /** The successful_links list of a harvest. */
  function Sources(pages: seq<Page>): (r: seq<SearchResult>)
    ensures |r| == |pages|
  {
    if pages == [] then [] else Sources(pages[..|pages| - 1]) + [pages[|pages| - 1].result]
  }

  /** The source lines of a list of results, as the list comprehension builds them. */
  function SourceLinesOf(results: seq<SearchResult>): (r: seq<string>)
    ensures |r| == |results|
  {
    if results == [] then [] else SourceLinesOf(results[..|results| - 1]) + [SourceLine(results[|results| - 1])]
  }

  /** The context handed back to the model: the pages, then the sources. */
  function Render(pages: seq<Page>): string {
    Join(PageBlocks(pages), "\n\n") + (SourcesHeader + Join(SourceLinesOf(Sources(pages)), "\n"))
  }

  /** The text _perform_web_search returns for a query. */
  function WebSearchText(query: string, search: string -> SearchApi, fetch: string -> PageFetch): (r: string)
    ensures r != []
  {
    var api := search(SearchQuery(query));
    var results := if api.SearchRaised? then [] else Formatted(api.hits);
    if results == [] then NoResultsText
    else
      var pages := Harvest(Candidates(results), 0, fetch, MaxSuccess).pages;
      if pages == [] then NoPagesText
      else
        var r := Render(pages);
        assert |r| >= |SourcesHeader|;
        r
  }

  /** _perform_web_search: clean the query, search, try the first ten
      results until three pages load, and render them with their sources.
      `attempts` counts the page requests. */
  method PerformWebSearch(query: string, search: string -> SearchApi, fetch: string -> PageFetch)
    returns (context: string, attempts: nat)
    ensures context == WebSearchText(query, search, fetch) && context != []
    ensures attempts <= MaxAttempts
  {
    var cleanedQuery := CleanQuery(query);
    var searchQuery := cleanedQuery + " lang:ru";
    var searchResults := CallSearchApi(search(searchQuery));
    assert searchQuery == SearchQuery(query);
    attempts := 0;
    if searchResults == [] {
      return NoResultsText, 0;
    }
    var candidates := Candidates(searchResults);
    var pageTexts: seq<string>;
    var successfulLinks: seq<SearchResult>;
    ghost var pages: seq<Page>;
    pageTexts, successfulLinks, pages, attempts := FetchPages(candidates, fetch);
    if pageTexts == [] {
      return NoPagesText, attempts;
    }
    var combinedContext := Join(pageTexts, "\n\n");
    var sourceLines := SourceLinesOf(successfulLinks);
    var sourcesBlock := SourcesHeader + Join(sourceLines, "\n");
    context := combinedContext + sourcesBlock;
    assert pageTexts == PageBlocks(pages);
    assert context == Render(pages);
    WebSearchTextLoaded(query, search, fetch, searchResults, candidates, pages);
  }

  /** The fetch loop of _perform_web_search over the first ten results:
      each link is requested in turn, a page that loads is kept with its
      source, and the loop stops after the third kept page. */
  method FetchPages(candidates: seq<SearchResult>, fetch: string -> PageFetch)
    returns (pageTexts: seq<string>, successfulLinks: seq<SearchResult>, ghost pages: seq<Page>, attempts: nat)
    ensures Harvested(pages, attempts) == Harvest(candidates, 0, fetch, MaxSuccess)
    ensures pageTexts == PageBlocks(pages) && successfulLinks == Sources(pages)
    ensures var h := Harvest(candidates, 0, fetch, MaxSuccess);
      pageTexts == PageBlocks(h.pages) && successfulLinks == Sources(h.pages) && attempts == h.attempts
  {
    pageTexts, successfulLinks, pages, attempts := [], [], [], 0;
    ghost var room: nat := MaxSuccess;
    ghost var target := Harvest(candidates, 0, fetch, room);
    assert [] + target.pages == target.pages;
    var i := 0;
    while i < |candidates|
      invariant 0 <= i <= |candidates|
      invariant room > 0 && |pages| + room == MaxSuccess
      invariant target == Resumed(pages, attempts, candidates, i, fetch, room)
      invariant pageTexts == PageBlocks(pages) && successfulLinks == Sources(pages)
    {
      var r := candidates[i];
      var url := r.link;
      var text := FetchPageContent(fetch(url));
      ResumedStep(pages, attempts, candidates, i, fetch, room);
      attempts := attempts + 1;
      if text != [] {
        PageBlocksAppend(pages, Page(r, text));
        pageTexts := pageTexts + [PageBlock(Page(r, text))];
        successfulLinks := successfulLinks + [r];
        pages := pages + [Page(r, text)];
        room := room - 1;
        if |pageTexts| >= MaxSuccess {
          ResumedDone(pages, attempts, candidates, i + 1, fetch, room);
          break;
        }
      }
      i := i + 1;
    }
    if i == |candidates| {
      ResumedDone(pages, attempts, candidates, i, fetch, room);
    }
  }

  /** The loop's state picked up where it stands: the pages and attempts so
      far followed by the harvest from index i with the room that is left. */
  ghost function Resumed(pages: seq<Page>, attempts: nat, candidates: seq<SearchResult>, i: nat,
                         fetch: string -> PageFetch, room: nat): Harvested
    requires i <= |candidates|
  {
    var h := Harvest(candidates, i, fetch, room);
    Harvested(pages + h.pages, attempts + h.attempts)
  }

  /** Requesting candidate i moves its page, if it loads, into the pages so far. */
  lemma ResumedStep(pages: seq<Page>, attempts: nat, candidates: seq<SearchResult>, i: nat,
                    fetch: string -> PageFetch, room: nat)
    requires i < |candidates| && room > 0
    ensures var text := FetchPageContent(fetch(candidates[i].link));
      Resumed(pages, attempts, candidates, i, fetch, room) ==
        if text != [] then Resumed(pages + [Page(candidates[i], text)], attempts + 1, candidates, i + 1, fetch, room - 1)
        else Resumed(pages, attempts + 1, candidates, i + 1, fetch, room)
  {
    var text := FetchPageContent(fetch(candidates[i].link));
    var rest := Harvest(candidates, i + 1, fetch, if text != [] then room - 1 else room);
    if text != [] {
      assert pages + ([Page(candidates[i], text)] + rest.pages) == (pages + [Page(candidates[i], text)]) + rest.pages;
    } else {
      assert [] + rest.pages == rest.pages;
    }
  }

  /** With no room or no candidates left, nothing more is collected. */
  lemma ResumedDone(pages: seq<Page>, attempts: nat, candidates: seq<SearchResult>, i: nat,
                    fetch: string -> PageFetch, room: nat)
    requires i <= |candidates| && (i == |candidates| || room == 0)
    ensures Resumed(pages, attempts, candidates, i, fetch, room) == Harvested(pages, attempts)
  {
    assert pages + [] == pages;
  }

  /** WebSearchText once the results and the pages are known to be non-empty. */
  lemma WebSearchTextLoaded(query: string, search: string -> SearchApi, fetch: string -> PageFetch,
                            results: seq<SearchResult>, candidates: seq<SearchResult>, pages: seq<Page>)
    requires var api := search(SearchQuery(query));
      results == if api.SearchRaised? then [] else Formatted(api.hits)
    requires results != [] && candidates == Candidates(results)
    requires pages == Harvest(candidates, 0, fetch, MaxSuccess).pages && pages != []
    ensures WebSearchText(query, search, fetch) == Render(pages)
  {
  }

  lemma PageBlocksAppend(pages: seq<Page>, p: Page)
    ensures PageBlocks(pages + [p]) == PageBlocks(pages) + [PageBlock(p)]
    ensures Sources(pages + [p]) == Sources(pages) + [p.result]
  {
    assert (pages + [p])[..|pages|] == pages;
  }

  /** At most three pages are included, and the sources block lists exactly
      the loaded results among the first ten, in order, cut after the third. */
  lemma WebSearchSources(query: string, search: string -> SearchApi, fetch: string -> PageFetch)
    ensures var api := search(SearchQuery(query));
      var results := if api.SearchRaised? then [] else Formatted(api.hits);
      var all := Loaded(Candidates(results), 0, fetch);
      var pages := all[..if |all| < MaxSuccess then |all| else MaxSuccess];
      (results == [] ==> WebSearchText(query, search, fetch) == NoResultsText)
      && (results != [] && all == [] ==> WebSearchText(query, search, fetch) == NoPagesText)
      && (results != [] && all != [] ==>
            |pages| <= MaxSuccess
            && WebSearchText(query, search, fetch) == Render(pages))
  {
    var api := search(SearchQuery(query));
    var results := if api.SearchRaised? then [] else Formatted(api.hits);
    HarvestIsFirstLoaded(Candidates(results), 0, fetch, MaxSuccess);
  }

  // ---------------------------------------------------------------------------
  // run_fc

  /** The arguments of a tool call: not a JSON object, or an object whose
      "query" key may be missing. */
  datatype ToolArgs = MalformedJson | ArgsObject(query: Option<string>)

  datatype ToolCall = ToolCall(id: string, name: string, arguments: ToolArgs)

  /** The message of a completion: its content and its tool calls ([] when
      there are none). */
  datatype ModelReply = ModelReply(content: Option<string>, toolCalls: seq<ToolCall>)

  /** A completion request's outcome: the first choice's message, or an exception. */
  datatype Completion = Replied(message: ModelReply) | CompletionRaised

  /** The entries of the messages list: a role/content dictionary, the
      model's own message object, or a tool result dictionary. */
  datatype Msg =
    | Turn(role: string, content: string)
    | ModelTurn(reply: ModelReply)
    | ToolResult(toolCallId: string, name: string, content: string)

  /** One request to the model: the messages and whether the tools were offered. */
  datatype Request = Request(messages: seq<Msg>, withTools: bool)

  datatype FcOutcome = FinalAnswer(content: Option<string>) | FcRaised

  const WebSearchTool: string := "web_search"

  /** The calls of the web_search tool, in order. */
  function WebCalls(calls: seq<ToolCall>): (r: seq<ToolCall>)
    ensures |r| <= |calls| && forall i :: 0 <= i < |r| ==> r[i].name == WebSearchTool && r[i] in calls
    ensures forall i :: 0 <= i < |calls| && calls[i].name == WebSearchTool ==> calls[i] in r
  {
    if calls == [] then []
    else
      var last := calls[|calls| - 1];
      var init := calls[..|calls| - 1];
      assert forall k :: 0 <= k < |init| ==> init[k] == calls[k];
      WebCalls(calls[..|calls| - 1]) + (if last.name == WebSearchTool then [last] else [])
  }

  /** The web_search calls of two stretches of calls are those of the first
      followed by those of the second: the loop keeps call order. */
  lemma {:induction false} WebCallsConcat(a: seq<ToolCall>, b: seq<ToolCall>)
    ensures WebCalls(a + b) == WebCalls(a) + WebCalls(b)
    decreases |b|
  {
    if b == [] {
      assert a + b == a;
    } else {
      var init := b[..|b| - 1];
      var last := b[|b| - 1];
      var tail := if last.name == WebSearchTool then [last] else [];
      assert (a + b)[..|a + b| - 1] == a + init && (a + b)[|a + b| - 1] == last;
      calc {
        WebCalls(a + b);
        WebCalls(a + init) + tail;
        { WebCallsConcat(a, init); }
        WebCalls(a) + WebCalls(init) + tail;
        WebCalls(a) + (WebCalls(init) + tail);
      }
    }
  }

  /** A single call is run exactly when it is named web_search. */
  lemma WebCallsSingle(c: ToolCall)
    ensures WebCalls([c]) == if c.name == WebSearchTool then [c] else []
  {
    assert [c][..0] == [];
  }

  /** A web_search call whose arguments make the runner raise: not a JSON
      object, or no "query" (re.sub on None). */
  predicate BadArguments(c: ToolCall) {
    c.arguments.MalformedJson? || c.arguments.query.None?
  }

  /** The tool messages appended for the calls, or None when one raises. */
  function ToolMessages(calls: seq<ToolCall>, answer: string -> string): (r: Option<seq<Msg>>)
    ensures r.None? <==> exists i :: 0 <= i < |calls| && calls[i].name == WebSearchTool && BadArguments(calls[i])
    ensures r.Some? ==> |r.value| == |WebCalls(calls)|
  {
    if calls == [] then Some([])
    else
      var init := calls[..|calls| - 1];
      var c := calls[|calls| - 1];
      assert forall i :: 0 <= i < |init| ==> init[i] == calls[i];
      match ToolMessages(init, answer)
      case None => None
      case Some(done) =>
        if c.name != WebSearchTool then Some(done)
        else if BadArguments(c) then None
        else Some(done + [ToolResult(c.id, WebSearchTool, answer(c.arguments.query.value))])
  }

  /** One tool message per web_search call, in order, each answering that
      call's id with the search for its query. */
  lemma {:induction false} ToolMessagesContents(calls: seq<ToolCall>, answer: string -> string)
    requires ToolMessages(calls, answer).Some?
    ensures var r := ToolMessages(calls, answer).value;
      var web := WebCalls(calls);
      forall k :: 0 <= k < |web| ==>
        !BadArguments(web[k])
        && r[k] == ToolResult(web[k].id, WebSearchTool, answer(web[k].arguments.query.value))
  {
    if calls != [] {
      var init := calls[..|calls| - 1];
      var c := calls[|calls| - 1];
      assert forall i :: 0 <= i < |init| ==> init[i] == calls[i];
      assert ToolMessages(init, answer).Some?;
      ToolMessagesContents(init, answer);
      var done := ToolMessages(init, answer).value;
      var r := ToolMessages(calls, answer).value;
      var web := WebCalls(calls);
      var web' := WebCalls(init);
      assert web == web' + (if c.name == WebSearchTool then [c] else []);
      forall k | 0 <= k < |web|
        ensures !BadArguments(web[k])
        ensures r[k] == ToolResult(web[k].id, WebSearchTool, answer(web[k].arguments.query.value))
      {
        if k < |web'| {
          assert web[k] == web'[k];
          assert r[k] == done[k];
        } else {
          assert web[k] == c;
        }
      }
    }
  }

  /** Each web_search call is answered by the search for its query. */
  function SearchAnswer(search: string -> SearchApi, fetch: string -> PageFetch): string -> string {
    q => WebSearchText(q, search, fetch)
  }

  /** The opening conversation: the assistant's prompt, then the query. */
  function OpeningMessages(assistants: map<string, Assistant>, query: string, assistantKey: string): seq<Msg> {
    [Turn("system", PromptFor(assistants, Some(assistantKey))), Turn("user", query)]
  }

  /** run_fc: the first request offers the web_search tool; when the model
      calls tools, their results are appended after its message and a second
      request without tools gives the answer; otherwise the first answer is
      returned. `requests` lists the requests made, in order. */
  method RunFc(assistants: map<string, Assistant>, query: string, assistantKey: string,
               llm: Request -> Completion, search: string -> SearchApi, fetch: string -> PageFetch)
    returns (r: FcOutcome, requests: seq<Request>)
    ensures 1 <= |requests| <= 2
    ensures requests[0] == Request(OpeningMessages(assistants, query, assistantKey), true)
    ensures llm(requests[0]).CompletionRaised? ==> r == FcRaised && |requests| == 1
    ensures llm(requests[0]).Replied? && llm(requests[0]).message.toolCalls == [] ==>
      r == FinalAnswer(llm(requests[0]).message.content) && |requests| == 1
    ensures llm(requests[0]).Replied? && llm(requests[0]).message.toolCalls != [] ==>
      var reply := llm(requests[0]).message;
      match ToolMessages(reply.toolCalls, SearchAnswer(search, fetch))
      case None => r == FcRaised && |requests| == 1
      case Some(toolMessages) =>
        |requests| == 2
        && requests[1] == Request(OpeningMessages(assistants, query, assistantKey) + [ModelTurn(reply)] + toolMessages, false)
        && r == (if llm(requests[1]).Replied? then FinalAnswer(llm(requests[1]).message.content) else FcRaised)
  {
    var assistantPrompt := PromptFor(assistants, Some(assistantKey));
    var messages := [Turn("system", assistantPrompt), Turn("user", query)];
    var first := Request(messages, true);
    requests := [first];
    var response := llm(first);
    if response.CompletionRaised? {
      return FcRaised, requests;
    }
    var responseMessage := response.message;
    var toolCalls := responseMessage.toolCalls;
    if toolCalls == [] {
      return FinalAnswer(responseMessage.content), requests;
    }
    var toolMessages, raised := ToolResults(toolCalls, search, fetch, SearchAnswer(search, fetch));
    if raised {
      return FcRaised, requests;
    }
    messages := messages + [ModelTurn(responseMessage)] + toolMessages;
    var second := Request(messages, false);
    requests := requests + [second];
    match llm(second) {
      case CompletionRaised =>
        r := FcRaised;
      case Replied(secondMessage) =>
        r := FinalAnswer(secondMessage.content);
    }
  }

  /** The tool loop of run_fc: one tool message per web_search call, in order;
      `raised` when a call's arguments make the loop raise. */
  method ToolResults(calls: seq<ToolCall>, search: string -> SearchApi, fetch: string -> PageFetch,
                     ghost answer: string -> string)
    returns (toolMessages: seq<Msg>, raised: bool)
    requires forall q {:trigger WebSearchText(q, search, fetch)} :: answer(q) == WebSearchText(q, search, fetch)
    ensures raised <==> ToolMessages(calls, answer).None?
    ensures !raised ==> toolMessages == ToolMessages(calls, answer).value
  {
    toolMessages := [];
    var i := 0;
    while i < |calls|
      invariant 0 <= i <= |calls|
      invariant ToolMessages(calls[..i], answer) == Some(toolMessages)
    {
      var next, stop := NextToolMessage(calls, i, toolMessages, search, fetch, answer);
      if stop {
        ToolMessagesPrefix(calls, i + 1, answer);
        return toolMessages, true;
      }
      toolMessages := next;
      i := i + 1;
    }
    assert calls[..i] == calls;
    raised := false;
  }

  /** One turn of the tool loop: a web_search call with usable arguments
      adds its answer, other calls add nothing, and bad arguments raise. */
  method NextToolMessage(calls: seq<ToolCall>, i: nat, done: seq<Msg>, search: string -> SearchApi,
                         fetch: string -> PageFetch, ghost answer: string -> string)
    returns (next: seq<Msg>, raised: bool)
    requires forall q {:trigger WebSearchText(q, search, fetch)} :: answer(q) == WebSearchText(q, search, fetch)
    requires i < |calls| && ToolMessages(calls[..i], answer) == Some(done)
    ensures raised <==> ToolMessages(calls[..i + 1], answer).None?
    ensures !raised ==> ToolMessages(calls[..i + 1], answer) == Some(next)
  {
    var toolCall := calls[i];
    ToolMessagesStep(calls, i, done, answer);
    next, raised := done, false;
    if toolCall.name == WebSearchTool {
      if BadArguments(toolCall) {
        return done, true;
      }
      var m := AnswerToolCall(toolCall, search, fetch);
      next := done + [m];
    }
  }

  /** The tool message answering one web_search call. */
  method AnswerToolCall(toolCall: ToolCall, search: string -> SearchApi, fetch: string -> PageFetch)
    returns (m: Msg)
    requires toolCall.arguments.ArgsObject? && toolCall.arguments.query.Some?
    ensures m == ToolResult(toolCall.id, WebSearchTool, WebSearchText(toolCall.arguments.query.value, search, fetch))
  {
    var searchResult, _ := PerformWebSearch(toolCall.arguments.query.value, search, fetch);
    m := ToolResult(toolCall.id, WebSearchTool, searchResult);
  }

  /** ToolMessages over one more call. */
  lemma ToolMessagesStep(calls: seq<ToolCall>, i: nat, done: seq<Msg>, answer: string -> string)
    requires i < |calls| && ToolMessages(calls[..i], answer) == Some(done)
    ensures var c := calls[i];
      ToolMessages(calls[..i + 1], answer) ==
        if c.name != WebSearchTool then Some(done)
        else if BadArguments(c) then None
        else Some(done + [ToolResult(c.id, WebSearchTool, answer(c.arguments.query.value))])
  {
    assert calls[..i + 1][..i] == calls[..i];
  }

  /** A call that raises makes every longer list of calls raise. */
  lemma ToolMessagesPrefix(calls: seq<ToolCall>, n: nat, answer: string -> string)
    requires n <= |calls|
    requires ToolMessages(calls[..n], answer).None?
    ensures ToolMessages(calls, answer).None?
  {
    var i :| 0 <= i < |calls[..n]| && calls[..n][i].name == WebSearchTool && BadArguments(calls[..n][i]);
    assert calls[i] == calls[..n][i];
  }
}
