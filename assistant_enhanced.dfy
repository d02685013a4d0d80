/** The search-enabled assistant: deciding that a message needs a web search, extracting the search terms,
    shaping the search results from the decoded reply, the search history, the prompt window and the
    per-session conversation history. The web request and the completion service are parameters. */
module AssistantEnhanced {
  import opened Common
  import opened Text
  import opened Helpers
  import opened Conversation

  // ---------------------------------------------------------------------------------------------
  // needs_internet_search
  // ---------------------------------------------------------------------------------------------

  const SearchIndicators: seq<string> := [
    "busca", "buscar", "search", "encuentra", "información sobre",
    "qué es", "quién es", "cuándo", "dónde", "cómo", "por qué",
    "últimas noticias", "actualización", "estado actual",
    "precio de", "cotización", "valor actual",
    "definición de", "significado de"
  ]

  /** `needs_internet_search`: some indicator occurs in the lowercased message. */
  function NeedsInternetSearch(message: string): (b: bool)
    ensures b <==> exists k :: 0 <= k < |SearchIndicators| && Contains(Lower(message), SearchIndicators[k])
  {
    ContainsAnyIff(Lower(message), SearchIndicators);
    ContainsAny(Lower(message), SearchIndicators)
  }

  /** The decision ignores case, and an upper-case indicator counts once lowercased. */
  lemma NeedsSearchIgnoresCase(message: string)
    ensures NeedsInternetSearch(Lower(message)) == NeedsInternetSearch(message)
  {
    LowerIdempotent(message);
  }

  /** An accented question word is recognised in capitals too: `str.lower` maps `Ó` to `ó`. */
  lemma CapitalisedQuestionWord(prefix: string, suffix: string)
    ensures NeedsInternetSearch(prefix + "CÓMO" + suffix)
  {
    var m := prefix + "CÓMO" + suffix;
    var low := Lower(m);
    var i := |prefix|;
    assert low[i..i + 4] == "cómo" by {
      assert m[i..i + 4] == "CÓMO";
      forall t | 0 <= t < 4 ensures low[i + t] == "cómo"[t] {
        assert m[i + t] == "CÓMO"[t];
      }
    }
    assert OccursAt(low, "cómo", i);
    ContainsIff(low, "cómo");
    assert SearchIndicators[9] == "cómo";
    ContainsAnyIff(low, SearchIndicators);
  }

  // ---------------------------------------------------------------------------------------------
  // _extract_search_terms
  // ---------------------------------------------------------------------------------------------

  const SearchStopWords: set<string> := {
    "el", "la", "de", "que", "y", "a", "en", "un", "es", "se", "no", "te", "lo", "le", "da", "su", "por",
    "son", "con", "para", "como", "está", "tiene", "del", "al"
  }

  /** The most words a search query keeps. */
  const MaxSearchTerms: nat := 5

  predicate IsSearchTerm(w: string) {
    w !in SearchStopWords && |w| > 2
  }

  /** `re.sub(r'[^\w\s]', ' ', text)`: every character outside `\w` and `\s` becomes a space. */
  function PunctuationToSpace(text: string): (r: string)
    ensures |r| == |text|
    ensures forall i :: 0 <= i < |text| ==> r[i] == (if IsWordOrSpace(text[i]) then text[i] else ' ')
  {
    seq(|text|, i requires 0 <= i < |text| => if IsWordOrSpace(text[i]) then text[i] else ' ')
  }

  /** The words of the cleaned, lowercased message that are search terms, in message order. */
  function SearchTerms(message: string): (ws: seq<string>)
    ensures forall i :: 0 <= i < |ws| ==> IsSearchTerm(ws[i]) && IsWord(ws[i])
  {
    var all := Words(PunctuationToSpace(Lower(message)));
    var ws := Filter(all, IsSearchTerm);
    forall i | 0 <= i < |ws| ensures IsWord(ws[i]) {
      assert multiset(ws)[ws[i]] > 0;
      FilterCounts(all, IsSearchTerm, ws[i]);
    }
    ws
  }

  /** `_extract_search_terms`: the first five search terms joined by single spaces. */
  function ExtractSearchTerms(message: string): (q: string)
    ensures SearchTerms(message) == [] ==> q == []
    ensures SearchTerms(message) != [] ==> SearchTerms(message)[0] <= q
  {
    Join(PySliceTo(SearchTerms(message), MaxSearchTerms), " ")
  }

  /** Splitting the query gives back exactly the first five search terms of the message, so it has at most
      five words, each longer than two characters and not a stop word; it is empty exactly when the
      message has no search term. */
  lemma {:induction false} SearchQueryWords(message: string)
    ensures var q := ExtractSearchTerms(message);
            && Words(q) == PySliceTo(SearchTerms(message), MaxSearchTerms)
            && |Words(q)| <= MaxSearchTerms
            && (forall w :: w in Words(q) ==> IsSearchTerm(w))
            && (q == [] <==> SearchTerms(message) == [])
  {
    var kept := PySliceTo(SearchTerms(message), MaxSearchTerms);
    assert forall w :: w in kept ==> IsWord(w) && IsSearchTerm(w) by {
      forall w | w in kept ensures IsWord(w) && IsSearchTerm(w) {
        var i :| 0 <= i < |kept| && kept[i] == w;
        assert kept[i] == SearchTerms(message)[i];
      }
    }
    WordsOfJoin(kept);
    if SearchTerms(message) != [] {
      assert |kept| > 0;
    }
  }

  /** Every term of the query is a word of the cleaned message, kept as often as it occurs there. */
  lemma SearchTermsFromMessage(message: string, w: string)
    requires IsSearchTerm(w)
    ensures multiset(SearchTerms(message))[w] == multiset(Words(PunctuationToSpace(Lower(message))))[w]
  {
    FilterCounts(Words(PunctuationToSpace(Lower(message))), IsSearchTerm, w);
  }

  // ---------------------------------------------------------------------------------------------
  // search_internet: shaping the decoded reply
  // ---------------------------------------------------------------------------------------------

  /** One entry of `RelatedTopics`: a dictionary (its `Text`, `None` when missing or null, and its
      `FirstURL`, `None` only when the key is missing) or any other value. */
  datatype Topic = TopicEntry(text: Option<string>, firstUrl: Option<Json>) | NotADict

  /** The fields of the decoded reply that are read. The texts tested for truth are `None` for a missing key
      or a null value; the fields read with a default (`AbstractSource`, `AnswerType`) are `None` only for
      a missing key, and otherwise hold the value found, null included. */
  datatype SearchData = SearchData(abstractText: Option<string>, abstractSource: Option<Json>,
                                   relatedTopics: Option<seq<Topic>>, answer: Option<string>,
                                   answerType: Option<Json>)

  datatype SearchResult =
    | AbstractResult(content: string, source: Json)
    | RelatedTopicResult(content: string, url: Json)
    | AnswerResult(content: string, source: Json)

  /** A string field tested for truth. */
  predicate Present(v: Option<string>) {
    v.Some? && v.value != []
  }

  /** `d.get(key, default)` on a field that is `None` when the key is missing: the value found, null
      included, or the default. */
  function OrDefault(v: Option<Json>, default: string): Json {
    if v.Some? then v.value else JStr(default)
  }

  /** The most related topics looked at. */
  const MaxTopics: nat := 3

  function TopicResult(t: Topic): seq<SearchResult> {
    if t.TopicEntry? && Present(t.text) then [RelatedTopicResult(t.text.value, OrDefault(t.firstUrl, ""))] else []
  }

  function TopicResults(ts: seq<Topic>): (r: seq<SearchResult>)
    ensures |r| <= |ts|
    ensures forall i :: 0 <= i < |r| ==> r[i].RelatedTopicResult? && r[i].content != []
  {
    if |ts| == 0 then [] else TopicResult(ts[0]) + TopicResults(ts[1..])
  }

  lemma {:induction false} TopicResultsAppend(a: seq<Topic>, t: Topic)
    ensures TopicResults(a + [t]) == TopicResults(a) + TopicResult(t)
    decreases |a|
  {
    if |a| == 0 {
      assert TopicResults([t]) == TopicResult(t) + TopicResults([]);
    } else {
      assert (a + [t])[1..] == a[1..] + [t];
      TopicResultsAppend(a[1..], t);
    }
  }

  function AbstractPart(data: SearchData): seq<SearchResult> {
    if Present(data.abstractText)
    then [AbstractResult(data.abstractText.value, OrDefault(data.abstractSource, "DuckDuckGo"))]
    else []
  }

  function AnswerPart(data: SearchData): seq<SearchResult> {
    if Present(data.answer) then [AnswerResult(data.answer.value, OrDefault(data.answerType, "calculation"))] else []
  }

  /** The topics looked at: the first three of a non-empty list. */
  function TopicsLookedAt(data: SearchData): (ts: seq<Topic>)
    ensures |ts| <= MaxTopics
  {
    if data.relatedTopics.Some? && data.relatedTopics.value != [] then PySliceTo(data.relatedTopics.value, MaxTopics)
    else []
  }

  /** The results the reply yields. */
  function SearchResults(data: SearchData): (r: seq<SearchResult>)
    ensures |r| <= 5
    ensures |r| > 0 && r[0].AbstractResult? <==> Present(data.abstractText)
  {
    AbstractPart(data) + TopicResults(TopicsLookedAt(data)) + AnswerPart(data)
  }

  /** The result-building part of `search_internet`. */
  method ExtractResults(data: SearchData) returns (results: seq<SearchResult>)
    ensures results == SearchResults(data)
  {
    results := [];
    if Present(data.abstractText) {
      results := results + [AbstractResult(data.abstractText.value, OrDefault(data.abstractSource, "DuckDuckGo"))];
    }
    var related := CollectTopics(TopicsLookedAt(data));
    results := results + related;
    if Present(data.answer) {
      results := results + [AnswerResult(data.answer.value, OrDefault(data.answerType, "calculation"))];
    }
  }

  /** The loop over the related topics: keep each dictionary with a non-empty `Text`. */
  method CollectTopics(topics: seq<Topic>) returns (results: seq<SearchResult>)
    ensures results == TopicResults(topics)
  {
    results := [];
    var i := 0;
    while i < |topics|
      invariant 0 <= i <= |topics|
      invariant results == TopicResults(topics[..i])
    {
      var topic := topics[i];
      if topic.TopicEntry? && Present(topic.text) {
        results := results + [RelatedTopicResult(topic.text.value, OrDefault(topic.firstUrl, ""))];
      }
      assert topics[..i + 1] == topics[..i] + [topic];
      TopicResultsAppend(topics[..i], topic);
      i := i + 1;
    }
    assert topics[..i] == topics;
  }

  /** Each related-topic result copies the `Text` of a topic looked at, and its `FirstURL` when that key is
      present (null included); `""` stands in only when the key is missing. */
  lemma {:induction false} TopicFieldsCopied(ts: seq<Topic>)
    ensures forall x :: x in TopicResults(ts) ==>
              exists t :: t in ts && t.TopicEntry? && t.text == Some(x.content)
                          && (t.firstUrl.Some? ==> x.url == t.firstUrl.value)
                          && (t.firstUrl.None? ==> x.url == JStr(""))
    decreases |ts|
  {
    if |ts| > 0 {
      TopicFieldsCopied(ts[1..]);
      forall x | x in TopicResults(ts)
        ensures exists t :: t in ts && t.TopicEntry? && t.text == Some(x.content)
                            && (t.firstUrl.Some? ==> x.url == t.firstUrl.value)
                            && (t.firstUrl.None? ==> x.url == JStr(""))
      {
        if x in TopicResult(ts[0]) {
          assert ts[0] in ts;
        } else {
          assert x in TopicResults(ts[1..]);
          var t :| t in ts[1..] && t.TopicEntry? && t.text == Some(x.content)
                   && (t.firstUrl.Some? ==> x.url == t.firstUrl.value)
                   && (t.firstUrl.None? ==> x.url == JStr(""));
          assert t in ts;
        }
      }
    }
  }

  /** `AbstractSource` and `AnswerType` are copied whenever the key is present, null included; the defaults
      `"DuckDuckGo"` and `"calculation"` stand in exactly when the key is missing. */
  lemma {:induction false} DefaultsOnlyForMissingKeys(data: SearchData)
    ensures var r := SearchResults(data);
            && (Present(data.abstractText) ==>
                  && r[0].AbstractResult?
                  && (data.abstractSource.Some? ==> r[0].source == data.abstractSource.value)
                  && (data.abstractSource.None? ==> r[0].source == JStr("DuckDuckGo")))
            && (Present(data.answer) ==>
                  && r[|r| - 1].AnswerResult?
                  && (data.answerType.Some? ==> r[|r| - 1].source == data.answerType.value)
                  && (data.answerType.None? ==> r[|r| - 1].source == JStr("calculation")))
  {
    var a, t, b := AbstractPart(data), TopicResults(TopicsLookedAt(data)), AnswerPart(data);
    assert SearchResults(data) == a + t + b;
    if Present(data.abstractText) {
      assert (a + t + b)[0] == a[0];
    }
    if Present(data.answer) {
      assert (a + t + b)[|a + t + b| - 1] == b[0];
    }
  }

  /** A reply whose `AbstractSource` is present but null keeps the null as the source. */
  lemma NullSourceKept(text: string)
    requires text != []
    ensures SearchResults(SearchData(Some(text), Some(JNull), None, None, None)) == [AbstractResult(text, JNull)]
  {
    var data := SearchData(Some(text), Some(JNull), None, None, None);
    assert TopicsLookedAt(data) == [];
    assert SearchResults(data) == AbstractPart(data) + [] + [];
  }

  function Stage(r: SearchResult): nat {
    match r
    case AbstractResult(_, _) => 0
    case RelatedTopicResult(_, _) => 1
    case AnswerResult(_, _) => 2
  }

  /** At most one abstract, first; then at most three related topics, each with text; then at most one
      answer, last. Every result has non-empty content. */
  lemma {:induction false} SearchResultsShape(data: SearchData)
    ensures var r := SearchResults(data);
            && |r| <= 5
            && (forall i, j :: 0 <= i < j < |r| ==> Stage(r[i]) <= Stage(r[j]))
            && (forall i :: 0 <= i < |r| && r[i].AbstractResult? ==> i == 0)
            && (forall i :: 0 <= i < |r| && r[i].AnswerResult? ==> i == |r| - 1)
            && (forall i :: 0 <= i < |r| ==> r[i].content != [])
            && (r != [] && r[0].AbstractResult? <==> Present(data.abstractText))
            && (r != [] && r[|r| - 1].AnswerResult? <==> Present(data.answer))
  {
    var a, t, b := AbstractPart(data), TopicResults(TopicsLookedAt(data)), AnswerPart(data);
    var r := a + t + b;
    assert |t| <= 3;
    forall i | 0 <= i < |r| ensures Stage(r[i]) == (if i < |a| then 0 else if i < |a| + |t| then 1 else 2)
      && r[i].content != []
    {
      if i < |a| {
        assert r[i] == a[i];
      } else if i < |a| + |t| {
        assert r[i] == t[i - |a|];
      } else {
        assert r[i] == b[i - |a| - |t|];
      }
    }
  }

  // ---------------------------------------------------------------------------------------------
  // The assistant
  // ---------------------------------------------------------------------------------------------

  /** What the web request yields: a status code and the decoded reply, or an exception with its text. */
  datatype HttpOutcome = HttpReply(statusCode: nat, data: SearchData) | RequestFails(reason: string)

  datatype SearchOutcome =
    | SearchSuccess(query: string, results: seq<SearchResult>)
    | SearchError(query: string, error: string)

  datatype SearchRecord = SearchRecord(query: string, results: seq<SearchResult>)

  /** The most searches `get_search_history` returns. */
  const SearchHistoryWindow: nat := 10

  /** The most search results pasted into the prompt. */
  const MaxPromptResults: nat := 3

  /** What is sent to the completion service besides the fixed system message: the recent history and the
      user's message, extended with the search findings. */
  datatype Prompt = Prompt(recent: seq<Entry<string>>, userContent: string)

  /** The completion service's answer, or the exception it raised. */
  datatype Completion = Completed(text: string) | CompletionFails(reason: string)

  /** `len(search_results.get('results', []))` with the query, reported when a search ran. */
  datatype SearchSummary = SearchSummary(query: string, resultsCount: nat)

  datatype ChatOutcome =
    | ChatSuccess(response: string, sessionId: string, search: Option<SearchSummary>)
    | ChatError(error: string, sessionId: string)

  function Bullets(results: seq<SearchResult>): string {
    if |results| == 0 then [] else "- " + results[0].content + "\n" + Bullets(results[1..])
  }

  /** The user's message, with up to three findings appended when the search found anything. */
  function EnhancedMessage(message: string, search: Option<SearchOutcome>): (r: string)
    ensures !(search.Some? && search.value.SearchSuccess? && search.value.results != []) ==> r == message
    ensures message <= r
  {
    if search.Some? && search.value.SearchSuccess? && search.value.results != [] then
      message + "\n" + "\n\nInformación encontrada en internet:\n"
      + Bullets(PySliceTo(search.value.results, MaxPromptResults))
    else message
  }

  function BuildPrompt(history: seq<Entry<string>>, message: string, search: Option<SearchOutcome>): (p: Prompt)
    ensures |p.recent| <= PromptWindow && |p.recent| <= |history| && p.recent == history[|history| - |p.recent|..]
  {
    Prompt(RecentEntries(history), EnhancedMessage(message, search))
  }

  /** What a search step adds to the search history: the record of a successful search, else nothing. */
  function Recorded(search: Option<SearchOutcome>): seq<SearchRecord> {
    if search.Some? && search.value.SearchSuccess? then [SearchRecord(search.value.query, search.value.results)] else []
  }

  function Summary(search: SearchOutcome): SearchSummary {
    SearchSummary(search.query, if search.SearchSuccess? then |search.results| else 0)
  }

  class EnhancedAssistant {
    var conversationHistory: map<string, seq<Entry<string>>>
    ghost var said: map<string, seq<Entry<string>>>
    var searchHistory: seq<SearchRecord>

    ghost predicate Valid()
      reads this
    {
      SessionsWindowed(conversationHistory, said)
    }

    constructor ()
      ensures Valid() && conversationHistory == map[] && searchHistory == []
    {
      conversationHistory := map[];
      said := map[];
      searchHistory := [];
    }

    /** `search_internet`: a 200 reply yields its results and is recorded; any other status or an
        exception yields an error and records nothing. */
    method SearchInternet(query: string, http: HttpOutcome) returns (r: SearchOutcome)
      modifies this`searchHistory
      ensures r.query == query
      ensures http.HttpReply? && http.statusCode == 200 ==>
                r == SearchSuccess(query, SearchResults(http.data))
                && searchHistory == old(searchHistory) + [SearchRecord(query, r.results)]
      ensures http.HttpReply? && http.statusCode != 200 ==>
                r == SearchError(query, "Error en búsqueda: " + NatToString(http.statusCode))
                && searchHistory == old(searchHistory)
      ensures http.RequestFails? ==>
                r == SearchError(query, "Error realizando búsqueda: " + http.reason) && searchHistory == old(searchHistory)
    {
      match http
      case RequestFails(reason) =>
        r := SearchError(query, "Error realizando búsqueda: " + reason);
      case HttpReply(status, data) =>
        if status == 200 {
          var results := ExtractResults(data);
          r := SearchSuccess(query, results);
          searchHistory := searchHistory + [SearchRecord(query, results)];
        } else {
          r := SearchError(query, "Error en búsqueda: " + NatToString(status));
        }
    }

    /** `get_search_history`: the last ten searches and how many there were in all. */
    method GetSearchHistory() returns (searches: seq<SearchRecord>, totalSearches: nat)
      ensures |searches| == if |searchHistory| <= SearchHistoryWindow then |searchHistory| else SearchHistoryWindow
      ensures searches == searchHistory[|searchHistory| - |searches|..]
      ensures totalSearches == |searchHistory|
    {
      searches := Last(searchHistory, SearchHistoryWindow);
      totalSearches := |searchHistory|;
    }

    /** `get_ai_response`: the session is created if new; a message that needs a search and has search terms
        triggers one; the prompt carries the last ten entries; a completed answer is recorded with the
        message and the session cut to its last 20 entries, while a failed completion records nothing
        more than the (possibly new, empty) session and the search. */
    method GetAiResponse(message: string, sessionId: string, http: HttpOutcome, complete: Prompt -> Completion)
      returns (r: ChatOutcome, search: Option<SearchOutcome>, prompt: Prompt, completion: Completion)
      requires Valid()
      modifies this
      ensures Valid()
      ensures search.Some? <==> NeedsInternetSearch(message) && ExtractSearchTerms(message) != []
      ensures search.Some? ==> search.value.query == ExtractSearchTerms(message)
      ensures searchHistory == old(searchHistory) + Recorded(search)
      ensures prompt == BuildPrompt(SessionEntries(old(conversationHistory), sessionId), message, search)
      ensures completion == complete(prompt)
      ensures completion.CompletionFails? ==>
                && r == ChatError("Error al obtener respuesta de IA: " + completion.reason, sessionId)
                && conversationHistory == old(conversationHistory)[sessionId := SessionEntries(old(conversationHistory), sessionId)]
      ensures completion.Completed? ==>
                && r == ChatSuccess(completion.text, sessionId, if search.Some? then Some(Summary(search.value)) else None)
                && conversationHistory == old(conversationHistory)[sessionId :=
                     AppendExchange(SessionEntries(old(conversationHistory), sessionId), message, completion.text)]
    {
      search := SearchIfNeeded(message, http);
      r, prompt, completion := Respond(sessionId, message, search, complete);
    }

    /** The chat part of `get_ai_response`, once the search is done: send the prompt and record a completed
        answer. */
    method Respond(sessionId: string, message: string, search: Option<SearchOutcome>, complete: Prompt -> Completion)
      returns (r: ChatOutcome, prompt: Prompt, completion: Completion)
      requires Valid()
      modifies this`conversationHistory, this`said
      ensures Valid()
      ensures prompt == BuildPrompt(SessionEntries(old(conversationHistory), sessionId), message, search)
      ensures completion == complete(prompt)
      ensures completion.CompletionFails? ==>
                && r == ChatError("Error al obtener respuesta de IA: " + completion.reason, sessionId)
                && conversationHistory == old(conversationHistory)[sessionId := SessionEntries(old(conversationHistory), sessionId)]
      ensures completion.Completed? ==>
                && r == ChatSuccess(completion.text, sessionId, if search.Some? then Some(Summary(search.value)) else None)
                && conversationHistory == old(conversationHistory)[sessionId :=
                     AppendExchange(SessionEntries(old(conversationHistory), sessionId), message, completion.text)]
    {
      prompt := BuildPrompt(SessionEntries(conversationHistory, sessionId), message, search);
      completion := complete(prompt);
      r := Answer(sessionId, message, completion, search);
    }

    /** The last step of `get_ai_response`: a completed answer is recorded in the session, a failed one
        only leaves the session open, and the outcome carries the answer or the error. */
    method Answer(sessionId: string, message: string, completion: Completion, search: Option<SearchOutcome>)
      returns (r: ChatOutcome)
      requires Valid()
      modifies this`conversationHistory, this`said
      ensures Valid()
      ensures completion.CompletionFails? ==>
                && r == ChatError("Error al obtener respuesta de IA: " + completion.reason, sessionId)
                && conversationHistory == old(conversationHistory)[sessionId := SessionEntries(old(conversationHistory), sessionId)]
      ensures completion.Completed? ==>
                && r == ChatSuccess(completion.text, sessionId, if search.Some? then Some(Summary(search.value)) else None)
                && conversationHistory == old(conversationHistory)[sessionId :=
                     AppendExchange(SessionEntries(old(conversationHistory), sessionId), message, completion.text)]
    {
      match completion
      case CompletionFails(reason) =>
        OpenSession(sessionId);
        r := ChatError("Error al obtener respuesta de IA: " + reason, sessionId);
      case Completed(text) =>
        RecordExchange(sessionId, message, text);
        r := ChatSuccess(text, sessionId, if search.Some? then Some(Summary(search.value)) else None);
    }

    /** The search step of `get_ai_response`: search for the extracted terms when the message asks for it
        and they are not empty. */
    method SearchIfNeeded(message: string, http: HttpOutcome) returns (search: Option<SearchOutcome>)
      modifies this`searchHistory
      ensures search.Some? <==> NeedsInternetSearch(message) && ExtractSearchTerms(message) != []
      ensures search.Some? ==> search.value.query == ExtractSearchTerms(message)
      ensures searchHistory == old(searchHistory) + Recorded(search)
    {
      search := None;
      if NeedsInternetSearch(message) {
        var query := ExtractSearchTerms(message);
        if query != [] {
          var found := SearchInternet(query, http);
          search := Some(found);
        }
      }
    }

    /** `if session_id not in self.conversation_history: self.conversation_history[session_id] = []`. */
    method OpenSession(sessionId: string)
      requires Valid()
      modifies this`conversationHistory, this`said
      ensures Valid()
      ensures conversationHistory == old(conversationHistory)[sessionId := SessionEntries(old(conversationHistory), sessionId)]
      ensures said == old(said)[sessionId := SessionEntries(old(said), sessionId)]
    {
      if sessionId !in conversationHistory {
        UpdateKeepsWindowed(conversationHistory, said, sessionId, [], []);
        conversationHistory := conversationHistory[sessionId := []];
        said := said[sessionId := []];
      } else {
        assert conversationHistory == conversationHistory[sessionId := conversationHistory[sessionId]];
        assert said == said[sessionId := said[sessionId]];
      }
    }

    /** The history part of a completed answer: open the session if needed, append the user entry and the
        reply, and cut the session back to its last 20 entries. */
    method RecordExchange(sessionId: string, message: string, reply: string)
      requires Valid()
      modifies this`conversationHistory, this`said
      ensures Valid()
      ensures conversationHistory == old(conversationHistory)[sessionId :=
                AppendExchange(SessionEntries(old(conversationHistory), sessionId), message, reply)]
    {
      ghost var shown0 := conversationHistory;
      if sessionId !in conversationHistory {
        conversationHistory := conversationHistory[sessionId := []];
        said := said[sessionId := []];
      }
      var history := conversationHistory[sessionId];
      assert history == SessionEntries(shown0, sessionId);
      ghost var full := said[sessionId];
      ExchangeKeepsWindowed(conversationHistory, said, sessionId, message, reply);
      ghost var before := history;
      history := history + [UserEntry(message), AssistantEntry(reply)];
      if |history| > HistoryLimit {
        history := history[|history| - HistoryLimit..];
      }
      assert history == AppendExchange(before, message, reply);
      conversationHistory := conversationHistory[sessionId := history];
      if sessionId !in shown0 {
        OverwriteTwice(shown0, sessionId, [], history);
      }
      said := said[sessionId := full + [UserEntry(message), AssistantEntry(reply)]];
    }
  }

  // ---------------------------------------------------------------------------------------------
  // get_code_template
  // ---------------------------------------------------------------------------------------------

  /** The three built-in templates of this assistant; their source text is not part of this model. */
  datatype Template = FlaskApi | ReactComponent | PythonScript

  function TemplateName(t: Template): string {
    match t
    case FlaskApi => "flask_api"
    case ReactComponent => "react_component"
    case PythonScript => "python_script"
  }

  const TemplateKeys: seq<string> := ["flask_api", "react_component", "python_script"]

  datatype TemplateResult =
    | TemplateFound(template: Template, templateType: string)
    | TemplateMissing(error: string, availableTemplates: seq<string>)

  /** `get_code_template`: the template stored under the key, or an error listing every key. */
  function GetCodeTemplate(templateType: string): (r: TemplateResult)
    ensures r.TemplateFound? <==> templateType in TemplateKeys
    ensures r.TemplateFound? ==> TemplateName(r.template) == templateType && r.templateType == templateType
    ensures r.TemplateMissing? ==>
              r.error == "Plantilla " + templateType + " no encontrada" && r.availableTemplates == TemplateKeys
  {
    if templateType == "flask_api" then TemplateFound(FlaskApi, templateType)
    else if templateType == "react_component" then TemplateFound(ReactComponent, templateType)
    else if templateType == "python_script" then TemplateFound(PythonScript, templateType)
    else TemplateMissing("Plantilla " + templateType + " no encontrada", TemplateKeys)
  }
}
