/** The `analyze-company` edge function: validate the ticker, check configuration, fetch the
    company overview and the news feed from Alpha Vantage, ask the language model for a brief
    and comparables, clean and decode its answer, and assemble the report.

    The network, the environment and `JSON.parse` are inputs: each upstream reply is a value
    of a datatype of possible outcomes, each credential an `Option<string>`, and decoding the
    model's text an arbitrary partial function `decode`. A thrown `Error` of the source is a
    `Failure(message)` of a stage; the request handler turns it into a 500 response. */
module AnalyzeCompany {
  import opened Results
  import opened Text
  import opened ResearchTypes

  // ---------------------------------------------------------------------------------------
  // Messages and constants of the source

  const InvalidTickerMessage: string := "Invalid ticker provided"
  const InvalidFormatMessage: string := "Invalid ticker format. Use uppercase letters only, max 5 characters."
  const ConfigErrorMessage: string := "API configuration error"
  const RateLimitMessage: string := "API rate limit reached. Please try again tomorrow."
  const MissingAiKeyMessage: string := "LOVABLE_API_KEY is not configured"
  const AiRateLimitMessage: string := "AI rate limit exceeded. Please try again later."
  const AiCreditsMessage: string := "AI credits exhausted. Please add funds to continue."
  const AiFailedMessage: string := "AI analysis failed"
  const EmptyAiMessage: string := "Empty AI response"
  const ParseFailedMessage: string := "Failed to parse AI analysis"

  function NotFoundMessage(ticker: string): string {
    "Ticker \"" + ticker + "\" not found. Please check the symbol and try again."
  }

  /** The `limit` of the news request and the number of feed items kept. */
  const NewsLimit: nat := 5
  const MaxTickerLength: nat := 5
  const AiModel: string := "google/gemini-2.5-flash"
  const SystemMessage: string := "You are a senior M&A analyst. Always respond with valid JSON only, no markdown formatting."
  const Fence: string := "```"
  const JsonFence: string := "```json"

  // ---------------------------------------------------------------------------------------
  // Upstream data and replies

  /** The Alpha Vantage OVERVIEW record; an absent field is modelled as "". */
  datatype CompanyOverview = CompanyOverview(
    symbol: string,
    name: string,
    description: string,
    exchange: string,
    sector: string,
    industry: string,
    marketCapitalization: string,
    peRatio: string,
    dividendYield: string,
    eps: string,
    revenueTtm: string,
    profitMargin: string,
    operatingMarginTtm: string,
    returnOnEquityTtm: string,
    beta: string,
    weekHigh52: string,
    weekLow52: string)

  /** One item of the NEWS_SENTIMENT feed, with some of the fields the pipeline drops. */
  datatype FeedEntry = FeedEntry(
    title: string,
    url: string,
    timePublished: string,
    authors: seq<string>,
    summary: string,
    source: string,
    overallSentimentLabel: string)

  /** The five fields of a feed item the pipeline keeps. */
  datatype NewsItem = NewsItem(
    title: string,
    summary: string,
    source: string,
    timePublished: string,
    overallSentimentLabel: string)

  /** What the overview request produced: a failed fetch or body read, or a JSON body. */
  datatype OverviewReply =
    | OverviewFailed(message: string)
    | OverviewJson(note: Option<string>, data: CompanyOverview)

  datatype NewsReply =
    | NewsFailed(message: string)
    | NewsJson(note: Option<string>, feed: Option<seq<FeedEntry>>)

  /** What the chat-completion request produced: a failed fetch or body read, or an HTTP
      status with the first choice's message content, if any. */
  datatype AiReply =
    | AiFailed(message: string)
    | AiHttp(status: int, content: Option<string>)

  /** The two keys the pipeline reads from the decoded model output. */
  datatype Analysis = Analysis(brief: CompanyBrief, comparables: seq<ComparableCompany>)

  /** The `ticker` member of the request body. */
  datatype TickerField = NonString | Str(value: string)

  datatype RequestBody = Unreadable(message: string) | Body(ticker: TickerField)

  datatype Env = Env(alphaVantageKey: Option<string>, lovableApiKey: Option<string>)

  datatype HttpError = HttpError(status: int, message: string)

  /** The requests the function sends upstream, with what they carry. A chat request is
      recorded with the overview and news its user message is built from (see `ChatMessages`). */
  datatype UpstreamRequest =
    | OverviewRequest(symbol: string, apiKey: string)
    | NewsRequest(tickers: string, limit: nat, apiKey: string)
    | ChatRequest(model: string, system: string, overview: CompanyOverview, news: seq<NewsItem>, bearer: string)

  // ---------------------------------------------------------------------------------------
  // Ticker validation

  /** `ticker.toUpperCase().trim()` */
  function CleanTicker(s: string): string {
    Trim(ToUpper(s))
  }

  /** `/^[A-Z]+$/` */
  predicate MatchesUpperLetters(t: string) {
    |t| >= 1 && forall i :: 0 <= i < |t| ==> IsUpperLetter(t[i])
  }

  /** A well-formed ticker: one to five letters A-Z. */
  predicate IsTickerFormat(t: string) {
    |t| <= MaxTickerLength && MatchesUpperLetters(t)
  }

  function ValidateTicker(field: TickerField): (r: Result<string, HttpError>)
    ensures r.Success? <==> field.Str? && field.value != "" && IsTickerFormat(CleanTicker(field.value))
    ensures r.Success? ==> r.value == CleanTicker(field.value)
    ensures r.Failure? ==> r.error.status == 400
    ensures r.Failure? && field.Str? && field.value != "" ==> r.error.message == InvalidFormatMessage
  {
    if field.NonString? || field.value == "" then
      Failure(HttpError(400, InvalidTickerMessage))
    else
      var cleanTicker := CleanTicker(field.value);
      if |cleanTicker| > MaxTickerLength || !MatchesUpperLetters(cleanTicker) then
        Failure(HttpError(400, InvalidFormatMessage))
      else
        Success(cleanTicker)
  }

  function RequireAlphaVantageKey(key: Option<string>): (r: Result<string, HttpError>)
    ensures r.Success? <==> Truthy(key)
    ensures r.Success? ==> r.value == key.value
    ensures r.Failure? ==> r.error == HttpError(500, ConfigErrorMessage)
  {
    if !Truthy(key) then Failure(HttpError(500, ConfigErrorMessage)) else Success(key.value)
  }

  // ---------------------------------------------------------------------------------------
  // Market data and news

  /** `fetchCompanyOverview`: `None` is the source's `null` (unknown ticker); a failure is a throw. */
  function FetchOverview(reply: OverviewReply): (r: Result<Option<CompanyOverview>, string>)
    ensures reply.OverviewFailed? ==> r == Failure(reply.message)
    ensures reply.OverviewJson? && Truthy(reply.note) ==> r == Failure(RateLimitMessage)
    ensures r == Success(None) <==> reply.OverviewJson? && !Truthy(reply.note) && reply.data.symbol == ""
    ensures r.Success? && r.value.Some? ==>
      reply.OverviewJson? && r.value.value == reply.data && r.value.value.symbol != ""
    ensures reply.OverviewJson? && !Truthy(reply.note) && reply.data.symbol != "" ==> r == Success(Some(reply.data))
  {
    match reply
    case OverviewFailed(message) => Failure(message)
    case OverviewJson(note, data) =>
      if Truthy(note) then Failure(RateLimitMessage)
      else if data.symbol == "" then Success(None)
      else Success(Some(data))
  }

  function ProjectNewsItem(e: FeedEntry): NewsItem {
    NewsItem(e.title, e.summary, e.source, e.timePublished, e.overallSentimentLabel)
  }

  /** `items.map(project)` */
  function ProjectAll(items: seq<FeedEntry>): (r: seq<NewsItem>)
    ensures |r| == |items|
    ensures forall i :: 0 <= i < |items| ==> r[i] == ProjectNewsItem(items[i])
  {
    if items == [] then [] else [ProjectNewsItem(items[0])] + ProjectAll(items[1..])
  }

  /** `feed.slice(0, 5).map(project)` */
  function LeadingNews(feed: seq<FeedEntry>): (r: seq<NewsItem>)
    ensures |r| == Min(NewsLimit, |feed|)
    ensures forall i :: 0 <= i < |r| ==> r[i] == ProjectNewsItem(feed[i])
  {
    ProjectAll(feed[..Min(NewsLimit, |feed|)])
  }

  /** `fetchCompanyNews`: a rate-limit note or a missing feed gives no news; only a failed
      fetch or body read (which the source does not catch) is a failure. */
  function FetchNews(reply: NewsReply): (r: Result<seq<NewsItem>, string>)
    ensures r.Failure? <==> reply.NewsFailed?
    ensures r.Failure? ==> r.error == reply.message
    ensures r.Success? ==> |r.value| <= NewsLimit
    ensures reply.NewsJson? && (Truthy(reply.note) || reply.feed.None?) ==> r == Success([])
    ensures reply.NewsJson? && !Truthy(reply.note) && reply.feed.Some? ==>
      |r.value| == Min(NewsLimit, |reply.feed.value|)
      && forall i :: 0 <= i < |r.value| ==> r.value[i] == ProjectNewsItem(reply.feed.value[i])
  {
    match reply
    case NewsFailed(message) => Failure(message)
    case NewsJson(note, feed) =>
      if Truthy(note) then Success([])
      else if feed.None? then Success([])
      else Success(LeadingNews(feed.value))
  }

  // ---------------------------------------------------------------------------------------
  // The prompt

  const PromptHead: string :=
    "You are a senior M&A analyst. Analyze the following company data and provide a comprehensive analysis.\n\nCOMPANY DATA:\n"

  const NewsHeading: string := "\n\nRECENT NEWS:\n"

  const PromptFormat: string := @"

Provide your analysis in the following JSON format ONLY (no markdown, no code blocks, just pure JSON):
{
  ""brief"": {
    ""overview"": ""2-3 sentence company overview"",
    ""businessModel"": ""Description of how the company makes money (2-3 sentences)"",
    ""financials"": ""Key financial highlights and health assessment (2-3 sentences)"",
    ""risks"": [""risk 1"", ""risk 2"", ""risk 3""],
    ""opportunities"": [""opportunity 1"", ""opportunity 2"", ""opportunity 3""]
  },
  ""comparables"": [
    {
      ""companyName"": ""Company Name 1"",
      ""ticker"": ""TICK1"",
      ""similarityScore"": 85,
      ""reasoning"": ""Brief explanation of why this is a comparable"",
      ""keyMetrics"": {
        ""marketCap"": ""$XXB"",
        ""peRatio"": ""XX"",
        ""sector"": ""Sector Name""
      }
    },
    {
      ""companyName"": ""Company Name 2"",
      ""ticker"": ""TICK2"",
      ""similarityScore"": 78,
      ""reasoning"": ""Brief explanation"",
      ""keyMetrics"": {
        ""marketCap"": ""$XXB"",
        ""peRatio"": ""XX"",
        ""sector"": ""Sector Name""
      }
    },
    {
      ""companyName"": ""Company Name 3"",
      ""ticker"": ""TICK3"",
      ""similarityScore"": 72,
      ""reasoning"": ""Brief explanation"",
      ""keyMetrics"": {
        ""marketCap"": ""$XXB"",
        ""peRatio"": ""XX"",
        ""sector"": ""Sector Name""
      }
    }
  ]
}"

  /** The labelled overview fields of the COMPANY DATA block, in template order. */
  function CompanyFacts(o: CompanyOverview): seq<(string, string)> {
    [ ("Name", o.name), ("Ticker", o.symbol), ("Sector", o.sector), ("Industry", o.industry),
      ("Description", o.description), ("Market Cap", o.marketCapitalization),
      ("P/E Ratio", o.peRatio), ("EPS", o.eps), ("Revenue TTM", o.revenueTtm),
      ("Profit Margin", o.profitMargin), ("Operating Margin", o.operatingMarginTtm),
      ("ROE", o.returnOnEquityTtm), ("Beta", o.beta), ("52-Week High", o.weekHigh52),
      ("52-Week Low", o.weekLow52), ("Dividend Yield", o.dividendYield) ]
  }

  function FactLine(fact: (string, string)): string {
    "- " + fact.0 + ": " + fact.1
  }

  function FactLines(o: CompanyOverview): (r: seq<string>)
    ensures |r| == |CompanyFacts(o)|
    ensures forall k :: 0 <= k < |r| ==> r[k] == FactLine(CompanyFacts(o)[k])
  {
    var facts := CompanyFacts(o);
    seq(|facts|, i requires 0 <= i < |facts| => FactLine(facts[i]))
  }

  function CompanyBlock(o: CompanyOverview): string {
    Join(FactLines(o), "\n")
  }

  function NewsLine(n: NewsItem): string {
    "- " + n.title + " (Sentiment: " + n.overallSentimentLabel + ")"
  }

  function NewsLines(news: seq<NewsItem>): (r: seq<string>)
    ensures |r| == |news|
    ensures forall i :: 0 <= i < |news| ==> r[i] == NewsLine(news[i])
  {
    seq(|news|, i requires 0 <= i < |news| => NewsLine(news[i]))
  }

  /** `newsData.map(n => ...).join('\n')` */
  function NewsDigest(news: seq<NewsItem>): string {
    Join(NewsLines(news), "\n")
  }

  function BuildPrompt(o: CompanyOverview, news: seq<NewsItem>): string {
    PromptHead + CompanyBlock(o) + NewsHeading + NewsDigest(news) + PromptFormat
  }

  // ---------------------------------------------------------------------------------------
  // The language model

  predicate IsOk(status: int) {
    200 <= status <= 299
  }

  /** The message thrown for a non-ok status. */
  function StatusError(status: int): string {
    if status == 429 then AiRateLimitMessage
    else if status == 402 then AiCreditsMessage
    else AiFailedMessage
  }

  /** Drop a leading "```json" tag. */
  function DropJsonTag(c: string): (r: string)
    ensures IsInfix(r, c)
  {
    if StartsWith(c, JsonFence) then assert InfixAt(c[7..], c, 7); c[7..] else assert InfixAt(c, c, 0); c
  }

  /** Drop a leading "```". */
  function DropOpenFence(c: string): (r: string)
    ensures IsInfix(r, c)
  {
    if StartsWith(c, Fence) then assert InfixAt(c[3..], c, 3); c[3..] else assert InfixAt(c, c, 0); c
  }

  /** Drop one trailing "```". */
  function DropCloseFence(c: string): (r: string)
    ensures IsInfix(r, c)
  {
    if EndsWith(c, Fence) then assert InfixAt(c[..|c| - 3], c, 0); c[..|c| - 3] else assert InfixAt(c, c, 0); c
  }

  /** The cleanup of the model text before decoding: trim, drop a leading "```json", then a
      leading "```", then one trailing "```", and trim again. */
  function CleanFences(content: string): (r: string)
    ensures IsTrimmed(r)
    ensures IsInfix(r, Trim(content))
  {
    var c0 := Trim(content);
    var c1 := DropJsonTag(c0);
    var c2 := DropOpenFence(c1);
    var c3 := DropCloseFence(c2);
    InfixTransitive(c2, c1, c0);
    InfixTransitive(c3, c2, c0);
    InfixTransitive(Trim(c3), c3, c0);
    Trim(c3)
  }

  /** The cleanup as the source writes it, reassigning one variable step by step. */
  method CleanContent(content: string) returns (cleanContent: string)
    ensures cleanContent == CleanFences(content)
  {
    cleanContent := Trim(content);
    ghost var c0 := cleanContent;
    if StartsWith(cleanContent, JsonFence) {
      cleanContent := cleanContent[7..];
    }
    assert cleanContent == DropJsonTag(c0);
    ghost var c1 := cleanContent;
    if StartsWith(cleanContent, Fence) {
      cleanContent := cleanContent[3..];
    }
    assert cleanContent == DropOpenFence(c1);
    ghost var c2 := cleanContent;
    if EndsWith(cleanContent, Fence) {
      cleanContent := cleanContent[..|cleanContent| - 3];
    }
    assert cleanContent == DropCloseFence(c2);
    cleanContent := Trim(cleanContent);
  }

  /** `analyzeWithAI` without its side effects: which error it throws, or what it returns. */
  function AiOutcome(key: Option<string>, reply: AiReply, decode: string -> Option<Analysis>): (r: Result<Analysis, string>)
    ensures r.Success? <==>
      Truthy(key) && reply.AiHttp? && IsOk(reply.status) && Truthy(reply.content)
      && decode(CleanFences(reply.content.value)).Some?
    ensures r.Success? ==> Some(r.value) == decode(CleanFences(reply.content.value))
    ensures !Truthy(key) ==> r == Failure(MissingAiKeyMessage)
    ensures Truthy(key) && reply.AiFailed? ==> r == Failure(reply.message)
    ensures r.Failure? && Truthy(key) && reply.AiHttp? ==>
      r.error == (if !IsOk(reply.status) then StatusError(reply.status)
                  else if !Truthy(reply.content) then EmptyAiMessage
                  else ParseFailedMessage)
  {
    if !Truthy(key) then Failure(MissingAiKeyMessage)
    else match reply
      case AiFailed(message) => Failure(message)
      case AiHttp(status, content) =>
        if !IsOk(status) then Failure(StatusError(status))
        else if !Truthy(content) then Failure(EmptyAiMessage)
        else match decode(CleanFences(content.value))
          case None => Failure(ParseFailedMessage)
          case Some(analysis) => Success(analysis)
  }

  function ChatRequestFor(o: CompanyOverview, news: seq<NewsItem>, key: string): UpstreamRequest {
    ChatRequest(AiModel, SystemMessage, o, news, key)
  }

  /** The `messages` of a chat request: the system instruction, then the prompt as the user message. */
  function ChatMessages(r: UpstreamRequest): seq<(string, string)>
    requires r.ChatRequest?
  {
    [("system", r.system), ("user", BuildPrompt(r.overview, r.news))]
  }

  /** `analyzeWithAI` as the source runs it: the key check, the request, the status and content
      checks, the step-by-step cleanup of the content and the decode. `request` is the chat
      request it sends, if it gets that far. */
  method AnalyzeWithAi(o: CompanyOverview, news: seq<NewsItem>, key: Option<string>, reply: AiReply,
                       decode: string -> Option<Analysis>)
    returns (outcome: Result<Analysis, string>, request: Option<UpstreamRequest>)
    ensures outcome == AiOutcome(key, reply, decode)
    ensures request.Some? <==> Truthy(key)
    ensures request.Some? ==> request.value == ChatRequestFor(o, news, key.value)
    ensures request.Some? ==> ChatMessages(request.value) == [("system", SystemMessage), ("user", BuildPrompt(o, news))]
  {
    if !Truthy(key) {
      return Failure(MissingAiKeyMessage), None;
    }
    request := Some(ChatRequest(AiModel, SystemMessage, o, news, key.value));
    if reply.AiFailed? {
      return Failure(reply.message), request;
    }
    if !IsOk(reply.status) {
      if reply.status == 429 {
        return Failure(AiRateLimitMessage), request;
      }
      if reply.status == 402 {
        return Failure(AiCreditsMessage), request;
      }
      return Failure(AiFailedMessage), request;
    }
    var content := reply.content;
    if !Truthy(content) {
      return Failure(EmptyAiMessage), request;
    }
    var cleanContent := CleanContent(content.value);
    var parsed := decode(cleanContent);
    if parsed.None? {
      return Failure(ParseFailedMessage), request;
    }
    outcome := Success(Analysis(parsed.value.brief, parsed.value.comparables));
  }

  // ---------------------------------------------------------------------------------------
  // Assembly and the pipeline

  function RawDataOf(o: CompanyOverview): CompanyRawData {
    CompanyRawData(o.sector, o.industry, o.marketCapitalization, o.peRatio, o.eps, o.revenueTtm,
                   o.profitMargin, o.operatingMarginTtm, o.returnOnEquityTtm, o.beta,
                   o.weekHigh52, o.weekLow52, o.dividendYield)
  }

  /** The result record of the handler. */
  function Assemble(ticker: string, o: CompanyOverview, news: seq<NewsItem>, a: Analysis, analyzedAt: string): (r: CompanyReport)
    ensures r.ticker == ticker && r.companyName == o.name && r.analyzedAt == analyzedAt
    ensures r.brief == a.brief && r.comparables == a.comparables
    ensures r.newsCount == |news|
    ensures r.rawData.sector == o.sector && r.rawData.industry == o.industry
    ensures r.rawData.marketCap == o.marketCapitalization && r.rawData.peRatio == o.peRatio
    ensures r.rawData.eps == o.eps && r.rawData.revenue == o.revenueTtm
    ensures r.rawData.profitMargin == o.profitMargin && r.rawData.operatingMargin == o.operatingMarginTtm
    ensures r.rawData.roe == o.returnOnEquityTtm && r.rawData.beta == o.beta
    ensures r.rawData.high52Week == o.weekHigh52 && r.rawData.low52Week == o.weekLow52
    ensures r.rawData.dividendYield == o.dividendYield
  {
    CompanyReport(ticker, o.name, RawDataOf(o), a.brief, a.comparables, |news|, analyzedAt)
  }

  /** A thrown error, caught by the handler. */
  function Internal(message: string): HttpError {
    HttpError(500, message)
  }

  /** The checks before any upstream request: a readable body, a valid ticker, the market-data
      key. On success, the cleaned ticker and the key. */
  function Admit(body: RequestBody, env: Env): Result<(string, string), HttpError> {
    match body
    case Unreadable(message) => Failure(Internal(message))
    case Body(field) =>
      match ValidateTicker(field)
      case Failure(e) => Failure(e)
      case Success(ticker) =>
        match RequireAlphaVantageKey(env.alphaVantageKey)
        case Failure(e) => Failure(e)
        case Success(key) => Success((ticker, key))
  }

  /** How the handler combines the outcomes of its stages: the first failing stage decides the
      response, a thrown error becoming a 500 with its message. */
  function Pipeline(admitted: Result<(string, string), HttpError>, found: Result<Option<CompanyOverview>, string>,
                    news: Result<seq<NewsItem>, string>, analysis: Result<Analysis, string>,
                    analyzedAt: string): Result<CompanyReport, HttpError>
  {
    match admitted
    case Failure(e) => Failure(e)
    case Success((ticker, _)) =>
      match found
      case Failure(m) => Failure(Internal(m))
      case Success(None) => Failure(HttpError(404, NotFoundMessage(ticker)))
      case Success(Some(overview)) =>
        match news
        case Failure(m) => Failure(Internal(m))
        case Success(items) =>
          match analysis
          case Failure(m) => Failure(Internal(m))
          case Success(a) => Success(Assemble(ticker, overview, items, a, analyzedAt))
  }

  /** The handler's response to one POST. */
  function Analyze(body: RequestBody, env: Env, overviewReply: OverviewReply, newsReply: NewsReply,
                   aiReply: AiReply, decode: string -> Option<Analysis>, analyzedAt: string): Result<CompanyReport, HttpError>
  {
    Pipeline(Admit(body, env), FetchOverview(overviewReply), FetchNews(newsReply),
             AiOutcome(env.lovableApiKey, aiReply, decode), analyzedAt)
  }

  /** The upstream requests, in order, given the outcomes of the stages before each request. */
  function Requests(admitted: Result<(string, string), HttpError>, found: Result<Option<CompanyOverview>, string>,
                    news: Result<seq<NewsItem>, string>, lovableApiKey: Option<string>): seq<UpstreamRequest>
  {
    match admitted
    case Failure(_) => []
    case Success((ticker, key)) =>
      var overviewCall, newsCall := OverviewRequest(ticker, key), NewsRequest(ticker, NewsLimit, key);
      if found.Failure? || found.value.None? then [overviewCall]
      else if news.Failure? || !Truthy(lovableApiKey) then [overviewCall, newsCall]
      else [overviewCall, newsCall, ChatRequestFor(found.value.value, news.value, lovableApiKey.value)]
  }

  /** The upstream requests the handler sends for one POST, in order. */
  function UpstreamCalls(body: RequestBody, env: Env, overviewReply: OverviewReply, newsReply: NewsReply): seq<UpstreamRequest> {
    Requests(Admit(body, env), FetchOverview(overviewReply), FetchNews(newsReply), env.lovableApiKey)
  }

  /** The request handler as the source writes it: sequential steps with early returns, every
      thrown error caught and answered with status 500. `calls` are the upstream requests sent. */
  method Serve(body: RequestBody, env: Env, overviewReply: OverviewReply, newsReply: NewsReply,
               aiReply: AiReply, decode: string -> Option<Analysis>, analyzedAt: string)
    returns (response: Result<CompanyReport, HttpError>, calls: seq<UpstreamRequest>)
    ensures response == Analyze(body, env, overviewReply, newsReply, aiReply, decode, analyzedAt)
    ensures calls == UpstreamCalls(body, env, overviewReply, newsReply)
  {
    var admitted := CheckRequest(body, env);
    if admitted.Failure? {
      return Failure(admitted.error), [];
    }
    var (ticker, key) := admitted.value;
    response, calls := FetchAndAnalyze(ticker, key, env.lovableApiKey,
                                       overviewReply, newsReply, aiReply, decode, analyzedAt);
  }

  /** The handler's checks of the request body and the configuration, with their early returns. */
  method CheckRequest(body: RequestBody, env: Env) returns (admitted: Result<(string, string), HttpError>)
    ensures admitted == Admit(body, env)
  {
    if body.Unreadable? {
      return Failure(Internal(body.message));
    }
    var ticker := body.ticker;
    if ticker.NonString? || ticker.value == "" {
      return Failure(HttpError(400, InvalidTickerMessage));
    }
    var cleanTicker := CleanTicker(ticker.value);
    if |cleanTicker| > MaxTickerLength || !MatchesUpperLetters(cleanTicker) {
      return Failure(HttpError(400, InvalidFormatMessage));
    }
    var alphaVantageKey := env.alphaVantageKey;
    if !Truthy(alphaVantageKey) {
      return Failure(HttpError(500, ConfigErrorMessage));
    }
    assert ValidateTicker(ticker) == Success(cleanTicker);
    admitted := Success((cleanTicker, alphaVantageKey.value));
  }

  /** The steps of the handler after the configuration check, up to the result record. */
  method FetchAndAnalyze(ticker: string, key: string, lovableApiKey: Option<string>,
                         overviewReply: OverviewReply, newsReply: NewsReply,
                         aiReply: AiReply, decode: string -> Option<Analysis>, analyzedAt: string)
    returns (response: Result<CompanyReport, HttpError>, calls: seq<UpstreamRequest>)
    ensures response == Pipeline(Success((ticker, key)), FetchOverview(overviewReply), FetchNews(newsReply),
                                 AiOutcome(lovableApiKey, aiReply, decode), analyzedAt)
    ensures calls == Requests(Success((ticker, key)), FetchOverview(overviewReply), FetchNews(newsReply), lovableApiKey)
  {
    calls := [OverviewRequest(ticker, key)];
    var companyData := FetchOverview(overviewReply);
    if companyData.Failure? {
      return Failure(Internal(companyData.error)), calls;
    }
    if companyData.value.None? {
      return Failure(HttpError(404, NotFoundMessage(ticker))), calls;
    }
    var overview := companyData.value.value;

    calls := calls + [NewsRequest(ticker, NewsLimit, key)];
    var newsData := FetchNews(newsReply);
    if newsData.Failure? {
      return Failure(Internal(newsData.error)), calls;
    }

    var analysis, chat := AnalyzeWithAi(overview, newsData.value, lovableApiKey, aiReply, decode);
    if chat.Some? {
      calls := calls + [chat.value];
    }
    if analysis.Failure? {
      return Failure(Internal(analysis.error)), calls;
    }
    response := Success(Assemble(ticker, overview, newsData.value, analysis.value, analyzedAt));
  }
}
