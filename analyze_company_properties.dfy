/** What the `analyze-company` pipeline guarantees, stated over `Analyze` (the response) and
    `UpstreamCalls` (the requests it sends): the order of the checks, which failures stop which
    stages, the statuses a client can see, the report on success, and what the fence cleanup
    and the prompt do to their text. */
module AnalyzeCompanyProperties {
  import opened Results
  import opened Text
  import opened ResearchTypes
  import opened AnalyzeCompany

  // ---------------------------------------------------------------------------------------
  // Ticker normalisation

  lemma UpperLettersUnchanged(t: string)
    requires MatchesUpperLetters(t)
    ensures CleanTicker(t) == t
  {
    assert NoLower(t);
    UpperIdempotent(t);
    TrimOfTrimmed(t);
  }

  /** An accepted ticker is accepted again, unchanged: the normalisation is idempotent. */
  lemma AcceptedTickerRevalidates(s: string)
    requires ValidateTicker(Str(s)).Success?
    ensures ValidateTicker(Str(ValidateTicker(Str(s)).value)) == ValidateTicker(Str(s))
  {
    UpperLettersUnchanged(CleanTicker(s));
  }

  lemma UpperOfSpace(a: string)
    requires forall i :: 0 <= i < |a| ==> IsSpace(a[i])
    ensures ToUpper(a) == a
  {
  }

  /** Lower-case letters and surrounding space are accepted: the request gets the upper-cased
      letters without the space. */
  lemma PaddedTickerAccepted(a: string, t: string, b: string)
    requires forall i :: 0 <= i < |a| ==> IsSpace(a[i])
    requires forall i :: 0 <= i < |b| ==> IsSpace(b[i])
    requires IsTickerFormat(ToUpper(t))
    ensures ValidateTicker(Str(a + t + b)) == Success(ToUpper(t))
  {
    var u := ToUpper(t);
    assert ToUpper(a + t + b) == ToUpper(a) + u + ToUpper(b);
    UpperOfSpace(a);
    UpperOfSpace(b);
    TrimAround(a, u, b);
  }

  /** Seven letters are too many. */
  lemma TooLongRejected()
    ensures ValidateTicker(Str("TOOLONG")) == Failure(HttpError(400, InvalidFormatMessage))
  {
    UpperLettersUnchanged("TOOLONG");
  }

  /** A class-share suffix with a dot is not accepted. */
  lemma DottedRejected()
    ensures ValidateTicker(Str("BRK.B")) == Failure(HttpError(400, InvalidFormatMessage))
  {
    var t := "BRK.B";
    assert NoLower(t);
    UpperIdempotent(t);
    TrimOfTrimmed(t);
    assert !IsUpperLetter(CleanTicker(t)[3]);
  }

  // ---------------------------------------------------------------------------------------
  // Order of the checks

  /** A bad ticker is answered with 400 whatever the configuration and the upstream services
      would do, and nothing is sent upstream. */
  lemma InvalidInputDecidedFirst(field: TickerField, env: Env, ov: OverviewReply, nw: NewsReply,
                                 ai: AiReply, decode: string -> Option<Analysis>, at: string)
    requires ValidateTicker(field).Failure?
    ensures Analyze(Body(field), env, ov, nw, ai, decode, at) == Failure(ValidateTicker(field).error)
    ensures Analyze(Body(field), env, ov, nw, ai, decode, at).error.status == 400
    ensures UpstreamCalls(Body(field), env, ov, nw) == []
  {
    assert Admit(Body(field), env) == Failure(ValidateTicker(field).error);
  }

  /** Without the market-data key a valid request gets 500 "API configuration error", before
      any upstream request. */
  lemma MissingConfigBeforeUpstream(field: TickerField, env: Env, ov: OverviewReply, nw: NewsReply,
                                    ai: AiReply, decode: string -> Option<Analysis>, at: string)
    requires ValidateTicker(field).Success?
    requires !Truthy(env.alphaVantageKey)
    ensures Analyze(Body(field), env, ov, nw, ai, decode, at) == Failure(HttpError(500, ConfigErrorMessage))
    ensures UpstreamCalls(Body(field), env, ov, nw) == []
  {
  }

  /** An unknown symbol gives 404 naming the cleaned ticker; only the overview was requested. */
  lemma NotFoundStopsPipeline(field: TickerField, env: Env, note: Option<string>, data: CompanyOverview,
                              nw: NewsReply, ai: AiReply, decode: string -> Option<Analysis>, at: string)
    requires ValidateTicker(field).Success? && Truthy(env.alphaVantageKey)
    requires !Truthy(note) && data.symbol == ""
    ensures var t := ValidateTicker(field).value;
      && Analyze(Body(field), env, OverviewJson(note, data), nw, ai, decode, at)
         == Failure(HttpError(404, NotFoundMessage(t)))
      && UpstreamCalls(Body(field), env, OverviewJson(note, data), nw)
         == [OverviewRequest(t, env.alphaVantageKey.value)]
  {
  }

  /** A rate-limit note of the overview service fails the request even when a symbol is
      present, before the news request. */
  lemma RateLimitNoteWins(field: TickerField, env: Env, note: Option<string>, data: CompanyOverview,
                          nw: NewsReply, ai: AiReply, decode: string -> Option<Analysis>, at: string)
    requires ValidateTicker(field).Success? && Truthy(env.alphaVantageKey)
    requires Truthy(note)
    ensures Analyze(Body(field), env, OverviewJson(note, data), nw, ai, decode, at)
         == Failure(HttpError(500, RateLimitMessage))
    ensures |UpstreamCalls(Body(field), env, OverviewJson(note, data), nw)| == 1
  {
  }

  /** A news request that cannot be completed or read is not caught by the news stage: the
      request fails with 500 and its message, and the model is not asked. */
  lemma NewsFailureIsFatal(field: TickerField, env: Env, ov: OverviewReply, message: string,
                           ai: AiReply, decode: string -> Option<Analysis>, at: string)
    requires ValidateTicker(field).Success? && Truthy(env.alphaVantageKey)
    requires FetchOverview(ov).Success? && FetchOverview(ov).value.Some?
    ensures Analyze(Body(field), env, ov, NewsFailed(message), ai, decode, at) == Failure(HttpError(500, message))
    ensures |UpstreamCalls(Body(field), env, ov, NewsFailed(message))| == 2
  {
  }

  /** The model's 429 and 402 reach the client as 500 with the model-specific message. */
  lemma AiStatusSurfacesAs500(field: TickerField, env: Env, ov: OverviewReply, nw: NewsReply,
                              status: int, content: Option<string>, decode: string -> Option<Analysis>, at: string)
    requires ValidateTicker(field).Success? && Truthy(env.alphaVantageKey)
    requires FetchOverview(ov).Success? && FetchOverview(ov).value.Some? && FetchNews(nw).Success?
    requires Truthy(env.lovableApiKey)
    requires !IsOk(status)
    ensures var r := Analyze(Body(field), env, ov, nw, AiHttp(status, content), decode, at);
      && r.Failure? && r.error.status == 500
      && (status == 429 ==> r.error.message == AiRateLimitMessage)
      && (status == 402 ==> r.error.message == AiCreditsMessage)
      && (status != 429 && status != 402 ==> r.error.message == AiFailedMessage)
    ensures |UpstreamCalls(Body(field), env, ov, nw)| == 3
  {
  }

  /** The only statuses of a failed request are 400 (bad ticker, and only then), 404 (unknown
      symbol, and only then) and 500. */
  lemma FailureStatuses(body: RequestBody, env: Env, ov: OverviewReply, nw: NewsReply,
                        ai: AiReply, decode: string -> Option<Analysis>, at: string)
    requires Analyze(body, env, ov, nw, ai, decode, at).Failure?
    ensures var status := Analyze(body, env, ov, nw, ai, decode, at).error.status;
      && (status == 400 || status == 404 || status == 500)
      && (status == 400 <==> body.Body? && ValidateTicker(body.ticker).Failure?)
      && (status == 404 <==> Admit(body, env).Success? && FetchOverview(ov) == Success(None))
  {
  }

  // ---------------------------------------------------------------------------------------
  // Success

  /** A request succeeds exactly when every stage does. */
  lemma SuccessExactly(body: RequestBody, env: Env, ov: OverviewReply, nw: NewsReply,
                       ai: AiReply, decode: string -> Option<Analysis>, at: string)
    ensures Analyze(body, env, ov, nw, ai, decode, at).Success?
      <==> && body.Body? && ValidateTicker(body.ticker).Success?
           && Truthy(env.alphaVantageKey)
           && FetchOverview(ov).Success? && FetchOverview(ov).value.Some?
           && FetchNews(nw).Success?
           && AiOutcome(env.lovableApiKey, ai, decode).Success?
  {
  }

  /** The report of a successful request: the cleaned ticker, the company name and the 13
      figures of the overview, the brief and comparables exactly as decoded, the number of news
      items (at most five); the three requests were sent in order. */
  lemma SuccessReport(body: RequestBody, env: Env, ov: OverviewReply, nw: NewsReply,
                      ai: AiReply, decode: string -> Option<Analysis>, at: string)
    requires Analyze(body, env, ov, nw, ai, decode, at).Success?
    ensures var r := Analyze(body, env, ov, nw, ai, decode, at).value;
      && body.Body? && body.ticker.Str?
      && r.ticker == CleanTicker(body.ticker.value) && IsTickerFormat(r.ticker)
      && ov.OverviewJson? && r.companyName == ov.data.name && r.rawData == RawDataOf(ov.data)
      && r.newsCount == |FetchNews(nw).value| && r.newsCount <= NewsLimit
      && ai.AiHttp? && ai.content.Some?
      && decode(CleanFences(ai.content.value)) == Some(Analysis(r.brief, r.comparables))
      && r.analyzedAt == at
      && UpstreamCalls(body, env, ov, nw)
         == [ OverviewRequest(r.ticker, env.alphaVantageKey.value),
              NewsRequest(r.ticker, NewsLimit, env.alphaVantageKey.value),
              ChatRequestFor(ov.data, FetchNews(nw).value, env.lovableApiKey.value) ]
  {
  }

  /** A rate-limited or empty news reply does not fail the request: the report has no news. */
  lemma NoNewsStillSucceeds(field: TickerField, env: Env, ov: OverviewReply, note: Option<string>,
                            feed: Option<seq<FeedEntry>>, ai: AiReply, decode: string -> Option<Analysis>, at: string)
    requires ValidateTicker(field).Success? && Truthy(env.alphaVantageKey)
    requires FetchOverview(ov).Success? && FetchOverview(ov).value.Some?
    requires Truthy(note) || feed.None?
    requires AiOutcome(env.lovableApiKey, ai, decode).Success?
    ensures var r := Analyze(Body(field), env, ov, NewsJson(note, feed), ai, decode, at);
      r.Success? && r.value.newsCount == 0
  {
  }

  // ---------------------------------------------------------------------------------------
  // Fence cleanup

  /** Text tagged as a JSON block also starts with a plain fence. */
  lemma JsonTagIsFenced(c: string)
    requires StartsWith(c, JsonFence)
    ensures StartsWith(c, Fence)
  {
    assert c[..3] == c[..7][..3];
  }

  /** Trimmed text with no fence at either end is left as it is. */
  lemma CleanTextUnchanged(c: string)
    requires IsTrimmed(c)
    requires !StartsWith(c, Fence) && !EndsWith(c, Fence)
    ensures CleanFences(c) == c
  {
    TrimOfTrimmed(c);
    if StartsWith(c, JsonFence) {
      JsonTagIsFenced(c);
    }
  }

  /** A reply wrapped as "```json" ... "```" is unwrapped to its trimmed inside, unless the
      inside itself starts with a fence. */
  lemma FencedJsonUnwrapped(s: string)
    requires !StartsWith(s, Fence)
    ensures CleanFences(JsonFence + s + Fence) == Trim(s)
  {
    var content := JsonFence + s + Fence;
    assert content[0] == '`' && content[|content| - 1] == '`';
    TrimOfTrimmed(content);
    assert content[..7] == JsonFence;
    var c1 := content[7..];
    assert c1 == s + Fence;
    var c2 := if StartsWith(c1, Fence) then c1[3..] else c1;
    if StartsWith(c1, Fence) {
      assert |s| < 3;
      forall i | 0 <= i < |s| ensures c2[i] == s[i] {
        assert s[i] == c1[i] == Fence[i];
        assert c2[i] == c1[i + 3] == '`';
      }
      assert c2 == s;
    } else {
      assert EndsWith(c2, Fence);
      assert c2[..|c2| - 3] == s;
    }
  }

  /** Of several closing fences only the last is removed. */
  lemma OnlyOneClosingFenceRemoved(s: string)
    requires IsTrimmed(s) && s != [] && s[0] != '`'
    ensures CleanFences(s + Fence + Fence) == s + Fence
  {
    var content := s + Fence + Fence;
    assert content[|content| - 1] == '`' && content[0] == s[0];
    TrimOfTrimmed(content);
    assert !StartsWith(content, Fence) && !StartsWith(content, JsonFence);
    assert content[..|content| - 3] == s + Fence;
    var r := s + Fence;
    assert r[0] == s[0] && r[|r| - 1] == '`';
    TrimOfTrimmed(r);
  }

  /** A fenced JSON block with the usual line breaks decodes like the bare text. */
  lemma FencedOutputDecodesLikePlain(j: string, decode: string -> Option<Analysis>)
    requires IsTrimmed(j) && j != []
    ensures CleanFences(JsonFence + "\n" + j + "\n" + Fence) == j
    ensures decode(CleanFences(JsonFence + "\n" + j + "\n" + Fence)) == decode(j)
  {
    var s := "\n" + j + "\n";
    assert JsonFence + "\n" + j + "\n" + Fence == JsonFence + s + Fence;
    assert s[0] == '\n';
    FencedJsonUnwrapped(s);
    TrimAround("\n", j, "\n");
  }

  /** A block fenced without a language tag is unwrapped to the bare text. */
  lemma PlainFenceUnwrapped(j: string)
    requires IsTrimmed(j) && j != []
    ensures CleanFences(Fence + "\n" + j + "\n" + Fence) == j
  {
    var content := Fence + "\n" + j + "\n" + Fence;
    assert content[0] == '`' && content[|content| - 1] == '`';
    TrimOfTrimmed(content);
    assert content[3] == '\n' && JsonFence[3] == 'j';
    assert !StartsWith(content, JsonFence);
    assert content[..3] == Fence;
    var c2 := content[3..];
    assert c2 == "\n" + j + "\n" + Fence;
    assert EndsWith(c2, Fence);
    assert c2[..|c2| - 3] == "\n" + j + "\n";
    TrimAround("\n", j, "\n");
  }

  /** A block fenced without a language tag decodes like the bare text. */
  lemma PlainFenceDecodesLikePlain(j: string, decode: string -> Option<Analysis>)
    requires IsTrimmed(j) && j != []
    ensures decode(CleanFences(Fence + "\n" + j + "\n" + Fence)) == decode(j)
  {
    PlainFenceUnwrapped(j);
  }

  /** Inside a JSON-tagged block too, of two closing fences only the last is removed. */
  lemma TaggedOnlyOneClosingFenceRemoved(s: string)
    requires IsTrimmed(s) && s != [] && s[0] != '`'
    ensures CleanFences(JsonFence + s + Fence + Fence) == s + Fence
  {
    var content := JsonFence + s + Fence + Fence;
    assert content[0] == '`' && content[|content| - 1] == '`';
    TrimOfTrimmed(content);
    assert content[..7] == JsonFence;
    var c1 := content[7..];
    assert c1 == s + Fence + Fence;
    assert c1[0] == s[0];
    assert !StartsWith(c1, Fence);
    assert c1[..|c1| - 3] == s + Fence;
    var r := s + Fence;
    assert r[0] == s[0] && r[|r| - 1] == '`';
    TrimOfTrimmed(r);
  }

  /** The tag is matched in lower case only: a block tagged "```JSON" loses its fences but
      keeps the tag. */
  lemma UpperCaseTagKept(j: string)
    requires IsTrimmed(j) && j != []
    ensures CleanFences("```JSON\n" + j + "\n" + Fence) == "JSON\n" + j
  {
    var content := "```JSON\n" + j + "\n" + Fence;
    assert content[0] == '`' && content[|content| - 1] == '`';
    TrimOfTrimmed(content);
    assert content[3] == 'J' && JsonFence[3] == 'j';
    assert !StartsWith(content, JsonFence);
    assert content[..3] == Fence;
    var c2 := content[3..];
    assert c2 == "JSON\n" + j + "\n" + Fence;
    assert EndsWith(c2, Fence);
    var c3 := c2[..|c2| - 3];
    assert c3 == "JSON\n" + j + "\n";
    var r := "JSON\n" + j;
    assert r[0] == 'J' && r[|r| - 1] == j[|j| - 1];
    TrimAround("", r, "\n");
    assert "" + r + "\n" == c3;
  }

  // ---------------------------------------------------------------------------------------
  // The prompt

  /** Every labelled overview field occurs in the prompt as a line "- label: value". */
  lemma PromptEmbedsFacts(o: CompanyOverview, news: seq<NewsItem>, k: int)
    requires 0 <= k < |CompanyFacts(o)|
    ensures IsInfix(FactLine(CompanyFacts(o)[k]), BuildPrompt(o, news))
  {
    var line := FactLines(o)[k];
    assert line == FactLine(CompanyFacts(o)[k]);
    JoinContainsLines(FactLines(o), "\n", k);
    InfixOfConcat(line, PromptHead, CompanyBlock(o), NewsHeading);
    InfixExtendRight(line, PromptHead + CompanyBlock(o) + NewsHeading, NewsDigest(news));
    InfixExtendRight(line, PromptHead + CompanyBlock(o) + NewsHeading + NewsDigest(news), PromptFormat);
  }

  /** Every news item occurs in the prompt as a line "- title (Sentiment: label)". */
  lemma PromptEmbedsNews(o: CompanyOverview, news: seq<NewsItem>, k: int)
    requires 0 <= k < |news|
    ensures IsInfix(NewsLine(news[k]), BuildPrompt(o, news))
  {
    JoinContainsLines(NewsLines(news), "\n", k);
    InfixOfConcat(NewsLine(news[k]), PromptHead + CompanyBlock(o) + NewsHeading, NewsDigest(news), PromptFormat);
  }

  /** When no item's title or label holds a line break, the digest is exactly one line per
      item, in news order. */
  lemma DigestLines(news: seq<NewsItem>)
    requires news != []
    requires forall k :: 0 <= k < |news| ==> '\n' !in news[k].title && '\n' !in news[k].overallSentimentLabel
    ensures Split(NewsDigest(news), '\n') == NewsLines(news)
  {
    var lines := NewsLines(news);
    forall k | 0 <= k < |lines| ensures '\n' !in lines[k] {
      assert lines[k] == "- " + news[k].title + " (Sentiment: " + news[k].overallSentimentLabel + ")";
    }
    SplitJoin(lines, '\n');
  }

  lemma FactLineSingle(fact: (string, string))
    requires '\n' !in fact.0 && '\n' !in fact.1
    ensures '\n' !in FactLine(fact)
  {
  }

  /** No label of the COMPANY DATA block holds a line break. */
  lemma LabelsSingleLine(o: CompanyOverview)
    ensures forall k :: 0 <= k < |CompanyFacts(o)| ==> '\n' !in CompanyFacts(o)[k].0
  {
  }

  /** When no overview value holds a line break, the COMPANY DATA block is exactly the sixteen
      labelled lines, in template order, so each field appears on exactly one line. */
  lemma CompanyBlockLines(o: CompanyOverview)
    requires forall k :: 0 <= k < |CompanyFacts(o)| ==> '\n' !in CompanyFacts(o)[k].1
    ensures Split(CompanyBlock(o), '\n') == FactLines(o)
    ensures |Split(CompanyBlock(o), '\n')| == 16
  {
    var facts, lines := CompanyFacts(o), FactLines(o);
    LabelsSingleLine(o);
    forall k | 0 <= k < |lines| ensures '\n' !in lines[k] {
      FactLineSingle(facts[k]);
    }
    SplitJoin(lines, '\n');
  }
}
