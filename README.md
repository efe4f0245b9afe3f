# MergerFlow.ai research core, modelled in Dafny

MergerFlow.ai turns a stock ticker into an M&A research report. The `analyze-company` edge
function does the work. It validates and normalises the ticker, then checks its
configuration. It fetches the company overview and up to five news items from Alpha Vantage.
It asks a language model for a brief and three comparable companies, cleans the model's text
of markdown fences and decodes it. Finally it assembles the report, or answers with an error
status. On the client, the `useCompanyResearch` hook drives one analysis through the steps
fetching, analyzing, generating, complete or error, and can save a report. The `TickerInput`
form normalises what is typed and guards submission. The `ComparablesTable` renders one row
per comparable, with a badge coloured by similarity band.

The model is organised as follows:

- `results.dfy`: `Option`, `Result`, and JavaScript truthiness of an optional string.
- `text.dfy`: the string operations the code relies on.
  - ECMAScript `trim`, with the exact white-space and line-terminator set.
  - ASCII `toUpperCase`.
  - `startsWith`, `endsWith`, `join` and `split`.
  - A substring relation.
- `research_types.dfy`: the records of `src/types/research.ts`.
- `analyze_company.dfy`: the edge function.
  - Upstream replies are values of datatypes.
  - Credentials are `Option<string>`.
  - `JSON.parse` of the model's text is an arbitrary partial function `decode`.
  - The timestamp is a parameter.
  - Each stage is a function from replies to a `Result`.
  - `Pipeline` and `Requests` say how the handler combines the stages: its response, and the
    upstream requests it sends, in order.
  - The handler itself (`Serve`, `CheckRequest`, `FetchAndAnalyze`, `AnalyzeWithAi`,
    `CleanContent`) is written as the source writes it, with early returns and a variable
    reassigned step by step. It is proved equal to those functions.
- `analyze_company_properties.dfy`: properties of the edge function.
  - Ticker acceptance, the order of the checks and the status of every failure.
  - The report of a success.
  - Fence cleanup.
  - The prompt's company block and news digest.
- `company_research.dfy`: the hook, as a class `ResearchSession` whose fields are the three
  state cells.
  - A ghost `history` records the state at every point where the hook yields.
  - A ghost `invoked` records the ticker bodies sent to the edge function.
  - `AnalyzeSnapshots` is the specification of the states one analysis shows.
- `ticker_input.dfy`: the loading predicate, the step messages, the input normalisation, and a
  class `TickerForm` for the input cell and the submit guard.
- `comparables_table.dfy`: score bands, badge classes and the rows of the table.

## Model

| member | source | states |
|---|---|---|
| `Text.ToUpper` | supabase/functions/analyze-company/index.ts:233 | same length; each character upper-cased by the ASCII mapping |
| `Text.Trim` | supabase/functions/analyze-company/index.ts:233 | the result has no leading or trailing white space and is a substring of the input |
| `Text.TrimIdempotent` | supabase/functions/analyze-company/index.ts:233 | trimming twice is trimming once |
| `Text.TrimAround` | supabase/functions/analyze-company/index.ts:233 | trimming removes exactly the white space around a trimmed core |
| `Text.SplitJoin` | supabase/functions/analyze-company/index.ts:107 | splitting lines joined by a separator that none of them contains gives back the lines |
| `AnalyzeCompany.ValidateTicker` | supabase/functions/analyze-company/index.ts:226-240 | accepted iff the field is a non-empty string whose upper-cased, trimmed form has 1-5 letters A-Z; the accepted value is that form; every rejection is 400, with the format message for a non-empty string |
| `AnalyzeCompany.RequireAlphaVantageKey` | supabase/functions/analyze-company/index.ts:242-250 | passes iff the key is truthy, returning it; otherwise 500 "API configuration error" |
| `AnalyzeCompany.FetchOverview` | supabase/functions/analyze-company/index.ts:36-53 | a failed fetch throws its message; a truthy `Note` throws the rate-limit message, whatever the symbol; an empty `Symbol` (and only that case) yields none; otherwise the data unchanged |
| `AnalyzeCompany.ProjectAll` | supabase/functions/analyze-company/index.ts:70-76 | one five-field projection per feed item, in order |
| `AnalyzeCompany.LeadingNews` | supabase/functions/analyze-company/index.ts:70 | length min(5, number of feed items); item i is the projection of feed item i |
| `AnalyzeCompany.FetchNews` | supabase/functions/analyze-company/index.ts:55-77 | fails iff the fetch or body read fails, with its message; a note or a missing feed gives the empty list; otherwise the projected leading items; never more than five |
| `AnalyzeCompany.FactLines` | supabase/functions/analyze-company/index.ts:88-104 | one line per labelled overview field |
| `AnalyzeCompany.NewsLines` | supabase/functions/analyze-company/index.ts:107 | one line "- title (Sentiment: label)" per news item, in news order |
| `AnalyzeCompany.CompanyBlock` | supabase/functions/analyze-company/index.ts:88-104 | definition: the fact lines joined by line breaks; `CompanyBlockLines` states that it splits back into exactly those lines |
| `AnalyzeCompany.NewsDigest` | supabase/functions/analyze-company/index.ts:107 | definition: the news lines joined by line breaks; `DigestLines` states that it splits back into them |
| `AnalyzeCompany.BuildPrompt` | supabase/functions/analyze-company/index.ts:86-153 | definition: the template head, the company block, the news heading, the digest and the format instructions, in that order; `PromptEmbedsFacts` and `PromptEmbedsNews` state what it contains |
| `AnalyzeCompany.StatusError` | supabase/functions/analyze-company/index.ts:172-182 | definition: the message thrown for a non-ok status, 429 and 402 with their own messages and every other status "AI analysis failed"; `AiStatusSurfacesAs500` states how each reaches the client |
| `AnalyzeCompany.ChatMessages` | supabase/functions/analyze-company/index.ts:163-169 | definition: the system message, then the prompt as the user message; `AnalyzeWithAi` states that the request it sends carries exactly these two messages |
| `AnalyzeCompany.DropJsonTag` | supabase/functions/analyze-company/index.ts:195-197 | removing a leading "```json" leaves a substring of the text |
| `AnalyzeCompany.DropOpenFence` | supabase/functions/analyze-company/index.ts:198-200 | removing a leading fence leaves a substring of the text |
| `AnalyzeCompany.DropCloseFence` | supabase/functions/analyze-company/index.ts:201-203 | removing one trailing fence leaves a substring of the text |
| `AnalyzeCompany.CleanFences` | supabase/functions/analyze-company/index.ts:193-204 | the cleaned text has no white space at either end and is a substring of the trimmed content |
| `AnalyzeCompany.CleanContent` | supabase/functions/analyze-company/index.ts:193-204 | the step-by-step reassignment computes `CleanFences` |
| `AnalyzeCompany.AiOutcome` | supabase/functions/analyze-company/index.ts:79-215 | succeeds iff the key is truthy, the status ok, the content truthy and the cleaned content decodes, with the decoded value; a missing key fails first; otherwise the status message, then "Empty AI response", then "Failed to parse AI analysis" |
| `AnalyzeCompany.AnalyzeWithAi` | supabase/functions/analyze-company/index.ts:79-215 | the imperative version computes `AiOutcome`; a chat request is sent iff the key is truthy, carrying the model name, the system message, the overview, the news and the bearer key |
| `AnalyzeCompany.Assemble` | supabase/functions/analyze-company/index.ts:270-292 | every field of the result record comes from its source field: the ticker, the name, the 13 figures, the brief, the comparables, the news count and the timestamp |
| `AnalyzeCompany.Serve` | supabase/functions/analyze-company/index.ts:218-311 | the handler's response equals `Analyze`, and its upstream requests equal `UpstreamCalls` |
| `AnalyzeCompany.CheckRequest` | supabase/functions/analyze-company/index.ts:224-250 | the early returns before any upstream call compute `Admit` |
| `AnalyzeCompany.FetchAndAnalyze` | supabase/functions/analyze-company/index.ts:252-299 | the steps after the checks compute `Pipeline` and `Requests` |
| `AnalyzeCompany.Admit` | supabase/functions/analyze-company/index.ts:218-250 | definition: an unreadable body is a 500, then the ticker check, then the market-data key check; `CheckRequest` is proved to compute it, and `InvalidInputDecidedFirst` and `MissingConfigBeforeUpstream` state its order |
| `AnalyzeCompany.Pipeline` | supabase/functions/analyze-company/index.ts:252-311 | definition: the first failing stage decides the response, a thrown error becoming a 500, an unknown ticker a 404; its properties are `FailureStatuses`, `SuccessExactly` and `SuccessReport` |
| `AnalyzeCompany.Analyze` | supabase/functions/analyze-company/index.ts:218-311 | definition: the handler's response to one POST, combining the stages through `Pipeline`; `Serve` is proved to compute it |
| `AnalyzeCompany.Requests` | supabase/functions/analyze-company/index.ts:252-299 | definition: the overview request once admitted, the news request once the company is found, the chat request once the news succeeded and the AI key is truthy |
| `AnalyzeCompany.UpstreamCalls` | supabase/functions/analyze-company/index.ts:218-311 | definition: the upstream requests of one POST, in order; `Serve` is proved to send exactly these |
| `AnalyzeCompanyProperties.UpperLettersUnchanged` | supabase/functions/analyze-company/index.ts:233-235 | a string of letters A-Z is its own normal form |
| `AnalyzeCompanyProperties.AcceptedTickerRevalidates` | supabase/functions/analyze-company/index.ts:226-240 | an accepted ticker is accepted again, unchanged |
| `AnalyzeCompanyProperties.UpperOfSpace` | supabase/functions/analyze-company/index.ts:233 | upper-casing leaves white space alone |
| `AnalyzeCompanyProperties.PaddedTickerAccepted` | supabase/functions/analyze-company/index.ts:233-240 | a ticker in lower case with white space around it is accepted as its upper-cased core |
| `AnalyzeCompanyProperties.TooLongRejected` | supabase/functions/analyze-company/index.ts:235-239 | "TOOLONG" is rejected with 400 and the format message |
| `AnalyzeCompanyProperties.DottedRejected` | supabase/functions/analyze-company/index.ts:235-239 | "BRK.B" is rejected with 400 and the format message |
| `AnalyzeCompanyProperties.InvalidInputDecidedFirst` | supabase/functions/analyze-company/index.ts:226-250 | a bad ticker gets its 400 whatever the configuration and the replies, and no upstream request is sent |
| `AnalyzeCompanyProperties.MissingConfigBeforeUpstream` | supabase/functions/analyze-company/index.ts:242-255 | a valid ticker without the market-data key gets 500 "API configuration error" and no upstream request is sent |
| `AnalyzeCompanyProperties.NotFoundStopsPipeline` | supabase/functions/analyze-company/index.ts:255-262 | an unknown symbol gives 404 naming the cleaned ticker; only the overview was requested |
| `AnalyzeCompanyProperties.RateLimitNoteWins` | supabase/functions/analyze-company/index.ts:42-45 | an overview note fails the request with 500 and the rate-limit message even when a symbol is present; only one request was sent |
| `AnalyzeCompanyProperties.NewsFailureIsFatal` | supabase/functions/analyze-company/index.ts:55-59 | a failed news fetch or read fails the request with 500 and its message; the model is not asked |
| `AnalyzeCompanyProperties.AiStatusSurfacesAs500` | supabase/functions/analyze-company/index.ts:172-182 | a non-ok model status gives 500 with the 429, 402 or generic message; three requests were sent |
| `AnalyzeCompanyProperties.FailureStatuses` | supabase/functions/analyze-company/index.ts:218-311 | a failed request is 400, 404 or 500; 400 exactly for a bad ticker; 404 exactly for an unknown symbol after the checks pass |
| `AnalyzeCompanyProperties.SuccessExactly` | supabase/functions/analyze-company/index.ts:218-299 | a request succeeds iff every stage succeeds |
| `AnalyzeCompanyProperties.SuccessReport` | supabase/functions/analyze-company/index.ts:252-292 | a successful report has the cleaned, well-formed ticker, the overview's name and figures, the decoded brief and comparables, at most five news, the given timestamp; the three requests were sent in order |
| `AnalyzeCompanyProperties.NoNewsStillSucceeds` | supabase/functions/analyze-company/index.ts:61-68 | a rate-limited or feedless news reply does not fail the request; the report counts no news |
| `AnalyzeCompanyProperties.JsonTagIsFenced` | supabase/functions/analyze-company/index.ts:195-200 | text tagged as a JSON block also starts with a plain fence |
| `AnalyzeCompanyProperties.CleanTextUnchanged` | supabase/functions/analyze-company/index.ts:193-204 | trimmed text with no fence at either end is left as it is |
| `AnalyzeCompanyProperties.FencedJsonUnwrapped` | supabase/functions/analyze-company/index.ts:193-204 | "```json" + s + "```" cleans to the trim of s whenever s does not begin with a fence |
| `AnalyzeCompanyProperties.OnlyOneClosingFenceRemoved` | supabase/functions/analyze-company/index.ts:201-203 | of two closing fences only one is removed |
| `AnalyzeCompanyProperties.FencedOutputDecodesLikePlain` | supabase/functions/analyze-company/index.ts:193-207 | a fenced JSON block with line breaks decodes like the bare text |
| `AnalyzeCompanyProperties.PlainFenceUnwrapped` | supabase/functions/analyze-company/index.ts:193-204 | a block fenced by "```" without a tag, with line breaks, cleans to the bare text |
| `AnalyzeCompanyProperties.PlainFenceDecodesLikePlain` | supabase/functions/analyze-company/index.ts:193-207 | a block fenced without a tag decodes like the bare text |
| `AnalyzeCompanyProperties.TaggedOnlyOneClosingFenceRemoved` | supabase/functions/analyze-company/index.ts:193-204 | in a "```json" block ending in two fences, only the last fence is removed |
| `AnalyzeCompanyProperties.UpperCaseTagKept` | supabase/functions/analyze-company/index.ts:195-200 | the tag is matched in lower case only: a "```JSON" block loses its fences and keeps "JSON" |
| `AnalyzeCompanyProperties.PromptEmbedsFacts` | supabase/functions/analyze-company/index.ts:86-104 | every labelled overview field occurs in the prompt as the line "- label: value" |
| `AnalyzeCompanyProperties.PromptEmbedsNews` | supabase/functions/analyze-company/index.ts:106-107 | every news item occurs in the prompt as its digest line |
| `AnalyzeCompanyProperties.DigestLines` | supabase/functions/analyze-company/index.ts:107 | when no title or label holds a line break, the digest splits back into exactly one line per news item, in order |
| `AnalyzeCompanyProperties.FactLineSingle` | supabase/functions/analyze-company/index.ts:89-104 | a fact line of a label and a value without line breaks has none |
| `AnalyzeCompanyProperties.LabelsSingleLine` | supabase/functions/analyze-company/index.ts:89-104 | no label of the company block holds a line break |
| `AnalyzeCompanyProperties.CompanyBlockLines` | supabase/functions/analyze-company/index.ts:88-104 | when no overview value holds a line break, the company block is exactly its sixteen fact lines, each field once |
| `CompanyResearch.ThrownMessage` | src/hooks/useCompanyResearch.ts:26-32 | a reply throws iff it is a transport error or carries a truthy `error`; a thrown message is never empty |
| `CompanyResearch.AnalyzeSnapshots` | src/hooks/useCompanyResearch.ts:12-56 | an analysis shows at least three states |
| `CompanyResearch.ResearchSession.constructor` | src/hooks/useCompanyResearch.ts:7-9 | starts idle with no report and no error |
| `CompanyResearch.ResearchSession.AnalyzeCompany` | src/hooks/useCompanyResearch.ts:12-56 | invokes the edge function with the upper-cased, trimmed ticker; appends exactly the states of `AnalyzeSnapshots` to the history and ends in its last; keeps the state consistent |
| `CompanyResearch.ResearchSession.Reset` | src/hooks/useCompanyResearch.ts:102-106 | no report, step idle, no error |
| `CompanyResearch.ResearchSession.SaveReport` | src/hooks/useCompanyResearch.ts:58-100 | nothing happens without a report; nothing is inserted without a user; otherwise the row is the user id, ticker, company name, brief and comparables of the current report; saved iff the insert succeeds |
| `CompanyResearch.SnapshotsConsistent` | src/hooks/useCompanyResearch.ts:13-48 | every state an analysis shows has a report exactly when complete and a non-empty error exactly when in error |
| `CompanyResearch.AnalysisStartsLoading` | src/hooks/useCompanyResearch.ts:13-20 | the first two states are fetching and analyzing with report and error cleared; every state but the last is a loading step with neither |
| `CompanyResearch.FailureOutcome` | src/hooks/useCompanyResearch.ts:26-32 | a failing reply shows fetching, analyzing, then error without a report; the message is the transport error's, else "Failed to analyze company", or the body's `error` verbatim |
| `CompanyResearch.SuccessOutcome` | src/hooks/useCompanyResearch.ts:34-38 | a report without an error shows fetching, analyzing, generating, then complete with that report and no error |
| `CompanyResearch.FinalStep` | src/hooks/useCompanyResearch.ts:34-48 | an analysis ends complete iff the reply is an error-free report, and in error otherwise |
| `TickerInput.StepMessage` | src/components/research/TickerInput.tsx:24-35 | a message exactly in the loading steps, one fixed message per step |
| `TickerInput.IsLoading` | src/components/research/TickerInput.tsx:15 | definition: the step is fetching, analyzing or generating; `NoSubmitInFlight` states that exactly the states before the last of an analysis are loading |
| `TickerInput.TickerForm.ButtonDisabled` | src/components/research/TickerInput.tsx:57 | definition: the trimmed input is blank or an analysis is loading; `HandleSubmit` fires exactly when it is false |
| `TickerInput.NormalizeInput` | src/components/research/TickerInput.tsx:47 | at most five characters, the first min(5, n) of the input upper-cased; no lower-case letter |
| `TickerInput.NormalizeIdempotent` | src/components/research/TickerInput.tsx:47 | normalising a stored value again leaves it unchanged |
| `TickerInput.ShortUpperKept` | src/components/research/TickerInput.tsx:47 | an upper-case value of at most five characters is stored as typed |
| `TickerInput.TickerForm.constructor` | src/components/research/TickerInput.tsx:13 | the input starts empty |
| `TickerInput.TickerForm.OnChange` | src/components/research/TickerInput.tsx:47-49 | stores the normalised value; called only outside the loading steps, as the input is disabled while loading |
| `TickerInput.TickerForm.HandleSubmit` | src/components/research/TickerInput.tsx:17-22 | calls back exactly when the button is enabled (disabled: blank trimmed input or loading), with the stored, untrimmed value |
| `TickerInput.NoSubmitInFlight` | src/components/research/TickerInput.tsx:15 | a state of an analysis is a loading step exactly when it is not the last, so the form cannot resubmit mid-analysis |
| `ComparablesTable.ScoreBand` | src/components/research/ComparablesTable.tsx:18-22 | green iff score >= 80, yellow iff 60 <= score < 80, orange iff score < 60 |
| `ComparablesTable.ScoreColor` | src/components/research/ComparablesTable.tsx:18-22 | the green, yellow or orange class string by the same thresholds |
| `ComparablesTable.BandMonotone` | src/components/research/ComparablesTable.tsx:18-22 | a higher score never gets a lower band (orange < yellow < green) |
| `ComparablesTable.SameColorSameBand` | src/components/research/ComparablesTable.tsx:18-22 | two scores get the same classes exactly when they are in the same band |
| `ComparablesTable.RowsFrom` | src/components/research/ComparablesTable.tsx:44-55 | one row per comparable, in order, of any length, keys counting up |
| `ComparablesTable.RowsMatchComparables` | src/components/research/ComparablesTable.tsx:44-55 | row i shows comparable i's name, ticker, score, classes, market cap, P/E and reasoning under key i; keys are distinct |
| `ComparablesTable.RowsAppend` | src/components/research/ComparablesTable.tsx:44-55 | the rows of a concatenation are the rows of each part, keys continuing |

## Left out

- News failures: `fetchCompanyNews` has no `try`/`catch`, so a fetch or JSON failure of the news request propagates to the handler's catch-all. The model follows the code: 500 with the error's message. It does not treat news as unable to fail.
- Brief and comparables shape: the code does not check the shape of the decoded model output, and neither does the model. `decode` yields the two keys as they are.
- JSON: `JSON.parse` is the abstract `decode`. `JSON.parse(JSON.stringify(…))` in `saveReport` is taken to be the identity.
- Non-`Error` throws: the 'Unknown error occurred' and 'Analysis failed' branches are not modelled. Every modelled throw is an `Error`.
- Saving: the thrown insert error's message and the toast texts are not modelled. `SaveReport` reports only which toast is shown.
- Unicode: upper-casing is ASCII only. Unicode case mapping, which can change a string's length, is not modelled; `trim` uses the exact ECMAScript white-space set.
- `TickerInput.NormalizeInput`: a string is a sequence of characters, not of UTF-16 code units. `slice(0, 5)` in `onChange` keeps five code units and can split a surrogate pair; the model keeps five characters.
- Overview fields: every absent overview or feed field is modelled as the empty string. For `Symbol` the two agree, as both are falsy.
- `AnalyzeCompanyProperties.PromptEmbedsFacts`: where the source interpolates an absent field into the prompt as the text `undefined`, the model's prompt line has the empty string. The same holds for absent news titles and sentiment labels.
- `AnalyzeCompany.Assemble`: where the source's `JSON.stringify` drops an absent `companyName` from the response, the model's report holds the empty string.
- Scores: `similarityScore` is an integer; fractional scores are not modelled.
- Plumbing: CORS headers and the OPTIONS preflight, logging, `fetch` URLs beyond the values they carry, and response construction.
- Client runtime: React state and callback mechanics, `setTimeout` delays, toasts, the Supabase client, auth and insert, `preventDefault`, and the rendering of other components.
- Not modelled (floating point and locale formatting): `CompanyHeader` `formatMarketCap`.
- `AnalyzeCompany.BuildPrompt`: the prompt's full template text is not proved about beyond the embedding lemmas.
- `CompanyResearch.ResearchSession.AnalyzeCompany`: the ghost invocation log is updated at the end of the method rather than between the second and third state.
