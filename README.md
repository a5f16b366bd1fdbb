# Laku-in core, modelled in Dafny

Laku-in is a bookkeeping and sales assistant for small Indonesian shops. It has
a NestJS backend (`Laku-in-be`) and a React frontend (`Laku-in-fe`). This
project models the parts of it that make decisions, and proves what those
decisions are.

- **The voice-command pipeline.** A spoken transcript is trimmed and sent with
  a navigation prompt to the Kolosal chat-completion gateway. The model's reply
  is then read into exactly one result: navigate, text or error. The backend
  (`voice-ai.service.ts`, `nest_kolosal.service.ts`) and the frontend
  (`kolosal-api.types.ts`, `kolosal-api.client.ts`, `voice.service.ts`,
  `voice.types.ts`) each implement the pipeline, and each copy is modelled as
  written. Both read the reply strictly as JSON first, then by the regular
  expressions of the salvage tier, then as plain text. The gateways check the
  API key and URL and turn transport failures into messages. The frontend's
  own voice service also falls back to keywords.
- **The financial report** (`financial.service.ts`). It covers the filter
  chain, the summary, and the category and payment-method breakdowns.
- **The demo stores.** Each keeps its records in an in-memory array and changes
  it in place: financial records, sales transactions and products
  (`*.service.simulation.ts`).
- **The poster and receipt services.** They validate uploads and the data they
  extract, and confirm, upload and retry.
- **Authentication** (`auth.service.ts` and its simulation). It covers the
  `localStorage` session with its expiry, the login and registration checks,
  and the keyword rules that turn errors into messages for the user.
- **Analytics** (`analytics.service.ts`). It covers the period label, the
  keyword responder and the export file name.
- **`formatDate`.** It renders relative times.

Anything the code reads from outside becomes a parameter of the model:

- **Gateway and `fetch` outcomes** (`FetchOutcome`, `AxiosOutcome`).
- **`JSON.parse`.** It is a decoder `string -> Option<Json>`.
- **The clock.** It is `now`, in milliseconds.
- **`Math.random`.** Each draw is a boolean or a small number, such as
  `apiOk`, `networkFails`, `extra`, `pick`, `phone` or the AI/OCR `Scenario`.
- **`new Date(text)` and `toISOString`.** They are `DateParser` and
  `IsoFormatter`.
- **`Intl.DateTimeFormat`.** It is the `absolute` rendering.
- **`new URL`.** It is a predicate.
- **`localStorage`.** It is a `map<string, string>` field.

Services whose fields change become classes:

- `FinancialSimulation.FinancialStore`;
- `TransactionsSimulation.TransactionsStore`;
- `ProductsSimulation.ProductsStore`;
- `Auth.AuthService`;
- `AuthSimulation.SimulatedAuthService`.

Each method of these classes is tied to a function of the old state, and the
lemmas are proved about those functions. The pure parts are functions and
lemmas.

Two behaviours of the code are worth stating plainly:

- **The strict JSON tier.** It checks only that `message` or `path` is a
  string, so it accepts an empty one (`BackendVoice.StructuredEmptyPathAccepted`), where the frontend copy asks for a non-empty path (`ParserAgreement.ParsersDisagreeOnEmptyPath`).
- **The gateway's configured reads.** `getApiKey` and `getApiUrl` are never
  called by `sendCompletion`: the axios instance is built once, in the
  constructor.

## Model

| member | source | states |
|---|---|---|
| ApiKeyFormat.ValidApiKeyForms | Laku-in-be/src/voice-ai/nest_kolosal.service.ts:84-95 | a key is accepted exactly when it is 32 or more letters and digits, or `sk-`/`kl-` followed by 48 or more letters and digits; the 10-character floor never decides |
| ApiKeyFormat.ShortKeysRefused | Laku-in-fe/src/services/kolosal-api.client.ts:24-37 | a key shorter than 32 characters is refused by every pattern |
| ApiKeyFormat.PrefixedKeyNeedsPrefixForm | Laku-in-fe/src/services/kolosal-api.client.ts:30-36 | an accepted key starting with `sk-` is accepted through the prefixed pattern: at least 51 characters, letters and digits after the prefix |
| BackendGateway.GetApiKey | Laku-in-be/src/voice-ai/nest_kolosal.service.ts:64-82 | the key is returned exactly when it is configured and well formed; an absent or empty key gives the 500 "tidak ditemukan" error, a malformed one the 500 "Format ... tidak valid" error |
| BackendGateway.GetApiUrl | Laku-in-be/src/voice-ai/nest_kolosal.service.ts:97-116 | the configured URL or the default is returned exactly when it parses as a URL, with the warning exactly when it lacks `/v1/`; otherwise the 500 error naming the URL |
| BackendGateway.DefaultUrlHasV1 | Laku-in-be/src/voice-ai/nest_kolosal.service.ts:98-107 | with nothing configured the default URL is used and draws no warning |
| BackendGateway.HandleAxiosError | Laku-in-be/src/voice-ai/nest_kolosal.service.ts:151-217 | ECONNABORTED is always a 408 timeout; otherwise ECONNREFUSED or ENOTFOUND in the message is a 503 unreachable error; every result is one of the fixed statuses or the upstream status below 500 other than 401, 404 and 429 |
| BackendGateway.UpstreamStatusMapping | Laku-in-be/src/voice-ai/nest_kolosal.service.ts:169-216 | without a response the error is the 503 network error; every 5xx becomes 502; any other status outside 400, 401, 404, 429 is passed on with "Kolosal API error: " and the upstream's error, message or axios message |
| BackendGateway.ConnectionFailureWins | Laku-in-be/src/voice-ai/nest_kolosal.service.ts:152-217 | a message naming ECONNREFUSED or ENOTFOUND gives the 503 unreachable error, and the response (any status, any body) makes no difference, unless the code is ECONNABORTED |
| BackendGateway.KnownStatusMessages | Laku-in-be/src/voice-ai/nest_kolosal.service.ts:169-203 | with no timeout and no connection failure, an upstream 401, 429, 404 or 400 keeps its status and gets its fixed message, whatever the body says |
| BackendGateway.KnownStatusesFromUpstream | Laku-in-be/src/voice-ai/nest_kolosal.service.ts:151-217 | a 401, 429, 404 or 400 result comes only from an upstream response with that status, never after a timeout, and always carries its fixed message |
| BackendGateway.SendCompletion | Laku-in-be/src/voice-ai/nest_kolosal.service.ts:118-149 | the body is returned exactly when it was delivered with `success` true; an unsuccessful body and any non-axios failure become the generic 500; an axios failure becomes `handleAxiosError`'s error |
| BackendGateway.ProviderErrorTextDiscarded | Laku-in-be/src/voice-ai/nest_kolosal.service.ts:129-147 | the provider's `error` text of an unsuccessful body does not change the result |
| Completion.FirstMessage | Laku-in-be/src/voice-ai/voice-ai.service.ts:113-119 | the first choice's message is found exactly when there is data, at least one choice and that choice has a message |
| BackendVoice.ExtractNavigationFromText | Laku-in-be/src/voice-ai/voice-ai.service.ts:196-229 | never an error; a navigation exactly when the lower-cased text mentions navigation or navigasi and the path pattern matches, with a non-empty, quote-free path taken from the leftmost match and the message capture if any; otherwise the trimmed text, or "Respon kosong" when that is empty |
| BackendVoice.StructuredTier | Laku-in-be/src/voice-ai/voice-ai.service.ts:147-183 | a navigation exactly for an object with action "navigation" and a string `response.path`, carrying that path and the message when it is a string; a text exactly for action "text" with a string `response.message`; never an error |
| BackendVoice.ParseNavigationResponse | Laku-in-be/src/voice-ai/voice-ai.service.ts:131-194 | never an error; blank content gives a text with an empty message through the catch; a trimmed reply that decodes to a command the structured tier accepts is returned as that command |
| BackendVoice.NavigationPathOrigin | Laku-in-be/src/voice-ai/voice-ai.service.ts:166-215 | every navigation path is the string `path` of a decoded navigation command or the leftmost path capture of a reply that mentions navigation |
| BackendVoice.UnstructuredReplySalvaged | Laku-in-be/src/voice-ai/voice-ai.service.ts:140-161 | a reply that does not decode, or decodes to no usable command, is read by the salvage tier on the trimmed content |
| BackendVoice.ParseIgnoresSurroundingSpace | Laku-in-be/src/voice-ai/voice-ai.service.ts:137 | trimming the content first does not change the result |
| BackendVoice.StructuredEmptyPathAccepted | Laku-in-be/src/voice-ai/voice-ai.service.ts:166-176 | a navigation command whose path is the empty string navigates to the empty path |
| BackendVoice.ProcessWithAI | Laku-in-be/src/voice-ai/voice-ai.service.ts:99-128 | a gateway failure is rethrown; an unsuccessful reply or one without a first message gives "Response dari Kolosal AI tidak valid"; a blank message gives "Tidak ada teks yang diterima dari AI"; otherwise the trimmed message is parsed |
| BackendVoice.ProcessVoiceCommand | Laku-in-be/src/voice-ai/voice-ai.service.ts:54-97 | no request exactly for a blank transcript, which gives "Transcript kosong terdeteksi"; the request sent is exactly `CompletionRequestFor` of the trimmed transcript; any gateway failure gives "Error memproses transkripsi"; every error is one of the four fixed texts |
| BackendVoice.CompletionRequestFor | Laku-in-be/src/voice-ai/voice-ai.service.ts:81-97 | the navigation prompt as system message then the transcript as user message, model `gpt-3.5-turbo`, temperature 0.3, 500 tokens, no streaming |
| BackendVoice.GatewayReplyProcessed | Laku-in-be/src/voice-ai/voice-ai.service.ts:54-128 | for a non-blank transcript and a body the gateway returns, the endpoint answers with what `processWithAI` makes of that body |
| BackendVoice.UnsuccessfulBodyIsProcessingError | Laku-in-be/src/voice-ai/voice-ai.service.ts:71-77 | a provider body with `success` false ends as the processing error, because the gateway already threw |
| BackendVoice.ValidReplyParsed | Laku-in-be/src/voice-ai/voice-ai.service.ts:112-124 | a successful reply with a non-blank first message is answered by parsing that message, never with an error |
| BackendVoice.BlankTranscriptIndependentOfGateway | Laku-in-be/src/voice-ai/voice-ai.service.ts:58-65 | a blank transcript gets the same answer, the empty-transcript error, whatever the gateway would have done |
| Salvage.MatchAtIff | Laku-in-be/src/voice-ai/voice-ai.service.ts:203 | the scanner accepts a match starting at an index exactly when the text there is the quoted key, a colon, any run of whitespace and a quoted capture without quotes |
| Salvage.FindFromLeftmost | Laku-in-be/src/voice-ai/voice-ai.service.ts:203-206 | a found capture is that of the leftmost index where the pattern matches; nothing is found exactly when it matches nowhere |
| Salvage.Find | Laku-in-be/src/voice-ai/voice-ai.service.ts:203-206 | `String.prototype.match` without the global flag: the capture of the leftmost match, or none when no index matches |
| Salvage.CaptureShape | Laku-in-be/src/voice-ai/voice-ai.service.ts:203-206 | a capture has no double quote, and is non-empty for the `+` pattern |
| Salvage.PathCapture | Laku-in-be/src/voice-ai/voice-ai.service.ts:203 | a path capture is non-empty and quote-free |
| Salvage.MessageCapture | Laku-in-be/src/voice-ai/voice-ai.service.ts:206 | a message capture is quote-free, and may be empty |
| Salvage.PathCaptureExample | Laku-in-be/src/voice-ai/voice-ai.service.ts:203 | on `{"path": "/dashboard"}` the path pattern captures `/dashboard` |
| Salvage.GateThirdDisjunctRedundant | Laku-in-be/src/voice-ai/voice-ai.service.ts:198-202 | the gate holds exactly when the lower-cased text contains navigation or navigasi: its third test never decides |
| Salvage.LiteralMentionsNavigation | Laku-in-be/src/voice-ai/voice-ai.service.ts:201 | a text containing `"action": "navigation"` already passes the first test |
| ParserAgreement.SalvageTiersAgree | Laku-in-fe/src/types/kolosal-api.types.ts:202-244 | the backend and frontend salvage tiers give the same kind, path and message on every text |
| ParserAgreement.ParsersAgreeOnUnstructuredReplies | Laku-in-fe/src/types/kolosal-api.types.ts:119-134 | both parsers read a blank reply or one that is not JSON the same way |
| ParserAgreement.ParsersAgreeOnNavigationCommands | Laku-in-fe/src/types/kolosal-api.types.ts:137-179 | both parsers read a navigation command with a non-empty string path the same way |
| ParserAgreement.ParsersDisagreeOnEmptyPath | Laku-in-fe/src/types/kolosal-api.types.ts:175-177 | on a navigation command with an empty path the backend navigates to the empty path while the frontend salvages the reply |
| VoiceRoutes.GuardsPartition | Laku-in-fe/src/types/voice.types.ts:188-194 | `isTextResponse` and `isNavigationResponse` never both hold, and both fail exactly for data with neither a message nor a path |
| VoiceRoutes.RouteTableShape | Laku-in-fe/src/types/voice.types.ts:78-87 | the route table holds seven distinct routes, each starting with `/` |
| FrontendCommand.CreateVoiceCommandCompletionRequest | Laku-in-fe/src/types/kolosal-api.types.ts:97-114 | the request is the system prompt then the command, untrimmed, with model gpt-3.5-turbo, temperature 0.3, 500 tokens and no streaming |
| FrontendCommand.ExtractNavigationFromText | Laku-in-fe/src/types/kolosal-api.types.ts:202-244 | stamped with the clock; a navigation exactly when the text mentions navigation and the path pattern matches, with the captures and empty params; otherwise a text with the trimmed text or "Respon kosong" |
| FrontendCommand.BuildCommand | Laku-in-fe/src/types/kolosal-api.types.ts:156-172 | the command keeps the action, a numeric timestamp or the clock, the string message and path, and the params object or an empty one |
| FrontendCommand.StructuredTier | Laku-in-fe/src/types/kolosal-api.types.ts:137-183 | a command exactly for an object with `action` text or navigation and an object `response`, where a navigation also needs a non-empty string path; the command is the assembled one |
| FrontendCommand.ParseNavigationResponse | Laku-in-fe/src/types/kolosal-api.types.ts:119-197 | blank content gives a text command with an empty message through the catch; a trimmed reply that decodes to a command the structured tier accepts is returned as that command |
| FrontendCommand.UnstructuredReplySalvaged | Laku-in-fe/src/types/kolosal-api.types.ts:119-197 | a reply that does not decode, or decodes to something the structured tier refuses, is read by the salvage tier on the trimmed content |
| FrontendCommand.NavigationPathOrigin | Laku-in-fe/src/types/kolosal-api.types.ts:165-218 | a navigation's path is the `path` of a well-formed decoded command or the leftmost path capture of a reply that mentions navigation |
| FrontendCommand.NavigationPathNonEmpty | Laku-in-fe/src/types/kolosal-api.types.ts:175-211 | every navigation command carries a non-empty path |
| FrontendCommand.TimestampOrigin | Laku-in-fe/src/types/kolosal-api.types.ts:159-161 | the timestamp is the clock unless a structured command carried a numeric one |
| FrontendCommand.TextCommandWithoutMessage | Laku-in-fe/src/types/kolosal-api.types.ts:153-179 | a text command with an empty response object is returned with no message |
| FrontendGateway.GetApiKey | Laku-in-fe/src/services/kolosal-api.client.ts:9-22 | the key is returned exactly when configured and well formed; absent or empty gives the "tidak ditemukan" error, otherwise the format error |
| FrontendGateway.GetApiUrl | Laku-in-fe/src/services/kolosal-api.client.ts:42-58 | the configured URL or the default is returned exactly when it parses; otherwise the error naming the URL and the parser's text |
| FrontendGateway.ClassifyError | Laku-in-fe/src/services/kolosal-api.client.ts:109-157 | an error matching no pattern is rethrown unchanged; a matched one becomes a plain error with one of the fixed messages; an abort is always the timeout message |
| FrontendGateway.ClassifiedIffSomeRule | Laku-in-fe/src/services/kolosal-api.client.ts:112-156 | an error is rewritten exactly when one of the ten tests of the catch block fires |
| FrontendGateway.ClassifyFirstMatch | Laku-in-fe/src/services/kolosal-api.client.ts:112-153 | when test k fires and no earlier one does, the error becomes test k's message: abort→timeout, `Failed to fetch`→unreachable, `Unauthorized`→bad key, `insufficient_quota`→quota, `rate_limit`→rate limit, `model_not_found`→model, `invalid_request`→bad request, `server_error`→server, network group→network, `timeout`/TimeoutError→timeout |
| FrontendGateway.ClassifyNoMatch | Laku-in-fe/src/services/kolosal-api.client.ts:154-156 | when no test fires the error is rethrown unchanged |
| FrontendGateway.NetworkGroupShadowed | Laku-in-fe/src/services/kolosal-api.client.ts:117-149 | the network message is only produced for `net::ERR_CONNECTION` or `network`, never for `Failed to fetch` or an abort |
| FrontendGateway.FailedFetchIsUnreachable | Laku-in-fe/src/services/kolosal-api.client.ts:117-119 | a `Failed to fetch` message that is not an abort becomes the unreachable message |
| FrontendGateway.QuotaBeforeRateLimit | Laku-in-fe/src/services/kolosal-api.client.ts:125-131 | a quota error is reported as the quota message when no earlier pattern matched, even if it also names rate limiting |
| FrontendGateway.SendCompletion | Laku-in-fe/src/services/kolosal-api.client.ts:67-158 | `fetch` is called exactly when URL and key are valid; the parsed body is returned exactly when the attempt succeeds, and then its `success` is truthy; every failure is the classified error of the attempt |
| FrontendGateway.SendAttempt | Laku-in-fe/src/services/kolosal-api.client.ts:71-108 | the URL error first, then the key error, then what `fetch` rejected with; a non-OK response throws `Kolosal API error: ` and its `error`, `message`, text or status line; for an OK response a body that is not JSON throws the syntax error, a `null` body the `TypeError` of reading `data.success`, a body whose `success` is missing or falsy throws `data.error || "Kolosal API mengembalikan error"`, and any other body is returned as parsed |
| FrontendGateway.FailedResponseClassified | Laku-in-fe/src/services/kolosal-api.client.ts:88-156 | with a valid configuration a non-OK response reaches the caller as its `Kolosal API error: ` text passed through the classifier |
| FrontendGateway.UnauthorizedResponse | Laku-in-fe/src/services/kolosal-api.client.ts:88-123 | a 401 whose JSON body is `{"error":"Unauthorized"}` is reported as the invalid-or-expired key message |
| FrontendGateway.UnsuccessfulBodyClassified | Laku-in-fe/src/services/kolosal-api.client.ts:102-156 | an OK body that is not `null` and whose `success` is missing or falsy reaches the caller as its own error text, or the fixed provider message, passed through the classifier |
| FrontendGateway.ProviderError | Laku-in-fe/src/services/kolosal-api.client.ts:104-105 | a non-empty string `error` is the message; a missing or falsy one gives "Kolosal API mengembalikan error" |
| FrontendGateway.QuotaReplyWithoutSuccess | Laku-in-fe/src/services/kolosal-api.client.ts:102-130 | an OK reply `{"error":"insufficient_quota"}` without `success` is reported as the exhausted-quota message |
| FrontendGateway.NullReplyClassified | Laku-in-fe/src/services/kolosal-api.client.ts:102-156 | an OK reply of `null` fails with the `TypeError` of reading `data.success`, passed through the classifier |
| FrontendGateway.ConfigurationCheckedBeforeFetch | Laku-in-fe/src/services/kolosal-api.client.ts:72-73 | a bad URL, or a good URL with a bad key, is reported without calling `fetch` |
| FrontendVoice.VoiceRequest | Laku-in-fe/src/services/voice.service.ts:60-80 | one user message wrapping the transcript in the fixed prompt, temperature 0.3, at most 100 tokens, no model and no streaming |
| FrontendVoice.ExtractNavigationPath | Laku-in-fe/src/services/voice.service.ts:128-134 | `/dashboard/analytics` exactly when dashboard is absent and analytics or analisis present; `/dashboard/reports` exactly when those three are absent and report or laporan present; `/dashboard` otherwise |
| FrontendVoice.Fallback | Laku-in-fe/src/services/voice.service.ts:36-51 | a navigation to the extracted path with "Berhasil menuju" and the path when the transcript holds a navigation keyword; "Saya mengerti perintah Anda." otherwise; never an error |
| FrontendVoice.ReplyFromJson | Laku-in-fe/src/services/voice.service.ts:94-109 | a reply that is not JSON, or is `null`, is passed on as text; otherwise `type` and `response` are copied, and `response` is also the path exactly when `type` is "navigate" |
| FrontendVoice.ProcessWithAI | Laku-in-fe/src/services/voice.service.ts:83-113 | a client failure is rethrown; a body without success or without a first message throws "Response dari AI tidak valid"; otherwise the trimmed content is read as JSON or text |
| FrontendVoice.SendVoiceMessage | Laku-in-fe/src/services/voice.service.ts:22-52 | nothing is sent exactly for a blank transcript, which gives "Transcript kosong terdeteksi"; otherwise the request wraps the trimmed transcript, and a failure gives the keyword fallback computed on the raw transcript |
| FrontendVoice.FallbackRoutesAvailability | Laku-in-fe/src/types/voice.types.ts:196-199 | of the fallback's paths only `/dashboard` is an available route |
| FrontendVoice.FailureFallsBack | Laku-in-fe/src/services/voice.service.ts:36-51 | a failed or invalid model reply never gives an error: a navigation with a path exactly when a keyword is present |
| FrontendVoice.KindCopiedUnchecked | Laku-in-fe/src/services/voice.service.ts:96-97 | the `type` of a JSON object reply is copied whatever its value |
| FrontendVoice.PlainReplyIsText | Laku-in-fe/src/services/voice.service.ts:103-108 | a reply that is not JSON is passed on as text, trimmed |
| FrontendVoice.NavigationCommandIgnoresTrim | Laku-in-fe/src/services/voice.service.ts:119-123 | trimming a transcript does not change whether it is a navigation command |
| FrontendVoice.KeywordInTrimmed | Laku-in-fe/src/services/voice.service.ts:120-122 | each keyword occurs in the lower-cased trimmed transcript exactly when it occurs in the lower-cased raw one |
| FetchErrors.FirstTruthyField | Laku-in-fe/src/services/kolosal-api.client.ts:93 | a truthy first field is the text, shown as a string |
| FetchErrors.BodyJson | Laku-in-fe/src/services/kolosal-api.client.ts:92 | a value is read only from a present body that decodes to something other than `null` |
| FetchErrors.ErrorText | Laku-in-fe/src/services/kolosal-api.client.ts:89-97 | the intended message: the first truthy JSON field, else the non-empty raw body, else the status line |
| FetchErrors.ErrorTextReadings | Laku-in-fe/src/services/kolosal-api.client.ts:91-97 | the code as written agrees with the intended message when the body is JSON or absent, and otherwise fails with the body-already-read error |
| FetchErrors.PlainTextBodyIsLost | Laku-in-fe/src/services/kolosal-api.client.ts:94-96 | a 502 with the plain-text body "Bad Gateway" should give "Bad Gateway" but as written fails reading the body a second time |
| Ledger.MergeFields | Laku-in-fe/src/services/financial.service.ts:410 | for each of the nine fields: taken from the patch when the patch has it, kept from the record otherwise; the empty patch changes nothing |
| Ledger.MergeIdempotent | Laku-in-fe/src/services/financial.service.ts:410 | spreading the same patch twice gives what spreading it once gives |
| Ledger.GroupByTotals | Laku-in-fe/src/services/financial.service.ts:288-298 | the `Map` built by the `forEach` has amounts adding up to the sum of all amounts and counts adding up to the number of transactions |
| Ledger.GroupByKeys | Laku-in-fe/src/services/financial.service.ts:288-296 | the `Map` has an entry for exactly the keys of the transactions |
| Ledger.GroupByEntry | Laku-in-fe/src/services/financial.service.ts:291-295 | each entry is the tally of exactly the transactions with its key |
| Ledger.SumsAfterUpdate | Laku-in-fe/src/services/financial.service.ts:292-295 | replacing one entry changes the sums by that entry's difference and leaves them alone for a key not listed |
| FinancialReport.GenerateTransactions | Laku-in-fe/src/services/financial.service.ts:161-163 | a permutation of the store sorted newest first |
| FinancialReport.FilterTransactions | Laku-in-fe/src/services/financial.service.ts:172-207 | the chain of filters that are set equals one filter by all of them, and keeps the order of what it keeps |
| FinancialReport.BlankSearchKeepsAll | Laku-in-fe/src/services/financial.service.ts:199 | a missing or whitespace-only search drops nothing |
| FinancialReport.PercentageMeaning | Laku-in-fe/src/services/financial.service.ts:304 | the percentage times a positive total is the amount times 100, and 0 for no total |
| FinancialReport.AverageMeaning | Laku-in-fe/src/services/financial.service.ts:274-276 | the average times the count is the total, and 0 without transactions |
| FinancialReport.CalculateSummary | Laku-in-fe/src/services/financial.service.ts:254-278 | income and expense are the sums over completed transactions of each type, the count is the number completed, net profit is their difference, margin and average are the shares above |
| FinancialReport.SummaryCoversCompleted | Laku-in-fe/src/services/financial.service.ts:255-263 | income plus expense is the sum over all completed transactions |
| FinancialReport.TallyBy | Laku-in-fe/src/services/financial.service.ts:288-296 | the loop builds the same grouping as the reference fold |
| FinancialReport.CategoryEntries | Laku-in-fe/src/services/financial.service.ts:300-307 | one entry per `Map` key in insertion order, with its amount, count, percentage of the total and the colour at its position modulo 10 |
| FinancialReport.CalculateCategoryBreakdown | Laku-in-fe/src/services/financial.service.ts:281-309 | the loop and sort give the reference breakdown |
| FinancialReport.CategoryBreakdownSums | Laku-in-fe/src/services/financial.service.ts:298-308 | the breakdown's amounts add up to the completed total and its counts to the number of completed transactions |
| FinancialReport.CategoryBreakdownSorted | Laku-in-fe/src/services/financial.service.ts:308 | the breakdown is sorted by amount, largest first |
| FinancialReport.CategoryBreakdownOrigin | Laku-in-fe/src/services/financial.service.ts:288-291 | every entry names a category of some completed transaction |
| FinancialReport.CategoryEntriesCover | Laku-in-fe/src/services/financial.service.ts:291-306 | every category of a completed transaction has exactly one entry, coloured by its position in the `Map` |
| FinancialReport.MethodLabel | Laku-in-fe/src/services/financial.service.ts:351-356 | a method without a label is shown as it is |
| FinancialReport.PaymentEntries | Laku-in-fe/src/services/financial.service.ts:370-376 | one entry per `Map` key in insertion order, labelled, with its amount, count and percentage |
| FinancialReport.CalculatePaymentMethods | Laku-in-fe/src/services/financial.service.ts:349-378 | the loop and sort give the reference list |
| FinancialReport.PaymentMethodsProperties | Laku-in-fe/src/services/financial.service.ts:358-377 | the list is sorted by amount, largest first, and its amounts and counts add up to the completed totals |
| FinancialReport.GetCategories | Laku-in-fe/src/services/financial.service.ts:430-443 | the income or expense names for a type, and both lists one after the other without one |
| FinancialReport.CategoryCounts | Laku-in-fe/src/services/financial.service.ts:433-442 | four income and seven expense names; the combined eleven hold "Lainnya" twice, at positions 3 and 10 |
| FinancialReport.FindById | Laku-in-fe/src/services/financial.service.ts:384 | nothing exactly when no transaction has the id; otherwise the first one that has it |
| FinancialReport.GetTransactionDetail | Laku-in-fe/src/services/financial.service.ts:381-385 | nothing exactly when no stored transaction has the id; otherwise a stored one with that id, the first with it in newest-first order, as `find` returns |
| FinancialReport.UpdateTransaction | Laku-in-fe/src/services/financial.service.ts:402-413 | "Transaction not found" exactly when no transaction has the id; otherwise the updates spread over the stored one with that id that `find` returns first in newest-first order |
| FinancialReport.GetFinancialReport | Laku-in-fe/src/services/financial.service.ts:166-251 | the transactions are the filtered, newest-first copy of the store, and summary, breakdown and payment methods are computed from them |
| FinancialSimulation.IndexOfId | Laku-in-fe/src/services/financial.service.simulation.ts:145 | the first index holding the id, or -1 exactly when no record has it |
| FinancialSimulation.FindAtIndex | Laku-in-fe/src/services/financial.service.simulation.ts:93-145 | `find` and `findIndex` agree: the record found is the one at the index found |
| FinancialSimulation.NewRecord | Laku-in-fe/src/services/financial.service.simulation.ts:112-118 | the creator is always "Demo User"; an id in the data wins, otherwise the id is `FIN-` followed by the clock; the date, type, category, description, amount, payment method and status come from the data (the `createdAt` stamp is not modelled, see "## Left out") |
| FinancialSimulation.GeneratedIdsDiffer | Laku-in-fe/src/services/financial.service.simulation.ts:113 | records without ids created at different instants get different ids |
| FinancialSimulation.WithId | Laku-in-fe/src/services/financial.service.simulation.ts:151 | the returned patch carries the requested id unless the patch names its own, and is otherwise the patch |
| FinancialSimulation.FinancialStore.GetFinancialRecord | Laku-in-fe/src/services/financial.service.simulation.ts:87-100 | the first record with the id, else the first record, and nothing exactly when the store is empty, whatever the call did |
| FinancialSimulation.FinancialStore.CreateFinancialRecord | Laku-in-fe/src/services/financial.service.simulation.ts:105-133 | the new record is returned either way and appended only when the call succeeds |
| FinancialSimulation.FinancialStore.UpdateFinancialRecord | Laku-in-fe/src/services/financial.service.simulation.ts:138-156 | on success with a stored id the patch is merged over that record in place and nothing else changes; otherwise the store is unchanged and the patch comes back with the id |
| FinancialSimulation.FinancialStore.DeleteFinancialRecord | Laku-in-fe/src/services/financial.service.simulation.ts:161-173 | a successful call removes nothing and returns the stub's missing `success`; a failed one removes every record with the id and reports whether the length changed |
| FinancialSimulation.FinancialStore.GetFinancialReport | Laku-in-fe/src/services/financial.service.simulation.ts:178-265 | the report of the stored records under the filters |
| FinancialSimulation.DeleteReportsPresence | Laku-in-fe/src/services/financial.service.simulation.ts:169-171 | the fallback deletion reports a change exactly when some record had the id |
| FinancialSimulation.NeedleBlankIff | Laku-in-fe/src/services/financial.service.simulation.ts:212-213 | the lower-cased, trimmed search is empty exactly when the search is blank |
| FinancialSimulation.SearchWordsShape | Laku-in-fe/src/services/financial.service.simulation.ts:214 | a non-blank search splits into non-empty words without whitespace |
| FinancialSimulation.WholeNeedleIsKept | Laku-in-fe/src/services/financial.service.simulation.ts:215-221 | a record mentioning the whole search in description, category or id is kept |
| FinancialSimulation.PaymentMethodNotSearched | Laku-in-fe/src/services/financial.service.simulation.ts:216-220 | a record found only through its payment method is kept by the report service's search and dropped by this one |
| FinancialSimulation.FilterRecords | Laku-in-fe/src/services/financial.service.simulation.ts:185-222 | the kept records are a subsequence in order, every one passes every set filter, and every record that passes is kept |
| FinancialSimulation.BalancePercentageAsWritten | Laku-in-fe/src/services/financial.service.simulation.ts:286 | the guard as written: no finite value exactly when the balance is non-zero and the income zero; otherwise the balance as a share of the income |
| FinancialSimulation.BalancePercentageMeaning | Laku-in-fe/src/services/financial.service.simulation.ts:286 | the corrected percentage is the balance as a share of a non-zero income, and 0 without income |
| FinancialSimulation.BalancePercentageDividesByZero | Laku-in-fe/src/services/financial.service.simulation.ts:286 | a balance of -500 with no income passes the written guard and divides by zero; the corrected one gives 0 |
| FinancialSimulation.BalancePercentageAgrees | Laku-in-fe/src/services/financial.service.simulation.ts:286 | wherever the written guard gives a finite number the corrected one gives the same |
| FinancialSimulation.CalculateSummary | Laku-in-fe/src/services/financial.service.simulation.ts:267-289 | completed income and expense totals, their count and balance, the average, the corrected balance percentage, and pending counted over the whole input |
| FinancialSimulation.SummaryAgreesWithReport | Laku-in-fe/src/services/financial.service.simulation.ts:267-280 | the demo summary's income and balance equal the report service's income and net profit |
| FinancialSimulation.CalculateCategoryBreakdown | Laku-in-fe/src/services/financial.service.simulation.ts:294-315 | one entry per category of the completed transactions, in insertion order, with its income, expense, their sum and difference |
| FinancialSimulation.CategoryBreakdownProperties | Laku-in-fe/src/services/financial.service.simulation.ts:295-314 | categories are distinct, each is that of a completed transaction with exactly its income and expense, and the totals add up to the completed amount |
| FinancialSimulation.CalculatePaymentMethods | Laku-in-fe/src/services/financial.service.simulation.ts:357-368 | one total per payment method over every transaction, whatever its status |
| FinancialSimulation.PaymentTotalsCoverAll | Laku-in-fe/src/services/financial.service.simulation.ts:358-361 | the payment totals add up to every amount of the input, pending and cancelled included |
| FinancialSimulation.ReportOf | Laku-in-fe/src/services/financial.service.simulation.ts:178-265 | the report's transactions are exactly the records of the newest-first store that pass the filters, in that order (a subsequence, each kept one passing, every passing one kept), and the summary, breakdown and payment totals are computed from them |
| TransactionsSimulation.RandomCustomer | Laku-in-fe/src/services/transactions.service.simulation.ts:197-200 | the made-up customer is one of the four names with a `+628` number |
| TransactionsSimulation.NewTransaction | Laku-in-fe/src/services/transactions.service.simulation.ts:189-221 | the id is `TRX-` followed by the clock, the item, quantity, price and sale date come from the request, the subtotal is quantity times price, and the request's customer wins over the stand-in |
| TransactionsSimulation.Spread | Laku-in-fe/src/services/transactions.service.simulation.ts:238-240 | spreading a request over a sale keeps its id, creation time and subtotal; each of name, quantity, price, sale date and customer is the request's when it holds the key, else the stored one |
| TransactionsSimulation.Updated | Laku-in-fe/src/services/transactions.service.simulation.ts:238-243 | the stored update keeps id and creation time, takes name, quantity, price, sale date and customer from the request when it holds them, and sets the subtotal to `(quantity || stored) * (price || stored)`, so a 0 counts as absent |
| TransactionsSimulation.FallbackUpdated | Laku-in-fe/src/services/transactions.service.simulation.ts:252-273 | the unstored update keeps id and creation time, takes the request's customer and sale date when it holds them, and uses `||` for name, quantity and price |
| TransactionsSimulation.FallbackConsistent | Laku-in-fe/src/services/transactions.service.simulation.ts:252-273 | the fallback's subtotal is always its quantity times its price |
| TransactionsSimulation.UpdatedConsistent | Laku-in-fe/src/services/transactions.service.simulation.ts:238-243 | a stored update that sets neither quantity nor price to 0 keeps the subtotal equal to quantity times price |
| TransactionsSimulation.ZeroQuantityKeepsSubtotal | Laku-in-fe/src/services/transactions.service.simulation.ts:240-242 | a stored update to quantity 0 stores the 0 but keeps the old subtotal, so the record is no longer consistent |
| TransactionsSimulation.IndexOfId | Laku-in-fe/src/services/transactions.service.simulation.ts:236 | the first index holding the id, or -1 exactly when no sale has it |
| TransactionsSimulation.DeleteReportsPresence | Laku-in-fe/src/services/transactions.service.simulation.ts:290-292 | the fallback deletion reports a change exactly when some sale had the id |
| TransactionsSimulation.Lookup | Laku-in-fe/src/services/transactions.service.simulation.ts:163-176 | the sale with the id on a successful call that finds it, else the first sale, and nothing exactly when the store is empty |
| TransactionsSimulation.ListedLength | Laku-in-fe/src/services/transactions.service.simulation.ts:153 | the listing keeps 7 to 9 sales, or all of them when there are fewer |
| TransactionsSimulation.TransactionsStore.GetTransactions | Laku-in-fe/src/services/transactions.service.simulation.ts:144-158 | a successful call returns a newest-first copy cut to the listed length and leaves the store alone; a failed one sorts the store newest first and returns it |
| TransactionsSimulation.TransactionsStore.GetTransaction | Laku-in-fe/src/services/transactions.service.simulation.ts:163-176 | the lookup of the stored sales |
| TransactionsSimulation.TransactionsStore.CreateTransaction | Laku-in-fe/src/services/transactions.service.simulation.ts:181-223 | on success the new sale with a made-up customer is put in front; on failure it carries the demo customer and nothing is stored |
| TransactionsSimulation.TransactionsStore.UpdateTransaction | Laku-in-fe/src/services/transactions.service.simulation.ts:228-275 | on success with a stored id that sale alone is updated in place and returned; otherwise nothing changes and the fallback over the looked-up sale comes back, or "Transaction not found" for an empty store |
| TransactionsSimulation.TransactionsStore.DeleteTransaction | Laku-in-fe/src/services/transactions.service.simulation.ts:280-294 | a successful call removes nothing and returns the stub's missing `success`; a failed one removes every sale with the id and reports whether the length changed |
| TransactionsSimulation.ListingNewestFirst | Laku-in-fe/src/services/transactions.service.simulation.ts:151-153 | the listing is newest first, holds only stored sales, and none left out is newer than one kept |
| TransactionsSimulation.FallbackSortSettles | Laku-in-fe/src/services/transactions.service.simulation.ts:156 | sorting the already sorted store again changes nothing |
| ProductsSimulation.MaxId | Laku-in-fe/src/services/products.service.simulation.ts:177 | the largest stored id: no product exceeds it and some product has it |
| ProductsSimulation.NextId | Laku-in-fe/src/services/products.service.simulation.ts:177 | the new id is larger than every stored id |
| ProductsSimulation.NewProduct | Laku-in-fe/src/services/products.service.simulation.ts:176-186 | the next id, the request's name, stock and price, category "Umum" and an empty description when the request gives none or a falsy one, status "active", both dates now |
| ProductsSimulation.Updated | Laku-in-fe/src/services/products.service.simulation.ts:221-225 | the request's keys replace the stored ones, the rest is kept, and the update time is now |
| ProductsSimulation.Fallback | Laku-in-fe/src/services/products.service.simulation.ts:229-251 | an unstored product with the parsed id, "Produk Demo", stock 50, price 5000000 and "Umum" wherever the request has no value or a falsy one |
| ProductsSimulation.IndexOfId | Laku-in-fe/src/services/products.service.simulation.ts:219 | the first index whose id equals the parsed id, or -1 exactly when none does |
| ProductsSimulation.ProductsStore.GetProducts | Laku-in-fe/src/services/products.service.simulation.ts:133-145 | a successful call sorts the store itself by id and returns it; a failed one returns it unchanged |
| ProductsSimulation.ProductsStore.GetProduct | Laku-in-fe/src/services/products.service.simulation.ts:150-163 | the product with the parsed id on a successful call that finds it, else the first product, nothing exactly when the store is empty |
| ProductsSimulation.ProductsStore.CreateProduct | Laku-in-fe/src/services/products.service.simulation.ts:168-205 | the new product always comes back, is appended only on success, and unique ids stay unique |
| ProductsSimulation.ProductsStore.UpdateProduct | Laku-in-fe/src/services/products.service.simulation.ts:211-253 | on success with a stored id that product alone is updated in place and returned; otherwise nothing changes and the fallback comes back |
| ProductsSimulation.ProductsStore.DeleteProduct | Laku-in-fe/src/services/products.service.simulation.ts:258-272 | a successful call removes nothing and returns the stub's missing `success`; a failed one removes every product with the parsed id and reports whether any was removed |
| ProductsSimulation.ListingAscending | Laku-in-fe/src/services/products.service.simulation.ts:140 | the sorted listing is in ascending id order and is a permutation of the store |
| ProductsSimulation.NextIdIsFresh | Laku-in-fe/src/services/products.service.simulation.ts:177-189 | appending the created product keeps the ids unique |
| ProductsSimulation.NaNDeletesNothing | Laku-in-fe/src/services/products.service.simulation.ts:269 | an id that does not parse removes nothing |
| ProductsSimulation.DeleteByPrintedId | Laku-in-fe/src/services/products.service.simulation.ts:268-270 | deleting by a printed number reports a removal exactly when a product had that id |
| UploadChecks.Outcome | Laku-in-fe/src/services/poster.service.ts:134-139 | a validation record is valid exactly when it holds no error |
| UploadChecks.ValidateFile | Laku-in-fe/src/services/poster.service.ts:107-140 | pushing one message per failed check gives the record of the upload check |
| UploadChecks.FileValidationMeaning | Laku-in-fe/src/services/receipt.service.ts:134-167 | each error appears exactly when its check fails, the type error before the size error, valid exactly when the file is not refused, the small-file warning exactly for files under 100 KiB, the suggestions unchanged |
| UploadChecks.TwoChecks | Laku-in-fe/src/services/poster.service.ts:114-122 | of two checks with different messages, each message is there exactly when its check fired, in check order |
| UploadChecks.ThreeChecks | Laku-in-fe/src/services/poster.service.ts:149-166 | of three checks with different messages, each message is there exactly when its check fired, in check order, and none exactly when none fired |
| Poster.PosterFileValidationMeaning | Laku-in-fe/src/services/poster.service.ts:107-140 | the poster upload check: the type error first, 10 MiB as the limit, valid exactly when not refused, the small-file warning, three suggestions |
| Poster.ValidateEditedData | Laku-in-fe/src/services/poster.service.ts:143-183 | the pushes of the service give the record of the edit checks |
| Poster.EditedDataValidationMeaning | Laku-in-fe/src/services/poster.service.ts:143-183 | title, price and discount errors exactly when those checks fail, in that order; valid exactly when none fails; the long-title warning; each suggestion exactly when its field is falsy |
| Poster.Merge | Laku-in-fe/src/services/poster.service.ts:194 | for each of the ten fields, the adjustments' value when they hold the key, else the edited data's |
| Poster.MergeLaws | Laku-in-fe/src/services/poster.service.ts:194 | empty adjustments change nothing and merging the same adjustments twice is merging once |
| Poster.ConfirmAndSavePoster | Laku-in-fe/src/services/poster.service.ts:186-214 | the merged data's errors joined by ", " are thrown exactly when it is invalid; otherwise success with `poster_<id>_<time>.png` |
| Poster.BlankTitleRefusesSave | Laku-in-fe/src/services/poster.service.ts:149-150 | a blank title after the merge makes saving fail with a message that begins with the title error |
| Poster.NegativePriceAloneRefusesSave | Laku-in-fe/src/services/poster.service.ts:159-161 | when only the price is wrong saving fails with exactly the price error |
| Poster.SimulateAIGeneration | Laku-in-fe/src/services/poster.service.ts:16-59 | success exactly when the scenario is not the failure, confidence 95, 75 or 0, the error message and no data on failure, the proposal and image otherwise |
| Poster.SimulatedEdit | Laku-in-fe/src/services/poster.service.ts:34-45 | the proposal's style and template default to "modern" and "product" |
| Poster.SimulatedEditIsClean | Laku-in-fe/src/services/poster.service.ts:34-45 | the simulated proposal passes every edit check without warning or suggestion and can be saved unchanged |
| Poster.UploadAndGeneratePoster | Laku-in-fe/src/services/poster.service.ts:62-104 | a refused file throws its first error; otherwise the record carries the file's name, size and type, and is failed with confidence 0 or completed with the AI's confidence, data and image |
| Poster.WrongTypeReportedFirst | Laku-in-fe/src/services/poster.service.ts:66-69 | a file of the wrong type is refused with the type error whatever its size |
| Poster.GenerationBySimulatedAI | Laku-in-fe/src/services/poster.service.ts:62-104 | an accepted upload with the simulated AI completes exactly when the scenario is not the failure, with confidence 95 or 75 |
| Poster.FindPoster | Laku-in-fe/src/services/poster.service.ts:254 | the position of the first poster with the id, or -1 exactly when none has it |
| Poster.RetryGeneration | Laku-in-fe/src/services/poster.service.ts:266-282 | an unknown id throws "Poster not found"; otherwise the found poster completed with confidence 92 and no error |
| Poster.RetryKeepsPoster | Laku-in-fe/src/services/poster.service.ts:276-281 | a retried poster keeps its id, and retrying it again changes nothing |
| Poster.RetryOnHistoryIds | Laku-in-fe/src/services/poster.service.ts:217-282 | with the eight history posters exactly the ids `PG-0` to `PG-7` can be retried |
| Receipt.ReceiptFileValidationMeaning | Laku-in-fe/src/services/receipt.service.ts:134-167 | the receipt upload check: the type error first, 5 MiB as the limit, valid exactly when not refused, the small-file warning, three suggestions |
| Receipt.ValidateExtractedData | Laku-in-fe/src/services/receipt.service.ts:170-206 | the pushes of the service give the record of the extraction checks |
| Receipt.ExtractedDataValidationMeaning | Laku-in-fe/src/services/receipt.service.ts:170-206 | item and date errors exactly when those checks fail, items first; valid exactly when there are items and a date not in the future; the total warning beyond a difference of 100; each suggestion exactly when its field is falsy |
| Receipt.DateCheckEdges | Laku-in-fe/src/services/receipt.service.ts:187-189 | a date one millisecond in the future is refused, the present and an invalid date are accepted |
| Receipt.Merge | Laku-in-fe/src/services/receipt.service.ts:217 | for each of the nine fields, the adjustments' value when they hold the key, else the extracted data's |
| Receipt.ConfirmAndAddToFinancial | Laku-in-fe/src/services/receipt.service.ts:209-237 | the merged data's errors joined by ", " are thrown exactly when it is invalid; otherwise success with `TRX-` and the time |
| Receipt.EmptyUndatedRefused | Laku-in-fe/src/services/receipt.service.ts:176-189 | a receipt with no items and no date is refused with both errors, items first |
| Receipt.AdjustedReceiptAccepted | Laku-in-fe/src/services/receipt.service.ts:217-223 | adjustments giving items and a past date make confirming succeed |
| Receipt.SimulatedExtraction | Laku-in-fe/src/services/receipt.service.ts:33-81 | the simulated extraction has the four items, their sum as subtotal, and the time as date |
| Receipt.SimulateOCRAnalysis | Laku-in-fe/src/services/receipt.service.ts:16-90 | success exactly when the scenario is not the failure, confidence 95, 75 or 0, the error message and no data on failure, the extraction otherwise |
| Receipt.SimulatedItemsTotal | Laku-in-fe/src/services/receipt.service.ts:34-65 | every simulated item costs its quantity times its price, and the items come to 69500 |
| Receipt.SimulatedExtractionIsClean | Laku-in-fe/src/services/receipt.service.ts:33-81 | the simulated extraction passes every check, then or later, without warning or suggestion, and can be confirmed unchanged |
| Receipt.UploadReceipt | Laku-in-fe/src/services/receipt.service.ts:93-131 | a refused file throws its first error; otherwise the record carries the file's name, size and type, and is failed with confidence 0 or completed with the OCR's confidence and data |
| Receipt.UploadBySimulatedOCR | Laku-in-fe/src/services/receipt.service.ts:93-131 | an accepted upload with the simulated OCR completes exactly when the scenario is not the failure, and its data can then be confirmed |
| Receipt.FindReceipt | Laku-in-fe/src/services/receipt.service.ts:275 | the position of the first receipt with the id, or -1 exactly when none has it |
| Receipt.RetryUpload | Laku-in-fe/src/services/receipt.service.ts:287-303 | an unknown id throws "Receipt not found"; otherwise the found receipt completed with confidence 90 and no error |
| Receipt.RetryOnHistoryIds | Laku-in-fe/src/services/receipt.service.ts:240-303 | with the ten history receipts exactly the ids `RU-0` to `RU-9` can be retried |
| AuthRules.Cleared | Laku-in-fe/src/services/auth.service.ts:65-73 | the token, expiry and refresh keys are gone and every other key keeps its value |
| AuthRules.Stored | Laku-in-fe/src/services/auth.service.ts:54-63 | the token is stored, the expiry as its ISO text when one is given and left as it was otherwise, and every other key is kept |
| AuthRules.ValidTokenMeaning | Laku-in-fe/src/services/auth.service.ts:31-52 | a returned token is the stored non-empty one and reading it changes nothing; none is returned exactly when there is no token or its expiry is invalid or passed |
| AuthRules.ValidToken | Laku-in-fe/src/services/auth.service.ts:31-52 | a returned token is the stored, non-empty one |
| AuthRules.ReadIsIdempotent | Laku-in-fe/src/services/auth.service.ts:31-52 | reading the token a second time at the same moment gives the same answer and store as the first |
| AuthRules.ClearedHasNoToken | Laku-in-fe/src/services/auth.service.ts:65-73 | after a clear no token is returned and reading changes nothing |
| AuthRules.StoredTokenLife | Laku-in-fe/src/services/auth.service.ts:39-44 | a token stored with expiry t is returned up to and including t and never after |
| AuthRules.LoginCheckMeaning | Laku-in-fe/src/services/auth.service.ts:200-214 | a login passes the checks exactly when the email is shaped and the password has six characters; the length message exactly when it is shorter but non-empty |
| AuthRules.LoginCheck | Laku-in-fe/src/services/auth.service.ts:200-214 | a refusal is one of the three login messages, the missing-fields one whenever a field is empty; a pass means a shaped email and a password of at least six characters |
| AuthRules.EmailShaped | Laku-in-fe/src/services/auth.service.ts:206-207 | a shaped email has at least five characters |
| AuthRules.RegisterEffectiveMinimum | Laku-in-fe/src/services/auth.service.ts:238-263 | an accepted registration has a password of at least eight characters, and six or seven is refused by the complexity rule |
| AuthRules.RegisterCheck | Laku-in-fe/src/services/auth.service.ts:238-263 | a refusal is one of the five registration messages, the missing-fields one whenever a field is empty; a pass means a name of two characters after trimming, a shaped email and a strong password |
| AuthRules.StrongPassword | Laku-in-fe/src/services/auth.service.ts:260-261 | a strong password is longer than the six-character minimum |
| AuthRules.EmailHasOneAt | Laku-in-fe/src/services/auth.service.ts:206-209 | a shaped email has exactly one `@`, neither first nor last, and no white space |
| AuthRules.DemoEmailShaped | Laku-in-fe/src/services/auth.service.simulation.ts:97-108 | the demo account's address passes the email check |
| KeywordRules.FirstMatch | Laku-in-fe/src/services/auth.service.ts:143-176 | the index of the first rule one of whose keys occurs, and none exactly when no rule matches |
| KeywordRules.FirstMatchIs | Laku-in-fe/src/services/auth.service.ts:143-176 | a matching rule with no matching rule before it is the one chosen |
| KeywordRules.FirstMatchAppend | Laku-in-fe/src/services/auth.service.ts:143-176 | rules after the others decide only messages none of the earlier ones match |
| KeywordRules.SingleKey | Laku-in-fe/src/services/analytics.service.ts:365-369 | a test with one key fires exactly when that key occurs |
| Auth.AuthService.constructor | Laku-in-fe/src/services/auth.service.ts:15-19 | the service starts on the given store and on the configured address, or `http://localhost:3001` |
| Auth.AuthService.GetToken | Laku-in-fe/src/services/auth.service.ts:31-52 | the valid token of the store, which is cleared when the expiry is invalid or passed |
| Auth.AuthService.SetAuthToken | Laku-in-fe/src/services/auth.service.ts:54-63 | the store after the token and its ISO expiry are written |
| Auth.AuthService.ClearAuthToken | Laku-in-fe/src/services/auth.service.ts:65-73 | the store without the three session keys |
| Auth.AuthService.IsAuthenticated | Laku-in-fe/src/services/auth.service.ts:185-193 | true exactly when a valid token is stored, with the store as the read leaves it |
| Auth.AuthService.HandleError | Laku-in-fe/src/services/auth.service.ts:137-180 | the error the keyword rules choose, and the store cleared exactly when the session rule fired; when test j is the first of the eight to match, the message thrown is test j's |
| Auth.Classify | Laku-in-fe/src/services/auth.service.ts:137-180 | a non-error gets the unknown-error message; only the session rule clears the store, and then the message is the session-expired one; an error that is not rethrown as it is gets the message of one of the eight tests that matches its lowered text; when test j matches and no earlier one does, the result is test j's message, clearing exactly when j is the session test |
| Auth.CallError | Laku-in-fe/src/services/auth.service.ts:117-131 | the error is rethrown, or becomes the message naming the server, or the unreachable message; a `TypeError` mentioning `fetch` always names the server; an error naming none of the patterns is rethrown |
| Auth.CallResult | Laku-in-fe/src/services/auth.service.ts:78-133 | a value exactly for an OK response whose body decodes, and then it is the decoded body; a non-OK response throws its error text, `message` before `error`, through the `catch` |
| Auth.AuthService.ApiCall | Laku-in-fe/src/services/auth.service.ts:78-133 | the outcome of the request as the `catch` rewrites it, after one token read |
| Auth.AuthService.Authenticate | Laku-in-fe/src/services/auth.service.ts:216-230 | after the checks, the request; a reply with `success` and a token stores it for a day; errors pass through the handler |
| Auth.AuthService.Login | Laku-in-fe/src/services/auth.service.ts:198-231 | the sign-in under the login checks |
| Auth.AuthService.Register | Laku-in-fe/src/services/auth.service.ts:236-280 | the sign-in under the registration checks |
| Auth.AuthService.GetProfile | Laku-in-fe/src/services/auth.service.ts:285-299 | no request without a session; otherwise the reply, with errors through the handler |
| Auth.AuthService.Logout | Laku-in-fe/src/services/auth.service.ts:304-312 | the store without the three session keys and no request |
| Auth.AuthService.RefreshToken | Laku-in-fe/src/services/auth.service.ts:317-336 | a new token for a day when the reply has one; any failure clears the session and throws the refresh message |
| Auth.OnlySessionErrorsClear | Laku-in-fe/src/services/auth.service.ts:143-146 | the store is cleared exactly when the lowered message names `unauthorized` or `unauthenticated`, and the user is told the session ended |
| Auth.UnmatchedRethrown | Laku-in-fe/src/services/auth.service.ts:175-176 | an error none of the eight rules matches is rethrown unchanged and nothing is cleared |
| Auth.NonErrorMessage | Laku-in-fe/src/services/auth.service.ts:179 | a thrown value that is not an `Error` gives the fixed unknown-error message |
| Auth.FailedFetchNamesServer | Laku-in-fe/src/services/auth.service.ts:118-127 | the browser's `TypeError: Failed to fetch` names the server's address; a plain `Failed to fetch` gives the generic connection message |
| Auth.MessageBeforeError | Laku-in-fe/src/services/auth.service.ts:100-112 | a refused request whose body has both `message` and `error` reports `message`, where the Kolosal client reports `error` |
| Auth.NoRequestUnlessValid | Laku-in-fe/src/services/auth.service.ts:200-214 | input that fails a check gives the same error whatever the server would answer, and at most clears the session |
| Auth.SignInKeepsTokenForADay | Laku-in-fe/src/services/auth.service.ts:221-225 | a sign-in reply with `success` and a token keeps that token valid up to one day later and not after |
| Auth.FailedSignInStoresNothing | Laku-in-fe/src/services/auth.service.ts:198-231 | a failed sign-in leaves any stored token as it was |
| Auth.ProfileNeedsSession | Laku-in-fe/src/services/auth.service.ts:287-289 | without a valid session the profile call fails the same way whatever the server would answer |
| Auth.RefreshFailureClears | Laku-in-fe/src/services/auth.service.ts:317-336 | a refresh fails exactly when there is no session, the request fails or the reply is `null`; every failure throws the same message and removes the three session keys |
| AuthSimulation.SimulatedAuthService.GetToken | Laku-in-fe/src/services/auth.service.simulation.ts:30-51 | the valid token of the store, which is cleared when the expiry is invalid or passed |
| AuthSimulation.SimulatedAuthService.SetAuthToken | Laku-in-fe/src/services/auth.service.simulation.ts:53-62 | the store after the token and its ISO expiry are written |
| AuthSimulation.SimulatedAuthService.ClearAuthToken | Laku-in-fe/src/services/auth.service.simulation.ts:64-72 | the store without the three session keys |
| AuthSimulation.SimulatedAuthService.IsAuthenticated | Laku-in-fe/src/services/auth.service.simulation.ts:183-186 | true exactly when a valid token is stored, the same test as the real service |
| AuthSimulation.SimulatedAuthService.ApiCall | Laku-in-fe/src/services/auth.service.simulation.ts:77-90 | after one token read, the network failure when the draw says so, else the simulated endpoint's answer |
| AuthSimulation.SimulatedAuthService.Authenticate | Laku-in-fe/src/services/auth.service.simulation.ts:209-223 | after the checks, the simulated request; a reply with `success` and a token stores it for a day; errors pass through the handler |
| AuthSimulation.SimulatedAuthService.Login | Laku-in-fe/src/services/auth.service.simulation.ts:191-224 | the sign-in under the login checks at the login endpoint |
| AuthSimulation.SimulatedAuthService.Register | Laku-in-fe/src/services/auth.service.simulation.ts:229-276 | the sign-in under the registration checks at the registration endpoint |
| AuthSimulation.SimulatedAuthService.GetProfile | Laku-in-fe/src/services/auth.service.simulation.ts:278-292 | no request without a session; otherwise the demo profile, with errors through the handler |
| AuthSimulation.SimulatedAuthService.RefreshToken | Laku-in-fe/src/services/auth.service.simulation.ts:297-313 | the refreshed token stored for a day, errors through the handler |
| AuthSimulation.SimulatedAuthService.Logout | Laku-in-fe/src/services/auth.service.simulation.ts:318-333 | the session keys are removed whether or not the logout request failed |
| AuthSimulation.ClearedAfterRead | Laku-in-fe/src/services/auth.service.simulation.ts:318-333 | reading the token before clearing makes no difference to what is cleared |
| AuthSimulation.SimulatedEndpoints | Laku-in-fe/src/services/auth.service.simulation.ts:95-141 | exactly the login, registration, profile and refresh endpoints are answered; any other is refused by name, the logout endpoint included |
| AuthSimulation.RegisterStoresNoToken | Laku-in-fe/src/services/auth.service.simulation.ts:110-120 | a registration never stores a token: the store is as before, or as the token read left it |
| AuthSimulation.RegisterReplyHasNoToken | Laku-in-fe/src/services/auth.service.simulation.ts:110-120 | the registration reply succeeds and has no token |
| AuthSimulation.LoginStoresDemoToken | Laku-in-fe/src/services/auth.service.simulation.ts:97-108 | a login that passes its checks and the draw stores `simulated-jwt-token-<now>`, valid for one day |
| AuthSimulation.SharedTestsAgree | Laku-in-fe/src/services/auth.service.simulation.ts:146-177 | where one of the six shared tests matches, the demo gives the real service's message |
| AuthSimulation.Classify | Laku-in-fe/src/services/auth.service.simulation.ts:146-178 | a non-error is the system message; the result is the system message or the message of a shared test that matches the lowered text; with no matching test it is the system message; when shared test j matches and no earlier one does, the result is test j's message |
| AuthSimulation.UnmatchedBecomeSystemError | Laku-in-fe/src/services/auth.service.simulation.ts:177 | where none matches, the demo says its system message where the real service rethrows or reports a server error or refusal |
| AuthSimulation.OutageIsNetworkProblem | Laku-in-fe/src/services/auth.service.simulation.ts:85-86 | the simulated outage is reported as the network problem |
| AuthSimulation.OutageSignIn | Laku-in-fe/src/services/auth.service.simulation.ts:85-86 | a sign-in the draw fails tells the user about the network and stores no token |
| AuthSimulation.EmailFormatReplaced | Laku-in-fe/src/services/auth.service.simulation.ts:199-202 | the email-format message is replaced by the system message |
| Analytics.PeriodLabelMeaning | Laku-in-fe/src/services/analytics.service.ts:336-338 | the label is one of the four texts; it is "30 Hari Terakhir" exactly for no period or the month; two periods share a label exactly when they are equal or both thirty days |
| Analytics.PeriodLabel | Laku-in-fe/src/services/analytics.service.ts:336-338 | no period and the month both get "30 Hari Terakhir" |
| Analytics.AnalysisAnswers | Laku-in-fe/src/services/analytics.service.ts:357-371 | the answer is that of the first of `revenue`, `customer`, `profit`, `growth` the lowered question contains, and the general answer exactly when it contains none |
| Analytics.AnalysisTopic | Laku-in-fe/src/services/analytics.service.ts:353-371 | the general topic exactly when no keyword test matches the lowered question; otherwise the topic of a test that matches |
| Analytics.RequestAIAnalysis | Laku-in-fe/src/services/analytics.service.ts:353-371 | the general answer when no keyword matches; otherwise the answer of a matching keyword test |
| Analytics.RevenueBeatsProfit | Laku-in-fe/src/services/analytics.service.ts:365-369 | a question naming both revenue and profit gets the revenue answer |
| Analytics.AnswerIgnoresCase | Laku-in-fe/src/services/analytics.service.ts:366 | a question and its lower-cased form get the same answer |
| Analytics.ExportFileNameMeaning | Laku-in-fe/src/services/analytics.service.ts:375-379 | the name begins `analytics_report_`, ends in `pdf` or `xlsx`, and two names are equal exactly when format and time are |
| Analytics.ExportFileName | Laku-in-fe/src/services/analytics.service.ts:375-379 | the name begins `analytics_report_` and ends in the extension of the format |
| FormatDate.Elapsed | Laku-in-fe/src/helper/formatDate.ts:3-11 | each band exactly for its range of elapsed milliseconds (under a minute, an hour, a day, a week, or more), with the whole number of units elapsed |
| FormatDate.ElapsedMonotonic | Laku-in-fe/src/helper/formatDate.ts:3-11 | as time passes the band never moves back, and within a band the count never falls |
| FormatDate.RenderUnambiguous | Laku-in-fe/src/helper/formatDate.ts:8-11 | two relative texts are equal exactly when they state the same band and count |
| FormatDate.Render | Laku-in-fe/src/helper/formatDate.ts:8-17 | the absolute case is the given date text; just now is "Baru saja"; n minutes, hours or days are "n menit lalu", "n jam lalu", "n hari lalu"; every relative text has at least nine characters |
| FormatDate.FormatDate | Laku-in-fe/src/helper/formatDate.ts:1-18 | under a minute gives "Baru saja"; a week or more gives the absolute rendering of the date; in between, the whole number of minutes under an hour, of hours under a day, and of days under a week, followed by "menit lalu", "jam lalu" or "hari lalu" |

## Left out

- **Network and timer plumbing.** `fetch`, axios, `AbortController`, `setTimeout` delays, timeouts and request headers are not modelled: each gateway call is its outcome, given as a parameter.
- **Logging.** `console.*` and the NestJS logger produce no value the code reads again, so they are dropped.
- **`localStorage` exceptions.** The `try`/`catch` around each storage access is not modelled: the store is a map, and a map cannot throw.
- **The clock.** Each operation reads the clock once, as `now`. Where the source calls `Date.now()` or `new Date()` twice in one operation, both calls see the same instant in the model.
- **Negative clock values.** The clock is a natural number, so ids such as `TRX-<now>` never print a minus sign.
- **`Math.random`.** The draws are parameters, so only their ranges are modelled, not their distribution. This covers the demo stores' 3% and 5% failures, the 7 to 9 listed sales, the random customer and the AI/OCR scenarios.
- **Prompts.** `NAVIGATION_SYSTEM_PROMPT`, the frontend prompt and the voice service's prompt template are unspecified string constants: their wording is not modelled.
- **The model itself.** No property depends on what the model answers.
- **`JSON.parse`.** It is a decoder parameter; its grammar is not modelled. JSON numbers are integers.
- **Reply fields.** Fields of the completion reply other than `success`, `choices[0].message.content`, `error` and `message` are not modelled (usage, ids).
- **`toLowerCase`.** It lowers the ASCII letters only.
- **String lengths.** `trim` and `\s` use the JavaScript white-space set. Lengths count characters, not UTF-16 code units.
- **`new URL`.** It is a predicate parameter of the gateways' URL checks.
- **`URL.createObjectURL`.** The object URL is a parameter of the poster and receipt uploads.
- **Floating point.** Percentages, averages and `profitMargin` are exact rationals (`real`), not IEEE doubles. The receipt's `tax = subtotal * 0.1` and `total` are not in the model's extracted data. `formatProcessingTime` is not modelled.
- **Date arithmetic.** The date-range filter of both financial reports is not modelled: its end-of-day `setHours` is local-time arithmetic. The same goes for the monthly chart data, with its month-name parsing, and for `getBusinessAnalytics`' start and end dates, made with `setDate`.
- **`getBusinessAnalytics`' canned figures.** Its fixed metrics, scores, trends, insights, predictions and comparisons are not modelled. Only its period label is.
- **Other simulation services.** `analytics.service.simulation.ts`, `business-analytics.service.simulation.ts` and `dashboard.service.ts` are not part of this model: they serve static or random data.
- **Fixed histories.** `getPosterHistory` and `getReceiptHistory` build random histories, so the history `retryGeneration` and `retryUpload` search is a parameter. `RetryOnHistoryIds` states what their fixed ids allow.
- **Other poster and receipt operations.** `uploadStockData`, `getAvailableStyles`, the statistics, `downloadPoster`, `deleteReceipt` and `exportReceipts` are outside the core and not modelled.
- **Pass-through services.** The plain HTTP services (`transactions.service.ts`, `products.service.ts`, `business-analytics.service.ts`, `whatsapp.service.ts`) and the CRUD calls at `financial.service.ts:90-160` add no logic beyond a pass-through.
- **`formatDate` of an invalid date.** An invalid date gives `NaN` in the source; the date is an integer here, so that case is not modelled.
- **`Intl.DateTimeFormat`.** The absolute rendering is the `absolute` parameter.
- ProductsSimulation.ProductsStore.CreateProduct: requires a non-empty store. On an empty one `Math.max()` is `-Infinity`, and the new id would be `-Infinity`, which an integer id cannot hold.
- **Spread keys.** A spread key whose value is explicitly `undefined` is modelled as a key left out: `Option` has no third state. This applies to the update requests and adjustments.
- **The demo service's `handleError`.** It also replaces the input-check message ("Format email tidak valid" and the others) with its system message. Only the email-format message is stated as a lemma (`AuthSimulation.EmailFormatReplaced`); the others follow from the same classifier.
- BackendVoice.ProcessWithAI: a reply message without `content` is not modelled. The completion body's `content` is always a string, so the `TypeError` that `.content.trim()` throws on a missing one (`voice-ai.service.ts:113`) cannot occur.
- FrontendVoice.ProcessWithAI: a reply message without `content` is not modelled, for the same reason. The `TypeError` of `.content.trim()` (`voice.service.ts:90`) cannot occur.
- FinancialSimulation.CalculatePaymentMethods: each entry's `percentage` field is not modelled, only the method and its total. When the totals sum to 0 the source divides by zero and gets `NaN` or an infinity.
- FrontendGateway.SendAttempt: the error text of a non-OK response is the corrected `FetchErrors.ErrorText` from "## Findings". For a body that is not JSON the code as written throws the body-used `TypeError` (`FetchErrors.ErrorTextAsWritten`).
- FrontendGateway.SendCompletion: inherits the corrected error text of `SendAttempt`; the as-written `TypeError` would go through the classifier instead.
- Auth.CallResult: the error text of a non-OK response is the corrected `FetchErrors.ErrorText` from "## Findings". For a body that is not JSON the code as written throws the body-used `TypeError` (`auth.service.ts:104-110`), which no rule of `handleError` matches.
- Auth.AuthService.ApiCall: inherits the corrected error text of `Auth.CallResult`.
- Auth.AuthService.Authenticate: inherits the corrected error text of `Auth.CallResult`. So a 401 with a plain-text `Unauthorized` body clears the session here, where the code as written rethrows the `TypeError` and keeps it.
- Auth.AuthService.Login: inherits the corrected error text of `Auth.CallResult`, through `Authenticate`.
- Auth.AuthService.Register: inherits the corrected error text of `Auth.CallResult`, through `Authenticate`.
- Auth.AuthService.GetProfile: inherits the corrected error text of `Auth.CallResult`.
- FinancialSimulation.CalculateSummary: the balance percentage is the corrected `BalancePercentage` from "## Findings", 0 when there is no income. The code as written gives an infinity when there is no income and the balance is not 0 (`BalancePercentageAsWritten`).
- FinancialSimulation.ReportOf: its summary carries the corrected balance percentage of `CalculateSummary`.
- FinancialSimulation.FinancialStore.GetFinancialReport: its summary carries the corrected balance percentage of `CalculateSummary`.
- TransactionsSimulation.Updated: the request's `sale_date` is a date here, but in the source it is a string (`types/transactions.types.ts:19`). `{...stored, ...request}` stores that string, and the model cannot represent it.
- TransactionsSimulation.TransactionsStore.UpdateTransaction: stores the update as `Updated` does, so a string `sale_date` is not modelled.
- TransactionsSimulation.TransactionsStore.GetTransactions: after an update that stored a string `sale_date`, the source's sort calls `getTime` on a string and throws, in the `try` and again in the `catch` (`transactions.service.simulation.ts:151-156`). The model, where every `sale_date` is a date, always returns a list.
- TransactionsSimulation.Spread: the spread of an update request is modelled with a date-typed `sale_date`, for the reason given for `Updated`.
- BackendGateway.UpstreamDetail: the upstream `data.error` and `data.message` are strings or absent. A non-string truthy value, such as a number or an object, would pass `||` and be printed with `String(...)` into the message (`nest_kolosal.service.ts:173`); the model cannot represent it.
- FinancialSimulation.NewRecord: the `createdAt: new Date()` key the source adds to a new record (`financial.service.simulation.ts:117`, `:129`) is not modelled; the demo store's record is the nine-field `Ledger.Transaction` the report code reads.
- FinancialSimulation.FinancialStore.CreateFinancialRecord: the record it returns and stores lacks the `createdAt` stamp, as `NewRecord` does.
- FinancialSimulation.WithId: the `updatedAt: new Date()` key of `{ id, ...data, updatedAt }` (`financial.service.simulation.ts:151`, `:154`) is not modelled; the returned patch holds only the id and the data.
- FinancialSimulation.FinancialStore.UpdateFinancialRecord: neither the record merged in place nor the unstored reply carries the `updatedAt` stamp the source adds (`financial.service.simulation.ts:147`, `:151`, `:154`).
- **Absent dates in the financial demo.** `new Date(data.date) || new Date()` (`financial.service.simulation.ts:115`) never takes its right side, because a `Date` object is always truthy, so an absent date becomes an invalid date. The model's date is always a number, so that invalid date is not modelled.
- Collections.SortDesc: is proved sorted and a permutation, and it is an insertion sort that keeps equal keys in their input order, as JavaScript's stable sort does; that tie order is not stated as a lemma.
- **The generated poster image.** The SVG data URL of the simulated poster is an unspecified string constant (`Poster.GeneratedImage`); its markup is not modelled.
- **Product update keys.** A product update carries the declared keys (name, stock, price) and the category; keys outside the request type, which a caller could still spread in at run time, are not modelled.
- **UI.** React components, hooks, pages, the zod schemas and type-only files are not part of this model.

## Findings

| source | as written | input that shows it | evidently intended | confidence | as-written member | corrected member |
|---|---|---|---|---|---|---|
| Laku-in-fe/src/services/kolosal-api.client.ts:91-97 | the error body is read with `response.json()` and, when that fails, again with `response.text()`; the first read has consumed the body, so the second rejects with a `TypeError` and the raw text is never used (`auth.service.ts:104-110` does the same) | a 502 response whose body is the plain text `Bad Gateway` | the message is the body text `Bad Gateway` | not executed | FetchErrors.ErrorTextAsWritten (shown by FetchErrors.PlainTextBodyIsLost) | FetchErrors.ErrorText |
| Laku-in-fe/src/services/financial.service.simulation.ts:286 | `totalBalance === 0 ? 0 : (totalBalance / totalIncome) * 100` guards the balance instead of the divisor | completed expenses of 500 and no income: balance -500, income 0, which gives `-Infinity` | 0 when there is no income | not executed | FinancialSimulation.BalancePercentageAsWritten (shown by FinancialSimulation.BalancePercentageDividesByZero) | FinancialSimulation.BalancePercentage |
