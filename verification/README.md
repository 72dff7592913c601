# go-gin-lambda: provider dispatch and comparison, in Dafny

This project models the core of go-gin-lambda, a Gin (and AWS Lambda) service that sends text-generation prompts to hosted language models. The core is the provider manager in two generations:

- the current `internal/outbound` package, with its OpenAI HTTP client and its Gemini SDK client;
- the older `internal/ai` package, with its OpenAI SDK client.

Each manager does three things:

- it registers the providers whose API keys are configured; `internal/outbound` also rejects keys that look like placeholders;
- `Generate` sends one request to the named provider, checking registration, availability and per-provider limits first;
- `Compare` sends one prompt to several providers at once and aggregates the successes and the failures.

Around the manager sit smaller pieces, modelled too:

- configuration loading and validation;
- the controller that turns an HTTP body into a generation and a history record, and the usage statistics it reports;
- the rate limiter and the CORS middleware;
- the request validators, response helpers, bearer-token extraction, the template arithmetic, and the string helpers.

Conventions of the model:

- Upstream services, the database, the environment and the clock are inputs:
  - an HTTP round trip or an SDK call is a function from the outgoing request to the reply;
  - a timestamp is an integer.
- The goroutines of `Compare` are a fold over the requested providers, so results and errors come in request order. A lemma shows that outcomes arriving in any other order give the same verdict and the same results and errors, up to their order.
- A Go panic is the `Panicked` case of `Results.Run`. Where the code as written can panic, the model has:
  - an `…AsWritten` member that panics exactly where Go would;
  - a corrected member that the rest of the model uses;
  - a lemma showing that the two agree everywhere else (see Findings).
- Go's `len` of a string counts UTF-8 bytes; so does `Strings.Utf8Len`, which the model uses wherever the code compares or divides a string's length.
- Go's `int` and `int64` are 64 bits wide. Wrap-around is written out where it can happen (`Numbers.Wrap64`, `Numbers.Wrap32`). So is truncating division (`Numbers.Quo`, `Numbers.Rem`).

Modules, in dependency order:

- `Results`: `Option`, `Result`, `Run`.
- `Strings`: `strings.Split`/`Join`/`TrimSpace`/`Contains`.
- `Numbers`: `strconv` and Go's integer arithmetic.
- `Models`: the data model of `internal/model/models.go`.
- `AppConfig`.
- `OutboundOpenAI` and `OutboundGemini`.
- `Comparison`: the aggregation shared by both managers.
- `Catalogue`.
- `OutboundManager`.
- `AiOpenAI` and `AiManager`.
- `AiController`.
- `Middleware`, `Validator`, `ApiResponse`, `HttpHelper`, `Authentication`, `Helper`, `Template`.

## Model

| member | source | states |
|---|---|---|
| Models.CheckRequest | internal/outbound/openai.go:148-162 | a request passes exactly when the prompt is non-empty, max tokens is within the ceiling and the temperature is in range; the first failing check in that order names the error |
| Models.ResolveModel | internal/outbound/openai.go:31-35 | an empty model name falls back to the provider default; any other name is kept |
| Models.ChatMessages | internal/outbound/openai.go:38-63 | the user prompt is always the last message; a non-empty system message comes first, so there are one or two messages |
| AppConfig.GetEnv | cmd/config/config.go:207-212 | a set, non-empty variable is returned; an unset or empty one gives the default |
| AppConfig.GetIntEnv | cmd/config/config.go:214-221 | a variable that parses with `strconv.Atoi` gives its value; an unset or unparseable one gives the default |
| AppConfig.GetIntEnvReadsFormatted | cmd/config/config.go:214-221 | an int64 written in decimal into the environment is read back unchanged |
| AppConfig.GetStringSliceEnv | cmd/config/config.go:232-239 | a set variable becomes a one-element list holding it whole, with no splitting; an unset one gives the default |
| AppConfig.Validate | cmd/config/config.go:177-195 | missing port, then missing driver, then no AI provider key, each reported if and only if it is the first to fail; valid exactly when a port, a driver and at least one key are present |
| AppConfig.Assemble | cmd/config/config.go:107-175 | the assembled config always has a port and a driver (they have defaults); the three provider keys are the environment's; server and observability share the environment name |
| AppConfig.Load | cmd/config/config.go:107-175 | loading succeeds with the assembled config exactly when it validates, and fails with the validation error otherwise |
| AppConfig.LoadFailsIffNoProviderKey | cmd/config/config.go:107-194 | loading fails if and only if none of the three provider keys is set, and then the error is the missing-key one |
| OutboundOpenAI.IsAvailable | internal/outbound/openai.go:135-137 | a provider is available exactly when its key is non-empty; the key is not checked further |
| OutboundOpenAI.GetSupportedModels | internal/outbound/openai.go:139-146 | the default model is one of the supported models |
| OutboundOpenAI.ValidateRequest | internal/outbound/openai.go:148-162 | prompt required, max tokens at most 4096, temperature within [0, 2], checked in that order; valid if and only if all three hold |
| OutboundOpenAI.BuildPayload | internal/outbound/openai.go:31-63 | the payload carries the resolved model and the chat messages; `max_tokens` and `temperature` are present if and only if positive, and then they carry the request's values |
| OutboundOpenAI.BuildHttpRequest | internal/outbound/openai.go:71-78 | the request goes to the chat-completions endpoint with the key as a Bearer credential and the built payload |
| OutboundOpenAI.Generate | internal/outbound/openai.go:28-129 | transport, read, non-200, decode and empty-choices failures map to distinct errors; success requires a 200 reply with at least one choice, and then the response carries the first choice, the reported token total, the resolved model, the OpenAI provider and an `openai-` id |
| OutboundOpenAI.ResponseIdCarriesClock | internal/outbound/openai.go:121 | the response id is `openai-` followed by the decimal clock reading, which parses back to that reading |
| OutboundGemini.NewProvider | internal/outbound/gemini.go:19-23 | a new provider holds the key and no client yet |
| OutboundGemini.IsAvailable | internal/outbound/gemini.go:115-117 | a provider is available exactly when its key is non-empty, whether or not its client has been built |
| OutboundGemini.GetSupportedModels | internal/outbound/gemini.go:119-126 | the default model is one of the supported models |
| OutboundGemini.ValidateRequest | internal/outbound/gemini.go:128-141 | prompt required, max tokens at most 8192, temperature within [0, 1], checked in that order; valid if and only if all three hold |
| OutboundGemini.InitClient | internal/outbound/gemini.go:25-41 | an existing client is reused without connecting; an empty key is refused; otherwise the client is the one the connection produced; an error is reported exactly when no client results |
| OutboundGemini.InitClientCached | internal/outbound/gemini.go:26-28 | once initialisation succeeded, a later initialisation changes nothing and reports no error, whatever the connection would do |
| OutboundGemini.PromptText | internal/outbound/gemini.go:68-72 | the prompt alone, or `System: <msg>\n\nUser: <prompt>` when there is a system message |
| OutboundGemini.BuildCall | internal/outbound/gemini.go:50-66 | the call uses the resolved model and the prompt text; max output tokens are set if and only if positive, as an int32 that equals the request's value when it fits; temperature is set if and only if positive |
| OutboundGemini.TextContentIsConcatOfTexts | internal/outbound/gemini.go:86-92 | the content is the concatenation of the text parts, in order, and nothing else |
| OutboundGemini.CollectText | internal/outbound/gemini.go:86-92 | the loop accumulates exactly the concatenation of the text parts |
| OutboundGemini.EstimateTokens | internal/outbound/gemini.go:94-98 | the estimate is the content's length in UTF-8 bytes divided by four, rounded down: four times it is at most that length and less than it plus four; it never exceeds the number of characters |
| OutboundGemini.GenerateAsWritten | internal/outbound/gemini.go:43-109 | `Generate` as written panics if and only if the client initialised and the SDK's first candidate has no content, since line 82 reads its parts |
| OutboundGemini.PanicsOnMissingContent | internal/outbound/gemini.go:82 | a reply whose single candidate has no content makes the code as written panic, where the corrected one reports no response |
| OutboundGemini.Generate | internal/outbound/gemini.go:43-109 | an initialisation error is returned as is; an SDK error is an error; an answer without candidates, without content in the first candidate, or without parts is a no-response error; it succeeds if and only if the first candidate has content with parts, and then the content is that candidate's text, the token estimate is a quarter of its UTF-8 length, and the response is attributed to Gemini with a `gemini-` id; the provider keeps the client it initialised |
| OutboundGemini.GenerateAgreesWhenContentPresent | internal/outbound/gemini.go:43-109 | whenever the first candidate is not missing its content, the code as written completes and agrees with the corrected one |
| OutboundGemini.TokensDeterministic | internal/outbound/gemini.go:98 | two successful generations with the same content report the same token count, never more than a quarter of its UTF-8 length |
| Comparison.Successes | internal/outbound/manager.go:122-130 | the results are exactly the values of the successful outcomes |
| Comparison.Failures | internal/outbound/manager.go:123-141 | every collected error is the error of a failed outcome, and every failed outcome's error is collected |
| Comparison.SuccessesPlusFailures | internal/outbound/manager.go:132-141 | every branch outcome is counted exactly once, as a result or as an error |
| Comparison.NoSuccessIff | internal/outbound/manager.go:143-145 | there are no results exactly when every branch failed |
| Comparison.CollectPartitions | internal/outbound/manager.go:132-141 | draining the two channels gives the successes and the failures of the branches, in branch order |
| Comparison.AggregateAsWritten | internal/outbound/manager.go:143-151 | the aggregation as written panics if and only if no provider was requested |
| Comparison.AsWrittenPanicsOnNoProviders | internal/outbound/manager.go:150 | with no branches, reading `results[0]` panics |
| Comparison.Aggregate | internal/outbound/manager.go:143-151 | the aggregate fails exactly when there were branches and all failed, and then it lists every error; otherwise it carries the prompt and all successes, and is stamped with the first result's time (the zero time when there are none) |
| Comparison.AsWrittenAgreesWhenProvidersGiven | internal/outbound/manager.go:143-151 | with at least one branch, the aggregation as written completes and agrees with the corrected one |
| Comparison.AggregateOrderIndependent | internal/outbound/manager.go:108-141 | branch outcomes arriving in any order give the same verdict and the same results and errors up to order |
| Catalogue.Entries | internal/outbound/manager.go:154-242 | the catalogue lists exactly openai, gemini and anthropic under their own names, with the given availability for the first two, Anthropic never available, ceilings 4096/8192/8192, and non-empty strengths, weaknesses and uses |
| OutboundManager.IsPlaceholderApiKey | internal/outbound/manager.go:52-75 | a key is a placeholder when it is one of the listed sentinels, is shorter than ten UTF-8 bytes, or contains `your_` or `placeholder` |
| OutboundManager.PlaceholderCharacterised | internal/outbound/manager.go:52-75 | a key is a placeholder if and only if it is the sample key, shorter than ten UTF-8 bytes, or contains `your_` or `placeholder`; the listed sentinels are all covered by those rules |
| OutboundManager.LiveKeyShape | internal/outbound/manager.go:36-46 | a key that registers a provider has at least ten UTF-8 bytes, so at least three characters, and no `your_` or `placeholder` inside it |
| OutboundManager.LengthCountsBytes | internal/outbound/manager.go:70 | the length test counts bytes: a nine-character key with four Cyrillic letters (thirteen bytes) is live, a nine-character ASCII key is a placeholder |
| OutboundManager.InitProviders | internal/outbound/manager.go:31-49 | OpenAI and Gemini are registered if and only if their key is non-empty and no placeholder (length measured in UTF-8 bytes), each with a provider built from its key; Anthropic is never registered |
| OutboundManager.CallProvider | internal/outbound/openai.go:28-129 | calling a client keeps its kind and availability, and a success is attributed to that client's provider |
| OutboundManager.Generate | internal/outbound/manager.go:77-101 | no providers, unknown provider, unavailable provider and invalid request are reported in that order, each with its details; only a request passing all four reaches the provider, and only then can the registry change, and only at that provider; a success comes from the requested provider |
| OutboundManager.InitializedProvidersAvailable | internal/outbound/manager.go:31-49 | a provider registered at start-up is never reported unavailable |
| OutboundManager.BranchRequest | internal/outbound/manager.go:115-120 | each branch sends the comparison's prompt, max tokens and temperature to its provider, with no model and no system message |
| OutboundManager.Branches | internal/outbound/manager.go:108-130 | one outcome per requested provider; a failure names its provider; an unregistered provider fails; a success comes from the provider of its branch |
| OutboundManager.CompareAsWritten | internal/outbound/manager.go:103-152 | `Compare` as written panics if and only if the request names no provider |
| OutboundManager.Compare | internal/outbound/manager.go:103-152 | the comparison fails exactly when there were providers and all failed, listing one error per provider; otherwise it returns the prompt and every success; no providers gives an empty comparison |
| OutboundManager.CompareAgreesWhenProvidersGiven | internal/outbound/manager.go:103-152 | with at least one provider, `Compare` as written completes and agrees with the corrected one |
| OutboundManager.CompareAccountsForEveryProvider | internal/outbound/manager.go:132-141 | every requested provider contributes exactly one result or one error |
| OutboundManager.CompareUnregisteredFails | internal/outbound/manager.go:143-145 | a comparison over unregistered providers only fails |
| OutboundManager.CompareResultsFromRequested | internal/outbound/manager.go:108-130 | every result of a comparison comes from a provider the request named |
| OutboundManager.GetAvailableProviders | internal/outbound/manager.go:154-242 | the catalogue marks OpenAI and Gemini available if and only if they are registered and available, never Anthropic, with the providers' own token ceilings |
| OutboundManager.GetProvider | internal/outbound/manager.go:244-254 | a registered provider is returned; any other lookup is an error naming it |
| AiOpenAI.NewProvider | internal/ai/openai.go:17-27 | a client is built if and only if the key is non-empty |
| AiOpenAI.IsAvailable | internal/ai/openai.go:98-100 | a provider is available exactly when it holds a client and a non-empty key |
| AiOpenAI.AvailableIffKey | internal/ai/openai.go:98-100 | a provider is available if and only if its key is non-empty |
| AiOpenAI.GetSupportedModels | internal/ai/openai.go:102-111 | the default model is one of the supported models |
| AiOpenAI.ValidateRequest | internal/ai/openai.go:113-126 | prompt required, max tokens at most 4096, temperature within [0, 2], in that order; valid if and only if all three hold |
| AiOpenAI.BuildChatRequest | internal/ai/openai.go:35-70 | the SDK request carries the resolved model and the chat messages; max tokens and temperature are set if and only if positive, and then to the request's values |
| AiOpenAI.Generate | internal/ai/openai.go:29-92 | without a client the call fails unattempted; an SDK error and an empty choice list are errors; a success carries the SDK's id, the first choice, the token total and the resolved model |
| AiOpenAI.UnavailableMakesNoCall | internal/ai/openai.go:30-32 | an unconfigured provider fails the same way whatever the SDK would answer |
| AiManager.InitProviders | internal/ai/manager.go:30-47 | OpenAI and Gemini are registered if and only if their key is non-empty; Anthropic never |
| AiManager.Generate | internal/ai/manager.go:50-70 | unknown provider, unavailable provider and invalid request are reported in that order; the provider is called exactly when all three checks pass, and its answer or error is passed on |
| AiManager.EmptyRegistryIsNotFound | internal/ai/manager.go:51-54 | with nothing registered, every request is reported as an unknown provider |
| AiManager.RegisteredOpenAIAvailable | internal/ai/manager.go:30-47 | an OpenAI provider registered at start-up is never reported unavailable |
| AiManager.Branch | internal/ai/manager.go:84-105 | a failed branch names its provider; an unregistered provider fails as not found |
| AiManager.Branches | internal/ai/manager.go:80-106 | one outcome per requested provider, each that provider's branch |
| AiManager.CompareAsWritten | internal/ai/manager.go:72-121 | `Compare` as written panics if and only if no provider was requested |
| AiManager.Compare | internal/ai/manager.go:72-121 | fails exactly when there were providers and all failed, with one error per provider; otherwise returns the prompt and every success |
| AiManager.CompareAgreesWhenProvidersGiven | internal/ai/manager.go:72-121 | with at least one provider, `Compare` as written completes and agrees with the corrected one |
| AiManager.CompareOrderIndependent | internal/ai/manager.go:80-110 | requesting the same providers in another order gives the same verdict and the same results up to order |
| AiManager.GetAvailableProviders | internal/ai/manager.go:123-211 | OpenAI and Gemini are shown available if and only if registered and available; Anthropic never |
| AiManager.GetProvider | internal/ai/manager.go:213-223 | a registered provider is returned; any other lookup is a not-found error |
| AiManager.GetDefaultProvider | internal/ai/manager.go:225-235 | the configured default is kept if and only if it names a known provider; otherwise OpenAI |
| AiController.ProviderFromString | internal/controller/ai_controller.go:49-61 | exactly the strings `openai`, `gemini` and `anthropic` name a provider, and each names itself |
| AiController.ManagerRequest | internal/controller/ai_controller.go:63-71 | the manager receives the body's provider, model, prompt, system message, temperature and max tokens unchanged |
| AiController.GenerateContent | internal/controller/ai_controller.go:34-112 | an unbindable body and an unknown provider give 400 before the manager is called; a manager error gives 500 with no record; a success gives 200 with the response's content and a `success` history record; the record is stored exactly when it exists and the save succeeds |
| AiController.SaveFailureInvisible | internal/controller/ai_controller.go:97-101 | whether the history record could be saved changes neither the reply nor the record |
| AiController.AnthropicRequestsFail | internal/controller/ai_controller.go:56-57 | an Anthropic request passes the controller but always ends in 500 with no record, since Anthropic is never registered |
| AiController.SuccessRate | internal/controller/ai_controller.go:208-211 | 100 with no generations or no errors, 0 when every generation failed, always a percentage when the error count is within the total |
| AiController.Truncate | internal/controller/ai_controller.go:206 | the float-to-int conversion rounds toward zero |
| AiController.EntryOf | internal/controller/ai_controller.go:213-220 | a provider's entry copies its counts and average and adds its success rate |
| AiController.EntriesKeys | internal/controller/ai_controller.go:213 | the per-provider map has exactly one key per provider that appears in the statistics |
| AiController.EntriesLatestRow | internal/controller/ai_controller.go:213-220 | a provider's entry is built from its last row, which overwrites any earlier one |
| AiController.SummaryOf | internal/controller/ai_controller.go:223-241 | the summary carries the totals, an average duration of zero with no generations and total over count otherwise, and the overall success rate |
| AiController.GetStats | internal/controller/ai_controller.go:182-243 | the loop's summary is built from the column totals, and its map holds one entry per provider, taken from that provider's last row |
| AiController.ErrorsWithinGenerations | internal/controller/ai_controller.go:202-206 | if every row's errors are within its generations, so are the totals |
| AiController.SummaryRateIsPercentage | internal/controller/ai_controller.go:228-231 | for consistent statistics the overall success rate is a percentage |
| Middleware.NewRateLimiter | internal/middleware/middleware.go:82-93 | a new limiter has no visitors and the given rate |
| Middleware.Admit | internal/middleware/middleware.go:108-149 | an unseen client is admitted with a count of one; a client idle for over a minute starts again at one; a client at the limit is refused with 429 and nothing changes; otherwise its count goes up by one; refusal happens if and only if the limit is reached within the minute; no other client's entry changes |
| Middleware.AdmitPreservesBound | internal/middleware/middleware.go:108-149 | with a rate of at least one, every counter stays between one and the rate |
| Middleware.Replay | internal/middleware/middleware.go:108-149 | a run of requests gives one verdict per request and keeps the rate |
| Middleware.ReplayPreservesBound | internal/middleware/middleware.go:108-149 | counters stay between one and the rate over any run of requests |
| Middleware.NonPositiveRateRefusesKnownClients | internal/middleware/middleware.go:133-142 | with a rate of zero or less, a known client is refused throughout its minute |
| Middleware.Cleanup | internal/middleware/middleware.go:95-106 | a sweep removes exactly the visitors idle for more than five minutes and keeps the others unchanged |
| Middleware.CleanupPreservesBound | internal/middleware/middleware.go:95-106 | a sweep keeps counters bounded, and a second sweep at the same instant removes nothing more |
| Middleware.CleanupInvisibleToClients | internal/middleware/middleware.go:95-131 | a swept client is admitted just as it would have been by the minute reset had it not been swept |
| Middleware.Cors | internal/middleware/middleware.go:13-27 | the four CORS headers are always set; the request is aborted with 204 if and only if its method is OPTIONS |
| Validator.TagName | internal/util/validator/validator.go:34-42 | the name is the comma-free start of the tag, up to the first comma |
| Validator.ExtractJsonTag | internal/util/validator/validator.go:34-42 | the field name is the tag's first comma-separated piece, except that `-` gives the empty name |
| Validator.NameBeforeOptions | internal/util/validator/validator.go:34-42 | a comma-free name other than `-` is extracted from the tag whether or not options follow it |
| Validator.ProcessValidationErrors | internal/util/validator/validator.go:59-83 | no error gives no list; a non-field error gives one `unknown` entry with its message; field errors give one entry each, in order, keyed by the field with the validation code |
| Validator.ScanSegments | internal/util/validator/validator.go:127-132 | the loop accepts if and only if every segment starts with + or -, and panics if and only if it reaches an empty segment first |
| Validator.SortParamsAsWritten | internal/util/validator/validator.go:124-133 | `sortParams` as written scans the comma-separated pieces, panicking on an empty one |
| Validator.SortParamsPanicsOnEmptySegment | internal/util/validator/validator.go:128 | the empty value and a trailing comma make `sortParams` index an empty string |
| Validator.SortParams | internal/util/validator/validator.go:124-133 | a value is accepted if and only if every comma-separated piece starts with + or - |
| Validator.SortParamsAgreesWithoutEmptySegments | internal/util/validator/validator.go:124-133 | without empty pieces the code as written completes and agrees with the corrected check |
| Validator.SortParamsOfKeys | internal/util/validator/validator.go:124-133 | keys joined with commas are accepted if and only if every key is signed |
| Validator.DateRangeParamsAsWritten | internal/util/validator/validator.go:106-110 | `dateRangeParams` as written panics if and only if the value has at most ten characters, and otherwise tests the eleventh for `~` |
| Validator.DateRangePanicsOnShortValue | internal/util/validator/validator.go:109 | a lone date such as `2024-01-01` makes `dateRangeParams` index past its end |
| Validator.DateRangeParams | internal/util/validator/validator.go:106-110 | a value is accepted if and only if it has an eleventh character and that character is `~` |
| Validator.DateRangeOfTwoDates | internal/util/validator/validator.go:106-110 | a ten-character date followed by `~` is accepted, and on long enough values the corrected check agrees with the code |
| Validator.MatchesIffSortKey | internal/util/validator/validator.go:138 | the automaton accepts exactly the strings of `^[+\-][a-z_]+$` |
| Validator.SortStrings | internal/util/validator/validator.go:136-145 | a list is accepted if and only if every element is a sign followed by one or more lower-case letters or underscores |
| Validator.LanguageNumberType | internal/util/validator/validator.go:147-190 | signed integers pass if at least one, unsigned if non-zero, floats if at least one; anything else fails |
| ApiResponse.DefaultMessage | internal/model/api/api_response.go:64-73 | 401, 404 and 405 each get their own code, and every other status the bad-request code |
| ApiResponse.ErrResponse | internal/model/api/api_response.go:64-85 | the gateway response carries the status as its status and error code, with the status's default message |
| ApiResponse.ErrResponseMessagesAgree | internal/model/api/api_response.go:64-73 | two statuses share a message if and only if they are equal or both outside 401, 404 and 405 |
| ApiResponse.Error | internal/model/api/api_response.go:29-31 | the error text is the message when it is a string; any other message panics |
| ApiResponse.ConditionalResponse | internal/model/api/api_response.go:137-142 | the first value when the condition holds, the second otherwise |
| ApiResponse.ConditionalSwap | internal/model/api/api_response.go:137-142 | negating the condition and swapping the values gives the same choice |
| ApiResponse.NewPaginationAsWritten | internal/model/api/api_response.go:151-167 | `newPagination` as written panics if and only if the page size is zero |
| ApiResponse.AsWrittenPanicsOnZeroPageSize | internal/model/api/api_response.go:157 | a zero page size reaches the modulo by zero |
| ApiResponse.NewPagination | internal/model/api/api_response.go:151-167 | the page fields are copied; for a positive page size the page count is the least number of pages that holds all data; a zero page size gives zero pages; a negative one gives one page exactly when the truncated remainder is positive |
| ApiResponse.PageCountIsCeiling | internal/model/api/api_response.go:153-159 | quotient plus one for a positive remainder is the ceiling of the division and fits in int64 |
| ApiResponse.AsWrittenAgreesOnNonZeroPageSize | internal/model/api/api_response.go:151-167 | for every non-zero page size the code as written completes and agrees with the corrected function |
| Authentication.ExtractToken | internal/util/authentication/authentication.go:69-81 | an empty header is refused, and an accepted token contains no space |
| Authentication.ExtractTokenIff | internal/util/authentication/authentication.go:69-81 | a header yields a token if and only if it is exactly `Bearer`, one space, and a space-free token |
| Authentication.SchemeAloneRefused | internal/util/authentication/authentication.go:74-77 | `Bearer` with no token is refused |
| Authentication.DoubledSpaceRefused | internal/util/authentication/authentication.go:74-77 | two spaces after `Bearer` split into three pieces and are refused |
| Authentication.LowerCaseSchemeRefused | internal/util/authentication/authentication.go:74-77 | the scheme is compared case-sensitively |
| Authentication.EmptyTokenAccepted | internal/util/authentication/authentication.go:74-80 | `Bearer ` followed by nothing yields the empty token |
| Authentication.AcceptedShape | internal/util/authentication/authentication.go:69-81 | an accepted header is `Bearer`, a space and the token |
| Authentication.ExtractClaim | internal/util/authentication/authentication.go:83-91 | a header error is returned as is; otherwise the claim is the validator's verdict on the token |
| Authentication.ValidatorNotConsultedOnBadHeader | internal/util/authentication/authentication.go:83-87 | a malformed header fails without consulting the validator |
| HttpHelper.ConvertStringCommaSeparated | internal/util/httphelper/http_helper.go:29-35 | the empty string gives no elements; otherwise the comma-free pieces between commas |
| HttpHelper.CommaSeparatedRoundTrip | internal/util/httphelper/http_helper.go:29-35 | joining the pieces with commas gives the value back, and comma-free pieces survive a join and a split, except the single empty piece |
| HttpHelper.SuccessStatus | internal/util/httphelper/http_helper.go:101-114 | the written status is the given one if it lies in 201..299 and 200 otherwise, so always a success status |
| HttpHelper.ErrorStatus | internal/util/httphelper/http_helper.go:125-137 | the written status is the given one if it lies in 400..599 and 400 otherwise |
| HttpHelper.ClampingIdempotent | internal/util/httphelper/http_helper.go:101-137 | clamping a written status again leaves it unchanged |
| HttpHelper.WriteSuccessWithStatusCode | internal/util/httphelper/http_helper.go:101-114 | the reply has the clamped success status, the message and no error code |
| HttpHelper.WriteErrorWithStatusCode | internal/util/httphelper/http_helper.go:125-137 | the reply has the clamped error status, repeated as the envelope's error code |
| HttpHelper.WriteError | internal/util/httphelper/http_helper.go:116-123 | an HTTP error is written with its own message and status, panicking where its message does; any other error is written with 400 |
| HttpHelper.WriteErrorStatus | internal/util/httphelper/http_helper.go:116-137 | whatever `WriteError` writes has an error status, the error's own one when that is valid |
| HttpHelper.GetPlatform | internal/util/httphelper/http_helper.go:186-195 | the `platform` header, or `platform_type` when the former is empty; empty only when both are |
| HttpHelper.CompareParamWithClaimToken | internal/util/httphelper/http_helper.go:175-178 | a parsed parameter is compared with the claim; an unparseable one counts as 0; an out-of-range one as the int64 bound it passed |
| HttpHelper.FormattedClaimMatches | internal/util/httphelper/http_helper.go:175-178 | a claim's decimal rendering matches that claim and no other |
| HttpHelper.NonNumericMatchesZero | internal/util/httphelper/http_helper.go:175-178 | a non-numeric or empty parameter matches the claim 0 |
| Helper.IsEmpty | internal/util/helper/helper.go:25-27 | a string is empty after trimming exactly when every character is white space |
| Helper.IsNotEmpty | internal/util/helper/helper.go:30-32 | a string is not empty exactly when some character is not white space |
| Helper.IsEmptyIff | internal/util/helper/helper.go:25-32 | a string is empty after trimming if and only if every character is white space; it is not empty if and only if some character is not |
| Helper.Contains | internal/util/helper/helper.go:36-43 | the search finds an item if and only if it is in the list |
| Helper.DedupSameElements | internal/util/helper/helper.go:46-56 | removing duplicates keeps exactly the same set of elements |
| Helper.DedupDistinct | internal/util/helper/helper.go:46-56 | the result has no repeated element |
| Helper.DedupSubsequence | internal/util/helper/helper.go:46-56 | the result keeps the elements in their order of first appearance |
| Helper.DedupOfDistinct | internal/util/helper/helper.go:46-56 | a list without duplicates is returned unchanged |
| Helper.DedupIdempotent | internal/util/helper/helper.go:46-56 | removing duplicates twice is the same as once |
| Helper.RemoveDuplicates | internal/util/helper/helper.go:46-56 | the loop returns a duplicate-free list with the same elements, in order of first appearance, no longer than the input |
| Template.Add | internal/util/template/template.go:37-39 | the sum wraps to int64, equals the exact sum when that fits, and differs from it by a multiple of 2^64 |
| Template.Sub | internal/util/template/template.go:40-42 | the difference wraps to int64, equals the exact difference when that fits, and differs from it by a multiple of 2^64 |
| Template.Mul | internal/util/template/template.go:43-45 | the product keeps its low 64 bits, equals the exact product when that fits |
| Template.SubUndoesAdd | internal/util/template/template.go:37-42 | subtracting what was added gives the value back, overflow or not |
| Template.AddUndoesSub | internal/util/template/template.go:37-42 | adding what was subtracted gives the value back, overflow or not |
| Template.QuoFits | internal/util/template/template.go:46-51 | a truncated quotient fits in int64 except for the minimum divided by -1 |
| Template.Div | internal/util/template/template.go:46-51 | division by zero gives 0; otherwise the quotient rounded toward zero, and the minimum divided by -1 wraps to itself |
| Template.DivTruncates | internal/util/template/template.go:46-51 | the remainder left by `div` is smaller than the divisor and carries the dividend's sign |
| Template.Percent | internal/util/template/template.go:31-36 | a zero divisor gives 0; otherwise the scaled float ratio |
| Template.PercentOfZeroIgnoresRatio | internal/util/template/template.go:32-34 | with a zero divisor the float computation is never consulted |
| Template.Init | internal/util/template/template.go:18-72 | an unreadable working directory leaves the template set as it was; otherwise a new set is assigned before parsing, so it exists even when parsing failed |
| Template.ExecuteTemplate | internal/util/template/template.go:80-92 | no set gives a not-initialised error; an unknown name is an error; a known template's output or failure is passed on |
| Template.InitWithDirectoryInitialises | internal/util/template/template.go:18-92 | once the working directory has been read, executing never reports the templates uninitialised |

## Left out

- Validator.DateRangeParams, Validator.DateRangeParamsAsWritten: Go's `len` and `s[10]` count bytes, but these two count and index characters. They agree with Go on ASCII values, such as dates; a value with a non-ASCII character among its first eleven is judged at a different position. The placeholder length (`OutboundManager.IsPlaceholderApiKey`) and the token estimate (`OutboundGemini.EstimateTokens`) do count UTF-8 bytes.
- Floating point: temperatures, success rates, average durations and `percent` are `real`.
  - The float32 conversion of the temperature (ai_controller.go:69) is not modelled.
  - `percent`'s float computation is an input (`scaled`).
- AiController.Truncate: models Go's float-to-int conversion of `AvgDuration * TotalGenerations` on reals. Conversion of a value outside int64 is not modelled.
- AiController.GetStats: the int totals are unbounded; 64-bit overflow of the sums is not modelled.
- Concurrency:
  - The goroutines, channels and `WaitGroup` of both `Compare`s are a sequential fold. `Comparison.AggregateOrderIndependent` shows that the verdict and the collections of results and errors do not depend on arrival order.
  - Comparison.Aggregate, OutboundManager.Compare, AiManager.Compare: the order of `results` and `errors`, and `CreatedAt`, follow request order in the model. In Go they follow arrival order (manager.go:128-130, 150; ai/manager.go:97-99, 119), so `CreatedAt` is the time of the first answer to arrive, not of the first provider requested.
  - The limiter's mutex and its cleanup goroutine are out; `Middleware.Cleanup` is one sweep at a given instant.
- The clock: `time.Now` and `time.Since` are inputs (`now`, `elapsed`). One instant stands for the several readings in each `Generate`. Durations are not rendered as strings.
- JSON marshalling, Gin binding, HTTP transport, header canonicalisation and the Gemini and OpenAI SDKs are inputs; each reply is an already decoded value.
  - Binding requires the three `binding:"required"` fields to be non-empty; that is `AiController.Bindable`.
- The repository, the database, SQL and logging are out. The history record's save outcome is the input `saveOk`.
- The `internal/ai` package's Gemini provider is not part of this model. Its availability, validation and replies are the input `AiManager.Upstream`.
- `internal/entity` and the handlers packages are not part of this model.
- Three handlers of the controller are out:
  - `CompareProviders` (ai_controller.go:114-116) is a stub that always answers 200 with a fixed message; it never calls the manager's `Compare`.
  - `GetProviders` (ai_controller.go:118-146) answers a constant list that marks OpenAI and Gemini available whatever the registry holds.
  - `GetHistory` (ai_controller.go:148-180) forwards to the repository.
- `PanicOnError` and `PanicOnErrorContext` (helper.go:10-23) are out: they only log an error and panic with it. A panic is `Results.Run`'s `Panicked` wherever the model has one.
- `RequestLogger` and `ErrorHandler` of the middleware (middleware.go:30-68, 152-167) are out: they only log and format.
- JWT generation, validation and refresh (authentication.go:25-67, 93-117) are out: cryptography. `Authentication.ExtractClaim` takes the validator as an input.
- The `time.Parse`-based validators are out: their result is the standard library's date parsing. These are `datetimeRFC3339`, `date`, `dateV2` and `datetimeRange` (validator.go:85-104, 112-122).
  - `datetimeRange` also indexes `split[1]` without checking; that panic is not modelled either.
- Validator.LanguageNumberType: models the numeric kinds of validator.go:150-157 only. A field of interface kind that holds a number (validator.go:159-187) is judged by that number in the source, but it is `NotNumeric`, and so rejected, in the model.
- `Validate` (validator.go:44-57) is out: it runs the validation library and wraps the result. Its conversion of the library's errors is `Validator.ProcessValidationErrors`; the `errors[0]` it reads is never missing, since the library reports at least one field error.
- `ErrorResponse.StatusCode` (api_response.go:33-35) is a plain field read, `ApiResponse.StatusCode`, with no contract of its own.
- `GetDefaultProvider` of the outbound manager (manager.go:256-259) returns a constant: it is `OutboundManager.DefaultProvider`.
- `getDurationEnv` (config.go:223-230) is out: it reads `time.Duration` values, and durations are out.
- `IsDevelopment` and `IsProduction` (config.go:197-205) are predicates that compare the environment name. No contract beyond their body applies.
- `WriteErrorWithData`, `Write`, `Read`, `ReadQueryParam` and the authorization writers of http_helper.go are out. They encode JSON and write to the connection.
- Template rendering itself (html/template) is an input, `render`. So are the file globbing and parsing, `parseGlob`.
- `GetSupportedModels` contracts state only that the default model is listed. The full lists are constants in the model.

## Findings

| source | as written | input that shows it | evidently intended | confidence | as-written member | corrected member |
|---|---|---|---|---|---|---|
| internal/outbound/manager.go:147-151 | `CreatedAt: results[0].GeneratedAt` is read whenever not every provider failed, including when no provider was requested | a comparison request with an empty provider list | an empty comparison (no results) instead of an index-out-of-range panic | not executed | Comparison.AggregateAsWritten, OutboundManager.CompareAsWritten | Comparison.Aggregate, OutboundManager.Compare |
| internal/ai/manager.go:116-120 | the same `results[0]` read in the older manager | a comparison request with an empty provider list | an empty comparison instead of a panic | not executed | AiManager.CompareAsWritten | AiManager.Compare |
| internal/model/api/api_response.go:157 | `totalData % pageSize` is evaluated even when `pageSize` is zero, outside the `pageSize > 0` guard | `newPagination(10, 1, 0)` | zero pages for a zero page size, as the guard on line 153 intends | not executed | ApiResponse.NewPaginationAsWritten | ApiResponse.NewPagination |
| internal/util/validator/validator.go:128 | `v[0]` is read from every comma-separated piece, and a piece can be empty | the value `""` or `+name,` | reject the value instead of panicking | not executed | Validator.SortParamsAsWritten | Validator.SortParams |
| internal/outbound/gemini.go:82 | `resp.Candidates[0].Content.Parts` is read without checking that `Content` is non-nil | an SDK reply whose one candidate is returned without content | report "no response from Gemini" instead of a nil-pointer panic | not executed | OutboundGemini.GenerateAsWritten | OutboundGemini.Generate |
| internal/util/validator/validator.go:109 | `s[10]` is read without checking the length | the value `2024-01-01` | reject values shorter than eleven characters | not executed | Validator.DateRangeParamsAsWritten | Validator.DateRangeParams |
