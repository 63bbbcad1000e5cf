# Content-generation gateway, modelled in Dafny

The gateway is a small Express service. It turns a request `{ type, keyword, tone, length }` into one prompt for a generative model (Gemini, `gemini-2.5-flash`), sends it, and answers with the model's trimmed text. Provider errors become HTTP errors. This project models the request logic only:

- **The content-type registry** (`ContentConfigs`, `Templates`). It holds fourteen types in a fixed order. Each type has a system prompt and a user-prompt template literal. A template is a sequence of text and `${...}` holes, including the length-dependent choices of the haiku and tweet-thread templates. `Render` interpolates a template.
- **Prompt assembly and word budget** (`Prompts`, `LengthConfig`).
- **The service** `GeminiService.generateContent` (`GeminiService`). The model is a parameter: a total function from the prompt to a reply, either the reply's text or a thrown error. "The model is never called" is stated as "every model gives the same answer". "The model sees only the prompt" is stated as "two models that agree on that prompt give the same answer".
- **The router path**. The controller (`GenerateController`) calls the service and passes every error on with `next(error)`; the error middleware (`ErrorHandler`) answers it. None of the files modelled here mounts `routes/routes.js` or `middlewares/errorHandler.js` (`server.js` requires neither, and `index.js` mounts only `route/openai.js`), so `Application` assumes the wiring: the router's `POST /generate` with the middleware installed after it.
- **The self-contained handler of `server.js`** (`Server`). It has its own defaults (the keyword defaults to ""), its own `catch` block and the `/api/content-types` listing. Both paths check the keyword first and the type second (server.js:115 then 122; controllers/generate.controller.js:12 then services/gemini.service.js:7). On the server the type check answers 400 itself; in the service it throws outside the `try`, so its error skips the relabelling.
- **The listing of `routes/routes.js`** (`Routes`). It includes the display name derived from each key.

Support modules:
- `Strings` models the JavaScript built-ins the code uses: `trim` (the ECMAScript WhiteSpace and LineTerminator set), `includes`, `split`/`join`, ASCII `toUpperCase`, and decimal number formatting. No source file calls `toLowerCase`: `Strings.ToLowerAscii` and `Routes.Slug` exist only to state the round trip from a display name back to its key. Each comes with a partner: an existential reading of `includes`, the `split`/`join` round trip, and the decimal round trip.
- `Js` models error objects and the `||` fallback on falsy values (`undefined`, `""`, `0`).
- `Http` models request bodies and responses.

The two paths diverge, and the model keeps both as the code writes them:
- **Unknown type.** The router path answers **500**: the service throws a plain `Error` with no status, and the middleware falls back to `err.status || 500`. The server answers 400 with the list of keys.
- **Provider error with a non-zero status of its own.** This covers only an error whose message names none of "API key", "quota" and "rate limit" and is neither of the two bare labels below. Any other error is relabelled by the service or matched by the middleware, and so answered 401 or 429 on both paths. For example, a 403 error with the message "API key not valid" is answered 401 on both. The error in this bullet keeps its status on the router path; the server answers 500.
- **Provider message that is exactly `INVALID_API_KEY`.** The service rethrows it unchanged, because it contains no "API key". The middleware then matches it exactly and answers 401; the server answers 500.
- **Provider message that is exactly `RATE_LIMIT_EXCEEDED`.** This is a case of the same kind. The message contains neither "quota" nor "rate limit", so the service rethrows it unchanged. The middleware then matches it exactly and answers 429; the server answers 500.

On the router path an unknown type is therefore answered 500, because the thrown `Error` has no status (services/gemini.service.js:8, middlewares/errorHandler.js:20), and the model follows the code (`Application.UnknownTypePathsDiffer`, `Application.ProviderStatusPathsDiffer`).

## Model

| member | source | states |
|---|---|---|
| Strings.TrimStart | services/gemini.service.js:20 | the result is a suffix of the input, what it drops is all whitespace, and it does not start with whitespace |
| Strings.TrimEnd | services/gemini.service.js:20 | the result is a prefix of the input, what it drops is all whitespace, and it does not end with whitespace |
| Strings.TrimCutsOnlyWhitespace | services/gemini.service.js:20 | `trim` keeps a contiguous infix with only whitespace on either side, and that infix neither starts nor ends with whitespace |
| Strings.TrimIsInfix | services/gemini.service.js:20 | `trim` gives a slice `s[i..j]` with whitespace only before `i` and after `j` |
| Strings.TrimEndsClean | services/gemini.service.js:20 | a non-empty trimmed string starts and ends with a non-whitespace character |
| Strings.TrimIdempotent | services/gemini.service.js:20 | trimming twice is trimming once |
| Strings.IsWhitespace | services/gemini.service.js:20 | definition: the characters `trim` removes, the ECMAScript WhiteSpace and LineTerminator set |
| Strings.Trim | services/gemini.service.js:20 | definition: `String.prototype.trim`, `TrimEnd` after `TrimStart`; its properties are `Strings.TrimIsInfix`, `Strings.TrimEndsClean`, `Strings.TrimIdempotent` and `Strings.TrimEmptyIffBlank` |
| Strings.TrimEmptyIffBlank | controllers/generate.controller.js:12 | a string trims to "" exactly when it is whitespace only |
| Strings.Includes | services/gemini.service.js:26-30 | definition: `String.prototype.includes` as a scan of every start position; `Strings.IncludesIffOccurs` relates it to the substring reading |
| Strings.IncludesIffOccurs | services/gemini.service.js:26-30 | the computed `includes` holds exactly when `sub` occurs in `s` as `pre + sub + post` |
| Strings.IncludesOccurs | services/gemini.service.js:26 | `includes` holds only when the substring occurs |
| Strings.OccursIncludes | services/gemini.service.js:26 | a substring that occurs is found by `includes` |
| Strings.MissingCharNoOccurrence | services/gemini.service.js:26-30 | a string lacking one of the characters of `sub` does not contain `sub` |
| Strings.Join | routes/routes.js:14 | definition: `Array.prototype.join` with a glue string; `Strings.Split` and `Strings.SplitJoin` relate it to `split` |
| Strings.Split | routes/routes.js:14 | `split` gives at least one piece, no piece holds the separator, and joining the pieces with it gives back the string |
| Strings.SplitJoin | routes/routes.js:14 | splitting the join of separator-free pieces gives back the pieces |
| Strings.IndexOf | routes/routes.js:14 | the index of the first occurrence of a character |
| Strings.ToUpperAscii | routes/routes.js:14 | lower-case ASCII letters map to their capitals, and every other character is kept |
| Strings.ToLowerAscii | routes/routes.js:14 | capital ASCII letters map to their lower-case letters, and every other character is kept |
| Strings.Decimal | services/gemini.service.js:14 | `${maxWords}` is a non-empty run of digits with no leading zero |
| Strings.DecimalRoundTrip | services/gemini.service.js:14 | reading back the digits of `${n}` gives `n` |
| Strings.DecimalInjective | services/gemini.service.js:14 | two numbers print alike exactly when they are equal |
| Strings.DigitsAfterSeparator | services/gemini.service.js:14 | after a non-digit separator, a run of digits ends a string exactly when it is that string's final run |
| Templates.RenderPart | config/contentConfigs.js:50 | definition: the value of one segment, the nested `length === 'short' ? ... : length === 'medium' ? ... : ...` included; `Templates.ChoiceAtEnd` states its three cases |
| Templates.Render | config/contentConfigs.js:4-5 | definition: calling a template arrow, the segments' values in order; `Templates.RenderAppend` and the layout lemmas carry its properties |
| Templates.RenderAppend | config/contentConfigs.js:4-5 | interpolating a template literal distributes over concatenation of its segments |
| Templates.FramedHoleOccurs | config/contentConfigs.js:5 | a hole between texts ending in `lead` and starting with `trail` renders as `lead`, value, `trail` |
| Templates.LedHoleOccurs | config/contentConfigs.js:5 | a hole right after a text ending in `lead` renders right after `lead` |
| Templates.EndsWithHole | config/contentConfigs.js:50 | a template ending in text, hole, text renders to a string ending in them |
| Templates.ChoiceAtEnd | config/contentConfigs.js:50 | the value a length-dependent choice ends with tells the three cases apart, both directions |
| Templates.ToneFree | config/contentConfigs.js:44-45 | a template without `${tone}` renders the same for every tone |
| Templates.ToneGrows | config/contentConfigs.js:4-5 | a template with `${tone}` renders strictly longer for the tone "x" than for the tone "", so its output depends on the tone |
| Templates.LengthFree | config/contentConfigs.js:64-65 | a template that never reads `length` renders the same for every length |
| ContentConfigs.Id | config/contentConfigs.js:1-72 | definition: the property name of each type; `ContentConfigs.IdInjective` and `ContentConfigs.ParseId` carry its properties |
| ContentConfigs.SystemPrompt | config/contentConfigs.js:3-68 | definition: each type's `systemPrompt` string; `Routes.Describe` lists it as the description |
| ContentConfigs.TemplateOf | config/contentConfigs.js:4-70 | definition: each type's `userPromptTemplate`, held in the fourteen `*Template` constants (ShayariTemplate at config/contentConfigs.js:5 through MotivationalSpeechTemplate at :70); the layout lemmas below carry its properties |
| ContentConfigs.EntryOf | config/contentConfigs.js:1-72 | definition: the registry value `{ systemPrompt, userPromptTemplate }` of each type |
| ContentConfigs.UserPrompt | config/contentConfigs.js:4-70 | definition: `config.userPromptTemplate(keyword, tone, length)`; `ContentConfigs.UserPromptQuotesKeyword`, `ContentConfigs.HaikuCount` and the other lemmas below carry its properties |
| ContentConfigs.UnsupportedTypeMessage | services/gemini.service.js:8 | definition: the text `Content type "<type>" is not supported.`, also that of server.js:125; `ContentConfigs.UnsupportedMessageQuotes` states it quotes the type |
| ContentConfigs.Keys | config/contentConfigs.js:1-72 | `Object.keys(contentConfigs)` is exactly shayari, joke, quote, story, riddle, pickup-line, roast, compliment, dad-joke, haiku, rap-lyrics, tweet-thread, acrostic, motivational-speech, in that order |
| ContentConfigs.AllTypesListed | config/contentConfigs.js:1-72 | every content type is in the ordered list |
| ContentConfigs.TypesEnumerateAll | config/contentConfigs.js:1-72 | every type is listed, and no type twice |
| ContentConfigs.Find | services/gemini.service.js:7 | a type is found only when its key is the string, and none is found only when no listed key is the string |
| ContentConfigs.Parse | services/gemini.service.js:7 | `contentConfigs[type]` gives the type whose key is `type`, or nothing when no key is |
| ContentConfigs.ParseId | services/gemini.service.js:11 | looking up a type's key gives that type back |
| ContentConfigs.IdInjective | config/contentConfigs.js:1-72 | no two types share a key |
| ContentConfigs.ParseIffKey | services/gemini.service.js:7 | a string names a type exactly when it is one of the fourteen keys |
| ContentConfigs.UnsupportedMessageQuotes | services/gemini.service.js:8 | the error text contains the rejected type verbatim |
| ContentConfigs.KeywordLayout | config/contentConfigs.js:5-70 | every template has its keyword hole between two double quotes |
| ContentConfigs.ToneLayout | config/contentConfigs.js:5-70 | every template but dad-joke's has a tone hole, and dad-joke's has none |
| ContentConfigs.LengthLayout | config/contentConfigs.js:5-70 | eleven templates put the length hole right after "Length: " |
| ContentConfigs.UserPromptQuotesKeyword | config/contentConfigs.js:5-70 | for every type and input, the output contains `"` + keyword + `"` |
| ContentConfigs.UserPromptMentionsTone | config/contentConfigs.js:5-70 | every template except dad-joke's contains the tone verbatim |
| ContentConfigs.ToneMattersExceptDadJoke | config/contentConfigs.js:44-45 | the output ignores the tone exactly for dad-joke |
| ContentConfigs.UserPromptEchoesLength | config/contentConfigs.js:5-70 | the eleven types other than haiku, tweet-thread and acrostic contain "Length: " + length |
| ContentConfigs.AcrosticIgnoresLength | config/contentConfigs.js:64-65 | the acrostic output does not depend on the length |
| ContentConfigs.HaikuTail | config/contentConfigs.js:50 | the haiku prompt ends with "Create N haiku(s)." for the length's count |
| ContentConfigs.HaikuCount | config/contentConfigs.js:50 | "1" exactly for short, "2" exactly for medium, "3" exactly for every other length |
| ContentConfigs.TweetThreadTail | config/contentConfigs.js:60 | the tweet-thread prompt ends with "Length: N tweets. Number each tweet." |
| ContentConfigs.TweetThreadCount | config/contentConfigs.js:60 | 3 tweets exactly for short, 5 exactly for medium, 8 exactly for every other length |
| Js.NewError | services/gemini.service.js:27 | definition: `new Error(message)`, named "Error" with no status; `ErrorHandler.PlainErrorIs500` states how the middleware answers it |
| Js.StringOr | middlewares/errorHandler.js:21-22 | definition: `x \|\| fallback` on a possibly absent string; `ErrorHandler.Handle` states both of its cases |
| Js.NumberOr | middlewares/errorHandler.js:20 | definition: `x \|\| fallback` on a possibly absent number; `ErrorHandler.Handle` states both of its cases |
| Js.Mentions | services/gemini.service.js:26 | definition: `error.message?.includes(sub)` as a substring fact; `Js.MessageIncludes` computes it |
| Js.MessageIncludes | services/gemini.service.js:26 | `error.message?.includes(sub)` holds exactly when the message exists and contains `sub` |
| LengthConfig.Lookup | services/gemini.service.js:12 | definition: `lengthConfig[length]` over the assumed table; `LengthConfig.MaxWordsCases` states the budget it gives |
| LengthConfig.MaxWords | services/gemini.service.js:12 | definition: `lengthConfig[length] \|\| lengthConfig.medium`; `LengthConfig.MaxWordsCases` states its three cases |
| LengthConfig.MaxWordsCases | services/gemini.service.js:12 | the budget is 100 exactly for short, 400 exactly for long, and 200 for every other length |
| Prompts.BudgetSentence | services/gemini.service.js:14 | definition: the closing instruction with the budget in decimal; `Prompts.BudgetAtEnd` states it determines its number |
| Prompts.FullPrompt | services/gemini.service.js:14 | definition: system prompt, blank line, rendered user prompt, blank line and budget instruction, also the `fullPrompt` of server.js:133; `Prompts.StatesBudget` and `Prompts.UserPromptInside` carry its properties |
| Prompts.BudgetAtEnd | services/gemini.service.js:14 | whatever precedes it, a budget instruction for `m` ends in the one for `n` exactly when `n` is `m` |
| Prompts.StatesBudget | services/gemini.service.js:14 | the full prompt ends with the budget instruction for its word budget and for no other number |
| Prompts.StatesBudgetAll | services/gemini.service.js:14 | the same, for all numbers at once |
| Prompts.UserPromptInside | services/gemini.service.js:14 | whatever occurs in the rendered user prompt occurs in the full prompt |
| GeminiService.ServicePrompt | services/gemini.service.js:11-14 | the prompt states the budget `lengthConfig[length] \|\| lengthConfig.medium` and no other |
| GeminiService.Reclassify | services/gemini.service.js:23-35 | "API key" wins and gives INVALID_API_KEY; otherwise "quota" or "rate limit" gives RATE_LIMIT_EXCEEDED; any other error is rethrown unchanged |
| GeminiService.Answer | services/gemini.service.js:18-35 | a reply gives `Ok` of its trimmed text, which trimming again leaves unchanged; a thrown error gives `Err` of the relabelled error |
| GeminiService.GenerateContent | services/gemini.service.js:6-36 | an unknown type fails with `Content type "<type>" is not supported.`; a success implies a known type and trimmed text |
| GeminiService.ResultIsTrimmedReply | services/gemini.service.js:17-22 | a reply's text comes back trimmed |
| GeminiService.ProviderErrorRelabelled | services/gemini.service.js:23-35 | a thrown provider error comes back relabelled |
| GeminiService.UnknownTypeSkipsModel | services/gemini.service.js:7-9 | an unknown type gives the same result whatever the model does, so the model is never called |
| GeminiService.ModelSeesOnlyPrompt | services/gemini.service.js:14-18 | two models that agree on the assembled prompt give the same result |
| GeminiService.UnsupportedNotRelabelled | services/gemini.service.js:7-16 | an unknown type naming "API key" keeps its unsupported-type message, which the `catch` block would have relabelled |
| GeminiService.BareLabelNotRelabelled | services/gemini.service.js:26-34 | a provider message that is exactly "INVALID_API_KEY" or "RATE_LIMIT_EXCEEDED" contains none of the three phrases and is rethrown unchanged |
| GeminiService.ApiKeyCheckedFirst | services/gemini.service.js:26-32 | a message naming both the API key and the quota becomes INVALID_API_KEY |
| GeminiService.PromptQuotesKeyword | services/gemini.service.js:14 | the prompt contains the keyword in double quotes |
| ErrorHandler.Handle | middlewares/errorHandler.js:1-25 | the exact labels give 401 and 429; otherwise status, `error` and `message` are the error's own or the fallbacks 500, "Internal server error" and the generic text |
| ErrorHandler.AnswerIsComplete | middlewares/errorHandler.js:19-24 | every answer has a non-zero status and a non-empty `error` and `message` |
| ErrorHandler.LabelsAreExact | middlewares/errorHandler.js:5-17 | for an error without a status, 401 and 429 come exactly from the two exact labels |
| ErrorHandler.LabelWithSuffixFallsThrough | middlewares/errorHandler.js:5-24 | "INVALID_API_KEY x" is not recognised and is answered 500 |
| ErrorHandler.PlainErrorIs500 | middlewares/errorHandler.js:19-24 | an unrecognised `new Error(m)` is answered 500 with name "Error" and message `m` |
| GenerateController.KeywordMissing | controllers/generate.controller.js:12 | definition: `!keyword?.trim()`; `GenerateController.KeywordRequiredIffBlank` states it holds exactly for an absent or whitespace-only keyword |
| GenerateController.ServiceArgs | controllers/generate.controller.js:5-23 | the service receives type, tone and length defaulted to "joke", "funny" and "medium", and the keyword as sent |
| GenerateController.MissingIffBlank | controllers/generate.controller.js:12 | `!keyword?.trim()` holds exactly for an absent keyword or one made only of whitespace |
| GenerateController.Handle | controllers/generate.controller.js:3-41 | the 400 "Keyword is required" comes exactly for an absent or whitespace-only keyword. The error goes to `next` exactly when the keyword is present and not blank and the service fails on the defaulted request, and it is the service's own error. A 200 comes exactly when the keyword is present and not blank and the service succeeds. Its result is the service's, and its metadata holds the defaulted type, tone and length, the keyword as sent, and the model name |
| GenerateController.KeywordRequiredIffBlank | controllers/generate.controller.js:12-16 | the 400 comes exactly for an absent or whitespace-only keyword |
| GenerateController.BlankKeywordSkipsService | controllers/generate.controller.js:12-16 | a blank keyword gets the 400 whatever the service does, so it is not called |
| GenerateController.ServiceSeesDefaultedRequest | controllers/generate.controller.js:18-23 | two services that agree on the defaulted request give the same outcome |
| GenerateController.KeywordOnlyDefaults | controllers/generate.controller.js:5-10 | with only a keyword sent, the service is asked for a funny joke of medium length |
| GenerateController.ServiceErrorForwarded | controllers/generate.controller.js:38-40 | a service error is passed to `next` unchanged |
| Routes.DisplayName | routes/routes.js:14 | definition: `key.split('-').map(...).join(' ')`; `Routes.DisplayNameIsTitleCase`, `Routes.NameKeepsLength` and `Routes.NameRoundTrip` carry its properties |
| Routes.Capitalize | routes/routes.js:14 | the first character is upper-cased and the rest kept |
| Routes.CapitalizeAll | routes/routes.js:14 | each word is capitalised, in order |
| Routes.TitleCaseWord | routes/routes.js:14 | scanning a hyphen-free word capitalises it from its start |
| Routes.TitleCaseSplit | routes/routes.js:14 | scanning a word and a hyphen gives the capitalised word and a space |
| Routes.DisplayNameIsTitleCase | routes/routes.js:14 | the split/map/join name equals an independent one-pass scan |
| Routes.TitleCaseLength | routes/routes.js:14 | the scan keeps the length |
| Routes.NameKeepsLength | routes/routes.js:14 | the name is as long as the key |
| Routes.Slug | routes/routes.js:14 | lower-cases every character and writes spaces as hyphens |
| Routes.SlugOfTitleCase | routes/routes.js:14 | for a lower-case key, `Slug` undoes the scan |
| Routes.NameRoundTrip | routes/routes.js:14 | for a lower-case key, lower-casing the name and turning spaces into hyphens gives back the key |
| Routes.KeyIsSlug | config/contentConfigs.js:1-72 | every registry key consists of lower-case letters and hyphens |
| Routes.Describe | routes/routes.js:12-16 | each entry has `id` the key, `description` the system prompt, and a name that title-cases the key's words, of the key's length, whose slug is the key |
| Routes.ContentTypes | routes/routes.js:11-19 | fourteen entries, one per key in registry order |
| Routes.NamesNonEmpty | routes/routes.js:12-16 | every name is non-empty |
| Routes.IdNonEmpty | config/contentConfigs.js:1-72 | no key is empty |
| Routes.NamesDistinct | routes/routes.js:12-16 | no two listed names are alike |
| Routes.IdInjectiveAt | config/contentConfigs.js:1-72 | keys at different positions differ |
| Routes.TwoWordName | routes/routes.js:14 | a two-word key is listed as the two words capitalised with a space between |
| Routes.DadJokeName | routes/routes.js:14 | "dad-joke" is listed as "Dad Joke" |
| Routes.HaikuName | routes/routes.js:14 | "haiku" is listed as "Haiku" |
| Server.LengthWords | server.js:100-104 | definition: the `lengthWords` table; `Server.ServerMaxWords` states the budget it gives |
| Http.Success | controllers/generate.controller.js:25-36 | definition: the answer `{ success: true, result, metadata }` with status 200, also that of server.js:140-151; `Server.SuccessEchoesRequest` and `GenerateController.Handle` state what it carries |
| Server.ServerMaxWords | server.js:100-104 | `lengthWords[length] \|\| 200`: 100 exactly for short, 400 exactly for long, 200 for every other length |
| Server.BudgetsAgree | server.js:131 | the server's budget equals the service's |
| Server.Defaults | server.js:108-113 | absent fields default to "joke", "", "funny" and "medium" |
| Server.InvalidType | server.js:122-128 | definition: the 400 answer with the unsupported-type message and the keys; `Server.UnknownTypeRejected` states when it is sent |
| Server.GenerationFailed | server.js:172-176 | definition: the 500 "Generation failed" answer, with the error message as `details` in development only; `Server.CatchResponse` states when it is sent |
| Server.KeywordBlank | server.js:115 | definition: `!keyword \|\| keyword.trim() === ''`; `Server.KeywordRequiredIffBlank` states it holds exactly for a missing or whitespace-only keyword |
| Server.ServerPrompt | server.js:130-133 | definition: the handler's `fullPrompt`; `Server.SamePromptAsService` states it is the service's prompt |
| Server.CatchResponse | server.js:158-176 | "API key" gives 401; otherwise "quota" or "rate limit" gives 429; anything else gives the 500 "Generation failed" answer |
| Server.AnswerReply | server.js:138-176 | status 200 exactly for a reply, with trimmed text; an error is never answered 400 |
| Server.Dispatch | server.js:122-176 | past the keyword check: 400 exactly for an unknown type, then with the fourteen keys as `supportedTypes`; 200 exactly for a known type whose model call on the assembled prompt replies; no answer here is the keyword error |
| Server.Generate | server.js:106-178 | 400 exactly for a blank keyword or an unknown type; "Keyword is required" exactly for a blank keyword, whatever the type; 200 exactly for a non-blank keyword, a known type and a model that replies to the assembled prompt |
| Server.KeywordRequiredIffBlank | server.js:115-120 | "Keyword is required" comes exactly for a missing or whitespace-only keyword |
| Server.KeywordCheckedFirst | server.js:115-128 | a blank keyword is reported whatever the type, and the model is not called |
| Server.UnknownTypeRejected | server.js:122-128 | an unknown type is answered 400 with `supportedTypes` the fourteen keys in order |
| Server.SamePromptAsService | server.js:133 | the server sends exactly the prompt the service sends |
| Server.SuccessEchoesRequest | server.js:138-151 | on success the trimmed text is returned, and the metadata echoes the defaulted request with the keyword untrimmed and model "gemini-2.5-flash" |
| Server.FailureStatus | server.js:153-176 | a thrown error is answered 401, then 429, else 500 |
| Server.ServerContentTypes | server.js:180-188 | the server's listing is the router's |
| Application.Service | services/gemini.service.js:6 | definition: `GeminiService.generateContent` bound to a model, as the controller calls it |
| Application.Generate | routes/routes.js:8 | the router path answers a blank keyword with the controller's 400; otherwise a success, or the middleware's answer to the service error |
| Application.SameDefaults | server.js:108-113 | with a keyword sent, both handlers default the request alike |
| Application.UnknownTypePathsDiffer | middlewares/errorHandler.js:20 | an unknown type gets 500 with name "Error" on the router path and 400 with the keys on the server |
| Application.SuccessPathsAgree | server.js:130-151 | both paths answer the same reply identically |
| Application.ApiKeyPathsAgree | server.js:158-163 | a message naming the API key is answered 401 on both paths |
| Application.RateLimitPathsAgree | server.js:165-170 | a quota or rate-limit message is answered 429 on both paths |
| Application.ProviderStatusPathsDiffer | middlewares/errorHandler.js:20 | a provider error with a non-zero status, whose message names none of "API key", "quota" and "rate limit" and is neither bare label, keeps that status on the router path and gets 500 on the server |
| Application.BareLabelPathsDiffer | middlewares/errorHandler.js:5-10 | a provider message that is exactly "INVALID_API_KEY" is answered 401 on the router path and 500 on the server |
| Application.BareRateLabelPathsDiffer | middlewares/errorHandler.js:12-17 | a provider message that is exactly "RATE_LIMIT_EXCEEDED" is answered 429 on the router path and 500 on the server |
| Application.ProviderStatusPathsDifferOnMessage | server.js:172-176 | an unrelabelled provider error is answered by the middleware on the router path and 500 on the server |

## Left out

- The Express wiring is not modelled: helmet, cors, the JSON body parser, the rate limiter and its settings, route registration, `app.listen`, and the root and health endpoints (server.js:1-25, 190-212, 222-228; routes/routes.js:22-30). They are framework plumbing.
- The fallback middleware of `server.js` (server.js:214-220) is not modelled. It answers errors raised before the handler runs, such as a malformed JSON body rejected by `express.json()` (server.js:17), and body parsing is not modelled: the handlers receive the parsed body.
- `index.js` is not part of this model. It only starts the server.
- `route/openai.js` is not part of this model. It is a client for a different provider.
- The Gemini SDK (`getGenerativeModel`, `generateContent`, `response.text()`) is a foreign call. It is the `model` parameter, a total function from the prompt to a reply, and a failing `text()` is one of its thrown errors.
- Console logging, response timestamps and `process.env` are not modelled. The metadata has no `timestamp`, and `NODE_ENV === 'development'` is the Boolean parameter `development` of `Server.Generate`.
- ErrorHandler.Handle: `details` (the stack trace, sent only in development) is always absent. Stacks are runtime data.
- LengthConfig.MaxWords: `utils/lengthConfig` is not part of this model. Its table is taken as short = 100, medium = 200 and long = 400, the values of `lengthWords` in `server.js`.
- Server.Generate: `server.js` keeps its own copy of the registry (server.js:27-98), which repeats `config/contentConfigs.js` entry for entry. The model gives both paths the one registry of `ContentConfigs`, so that equality is carried by construction and not proved.
- JavaScript object-lookup quirks are not modelled. Prototype keys such as "constructor" make `contentConfigs[type]` and `lengthWords[length]` truthy, but the registry here has exactly its fourteen keys. Likewise a non-string keyword, whose `.trim()` would throw, is out of scope: request fields are optional strings.
- Strings are sequences of Unicode scalar values, while JavaScript strings are sequences of UTF-16 code units. A keyword holding a lone surrogate (the JSON string `"\uD800"`) cannot be represented, and `charAt(0)` (routes/routes.js:14) reads one code unit where the model reads one character. Nothing changes for the fourteen ASCII keys, or for `trim` and `includes` on well-formed strings.
- `toUpperCase` is modelled for ASCII letters only. Every registry key is lower-case ASCII.
- Request field `type` is called `contentType` in the model, because `type` is a Dafny keyword.
