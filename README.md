# Poster prompt assistant: state machine, request builder and form guards

This project models the stateful core of a single-page assistant that turns a
short marketing idea into an eleven-field creative strategy, a final
image-generation prompt and three follow-up suggestions, all produced by one
call to an external language model.

What is modelled:

- **Types** (types.ts): `Language`, the eleven-field `StrategyData` as a fixed
  record with keyed read (`Get`) and keyed copy-and-replace (`With`),
  `PromptResponse` and `LoadingState`.
- **GeminiService** (services/geminiService.ts): the system instruction, with
  the six text segments copied verbatim; the response schema as data; and
  `generateCreativePrompt` as a method whose checks run in the order of the
  source. The API key, the endpoint and `JSON.parse` are parameters.
- **InputForm** (components/InputForm.tsx): the submit guard
  `input.trim() && !isLoading`, the button's disabled flag, and the form's one
  state cell, `input`, in a class `Form` with the submit and key handlers.
- **StrategyCard** (components/StrategyCard.tsx): the display order of the
  eleven keys, how each textarea's edit reaches `onUpdate`, reading the panel
  back, and the row count.
- **App** (App.tsx): the state cells `loading`, `data` and `language` as a class
  `AppState`. `handleGenerate` is split into a begin step and a resolve event,
  plus a method that runs the whole sequence against the service model. The
  class invariant `Valid()` holds after every transition: a result is held
  exactly in the success state, and a message exactly in the error state,
  where it is always the fixed failure message.
- **JsString**: the two JavaScript builtins the core relies on. `trim` removes
  the ECMAScript whitespace and line-terminator code points. `split` is on a
  one-character separator.

Two behaviours of the code that the model follows as written:

- The code clears the held result when a new generation *begins*
  (App.tsx:20), not when the new result arrives.
- The code never checks that there are exactly three suggestions, and the
  schema does not bound the array either. `PromptResponse.suggestions` is any
  sequence.

## Model

| member | source | states |
|---|---|---|
| `Types.Keys` | types.ts:3-16 | `StrategyData` has exactly eleven keys; each of them appears once, at its declaration position |
| `Types.KeyNameInjective` | types.ts:4-14 | distinct keys have distinct property names |
| `Types.Get` | components/StrategyCard.tsx:54 | `strategy[item.key]`: the keyed read of one field (`With` and `StrategyExtensional` state what it returns) |
| `Types.With` | App.tsx:42-45 | `{ ...strategy, [field]: value }`: the named field reads back the new value and every other field keeps its old value |
| `Types.StrategyExtensional` | types.ts:3-16 | a strategy is fully determined by its eleven keyed reads (no hidden fields) |
| `JsString.TrimStart` | components/InputForm.tsx:18 | drops only leading whitespace, and the result does not start with whitespace |
| `JsString.TrimEnd` | components/InputForm.tsx:18 | drops only trailing whitespace, and the result does not end with whitespace |
| `JsString.Trim` | components/InputForm.tsx:18 | `trim()` is no longer than its input and neither starts nor ends with whitespace |
| `JsString.TrimEmptyIff` | components/InputForm.tsx:18 | `trim()` is empty if and only if the text is whitespace only |
| `JsString.Split` | components/StrategyCard.tsx:58 | `split('\n')` yields one more part than there are line feeds, and no part contains a line feed |
| `JsString.JoinSplit` | components/StrategyCard.tsx:58 | joining the parts of a split with the separator gives back the text |
| `GeminiService.GetSystemInstruction` | services/geminiService.ts:4-42 | 'vi' gives the three Vietnamese segments, any other language the three English ones, joined by blank lines in the order role, logic, structure |
| `GeminiService.InstructionDeterminesLanguage` | services/geminiService.ts:5-41 | the instruction is never empty, and the two languages get different instructions |
| `GeminiService.StrategySchemaAgrees` | services/geminiService.ts:47-66 | `strategy` is an object of string properties; its required list is its property list, has no duplicates and equals the `StrategyData` key names in declaration order |
| `GeminiService.StrategySchema` | services/geminiService.ts:47-66 | the `strategy` part of the schema: an object with eleven properties |
| `GeminiService.ResponseSchema` | services/geminiService.ts:44-78 | the top level requires exactly `strategy`, `finalPrompt` and `suggestions`, which are its properties in that order; `finalPrompt` is a string and `suggestions` an array of strings |
| `GeminiService.ServiceError.Message` | services/geminiService.ts:82-101 | the thrown message: "API Key is missing." for a missing key, "No response from Gemini" for an empty text, the cause itself for a rethrown endpoint or decoding error |
| `GeminiService.BuildRequest` | services/geminiService.ts:88-98 | the request carries the user's text untouched, the language's instruction, JSON output mode and the response schema |
| `GeminiService.Outcome` | services/geminiService.ts:80-108 | a missing or empty key always gives "API Key is missing."; a result only comes from the endpoint answering, with a non-empty text that the decoder accepts, and it is exactly what the decoder returned |
| `GeminiService.EmptyTextIsNoResponse` | services/geminiService.ts:100-101 | an absent or empty reply text is the "No response from Gemini" error, whatever the decoder would do |
| `GeminiService.GenerateCreativePrompt` | services/geminiService.ts:80-108 | the method's result equals `Outcome`. A missing or empty key fails with "API Key is missing." before any request is built. Otherwise the request built is `BuildRequest(userInput, language)`. An endpoint failure or a decoding failure is passed on unchanged. An absent or empty text fails with "No response from Gemini". A result only ever comes from decoding a non-empty text |
| `InputForm.CanSubmit` | components/InputForm.tsx:18 | the guard `input.trim() && !isLoading`; it never passes while loading or for empty text |
| `InputForm.SubmitDisabled` | components/InputForm.tsx:50 | the button is disabled exactly when the submit guard refuses |
| `InputForm.CanSubmitIff` | components/InputForm.tsx:18 | the guard passes if and only if nothing is loading and the text has a non-whitespace character |
| `InputForm.WhitespaceNeverSubmits` | components/InputForm.tsx:16-29 | whitespace-only or empty text never passes the guard |
| `InputForm.Form.constructor` | components/InputForm.tsx:13 | the input starts empty |
| `InputForm.Form.SetInput` | components/InputForm.tsx:38 | typing replaces the input with the textarea's value |
| `InputForm.Form.HandleSubmit` | components/InputForm.tsx:16-21 | `onSubmit` is called if and only if the guard passes, and with the untrimmed input |
| `InputForm.Form.HandleKeyDown` | components/InputForm.tsx:23-29 | any key event other than Enter with the meta key submits nothing; Enter with the meta key submits under the same guard, and passes the untrimmed input |
| `StrategyCard.Items` | components/StrategyCard.tsx:18-30 | the display order is the declaration order concept … techSpecs: eleven items, each key exactly once |
| `StrategyCard.ItemsFollowSchemaOrder` | components/StrategyCard.tsx:18-30 | the panel's key order is the schema's required order |
| `StrategyCard.Display` | components/StrategyCard.tsx:54 | textarea `i` shows the stored value of the `i`-th item's own key |
| `StrategyCard.OnChange` | components/StrategyCard.tsx:55 | an edit in textarea `i` calls `onUpdate` with that textarea's key and the typed text |
| `StrategyCard.EditShowsInOwnTextarea` | components/StrategyCard.tsx:53-55 | an edit in textarea `i` goes to that textarea's own key: afterwards textarea `i` shows the typed text and every other textarea is unchanged |
| `StrategyCard.ReadBack` | components/StrategyCard.tsx:43-55 | sending every textarea's displayed value through `onUpdate` reproduces the strategy field for field, whatever strategy the updates start from |
| `StrategyCard.Rows` | components/StrategyCard.tsx:58 | the row count is at least 2 and equals the larger of 2 and the number of lines |
| `App.Refinement` | App.tsx:32-34 | 'en' prefixes "Based on the previous result, ", the other language "Dựa trên kết quả trước, " |
| `App.RefinementInjective` | App.tsx:32-34 | the refinement reveals both its language and its suggestion |
| `App.AppState.Valid` | App.tsx:12-28 | the invariant every transition keeps: a result is held exactly in the success state, a message exactly in the error state and it is then the fixed message; so data implies success and error implies no data |
| `App.AppState.constructor` | App.tsx:12-14 | the state starts idle, with no data and in English |
| `App.AppState.SetLanguage` | App.tsx:14 | only the language changes |
| `App.AppState.BeginGenerate` | App.tsx:18-20 | from any state: loading, no message, no data, language kept; the call carries the input and the current language |
| `App.AppState.ResolveSuccess` | App.tsx:22-24 | the stored data is exactly the returned result and the status is success |
| `App.AppState.ResolveFailure` | App.tsx:25-27 | the status is error with the fixed message, and there is no data |
| `App.AppState.HandleGenerate` | App.tsx:18-28 | the outcome is the client's `Outcome` for the input and the language held when generation began; success then holds exactly that result; any failure ends in error with the fixed message and no data |
| `App.AppState.HandleSuggestionClick` | App.tsx:30-36 | submits the refinement of the suggestion in the current language, exactly as `BeginGenerate` would |
| `App.AppState.HandleStrategyUpdate` | App.tsx:38-48 | with data held, only the named field changes, and the other ten fields, `finalPrompt` and `suggestions` are kept; without data it does nothing; the status is kept |

## Left out

- The `@google/genai` client and the network call are not modelled. The
  endpoint is a parameter that maps a request to a reply or a failure.
- GeminiService.GenerateCreativePrompt: the ghost `sent` records the one request the method builds, but it is not a count of endpoint calls. The endpoint is a pure function parameter, so the model cannot see a retry; "at most one attempt" holds only because the method's code has no loop.
- The model name ("gemini-2.5-flash") and the temperature (0.7) are fixed
  configuration. `Request` does not carry them.
- `JSON.parse` is a parameter. The source trusts the structured output and does
  not validate it, so the model does not check the decoded value against the
  schema.
- Reading `process.env.API_KEY` is I/O. The key is a parameter.
- The `console.error` logging is not modelled.
- `generateCreativePrompt`'s default language ('en') is not modelled. Its only
  caller always passes a language.
- Overlapping generations are not modelled, so the last-writer-wins race is
  not either. A resolve event requires the loading state, which is what a
  strictly sequential begin/resolve pairing guarantees.
- Rendering is presentation and is not modelled: JSX, CSS, icons, labels from
  the translation table, `window.scrollTo`, and the textarea being disabled
  while loading.
- components/PromptResult.tsx (clipboard copy, `copied` flag, timer) and
  components/Header.tsx are browser I/O and presentation. The language
  toggle is `AppState.SetLanguage`.
- Characters are Unicode scalar values, not the UTF-16 code units of
  JavaScript strings. This makes no difference to `trim` or to `split('\n')`,
  since every whitespace code point lies in the Basic Multilingual Plane.
- JsString.Trim: the contract does not say which part of the text is kept.
  It only says that the result neither starts nor ends with whitespace, and
  `TrimEmptyIff` says when the result is empty, which is all the guard uses.
- The schema field descriptions are carried as data. No property is stated
  about them.
