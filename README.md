# Sora prompt generator: request pipeline model

This project is a Dafny model of the request pipeline in `backend/routes/generate.js`. That service turns a
requested scene layout and a free-text description into a video prompt by asking one of three LLM vendors
(Claude, Gemini, GPT-4o mini). Three pieces are modelled and proved:

- **The template builder** `createSystemPrompt(sceneCount, scenes)` (module `Template`). It is a single
  template literal with three interpolation points: the scene count, one `   - SHOT{n}: {d}초` line per scene
  joined with line feeds, and `scenes[0].duration` as the end of the closing time window. The fixed Korean
  text is kept line by line in `IntroLines`, `FormatLines` and `TrailerLines`. `Render` builds the prompt
  over any such fixed text. `SystemPrompt` is `Render` over the source's own text. The lemmas hold for
  every fixed text, so they hold for the source's.
- **The POST `/generate` handler** (module `Generate`). It runs, in the source's order:
  - the truthiness check on `model`, `sceneCount`, `scenes` and `description`;
  - building the template, which happens before the model token is looked at;
  - the closed switch on `claude`, `gemini` and `gpt4o-mini`;
  - one vendor call;
  - shaping of the response, with `totalDuration` as a left fold from 0.

  `Handle(req, vendor, now)` is `HandleWith` over the source's template text. `HandleWith` returns an
  `Exchange`: the response (400 missing fields, 400 unsupported model, 500 generation failed, or 200 success)
  together with the list of adapter calls made. The list makes "no adapter is called" and "exactly one
  adapter is called" statable.
- **The Gemini prompt** (`GeminiPrompt`): the system prompt, then `\n\n사용자 요청:\n`, then the description.

The three vendor SDKs are a single function parameter, `vendor: AdapterCall -> AdapterResult`. It maps the
one outgoing call an adapter makes (`ClaudeMessages`, `GeminiContent` or `GptCompletion`) to the generated
text or to the error thrown. The clock reading `new Date().toISOString()` is the parameter `now`.
JavaScript's truthiness is written out:
- a string field is truthy when it is present and non-empty;
- `sceneCount` is truthy when it is present and not 0;
- `scenes` is truthy whenever it is present, even when it is empty.

An empty `scenes` array therefore passes the check. It then makes the template throw V8's
`Cannot read properties of undefined (reading 'duration')` at line 36, which gives a 500, even for an
unsupported model token.

Module `Text` supplies the JavaScript string operations the template uses:
- `Join`, the `join('\n')`, paired with `Split` and round-trip lemmas in both directions;
- `ShowInt`, the `${n}` rendering of an integer, paired with `ReadInt`.

The model reproduces these behaviours of the code as written, though a reader might expect otherwise:
- `sceneCount` is never compared with `scenes.length` (`SceneCountNotChecked`);
- an empty `scenes` array is not a validation error, but a `TypeError` and a 500;
- the 500 response carries `error.message` rather than only a generic text;
- the closing time window ends at `scenes[0].duration` for every shot. This is reproduced as written
  (`PromptClosingWindow`, `ClosingWindowUsesFirstDuration`).

## Model

| member | source | states |
|---|---|---|
| `Template.SystemPrompt` | backend/routes/generate.js:19-67 | building the prompt fails exactly when `scenes` is empty, and then with V8's TypeError message for reading `duration` of `scenes[0]` |
| `Template.Render` | backend/routes/generate.js:20-66 | the same for the template over any fixed text: failure if and only if there are no scenes |
| `Template.CountLine` | backend/routes/generate.js:26 | the scene-count line `1. 총 {sceneCount}개의 장면(SHOT)을 생성해야 합니다.`; the definition that `ReadCountLineOf` and `PromptCountLine` reason about |
| `Template.ShotLine` | backend/routes/generate.js:28 | the `   - SHOT{number}: {duration}초` line for one scene; the definition that `ReadShotLineOf` reasons about |
| `Template.ShotLines` | backend/routes/generate.js:28 | the `scenes.map(...)`: exactly one SHOT line per scene, the k-th line rendering the k-th scene |
| `Template.ClosingWindowLine` | backend/routes/generate.js:36 | the closing time window line `     * 10–{end}s: ...`; the definition that `ReadClosingWindowLineOf` and `PromptClosingWindow` reason about |
| `Template.PromptLines` | backend/routes/generate.js:20-66 | the line view of the prompt is, in order: the fixed introduction, the scene-count line, the heading, exactly one SHOT line per scene in input order with no extra line after them, the fixed format block, the closing-window line for `scenes[0].duration`, and the fixed trailer |
| `Template.PromptShotLines` | backend/routes/generate.js:28 | the prompt has a fixed number of lines plus one per scene, and its k-th SHOT line reads back as `scenes[k]` (number and duration) |
| `Template.ReadShotLineOf` | backend/routes/generate.js:28 | a `   - SHOT{number}: {duration}초` line determines its scene: reading it back gives the scene |
| `Template.PromptCountLine` | backend/routes/generate.js:26 | the scene-count line states `sceneCount` verbatim, whatever the scenes are |
| `Template.ReadCountLineOf` | backend/routes/generate.js:26 | the count line reads back as the count it was built from |
| `Template.PromptClosingWindow` | backend/routes/generate.js:36 | the closing time window line ends at the first scene's duration |
| `Template.ReadClosingWindowLineOf` | backend/routes/generate.js:36 | the closing-window line reads back as the end it was built from |
| `Template.PromptsDifferOnlyInShotLines` | backend/routes/generate.js:26-36 | two scene lists with the same first duration give prompts equal outside the SHOT lines: later durations reach no other line |
| `Template.SceneCountNotChecked` | backend/routes/generate.js:26-28 | a count of 3 with one scene gives a prompt that announces 3 scenes and has exactly one SHOT line |
| `Template.ClosingWindowUsesFirstDuration` | backend/routes/generate.js:28-36 | with durations 15, 20 and 10, the SHOT lines carry 20 and 10 while the closing window still ends at 15 |
| `Text.SplitJoin` | backend/routes/generate.js:28 | `join('\n')` of lines without line feeds splits back into exactly those lines |
| `Text.JoinSplit` | backend/routes/generate.js:28 | every text is the join of its lines |
| `Text.JoinAppend` | backend/routes/generate.js:28 | joining two non-empty groups of lines puts exactly one line feed between them |
| `Text.SplitAppend` | backend/routes/generate.js:20-66 | a line feed in a template splits its line view into the line views of the two sides |
| `Text.Join` | backend/routes/generate.js:28 | `join('\n')`: the lines with one line feed between neighbours and none after the last; the definition that `SplitJoin`, `JoinSplit` and `JoinAppend` reason about |
| `Text.ShowInt` | backend/routes/generate.js:26-36 | the `${n}` rendering of an integer, which holds no line feed and no colon; `ReadShowInt` proves that it reads back |
| `Text.ReadShowInt` | backend/routes/generate.js:26-36 | an integer interpolated into the template reads back as that integer |
| `Generate.SelectProvider` | backend/routes/generate.js:141-155 | a token selects an adapter if and only if it is one of `claude`, `gemini`, `gpt4o-mini`, and the adapter's token is that token |
| `Generate.SelectProviderToken` | backend/routes/generate.js:141-150 | each token selects its own provider and no other |
| `Generate.AdapterRequest` | backend/routes/generate.js:70-120 | Claude and GPT receive the system prompt and the description as separate messages; Gemini receives the one concatenated prompt |
| `Generate.GeminiPrompt` | backend/routes/generate.js:91-94 | the Gemini prompt starts with the whole system prompt, ends with the whole description, and has exactly the 10 characters `\n\n사용자 요청:\n` between them |
| `Generate.GeminiPromptLines` | backend/routes/generate.js:91-94 | the Gemini prompt's lines are the system prompt's lines, a blank line, `사용자 요청:`, then the description's lines |
| `Generate.ReduceDurations` | backend/routes/generate.js:165 | the reduce from a starting sum adds that sum to the sum of all durations |
| `Generate.TotalDuration` | backend/routes/generate.js:165 | `totalDuration` equals the sum of the durations |
| `Generate.SumDurationsAppend` | backend/routes/generate.js:165 | the total of two scene lists joined is the sum of their totals |
| `Generate.TotalDurationAtLeastSceneCount` | backend/routes/generate.js:165 | with every duration at least 1, the total is at least the number of scenes |
| `Generate.TotalDurationExample` | backend/routes/generate.js:165 | durations 15, 20 and 10 total 45 |
| `Generate.Status` | backend/routes/generate.js:129-174 | the HTTP status of each response: 400 for the missing-field and unsupported-model responses (lines 129 and 152), 500 exactly for the generation failure (line 174), and the implicit 200 of `res.json` for success (line 159); the definition that the `PromptField`, `ErrorText` and `HandleOutcomes` rows reason about |
| `Generate.PromptField` | backend/routes/generate.js:159-178 | a response has a `prompt` field if and only if its status is 200, and if and only if it has no `error` text |
| `Generate.ErrorText` | backend/routes/generate.js:128-178 | the `error` texts of lines 130, 153 and 175: present exactly in the responses whose status is not 200 |
| `Generate.TruthyString` | backend/routes/generate.js:128 | JavaScript truthiness of `model` and `description`: false for an absent or null field and for the empty string; the definition that `HandleWith` reasons about |
| `Generate.TruthyNumber` | backend/routes/generate.js:128 | JavaScript truthiness of `sceneCount`: false for an absent or null field and for 0 |
| `Generate.TruthyArray` | backend/routes/generate.js:128 | JavaScript truthiness of `scenes`: false only for an absent or null field; an empty array is truthy |
| `Generate.HasRequiredFields` | backend/routes/generate.js:128 | the negation of `!model \|\| !sceneCount \|\| !scenes \|\| !description`; the definition that `HandleWith` reasons about |
| `Generate.Handle` | backend/routes/generate.js:123-180 | the handler over the program's own template text: missing-field response if and only if a field is falsy; at most one adapter call, made exactly when the fields pass, `scenes` is non-empty and the token is supported |
| `Generate.HandleWith` | backend/routes/generate.js:123-180 | missing-field 400 if and only if a field is falsy, with the fixed `required` list and no call. Unsupported 400 if and only if the fields pass, `scenes` is non-empty and the token is unknown, with the fixed `supported` list and no call. Empty `scenes` gives the TypeError 500 with no call. At most one adapter call, made exactly when the token is supported. Success carries the vendor's text, and a 500 after a call carries the vendor's error message |
| `Generate.HandleDispatch` | backend/routes/generate.js:136-150 | a supported token makes exactly one call, to its own adapter, with the system prompt built from the request and the request's description |
| `Generate.HandleSuccessMetadata` | backend/routes/generate.js:159-167 | the success response echoes `model` and `sceneCount`, has `totalDuration` equal to the sum of the durations, and has status 200 |
| `Generate.HandleOutcomes` | backend/routes/generate.js:128-178 | every status is 200, 400 or 500. A 500 occurs if and only if the fields pass and either `scenes` is empty or the token is supported and its vendor call throws. A 200 occurs if and only if the fields pass, `scenes` is non-empty, the token is supported and its vendor call returns text. A 500 has an `error` text and no `prompt` |
| `Generate.HandleVendorFailure` | backend/routes/generate.js:170-178 | a vendor error on a valid request gives a 500 with the vendor's message and no prompt |
| `Generate.EmptyScenesBeatUnsupportedModel` | backend/routes/generate.js:128-155 | an empty `scenes` array with an unknown token gives the TypeError 500, not the unsupported-model 400 |
| `Generate.MissingDescriptionRefused` | backend/routes/generate.js:128-133 | a request without a description gets the missing-field response with `required` exactly `model, sceneCount, scenes, description`, and no adapter call |
| `Generate.UnknownModelRefused` | backend/routes/generate.js:151-155 | `unknown-model` gets the unsupported-model response with `supported` exactly `claude, gemini, gpt4o-mini`, and no adapter call |

## Left out

- The vendor SDK clients and calls (backend/routes/generate.js:8-16, 70-120) are foreign network code. They are the `vendor` parameter, so the model does not cover:
  - the vendor model names and the API keys;
  - `temperature: 0.7` and `max_tokens: 4096`;
  - how each SDK response is unpacked (`content[0].text`, `response.text()`, `choices[0].message.content`). A failure while unpacking counts as a throw.
  - an adapter that returns `null` or `undefined` without throwing. For example, GPT's `choices[0].message.content` is `null` on a refusal, and the 200 response then carries `prompt: null`. `AdapterResult.Generated` always holds a string.
- `new Date().toISOString()` is the clock, so it is the parameter `now`.
- `console.error` is logging. The `details` stack trace, sent only when `NODE_ENV` is `development`, depends on the environment. Neither is modelled.
- Express routing, `async`/`await`, and `res.status().json()` are plumbing. The outcome is the `Response` datatype, with its status given by `Status`.
- Request bodies are typed: `model` and `description` are strings, `sceneCount` is an integer, and `scenes` is an array of `{number, duration}` with integer fields. Absent and `null` fields are both `None`. The model therefore does not cover other JSON values. For example, a string `sceneCount`, a non-array `scenes` (which would throw at `scenes.map` and give a 500), `null` scene elements, and fractional or `NaN` durations.
- `EmptyScenesError` is the `TypeError` message of V8 9.3 and later (Node.js 16.9 and later). Older Node.js versions throw `Cannot read property 'duration' of undefined` instead. Only the newer message is modelled.
- `ShowInt`: JavaScript renders numbers of magnitude at least 10^21 with an exponent, and numbers are doubles. Only integers in plain decimal are modelled.
- `TotalDuration`: JavaScript adds doubles, which are exact only below 2^53. The model adds unbounded integers.
- The fixed Korean text is kept verbatim. The proofs do not establish that its lines contain no line feed. The line-structure lemmas therefore describe each fixed block by its own line view, `IntroView`, `FormatView` or `TrailerView`, which does not depend on the request.
- That building the template twice gives identical text holds by construction, since Dafny functions are deterministic. No lemma states it.
- `backend/server.js` (bootstrap, CORS and JSON middleware, static files, health check) and `frontend/js/app.js` (DOM, `fetch`, clipboard, download) are I/O and are not part of this model.
