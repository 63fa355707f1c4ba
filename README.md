# Emoji modifier: the generate-emoji route, modelled in Dafny

The emoji modifier lets a user pick an SVG emoji, describe a change in words,
and get back a new SVG written by a generative model. The only logic on the
server is the `POST /api/generate-emoji` handler. This project models that
handler as pure Dafny functions and proves facts about it. The handler:

1. parses the JSON body and validates it against the request schema: an `svgKey` such
   as `activities/1f3a0` and a `description` of 1 to 200 characters;
2. reads `public/assets/<svgKey>.svg`, answering 404 when it is missing;
3. fills a fixed prompt template with the SVG text and the description;
4. sends the prompt to the model as a single user message;
5. returns the first content block's text as `{ svg }`, or a 500 with a fixed message.

The file system is a `map<string, string>` from paths (relative to the
working directory) to file text. The model's answer is an input `Reply`. The handler
returns its response together with a trace of what it did: first the file
read, then the model call. Because the trace is ordered, the lemmas can state
that nothing is read or called after an early exit.

Modules, one file each:

- `Text` (`text.dfy`, with a small `Wrappers` option type): JavaScript string length in UTF-16 code units; cutting a path into segments and rejoining them, as `path.join` does; first index of a character.
- `Json` (`json.dfy`): parsed JSON values, and a body that does not parse.
- `RequestSchema` (`request_schema.dfy`): the key pattern written out as a grammar (`RegexAccepts`), the equivalent simple grammar (`IsAssetKey`), and `Validate`.
- `Assets` (`assets.dfy`): `path.join` with normalization, and the asset path.
- `Prompt` (`prompt.dfy`): the prompt template and its inverse.
- `Messages` (`messages.dfy`): the outgoing message request, the content blocks, and extraction.
- `Route` (`route.dfy`): the handler `Handle` and its end-to-end lemmas.

A few behaviours of the code that are easy to miss:

- The key pattern carries the `i` flag, so category letters may be upper case (`route.ts:11`).
- `z.object` strips unknown fields; it does not reject them (`route.ts:10`).
- The 200-character bound counts UTF-16 code units, so an emoji outside the Basic Multilingual Plane counts as two (`route.ts:13`).
- An empty reply and a non-text first block each get their own 500 message (`route.ts:106-116`).
- A body that is not JSON makes `request.json()` throw, and the outer `catch` answers with the generic 500, not a 400 (`route.ts:25`, `route.ts:124-130`).

One more fact the proofs show: the pattern's two trailing groups, `(?:\-[a-z0-9]+)*` and `(?:\-[0-9a-f]{4})*`, accept nothing more. The id class `[a-z0-9\-]` already contains every character they can add. In JavaScript, the `i` flag without `u` folds cases through `toUpperCase`, but no non-ASCII character folds onto an ASCII letter (`ſ`, `ı` and the Kelvin sign `K` do not match), so the letter classes are exactly `[A-Za-z]`.

## Model

| member | source | states |
|---|---|---|
| `RequestSchema.RegexAccepts` | app/api/generate-emoji/route.ts:11 | the key pattern as written: `^`, `[a-z]+`, `\/`, `[a-z0-9\-]+`, `(?:\-[a-z0-9]+)*`, `(?:\-[0-9a-f]{4})*`, `$` under the `i` flag; specified by RegexIsAssetKey and the two lemmas below |
| `RequestSchema.IsAssetKey` | app/api/generate-emoji/route.ts:11 | the key check that is actually computed: letters, then the first `/`, then one or more id characters; RegexIsAssetKey proves it equal to the pattern |
| `RequestSchema.RegexIsAssetKey` | app/api/generate-emoji/route.ts:11 | the key pattern, transcribed part by part, accepts exactly: one or more ASCII letters, `/`, one or more ASCII letters, digits or hyphens |
| `RequestSchema.RegexAcceptsOnlyAssetKeys` | app/api/generate-emoji/route.ts:11 | any split of a string into the pattern's five parts shows it fits the simple grammar; the two trailing groups add only id characters |
| `RequestSchema.AssetKeysMatchRegex` | app/api/generate-emoji/route.ts:11 | every key of the simple grammar matches the pattern, with both trailing groups empty |
| `RequestSchema.KeyShape` | app/api/generate-emoji/route.ts:11 | an accepted key is a non-empty letter category, one `/` and a non-empty id; it splits on `/` into exactly those two parts and has no `.` or `\` |
| `RequestSchema.KeySplit` | app/api/generate-emoji/route.ts:11 | an accepted key has exactly one `/`: splitting on it gives exactly the category and the id |
| `RequestSchema.KeyCharset` | app/api/generate-emoji/route.ts:11 | an accepted key contains no `.` and no `\` |
| `RequestSchema.KeyValid` | app/api/generate-emoji/route.ts:11 | `svgKey` is present, is a string, and passes the key check; holds exactly when the field meets the pattern as written |
| `RequestSchema.DescriptionMeetsSchema` | app/api/generate-emoji/route.ts:13 | `description` is present, is a string, and has 1 to 200 UTF-16 code units; see BmpDescriptionBound and LongDescriptionsFail |
| `RequestSchema.Validate` | app/api/generate-emoji/route.ts:10-14 | a non-object body fails as a whole; an object is accepted iff `svgKey` is a string the pattern accepts and `description` a string of 1 to 200 UTF-16 units; on acceptance both fields come back exactly as received; on rejection the issues name exactly the failing fields |
| `RequestSchema.ValidateIgnoresOtherFields` | app/api/generate-emoji/route.ts:10-14 | fields other than `svgKey` and `description` never change the outcome (they are stripped) |
| `Text.Utf16Length` | app/api/generate-emoji/route.ts:13 | JavaScript's `length`, counted in UTF-16 code units: between the character count and twice it; see Utf16LengthBounds |
| `Text.Utf16LengthBounds` | app/api/generate-emoji/route.ts:13 | JavaScript's length lies between the character count and twice it; it equals the character count iff no character is astral, and twice it iff all are |
| `RequestSchema.ShortDescriptionsMeetBound` | app/api/generate-emoji/route.ts:13 | any description of 1 to 100 characters passes, whatever it holds: there is no trimming, so a blank description passes |
| `RequestSchema.BmpDescriptionBound` | app/api/generate-emoji/route.ts:13 | for Basic Multilingual Plane text the bound is exactly 1 to 200 characters |
| `RequestSchema.LongDescriptionsFail` | app/api/generate-emoji/route.ts:7-13 | more than 200 characters always fail |
| `RequestSchema.AstralDescriptionFails` | app/api/generate-emoji/route.ts:13 | 101 astral emoji (202 code units) fail the bound |
| `Assets.NormalizeOnto` | app/api/generate-emoji/route.ts:46 | the normalization step of `path.join`: the result is never longer than its input, and continuing a normalized prefix gives a normalized path (no empty or `.` segment, every `..` in front) |
| `Assets.Normalize` | app/api/generate-emoji/route.ts:46 | the normalization of `path.join` gives a normalized path that is never longer than its input |
| `Assets.NormalizeIdempotent` | app/api/generate-emoji/route.ts:46 | normalization leaves a normalized path unchanged, so normalizing twice is normalizing once |
| `Assets.AssetPath` | app/api/generate-emoji/route.ts:46 | `path.join('public', 'assets', key + '.svg')` relative to the working directory; specified by AssetPathOfKey and UncheckedKeyLeavesAssets |
| `Assets.NormalizePlain` | app/api/generate-emoji/route.ts:46 | path normalization leaves segments that are not empty, `.` or `..` unchanged |
| `Assets.AssetPathOfKey` | app/api/generate-emoji/route.ts:46 | for an accepted key, the joined path is `public/assets/<key>.svg` with four plain segments `public`, `assets`, category, `<id>.svg`, so it stays in the assets directory |
| `Assets.UncheckedKeyLeavesAssets` | app/api/generate-emoji/route.ts:46 | the key check is what keeps the path inside: `../../<name>` is rejected, and joined it would resolve to `<name>.svg` outside the assets directory |
| `Prompt.BuildPrompt` | app/api/generate-emoji/route.ts:61-78 | the template literal filled with the markup and the description; specified by ParseBuild, BuildParse, PromptInjective and PromptEmbedsVerbatim |
| `Prompt.ParseBuild` | app/api/generate-emoji/route.ts:61-78 | reading back a built prompt, given the markup's length, returns exactly the markup and the description |
| `Prompt.BuildParse` | app/api/generate-emoji/route.ts:61-78 | any prompt that parses is the template filled with the parsed parts: outside the two holes all text is constant |
| `Prompt.PromptInjective` | app/api/generate-emoji/route.ts:61-78 | prompts whose markups have the same length are equal only when markup and description are equal |
| `Prompt.PromptEmbedsVerbatim` | app/api/generate-emoji/route.ts:61-78 | the prompt contains the markup unchanged, between a "```svg" line and a "```" line, and contains the line `Modification request: <description>` verbatim |
| `Messages.CreateRequest` | app/api/generate-emoji/route.ts:83-92 | the request of `anthropic.messages.create`: model `claude-3-7-sonnet-20250219`, `max_tokens` 4000, one user message holding the prompt; see ModelCalledWithPrompt |
| `Messages.ExtractSvg` | app/api/generate-emoji/route.ts:95-117 | no blocks gives NoContent; a non-text first block gives UnexpectedFormat; otherwise the first block's text, unchanged |
| `Messages.ExtractIgnoresLaterBlocks` | app/api/generate-emoji/route.ts:98-103 | only the first block matters: blocks after it never change the extraction |
| `Route.ReplyResponse` | app/api/generate-emoji/route.ts:103-122 | a reply maps to status 200 iff its markup was extracted, with body `{ svg }`; an empty reply or a non-text first block gives 500 with its fixed message |
| `Route.Handle` | app/api/generate-emoji/route.ts:21-131 | the handler always answers, with status 200, 400, 404 or 500, and 200 iff the body is `{ svg }`; the trace is the file read and then at most one model call; a read means the body validated; a call means the file existed |
| `Route.UnparseableBodyFails` | app/api/generate-emoji/route.ts:124-130 | a body that is not JSON (when `request.json()` throws) gives 500 "Failed to generate emoji" with an empty trace |
| `Route.InvalidBodyRejected` | app/api/generate-emoji/route.ts:29-37 | a body that fails the schema gives 400 "Invalid request body" with exactly the failing fields as details; nothing is read or called |
| `Route.MissingAssetNotFound` | app/api/generate-emoji/route.ts:46-58 | a missing icon gives 404 "Failed to read SVG file" with details `SVG key: <key>`; the trace is the one read of `public/assets/<key>.svg`; the model is not called |
| `Route.NotFoundDetail` | app/api/generate-emoji/route.ts:55 | the 404 details `SVG key: <key>`; NotFoundDetailHidesPath shows they hold no `.` and so never hold the resolved path |
| `Route.NotFoundDetailHidesPath` | app/api/generate-emoji/route.ts:55 | the 404 details contain no `.`, so they cannot contain the resolved path, which ends in `.svg` |
| `Route.ModelCalledWithPrompt` | app/api/generate-emoji/route.ts:83-92 | with the icon present, the trace is the read followed by one call: the fixed model and token budget, and a single user message whose content is the template filled with the file text and the description as received |
| `Route.FirstTextBlockReturned` | app/api/generate-emoji/route.ts:98-122 | a reply whose first block is text gives 200 with exactly that text, whatever follows it |
| `Route.UpstreamFailures` | app/api/generate-emoji/route.ts:104-130 | a failed call gives 500 "Failed to generate emoji"; an empty reply gives 500 "No content in Claude API response"; a non-text first block gives 500 "Unexpected response format from Claude API" |
| `Route.ReplyUnusedWithoutCall` | app/api/generate-emoji/route.ts:29-58 | when the model is not called, the reply has no effect on the outcome |
| `Route.FilesUsedOnlyAtAssetPath` | app/api/generate-emoji/route.ts:46-58 | the files matter only through the one path in the trace; with no read they do not matter at all |
| `Route.ExampleKeyAccepted` | app/api/generate-emoji/route.ts:11 | `activities/1f3a0` is accepted, with category `activities` and id `1f3a0` |
| `Route.ExampleBodyAccepted` | app/api/generate-emoji/route.ts:10-14 | the body `{svgKey: "activities/1f3a0", description: "make it blue"}` is accepted unchanged |
| `Route.MakeItBlue` | app/api/generate-emoji/route.ts:21-122 | that body, with the stored icon and a text reply `<svg fill="blue" .../>`, gives 200 with exactly that markup |
| `Route.BadKeyRejected` | app/api/generate-emoji/route.ts:29-37 | key `bad key` gives 400 with `svgKey` among the failing fields and an empty trace, whatever the files and the reply |

## Left out

- `islands/EmojiForm.tsx` is not part of this model. It is browser UI: signals, the `fetch` call, alerts, the character counter, and PNG/SVG download.
- The real `fs.readFileSync` and `anthropic.messages.create` are inputs: a map of file texts and a `Reply` value. The client's own timeouts and retries are outside the model.
- Read errors other than a missing file are not modelled. The source answers every read error with the same 404; the model has only "present" or "absent".
- Byte decoding is not modelled: file contents are already text, so `'utf8'` decoding of invalid bytes does not arise.
- Lone UTF-16 surrogates are not modelled. Dafny characters are Unicode scalar values, so a JavaScript string holding one cannot be represented.
- The structure of `result.error.format()` and zod's messages are library behaviour. The 400 details are modelled as the set of failing fields.
- `NextResponse` serialization is not modelled; a response is a status and a tagged body.
- JSON numbers are `real`; only their type matters to the schema. Duplicate keys are taken as already resolved by parsing.
- Two corners of `path.join` are not modelled: keeping a trailing slash, and returning `.` for an empty result. Neither occurs for a path built from an accepted key. `process.cwd()` is left out: paths are relative to the working directory.
- The `message.content &&` guard treats a missing `content` like an empty one. The model always has a block sequence, which is at least the empty sequence.
- The model name and `max_tokens` appear only as constants.
- The content of the generated SVG is never checked by the source and is opaque here.
- `console.log` calls, the API key and other environment reads are left out.
